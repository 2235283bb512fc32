/** The transaction engine as the hardware keeps it: registers updated in place from the bits of the
    instruction word, one bus event or one clock at a time (rtl/usb_trans.v), and its receive timeout
    counter. */
module Core {
  import opened Isa
  import opened Assembler
  import opened Engine

  class UsbTrans {
    var pc: nat
    var a: Nib
    var evt: Nib
    var pktPid: Nib
    var t: Trans
    var x: Xfer
    var cel: bool
    var celEna: bool
    var ram: Ram
    var outs: seq<Out>

    function View(): Regs
      reads this
    {
      Regs(evt, pktPid, t, x, cel, celEna, ram, outs)
    }

    /** The endpoint's status and current descriptor, read from the status memory. */
    method Fetched(pid: Nib, endp: nat) returns (trans: Trans, xfer: Xfer)
      ensures trans == LatchTrans(View(), pid, endp) && xfer == LatchXfer(View(), pid, endp)
    {
      var e := Fetch(ram, EpId(endp, pid == PID_IN));
      var cur := if e.ctrl then pid == PID_SETUP else e.idx;
      var bd := e.At(cur);
      trans := Trans(EpId(endp, pid == PID_IN), pid == PID_SETUP, cel,
                     e.epType, e.dual, e.ctrl, cur, e.idx, e.dt && pid != PID_SETUP, bd.state);
      xfer := Xfer(bd.len % 1024, false, 0, 0);
    }

    /** A token: latch the endpoint, fetch its status and current descriptor. */
    method OnToken(pid: Nib, endp: nat, ours: bool)
      modifies this
      ensures View() == Arrive(old(View()), Token(pid, endp, ours)) && a == old(a) && pc == old(pc)
    {
      var trans, xfer := Fetched(pid, endp);
      t := trans;
      x := xfer;
      pktPid := if ours then pid else PID_INVAL;
      evt := evt.Or(EVT_RX_OK);
    }

    method OnPacket(good: bool, pid: Nib, bytes: nat)
      modifies this
      ensures View() == Arrive(old(View()), if good then Packet(pid, bytes) else Broken(bytes)) && a == old(a)
        && pc == old(pc)
    {
      x := x.(len := (x.len + bytes) % 1024, stored := if x.zl then 0 else Min(x.bdLen, bytes));
      if good {
        pktPid := pid;
      }
      evt := evt.Or(if good then EVT_RX_OK else EVT_RX_ERR);
    }

    /** The engine as a machine that runs a ROM. */
    function Running(): Flat<Cpu>
      reads this
    {
      Flat(pc, Cpu(a, View(), NoMore))
    }

    /** The A register: bits 2:1 select, bit 0 folds the data toggle in. */
    method LoadA(op: Word)
      modifies this`a
      ensures a == if Decode(op).Ld? then Load(View(), Decode(op).src) else old(a)
    {
      if !op.d3.b3 && !op.d3.b2 && !op.d3.b1 && op.d3.b0 {
        if !op.d0.b2 && !op.d0.b1 {
          a := evt;
        } else if !op.d0.b2 {
          a := pktPid.Xor(Nib(t.dt && op.d0.b0, false, false, false));
        } else if !op.d0.b1 {
          a := Nib(t.cel, t.epType.t2, t.epType.t1, t.epType.t0);
        } else {
          a := Nib(false, t.bdState.t2, t.bdState.t1, t.bdState.t0);
        }
      }
    }

    /** The data toggle, the next index and the descriptor's state. */
    method UpdateTrans(op: Word)
      modifies this`t
      ensures var i := Decode(op); t == if i.Ep? then EpTrans(old(t), i.newState, i.bdiFlip, i.dtFlip) else old(t)
    {
      var opEp := !op.d3.b3 && !op.d3.b2 && op.d3.b1 && !op.d3.b0;
      t := t.(dt := t.dt != (opEp && op.d0.b0),
              idxNxt := t.idxNxt != (opEp && op.d0.b1 && t.dual),
              bdState := if opEp && op.d0.b2 then Tri(op.d1.b1, op.d1.b0, op.d0.b3) else t.bdState);
    }

    /** Status word and descriptor, written one after the other. */
    method WriteWords()
      modifies this`ram
      ensures ram == WriteBack(old(ram), t, x.len)
    {
      var e := Fetch(ram, t.ep);
      var bd := Bd(t.bdState, t.isSetup, x.len);
      var bd0, bd1 := if t.idxCur then e.bd0 else bd, if t.idxCur then bd else e.bd1;
      ram := ram[t.ep := EpStatus(t.epType, t.dual, t.ctrl, t.idxNxt, t.dt, bd0, bd1)];
    }

    /** The endpoint registers and the lockout bit; bit 7 issues the write-back. */
    method UpdateEp(op: Word)
      requires cel ==> celEna
      modifies this`t, this`cel, this`ram
      ensures cel ==> celEna
      ensures View() == if Decode(op).Ep? then Exec(old(View()), Decode(op)) else old(View())
    {
      var opEp := !op.d3.b3 && !op.d3.b2 && op.d3.b1 && !op.d3.b0;
      UpdateTrans(op);
      cel := celEna && (cel || (opEp && op.d2.b0));
      if opEp && op.d1.b3 {
        WriteWords();
      }
    }

    /** Length, events, packets and notifications. */
    method Strobes(op: Word)
      modifies this`x, this`evt, this`outs
      ensures View() == if Decode(op).Ep? then old(View()) else Exec(old(View()), Decode(op))
    {
      if !op.d3.b3 && !op.d3.b2 && op.d3.b1 && op.d3.b0 {
        x := x.(zl := true);
      }
      if !op.d3.b3 && op.d3.b2 && op.d3.b1 && !op.d3.b0 {
        evt := evt.And(op.d0.Not());
      }
      if !op.d3.b3 && op.d3.b2 && !op.d3.b1 && !op.d3.b0 {
        var pid := op.d0.Xor(Nib(op.d1.b0 && t.dt, false, false, false));
        outs := outs + [Sent(t.ep, pid, if x.zl then 0 else x.bdLen)];
      }
      if !op.d3.b3 && op.d3.b2 && !op.d3.b1 && op.d3.b0 {
        outs := outs + [Notified(op.d0, t.ep, t.isSetup, t.idxCur)];
      }
    }

    /** The program counter: bit 15 and the masked comparison decide, bit 14 inverts. */
    method Sequence(op: Word)
      modifies this`pc
      ensures pc == if Decode(op).Jmp? && Decode(op).cond.Taken(a) then Decode(op).target else (old(pc) + 1) % 256
    {
      var bits := a.And(op.d1).Xor(op.d0);
      var match_ := bits == ZERO;
      if op.d3.b3 && match_ != op.d3.b2 {
        pc := 64 * (2 * Bit(op.d3.b1) + Bit(op.d3.b0)) + 4 * Value(op.d2);
      } else {
        pc := (pc + 1) % 256;
      }
    }

    /** One clock with no event coming in: what the bits of the word do to the registers is the step
        that the ROM's machine takes with the instruction they encode. */
    method Clock(rom: seq<Word>)
      requires pc < |rom| && (cel ==> celEna)
      modifies this
      ensures Running() == FlatStep(rom, TheMachine(), old(Running())) && (cel ==> celEna)
    {
      var op := rom[pc];
      ghost var was := Running();
      Sequence(op);
      LoadA(op);
      UpdateEp(op);
      Strobes(op);
      StepIs(op, was.s);
    }
  }

  /** The machine's step, when no event waits. */
  lemma StepIs(op: Word, c: Cpu)
    requires c.ins.NoMore?
    ensures Step(Decode(op), c) == Cpu(if Decode(op).Ld? then Load(c.r, Decode(op).src) else c.a,
                                       Exec(c.r, Decode(op)), NoMore)
  {
  }

  // ---- The receive timeout -------------------------------------------------------------------

  /** The ten-bit counter: its top bit, which enables it, and the nine bits that count down. */
  datatype Rto = Rto(armed: bool, count: nat)

  /** `EVT_RTO` loads the count's top bit, but not the enabling bit. */
  function RtoLoad(timeout: nat): Rto {
    Rto(false, 256 + timeout)
  }

  function RtoClock(c: Rto, rxStart: bool): Rto {
    Rto(c.armed && c.count >= 256 && !rxStart, if c.armed then (c.count + 511) % 512 else c.count)
  }

  predicate RtoNow(c: Rto) {
    c.armed && c.count < 256
  }

  function RtoRun(c: Rto, starts: seq<bool>): Rto {
    if starts == [] then c else RtoClock(RtoRun(c, starts[..|starts| - 1]), starts[|starts| - 1])
  }

  function Quiets(n: nat): seq<bool> {
    seq(n, _ => false)
  }

  /** Started with the enabling bit as given, with nothing received, the counter fires at all if
      and only if that bit was set; and then exactly once, after `timeout + 1` clocks. */
  lemma {:induction false} RtoFires(armed: bool, timeout: nat, n: nat)
    requires timeout < 256
    ensures RtoNow(RtoRun(Rto(armed, 256 + timeout), Quiets(n))) <==> armed && n == timeout + 1
    ensures n <= timeout + 1 ==>
      RtoRun(Rto(armed, 256 + timeout), Quiets(n)) == Rto(armed, if armed then 256 + timeout - n else 256 + timeout)
    ensures n > timeout + 1 ==> !RtoRun(Rto(armed, 256 + timeout), Quiets(n)).armed
  {
    if n > 0 {
      assert Quiets(n)[..n - 1] == Quiets(n - 1);
      RtoFires(armed, timeout, n - 1);
    }
  }

  /** As the microcode loads it, it never fires, whatever is received. */
  lemma {:induction false} RtoNeverFires(timeout: nat, starts: seq<bool>)
    ensures !RtoNow(RtoRun(RtoLoad(timeout), starts)) && RtoRun(RtoLoad(timeout), starts) == RtoLoad(timeout)
  {
    if starts != [] {
      RtoNeverFires(timeout, starts[..|starts| - 1]);
    }
  }
}
