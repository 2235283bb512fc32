/** The transaction engine around the microcode: event latch, endpoint status fetch and
    write-back, data toggle, buffer index, lockout bit, length counters (rtl/usb_trans.v). */
module Engine {
  import opened Isa
  import opened Assembler

  // Packet identifiers
  const PID_OUT := Nib(false, false, false, true)
  const PID_IN := Nib(true, false, false, true)
  const PID_SETUP := Nib(true, true, false, true)
  const PID_SOF := Nib(false, true, false, true)
  const PID_DATA0 := Nib(false, false, true, true)
  const PID_DATA1 := Nib(true, false, true, true)
  const PID_ACK := Nib(false, false, true, false)
  const PID_NAK := Nib(true, false, true, false)
  const PID_STALL := Nib(true, true, true, false)
  const PID_INVAL := ZERO

  // Event bits
  const EVT_RX_OK := Nib(false, false, false, true)
  const EVT_RX_ERR := Nib(false, false, true, false)
  const EVT_TX_DONE := Nib(false, true, false, false)
  const EVT_TIMEOUT := Nib(true, false, false, false)

  // Buffer descriptor states
  const BD_NONE := Tri(false, false, false)
  const BD_RDY_DATA := Tri(false, true, false)
  const BD_RDY_STALL := Tri(false, true, true)
  const BD_DONE_OK := Tri(true, false, false)
  const BD_DONE_ERR := Tri(true, false, true)

  predicate IsDone(s: Tri) { s == BD_DONE_OK || s == BD_DONE_ERR }

  predicate IsToken(pid: Nib) {
    pid == PID_OUT || pid == PID_IN || pid == PID_SETUP
  }

  // ---- The endpoint status RAM ---------------------------------------------------------------

  datatype Bd = Bd(state: Tri, setup: bool, len: nat)

  /** One direction of one endpoint: its status word and its two buffer descriptors. */
  datatype EpStatus = EpStatus(epType: Tri, dual: bool, ctrl: bool, idx: bool, dt: bool, bd0: Bd, bd1: Bd) {
    function At(i: bool): Bd {
      if i then bd1 else bd0
    }

    function With(i: bool, bd: Bd): EpStatus {
      if i then this.(bd1 := bd) else this.(bd0 := bd)
    }

    /** The status word of another, with these descriptors. */
    function Status(e: EpStatus): EpStatus {
      e.(bd0 := bd0, bd1 := bd1)
    }

    /** The descriptor a token uses: control endpoints keep index 1 for SETUP. */
    function Current(isSetup: bool): bool {
      if ctrl then isSetup else idx
    }
  }

  /** Writing a descriptor leaves the status word alone. */
  lemma WithStatus(e: EpStatus, i: bool, bd: Bd)
    ensures var r := e.With(i, bd); r == e.(bd0 := r.bd0, bd1 := r.bd1)
  {
  }

  datatype EpId = EpId(endp: nat, isIn: bool)

  const NO_BD := Bd(BD_NONE, false, 0)
  const NO_EP := EpStatus(Tri(false, false, false), false, false, false, false, NO_BD, NO_BD)

  /** The RAM powers up as zeroes: an endpoint never configured does not exist. */
  type Ram = map<EpId, EpStatus>

  function Fetch(ram: Ram, id: EpId): EpStatus {
    if id in ram then ram[id] else NO_EP
  }

  // ---- Registers -----------------------------------------------------------------------------

  /** What the engine shows the outside: packets sent (in whose
      transaction, with how much data) and notifications. */
  datatype Out =
    | Sent(ep: EpId, pid: Nib, len: nat)
    | Notified(code: Nib, ep: EpId, setup: bool, bd: bool)

  /** What a token latches: the endpoint, its status and its current descriptor. */
  datatype Trans = Trans(
    ep: EpId, isSetup: bool, cel: bool,
    epType: Tri, dual: bool, ctrl: bool, idxCur: bool, idxNxt: bool, dt: bool, bdState: Tri)

  /** The length counters: the descriptor's length, whether it was zeroed, bytes counted, bytes
      written to the buffer. */
  datatype Xfer = Xfer(bdLen: nat, zl: bool, len: nat, stored: nat)

  datatype Regs = Regs(
    evt: Nib, pktPid: Nib,
    t: Trans, x: Xfer,
    cel: bool, celEna: bool,
    ram: Ram, outs: seq<Out>)

  /** What can happen to the engine between two instructions. `Token` is for an IN, OUT or SETUP
      packet; `Packet` is any other good packet, frame markers included, `Broken` one that failed a
      check; both carry the number of data bytes. The firmware writes descriptors and status words,
      and releases the lockout. */
  datatype Input =
    | Quiet
    | Token(pid: Nib, endp: nat, ours: bool)
    | Packet(pid: Nib, bytes: nat)
    | Broken(bytes: nat)
    | TxDone
    | Timeout
    | Post(ep: EpId, index: bool, bd: Bd)
    | Configure(ep: EpId, status: EpStatus)
    | Release

  function Min(x: nat, y: nat): nat {
    if x < y then x else y
  }

  /** The data bytes of a packet: all are counted, modulo 1024; those within the window that the
      length counter opens are written. */
  function Receive(x: Xfer, bytes: nat): Xfer {
    x.(len := (x.len + bytes) % 1024, stored := if x.zl then 0 else Min(x.bdLen, bytes))
  }

  /** A token latches its endpoint, and the endpoint's status and current descriptor. */
  function LatchTrans(r: Regs, pid: Nib, endp: nat): Trans {
    var id := EpId(endp, pid == PID_IN);
    var setup := pid == PID_SETUP;
    var e := Fetch(r.ram, id);
    var cur := e.Current(setup);
    Trans(id, setup, r.cel, e.epType, e.dual, e.ctrl, cur, e.idx, e.dt && !setup, e.At(cur).state)
  }

  function LatchXfer(r: Regs, pid: Nib, endp: nat): Xfer {
    var e := Fetch(r.ram, EpId(endp, pid == PID_IN));
    Xfer(e.At(e.Current(pid == PID_SETUP)).len % 1024, false, 0, 0)
  }

  /** Every event of one is an event of the other. */
  predicate Among(a: Nib, b: Nib) {
    (a.b3 ==> b.b3) && (a.b2 ==> b.b2) && (a.b1 ==> b.b1) && (a.b0 ==> b.b0)
  }

  /** An event that has come stays until it is cleared. */
  function Arrive(r: Regs, i: Input): (q: Regs)
    ensures Among(r.evt, q.evt)
    ensures i.Packet? || i.Token? ==> q.evt.b0
  {
    match i
    case Quiet => r
    case Token(pid, endp, ours) =>
      r.(evt := r.evt.Or(EVT_RX_OK), pktPid := if ours then pid else PID_INVAL,
         t := LatchTrans(r, pid, endp), x := LatchXfer(r, pid, endp))
    case Packet(pid, bytes) => r.(evt := r.evt.Or(EVT_RX_OK), pktPid := pid, x := Receive(r.x, bytes))
    case Broken(bytes) => r.(evt := r.evt.Or(EVT_RX_ERR), x := Receive(r.x, bytes))
    case TxDone => r.(evt := r.evt.Or(EVT_TX_DONE))
    case Timeout => r.(evt := r.evt.Or(EVT_TIMEOUT))
    case Post(ep, index, bd) => r.(ram := r.ram[ep := Fetch(r.ram, ep).With(index, bd)])
    case Configure(ep, e) => r.(ram := r.ram[ep := Fetch(r.ram, ep).Status(e)])
    case Release => r.(cel := false)
  }

  // ---- Instructions --------------------------------------------------------------------------

  function Toggled(pid: Nib, on: bool): Nib {
    Nib(pid.b3 != on, pid.b2, pid.b1, pid.b0)
  }

  function Load(r: Regs, src: Src): Nib {
    match src
    case Evt => r.evt
    case PktPid => r.pktPid
    case PktPidChk => Toggled(r.pktPid, r.t.dt)
    case EpType => Nib(r.t.cel, r.t.epType.t2, r.t.epType.t1, r.t.epType.t0)
    case BdState => Nib(false, r.t.bdState.t2, r.t.bdState.t1, r.t.bdState.t0)
  }

  /** The RAM after the status word and the current descriptor are written back. */
  function WriteBack(ram: Ram, t: Trans, len: nat): Ram {
    var e := Fetch(ram, t.ep).(epType := t.epType, dual := t.dual, ctrl := t.ctrl, idx := t.idxNxt, dt := t.dt);
    ram[t.ep := e.With(t.idxCur, Bd(t.bdState, t.isSetup, len))]
  }

  function EpTrans(t: Trans, newState: Option<Tri>, bdiFlip: bool, dtFlip: bool): Trans {
    t.(bdState := if newState.Some? then newState.value else t.bdState,
       idxNxt := t.idxNxt != (bdiFlip && t.dual),
       dt := t.dt != dtFlip)
  }

  /** What an instruction does, besides the loads of the A register and the jumps that test it. */
  function Exec(r: Regs, insn: Insn): Regs {
    match insn
    case Ep(newState, bdiFlip, dtFlip, wb, celSet) =>
      var t := EpTrans(r.t, newState, bdiFlip, dtFlip);
      r.(t := t, cel := r.celEna && (r.cel || celSet), ram := if wb then WriteBack(r.ram, t, r.x.len) else r.ram)
    case Zl => r.(x := r.x.(zl := true))
    case Tx(pid, setDt) =>
      r.(outs := r.outs + [Sent(r.t.ep, Toggled(pid, setDt && r.t.dt), if r.x.zl then 0 else r.x.bdLen)])
    case Notify(code) => r.(outs := r.outs + [Notified(code, r.t.ep, r.t.isSetup, r.t.idxCur)])
    case EvtClr(mask) => r.(evt := r.evt.And(mask.Not()))
    case _ => r
  }

  // ---- The engine as a machine for the microcode -----------------------------------------------

  datatype Inputs = NoMore | More(head: Input, tail: Inputs)

  /** The engine, its A register, and what the bus will do. Events are latched and only `LD evt`
      looks at them, so an event is delivered at the first such load that can see it. */
  datatype Cpu = Cpu(a: Nib, r: Regs, ins: Inputs)

  function Step(insn: Insn, c: Cpu): Cpu {
    if insn == Ld(Evt) && c.ins.More? then
      var r := Arrive(c.r, c.ins.head);
      Cpu(r.evt, r, c.ins.tail)
    else if insn.Ld? then c.(a := Load(c.r, insn.src))
    else c.(r := Exec(c.r, insn))
  }

  function TheMachine(): Machine<Cpu> {
    Machine((insn: Insn, c: Cpu) => Step(insn, c), (c: Cpu) => c.a)
  }
}
