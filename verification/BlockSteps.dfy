/** What each block of the microcode does to the engine, as one equation per block. */
module BlockSteps {
  import opened Isa
  import opened Assembler
  import opened Engine
  import opened Microcode
  import opened Blocks

  // ---- Effects -------------------------------------------------------------------------------

  function Log(r: Regs, o: Out): Regs {
    r.(outs := r.outs + [o])
  }

  function Note(r: Regs, code: Nib): Regs {
    Log(r, Notified(code, r.t.ep, r.t.isSetup, r.t.idxCur))
  }

  /** The endpoint update that ends a transaction, and its notification. */
  function Done(r: Regs, state: Tri, dtFlip: bool, celSet: bool, code: Nib): Regs {
    var t := EpTrans(r.t, Some(state), true, dtFlip);
    Note(r.(t := t, cel := r.celEna && (r.cel || celSet), ram := WriteBack(r.ram, t, r.x.len)), code)
  }

  /** A packet without data. */
  function Emptied(r: Regs, pid: Nib): Regs {
    Log(r.(x := r.x.(zl := true)), Sent(r.t.ep, pid, 0))
  }

  /** The descriptor's data, after the given identifier. */
  function Data(r: Regs, pid: Nib): Regs {
    Log(r, Sent(r.t.ep, pid, if r.x.zl then 0 else r.x.bdLen))
  }

  /** A packet ended, well or badly, or none came. */
  predicate RxEnded(evt: Nib) { evt.b0 || evt.b1 || evt.b3 }

  predicate IsData(pid: Nib) { pid == PID_DATA0 || pid == PID_DATA1 }

  predicate IsNone(t: Tri) { t == Tri(false, false, false) }
  predicate IsIsoc(t: Tri) { t == Tri(false, false, true) }
  predicate IsCtrl(t: Tri) { t.t2 && t.t1 }
  predicate IsReady(s: Tri) { s == BD_RDY_DATA || s == BD_RDY_STALL }

  /** The next input is taken, and its events are in the A register. */
  function Heard(c: Cpu): Cpu
    requires c.ins.More?
  {
    var r := Arrive(c.r, c.ins.head);
    Cpu(r.evt, r, c.ins.tail)
  }

  // ---- Single items --------------------------------------------------------------------------

  lemma RunTest(l: Lab, cond: Cond, rest: Prog, defs: set<string>, c: Cpu)
    ensures RunBody(Item(Jump(l, cond), rest), defs, c) == if cond.Taken(c.a) then Go(l, c) else RunBody(rest, defs, c)
  {
  }

  lemma RunLoad(src: Src, rest: Prog, defs: set<string>, c: Cpu)
    requires src != Evt
    ensures RunBody(Do(Ld(src), rest), defs, c) == RunBody(rest, defs, c.(a := Load(c.r, src)))
  {
  }

  lemma RunHear(rest: Prog, defs: set<string>, c: Cpu)
    requires c.ins.More?
    ensures RunBody(Do(Ld(Evt), rest), defs, c) == RunBody(rest, defs, Heard(c))
  {
  }

  lemma RunAct(insn: Insn, rest: Prog, defs: set<string>, c: Cpu)
    requires !insn.Ld?
    ensures RunBody(Do(insn, rest), defs, c) == RunBody(rest, defs, c.(r := Exec(c.r, insn)))
  {
  }

  // ---- Shared pieces -------------------------------------------------------------------------

  lemma RunFinish(state: Tri, dtFlip: bool, celSet: bool, code: Nib, rest: Prog, defs: set<string>, c: Cpu)
    ensures RunBody(Finish(state, dtFlip, celSet, code, rest), defs, c)
         == RunBody(rest, defs, c.(r := Done(c.r, state, dtFlip, celSet, code)))
  {
    var ep := EpDone(state, dtFlip, celSet);
    var c1 := c.(r := Exec(c.r, ep));
    RunAct(ep, Do(Notify(code), rest), defs, c);
    RunAct(Notify(code), rest, defs, c1);
  }

  lemma RunSend(pid: Nib, defs: set<string>, c: Cpu)
    ensures RunBody(SendEmpty(pid), defs, c) == Go(IDLE, c.(r := Emptied(c.r, pid)))
  {
    var c1 := c.(r := Exec(c.r, Zl));
    RunAct(Zl, Do(Tx(pid, false), Goto(IDLE)), defs, c);
    RunAct(Tx(pid, false), Goto(IDLE), defs, c1);
    RunTest(IDLE, ALWAYS, End, defs, c1.(r := Exec(c1.r, Tx(pid, false))));
  }

  lemma RunAwait(self: Lab, fail: Lab, rest: Prog, defs: set<string>, c: Cpu, c1: Cpu)
    requires c.ins.More? && c1 == Heard(c)
    ensures RunBody(AwaitPacket(self, fail, rest), defs, c)
         == if !RxEnded(c1.a) then Go(self, c1) else if !c1.a.b0 then Go(fail, c1) else RunBody(rest, defs, c1)
  {
    var test := Jeq(fail, ZERO, EVT_RX_OK, rest);
    RunHear(Jeq(self, ZERO, EVT_RX_END, test), defs, c);
    RunTest(self, Cond(EVT_RX_END, ZERO, false), test, defs, c1);
    RunTest(fail, Cond(EVT_RX_OK, ZERO, false), rest, defs, c1);
  }

  /** The endpoint's type decides first. */
  lemma RunCheck(isoc: Lab, halted: Lab, locked: Lab, rest: Prog, defs: set<string>, c: Cpu, c1: Cpu)
    requires c1 == c.(a := Load(c.r, EpType))
    ensures RunBody(CheckType(isoc, halted, locked, rest), defs, c)
         == if IsIsoc(c.r.t.epType) && !NoIsoc(defs) then Go(isoc, c1)
            else if IsNone(c.r.t.epType) then Go(IDLE, c1)
            else if c.r.t.epType.t0 then Go(halted, c1)
            else if c.r.t.cel && IsCtrl(c.r.t.epType) then Go(locked, c1)
            else RunBody(rest, defs, c1)
  {
    var lock := Cond(EP_TYPE_CEL_MSK2, EP_TYPE_CEL_CTRL, false);
    var halt := Cond(EP_TYPE_HALT, EP_TYPE_HALT, false);
    var none := Cond(EP_TYPE_MSK1, EP_TYPE_NONE, false);
    var iso := Cond(EP_TYPE_MSK1, EP_TYPE_ISOC, false);
    var s3 := Item(Jump(locked, lock), rest);
    var s2 := Item(Jump(halted, halt), s3);
    var s1 := Item(Jump(IDLE, none), s2);
    RunTest(locked, lock, rest, defs, c1);
    RunTest(halted, halt, s3, defs, c1);
    RunTest(IDLE, none, s2, defs, c1);
    RunTest(isoc, iso, End, defs, c1);
    RunSection(iso, isoc, s1, defs, c1);
    RunLoad(EpType, IfNotDef("NO_ISOC", Item(Jump(isoc, iso), End), s1), defs, c);
  }

  lemma RunSection(iso: Cond, isoc: Lab, rest: Prog, defs: set<string>, c: Cpu)
    ensures RunBody(IfNotDef("NO_ISOC", Item(Jump(isoc, iso), End), rest), defs, c)
         == if !NoIsoc(defs) && iso.Taken(c.a) then Go(isoc, c) else RunBody(rest, defs, c)
  {
    RunTest(isoc, iso, End, defs, c);
  }

  // ---- Blocks --------------------------------------------------------------------------------

  /** From one label some blocks lead to another, leaving these registers and inputs. (The A
      register is loaded by every block before it is tested.) */
  ghost predicate Leads(l: Lab, defs: set<string>, c: Cpu, to: Lab, r: Regs, ins: Inputs) {
    exists n: nat :: Left(RunBlocks(l, defs, c, n, Seg), to, r, ins)
  }

  predicate Left(q: (Lab, Cpu), to: Lab, r: Regs, ins: Inputs) {
    q.0 == to && q.1.r == r && q.1.ins == ins
  }

  lemma OneBlock(l: Lab, defs: set<string>, c: Cpu)
    ensures RunBlocks(l, defs, c, 1, Seg) == RunBlock(l, defs, c, Seg)
  {
    assert Iterate(Stepper(defs, Seg), (l, c), 0) == (l, c);
  }

  /** A block leads where its body exits. */
  lemma Exits(l: Lab, src: Prog, defs: set<string>, c: Cpu, e: Exit)
    requires Seg(l) == src && !(IsFail(l) && IgnoreErr(defs)) && RunBody(src, defs, c) == e
    ensures Leads(l, defs, c, if e.Go? then e.l else NextLab(l), e.c.r, e.c.ins)
  {
    OneBlock(l, defs, c);
  }

  /** One path leads on to the next. */
  lemma Via(l: Lab, defs: set<string>, c: Cpu, l1: Lab, r1: Regs, ins1: Inputs) returns (c1: Cpu)
    requires Leads(l, defs, c, l1, r1, ins1)
    ensures c1.r == r1 && c1.ins == ins1
    ensures forall to, r, ins :: Leads(l1, defs, c1, to, r, ins) ==> Leads(l, defs, c, to, r, ins)
  {
    var n: nat :| Left(RunBlocks(l, defs, c, n, Seg), l1, r1, ins1);
    c1 := RunBlocks(l, defs, c, n, Seg).1;
    forall to, r, ins | Leads(l1, defs, c1, to, r, ins) ensures Leads(l, defs, c, to, r, ins) {
      var k: nat :| Left(RunBlocks(l1, defs, c1, k, Seg), to, r, ins);
      MoreBlocks(l, defs, c, n, k, Seg);
    }
  }

  lemma MoreBlocks(l: Lab, defs: set<string>, c: Cpu, n: nat, k: nat, seg: Lab -> Prog)
    ensures var q := RunBlocks(l, defs, c, n, seg);
            RunBlocks(l, defs, c, n + k, seg) == RunBlocks(q.0, defs, q.1, k, seg)
  {
    IterateMore(Stepper(defs, seg), (l, c), n, k);
  }

  // ---- IDLE ----------------------------------------------------------------------------------

  function Dispatch(pid: Nib): Lab {
    if pid == PID_IN then DO_IN else if pid == PID_OUT then DO_OUT else if pid == PID_SETUP then DO_SETUP else IDLE
  }

  lemma RunIdleToken(defs: set<string>, c: Cpu)
    ensures RunBody(IdleToken(), defs, c) == Go(Dispatch(c.r.pktPid), c.(a := c.r.pktPid))
  {
  }

  lemma RunIdle(defs: set<string>, c: Cpu, c1: Cpu)
    requires c.ins.More? && c1 == Heard(c)
    ensures Leads(IDLE, defs, c, if c1.a.b0 then Dispatch(c1.r.pktPid) else IDLE, c1.r.(evt := ZERO), c1.ins)
  {
    OneBlock(IDLE, defs, c);
    var tail := IdleToken();
    var t3 := Jeq(IDLE, ZERO, EVT_RX_OK, tail);
    var t2 := Do(EvtClr(EVT_ALL), t3);
    var c2 := c1.(r := Exec(c1.r, EvtClr(EVT_ALL)));
    RunHear(Jeq(IDLE, ZERO, ALL, t2), defs, c);
    RunTest(IDLE, Cond(ALL, ZERO, false), t2, defs, c1);
    RunAct(EvtClr(EVT_ALL), t3, defs, c1);
    RunTest(IDLE, Cond(EVT_RX_OK, ZERO, false), tail, defs, c2);
    RunIdleToken(defs, c2);
  }

  // ---- IN ------------------------------------------------------------------------------------

  lemma RunInBd(defs: set<string>, c: Cpu, c1: Cpu)
    requires c1 == c.(a := Load(c.r, BdState))
    ensures RunBody(InBd(), defs, c)
         == if c.r.t.bdState == BD_RDY_STALL then Go(TX_STALL_BD, c1)
            else if c.r.t.bdState != BD_RDY_DATA then Go(TX_NAK, c1)
            else Fall(c1.(r := Data(c.r, Toggled(PID_DATA0, c.r.t.dt))))
  {
    var stall := Cond(ALL, BD_IS_RDY_STALL, false);
    var data := Cond(ALL, BD_IS_RDY_DATA, true);
    var send := Do(Tx(PID_DATA0, true), End);
    RunAct(Tx(PID_DATA0, true), End, defs, c1);
    RunTest(TX_NAK, data, send, defs, c1);
    RunTest(TX_STALL_BD, stall, Item(Jump(TX_NAK, data), send), defs, c1);
    RunLoad(BdState, Item(Jump(TX_STALL_BD, stall), Item(Jump(TX_NAK, data), send)), defs, c);
  }

  /** Where an IN token leads. */
  function InLab(defs: set<string>, t: Trans): Lab {
    if IsIsoc(t.epType) && !NoIsoc(defs) then IN_ISOC
    else if IsNone(t.epType) then IDLE
    else if t.epType.t0 then TX_STALL_HALT
    else if t.cel && IsCtrl(t.epType) then TX_NAK
    else if t.bdState == BD_RDY_STALL then TX_STALL_BD
    else if t.bdState != BD_RDY_DATA then TX_NAK
    else IN_WAIT_TX
  }

  lemma RunDoIn(l: Lab, tail: Prog, defs: set<string>, c: Cpu)
    requires Seg(l) == CheckType(IN_ISOC, TX_STALL_HALT, TX_NAK, tail) && tail == InBd() && l.DO_IN?
    ensures var to := InLab(defs, c.r.t);
            Leads(l, defs, c, to, if to.IN_WAIT_TX? then Data(c.r, Toggled(PID_DATA0, c.r.t.dt)) else c.r, c.ins)
  {
    var c1 := c.(a := Load(c.r, EpType));
    var src := CheckType(IN_ISOC, TX_STALL_HALT, TX_NAK, tail);
    RunCheck(IN_ISOC, TX_STALL_HALT, TX_NAK, tail, defs, c, c1);
    RunInBd(defs, c1, c1.(a := Load(c.r, BdState)));
    Exits(l, src, defs, c, RunBody(src, defs, c));
  }

  lemma RunWaitTx(self: Lab, rest: Prog, defs: set<string>, c: Cpu, c1: Cpu)
    requires c.ins.More? && c1 == Heard(c)
    ensures RunBody(AwaitTx(self, rest), defs, c)
         == if !c1.a.b2 then Go(self, c1)
            else RunBody(rest, defs, c1.(r := c1.r.(evt := c1.r.evt.And(EVT_TX_DONE.Not()))))
  {
    var clear := Do(EvtClr(EVT_TX_DONE), rest);
    RunHear(Jeq(self, ZERO, EVT_TX_DONE, clear), defs, c);
    RunTest(self, Cond(EVT_TX_DONE, ZERO, false), clear, defs, c1);
    RunAct(EvtClr(EVT_TX_DONE), rest, defs, c1);
  }

  lemma RunInWaitTx(defs: set<string>, c: Cpu, c1: Cpu)
    requires c.ins.More? && c1 == Heard(c)
    ensures if c1.a.b2 then Leads(IN_WAIT_TX, defs, c, IN_WAIT_ACK, c1.r.(evt := c1.r.evt.And(EVT_TX_DONE.Not())),
      c1.ins)
            else Leads(IN_WAIT_TX, defs, c, IN_WAIT_TX, c1.r, c1.ins)
  {
    OneBlock(IN_WAIT_TX, defs, c);
    var rest := Do(EvtRto(TIMEOUT), End);
    RunWaitTx(IN_WAIT_TX, rest, defs, c, c1);
    RunAct(EvtRto(TIMEOUT), End, defs, c1.(r := c1.r.(evt := c1.r.evt.And(EVT_TX_DONE.Not()))));
  }

  lemma RunInWaitAck(defs: set<string>, c: Cpu, c1: Cpu)
    requires c.ins.More? && c1 == Heard(c)
    ensures if !RxEnded(c1.a) then Leads(IN_WAIT_ACK, defs, c, IN_WAIT_ACK, c1.r, c1.ins)
            else if c1.a.b0 && c1.r.pktPid == PID_ACK
            then Leads(IN_WAIT_ACK, defs, c, IDLE, Done(c1.r, BD_DONE_OK, true, false, NOTIFY_SUCCESS), c1.ins)
            else Leads(IN_WAIT_ACK, defs, c, IN_FAIL, c1.r, c1.ins)
  {
    OneBlock(IN_WAIT_ACK, defs, c);
    RunAwait(IN_WAIT_ACK, IN_FAIL, InAck(), defs, c, c1);
    RunInAck(defs, c1, c1.(a := c1.r.pktPid));
  }

  /** A piece that checks the packet and then finishes. */
  lemma RunTake(fail: Lab, cond: Cond, dtFlip: bool, celSet: bool, to: Lab, defs: set<string>, c: Cpu, c1: Cpu)
    requires c1 == c.(a := c.r.pktPid)
    ensures RunBody(Do(Ld(PktPid), Item(Jump(fail, cond),
      Finish(BD_DONE_OK, dtFlip, celSet, NOTIFY_SUCCESS, Goto(to)))), defs, c)
         == if cond.Taken(c1.a) then Go(fail, c1)
            else Go(to, c1.(r := Done(c.r, BD_DONE_OK, dtFlip, celSet, NOTIFY_SUCCESS)))
  {
    var finish := Finish(BD_DONE_OK, dtFlip, celSet, NOTIFY_SUCCESS, Goto(to));
    RunLoad(PktPid, Item(Jump(fail, cond), finish), defs, c);
    RunTest(fail, cond, finish, defs, c1);
    RunFinish(BD_DONE_OK, dtFlip, celSet, NOTIFY_SUCCESS, Goto(to), defs, c1);
    RunTest(to, ALWAYS, End, defs, c1.(r := Done(c1.r, BD_DONE_OK, dtFlip, celSet, NOTIFY_SUCCESS)));
  }

  lemma RunInAck(defs: set<string>, c: Cpu, c1: Cpu)
    requires c1 == c.(a := c.r.pktPid)
    ensures RunBody(InAck(), defs, c)
         == if c.r.pktPid != PID_ACK then Go(IN_FAIL, c1)
            else Go(IDLE, c1.(r := Done(c.r, BD_DONE_OK, true, false, NOTIFY_SUCCESS)))
  {
    RunTake(IN_FAIL, Cond(ALL, PID_ACK, true), true, false, IDLE, defs, c, c1);
  }

  lemma RunInFail(defs: set<string>, c: Cpu)
    ensures Leads(IN_FAIL, defs, c, IDLE, Note(c.r, NOTIFY_TX_FAIL), c.ins)
  {
    OneBlock(IN_FAIL, defs, c);
    RunAct(Notify(NOTIFY_TX_FAIL), Goto(IDLE), defs, c);
  }

  lemma RunInIsoc(defs: set<string>, c: Cpu)
    ensures if c.r.t.bdState == BD_RDY_DATA then Leads(IN_ISOC, defs, c, IN_ISOC_WAIT_TX, Data(c.r, PID_DATA0), c.ins)
            else Leads(IN_ISOC, defs, c, IN_ISOC_NO_DATA, c.r, c.ins)
  {
    OneBlock(IN_ISOC, defs, c);
    var data := Cond(ALL, BD_IS_RDY_DATA, true);
    var c1 := c.(a := Load(c.r, BdState));
    var send := Do(Tx(PID_DATA0, false), End);
    RunLoad(BdState, Item(Jump(IN_ISOC_NO_DATA, data), send), defs, c);
    RunTest(IN_ISOC_NO_DATA, data, send, defs, c1);
    RunAct(Tx(PID_DATA0, false), End, defs, c1);
  }

  lemma RunInIsocWaitTx(l: Lab, rest: Prog, defs: set<string>, c: Cpu, c1: Cpu, r: Regs)
    requires Seg(l) == AwaitTx(l, rest) && rest == Finish(BD_DONE_OK, false, false, NOTIFY_SUCCESS, Goto(IDLE))
      && !IsFail(l)
    requires c.ins.More? && c1 == Heard(c) && r == c1.r.(evt := c1.r.evt.And(EVT_TX_DONE.Not()))
    ensures if c1.a.b2 then Leads(l, defs, c, IDLE, Done(r, BD_DONE_OK, false, false, NOTIFY_SUCCESS), c1.ins)
            else Leads(l, defs, c, l, c1.r, c1.ins)
  {
    OneBlock(l, defs, c);
    RunWaitTx(l, rest, defs, c, c1);
    RunFinish(BD_DONE_OK, false, false, NOTIFY_SUCCESS, Goto(IDLE), defs, c1.(r := r));
    RunTest(IDLE, ALWAYS, End, defs, c1.(r := Done(r, BD_DONE_OK, false, false, NOTIFY_SUCCESS)));
  }

  // ---- Tails ---------------------------------------------------------------------------------

  lemma RunTail(l: Lab, pid: Nib, defs: set<string>, c: Cpu)
    requires Seg(l) == SendEmpty(pid) && !IsFail(l)
    ensures Leads(l, defs, c, IDLE, Emptied(c.r, pid), c.ins)
  {
    OneBlock(l, defs, c);
    RunSend(pid, defs, c);
  }

  /** Blocks that finish a transaction and go on. */
  lemma RunFinal(l: Lab, to: Lab, state: Tri, code: Nib, rest: Prog, defs: set<string>, c: Cpu)
    requires Seg(l) == Finish(state, false, false, code, rest) && !(IsFail(l) && IgnoreErr(defs))
    requires (rest == End && to == NextLab(l)) || rest == Goto(to)
    ensures Leads(l, defs, c, to, Done(c.r, state, false, false, code), c.ins)
  {
    var c1 := c.(r := Done(c.r, state, false, false, code));
    RunFinish(state, false, false, code, rest, defs, c);
    RunTest(to, ALWAYS, End, defs, c1);
    Exits(l, Finish(state, false, false, code, rest), defs, c, RunBody(rest, defs, c1));
  }

  /** Without error reports the failure labels hold nothing, and stand before IDLE. */
  lemma RunBare(l: Lab, defs: set<string>, c: Cpu)
    requires IsFail(l) && IgnoreErr(defs)
    ensures Leads(l, defs, c, NextLab(l), c.r, c.ins)
  {
    OneBlock(l, defs, c);
  }

  /** A block of two actions, which falls through. */
  lemma RunActs(l: Lab, a: Insn, b: Insn, defs: set<string>, c: Cpu)
    requires Seg(l) == Do(a, Do(b, End)) && !a.Ld? && !b.Ld? && !IsFail(l)
    ensures Leads(l, defs, c, NextLab(l), Exec(Exec(c.r, a), b), c.ins)
  {
    var c1 := c.(r := Exec(c.r, a));
    RunAct(a, Do(b, End), defs, c);
    RunAct(b, End, defs, c1);
    Exits(l, Do(a, Do(b, End)), defs, c, Fall(c1.(r := Exec(c1.r, b))));
  }

  lemma RunDiscardWait(l: Lab, defs: set<string>, c: Cpu, c1: Cpu)
    requires l.RX_DISCARD_WAIT? && c.ins.More? && c1 == Heard(c)
    ensures Leads(l, defs, c, if RxEnded(c1.a) then IDLE else l, c1.r, c1.ins)
  {
    OneBlock(l, defs, c);
    RunHear(Jeq(RX_DISCARD_WAIT, ZERO, EVT_RX_END, Goto(IDLE)), defs, c);
    RunTest(RX_DISCARD_WAIT, Cond(EVT_RX_END, ZERO, false), Goto(IDLE), defs, c1);
    RunTest(IDLE, ALWAYS, End, defs, c1);
  }

  // ---- SETUP ---------------------------------------------------------------------------------

  /** Wait for a packet only with a descriptor ready for it. */
  lemma RunSpace(none: Lab, rest: Prog, defs: set<string>, c: Cpu, c1: Cpu)
    requires c1 == c.(a := Load(c.r, BdState)) && rest == Do(EvtRto(TIMEOUT), End)
    ensures RunBody(Do(Ld(BdState), Jne(none, BD_IS_RDY_DATA, ALL, rest)), defs, c)
         == if c.r.t.bdState != BD_RDY_DATA then Go(none, c1) else Fall(c1)
  {
    var data := Cond(ALL, BD_IS_RDY_DATA, true);
    RunLoad(BdState, Item(Jump(none, data), rest), defs, c);
    RunTest(none, data, rest, defs, c1);
    RunAct(EvtRto(TIMEOUT), End, defs, c1);
  }

  lemma RunDoSetup(l: Lab, rest: Prog, tail: Prog, defs: set<string>, c: Cpu)
    requires l.DO_SETUP? && tail == Do(EvtRto(TIMEOUT), End)
    requires rest == Do(Ld(BdState), Jne(RX_DISCARD_NEXT, BD_IS_RDY_DATA, ALL, tail))
    requires Seg(l) == Do(Ld(EpType), Jne(RX_DISCARD_NEXT, EP_TYPE_CTRL, EP_TYPE_CEL_MSK2, rest))
    ensures Leads(l, defs, c,
                  if IsCtrl(c.r.t.epType) && !c.r.t.cel && c.r.t.bdState == BD_RDY_DATA then SETUP_WAIT_DATA
                      else RX_DISCARD_NEXT,
                  c.r, c.ins)
  {
    OneBlock(l, defs, c);
    var c1 := c.(a := Load(c.r, EpType));
    var ctrl := Cond(EP_TYPE_CEL_MSK2, EP_TYPE_CTRL, true);
    RunLoad(EpType, Item(Jump(RX_DISCARD_NEXT, ctrl), rest), defs, c);
    RunTest(RX_DISCARD_NEXT, ctrl, rest, defs, c1);
    RunSpace(RX_DISCARD_NEXT, tail, defs, c1, c1.(a := Load(c.r, BdState)));
  }

  lemma RunSetupData(defs: set<string>, c: Cpu, c1: Cpu)
    requires c1 == c.(a := c.r.pktPid)
    ensures RunBody(SetupData(), defs, c)
         == if c.r.pktPid != PID_DATA0 then Go(SETUP_FAIL, c1)
            else Go(TX_ACK, c1.(r := Done(c.r, BD_DONE_OK, true, true, NOTIFY_SUCCESS)))
  {
    RunTake(SETUP_FAIL, Cond(ALL, PID_DATA0, true), true, true, TX_ACK, defs, c, c1);
  }

  lemma RunSetupWaitData(l: Lab, tail: Prog, defs: set<string>, c: Cpu, c1: Cpu)
    requires l.SETUP_WAIT_DATA? && tail == SetupData() && c.ins.More? && c1 == Heard(c)
    ensures if !RxEnded(c1.a) then Leads(l, defs, c, l, c1.r, c1.ins)
            else if c1.a.b0 && c1.r.pktPid == PID_DATA0
            then Leads(l, defs, c, TX_ACK, Done(c1.r, BD_DONE_OK, true, true, NOTIFY_SUCCESS), c1.ins)
            else Leads(l, defs, c, SETUP_FAIL, c1.r, c1.ins)
  {
    OneBlock(l, defs, c);
    RunAwait(l, SETUP_FAIL, tail, defs, c, c1);
    RunSetupData(defs, c1, c1.(a := c1.r.pktPid));
  }

  // ---- OUT -----------------------------------------------------------------------------------

  lemma RunOutBd(defs: set<string>, c: Cpu)
    ensures RunBody(OutBd(), defs, c)
         == if c.r.t.bdState != BD_RDY_DATA then Go(OUT_DROP_DATA, c.(a := Load(c.r, BdState)))
            else Fall(c.(a := Load(c.r, BdState)))
  {
    RunSpace(OUT_DROP_DATA, Do(EvtRto(TIMEOUT), End), defs, c, c.(a := Load(c.r, BdState)));
  }

  lemma RunDoOut(l: Lab, tail: Prog, defs: set<string>, c: Cpu)
    requires Seg(l) == CheckType(OUT_ISOC, OUT_DROP_DATA, OUT_DROP_DATA, tail) && tail == OutBd() && l.DO_OUT?
    ensures Leads(l, defs, c,
                  if IsIsoc(c.r.t.epType) && !NoIsoc(defs) then OUT_ISOC
                  else if IsNone(c.r.t.epType) then IDLE
                  else if c.r.t.epType.t0 || (c.r.t.cel && IsCtrl(c.r.t.epType))
                      || c.r.t.bdState != BD_RDY_DATA then OUT_DROP_DATA
                  else OUT_WAIT_DATA,
                  c.r, c.ins)
  {
    var c1 := c.(a := Load(c.r, EpType));
    var src := CheckType(OUT_ISOC, OUT_DROP_DATA, OUT_DROP_DATA, tail);
    RunCheck(OUT_ISOC, OUT_DROP_DATA, OUT_DROP_DATA, tail, defs, c, c1);
    RunOutBd(defs, c1);
    Exits(l, src, defs, c, RunBody(src, defs, c));
  }

  lemma RunOutDropData(l: Lab, defs: set<string>, c: Cpu)
    requires l.OUT_DROP_DATA?
    ensures Leads(l, defs, c, OUT_WAIT_DATA, c.r.(x := c.r.x.(zl := true)), c.ins)
  {
    OneBlock(l, defs, c);
    RunAct(Zl, Goto(OUT_WAIT_DATA), defs, c);
    RunTest(OUT_WAIT_DATA, ALWAYS, End, defs, c.(r := Exec(c.r, Zl)));
  }

  lemma RunOutIsData(rest: Prog, defs: set<string>, c: Cpu, c1: Cpu)
    requires c1 == c.(a := Load(c.r, PktPidChk))
    ensures RunBody(OutIsData(rest), defs, c) == if IsData(c.r.pktPid) then RunBody(rest, defs, c1)
      else Go(OUT_FAIL, c1)
  {
    var data := Cond(PID_DATA_MSK, PID_DATA_VAL, true);
    RunLoad(PktPidChk, Item(Jump(OUT_FAIL, data), rest), defs, c);
    RunTest(OUT_FAIL, data, rest, defs, c1);
  }

  lemma RunOutType(rest: Prog, defs: set<string>, c: Cpu, c1: Cpu)
    requires c1 == c.(a := Load(c.r, EpType))
    ensures RunBody(OutType(rest), defs, c)
         == if c.r.t.epType.t0 then Go(TX_STALL_HALT, c1)
            else if c.r.t.cel && IsCtrl(c.r.t.epType) then Go(TX_NAK, c1)
            else RunBody(rest, defs, c1)
  {
    var halt := Cond(EP_TYPE_HALT, EP_TYPE_HALT, false);
    var lock := Cond(EP_TYPE_CEL_MSK2, EP_TYPE_CEL_CTRL, false);
    RunLoad(EpType, Item(Jump(TX_STALL_HALT, halt), Item(Jump(TX_NAK, lock), rest)), defs, c);
    RunTest(TX_STALL_HALT, halt, Item(Jump(TX_NAK, lock), rest), defs, c1);
    RunTest(TX_NAK, lock, rest, defs, c1);
  }

  /** The packet's toggle is the one the endpoint expects. */
  predicate Expected(r: Regs) {
    r.pktPid == Toggled(PID_DATA0, r.t.dt)
  }

  lemma RunOutToggle(rest: Prog, defs: set<string>, c: Cpu, c1: Cpu)
    requires c1 == c.(a := Load(c.r, PktPidChk)) && IsData(c.r.pktPid)
    ensures RunBody(OutToggle(rest), defs, c) == if Expected(c.r) then RunBody(rest, defs, c1) else Go(TX_ACK, c1)
  {
    var wrong := Cond(ALL, PID_DATA1, false);
    RunLoad(PktPidChk, Item(Jump(TX_ACK, wrong), rest), defs, c);
    RunTest(TX_ACK, wrong, rest, defs, c1);
  }

  lemma RunOutTake(defs: set<string>, c: Cpu, c1: Cpu)
    requires c1 == c.(a := Load(c.r, BdState))
    ensures RunBody(OutTake(), defs, c)
         == if !IsReady(c.r.t.bdState) then Go(TX_NAK, c1)
            else if c.r.t.bdState == BD_RDY_STALL then Go(TX_STALL_BD, c1)
            else Go(TX_ACK, c1.(r := Done(c.r, BD_DONE_OK, true, false, NOTIFY_SUCCESS)))
  {
    var finish := Finish(BD_DONE_OK, true, false, NOTIFY_SUCCESS, Goto(TX_ACK));
    var stall := Cond(ALL, BD_IS_RDY_STALL, false);
    var ready := Cond(BD_RDY_MSK, BD_RDY_VAL, true);
    RunLoad(BdState, Item(Jump(TX_NAK, ready), Item(Jump(TX_STALL_BD, stall), finish)), defs, c);
    RunTest(TX_NAK, ready, Item(Jump(TX_STALL_BD, stall), finish), defs, c1);
    RunTest(TX_STALL_BD, stall, finish, defs, c1);
    RunFinish(BD_DONE_OK, true, false, NOTIFY_SUCCESS, Goto(TX_ACK), defs, c1);
    RunTest(TX_ACK, ALWAYS, End, defs, c1.(r := Done(c.r, BD_DONE_OK, true, false, NOTIFY_SUCCESS)));
  }

  lemma RunOutRespond(take: Prog, defs: set<string>, c: Cpu, r: Regs)
    requires take == OutTake() && r == c.r && IsData(r.pktPid)
    ensures var e := RunBody(OutType(OutToggle(take)), defs, c);
            && e.Go? && e.c.ins == c.ins
            && e.l == (if r.t.epType.t0 then TX_STALL_HALT
                       else if r.t.cel && IsCtrl(r.t.epType) then TX_NAK
                       else if !Expected(r) then TX_ACK
                       else if !IsReady(r.t.bdState) then TX_NAK
                       else if r.t.bdState == BD_RDY_STALL then TX_STALL_BD
                       else TX_ACK)
            && e.c.r == (if !r.t.epType.t0 && !(r.t.cel && IsCtrl(r.t.epType)) && Expected(r)
               && r.t.bdState == BD_RDY_DATA
                         then Done(r, BD_DONE_OK, true, false, NOTIFY_SUCCESS) else r)
  {
    var c1 := c.(a := Load(c.r, EpType));
    var c2 := c1.(a := Load(c.r, PktPidChk));
    RunOutType(OutToggle(take), defs, c, c1);
    RunOutToggle(take, defs, c1, c2);
    RunOutTake(defs, c2, c2.(a := Load(c.r, BdState)));
  }

  lemma RunOutWaitData(l: Lab, take: Prog, defs: set<string>, c: Cpu, c1: Cpu)
    requires Seg(l) == AwaitPacket(l, OUT_FAIL, OutIsData(OutType(OutToggle(take)))) && take == OutTake()
      && l.OUT_WAIT_DATA?
    requires c.ins.More? && c1 == Heard(c)
    ensures var r := c1.r;
            if !RxEnded(c1.a) then Leads(l, defs, c, l, r, c1.ins)
            else if !c1.a.b0 || !IsData(r.pktPid) then Leads(l, defs, c, OUT_FAIL, r, c1.ins)
            else if r.t.epType.t0 then Leads(l, defs, c, TX_STALL_HALT, r, c1.ins)
            else if r.t.cel && IsCtrl(r.t.epType) then Leads(l, defs, c, TX_NAK, r, c1.ins)
            else if !Expected(r) then Leads(l, defs, c, TX_ACK, r, c1.ins)
            else if !IsReady(r.t.bdState) then Leads(l, defs, c, TX_NAK, r, c1.ins)
            else if r.t.bdState == BD_RDY_STALL then Leads(l, defs, c, TX_STALL_BD, r, c1.ins)
            else Leads(l, defs, c, TX_ACK, Done(r, BD_DONE_OK, true, false, NOTIFY_SUCCESS), c1.ins)
  {
    OneBlock(l, defs, c);
    var rest := OutType(OutToggle(take));
    var c2 := c1.(a := Load(c1.r, PktPidChk));
    RunAwait(l, OUT_FAIL, OutIsData(rest), defs, c, c1);
    RunOutIsData(rest, defs, c1, c2);
    if IsData(c1.r.pktPid) {
      RunOutRespond(take, defs, c2, c1.r);
    }
  }

  lemma RunOutFail(l: Lab, rest: Prog, defs: set<string>, c: Cpu)
    requires l.OUT_FAIL? && !IgnoreErr(defs) && rest == Finish(BD_DONE_ERR, false, false, NOTIFY_RX_FAIL, Goto(IDLE))
    requires Seg(l) == Do(Ld(BdState), Jne(IDLE, BD_RDY_VAL, BD_RDY_MSK, rest))
    ensures Leads(l, defs, c, IDLE, if IsReady(c.r.t.bdState) then Done(c.r, BD_DONE_ERR, false, false, NOTIFY_RX_FAIL)
      else c.r, c.ins)
  {
    OneBlock(l, defs, c);
    var c1 := c.(a := Load(c.r, BdState));
    var ready := Cond(BD_RDY_MSK, BD_RDY_VAL, true);
    RunLoad(BdState, Item(Jump(IDLE, ready), rest), defs, c);
    RunTest(IDLE, ready, rest, defs, c1);
    RunFinish(BD_DONE_ERR, false, false, NOTIFY_RX_FAIL, Goto(IDLE), defs, c1);
    RunTest(IDLE, ALWAYS, End, defs, c1.(r := Done(c.r, BD_DONE_ERR, false, false, NOTIFY_RX_FAIL)));
  }

  lemma RunOutIsoc(l: Lab, tail: Prog, defs: set<string>, c: Cpu)
    requires l.OUT_ISOC? && tail == Do(EvtRto(TIMEOUT), End)
      && Seg(l) == Do(Ld(BdState), Jne(OUT_ISOC_NO_SPACE, BD_IS_RDY_DATA, ALL, tail))
    ensures Leads(l, defs, c, if c.r.t.bdState == BD_RDY_DATA then OUT_ISOC_WAIT_DATA
      else OUT_ISOC_NO_SPACE, c.r, c.ins)
  {
    OneBlock(l, defs, c);
    RunSpace(OUT_ISOC_NO_SPACE, tail, defs, c, c.(a := Load(c.r, BdState)));
  }

  lemma RunOutIsocNoSpace(l: Lab, defs: set<string>, c: Cpu)
    requires l.OUT_ISOC_NO_SPACE?
    ensures Leads(l, defs, c, RX_DISCARD_NEXT, c.r, c.ins)
  {
    OneBlock(l, defs, c);
    RunTest(RX_DISCARD_NEXT, ALWAYS, End, defs, c);
  }

  lemma RunOutIsocWaitData(l: Lab, tail: Prog, defs: set<string>, c: Cpu, c1: Cpu)
    requires l.OUT_ISOC_WAIT_DATA? && tail == OutIsocData() && c.ins.More? && c1 == Heard(c)
    ensures if !RxEnded(c1.a) then Leads(l, defs, c, l, c1.r, c1.ins)
            else if c1.a.b0 && IsData(c1.r.pktPid)
            then Leads(l, defs, c, IDLE, Done(c1.r, BD_DONE_OK, false, false, NOTIFY_SUCCESS), c1.ins)
            else Leads(l, defs, c, OUT_ISOC_FAIL, c1.r, c1.ins)
  {
    OneBlock(l, defs, c);
    RunAwait(l, OUT_ISOC_FAIL, tail, defs, c, c1);
    RunTake(OUT_ISOC_FAIL, Cond(PID_DATA_MSK, PID_DATA_VAL, true), false, false, IDLE, defs, c1, c1.(a := c1.r.pktPid));
  }
}
