/** The transaction protocol the microcode carries out: a machine that takes one bus input at a
    time. The ROM of every build follows it over every sequence of inputs. */
module Transactions {
  import opened Isa
  import opened Assembler
  import opened Engine
  import opened Microcode
  import opened Blocks
  import opened BlockSteps
  import opened Rom

  /** Where the microcode waits for the bus. */
  datatype Phase = Idle | InTx | InAck | SetupWait | OutWait | IsocTx | IsocWait | Discard

  function LabelOf(p: Phase): Lab {
    match p
    case Idle => IDLE
    case InTx => IN_WAIT_TX
    case InAck => IN_WAIT_ACK
    case SetupWait => SETUP_WAIT_DATA
    case OutWait => OUT_WAIT_DATA
    case IsocTx => IN_ISOC_WAIT_TX
    case IsocWait => OUT_ISOC_WAIT_DATA
    case Discard => RX_DISCARD_WAIT
  }

  function ZeroLength(r: Regs): Regs {
    r.(x := r.x.(zl := true))
  }

  /** The descriptor asked for a STALL: it is used up, and the STALL sent. */
  function StallBd(r: Regs): Regs {
    Emptied(Done(r, BD_DONE_OK, false, false, NOTIFY_SUCCESS), PID_STALL)
  }

  /** A failed reception is reported in the descriptor, in builds that do so. */
  function Failed(defs: set<string>, r: Regs): Regs {
    if IgnoreErr(defs) then r else Done(r, BD_DONE_ERR, false, false, NOTIFY_RX_FAIL)
  }

  predicate Locked(t: Trans) { t.cel && IsCtrl(t.epType) }

  function StartIn(defs: set<string>, r: Regs): (Phase, Regs) {
    if IsIsoc(r.t.epType) && !NoIsoc(defs) then
      if r.t.bdState == BD_RDY_DATA then (IsocTx, Data(r, PID_DATA0)) else (Idle, Emptied(r, PID_DATA0))
    else if IsNone(r.t.epType) then (Idle, r)
    else if r.t.epType.t0 then (Idle, Emptied(r, PID_STALL))
    else if Locked(r.t) then (Idle, Emptied(r, PID_NAK))
    else if r.t.bdState == BD_RDY_STALL then (Idle, StallBd(r))
    else if r.t.bdState != BD_RDY_DATA then (Idle, Emptied(r, PID_NAK))
    else (InTx, Data(r, Toggled(PID_DATA0, r.t.dt)))
  }

  function StartSetup(r: Regs): (Phase, Regs) {
    if IsCtrl(r.t.epType) && !r.t.cel && r.t.bdState == BD_RDY_DATA then (SetupWait, r) else (Discard, ZeroLength(r))
  }

  function StartOut(defs: set<string>, r: Regs): (Phase, Regs) {
    if IsIsoc(r.t.epType) && !NoIsoc(defs) then
      if r.t.bdState == BD_RDY_DATA then (IsocWait, r) else (Discard, ZeroLength(r))
    else if IsNone(r.t.epType) then (Idle, r)
    else if r.t.epType.t0 || Locked(r.t) || r.t.bdState != BD_RDY_DATA then (OutWait, ZeroLength(r))
    else (OutWait, r)
  }

  /** A packet of data has come where one was awaited. */
  function Answer(r: Regs): Regs {
    if r.t.epType.t0 then Emptied(r, PID_STALL)
    else if Locked(r.t) then Emptied(r, PID_NAK)
    else if !Expected(r) then Emptied(r, PID_ACK)
    else if !IsReady(r.t.bdState) then Emptied(r, PID_NAK)
    else if r.t.bdState == BD_RDY_STALL then StallBd(r)
    else Emptied(Done(r, BD_DONE_OK, true, false, NOTIFY_SUCCESS), PID_ACK)
  }

  /** What the microcode does about the events it finds. */
  function Next(defs: set<string>, p: Phase, r: Regs): (Phase, Regs) {
    match p
    case Idle =>
      var r1 := r.(evt := ZERO);
      if !r.evt.b0 then (Idle, r1)
      else if r.pktPid == PID_IN then StartIn(defs, r1)
      else if r.pktPid == PID_OUT then StartOut(defs, r1)
      else if r.pktPid == PID_SETUP then StartSetup(r1)
      else (Idle, r1)
    case InTx =>
      if r.evt.b2 then (InAck, r.(evt := r.evt.And(EVT_TX_DONE.Not()))) else (InTx, r)
    case InAck =>
      if !RxEnded(r.evt) then (InAck, r)
      else if r.evt.b0 && r.pktPid == PID_ACK then (Idle, Done(r, BD_DONE_OK, true, false, NOTIFY_SUCCESS))
      else (Idle, Note(r, NOTIFY_TX_FAIL))
    case SetupWait =>
      if !RxEnded(r.evt) then (SetupWait, r)
      else if r.evt.b0 && r.pktPid == PID_DATA0 then (Idle,
          Emptied(Done(r, BD_DONE_OK, true, true, NOTIFY_SUCCESS), PID_ACK))
      else (Idle, Failed(defs, r))
    case OutWait =>
      if !RxEnded(r.evt) then (OutWait, r)
      else if r.evt.b0 && IsData(r.pktPid) then (Idle, Answer(r))
      else (Idle, if IsReady(r.t.bdState) then Failed(defs, r) else r)
    case IsocTx =>
      if r.evt.b2 then (Idle, Done(r.(evt := r.evt.And(EVT_TX_DONE.Not())), BD_DONE_OK, false, false, NOTIFY_SUCCESS))
          else (IsocTx, r)
    case IsocWait =>
      if !RxEnded(r.evt) then (IsocWait, r)
      else if r.evt.b0 && IsData(r.pktPid) then (Idle, Done(r, BD_DONE_OK, false, false, NOTIFY_SUCCESS))
      else (Idle, Failed(defs, r))
    case Discard =>
      (if RxEnded(r.evt) then Idle else Discard, r)
  }

  /** A whole run: input by input. */
  function Play(defs: set<string>, p: Phase, r: Regs, ins: Inputs): (Phase, Regs)
    decreases ins
  {
    if ins.NoMore? then (p, r)
    else
      var q := Next(defs, p, Arrive(r, ins.head));
      Play(defs, q.0, q.1, ins.tail)
  }

  // ---- The blocks follow the protocol --------------------------------------------------------

  /** The tails send one empty packet each. */
  predicate Sends(l: Lab, pid: Nib) {
    || (l.IN_ISOC_NO_DATA? && pid == PID_DATA0)
    || (l.TX_STALL_HALT? && pid == PID_STALL)
    || (l.TX_NAK? && pid == PID_NAK)
    || (l.TX_ACK? && pid == PID_ACK)
  }

  lemma SendsEmpty(l: Lab, pid: Nib)
    requires Sends(l, pid)
    ensures Seg(l) == SendEmpty(pid) && !IsFail(l)
  {
    if l.IN_ISOC_NO_DATA? {
      SendsData(l, pid);
    } else if l.TX_STALL_HALT? {
      SendsStall(l, pid);
    } else if l.TX_NAK? {
      SendsNak(l, pid);
    } else {
      SendsAck(l, pid);
    }
  }

  lemma SendsData(l: Lab, pid: Nib)
    requires l.IN_ISOC_NO_DATA? && pid == PID_DATA0
    ensures Seg(l) == SendEmpty(pid) && !IsFail(l)
  {
  }

  lemma SendsStall(l: Lab, pid: Nib)
    requires l.TX_STALL_HALT? && pid == PID_STALL
    ensures Seg(l) == SendEmpty(pid) && !IsFail(l)
  {
  }

  lemma SendsNak(l: Lab, pid: Nib)
    requires l.TX_NAK? && pid == PID_NAK
    ensures Seg(l) == SendEmpty(pid) && !IsFail(l)
  {
  }

  lemma SendsAck(l: Lab, pid: Nib)
    requires l.TX_ACK? && pid == PID_ACK
    ensures Seg(l) == SendEmpty(pid) && !IsFail(l)
  {
  }

  lemma ThenSend(from: Lab, defs: set<string>, c: Cpu, l: Lab, pid: Nib, r: Regs, ins: Inputs)
    requires Leads(from, defs, c, l, r, ins) && Sends(l, pid)
    ensures Leads(from, defs, c, IDLE, Emptied(r, pid), ins)
  {
    var c1 := Via(from, defs, c, l, r, ins);
    SendsEmpty(l, pid);
    RunTail(l, pid, defs, c1);
  }

  lemma StallBdLeads(l: Lab, defs: set<string>, c: Cpu, to: Lab, rest: Prog)
    requires l.TX_STALL_BD? && to.TX_STALL_HALT? && rest == End
    ensures Leads(l, defs, c, to, Done(c.r, BD_DONE_OK, false, false, NOTIFY_SUCCESS), c.ins)
  {
    StallBdSeg(l, rest);
    RunFinal(l, to, BD_DONE_OK, NOTIFY_SUCCESS, rest, defs, c);
  }

  lemma StallBdSeg(l: Lab, rest: Prog)
    requires l.TX_STALL_BD? && rest == End
    ensures Seg(l) == Finish(BD_DONE_OK, false, false, NOTIFY_SUCCESS, rest) && NextLab(l) == TX_STALL_HALT
      && !IsFail(l)
  {
  }

  lemma ThenStallBd(from: Lab, defs: set<string>, c: Cpu, l: Lab, r: Regs, ins: Inputs)
    requires Leads(from, defs, c, l, r, ins) && l.TX_STALL_BD?
    ensures Leads(from, defs, c, IDLE, StallBd(r), ins)
  {
    var c1 := Via(from, defs, c, l, r, ins);
    StallBdLeads(l, defs, c1, TX_STALL_HALT, End);
    ThenSend(from, defs, c, TX_STALL_HALT, PID_STALL, Done(r, BD_DONE_OK, false, false, NOTIFY_SUCCESS), ins);
  }

  lemma InIsocFollows(from: Lab, defs: set<string>, c: Cpu)
    requires Leads(from, defs, c, IN_ISOC, c.r, c.ins)
    ensures if c.r.t.bdState == BD_RDY_DATA then Leads(from, defs, c, IN_ISOC_WAIT_TX, Data(c.r, PID_DATA0), c.ins)
            else Leads(from, defs, c, IDLE, Emptied(c.r, PID_DATA0), c.ins)
  {
    var c1 := Via(from, defs, c, IN_ISOC, c.r, c.ins);
    RunInIsoc(defs, c1);
    if c.r.t.bdState != BD_RDY_DATA {
      ThenSend(from, defs, c, IN_ISOC_NO_DATA, PID_DATA0, c.r, c.ins);
    }
  }

  lemma StartInFollows(l: Lab, defs: set<string>, c: Cpu)
    requires l.DO_IN?
    ensures Leads(l, defs, c, LabelOf(StartIn(defs, c.r).0), StartIn(defs, c.r).1, c.ins)
  {
    var to := InLab(defs, c.r.t);
    DoInSeg(l);
    RunDoIn(l, InBd(), defs, c);
    if to.IN_ISOC? {
      InIsocFollows(l, defs, c);
      IsocInStart(defs, c.r);
    } else {
      InBciFollows(l, defs, c, to, StartIn(defs, c.r));
    }
  }

  lemma IsocInStart(defs: set<string>, r: Regs)
    requires InLab(defs, r.t) == IN_ISOC
    ensures StartIn(defs, r) == if r.t.bdState == BD_RDY_DATA then (IsocTx, Data(r, PID_DATA0))
      else (Idle, Emptied(r, PID_DATA0))
    ensures LabelOf(IsocTx) == IN_ISOC_WAIT_TX && LabelOf(Idle) == IDLE
  {
  }

  lemma InBciFollows(l: Lab, defs: set<string>, c: Cpu, to: Lab, q: (Phase, Regs))
    requires to == InLab(defs, c.r.t) && !to.IN_ISOC? && q == StartIn(defs, c.r)
    requires Leads(l, defs, c, to, if to.IN_WAIT_TX? then Data(c.r, Toggled(PID_DATA0, c.r.t.dt)) else c.r, c.ins)
    ensures Leads(l, defs, c, LabelOf(q.0), q.1, c.ins)
  {
    if to.IN_WAIT_TX? {
      assert LabelOf(q.0) == IN_WAIT_TX;
    } else {
      assert LabelOf(q.0) == IDLE;
      if to.TX_STALL_BD? {
        assert q.1 == StallBd(c.r);
        ThenStallBd(l, defs, c, to, c.r, c.ins);
      } else if !to.IDLE? {
        var pid := if to.TX_NAK? then PID_NAK else PID_STALL;
        assert q.1 == Emptied(c.r, pid) && Sends(to, pid);
        ThenSend(l, defs, c, to, pid, c.r, c.ins);
      }
    }
  }

  lemma DoInSeg(l: Lab)
    requires l.DO_IN?
    ensures Seg(l) == CheckType(IN_ISOC, TX_STALL_HALT, TX_NAK, InBd())
  {
  }

  // ---- OUT and SETUP -------------------------------------------------------------------------

  lemma DiscardFollows(from: Lab, defs: set<string>, c: Cpu, l: Lab)
    requires Leads(from, defs, c, l, c.r, c.ins) && l.RX_DISCARD_NEXT?
    ensures Leads(from, defs, c, RX_DISCARD_WAIT, ZeroLength(c.r), c.ins)
  {
    var c1 := Via(from, defs, c, l, c.r, c.ins);
    var zl, rto := DiscardSeg(l, c.r);
    RunActs(l, zl, rto, defs, c1);
  }

  lemma DiscardSeg(l: Lab, r: Regs) returns (zl: Insn, rto: Insn)
    requires l.RX_DISCARD_NEXT?
    ensures Seg(l) == Do(zl, Do(rto, End)) && !zl.Ld? && !rto.Ld? && NextLab(l) == RX_DISCARD_WAIT && !IsFail(l)
    ensures Exec(Exec(r, zl), rto) == ZeroLength(r)
  {
    zl, rto := Zl, EvtRto(TIMEOUT);
  }

  lemma StartSetupFollows(l: Lab, defs: set<string>, c: Cpu)
    requires l.DO_SETUP?
    ensures Leads(l, defs, c, LabelOf(StartSetup(c.r).0), StartSetup(c.r).1, c.ins)
  {
    hide Leads, ZeroLength, IsCtrl;
    var q := StartSetup(c.r);
    DoSetupLeads(l, defs, c);
    if q.0.Discard? {
      assert LabelOf(q.0) == RX_DISCARD_WAIT;
      DiscardFollows(l, defs, c, RX_DISCARD_NEXT);
    } else {
      assert LabelOf(q.0) == SETUP_WAIT_DATA;
    }
  }

  lemma DoSetupLeads(l: Lab, defs: set<string>, c: Cpu)
    requires l.DO_SETUP?
    ensures Leads(l, defs, c, if StartSetup(c.r).0.Discard? then RX_DISCARD_NEXT else SETUP_WAIT_DATA, c.r, c.ins)
  {
    var rest, tail := DoSetupSeg(l);
    RunDoSetup(l, rest, tail, defs, c);
  }

  lemma DoSetupSeg(l: Lab) returns (rest: Prog, tail: Prog)
    requires l.DO_SETUP?
    ensures tail == Do(EvtRto(TIMEOUT), End) && rest == Do(Ld(BdState), Jne(RX_DISCARD_NEXT, BD_IS_RDY_DATA, ALL, tail))
    ensures Seg(l) == Do(Ld(EpType), Jne(RX_DISCARD_NEXT, EP_TYPE_CTRL, EP_TYPE_CEL_MSK2, rest))
  {
    tail := Do(EvtRto(TIMEOUT), End);
    rest := Do(Ld(BdState), Jne(RX_DISCARD_NEXT, BD_IS_RDY_DATA, ALL, tail));
  }

  lemma IsocSpace(from: Lab, defs: set<string>, c: Cpu, l: Lab)
    requires Leads(from, defs, c, l, c.r, c.ins) && l.OUT_ISOC? && c.r.t.bdState == BD_RDY_DATA
    ensures Leads(from, defs, c, OUT_ISOC_WAIT_DATA, c.r, c.ins)
  {
    var c1 := Via(from, defs, c, l, c.r, c.ins);
    OutIsocSeg(l);
    RunOutIsoc(l, Do(EvtRto(TIMEOUT), End), defs, c1);
  }

  lemma IsocNoSpace(from: Lab, defs: set<string>, c: Cpu, l: Lab)
    requires Leads(from, defs, c, l, c.r, c.ins) && l.OUT_ISOC? && c.r.t.bdState != BD_RDY_DATA
    ensures Leads(from, defs, c, RX_DISCARD_WAIT, ZeroLength(c.r), c.ins)
  {
    var c1 := Via(from, defs, c, l, c.r, c.ins);
    OutIsocSeg(l);
    RunOutIsoc(l, Do(EvtRto(TIMEOUT), End), defs, c1);
    var c2 := Via(from, defs, c, OUT_ISOC_NO_SPACE, c.r, c.ins);
    RunOutIsocNoSpace(OUT_ISOC_NO_SPACE, defs, c2);
    DiscardFollows(from, defs, c, RX_DISCARD_NEXT);
  }

  lemma OutIsocSeg(l: Lab)
    requires l.OUT_ISOC?
    ensures Seg(l) == Do(Ld(BdState), Jne(OUT_ISOC_NO_SPACE, BD_IS_RDY_DATA, ALL, Do(EvtRto(TIMEOUT), End)))
  {
  }

  lemma DropFollows(from: Lab, defs: set<string>, c: Cpu, l: Lab)
    requires Leads(from, defs, c, l, c.r, c.ins) && l.OUT_DROP_DATA?
    ensures Leads(from, defs, c, OUT_WAIT_DATA, ZeroLength(c.r), c.ins)
  {
    var c1 := Via(from, defs, c, l, c.r, c.ins);
    RunOutDropData(l, defs, c1);
  }

  lemma StartOutFollows(l: Lab, defs: set<string>, c: Cpu)
    requires l.DO_OUT?
    ensures Leads(l, defs, c, LabelOf(StartOut(defs, c.r).0), StartOut(defs, c.r).1, c.ins)
  {
    DoOutFollows(l, defs, c);
    if IsIsoc(c.r.t.epType) && !NoIsoc(defs) {
      var q := IsocStart(defs, c.r);
      IsocStarts(l, defs, c, q);
    } else {
      OutBciFollows(l, defs, c);
    }
  }

  lemma IsocStart(defs: set<string>, r: Regs) returns (q: (Phase, Regs))
    requires IsIsoc(r.t.epType) && !NoIsoc(defs)
    ensures q == StartOut(defs, r) && q == if r.t.bdState == BD_RDY_DATA then (IsocWait, r)
      else (Discard, ZeroLength(r))
  {
    q := StartOut(defs, r);
  }

  lemma IsocStarts(l: Lab, defs: set<string>, c: Cpu, q: (Phase, Regs))
    requires Leads(l, defs, c, OUT_ISOC, c.r, c.ins)
    requires q == if c.r.t.bdState == BD_RDY_DATA then (IsocWait, c.r) else (Discard, ZeroLength(c.r))
    ensures Leads(l, defs, c, LabelOf(q.0), q.1, c.ins)
  {
    if c.r.t.bdState == BD_RDY_DATA {
      assert LabelOf(q.0) == OUT_ISOC_WAIT_DATA;
      IsocSpace(l, defs, c, OUT_ISOC);
    } else {
      assert LabelOf(q.0) == RX_DISCARD_WAIT;
      IsocNoSpace(l, defs, c, OUT_ISOC);
    }
  }

  lemma DoOutFollows(l: Lab, defs: set<string>, c: Cpu)
    requires l.DO_OUT?
    ensures Leads(l, defs, c,
                  if IsIsoc(c.r.t.epType) && !NoIsoc(defs) then OUT_ISOC
                  else if IsNone(c.r.t.epType) then IDLE
                  else if c.r.t.epType.t0 || Locked(c.r.t) || c.r.t.bdState != BD_RDY_DATA then OUT_DROP_DATA
                      else OUT_WAIT_DATA,
                  c.r, c.ins)
  {
    DoOutSeg(l);
    RunDoOut(l, OutBd(), defs, c);
  }

  lemma OutBciFollows(l: Lab, defs: set<string>, c: Cpu)
    requires !IsIsoc(c.r.t.epType) || NoIsoc(defs)
    requires Leads(l, defs, c,
                   if IsNone(c.r.t.epType) then IDLE
                   else if c.r.t.epType.t0 || Locked(c.r.t) || c.r.t.bdState != BD_RDY_DATA then OUT_DROP_DATA
                       else OUT_WAIT_DATA,
                   c.r, c.ins)
    ensures Leads(l, defs, c, LabelOf(StartOut(defs, c.r).0), StartOut(defs, c.r).1, c.ins)
  {
    if !IsNone(c.r.t.epType) && (c.r.t.epType.t0 || Locked(c.r.t) || c.r.t.bdState != BD_RDY_DATA) {
      DropFollows(l, defs, c, OUT_DROP_DATA);
    }
  }

  lemma DoOutSeg(l: Lab)
    requires l.DO_OUT?
    ensures Seg(l) == CheckType(OUT_ISOC, OUT_DROP_DATA, OUT_DROP_DATA, OutBd())
  {
  }

  // ---- After the wait ------------------------------------------------------------------------

  lemma IdleTurn(l: Lab, defs: set<string>, c: Cpu, c1: Cpu)
    requires l.IDLE? && c.ins.More? && c1 == Heard(c)
    ensures Leads(l, defs, c, LabelOf(Next(defs, Idle, c1.r).0), Next(defs, Idle, c1.r).1, c1.ins)
  {
    var to := if c1.a.b0 then Dispatch(c1.r.pktPid) else IDLE;
    RunIdle(defs, c, c1);
    var c2 := Via(l, defs, c, to, c1.r.(evt := ZERO), c1.ins);
    if to.DO_IN? {
      StartInFollows(to, defs, c2);
    } else if to.DO_OUT? {
      StartOutFollows(to, defs, c2);
    } else if to.DO_SETUP? {
      StartSetupFollows(to, defs, c2);
    }
  }

  lemma InAckTurn(l: Lab, defs: set<string>, c: Cpu, c1: Cpu)
    requires l.IN_WAIT_ACK? && c.ins.More? && c1 == Heard(c)
    ensures Leads(l, defs, c, LabelOf(Next(defs, InAck, c1.r).0), Next(defs, InAck, c1.r).1, c1.ins)
  {
    RunInWaitAck(defs, c, c1);
    if RxEnded(c1.a) && !(c1.a.b0 && c1.r.pktPid == PID_ACK) {
      var c2 := Via(l, defs, c, IN_FAIL, c1.r, c1.ins);
      RunInFail(defs, c2);
    }
  }

  lemma InTxTurn(defs: set<string>, c: Cpu, c1: Cpu)
    requires c.ins.More? && c1 == Heard(c)
    ensures Leads(IN_WAIT_TX, defs, c, LabelOf(Next(defs, InTx, c1.r).0), Next(defs, InTx, c1.r).1, c1.ins)
  {
    RunInWaitTx(defs, c, c1);
  }

  lemma IsocTxTurn(l: Lab, defs: set<string>, c: Cpu, c1: Cpu)
    requires l.IN_ISOC_WAIT_TX? && c.ins.More? && c1 == Heard(c)
    ensures Leads(l, defs, c, LabelOf(Next(defs, IsocTx, c1.r).0), Next(defs, IsocTx, c1.r).1, c1.ins)
  {
    RunInIsocWaitTx(l, Finish(BD_DONE_OK, false, false, NOTIFY_SUCCESS, Goto(IDLE)), defs, c, c1,
                    c1.r.(evt := c1.r.evt.And(EVT_TX_DONE.Not())));
  }

  lemma DiscardTurn(l: Lab, defs: set<string>, c: Cpu, c1: Cpu)
    requires l.RX_DISCARD_WAIT? && c.ins.More? && c1 == Heard(c)
    ensures Leads(l, defs, c, LabelOf(Next(defs, Discard, c1.r).0), Next(defs, Discard, c1.r).1, c1.ins)
  {
    RunDiscardWait(l, defs, c, c1);
  }

  /** A failure block that does nothing but report. */
  lemma ReportFollows(from: Lab, defs: set<string>, c: Cpu, l: Lab, r: Regs, ins: Inputs)
    requires Leads(from, defs, c, l, r, ins) && (l.SETUP_FAIL? || l.OUT_ISOC_FAIL?) && !IgnoreErr(defs)
    ensures Leads(from, defs, c, IDLE, Failed(defs, r), ins)
  {
    var c1 := Via(from, defs, c, l, r, ins);
    RunFinal(l, IDLE, BD_DONE_ERR, NOTIFY_RX_FAIL, Goto(IDLE), defs, c1);
  }

  /** Without error reports the failure labels stand one behind the other, before IDLE. */
  lemma BareNext(l: Lab)
    requires IsFail(l)
    ensures if l.OUT_ISOC_FAIL? then NextLab(l) == IDLE
            else IsFail(NextLab(l)) && BareLeft(NextLab(l)) < BareLeft(l)
  {
  }

  function BareLeft(l: Lab): nat {
    if l.SETUP_FAIL? then 2 else if l.OUT_FAIL? then 1 else 0
  }

  lemma {:induction false} BareFollows(from: Lab, defs: set<string>, c: Cpu, l: Lab, r: Regs, ins: Inputs)
    requires Leads(from, defs, c, l, r, ins) && IsFail(l) && IgnoreErr(defs)
    ensures Leads(from, defs, c, IDLE, r, ins)
    decreases BareLeft(l)
  {
    hide *;
    BareNext(l);
    var c1 := Via(from, defs, c, l, r, ins);
    RunBare(l, defs, c1);
    if !l.OUT_ISOC_FAIL? {
      BareFollows(from, defs, c, NextLab(l), r, ins);
    }
  }

  lemma SetupTurn(l: Lab, defs: set<string>, c: Cpu, c1: Cpu)
    requires l.SETUP_WAIT_DATA? && c.ins.More? && c1 == Heard(c)
    ensures Leads(l, defs, c, LabelOf(Next(defs, SetupWait, c1.r).0), Next(defs, SetupWait, c1.r).1, c1.ins)
  {
    RunSetupWaitData(l, SetupData(), defs, c, c1);
    if RxEnded(c1.a) && c1.a.b0 && c1.r.pktPid == PID_DATA0 {
      var c2 := Via(l, defs, c, TX_ACK, Done(c1.r, BD_DONE_OK, true, true, NOTIFY_SUCCESS), c1.ins);
      SendsEmpty(TX_ACK, PID_ACK);
      RunTail(TX_ACK, PID_ACK, defs, c2);
    } else if RxEnded(c1.a) {
      FailTurn(l, defs, c, SETUP_FAIL, c1.r, c1.ins);
    }
  }

  lemma FailTurn(from: Lab, defs: set<string>, c: Cpu, l: Lab, r: Regs, ins: Inputs)
    requires Leads(from, defs, c, l, r, ins) && (l.SETUP_FAIL? || l.OUT_ISOC_FAIL?)
    ensures Leads(from, defs, c, IDLE, Failed(defs, r), ins)
  {
    if IgnoreErr(defs) {
      BareFollows(from, defs, c, l, r, ins);
    } else {
      ReportFollows(from, defs, c, l, r, ins);
    }
  }

  lemma IsocDataTurn(l: Lab, defs: set<string>, c: Cpu, c1: Cpu)
    requires l.OUT_ISOC_WAIT_DATA? && c.ins.More? && c1 == Heard(c)
    ensures Leads(l, defs, c, LabelOf(Next(defs, IsocWait, c1.r).0), Next(defs, IsocWait, c1.r).1, c1.ins)
  {
    RunOutIsocWaitData(l, OutIsocData(), defs, c, c1);
    if RxEnded(c1.a) && !(c1.a.b0 && IsData(c1.r.pktPid)) {
      FailTurn(l, defs, c, OUT_ISOC_FAIL, c1.r, c1.ins);
    }
  }

  lemma OutWaitSeg(l: Lab) returns (take: Prog)
    requires l.OUT_WAIT_DATA?
    ensures take == OutTake() && Seg(l) == AwaitPacket(l, OUT_FAIL, OutIsData(OutType(OutToggle(take))))
  {
    take := OutTake();
  }

  /** Where the wait for OUT data leads when data came. */
  function AnswerLab(r: Regs): Lab {
    if r.t.epType.t0 then TX_STALL_HALT
    else if Locked(r.t) then TX_NAK
    else if !Expected(r) then TX_ACK
    else if !IsReady(r.t.bdState) then TX_NAK
    else if r.t.bdState == BD_RDY_STALL then TX_STALL_BD
    else TX_ACK
  }

  predicate Takes(r: Regs) {
    !r.t.epType.t0 && !Locked(r.t) && Expected(r) && r.t.bdState == BD_RDY_DATA
  }

  lemma AnswerFollows(from: Lab, defs: set<string>, c: Cpu, r: Regs, ins: Inputs)
    requires Leads(from, defs, c, AnswerLab(r), if Takes(r) then Done(r, BD_DONE_OK, true, false, NOTIFY_SUCCESS)
      else r, ins)
    ensures Leads(from, defs, c, IDLE, Answer(r), ins)
  {
    var l := AnswerLab(r);
    if l.TX_STALL_BD? {
      ThenStallBd(from, defs, c, l, r, ins);
    } else {
      var r1 := if Takes(r) then Done(r, BD_DONE_OK, true, false, NOTIFY_SUCCESS) else r;
      var pid := if l.TX_STALL_HALT? then PID_STALL else if l.TX_NAK? then PID_NAK else PID_ACK;
      assert Sends(l, pid);
      ThenSend(from, defs, c, l, pid, r1, ins);
    }
  }

  lemma OutGood(l: Lab, defs: set<string>, c: Cpu, c1: Cpu)
    requires l.OUT_WAIT_DATA? && c.ins.More? && c1 == Heard(c)
    requires c1.a.b0 && IsData(c1.r.pktPid)
    ensures Leads(l, defs, c, AnswerLab(c1.r), if Takes(c1.r) then Done(c1.r, BD_DONE_OK, true, false, NOTIFY_SUCCESS)
      else c1.r, c1.ins)
  {
    var take := OutWaitSeg(l);
    RunOutWaitData(l, take, defs, c, c1);
  }

  lemma OutBad(l: Lab, defs: set<string>, c: Cpu, c1: Cpu)
    requires l.OUT_WAIT_DATA? && c.ins.More? && c1 == Heard(c)
    requires !(c1.a.b0 && IsData(c1.r.pktPid))
    ensures Leads(l, defs, c, if RxEnded(c1.a) then OUT_FAIL else l, c1.r, c1.ins)
  {
    var take := OutWaitSeg(l);
    RunOutWaitData(l, take, defs, c, c1);
  }

  lemma OutFailSeg(l: Lab) returns (rest: Prog)
    requires l.OUT_FAIL?
    ensures rest == Finish(BD_DONE_ERR, false, false, NOTIFY_RX_FAIL, Goto(IDLE))
    ensures Seg(l) == Do(Ld(BdState), Jne(IDLE, BD_RDY_VAL, BD_RDY_MSK, rest))
  {
    rest := Finish(BD_DONE_ERR, false, false, NOTIFY_RX_FAIL, Goto(IDLE));
  }

  lemma OutFailFollows(from: Lab, defs: set<string>, c: Cpu, l: Lab, r: Regs, ins: Inputs)
    requires Leads(from, defs, c, l, r, ins) && l.OUT_FAIL?
    ensures Leads(from, defs, c, IDLE, if IsReady(r.t.bdState) then Failed(defs, r) else r, ins)
  {
    if IgnoreErr(defs) {
      BareFollows(from, defs, c, l, r, ins);
    } else {
      var c1 := Via(from, defs, c, l, r, ins);
      var rest := OutFailSeg(l);
      RunOutFail(l, rest, defs, c1);
    }
  }

  lemma OutTurn(l: Lab, defs: set<string>, c: Cpu, c1: Cpu)
    requires l.OUT_WAIT_DATA? && c.ins.More? && c1 == Heard(c)
    ensures Leads(l, defs, c, LabelOf(Next(defs, OutWait, c1.r).0), Next(defs, OutWait, c1.r).1, c1.ins)
  {
    if c1.a.b0 && IsData(c1.r.pktPid) {
      OutGood(l, defs, c, c1);
      AnswerFollows(l, defs, c, c1.r, c1.ins);
    } else {
      OutBad(l, defs, c, c1);
      if RxEnded(c1.a) {
        OutFailFollows(l, defs, c, OUT_FAIL, c1.r, c1.ins);
      }
    }
  }

  /** One input, wherever the microcode waits. */
  lemma Turn(p: Phase, defs: set<string>, c: Cpu, c1: Cpu)
    requires c.ins.More? && c1 == Heard(c)
    ensures Leads(LabelOf(p), defs, c, LabelOf(Next(defs, p, c1.r).0), Next(defs, p, c1.r).1, c1.ins)
  {
    match p
    case Idle => IdleTurn(LabelOf(p), defs, c, c1);
    case InTx => InTxTurn(defs, c, c1);
    case InAck => InAckTurn(LabelOf(p), defs, c, c1);
    case SetupWait => SetupTurn(LabelOf(p), defs, c, c1);
    case OutWait => OutTurn(LabelOf(p), defs, c, c1);
    case IsocTx => IsocTxTurn(LabelOf(p), defs, c, c1);
    case IsocWait => IsocDataTurn(LabelOf(p), defs, c, c1);
    case Discard => DiscardTurn(LabelOf(p), defs, c, c1);
  }

  lemma Stay(l: Lab, defs: set<string>, c: Cpu)
    ensures Leads(l, defs, c, l, c.r, c.ins)
  {
    assert Left(RunBlocks(l, defs, c, 0, Seg), l, c.r, c.ins);
  }

  lemma {:induction false} BlocksFollow(p: Phase, defs: set<string>, c: Cpu)
    ensures Leads(LabelOf(p), defs, c, LabelOf(Play(defs, p, c.r, c.ins).0), Play(defs, p, c.r, c.ins).1, NoMore)
    decreases c.ins
  {
    if c.ins.NoMore? {
      Stay(LabelOf(p), defs, c);
    } else {
      var c1 := Heard(c);
      var q := Next(defs, p, c1.r);
      Turn(p, defs, c, c1);
      var c2 := Via(LabelOf(p), defs, c, LabelOf(q.0), q.1, c1.ins);
      BlocksFollow(q.0, defs, c2);
    }
  }

  /** The assembled ROM follows the protocol: whatever the bus does, from reset, after some clocks
      the engine has taken every input, its registers are those the protocol leads to, and its program
      counter is where the protocol's phase waits. */
  lemma RomFollowsProtocol(defs: set<string>, r: Regs, ins: Inputs, a: Nib) returns (img: Image<Lab>, k: nat)
    ensures Assembled(Flatten(Listing(Seg)), defs) == Some(img) && |img.words| < 256
    ensures var c := FlatRun(img.words, TheMachine(), Flat(0, Cpu(a, r, ins)), k).s;
            c.ins == NoMore && c.r == Play(defs, Idle, r, ins).1
    ensures var at := Find(Program(defs, Seg), LabelOf(Play(defs, Idle, r, ins).0));
            at.Cons? ==> AtAddress(Program(defs, Seg), 0, at,
                FlatRun(img.words, TheMachine(), Flat(0, Cpu(a, r, ins)), k).pc)
  {
    var c := Cpu(a, r, ins);
    BlocksFollow(Idle, defs, c);
    var n: nat :| Left(RunBlocks(IDLE, defs, c, n, Seg), LabelOf(Play(defs, Idle, r, ins).0),
        Play(defs, Idle, r, ins).1, NoMore);
    img, k := RomRunsBlocks(defs, c, n);
  }
}
