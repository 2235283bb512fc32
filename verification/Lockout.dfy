/** The control endpoint lockout: from an accepted SETUP until the firmware releases it, control
    endpoints answer NAK or STALL or nothing, and use no descriptor, over every run. */
module Lockout {
  import opened Isa
  import opened Engine
  import opened Microcode
  import opened BlockSteps
  import opened Transactions
  import opened Safety

  predicate Control(ram: Ram, id: EpId) {
    IsCtrl(Fetch(ram, id).epType)
  }

  /** The same endpoints are control endpoints. */
  ghost predicate SameKinds(ram: Ram, ram1: Ram) {
    forall id :: Control(ram1, id) == Control(ram, id)
  }

  /** What a control endpoint may still show. */
  predicate Refusal(o: Out) {
    match o
    case Sent(_, pid, len) => (pid == PID_NAK || pid == PID_STALL) && len == 0
    case Notified(code, _, _, _) => code != NOTIFY_SUCCESS
  }

  predicate Harmless(ram: Ram, o: Out) {
    Control(ram, o.ep) ==> Refusal(o)
  }

  /** The firmware does not release the lockout, makes no endpoint a control endpoint or stops it
      being one, and never itself marks a descriptor done; no token arrives while the engine sends. */
  predicate Holding(defs: set<string>, p: Phase, r: Regs, ins: Inputs)
    decreases ins
  {
    ins.More? ==>
      && Allowed(p, r, ins.head)
      && var q := Next(defs, p, Arrive(r, ins.head)); Holding(defs, q.0, q.1, ins.tail)
  }

  predicate Allowed(p: Phase, r: Regs, i: Input) {
    && Plausible(i) && !i.Release?
    && (i.Configure? ==> IsCtrl(i.status.epType) == Control(r.ram, i.ep))
    && (i.Post? ==> i.bd.state != BD_DONE_OK)
    && (i.Token? ==> !p.InTx? && !p.IsocTx?)
  }

  /** The latched transaction started after the lockout, and is past the tests only if it is not
      for a control endpoint. */
  predicate Locks(p: Phase, r: Regs) {
    && r.cel && r.celEna
    && ((p.Idle? && !Pending(r)) || (r.t.cel && IsCtrl(r.t.epType) == Control(r.ram, r.t.ep)))
    && (!p.Idle? && !p.OutWait? && !p.Discard? ==> !IsCtrl(r.t.epType))
  }

  /** The same when an input has come: a token may have replaced the transaction waited for. */
  predicate LocksHeard(p: Phase, r: Regs) {
    Locks(p, r) ||
    (&& r.cel && r.celEna && r.t.cel && IsCtrl(r.t.epType) == Control(r.ram, r.t.ep)
     && r.evt.b0 && !IsData(r.pktPid) && r.pktPid != PID_ACK && !p.InTx? && !p.IsocTx?)
  }

  lemma ArriveLocks(p: Phase, r: Regs, i: Input)
    requires Locks(p, r) && Allowed(p, r, i)
    ensures LocksHeard(p, Arrive(r, i)) && SameKinds(r.ram, Arrive(r, i).ram) && Arrive(r, i).outs == r.outs
  {
  }

  /** Everything shown since is harmless, and no control descriptor has become
      DONE_OK. */
  ghost predicate Quietly(r: Regs, r1: Regs) {
    && SameKinds(r.ram, r1.ram)
    && |r.outs| <= |r1.outs| && r1.outs[..|r.outs|] == r.outs
    && (forall k :: |r.outs| <= k < |r1.outs| ==> Harmless(r.ram, r1.outs[k]))
    && (forall id, i :: StaysUndone(r.ram, r1.ram, id, i))
  }

  predicate StaysUndone(ram: Ram, ram1: Ram, id: EpId, i: bool) {
    Control(ram, id) && Fetch(ram, id).At(i).state != BD_DONE_OK ==> Fetch(ram1, id).At(i).state != BD_DONE_OK
  }

  lemma QuietlyTrans(a: Regs, b: Regs, c: Regs)
    requires Quietly(a, b) && Quietly(b, c)
    ensures Quietly(a, c)
  {
    forall k | |a.outs| <= k < |c.outs| ensures Harmless(a.ram, c.outs[k]) {
      if k < |b.outs| {
        assert c.outs[..|b.outs|][k] == b.outs[k];
      } else {
        assert Harmless(b.ram, c.outs[k]);
      }
    }
    forall id, i ensures StaysUndone(a.ram, c.ram, id, i) {
      assert StaysUndone(a.ram, b.ram, id, i) && StaysUndone(b.ram, c.ram, id, i);
    }
    assert c.outs[..|a.outs|] == b.outs[..|a.outs|];
  }

  lemma LogQuiet(r: Regs, r1: Regs, o: Out)
    requires r1.ram == r.ram && r1.outs == r.outs + [o] && Harmless(r.ram, o)
    ensures Quietly(r, r1)
  {
  }

  /** An update of an endpoint that is not for control, or one that reports an error. */
  lemma DoneQuiet(r: Regs, state: Tri, dtFlip: bool, celSet: bool, code: Nib)
    requires r.cel && r.celEna && IsCtrl(r.t.epType) == Control(r.ram, r.t.ep)
    requires IsCtrl(r.t.epType) ==> state != BD_DONE_OK && code != NOTIFY_SUCCESS
    ensures var r1 := Done(r, state, dtFlip, celSet, code);
            Quietly(r, r1) && r1.cel && r1.celEna && IsCtrl(r1.t.epType) == Control(r1.ram, r1.t.ep)
                && r1.t.cel == r.t.cel && r1.t.ep == r.t.ep
  {
    var r1 := Done(r, state, dtFlip, celSet, code);
    assert forall id :: Control(r1.ram, id) == Control(r.ram, id);
  }

  /** The latched transaction is under the lockout. */
  predicate Under(r: Regs) {
    r.cel && r.celEna && r.t.cel && IsCtrl(r.t.epType) == Control(r.ram, r.t.ep)
  }

  lemma StallBdQuiet(r: Regs)
    requires Under(r) && !IsCtrl(r.t.epType)
    ensures Under(StallBd(r)) && Quietly(r, StallBd(r))
  {
    var r1 := Done(r, BD_DONE_OK, false, false, NOTIFY_SUCCESS);
    DoneQuiet(r, BD_DONE_OK, false, false, NOTIFY_SUCCESS);
    LogQuiet(r1, StallBd(r), Sent(r.t.ep, PID_STALL, 0));
    QuietlyTrans(r, r1, StallBd(r));
  }

  lemma EmptiedQuiet(r: Regs, pid: Nib)
    requires Under(r) && (IsCtrl(r.t.epType) ==> pid == PID_STALL || pid == PID_NAK)
    ensures Under(Emptied(r, pid)) && Quietly(r, Emptied(r, pid)) && Emptied(r, pid).evt == r.evt
  {
    LogQuiet(r, Emptied(r, pid), Sent(r.t.ep, pid, 0));
  }

  lemma DataQuiet(r: Regs, pid: Nib)
    requires Under(r) && !IsCtrl(r.t.epType)
    ensures Under(Data(r, pid)) && Quietly(r, Data(r, pid)) && Data(r, pid).evt == r.evt
  {
    LogQuiet(r, Data(r, pid), Sent(r.t.ep, pid, if r.x.zl then 0 else r.x.bdLen));
  }

  lemma StartInQuiet(defs: set<string>, r: Regs)
    requires Under(r)
    ensures var q := StartIn(defs, r); Locks(q.0, q.1) && Quietly(r, q.1)
  {
    EmptiedQuiet(r, PID_STALL);
    EmptiedQuiet(r, PID_NAK);
    if !IsCtrl(r.t.epType) {
      FreeInQuiet(defs, r);
    }
  }

  /** An endpoint that the lockout does not concern. */
  lemma FreeInQuiet(defs: set<string>, r: Regs)
    requires Under(r) && !IsCtrl(r.t.epType)
    ensures var q := StartIn(defs, r); Under(q.1) && Quietly(r, q.1) && IsCtrl(q.1.t.epType) == IsCtrl(r.t.epType)
  {
    var q := StartIn(defs, r);
    if q.0.IsocTx? {
      DataQuiet(r, PID_DATA0);
    } else if q.0.InTx? {
      DataQuiet(r, Toggled(PID_DATA0, r.t.dt));
    } else if q.1 == StallBd(r) {
      StallBdQuiet(r);
    } else {
      EmptiedQuiet(r, PID_DATA0);
      EmptiedQuiet(r, PID_NAK);
      EmptiedQuiet(r, PID_STALL);
    }
  }

  lemma StartOutQuiet(defs: set<string>, r: Regs)
    requires Under(r)
    ensures var q := StartOut(defs, r); Locks(q.0, q.1) && Quietly(r, q.1)
    ensures var q := StartSetup(r); Locks(q.0, q.1) && Quietly(r, q.1)
  {
  }

  lemma AnswerQuiet(r: Regs)
    requires Under(r)
    ensures Under(Answer(r)) && Quietly(r, Answer(r))
  {
    EmptiedQuiet(r, PID_STALL);
    EmptiedQuiet(r, PID_NAK);
    if !IsCtrl(r.t.epType) {
      EmptiedQuiet(r, PID_ACK);
      StallBdQuiet(r);
      TakenQuiet(r);
    }
  }

  lemma TakenQuiet(r: Regs)
    requires Under(r) && !IsCtrl(r.t.epType)
    ensures var r1 := Emptied(Done(r, BD_DONE_OK, true, false, NOTIFY_SUCCESS), PID_ACK); Under(r1) && Quietly(r, r1)
  {
    var r1 := Done(r, BD_DONE_OK, true, false, NOTIFY_SUCCESS);
    DoneQuiet(r, BD_DONE_OK, true, false, NOTIFY_SUCCESS);
    EmptiedQuiet(r1, PID_ACK);
    QuietlyTrans(r, r1, Emptied(r1, PID_ACK));
  }

  lemma FailedQuiet(defs: set<string>, r: Regs)
    requires Under(r)
    ensures Under(Failed(defs, r)) && Quietly(r, Failed(defs, r))
  {
    DoneQuiet(r, BD_DONE_ERR, false, false, NOTIFY_RX_FAIL);
  }

  lemma ReplyQuiet(defs: set<string>, p: Phase, r: Regs)
    requires LocksHeard(p, r) && (p.InAck? || p.InTx? || p.IsocTx?)
    ensures var q := Next(defs, p, r); Locks(q.0, q.1) && Quietly(r, q.1)
  {
    if p.InAck? && RxEnded(r.evt) && !(r.evt.b0 && r.pktPid == PID_ACK) {
      LogQuiet(r, Note(r, NOTIFY_TX_FAIL), Notified(NOTIFY_TX_FAIL, r.t.ep, r.t.isSetup, r.t.idxCur));
    } else if p.InAck? && RxEnded(r.evt) {
      DoneQuiet(r, BD_DONE_OK, true, false, NOTIFY_SUCCESS);
    } else if p.IsocTx? && r.evt.b2 {
      DoneQuiet(r.(evt := r.evt.And(EVT_TX_DONE.Not())), BD_DONE_OK, false, false, NOTIFY_SUCCESS);
    }
  }

  lemma WaitQuiet(defs: set<string>, p: Phase, r: Regs)
    requires LocksHeard(p, r) && (p.SetupWait? || p.IsocWait?)
    ensures var q := Next(defs, p, r); Locks(q.0, q.1) && Quietly(r, q.1)
  {
    if !RxEnded(r.evt) {
    } else if p.SetupWait? && r.evt.b0 && r.pktPid == PID_DATA0 {
      var r1 := Done(r, BD_DONE_OK, true, true, NOTIFY_SUCCESS);
      DoneQuiet(r, BD_DONE_OK, true, true, NOTIFY_SUCCESS);
      LogQuiet(r1, Emptied(r1, PID_ACK), Sent(r.t.ep, PID_ACK, 0));
      QuietlyTrans(r, r1, Emptied(r1, PID_ACK));
    } else if p.IsocWait? && r.evt.b0 && IsData(r.pktPid) {
      DoneQuiet(r, BD_DONE_OK, false, false, NOTIFY_SUCCESS);
    } else {
      FailedQuiet(defs, r);
    }
  }

  lemma NextQuiet(defs: set<string>, p: Phase, r: Regs)
    requires LocksHeard(p, r)
    ensures var q := Next(defs, p, r); Locks(q.0, q.1) && Quietly(r, q.1)
  {
    if p.Idle? {
      if Pending(r) {
        StartInQuiet(defs, r.(evt := ZERO));
        StartOutQuiet(defs, r.(evt := ZERO));
      }
    } else if p.OutWait? {
      if r.evt.b0 && IsData(r.pktPid) {
        AnswerQuiet(r);
      } else if RxEnded(r.evt) && IsReady(r.t.bdState) {
        FailedQuiet(defs, r);
      }
    } else if p.SetupWait? || p.IsocWait? {
      WaitQuiet(defs, p, r);
    } else if !p.Discard? {
      ReplyQuiet(defs, p, r);
    }
  }

  lemma ArriveQuiet(defs: set<string>, p: Phase, r: Regs, i: Input)
    requires Locks(p, r) && Allowed(p, r, i)
    ensures Quietly(r, Arrive(r, i))
  {
  }

  /** Over every run in which the firmware holds the lockout, from IDLE with the lockout set and no
      token pending: control endpoints send only NAK, STALL or nothing, report no success, and none
      of their descriptors becomes DONE_OK. */
  lemma {:induction false} LockoutHolds(defs: set<string>, p: Phase, r: Regs, ins: Inputs)
    requires Locks(p, r) && Holding(defs, p, r, ins)
    ensures Quietly(r, Play(defs, p, r, ins).1) && Play(defs, p, r, ins).1.cel
    decreases ins
  {
    if ins.More? {
      var r1 := Arrive(r, ins.head);
      var q := Next(defs, p, r1);
      ArriveLocks(p, r, ins.head);
      ArriveQuiet(defs, p, r, ins.head);
      NextQuiet(defs, p, r1);
      QuietlyTrans(r, r1, q.1);
      LockoutHolds(defs, q.0, q.1, ins.tail);
      QuietlyTrans(r, q.1, Play(defs, p, r, ins).1);
    }
  }

  /** Accepting a SETUP packet is what starts it. */
  lemma SetupLocks(defs: set<string>, r: Regs)
    requires r.celEna && RxEnded(r.evt) && r.evt.b0 && r.pktPid == PID_DATA0
    ensures var q := Next(defs, SetupWait, r); Locks(q.0, q.1)
  {
  }
}
