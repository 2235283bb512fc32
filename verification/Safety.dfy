/** What holds over every run of the protocol, whatever the bus and the firmware do: no accepted
    packet was dropped, only ready descriptors are used, and a lockout keeps control endpoints still. */
module Safety {
  import opened Isa
  import opened Engine
  import opened Microcode
  import opened BlockSteps
  import opened Transactions

  // ---- No accepted packet was dropped ----------------------------------------------------------

  /** A wait for data that could be taken has its window open; so has a token not yet looked at. */
  predicate WindowOpen(p: Phase, r: Regs) {
    && (r.evt.b0 && IsToken(r.pktPid) ==> !r.x.zl)
    && (p.OutWait? && !r.t.epType.t0 && !Locked(r.t) && r.t.bdState == BD_RDY_DATA ==> !r.x.zl)
    && (p.SetupWait? || p.IsocWait? ==> !r.x.zl)
  }

  /** A token is an input of its own. */
  predicate Plausible(i: Input) {
    (i.Packet? ==> !IsToken(i.pid)) && (i.Token? ==> IsToken(i.pid))
  }

  lemma ArriveOpen(p: Phase, r: Regs, i: Input)
    requires WindowOpen(p, r) && Plausible(i)
    ensures WindowOpen(p, Arrive(r, i))
  {
  }

  lemma StartOpen(defs: set<string>, r: Regs)
    requires r.evt == ZERO
    ensures WindowOpen(StartIn(defs, r).0, StartIn(defs, r).1)
    ensures !r.x.zl ==> WindowOpen(StartOut(defs, r).0, StartOut(defs, r).1)
    ensures !r.x.zl ==> WindowOpen(StartSetup(r).0, StartSetup(r).1)
  {
  }

  lemma AnswerOpen(r: Regs)
    requires !IsToken(r.pktPid)
    ensures WindowOpen(Idle, Answer(r))
  {
  }

  lemma NextOpen(defs: set<string>, p: Phase, r: Regs)
    requires WindowOpen(p, r)
    ensures WindowOpen(Next(defs, p, r).0, Next(defs, p, r).1)
  {
    if p.Idle? {
      StartOpen(defs, r.(evt := ZERO));
    } else if p.OutWait? {
      OutNextOpen(defs, r);
    } else if p.SetupWait? {
    } else if p.IsocWait? {
    } else {
    }
  }

  lemma OutNextOpen(defs: set<string>, r: Regs)
    requires WindowOpen(OutWait, r)
    ensures WindowOpen(Next(defs, OutWait, r).0, Next(defs, OutWait, r).1)
  {
    if r.evt.b0 && IsData(r.pktPid) {
      AnswerOpen(r);
    }
  }

  predicate AllPlausible(ins: Inputs) {
    ins.More? ==> Plausible(ins.head) && AllPlausible(ins.tail)
  }

  lemma {:induction false} PlayOpen(defs: set<string>, p: Phase, r: Regs, ins: Inputs)
    requires WindowOpen(p, r) && AllPlausible(ins)
    ensures WindowOpen(Play(defs, p, r, ins).0, Play(defs, p, r, ins).1)
    decreases ins
  {
    if ins.More? {
      ArriveOpen(p, r, ins.head);
      var q := Next(defs, p, Arrive(r, ins.head));
      NextOpen(defs, p, Arrive(r, ins.head));
      PlayOpen(defs, q.0, q.1, ins.tail);
    }
  }

  /** The step reports success, and does not refuse the packet with a STALL. */
  predicate Accepts(r: Regs, r1: Regs) {
    && |r1.outs| > |r.outs| && r1.outs[|r.outs|].Notified? && r1.outs[|r.outs|].code == NOTIFY_SUCCESS
    && r1.outs[|r1.outs| - 1] != Sent(r.t.ep, PID_STALL, 0)
  }

  /** Over every run, a packet the engine accepts is data, and was written as far as the
      descriptor has room: nothing accepted was dropped by `ZL`. */
  lemma NeverDropped(defs: set<string>, r: Regs, ins: Inputs, pid: Nib, bytes: nat)
    requires r.evt == ZERO && AllPlausible(ins)
    ensures var q := Play(defs, Idle, r, ins);
            var r1 := Arrive(q.1, Packet(pid, bytes));
            (q.0.OutWait? || q.0.SetupWait? || q.0.IsocWait?) && Accepts(r1, Next(defs, q.0, r1).1) ==>
              IsData(pid) && r1.x.stored == Min(q.1.x.bdLen, bytes)
  {
    PlayOpen(defs, Idle, r, ins);
    var q := Play(defs, Idle, r, ins);
    var r1 := Arrive(q.1, Packet(pid, bytes));
    if (q.0.OutWait? || q.0.SetupWait? || q.0.IsocWait?) && Accepts(r1, Next(defs, q.0, r1).1) {
      AcceptedStored(defs, q.0, q.1, pid, bytes, r1);
    }
  }

  lemma AcceptedStored(defs: set<string>, p: Phase, r: Regs, pid: Nib, bytes: nat, r1: Regs)
    requires WindowOpen(p, r) && r1 == Arrive(r, Packet(pid, bytes)) && (p.OutWait? || p.SetupWait? || p.IsocWait?)
    requires Accepts(r1, Next(defs, p, r1).1)
    ensures IsData(pid) && r1.x.stored == Min(r.x.bdLen, bytes)
  {
    if p.OutWait? {
      OutAccepted(defs, r1);
    }
  }

  lemma OutAccepted(defs: set<string>, r: Regs)
    requires RxEnded(r.evt) && Accepts(r, Next(defs, OutWait, r).1)
    ensures r.evt.b0 && IsData(r.pktPid) && Takes(r)
  {
  }

  // ---- Only ready descriptors are used -------------------------------------------------------

  /** Each descriptor is as it was, or was ready and is done. */
  ghost predicate Used(ram: Ram, ram1: Ram) {
    forall id, i :: UsedBd(Fetch(ram, id).At(i), Fetch(ram1, id).At(i))
  }

  predicate UsedBd(bd: Bd, bd1: Bd) {
    bd1 == bd || (IsReady(bd.state) && IsDone(bd1.state))
  }

  predicate Pending(r: Regs) {
    r.evt.b0 && IsToken(r.pktPid)
  }

  predicate Matches(r: Regs) {
    r.t.bdState == Fetch(r.ram, r.t.ep).At(r.t.idxCur).state
  }

  /** Where a token does no harm: not while the engine sends, nor where a build that reports errors
      waits for the data of a SETUP or of an isochronous endpoint. */
  predicate TokenFits(defs: set<string>, p: Phase) {
    p.Idle? || p.InAck? || p.Discard? || p.OutWait? || (IgnoreErr(defs) && (p.SetupWait? || p.IsocWait?))
  }

  /** The firmware may write any descriptor but the one that the engine is at work with. */
  predicate PostFits(p: Phase, r: Regs, ep: EpId, index: bool) {
    p.Discard? || (p.Idle? && !Pending(r)) || ep != r.t.ep || index != r.t.idxCur
  }

  predicate Fits(defs: set<string>, p: Phase, r: Regs, i: Input) {
    && Plausible(i) && (i.Token? ==> TokenFits(defs, p))
    && (i.Post? ==> PostFits(p, r, i.ep, i.index))
  }

  predicate Orderly(defs: set<string>, p: Phase, r: Regs, ins: Inputs)
    decreases ins
  {
    ins.More? ==>
      && Fits(defs, p, r, ins.head)
      && var q := Next(defs, p, Arrive(r, ins.head)); Orderly(defs, q.0, q.1, ins.tail)
  }

  /** What was latched at the token still describes the RAM, and was ready where it must be. */
  predicate Latched(p: Phase, r: Regs) {
    if p.Idle? then Pending(r) ==> Matches(r)
    else if p.Discard? then !Pending(r)
    else !Pending(r) && Matches(r) && (p.OutWait? || r.t.bdState == BD_RDY_DATA)
  }

  /** The same once an input has come: nothing has changed, or a token has been latched anew. */
  predicate Fresh(defs: set<string>, p: Phase, r: Regs) {
    Latched(p, r) || (TokenFits(defs, p) && r.evt.b0 && !IsData(r.pktPid) && r.pktPid != PID_ACK && Matches(r))
  }

  lemma ArriveLatched(defs: set<string>, p: Phase, r: Regs, i: Input)
    requires Latched(p, r) && Fits(defs, p, r, i)
    ensures Fresh(defs, p, Arrive(r, i))
  {
    if i.Post? {
      PostLatched(p, r, i.ep, i.index, i.bd);
    }
  }

  lemma PostLatched(p: Phase, r: Regs, ep: EpId, index: bool, bd: Bd)
    requires Latched(p, r) && PostFits(p, r, ep, index)
    ensures Latched(p, Arrive(r, Post(ep, index, bd)))
  {
  }

  lemma DoneUses(r: Regs, state: Tri, dtFlip: bool, celSet: bool, code: Nib)
    requires IsReady(r.t.bdState) && Matches(r) && IsDone(state)
    ensures Used(r.ram, Done(r, state, dtFlip, celSet, code).ram) && Matches(Done(r, state, dtFlip, celSet, code))
  {
  }

  lemma StartInUses(defs: set<string>, r: Regs)
    requires r.evt == ZERO && Matches(r)
    ensures var q := StartIn(defs, r); Latched(q.0, q.1) && Used(r.ram, q.1.ram)
  {
    StartInLatched(defs, r);
    if StartIn(defs, r).1.ram != r.ram {
      DoneUses(r, BD_DONE_OK, false, false, NOTIFY_SUCCESS);
    }
  }

  /** Only a descriptor that asks for a STALL is used up at the token. */
  lemma StartInLatched(defs: set<string>, r: Regs)
    requires r.evt == ZERO && Matches(r)
    ensures var q := StartIn(defs, r); q.1.ram == r.ram || (r.t.bdState == BD_RDY_STALL && q.1.ram == StallBd(r).ram)
    ensures var q := StartIn(defs, r); Latched(q.0, q.1)
  {
    var q := StartIn(defs, r);
    if q.0.Idle? {
      assert q.1.evt == ZERO;
    } else {
      assert r.t.bdState == BD_RDY_DATA && q.1.ram == r.ram && q.1.t == r.t && q.1.evt == ZERO;
    }
  }

  lemma StartOutUses(defs: set<string>, r: Regs)
    requires r.evt == ZERO && Matches(r)
    ensures var q := StartOut(defs, r); Latched(q.0, q.1) && Used(r.ram, q.1.ram)
    ensures var q := StartSetup(r); Latched(q.0, q.1) && Used(r.ram, q.1.ram)
  {
  }

  lemma AnswerUses(r: Regs)
    requires Matches(r) && !IsToken(r.pktPid)
    ensures Latched(Idle, Answer(r)) && Used(r.ram, Answer(r).ram)
  {
    if IsReady(r.t.bdState) {
      DoneUses(r, BD_DONE_OK, false, false, NOTIFY_SUCCESS);
      DoneUses(r, BD_DONE_OK, true, false, NOTIFY_SUCCESS);
    }
  }

  lemma FailedUses(defs: set<string>, r: Regs)
    requires Matches(r) && IsReady(r.t.bdState)
    ensures Latched(Idle, Failed(defs, r)) && Used(r.ram, Failed(defs, r).ram)
  {
    DoneUses(r, BD_DONE_ERR, false, false, NOTIFY_RX_FAIL);
  }

  lemma InAckUses(defs: set<string>, r: Regs)
    requires Fresh(defs, InAck, r)
    ensures var q := Next(defs, InAck, r); Latched(q.0, q.1) && Used(r.ram, q.1.ram)
  {
    if Latched(InAck, r) {
      DoneUses(r, BD_DONE_OK, true, false, NOTIFY_SUCCESS);
    }
  }

  lemma SendUses(defs: set<string>, p: Phase, r: Regs)
    requires (p.IsocTx? || p.InTx?) && Latched(p, r)
    ensures var q := Next(defs, p, r); Latched(q.0, q.1) && Used(r.ram, q.1.ram)
  {
    DoneUses(r.(evt := r.evt.And(EVT_TX_DONE.Not())), BD_DONE_OK, false, false, NOTIFY_SUCCESS);
  }

  /** A wait that reports a failure without looking: it needs a descriptor that is ready, or a build
      that does not report. */
  lemma WaitUses(defs: set<string>, p: Phase, r: Regs)
    requires (p.IsocWait? || p.SetupWait?) && Fresh(defs, p, r)
    ensures var q := Next(defs, p, r); Latched(q.0, q.1) && Used(r.ram, q.1.ram)
  {
    if Latched(p, r) {
      FailedUses(defs, r);
      DoneUses(r, BD_DONE_OK, true, true, NOTIFY_SUCCESS);
      DoneUses(r, BD_DONE_OK, false, false, NOTIFY_SUCCESS);
    } else {
      assert Next(defs, p, r) == (Idle, r);
    }
  }

  lemma OutUses(defs: set<string>, r: Regs)
    requires Fresh(defs, OutWait, r)
    ensures var q := Next(defs, OutWait, r); Latched(q.0, q.1) && Used(r.ram, q.1.ram)
  {
    if r.evt.b0 && IsData(r.pktPid) {
      AnswerUses(r);
    } else if IsReady(r.t.bdState) {
      FailedUses(defs, r);
    }
  }

  lemma NextUses(defs: set<string>, p: Phase, r: Regs)
    requires Fresh(defs, p, r)
    ensures var q := Next(defs, p, r); Latched(q.0, q.1) && Used(r.ram, q.1.ram)
  {
    if p.Idle? {
      IdleUses(defs, r);
    } else if p.OutWait? {
      OutUses(defs, r);
    } else if p.InAck? {
      InAckUses(defs, r);
    } else if p.InTx? || p.IsocTx? {
      SendUses(defs, p, r);
    } else if !p.Discard? {
      WaitUses(defs, p, r);
    }
  }

  lemma IdleUses(defs: set<string>, r: Regs)
    requires Fresh(defs, Idle, r)
    ensures var q := Next(defs, Idle, r); Latched(q.0, q.1) && Used(r.ram, q.1.ram)
  {
    if Pending(r) {
      StartInUses(defs, r.(evt := ZERO));
      StartOutUses(defs, r.(evt := ZERO));
    }
  }

  lemma {:induction false} PlayLatched(defs: set<string>, p: Phase, r: Regs, ins: Inputs)
    requires Latched(p, r) && Orderly(defs, p, r, ins)
    ensures var q := Play(defs, p, r, ins); Latched(q.0, q.1)
    decreases ins
  {
    if ins.More? {
      var r1 := Arrive(r, ins.head);
      ArriveLatched(defs, p, r, ins.head);
      NextUses(defs, p, r1);
      var q := Next(defs, p, r1);
      PlayLatched(defs, q.0, q.1, ins.tail);
    }
  }

  /** Over every orderly run of any number of transactions, with the firmware writing descriptors in
      between, whatever the engine does at the next input, it writes back only descriptors that are ready
      at that time, and makes them done. */
  lemma OnlyReadyUsed(defs: set<string>, r: Regs, ins: Inputs, i: Input)
    requires r.evt == ZERO && Orderly(defs, Idle, r, ins)
    requires var q := Play(defs, Idle, r, ins); Fits(defs, q.0, q.1, i)
    ensures var q := Play(defs, Idle, r, ins);
            var r1 := Arrive(q.1, i);
            Used(r1.ram, Next(defs, q.0, r1).1.ram)
  {
    PlayLatched(defs, Idle, r, ins);
    var q := Play(defs, Idle, r, ins);
    ArriveLatched(defs, q.0, q.1, i);
    NextUses(defs, q.0, Arrive(q.1, i));
  }

  /** Where a token does not fit because the engine waits for data, it is the token's own descriptor
      that is marked as failed, with nothing received: which is in order if and only if it is ready, or is
      marked just so already. */
  lemma TokenMisplaced(defs: set<string>, p: Phase, r: Regs, pid: Nib, endp: nat)
    requires (p.SetupWait? || p.IsocWait?) && !TokenFits(defs, p) && IsToken(pid)
    ensures var r1 := Arrive(r, Token(pid, endp, true));
            var q := Next(defs, p, r1);
            var id := EpId(endp, pid == PID_IN);
            var was := Fetch(r.ram, id).At(r1.t.idxCur);
            var failed := Bd(BD_DONE_ERR, pid == PID_SETUP, 0);
            && r1.ram == r.ram && Fetch(q.1.ram, id).At(r1.t.idxCur) == failed
            && (Used(r.ram, q.1.ram) <==> IsReady(was.state) || was == failed)
  {
    var r1 := Arrive(r, Token(pid, endp, true));
    assert Matches(r1) && r1.t.ep == EpId(endp, pid == PID_IN) && r1.x.len == 0;
    assert Next(defs, p, r1) == (Idle, Failed(defs, r1));
    FailedExactly(defs, r1);
  }

  /** The mark of a failure, wherever it falls. */
  lemma FailedExactly(defs: set<string>, r: Regs)
    requires Matches(r) && !IgnoreErr(defs)
    ensures var ram1 := Failed(defs, r).ram;
            var was, failed := Fetch(r.ram, r.t.ep).At(r.t.idxCur), Bd(BD_DONE_ERR, r.t.isSetup, r.x.len);
            && Fetch(ram1, r.t.ep).At(r.t.idxCur) == failed
            && (Used(r.ram, ram1) <==> IsReady(was.state) || was == failed)
  {
    var ram1 := Failed(defs, r).ram;
    var was, failed := Fetch(r.ram, r.t.ep).At(r.t.idxCur), Bd(BD_DONE_ERR, r.t.isSetup, r.x.len);
    FailedElsewhere(defs, r);
    if IsReady(was.state) || was == failed {
      forall id, i ensures UsedBd(Fetch(r.ram, id).At(i), Fetch(ram1, id).At(i)) {
        if id == r.t.ep && i == r.t.idxCur {
          assert UsedBd(was, failed);
        }
      }
    } else {
      assert !UsedBd(was, failed);
    }
  }

  lemma FailedElsewhere(defs: set<string>, r: Regs)
    requires !IgnoreErr(defs)
    ensures var ram1 := Failed(defs, r).ram;
            && Fetch(ram1, r.t.ep).At(r.t.idxCur) == Bd(BD_DONE_ERR, r.t.isSetup, r.x.len)
            && forall id, i :: id != r.t.ep || i != r.t.idxCur ==> Fetch(ram1, id).At(i) == Fetch(r.ram, id).At(i)
  {
  }

  /** Where the engine sends an isochronous packet, the token's descriptor is taken for the one sent. */
  lemma TokenWhileSending(defs: set<string>, r: Regs, pid: Nib, endp: nat)
    requires IsToken(pid) && !r.evt.b2
    ensures var q := Next(defs, IsocTx, Arrive(r, Token(pid, endp, true)));
            var q1 := Next(defs, q.0, Arrive(q.1, TxDone));
            && q.0.IsocTx? && q1.0.Idle?
            && Fetch(q1.1.ram, EpId(endp, pid == PID_IN)).At(q.1.t.idxCur).state == BD_DONE_OK
  {
  }

  /** Out of order it goes wrong: if, instead of a SETUP transaction's data, another token comes, a
      build that reports errors marks that token's descriptor as failed, ready or not. */
  lemma TokenInsteadOfData(defs: set<string>, r: Regs, e: nat, pid: Nib, endp: nat)
    requires r.evt == ZERO && !IgnoreErr(defs) && IsToken(pid) && pid != PID_SETUP
    requires var at := Fetch(r.ram, EpId(e, false));
             IsCtrl(at.epType) && !r.cel && at.At(at.Current(true)).state == BD_RDY_DATA
    ensures var ins := More(Token(PID_SETUP, e, true), More(Token(pid, endp, true), NoMore));
            var q := Play(defs, Idle, r, ins);
            var was := Fetch(r.ram, EpId(endp, pid == PID_IN));
            Fetch(q.1.ram, EpId(endp, pid == PID_IN)).At(was.Current(false)).state == BD_DONE_ERR
  {
    var r1 := Arrive(r, Token(PID_SETUP, e, true));
    var q1 := (SetupWait, r1.(evt := ZERO));
    assert Next(defs, Idle, r1) == q1;
    var r2 := Arrive(q1.1, Token(pid, endp, true));
    assert Next(defs, SetupWait, r2) == (Idle, Failed(defs, r2));
    var second := More(Token(pid, endp, true), NoMore);
    assert Play(defs, SetupWait, q1.1, second) == Play(defs, Idle, Failed(defs, r2), NoMore);
    assert Play(defs, Idle, r, More(Token(PID_SETUP, e, true), second)) == Play(defs, SetupWait, q1.1, second);
    FailedMarks(defs, r2);
  }

  lemma FailedMarks(defs: set<string>, r: Regs)
    requires !IgnoreErr(defs)
    ensures Fetch(Failed(defs, r).ram, r.t.ep).At(r.t.idxCur).state == BD_DONE_ERR
  {
  }
}
