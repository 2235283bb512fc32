/** Where the OUT side fails: an error in the second of two descriptors ends the endpoint's work, two
    errors in the first can leave it waiting for ever, and a halt cleared out of step loses or repeats
    a packet. Without them it is kept ready. */
module OutFaults {
  import opened Isa
  import opened Engine
  import opened Bytes
  import opened Microcode
  import opened BlockSteps
  import opened Decision
  import opened OutPath
  import I = InDriver
  import D = OutDriver

  // ---- An error in the second descriptor -----------------------------------------------------

  /** The second descriptor has failed; the driver only ever makes the first one ready again. */
  predicate Broken(y: Sys) {
    Shaped(y) && BulkOrInterrupt(y.s.e) && y.s.dual && y.s.e.bd1.state == BD_DONE_ERR
  }

  /** The driver leaves a failed second descriptor, and the hardware's registers. */
  predicate LeavesSecond(s: D.Out, r: D.Out) {
    && r.dual == s.dual && r.e.bd1 == s.e.bd1 && r.e == s.e.(bd0 := r.e.bd0) && r.mps == s.mps
  }

  lemma {:induction false} RetireLeaves(s: D.Out)
    requires s.Sane() && D.Lengths(s.e, s.mps) && s.e.bd1.state == BD_DONE_ERR
    ensures LeavesSecond(s, D.Retire(s))
    decreases I.Count(s.e, IsDone), s.retire
  {
    if s.e.At(s.retire).state == BD_DONE_OK && s.busy {
      var r := D.TakeFields(s);
      D.TakeStep(s);
      RetireLeaves(r);
    } else if s.e.At(s.retire).state == BD_DONE_ERR {
      D.RearmStep(s);
      RetireLeaves(D.Rearm(s));
    }
  }

  lemma {:induction false} ArmLeaves(s: D.Out)
    requires s.Sane() && D.Lengths(s.e, s.mps) && s.e.bd1.state == BD_DONE_ERR
    ensures LeavesSecond(s, D.Arm(s))
    decreases I.Count(s.e, I.IsFree)
  {
    if D.Wanted(s) {
      ArmLeaves(D.ArmOne(s));
    }
  }

  lemma AdvanceLeaves(s: D.Out)
    requires s.Sane() && D.Lengths(s.e, s.mps) && s.e.bd1.state == BD_DONE_ERR
    ensures LeavesSecond(s, D.Advance(s))
  {
    RetireLeaves(s);
    ArmLeaves(D.Retire(s));
  }

  /** Once the hardware looks at the second descriptor it takes nothing; before, one packet. */
  lemma BrokenToken(defs: set<string>, y: Sys, fate: Fate, ackSeen: bool)
    requires Broken(y) && y.acked < |y.plan|
    ensures var r := Transact(defs, y, fate, ackSeen);
            Broken(r) && |r.taken| + One(!r.s.e.idx) <= |y.taken| + One(!y.s.e.idx)
  {
    TokenShape(defs, y, fate, ackSeen);
  }

  lemma BrokenEvent(defs: set<string>, y: Sys, ev: Event)
    requires Broken(y) && Possible(y, ev)
    ensures var r := Happen(defs, y, ev);
            Broken(r) && |r.taken| + One(!r.s.e.idx) <= |y.taken| + One(!y.s.e.idx)
  {
    HappenShape(defs, y, ev);
    hide Shaped, D.Advance, Transact;
    match ev
    case Submit(buf, len) =>
      AdvanceLeaves(y.s.(busy := true, x := D.Transfer(buf, len, 0, 0), asked := y.s.asked + [len]));
    case Poll => AdvanceLeaves(y.s);
    case Token(seen, fate, ackSeen) =>
      if seen {
        BrokenToken(defs, y, fate, ackSeen);
      }
    case Halt(_) =>
  }

  lemma {:induction false} BrokenRun(defs: set<string>, y: Sys, evs: seq<Event>)
    requires Broken(y) && AllPossible(defs, y, evs)
    ensures var r := Run(defs, y, evs);
            Broken(r) && |r.taken| + One(!r.s.e.idx) <= |y.taken| + One(!y.s.e.idx)
    decreases |evs|
  {
    if evs != [] {
      HappenShape(defs, y, evs[0]);
      BrokenEvent(defs, y, evs[0]);
      BrokenRun(defs, Happen(defs, y, evs[0]), evs[1..]);
    }
  }

  /** A transaction that hits the second descriptor marks it. */
  lemma HitMarks(defs: set<string>, y: Sys, fate: Fate, ackSeen: bool)
    requires Sound(y) && y.acked < |y.plan| && Hits(defs, y, Event.Token(true, fate, ackSeen))
    ensures var r := Transact(defs, y, fate, ackSeen);
            && Broken(r) && r.taken == y.taken && r.acked == y.acked && r.toggle == y.toggle && r.plan == y.plan
            && !r.s.e.idx && r.s.e.bd0 == y.s.e.bd0 && r.s == y.s.(mem := r.s.mem, e := r.s.e)
            && r.s.e.epType == y.s.e.epType && r.s.e.dt == y.s.e.dt
  {
    TokenShape(defs, y, fate, ackSeen);
    var v, open := Decided(defs, y, fate);
  }

  /** From then on, whatever the bus and the driver do and however long, at most one more packet is
      ever taken. */
  lemma HitEnds(defs: set<string>, y: Sys, fate: Fate, ackSeen: bool, evs: seq<Event>)
    requires Sound(y) && y.acked < |y.plan| && Hits(defs, y, Event.Token(true, fate, ackSeen))
    requires Shaped(Transact(defs, y, fate, ackSeen)) && AllPossible(defs, Transact(defs, y, fate, ackSeen), evs)
    ensures |Run(defs, Transact(defs, y, fate, ackSeen), evs).taken| <= |y.taken| + 1
  {
    HitMarks(defs, y, fate, ackSeen);
    BrokenRun(defs, Transact(defs, y, fate, ackSeen), evs);
  }

  /** A failed second descriptor at the retire index: the driver makes the first one ready, whatever it
      holds, and goes on to it. */
  lemma RearmsFirst(s: D.Out)
    requires s.Sane() && D.Lengths(s.e, s.mps) && s.dual && s.retire && s.e.bd1.state == BD_DONE_ERR
    ensures D.Advance(s) == s.(e := s.e.With(false, D.Ready(s)), retire := false)
  {
    var r := D.Rearm(s);
    D.RearmStep(s);
    assert r == s.(e := s.e.With(false, D.Ready(s)), retire := false);
    assert D.Retire(s) == D.Retire(r) && D.Retire(r) == r;
    assert D.Arm(r) == r;
  }

  /** If the host's retry comes before the driver has run, its packet is acknowledged and lost: the
      driver makes its descriptor ready again without having copied it out. */
  lemma HitLoses(defs: set<string>, y: Sys, fate: Fate, crc: seq<byte>, more: bool)
    requires Inv(y) && y.acked < |y.plan| && Hits(defs, y, Event.Token(true, fate, more)) && |crc| == 2
    requires y.s.retire && y.s.e.bd0.state == BD_RDY_DATA && !y.s.e.epType.t0 && y.toggle == y.s.e.dt
    ensures var y2 := Transact(defs, Transact(defs, y, fate, more), Intact(crc), true);
            && Shaped(y2) && y2.acked == y.acked + 1
            && var r := Happen(defs, y2, Poll);
               && r.acked == y.acked + 1 && r.taken == y.taken + [y.plan[y.acked]]
               && r.s.retired == y.s.retired == |y.taken| && r.s.done == y.s.done && r.s.x == y.s.x
               && Waiting(r.s) == 0
  {
    HitMarks(defs, y, fate, more);
    var y1 := Transact(defs, y, fate, more);
    TokenShape(defs, y1, Intact(crc), true);
    TakesInto(defs, y1, crc);
    var y2 := Transact(defs, y1, Intact(crc), true);
    RearmsFirst(y2.s);
  }

  /** The first descriptor is ready, and takes the packet that comes. */
  lemma TakesInto(defs: set<string>, y: Sys, crc: seq<byte>)
    requires Broken(y) && y.acked < |y.plan| && !y.s.e.idx && y.s.e.bd0.state == BD_RDY_DATA
    requires !y.s.e.epType.t0 && y.toggle == y.s.e.dt
    ensures var r := Transact(defs, y, Intact(crc), true);
            && r.acked == y.acked + 1 && r.taken == y.taken + [y.plan[y.acked]]
            && r.s == y.s.(mem := r.s.mem, e := r.s.e) && r.s.e.bd1 == y.s.e.bd1
            && r.s.e.bd0.state == BD_DONE_OK && r.s.e.idx
  {
  }

  // ---- Errors in the first descriptor --------------------------------------------------------

  /** The hardware is due at the second descriptor, which is free, while the driver would fill the
      first, which is ready. */
  predicate Starved(s: D.Out) {
    && s.dual && s.e.idx && s.e.bd1.state == BD_NONE && s.e.bd0.state == BD_RDY_DATA && !s.fill && s.retire
  }

  /** What a call of the driver makes of that: the first descriptor has failed, the hardware has gone on
      to the second, which is free or about to be, and the fill index is at the first. */
  predicate Starves(s: D.Out) {
    && s.dual && !s.fill && s.e.idx && s.e.bd0.state == BD_DONE_ERR
    && (s.e.bd1.state == BD_NONE || (s.e.bd1.state == BD_DONE_OK && s.busy))
  }

  lemma TakeStarves(s: D.Out, taken: seq<seq<byte>>)
    requires Ring(s, taken) && s.busy && s.e.At(s.retire).state == BD_DONE_OK
    ensures var r := D.TakeOne(s); Starved(r) || Starves(r) <==> Starved(s) || Starves(s)
  {
    var r := D.TakeFields(s);
  }

  lemma RearmStarves(s: D.Out, taken: seq<seq<byte>>)
    requires Ring(s, taken) && s.e.At(s.retire).state == BD_DONE_ERR
    ensures var r := D.Rearm(s); Starved(r) || Starves(r) <==> Starved(s) || Starves(s)
  {
    RearmRing(s, taken);
  }

  /** Where retiring stops, no failed descriptor is left that could be made ready. */
  lemma StopStarves(s: D.Out, taken: seq<seq<byte>>)
    requires Ring(s, taken) && s.e.At(s.retire).state != BD_DONE_ERR
    requires s.e.At(s.retire).state == BD_DONE_OK ==> !s.busy
    ensures !Starves(s)
  {
  }

  lemma {:induction false} RetireStarves(s: D.Out, taken: seq<seq<byte>>)
    requires Ring(s, taken) && Books(s, taken)
    ensures Starved(D.Retire(s)) <==> Starved(s) || Starves(s)
    decreases I.Count(s.e, IsDone), s.retire
  {
    var state := s.e.At(s.retire).state;
    if state == BD_DONE_OK && s.busy {
      TakeRing(s, taken);
      TakeBooks(s, taken);
      D.TakeStep(s);
      TakeStarves(s, taken);
      RetireStarves(D.TakeOne(s), taken);
    } else if state == BD_DONE_ERR {
      RearmRing(s, taken);
      D.RearmStep(s);
      SameBooks(s, D.Rearm(s), taken);
      RearmStarves(s, taken);
      RetireStarves(D.Rearm(s), taken);
    } else {
      StopStarves(s, taken);
    }
  }

  lemma {:induction false} ArmStarves(s: D.Out)
    requires s.Sane() && D.Lengths(s.e, s.mps)
    ensures Starved(D.Arm(s)) <==> Starved(s)
    decreases I.Count(s.e, I.IsFree)
  {
    if D.Wanted(s) {
      ArmStarves(D.ArmOne(s));
    }
  }

  /** A call of the driver leaves the endpoint starved if and only if it was already, or the call finds
      the first descriptor failed at just that time. */
  lemma StarvesExactly(s: D.Out, taken: seq<seq<byte>>)
    requires Ring(s, taken) && Books(s, taken)
    ensures Starved(D.Advance(s)) <==> Starved(s) || Starves(s)
  {
    RetireStarves(s, taken);
    ArmStarves(D.Retire(s));
  }

  /** So a call of the driver with more to receive leaves the hardware's descriptor ready for the next
      packet, unless it finds the endpoint starved, or starves it. */
  lemma ReadyExactly(s: D.Out, taken: seq<seq<byte>>)
    requires Ring(s, taken) && Books(s, taken)
    ensures var r := D.Advance(s); r.busy ==> (r.e.At(r.e.idx) == D.Ready(r) <==> !Starved(s) && !Starves(s))
  {
    AdvanceKeeps(s, taken);
    StarvesExactly(s, taken);
    if D.Advance(s).busy {
      AfterCall(D.Advance(s), taken);
    }
  }

  lemma AfterCall(r: D.Out, taken: seq<seq<byte>>)
    requires Ring(r, taken) && !IsDone(r.e.At(r.retire).state) && r.e.At(r.fill).state != BD_NONE
    ensures r.e.At(r.e.idx) == D.Ready(r) <==> !Starved(r)
  {
  }

  /** The driver's state when it is called, in the events that call it. */
  function AtCall(y: Sys, ev: Event): D.Out {
    if ev.Submit?
    then y.s.(busy := true, x := D.Transfer(ev.buf, ev.len, 0, 0), asked := y.s.asked + [ev.len])
    else y.s
  }

  predicate Calls(ev: Event) {
    ev.Submit? || ev.Poll?
  }

  lemma EventStarves(defs: set<string>, y: Sys, ev: Event)
    requires Sound(y) && Possible(y, ev) && !Hits(defs, y, ev)
    ensures Starved(Happen(defs, y, ev).s) <==> Starved(y.s) || (Calls(ev) && Starves(AtCall(y, ev)))
  {
    match ev
    case Submit(buf, len) =>
      var s1 := Started(y.s, y.taken, buf, len);
      StarvesExactly(s1, y.taken);
    case Poll => StarvesExactly(y.s, y.taken);
    case Token(seen, fate, ackSeen) =>
      if seen {
        TokenStarves(defs, y, fate, ackSeen);
      }
    case Halt(_) =>
  }

  lemma TokenStarves(defs: set<string>, y: Sys, fate: Fate, ackSeen: bool)
    requires Sound(y) && y.acked < |y.plan|
    ensures Starved(Transact(defs, y, fate, ackSeen).s) <==> Starved(y.s)
  {
    var v, open := Decided(defs, y, fate);
    if !v.outcome.Untouched? {
      var r := UsedUp(y.s, v, Length(Received(y, fate)));
    }
  }

  /** Some call of the driver in the run starves the endpoint. */
  predicate SomeStarves(defs: set<string>, y: Sys, evs: seq<Event>)
    requires Shaped(y) && AllPossible(defs, y, evs)
    decreases |evs|
  {
    && evs != []
    && ((Calls(evs[0]) && Starves(AtCall(y, evs[0])))
        || (HappenShape(defs, y, evs[0]); SomeStarves(defs, Happen(defs, y, evs[0]), evs[1..])))
  }

  lemma {:induction false} RunStarves(defs: set<string>, y: Sys, evs: seq<Event>)
    requires Sound(y) && AllPossible(defs, y, evs) && NoHit(defs, y, evs)
    ensures Starved(Run(defs, y, evs).s) <==> Starved(y.s) || SomeStarves(defs, y, evs)
    decreases |evs|
  {
    if evs != [] {
      HappenShape(defs, y, evs[0]);
      EventSound(defs, y, evs[0]);
      EventStarves(defs, y, evs[0]);
      RunStarves(defs, Happen(defs, y, evs[0]), evs[1..]);
    }
  }

  /** In every run in which no error meets a ready second descriptor, the endpoint is starved at its end
      if and only if some call of the driver found the first descriptor failed while the hardware was due
      at the second, that was free or held a packet the call was to take, and the fill index was at the
      first; and as long as it is not, every call with more to receive leaves the descriptor due ready. */
  lemma StarvedExactly(defs: set<string>, y: Sys, evs: seq<Event>)
    requires Opened(y) && AllPossible(defs, y, evs) && NoHit(defs, y, evs)
    ensures var r := Run(defs, y, evs);
            && (Starved(r.s) <==> SomeStarves(defs, y, evs))
            && var s := Happen(defs, r, Poll).s;
               s.busy ==> (s.e.At(s.e.idx) == D.Ready(s) <==> !SomeStarves(defs, y, evs) && !Starves(r.s))
  {
    OpenedInv(y);
    RunKeeps(defs, y, evs);
    RunStarves(defs, y, evs);
    ReadyExactly(Run(defs, y, evs).s, Run(defs, y, evs).taken);
  }

  lemma StarvedAdvance(s: D.Out)
    requires s.Sane() && D.Lengths(s.e, s.mps) && Starved(s)
    ensures D.Advance(s) == s
  {
    assert D.Retire(s) == s && D.Arm(s) == s;
  }

  predicate Starving(y: Sys) {
    Shaped(y) && BulkOrInterrupt(y.s.e) && Starved(y.s)
  }

  lemma StarvingEvent(defs: set<string>, y: Sys, ev: Event)
    requires Starving(y) && Possible(y, ev)
    ensures Starving(Happen(defs, y, ev)) && Happen(defs, y, ev).taken == y.taken
  {
    HappenShape(defs, y, ev);
    match ev
    case Submit(buf, len) =>
      StarvedAdvance(y.s.(busy := true, x := D.Transfer(buf, len, 0, 0), asked := y.s.asked + [len]));
    case Poll => StarvedAdvance(y.s);
    case Token(seen, fate, ackSeen) =>
      if seen {
        StarvingToken(defs, y, fate, ackSeen);
      }
    case Halt(_) =>
  }

  lemma StarvingToken(defs: set<string>, y: Sys, fate: Fate, ackSeen: bool)
    requires Starving(y) && y.acked < |y.plan|
    ensures var r := Transact(defs, y, fate, ackSeen); r.s == y.s && r.taken == y.taken
  {
    var v := Verdicts(defs, y, fate);
    assert v.outcome.Untouched? && !Open(defs, y.s.e);
  }

  /** Starved once, it takes nothing any more. */
  lemma {:induction false} StarvedForGood(defs: set<string>, y: Sys, evs: seq<Event>)
    requires Starving(y) && AllPossible(defs, y, evs)
    ensures Run(defs, y, evs).taken == y.taken
    decreases |evs|
  {
    if evs != [] {
      HappenShape(defs, y, evs[0]);
      StarvingEvent(defs, y, evs[0]);
      StarvedForGood(defs, Happen(defs, y, evs[0]), evs[1..]);
    }
  }

  /** It comes to this when the first descriptor fails with the fill index at it, while the second is
      free, or holds a packet that the driver has a transfer for. */
  lemma FailureStarves(defs: set<string>, y: Sys, fate: Fate, ackSeen: bool)
    requires Sound(y) && y.acked < |y.plan| && !IgnoreErr(defs) && !fate.Intact?
    requires y.s.dual && !y.s.fill && !y.s.e.idx && y.s.e.bd0.state == BD_RDY_DATA
    requires y.s.e.bd1.state == BD_NONE || (y.s.e.bd1.state == BD_DONE_OK && y.s.busy)
    ensures var y1 := Transact(defs, y, fate, ackSeen);
            Shaped(y1) && Starving(Happen(defs, y1, Poll)) && Happen(defs, y1, Poll).taken == y.taken
  {
    TokenSound(defs, y, fate, ackSeen);
    var y1 := FirstFails(defs, y, fate, ackSeen);
    EventSound(defs, y1, Poll);
    StarvesExactly(y1.s, y1.taken);
  }

  lemma FirstFails(defs: set<string>, y: Sys, fate: Fate, ackSeen: bool) returns (y1: Sys)
    requires Sound(y) && y.acked < |y.plan| && !IgnoreErr(defs) && !fate.Intact?
    requires y.s.dual && !y.s.e.idx && y.s.e.bd0.state == BD_RDY_DATA
    ensures y1 == Transact(defs, y, fate, ackSeen) && y1.taken == y.taken
    ensures y1.s == y.s.(mem := y1.s.mem, e := y1.s.e) && y1.s.e.bd0.state == BD_DONE_ERR && y1.s.e.bd1 == y.s.e.bd1
    ensures y1.s.e.idx && BulkOrInterrupt(y1.s.e)
  {
    y1 := Transact(defs, y, fate, ackSeen);
    var v, open := Decided(defs, y, fate);
  }

  // ---- Without errors ------------------------------------------------------------------------

  /** The fill index follows the retire index: free descriptors are the ones between them. */
  predicate Followed(s: D.Out) {
    s.dual ==>
      var first, second := s.e.At(s.retire).state, s.e.At(!s.retire).state;
      && first != BD_DONE_ERR && second != BD_DONE_ERR && (first == BD_NONE ==> second == BD_NONE)
      && s.fill == (s.retire != (second == BD_NONE && first != BD_NONE))
  }

  /** No descriptor in use is free. */
  predicate Filled(s: D.Out) {
    s.e.bd0.state != BD_NONE && (s.dual ==> s.e.bd1.state != BD_NONE)
  }

  lemma TakeFollowed(s: D.Out)
    requires s.Sane() && D.Lengths(s.e, s.mps) && s.e.At(s.retire).state == BD_DONE_OK && Followed(s)
    ensures Followed(D.TakeOne(s))
  {
    var r := D.TakeFields(s);
  }

  lemma {:induction false} RetireFollowed(s: D.Out)
    requires s.Sane() && D.Lengths(s.e, s.mps) && Followed(s)
    ensures Followed(D.Retire(s))
    decreases I.Count(s.e, IsDone), s.retire
  {
    if s.e.At(s.retire).state == BD_DONE_OK && s.busy {
      TakeFollowed(s);
      D.TakeStep(s);
      RetireFollowed(D.TakeOne(s));
    } else if s.e.At(s.retire).state == BD_DONE_ERR {
      D.RearmStep(s);
      assert !s.dual;
      RetireFollowed(D.Rearm(s));
    }
  }

  lemma {:induction false} ArmFollowed(s: D.Out)
    requires s.Sane() && D.Lengths(s.e, s.mps) && Followed(s)
    ensures Followed(D.Arm(s)) && (s.busy || s.prefill ==> Filled(D.Arm(s)))
    decreases I.Count(s.e, I.IsFree)
  {
    if D.Wanted(s) {
      ArmFollowed(D.ArmOne(s));
    }
  }

  lemma RetireWants(s: D.Out)
    requires s.Sane() && D.Lengths(s.e, s.mps)
    ensures D.Retire(s).prefill == s.prefill
    decreases I.Count(s.e, IsDone), s.retire
  {
    if s.e.At(s.retire).state == BD_DONE_OK && s.busy {
      var r := D.TakeFields(s);
      D.TakeStep(s);
      RetireWants(r);
    } else if s.e.At(s.retire).state == BD_DONE_ERR {
      D.RearmStep(s);
      RetireWants(D.Rearm(s));
    }
  }

  lemma AdvanceFollowed(s: D.Out)
    requires s.Sane() && D.Lengths(s.e, s.mps) && Followed(s)
    ensures Followed(D.Advance(s)) && (s.prefill ==> Filled(D.Advance(s)))
  {
    RetireFollowed(s);
    RetireWants(s);
    ArmFollowed(D.Retire(s));
  }

  /** Data comes undamaged, or the build reports no errors, or there is one descriptor only. */
  predicate Mild(defs: set<string>, y: Sys, ev: Event) {
    ev.Token? ==> ev.fate.Intact? || IgnoreErr(defs) || !y.s.dual
  }

  lemma MildEvent(defs: set<string>, y: Sys, ev: Event)
    requires Sound(y) && Possible(y, ev) && Mild(defs, y, ev) && Followed(y.s)
    ensures Followed(Happen(defs, y, ev).s)
  {
    HappenShape(defs, y, ev);
    match ev
    case Submit(buf, len) =>
      AdvanceFollowed(y.s.(busy := true, x := D.Transfer(buf, len, 0, 0), asked := y.s.asked + [len]));
    case Poll => AdvanceFollowed(y.s);
    case Token(seen, fate, ackSeen) =>
      if seen {
        MildToken(defs, y, fate, ackSeen);
      }
    case Halt(_) =>
  }

  lemma MildToken(defs: set<string>, y: Sys, fate: Fate, ackSeen: bool)
    requires Sound(y) && y.acked < |y.plan| && (fate.Intact? || IgnoreErr(defs) || !y.s.dual) && Followed(y.s)
    ensures Followed(Transact(defs, y, fate, ackSeen).s)
  {
    var v, open := Decided(defs, y, fate);
    var bytes := Length(Received(y, fate));
    var r := y.s.(mem := Stored(y.s, open, Wire(y, fate)), e := Settled(y.s.e, false, v, bytes));
    if !v.outcome.Untouched? && y.s.dual {
      var u := UsedUp(y.s, v, bytes);
      UsedFollowed(y.s, r);
    }
  }

  lemma UsedFollowed(s: D.Out, r: D.Out)
    requires Followed(s) && r == s.(mem := r.mem, e := r.e) && r.e.At(!s.e.idx) == s.e.At(!s.e.idx)
    requires s.e.At(s.e.idx).state == BD_RDY_DATA && r.e.At(s.e.idx).state == BD_DONE_OK
    ensures Followed(r)
  {
    assert s.e.idx || !s.e.idx;
  }

  predicate AllMild(defs: set<string>, y: Sys, evs: seq<Event>)
    requires Shaped(y) && AllPossible(defs, y, evs)
    decreases |evs|
  {
    evs != [] ==>
      && Mild(defs, y, evs[0])
      && (HappenShape(defs, y, evs[0]); AllMild(defs, Happen(defs, y, evs[0]), evs[1..]))
  }

  lemma {:induction false} RunFollowed(defs: set<string>, y: Sys, evs: seq<Event>)
    requires Sound(y) && Followed(y.s) && AllPossible(defs, y, evs) && AllMild(defs, y, evs)
    ensures Sound(Run(defs, y, evs)) && Followed(Run(defs, y, evs).s)
    decreases |evs|
  {
    if evs != [] {
      HappenShape(defs, y, evs[0]);
      EventSound(defs, y, evs[0]);
      MildEvent(defs, y, evs[0]);
      RunFollowed(defs, Happen(defs, y, evs[0]), evs[1..]);
    }
  }

  /** In every such run, a call of the driver leaves every descriptor ready or holding a packet; so
      the endpoint never starves. */
  lemma KeptReady(defs: set<string>, y: Sys, evs: seq<Event>)
    requires Opened(y) && y.s.prefill && AllPossible(defs, y, evs) && AllMild(defs, y, evs)
    ensures var r := Run(defs, y, evs); Filled(Happen(defs, r, Poll).s) && !Starved(Happen(defs, r, Poll).s)
  {
    OpenedInv(y);
    RunFollowed(defs, y, evs);
    RunPrefill(defs, y, evs);
    AdvanceFollowed(Run(defs, y, evs).s);
  }

  lemma EventPrefill(defs: set<string>, y: Sys, ev: Event)
    requires Sound(y) && Possible(y, ev) && !Hits(defs, y, ev)
    ensures Happen(defs, y, ev).s.prefill == y.s.prefill
  {
    match ev
    case Submit(buf, len) =>
      var s1 := Started(y.s, y.taken, buf, len);
      AdvanceKeeps(s1, y.taken);
    case Poll => AdvanceKeeps(y.s, y.taken);
    case _ =>
  }

  lemma {:induction false} RunPrefill(defs: set<string>, y: Sys, evs: seq<Event>)
    requires Sound(y) && AllPossible(defs, y, evs) && AllMild(defs, y, evs)
    ensures Run(defs, y, evs).s.prefill == y.s.prefill
    decreases |evs|
  {
    if evs != [] {
      HappenShape(defs, y, evs[0]);
      EventSound(defs, y, evs[0]);
      EventPrefill(defs, y, evs[0]);
      RunPrefill(defs, Happen(defs, y, evs[0]), evs[1..]);
    }
  }

  // ---- Clearing a halt -----------------------------------------------------------------------

  /** How far the host's reset of its toggle puts the device off: not at all if it was due DATA0 anyway;
      if not, one packet is missing when the device is due DATA1 as well, and one too many if it is due
      DATA0. */
  function ResetOff(y: Sys): int {
    if !y.toggle then 0 else if y.s.e.dt then -1 else 1
  }

  /** A host that clears a halt starts over at DATA0; the driver leaves its toggle as it is. In every
      run after that, packets taken and acknowledged differ by exactly that: they stay in step if and
      only if the host was due DATA0. */
  lemma ClearedHalt(defs: set<string>, y: Sys, evs: seq<Event>)
    requires Inv(y) && Shaped(y.(toggle := false))
    requires AllPossible(defs, y.(toggle := false), evs) && NoHit(defs, y.(toggle := false), evs)
    ensures var r := Run(defs, y.(toggle := false), evs);
            && Ahead(r, ResetOff(y)) && (Ahead(r, 0) <==> !y.toggle)
            && (!y.toggle ==> r.acked <= |y.plan| && IsPrefix(r.taken, y.plan))
  {
    var z := y.(toggle := false);
    assert Ahead(z, ResetOff(y));
    RunAhead(defs, z, evs, ResetOff(y));
    if !y.toggle {
      assert z == y;
      RunKeeps(defs, y, evs);
    }
  }

  /** If both were due DATA1, the next packet is acknowledged as a repeat, and lost. */
  lemma ClearedHaltLoses(defs: set<string>, y: Sys, crc: seq<byte>)
    requires Inv(y) && y.toggle && y.s.e.dt && !y.s.e.epType.t0 && y.acked < |y.plan|
    ensures var r := Transact(defs, y.(toggle := false), Intact(crc), true);
            r.acked == y.acked + 1 && r.taken == y.taken && |r.taken| == y.acked
  {
    var v, open := Decided(defs, y.(toggle := false), Intact(crc));
  }

  /** If only the host was, its last packet is taken a second time. */
  lemma ClearedHaltRepeats(defs: set<string>, y: Sys, crc: seq<byte>)
    requires Inv(y) && y.toggle && !y.s.e.dt && !y.s.e.epType.t0 && y.acked < |y.plan|
    requires y.s.e.At(y.s.e.idx).state == BD_RDY_DATA
    ensures var r := Transact(defs, y.(toggle := false), Intact(crc), true);
            && r.taken == y.taken + [y.plan[y.acked]]
            && y.taken != [] && y.taken[|y.taken| - 1] == y.plan[y.acked]
  {
    var v, open := Decided(defs, y.(toggle := false), Intact(crc));
  }
}
