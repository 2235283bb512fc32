/** Control transfers go on: a poll and an undisturbed transaction in turn bring every request in hand to
    the end of its data stage, on the engine, the registers and the host of `Ep0Bus`. */
module Ep0Progress {
  import opened Isa
  import opened Engine
  import opened Bytes
  import opened Microcode
  import opened BlockSteps
  import opened Transactions
  import opened Decision
  import opened Ep0Bus
  import B = Ep0Bus
  import E = Ep0

  /** Transactions that nothing disturbs: the host's request, the device's packet acknowledged, the host's
      packet received and its acknowledgement heard. */
  function Asks(q: E.Request): Event { Setup(q, Good(PID_DATA0, 10)) }

  const TAKES := In(true, Good(PID_ACK, 0))

  function Sends(h: Host, b: seq<byte>): Event {
    Out(b, Good(if Due(h.sent) then PID_DATA1 else PID_DATA0, |b| + 2), true)
  }

  // ---- One step of each kind -----------------------------------------------------------------------

  /** A poll leaves nothing undone, and stays with the request in hand if no other has come. */
  lemma EnginePolled(e: E.Ep0, dispatch: E.Dispatch)
    requires E.Inv(e, dispatch)
    ensures var r := E.Poll(e, dispatch);
            && E.Inv(r, dispatch) && !r.cel && E.Settled(r) && Drives(e, r)
            && r.handled == |r.asked| == |e.asked| == |r.came| == |r.went|
  {
    E.PollSettles(e, dispatch);
    E.PollKeeps(e, dispatch);
    PollDrives(e, dispatch);
  }

  lemma SoundInv(y: Sys, dispatch: E.Dispatch)
    requires Sound(y, dispatch)
    ensures E.Inv(y.e, dispatch) && E.Sane(y.e) && y.r.cel == y.e.cel
  {
  }

  lemma PollStep(defs: set<string>, y: Sys, wait: (nat, nat), dispatch: E.Dispatch) returns (z: Sys)
    requires Sound(y, dispatch)
    ensures E.Sane(y.e) && z == B.Step(defs, y, Polled, wait, dispatch)
    ensures z.e == E.Poll(y.e, dispatch) && z.h == y.h && Sound(z, dispatch)
    ensures !z.e.cel && E.Settled(z.e) && Drives(y.e, z.e)
    ensures z.e.handled == |z.e.asked| == |y.e.asked| == |z.e.came| == |z.e.went|
  {
    SoundInv(y, dispatch);
    StepPolled(defs, y, wait, dispatch);
    EnginePolled(y.e, dispatch);
    hide Sound, E.Poll, E.Inv, E.Sane, E.Settled, Drives, B.Step, Traffic, Play;
    z := DriverStep(defs, y, Polled, wait, dispatch);
  }

  lemma StepPolled(defs: set<string>, y: Sys, wait: (nat, nat), dispatch: E.Dispatch)
    requires E.Sane(y.e)
    ensures var z := B.Step(defs, y, Polled, wait, dispatch); z.e == E.Poll(y.e, dispatch) && z.h == y.h
  {
    hide E.Poll, Play, Traffic;
  }

  /** What an undisturbed transaction is decided to be. */
  lemma Decides(defs: set<string>, y: Sys, ev: Event, dispatch: E.Dispatch)
    requires Sound(y, dispatch) && !y.e.cel
    ensures ev.Setup? && ev.rx == Good(PID_DATA0, 10) && y.e.setup.state == BD_RDY_DATA ==>
      Verdicts(defs, y, ev).outcome.Completed?
    ensures ev == TAKES && y.e.inn.state == BD_RDY_DATA ==>
      Verdicts(defs, y, ev).outcome.Completed? && Verdicts(defs, y, ev).response.DataPacket?
    ensures ev.Out? && ev == Sends(y.h, ev.b) && Fair(y, ev) && y.e.out.state == BD_RDY_DATA ==>
      Verdicts(defs, y, ev).response == Handshake(PID_ACK)
    ensures ev.Out? && ev == Sends(y.h, ev.b) && Fair(y, ev) && Due(y.h.sent) != Due(Latest(y.e.came)) ==>
      Verdicts(defs, y, ev).response == Handshake(PID_ACK)
  {
    Finds(defs, y, Pid(ev), dispatch);
  }

  lemma AsksStep(defs: set<string>, y: Sys, q: E.Request, wait: (nat, nat), dispatch: E.Dispatch) returns (y1: Sys)
    requires Sound(y, dispatch) && !y.e.cel && y.e.setup.state == BD_RDY_DATA
    ensures E.Sane(y.e) && y1 == B.Step(defs, y, Asks(q), wait, dispatch) && Sound(y1, dispatch)
    ensures y1.e.asked == y.e.asked + [q] && y1.e.cel && y1.h == FRESH
  {
    SoundInv(y, dispatch);
    Decides(defs, y, Asks(q), dispatch);
    hide Sound, Verdicts, Play, Traffic;
    y1 := TransactionStep(defs, y, Asks(q), wait, dispatch);
  }

  lemma TakesStep(defs: set<string>, z: Sys, wait: (nat, nat), dispatch: E.Dispatch) returns (r: Sys)
    requires Sound(z, dispatch) && !z.e.cel && z.e.inn.state == BD_RDY_DATA
    ensures E.Sane(z.e) && r == B.Step(defs, z, TAKES, wait, dispatch) && Sound(r, dispatch)
    ensures r.e == E.Happen(z.e, E.InSent, dispatch) && z.e.went != []
    ensures r.h.got == Latest(r.e.went) && |r.h.got| == |Latest(z.e.went)| + 1
  {
    SoundInv(z, dispatch);
    InReady(z.e, dispatch);
    Decides(defs, z, TAKES, dispatch);
    hide B.Step, E.Inv, Linked, Traffic, Play, Verdicts, E.Sane, Decide;
    r := TakesFields(defs, z, wait, dispatch);
    SentGot(z, r, dispatch);
  }

  lemma SentGot(z: Sys, r: Sys, dispatch: E.Dispatch)
    requires Sound(z, dispatch) && Sound(r, dispatch) && z.e.went != [] && E.Sane(z.e)
    requires z.e.inn.state == BD_RDY_DATA && r.e == E.Happen(z.e, E.InSent, dispatch)
    ensures r.h.got == Latest(r.e.went) && |r.h.got| == |Latest(z.e.went)| + 1
  {
    hide E.Inv, Linked, E.Sane;
    assert Latest(r.e.went) == Latest(z.e.went) + [E.Sending(z.e)];
  }

  lemma TakesFields(defs: set<string>, z: Sys, wait: (nat, nat), dispatch: E.Dispatch) returns (r: Sys)
    requires Sound(z, dispatch) && E.Sane(z.e)
    requires Verdicts(defs, z, TAKES).outcome.Completed? && Verdicts(defs, z, TAKES).response.DataPacket?
    ensures r == B.Step(defs, z, TAKES, wait, dispatch) && Sound(r, dispatch)
    ensures r.e == E.Happen(z.e, E.InSent, dispatch)
  {
    hide Sound, Verdicts, Play, Traffic, E.Happen;
    r := TransactionStep(defs, z, TAKES, wait, dispatch);
  }

  lemma FairTakes(y: Sys)
    ensures Fair(y, Polled) && Fair(y, TAKES)
  {
  }

  // ---- Requests ------------------------------------------------------------------------------------

  /** A request that arrives undisturbed at an endpoint that has been polled is in hand after the next poll:
      refused if and only if no handler has a buffer for it or it writes more than the buffer holds. */
  lemma SetupRound(defs: set<string>, y: Sys, q: E.Request, wait: (nat, nat), dispatch: E.Dispatch)
      returns (y1: Sys, z: Sys)
    requires Sound(y, dispatch) && !y.e.cel && y.e.setup.state == BD_RDY_DATA
    ensures E.Sane(y.e) && y1 == B.Step(defs, y, Asks(q), wait, dispatch) && Sound(y1, dispatch)
    ensures E.Sane(y1.e) && z == B.Step(defs, y1, Polled, wait, dispatch) && Sound(z, dispatch)
    ensures !z.e.cel && z.h == FRESH && E.Settled(z.e) && z.e.asked == y.e.asked + [q]
    ensures z.e.handled == |z.e.asked|
    ensures var a := dispatch(z.e.handled, q);
            InHand(z.e, dispatch) <==> a.Provide? && (q.read || q.wLength <= |a.buf|)
  {
    y1 := AsksStep(defs, y, q, wait, dispatch);
    hide Sound, B.Step, E.Sane, E.Settled, AtIdle;
    z := PollStep(defs, y1, wait, dispatch);
    assert E.Hand(z.e) == q;
  }

  /** The request in hand is still the same. */
  predicate SameHand(e: E.Ep0, r: E.Ep0) {
    r.asked == e.asked && r.handled == e.handled && !r.cel
  }

  // ---- Reads ---------------------------------------------------------------------------------------

  /** What a read asks for: its handler's data, up to the length. */
  function Wanted(e: E.Ep0, dispatch: E.Dispatch): seq<byte>
    requires InHand(e, dispatch)
  {
    E.Reply(e, dispatch).buf[..E.Due(E.Hand(e), E.Reply(e, dispatch).buf)]
  }

  /** How many packets it takes: full ones, and one for the rest. */
  function Packets(e: E.Ep0, dispatch: E.Dispatch): nat
    requires InHand(e, dispatch)
  {
    |Wanted(e, dispatch)| / E.PKT + 1
  }

  predicate Reading(y: Sys, dispatch: E.Dispatch) {
    Sound(y, dispatch) && InHand(y.e, dispatch) && E.Hand(y.e).read
  }

  lemma PollHand(defs: set<string>, y: Sys, wait: (nat, nat), dispatch: E.Dispatch) returns (z: Sys)
    requires Sound(y, dispatch) && InHand(y.e, dispatch)
    ensures E.Sane(y.e) && z == B.Step(defs, y, Polled, wait, dispatch)
    ensures z.e == E.Poll(y.e, dispatch) && z.h == y.h && Sound(z, dispatch)
    ensures InHand(z.e, dispatch) && SameHand(y.e, z.e) && E.Settled(z.e) && Drives(y.e, z.e)
  {
    hide Sound, B.Step, E.Settled, E.Sane, E.Poll;
    z := PollStep(defs, y, wait, dispatch);
  }

  /** With packets left the next one is ready after a poll. */
  lemma ReadReady(z: Sys, dispatch: E.Dispatch)
    requires Reading(z, dispatch) && E.Settled(z.e) && |Latest(z.e.went)| < Packets(z.e, dispatch)
    ensures z.e.inn.state == BD_RDY_DATA
  {
    hide Linked, Agreed;
    assert E.Gone(z.e) == Latest(z.e.went);
  }

  /** A poll and an undisturbed transaction get the next packet of a read to the host. */
  lemma ReadRound(defs: set<string>, y: Sys, wait1: (nat, nat), wait2: (nat, nat), dispatch: E.Dispatch)
      returns (z: Sys, r: Sys)
    requires Reading(y, dispatch) && |Latest(y.e.went)| < Packets(y.e, dispatch)
    ensures E.Sane(y.e) && z == B.Step(defs, y, Polled, wait1, dispatch) && Sound(z, dispatch)
    ensures E.Sane(z.e) && r == B.Step(defs, z, TAKES, wait2, dispatch) && Reading(r, dispatch)
    ensures SameHand(y.e, r.e) && r.h.got == Latest(r.e.went) && |r.h.got| == |Latest(y.e.went)| + 1
    ensures InHand(y.e, dispatch) && InHand(r.e, dispatch) && Wanted(r.e, dispatch) == Wanted(y.e, dispatch)
    ensures Packets(r.e, dispatch) == Packets(y.e, dispatch) && Sound(y, dispatch) && Sound(r, dispatch)
    ensures Fair(y, Polled) && Fair(z, TAKES)
  {
    z := PollRead(defs, y, wait1, dispatch);
    ReadReady(z, dispatch);
    FairTakes(y);
    FairTakes(z);
    hide *;
    r := TakesStep(defs, z, wait2, dispatch);
    SentRead(y.e, z, r, dispatch);
  }

  lemma PollRead(defs: set<string>, y: Sys, wait: (nat, nat), dispatch: E.Dispatch) returns (z: Sys)
    requires Reading(y, dispatch)
    ensures E.Sane(y.e) && z == B.Step(defs, y, Polled, wait, dispatch) && Sound(z, dispatch)
    ensures Reading(z, dispatch) && E.Settled(z.e) && SameHand(y.e, z.e) && z.e.went == y.e.went && !z.e.cel
    ensures InHand(y.e, dispatch) && InHand(z.e, dispatch) && Wanted(z.e, dispatch) == Wanted(y.e, dispatch)
    ensures Packets(z.e, dispatch) == Packets(y.e, dispatch)
  {
    hide Sound, B.Step, E.Settled, E.Sane, E.Poll;
    z := PollHand(defs, y, wait, dispatch);
  }

  lemma SentRead(e: E.Ep0, z: Sys, r: Sys, dispatch: E.Dispatch)
    requires Reading(z, dispatch) && Sound(r, dispatch) && E.Sane(z.e) && r.e == E.Happen(z.e, E.InSent, dispatch)
    requires SameHand(e, z.e)
    ensures Reading(r, dispatch) && SameHand(e, r.e)
    ensures InHand(z.e, dispatch) && InHand(r.e, dispatch) && Wanted(r.e, dispatch) == Wanted(z.e, dispatch)
    ensures Packets(r.e, dispatch) == Packets(z.e, dispatch)
  {
    hide Sound, E.Sane;
  }

  /** When as many packets have been acknowledged, the host has all the data. */
  lemma ReadOver(y: Sys, dispatch: E.Dispatch)
    requires Reading(y, dispatch) && |Latest(y.e.went)| >= Packets(y.e, dispatch)
    ensures Flat(y.h.got) == Wanted(y.e, dispatch)
  {
    hide Linked;
    assert E.Gone(y.e) == Latest(y.e.went);
    assert !y.e.ctrl.DataIn?;
    assert y.h.got == E.Queued(y.e);
  }

  // ---- Whole reads -----------------------------------------------------------------------------------

  function ReadRounds(n: nat): seq<Event> {
    if n == 0 then [] else [Polled, TAKES] + ReadRounds(n - 1)
  }

  /** Two events that take place take place in a run. */
  lemma AfterTwo(w: World, y: Sys, a: Event, b: Event, rest: seq<Event>, z: Sys, r: Sys)
    requires Sound(y, w.dispatch) && E.Sane(y.e) && Fair(y, a)
    requires z == B.Step(w.defs, y, a, w.waits(|rest| + 2), w.dispatch) && Sound(z, w.dispatch) && Fair(z, b)
    requires E.Sane(z.e) && r == B.Step(w.defs, z, b, w.waits(|rest| + 1), w.dispatch)
    requires Sound(r, w.dispatch) && AllFair(w, r, rest)
    ensures AllFair(w, y, [a, b] + rest) && After(w, y, [a, b] + rest) == After(w, r, rest)
  {
    hide Sound, B.Step, E.Sane, Fair;
    var evs := [a, b] + rest;
    assert evs[1..] == [b] + rest && evs[1..][1..] == rest;
    AfterOne(w, z, b, rest, r);
    AfterOne(w, y, a, [b] + rest, z);
    assert [a] + ([b] + rest) == evs;
  }

  lemma AfterOne(w: World, y: Sys, a: Event, rest: seq<Event>, z: Sys)
    requires Sound(y, w.dispatch) && E.Sane(y.e) && Fair(y, a)
    requires z == B.Step(w.defs, y, a, w.waits(|rest| + 1), w.dispatch)
    requires Sound(z, w.dispatch) && AllFair(w, z, rest)
    ensures AllFair(w, y, [a] + rest) && After(w, y, [a] + rest) == After(w, z, rest)
  {
    hide Sound, B.Step, E.Sane, Fair;
    assert ([a] + rest)[1..] == rest;
  }

  /** From any point of any run at which a read is in hand, as many rounds as it has packets left give the
      host all the handler's data, up to the length asked for. */
  lemma {:induction false} ReadFinishes(w: World, y: Sys, n: nat)
    requires Reading(y, w.dispatch) && InHand(y.e, w.dispatch) && |Latest(y.e.went)| + n >= Packets(y.e, w.dispatch)
    requires n == 0 || |Latest(y.e.went)| + n == Packets(y.e, w.dispatch)
    ensures Sound(y, w.dispatch) && AllFair(w, y, ReadRounds(n))
    ensures var r := After(w, y, ReadRounds(n));
            Reading(r, w.dispatch) && SameHand(y.e, r.e) && Flat(r.h.got) == Wanted(y.e, w.dispatch)
    decreases n
  {
    hide *;
    if n == 0 {
      ReadNone(w, y);
    } else {
      var z, r := ReadRound(w.defs, y, w.waits(2 * n), w.waits(2 * n - 1), w.dispatch);
      RoundsLength(n - 1);
      ReadFinishes(w, r, n - 1);
      AfterTwo(w, y, Polled, TAKES, ReadRounds(n - 1), z, r);
      SameTrans(y.e, r.e, After(w, r, ReadRounds(n - 1)).e);
    }
  }

  lemma SameTrans(a: E.Ep0, b: E.Ep0, c: E.Ep0)
    requires SameHand(a, b) && SameHand(b, c)
    ensures SameHand(a, c)
  {
  }

  lemma ReadNone(w: World, y: Sys)
    requires Reading(y, w.dispatch) && InHand(y.e, w.dispatch) && |Latest(y.e.went)| >= Packets(y.e, w.dispatch)
    ensures Sound(y, w.dispatch) && AllFair(w, y, ReadRounds(0)) && After(w, y, ReadRounds(0)) == y
    ensures SameHand(y.e, y.e) && Flat(y.h.got) == Wanted(y.e, w.dispatch)
  {
    ReadOver(y, w.dispatch);
    hide Sound;
  }

  lemma {:induction false} RoundsLength(n: nat)
    ensures |ReadRounds(n)| == 2 * n && ReadRounds(n + 1) == [Polled, TAKES] + ReadRounds(n)
  {
    if n > 0 {
      RoundsLength(n - 1);
    }
  }

  // ---- Writes --------------------------------------------------------------------------------------

  /** A write is in hand that has not come to the end of its status stage, and the host's last SETUP was
      accepted. */
  predicate Writing(y: Sys, dispatch: E.Dispatch) {
    && Sound(y, dispatch) && InHand(y.e, dispatch) && !E.Hand(y.e).read && !y.h.failed
    && StillWrites(y.e) && Latest(y.e.went) == []
  }

  predicate StillWrites(e: E.Ep0) {
    e.ctrl.DataOut? || (e.ctrl.StatusDoneIn? && e.inn.state == BD_RDY_DATA)
  }

  lemma {:induction false} PollWrites(e: E.Ep0, dispatch: E.Dispatch)
    requires E.Inv(e, dispatch) && !e.cel && StillWrites(e)
    ensures StillWrites(E.Poll(e, dispatch))
    decreases E.Measure(e)
  {
    E.TurnDecreases(e, dispatch);
    E.TurnKeeps(e, dispatch);
    TurnDrives(e, dispatch);
    var (e1, turn) := E.TurnOnce(e, dispatch);
    assert StillWrites(e1);
    if turn.Again? {
      PollWrites(e1, dispatch);
    }
  }

  lemma PollWrite(defs: set<string>, y: Sys, wait: (nat, nat), dispatch: E.Dispatch) returns (z: Sys)
    requires Writing(y, dispatch)
    ensures E.Sane(y.e) && z == B.Step(defs, y, Polled, wait, dispatch) && z.h == y.h
    ensures Writing(z, dispatch) && E.Settled(z.e) && SameHand(y.e, z.e) && z.e.came == y.e.came && !z.e.cel
    ensures InHand(y.e, dispatch) && InHand(z.e, dispatch) && E.Hand(z.e) == E.Hand(y.e)
    ensures Sound(y, dispatch) && Sound(z, dispatch)
  {
    SoundInv(y, dispatch);
    PollWrites(y.e, dispatch);
    hide Sound, B.Step, E.Settled, E.Sane, E.Poll, E.Inv, StillWrites;
    z := PollHand(defs, y, wait, dispatch);
  }

  /** The host's next packet is one that it has not seen acknowledged, and belongs to the data announced. */
  predicate Next(y: Sys, b: seq<byte>)
    requires 0 < y.e.handled <= |y.e.asked|
  {
    && 0 < |b| <= E.PKT && (y.h.trying.Some? ==> b == y.h.trying.value)
    && |Flat(y.h.sent)| + |b| <= E.Hand(y.e).wLength
  }

  /** After a poll, the device can take the packet, or has it already. */
  lemma WriteReady(z: Sys, b: seq<byte>, dispatch: E.Dispatch)
    requires Writing(z, dispatch) && E.Settled(z.e) && Next(z, b)
    ensures z.e.out.state == BD_RDY_DATA || Due(z.h.sent) != Due(Latest(z.e.came))
    ensures Fair(z, Sends(z.h, b))
  {
    hide Linked;
    var c := Latest(z.e.came);
    assert c == E.Come(z.e);
    if c == z.h.sent {
      assert c == E.Taken(z.e);
      assert z.e.ctrl.DataOut?;
    }
  }

  lemma SendsStep(defs: set<string>, z: Sys, b: seq<byte>, wait: (nat, nat), dispatch: E.Dispatch) returns (r: Sys)
    requires Writing(z, dispatch) && !z.e.cel && E.Settled(z.e) && Next(z, b)
    ensures E.Sane(z.e) && Fair(z, Sends(z.h, b)) && r == B.Step(defs, z, Sends(z.h, b), wait, dispatch)
    ensures Sound(r, dispatch) && r.h == z.h.(sent := z.h.sent + [b], trying := None)
    ensures r.e == z.e || r.e == E.Happen(z.e, E.OutCame(b), dispatch)
  {
    SoundInv(z, dispatch);
    WriteReady(z, b, dispatch);
    Decides(defs, z, Sends(z.h, b), dispatch);
    OutVerdict(defs, z, Sends(z.h, b), dispatch);
    r := SendsFields(defs, z, b, wait, dispatch);
  }

  lemma SendsFields(defs: set<string>, z: Sys, b: seq<byte>, wait: (nat, nat), dispatch: E.Dispatch) returns (r: Sys)
    requires Sound(z, dispatch) && E.Sane(z.e) && Fair(z, Sends(z.h, b))
    requires OutFits(z.e, z.h, Sends(z.h, b), Verdicts(defs, z, Sends(z.h, b)))
    requires Verdicts(defs, z, Sends(z.h, b)).response == Handshake(PID_ACK)
    ensures r == B.Step(defs, z, Sends(z.h, b), wait, dispatch)
    ensures Sound(r, dispatch) && r.h == z.h.(sent := z.h.sent + [b], trying := None)
    ensures r.e == z.e || r.e == E.Happen(z.e, E.OutCame(b), dispatch)
  {
    hide Sound, Verdicts, Play, Traffic, E.Happen;
    r := TransactionStep(defs, z, Sends(z.h, b), wait, dispatch);
  }

  lemma SentWrite(e: E.Ep0, z: Sys, b: seq<byte>, r: Sys, dispatch: E.Dispatch)
    requires Writing(z, dispatch) && Sound(r, dispatch) && E.Sane(z.e) && SameHand(e, z.e)
    requires r.e == z.e || r.e == E.Happen(z.e, E.OutCame(b), dispatch)
    requires r.h == z.h.(sent := z.h.sent + [b], trying := None)
    ensures Writing(r, dispatch) && SameHand(e, r.e)
  {
    hide Sound, E.Sane;
  }

  /** A poll and an undisturbed transaction get the host's next packet through, and acknowledged. */
  lemma WriteRound(defs: set<string>, y: Sys, b: seq<byte>, wait1: (nat, nat), wait2: (nat, nat), dispatch: E.Dispatch)
      returns (z: Sys, r: Sys)
    requires Writing(y, dispatch) && 0 < y.e.handled <= |y.e.asked| && Next(y, b)
    ensures Sound(y, dispatch) && E.Sane(y.e) && Fair(y, Polled)
    ensures z == B.Step(defs, y, Polled, wait1, dispatch) && Sound(z, dispatch) && z.h == y.h
    ensures E.Sane(z.e) && Fair(z, Sends(z.h, b)) && r == B.Step(defs, z, Sends(z.h, b), wait2, dispatch)
    ensures Writing(r, dispatch) && Sound(r, dispatch) && SameHand(y.e, r.e)
    ensures r.h == y.h.(sent := y.h.sent + [b], trying := None)
  {
    z := PollWrite(defs, y, wait1, dispatch);
    FairTakes(y);
    assert Next(z, b);
    hide *;
    r := SendsStep(defs, z, b, wait2, dispatch);
    SentWrite(y.e, z, b, r, dispatch);
  }

  /** The status stage: with all of the data acknowledged, a poll and an undisturbed transaction give the
      host the status packet, and then the handler's buffer has the data. */
  lemma StatusRound(defs: set<string>, y: Sys, wait1: (nat, nat), wait2: (nat, nat), dispatch: E.Dispatch)
      returns (z: Sys, r: Sys)
    requires Writing(y, dispatch) && 0 < y.e.handled <= |y.e.asked|
    requires y.h.trying.None? && |Flat(y.h.sent)| == E.Hand(y.e).wLength
    ensures Sound(y, dispatch) && E.Sane(y.e) && Fair(y, Polled)
    ensures z == B.Step(defs, y, Polled, wait1, dispatch) && Sound(z, dispatch) && Fair(z, TAKES)
    ensures E.Sane(z.e) && r == B.Step(defs, z, TAKES, wait2, dispatch) && Sound(r, dispatch)
    ensures InHand(y.e, dispatch) && SameHand(y.e, r.e) && Stored(y, [], r, dispatch)
  {
    hide *;
    z := PollWrite(defs, y, wait1, dispatch);
    FairTakes(y);
    FairTakes(z);
    StatusReady(z, dispatch);
    r := TakesStep(defs, z, wait2, dispatch);
    StatusTaken(y, z, r, dispatch);
  }

  /** In `r` the host has the status packet, and the handler's buffer for the request in hand has at its
      beginning the host's data, what it had sent in `y` and then `ps`, and is otherwise untouched. */
  predicate Stored(y: Sys, ps: seq<seq<byte>>, r: Sys, dispatch: E.Dispatch)
    requires InHand(y.e, dispatch)
  {
    var buf, n := E.Reply(y.e, dispatch).buf, E.Hand(y.e).wLength;
    n <= |buf| && r.h.got != [] && r.e.x.data == Flat(y.h.sent + ps) + buf[n..]
  }

  lemma StatusReady(z: Sys, dispatch: E.Dispatch)
    requires Writing(z, dispatch) && !z.e.cel && E.Settled(z.e)
    requires z.h.trying.None? && |Flat(z.h.sent)| == E.Hand(z.e).wLength
    ensures z.e.ctrl.StatusDoneIn? && z.e.inn.state == BD_RDY_DATA && E.Come(z.e) == z.h.sent
  {
    hide Linked;
    assert E.Come(z.e) == Latest(z.e.came);
    assert E.Taken(z.e) == E.Come(z.e);
  }

  lemma StatusTaken(y: Sys, z: Sys, r: Sys, dispatch: E.Dispatch)
    requires Writing(y, dispatch) && Writing(z, dispatch) && z.e.ctrl.StatusDoneIn? && E.Come(z.e) == y.h.sent
    requires SameHand(y.e, z.e) && E.Sane(z.e) && r.e == E.Happen(z.e, E.InSent, dispatch) && |r.h.got| > 0
    ensures SameHand(y.e, r.e) && Stored(y, [], r, dispatch)
  {
    hide Linked, Agreed;
    assert y.h.sent + [] == y.h.sent;
    assert E.WriteDone(z.e, dispatch);
    assert z.e.x.data == z.e.x.data[..z.e.x.len] + z.e.x.data[z.e.x.len..];
  }

  // ---- Whole writes --------------------------------------------------------------------------------

  /** Every packet of the host in a round of its own, and one more round for the status stage. */
  function WriteRounds(h: Host, ps: seq<seq<byte>>): seq<Event>
    decreases |ps|
  {
    if ps == [] then [Polled, TAKES]
    else [Polled, Sends(h, ps[0])] + WriteRounds(h.(sent := h.sent + [ps[0]], trying := None), ps[1..])
  }

  /** The rest of a write's packets: the one the host is at comes first, none is empty, and together with
      those acknowledged they are as long as announced. */
  predicate Remaining(y: Sys, ps: seq<seq<byte>>)
    requires 0 < y.e.handled <= |y.e.asked|
  {
    && (forall k :: 0 <= k < |ps| ==> 0 < |ps[k]| <= E.PKT)
    && (y.h.trying.Some? ==> ps != [] && ps[0] == y.h.trying.value)
    && |Flat(y.h.sent + ps)| == E.Hand(y.e).wLength
  }

  /** From any point of any run at which a write is in hand, as many rounds as the host has packets left,
      and one for the status stage, put all of the host's data in the handler's buffer. */
  lemma {:induction false} WriteFinishes(w: World, y: Sys, ps: seq<seq<byte>>)
    requires Writing(y, w.dispatch) && InHand(y.e, w.dispatch) && Remaining(y, ps)
    ensures Sound(y, w.dispatch) && AllFair(w, y, WriteRounds(y.h, ps))
    ensures var r := After(w, y, WriteRounds(y.h, ps));
            SameHand(y.e, r.e) && Stored(y, ps, r, w.dispatch)
    decreases |ps|
  {
    hide *;
    if ps == [] {
      StatusLast(w, y);
    } else {
      HandThere(y.e, w.dispatch);
      NextRemains(y, ps);
      var z, r := WriteRound(w.defs, y, ps[0], w.waits(2 * |ps| + 2), w.waits(2 * |ps| + 1), w.dispatch);
      HandRemains(y, ps, r, w.dispatch);
      WritesLength(r.h, ps[1..]);
      WritesNext(y.h, ps);
      WriteFinishes(w, r, ps[1..]);
      AfterTwo(w, y, Polled, Sends(y.h, ps[0]), WriteRounds(r.h, ps[1..]), z, r);
      StoredBefore(y, ps, r, After(w, r, WriteRounds(r.h, ps[1..])), w.dispatch);
      SameTrans(y.e, r.e, After(w, r, WriteRounds(r.h, ps[1..])).e);
    }
  }

  lemma {:induction false} WritesLength(h: Host, ps: seq<seq<byte>>)
    ensures |WriteRounds(h, ps)| == 2 * |ps| + 2
    decreases |ps|
  {
    if ps != [] {
      WritesLength(h.(sent := h.sent + [ps[0]], trying := None), ps[1..]);
    }
  }

  lemma WritesNext(h: Host, ps: seq<seq<byte>>)
    requires ps != []
    ensures WriteRounds(h, ps)
         == [Polled, Sends(h, ps[0])] + WriteRounds(h.(sent := h.sent + [ps[0]], trying := None), ps[1..])
  {
  }

  lemma HandThere(e: E.Ep0, dispatch: E.Dispatch)
    requires InHand(e, dispatch)
    ensures 0 < e.handled <= |e.asked|
  {
  }

  lemma StoredBefore(y: Sys, ps: seq<seq<byte>>, r: Sys, r1: Sys, dispatch: E.Dispatch)
    requires InHand(y.e, dispatch) && InHand(r.e, dispatch) && ps != [] && Stored(r, ps[1..], r1, dispatch)
    requires E.Hand(r.e) == E.Hand(y.e) && E.Reply(r.e, dispatch) == E.Reply(y.e, dispatch)
    requires r.h.sent + ps[1..] == y.h.sent + ps
    ensures Stored(y, ps, r1, dispatch)
  {
  }

  lemma NextRemains(y: Sys, ps: seq<seq<byte>>)
    requires 0 < y.e.handled <= |y.e.asked| && Remaining(y, ps) && ps != []
    ensures Next(y, ps[0])
  {
    FlatAppend(y.h.sent, ps);
    assert Flat(ps) == ps[0] + Flat(ps[1..]);
  }

  lemma HandRemains(y: Sys, ps: seq<seq<byte>>, r: Sys, dispatch: E.Dispatch)
    requires InHand(y.e, dispatch) && Remaining(y, ps) && ps != [] && SameHand(y.e, r.e)
    requires r.h == y.h.(sent := y.h.sent + [ps[0]], trying := None)
    ensures InHand(r.e, dispatch) && 0 < r.e.handled <= |r.e.asked| && Remaining(r, ps[1..])
    ensures r.h.sent + ps[1..] == y.h.sent + ps
    ensures E.Hand(r.e) == E.Hand(y.e) && E.Reply(r.e, dispatch) == E.Reply(y.e, dispatch)
  {
    assert ps == [ps[0]] + ps[1..];
    assert r.h.sent + ps[1..] == y.h.sent + ps;
    assert forall k :: 0 <= k < |ps[1..]| ==> ps[1..][k] == ps[k + 1];
  }

  lemma StatusLast(w: World, y: Sys)
    requires Writing(y, w.dispatch) && InHand(y.e, w.dispatch) && Remaining(y, [])
    ensures Sound(y, w.dispatch) && AllFair(w, y, WriteRounds(y.h, []))
    ensures var r := After(w, y, WriteRounds(y.h, []));
            SameHand(y.e, r.e) && Stored(y, [], r, w.dispatch)
  {
    hide *;
    HandThere(y.e, w.dispatch);
    NoneRemains(y);
    var z, r := StatusRound(w.defs, y, w.waits(2), w.waits(1), w.dispatch);
    Nothing(w, r);
    AfterTwo(w, y, Polled, TAKES, [], z, r);
  }

  lemma NoneRemains(y: Sys)
    requires 0 < y.e.handled <= |y.e.asked| && Remaining(y, [])
    ensures y.h.trying.None? && |Flat(y.h.sent)| == E.Hand(y.e).wLength
    ensures WriteRounds(y.h, []) == [Polled, TAKES] + []
  {
    assert y.h.sent + [] == y.h.sent;
  }

  lemma Nothing(w: World, r: Sys)
    requires Sound(r, w.dispatch)
    ensures AllFair(w, r, []) && After(w, r, []) == r
  {
  }
}
