/** The systems of `InPath` and `OutPath` on the assembled ROM: every run of theirs is bus traffic and
    register writes for the transaction engine, and the engine's status memory, over the whole run, is
    what those systems say. */
module EndToEnd {
  import opened Isa
  import opened Engine
  import opened Bytes
  import opened Microcode
  import opened BlockSteps
  import opened Transactions
  import opened Decision
  import A = Assembler
  import I = InPath
  import O = OutPath

  function Cat(a: Inputs, b: Inputs): Inputs {
    if a.NoMore? then b else More(a.head, Cat(a.tail, b))
  }

  lemma {:induction false} PlayCat(defs: set<string>, p: Phase, r: Regs, a: Inputs, b: Inputs)
    ensures var q := Play(defs, p, r, a); Play(defs, p, r, Cat(a, b)) == Play(defs, q.0, q.1, b)
    decreases a
  {
    if a.More? {
      var q := Next(defs, p, Arrive(r, a.head));
      PlayCat(defs, q.0, q.1, a.tail, b);
    }
  }

  lemma PlayGlue(defs: set<string>, r: Regs, a: Inputs, r1: Regs, b: Inputs, r2: Regs)
    requires Play(defs, Idle, r, a) == (Idle, r1) && Play(defs, Idle, r1, b) == (Idle, r2)
    ensures Play(defs, Idle, r, Cat(a, b)) == (Idle, r2)
  {
    PlayCat(defs, Idle, r, a, b);
  }

  /** The bus around a transaction: what it carries before it for other devices, and how long it is silent
      in it, before and after the device's packet. */
  datatype Around = Around(before: Inputs, wait: (nat, nat))

  type Bus = nat -> Around

  ghost predicate Others(bus: Bus) {
    forall n :: Elsewhere(bus(n).before)
  }

  /** What comes before a transaction changes nothing. */
  lemma BeforePlays(defs: set<string>, r: Regs, bus: Bus, n: nat) returns (r1: Regs)
    requires AtIdle(r) && Others(bus)
    ensures Play(defs, Idle, r, bus(n).before) == (Idle, r1)
    ensures AtIdle(r1) && r1.ram == r.ram && r1.outs == r.outs
  {
    r1 := ElsewhereIgnored(defs, r, bus(n).before);
  }

  /** The engine between transactions, with an endpoint's registers as they should be. */
  predicate Ready(r: Regs, id: EpId, e: EpStatus) {
    AtIdle(r) && Fetch(r.ram, id) == e
  }

  /** The driver's writes to both descriptors, and to the status word. */
  function Writes(id: EpId, e: EpStatus): Inputs {
    More(Post(id, false, e.bd0), More(Post(id, true, e.bd1), More(Configure(id, e), NoMore)))
  }

  lemma IdleWrite(defs: set<string>, r: Regs, i: Input) returns (r1: Regs)
    requires AtIdle(r) && (i.Post? || i.Configure?)
    ensures Next(defs, Idle, Arrive(r, i)) == (Idle, r1) && AtIdle(r1) && r1.outs == r.outs
    ensures r1.ram == Arrive(r, i).ram
  {
    r1 := Next(defs, Idle, Arrive(r, i)).1;
  }

  lemma WritesPlay(defs: set<string>, r: Regs, id: EpId, e: EpStatus) returns (r1: Regs)
    requires AtIdle(r)
    ensures Play(defs, Idle, r, Writes(id, e)) == (Idle, r1) && Ready(r1, id, e) && r1.outs == r.outs
  {
    var last := More(Configure(id, e), NoMore);
    var a := IdleWrite(defs, r, Post(id, false, e.bd0));
    var b := IdleWrite(defs, a, Post(id, true, e.bd1));
    r1 := IdleWrite(defs, b, Configure(id, e));
    assert Play(defs, Idle, b, last) == Play(defs, Idle, r1, NoMore);
    assert Play(defs, Idle, a, More(Post(id, true, e.bd1), last)) == Play(defs, Idle, b, last);
  }

  // ---- IN ------------------------------------------------------------------------------------

  /** What an event of the IN system is to the engine: a transaction on the bus, or writes of the
      driver. */
  function InTraffic(defs: set<string>, endp: nat, y: I.Sys, ev: I.Event, wait: (nat, nat)): Inputs
    requires I.Sound(y) && I.Possible(y, ev)
  {
    if ev.Token? then
      if ev.seen then Script(PID_IN, endp, LookAt(defs, y.s.e, false, PID_IN), ev.rx, wait.0, wait.1) else NoMore
    else Writes(EpId(endp, true), I.Happen(defs, y, ev).s.e)
  }

  /** And what the engine shows of it. */
  function InShows(defs: set<string>, endp: nat, y: I.Sys, ev: I.Event): seq<Out> {
    if ev.Token? && ev.seen
    then Shows(DecideIn(LookAt(defs, y.s.e, false, PID_IN), ev.rx), EpId(endp, true), false, y.s.e.Current(false))
    else []
  }

  /** While the device waits for the host's handshake no token comes. */
  predicate Handshakes(ev: I.Event) {
    ev.Token? && ev.rx.Good? ==> !IsToken(ev.rx.pid)
  }

  lemma InStep(defs: set<string>, endp: nat, y: I.Sys, ev: I.Event, wait: (nat, nat), r: Regs) returns (r1: Regs)
    requires I.Sound(y) && I.Possible(y, ev) && Handshakes(ev) && Ready(r, EpId(endp, true), y.s.e)
    ensures Play(defs, Idle, r, InTraffic(defs, endp, y, ev, wait)) == (Idle, r1)
    ensures Ready(r1, EpId(endp, true), I.Happen(defs, y, ev).s.e)
    ensures r1.outs == r.outs + InShows(defs, endp, y, ev)
  {
    if !ev.Token? {
      r1 := WritesPlay(defs, r, EpId(endp, true), I.Happen(defs, y, ev).s.e);
    } else if ev.seen {
      I.NoStall(y);
      var v;
      r1, v := I.HardwareAgrees(defs, r, endp, y, ev.data, ev.rx, wait.0, wait.1);
    } else {
      r1 := r;
    }
  }

  lemma InEvent(defs: set<string>, endp: nat, y: I.Sys, ev: I.Event, bus: Bus, n: nat, r: Regs) returns (r1: Regs)
    requires I.Sound(y) && I.Possible(y, ev) && Handshakes(ev) && Others(bus) && Ready(r, EpId(endp, true), y.s.e)
    ensures Play(defs, Idle, r, Cat(bus(n).before, InTraffic(defs, endp, y, ev, bus(n).wait))) == (Idle, r1)
    ensures Ready(r1, EpId(endp, true), I.Happen(defs, y, ev).s.e)
    ensures r1.outs == r.outs + InShows(defs, endp, y, ev)
  {
    var a := BeforePlays(defs, r, bus, n);
    hide Play, I.Happen, InShows, InTraffic, I.Sound;
    r1 := InStep(defs, endp, y, ev, bus(n).wait, a);
    PlayGlue(defs, r, bus(n).before, a, InTraffic(defs, endp, y, ev, bus(n).wait), r1);
  }

  function InRun(defs: set<string>, endp: nat, y: I.Sys, evs: seq<I.Event>, bus: Bus): Inputs
    requires I.Sound(y) && I.AllPossible(defs, y, evs)
    decreases |evs|
  {
    if evs == [] then NoMore else
      I.EventSound(defs, y, evs[0]);
      Cat(Cat(bus(|evs|).before, InTraffic(defs, endp, y, evs[0], bus(|evs|).wait)),
          InRun(defs, endp, I.Happen(defs, y, evs[0]), evs[1..], bus))
  }

  function InShown(defs: set<string>, endp: nat, y: I.Sys, evs: seq<I.Event>): seq<Out>
    requires I.Sound(y) && I.AllPossible(defs, y, evs)
    decreases |evs|
  {
    if evs == [] then [] else
      I.EventSound(defs, y, evs[0]);
      InShows(defs, endp, y, evs[0]) + InShown(defs, endp, I.Happen(defs, y, evs[0]), evs[1..])
  }

  lemma InRunCons(defs: set<string>, endp: nat, y: I.Sys, evs: seq<I.Event>, bus: Bus)
      returns (y1: I.Sys, rest: seq<I.Event>)
    requires I.Sound(y) && I.AllPossible(defs, y, evs) && evs != []
    ensures y1 == I.Happen(defs, y, evs[0]) && rest == evs[1..] && I.Sound(y1) && I.AllPossible(defs, y1, rest)
    ensures I.Possible(y, evs[0]) && I.Run(defs, y, evs) == I.Run(defs, y1, rest)
    ensures InRun(defs, endp, y, evs, bus)
         == Cat(Cat(bus(|evs|).before, InTraffic(defs, endp, y, evs[0], bus(|evs|).wait)),
                InRun(defs, endp, y1, rest, bus))
    ensures InShown(defs, endp, y, evs) == InShows(defs, endp, y, evs[0]) + InShown(defs, endp, y1, rest)
  {
    I.EventSound(defs, y, evs[0]);
    y1, rest := I.Happen(defs, y, evs[0]), evs[1..];
  }

  lemma InNothing(defs: set<string>, endp: nat, y: I.Sys, bus: Bus, r: Regs)
    requires I.Sound(y)
    ensures I.AllPossible(defs, y, []) && I.Run(defs, y, []) == y
    ensures Play(defs, Idle, r, InRun(defs, endp, y, [], bus)) == (Idle, r)
    ensures InShown(defs, endp, y, []) == []
  {
  }

  /** Over a whole run, the engine's registers for the endpoint and what it has sent are the system's. */
  lemma {:induction false} InPlayed(defs: set<string>, endp: nat, y: I.Sys, evs: seq<I.Event>, bus: Bus, r: Regs)
    returns (r1: Regs)
    requires I.Sound(y) && I.AllPossible(defs, y, evs) && Ready(r, EpId(endp, true), y.s.e)
    requires Others(bus) && forall k :: 0 <= k < |evs| ==> Handshakes(evs[k])
    ensures Play(defs, Idle, r, InRun(defs, endp, y, evs, bus)) == (Idle, r1)
    ensures Ready(r1, EpId(endp, true), I.Run(defs, y, evs).s.e)
    ensures r1.outs == r.outs + InShown(defs, endp, y, evs)
    decreases |evs|
  {
    hide *;
    if evs == [] {
      InNothing(defs, endp, y, bus, r);
      r1 := r;
    } else {
      var y1, rest := InRunCons(defs, endp, y, evs, bus);
      var a := InEvent(defs, endp, y, evs[0], bus, |evs|, r);
      r1 := InPlayed(defs, endp, y1, rest, bus, a);
      PlayGlue(defs, r, Cat(bus(|evs|).before, InTraffic(defs, endp, y, evs[0], bus(|evs|).wait)), a,
        InRun(defs, endp, y1, rest, bus), r1);
    }
  }

  /** End to end, IN: for every run of driver, bus and host, other devices on the bus in between, the
      assembled ROM, from reset, takes the
      run's traffic, ends with the system's registers and has sent the system's packets; and what the
      host then has are the first packets and bytes of the transfers, all of them if nothing is left. */
  lemma RomDelivers(defs: set<string>, endp: nat, y: I.Sys, evs: seq<I.Event>, bus: Bus, r: Regs, a: Nib)
    returns (img: A.Image<Lab>, k: nat)
    requires I.Opened(y) && I.Sound(y) && I.AllPossible(defs, y, evs) && Ready(r, EpId(endp, true), y.s.e)
    requires Others(bus) && forall i :: 0 <= i < |evs| ==> Handshakes(evs[i])
    ensures A.Assembled(A.Flatten(Listing(Seg)), defs) == Some(img)
    ensures var ins := InRun(defs, endp, y, evs, bus);
            var c := A.FlatRun(img.words, TheMachine(), A.Flat(0, Cpu(a, r, ins)), k).s;
            && c.ins == NoMore && Fetch(c.r.ram, EpId(endp, true)) == I.Run(defs, y, evs).s.e
            && c.r.outs == r.outs + InShown(defs, endp, y, evs)
    ensures I.Delivered(I.Run(defs, y, evs))
  {
    var ins := InRun(defs, endp, y, evs, bus);
    img, k := RomFollowsProtocol(defs, r, ins, a);
    var r1 := InPlayed(defs, endp, y, evs, bus, r);
    I.OpenedInv(y);
    I.RunKeeps(defs, y, evs);
    I.InvDelivers(I.Run(defs, y, evs));
  }

  // ---- OUT -----------------------------------------------------------------------------------

  function OutTraffic(defs: set<string>, endp: nat, y: O.Sys, ev: O.Event, wait: (nat, nat)): Inputs
    requires O.Shaped(y) && O.Possible(y, ev)
  {
    if ev.Token? then
      if ev.seen
      then Script(PID_OUT, endp, LookAt(defs, y.s.e, false, PID_OUT), O.Received(y, ev.fate), wait.0, wait.1)
      else NoMore
    else Writes(EpId(endp, false), O.Happen(defs, y, ev).s.e)
  }

  function OutShows(defs: set<string>, endp: nat, y: O.Sys, ev: O.Event): seq<Out>
    requires O.Possible(y, ev)
  {
    if ev.Token? && ev.seen then Shows(O.Verdicts(defs, y, ev.fate), EpId(endp, false), false, y.s.e.Current(false))
    else []
  }

  lemma OutStep(defs: set<string>, endp: nat, y: O.Sys, ev: O.Event, wait: (nat, nat), r: Regs) returns (r1: Regs)
    requires O.Sound(y) && O.Possible(y, ev) && Ready(r, EpId(endp, false), y.s.e)
    ensures Play(defs, Idle, r, OutTraffic(defs, endp, y, ev, wait)) == (Idle, r1)
    ensures Ready(r1, EpId(endp, false), O.Happen(defs, y, ev).s.e)
    ensures r1.outs == r.outs + OutShows(defs, endp, y, ev)
  {
    if !ev.Token? {
      r1 := WritesPlay(defs, r, EpId(endp, false), O.Happen(defs, y, ev).s.e);
    } else if ev.seen {
      var v;
      r1, v := O.HardwareAgrees(defs, r, endp, y, ev.fate, ev.ackSeen, wait.0, wait.1);
    } else {
      r1 := r;
    }
  }

  lemma OutEvent(defs: set<string>, endp: nat, y: O.Sys, ev: O.Event, bus: Bus, n: nat, r: Regs) returns (r1: Regs)
    requires O.Sound(y) && O.Possible(y, ev) && Others(bus) && Ready(r, EpId(endp, false), y.s.e)
    ensures Play(defs, Idle, r, Cat(bus(n).before, OutTraffic(defs, endp, y, ev, bus(n).wait))) == (Idle, r1)
    ensures Ready(r1, EpId(endp, false), O.Happen(defs, y, ev).s.e)
    ensures r1.outs == r.outs + OutShows(defs, endp, y, ev)
  {
    var a := BeforePlays(defs, r, bus, n);
    hide Play, O.Happen, OutShows, OutTraffic, O.Sound;
    r1 := OutStep(defs, endp, y, ev, bus(n).wait, a);
    PlayGlue(defs, r, bus(n).before, a, OutTraffic(defs, endp, y, ev, bus(n).wait), r1);
  }

  function OutRun(defs: set<string>, endp: nat, y: O.Sys, evs: seq<O.Event>, bus: Bus): Inputs
    requires O.Shaped(y) && O.AllPossible(defs, y, evs)
    decreases |evs|
  {
    if evs == [] then NoMore else
      O.HappenShape(defs, y, evs[0]);
      Cat(Cat(bus(|evs|).before, OutTraffic(defs, endp, y, evs[0], bus(|evs|).wait)),
          OutRun(defs, endp, O.Happen(defs, y, evs[0]), evs[1..], bus))
  }

  function OutShown(defs: set<string>, endp: nat, y: O.Sys, evs: seq<O.Event>): seq<Out>
    requires O.Shaped(y) && O.AllPossible(defs, y, evs)
    decreases |evs|
  {
    if evs == [] then [] else
      O.HappenShape(defs, y, evs[0]);
      OutShows(defs, endp, y, evs[0]) + OutShown(defs, endp, O.Happen(defs, y, evs[0]), evs[1..])
  }

  lemma OutRunCons(defs: set<string>, endp: nat, y: O.Sys, evs: seq<O.Event>, bus: Bus)
    returns (y1: O.Sys, rest: seq<O.Event>)
    requires O.Sound(y) && O.AllPossible(defs, y, evs) && O.NoHit(defs, y, evs) && evs != []
    ensures y1 == O.Happen(defs, y, evs[0]) && rest == evs[1..] && O.Sound(y1) && O.AllPossible(defs, y1, rest)
    ensures O.Shaped(y) && O.Shaped(y1)
    ensures O.Possible(y, evs[0]) && O.NoHit(defs, y1, rest) && O.Run(defs, y, evs) == O.Run(defs, y1, rest)
    ensures OutRun(defs, endp, y, evs, bus)
         == Cat(Cat(bus(|evs|).before, OutTraffic(defs, endp, y, evs[0], bus(|evs|).wait)),
                OutRun(defs, endp, y1, rest, bus))
    ensures OutShown(defs, endp, y, evs) == OutShows(defs, endp, y, evs[0]) + OutShown(defs, endp, y1, rest)
  {
    O.HappenShape(defs, y, evs[0]);
    O.EventSound(defs, y, evs[0]);
    y1, rest := O.Happen(defs, y, evs[0]), evs[1..];
  }

  lemma OutNothing(defs: set<string>, endp: nat, y: O.Sys, bus: Bus, r: Regs)
    requires O.Sound(y)
    ensures O.AllPossible(defs, y, []) && O.Run(defs, y, []) == y
    ensures Play(defs, Idle, r, OutRun(defs, endp, y, [], bus)) == (Idle, r)
    ensures OutShown(defs, endp, y, []) == []
  {
  }

  lemma {:induction false} OutPlayed(defs: set<string>, endp: nat, y: O.Sys, evs: seq<O.Event>, bus: Bus, r: Regs)
    returns (r1: Regs)
    requires O.Sound(y) && O.AllPossible(defs, y, evs) && O.NoHit(defs, y, evs) && Others(bus)
    requires Ready(r, EpId(endp, false), y.s.e)
    ensures Play(defs, Idle, r, OutRun(defs, endp, y, evs, bus)) == (Idle, r1)
    ensures Ready(r1, EpId(endp, false), O.Run(defs, y, evs).s.e)
    ensures r1.outs == r.outs + OutShown(defs, endp, y, evs)
    decreases |evs|
  {
    hide *;
    if evs == [] {
      OutNothing(defs, endp, y, bus, r);
      r1 := r;
    } else {
      var y1, rest := OutRunCons(defs, endp, y, evs, bus);
      var a := OutEvent(defs, endp, y, evs[0], bus, |evs|, r);
      r1 := OutPlayed(defs, endp, y1, rest, bus, a);
      PlayGlue(defs, r, Cat(bus(|evs|).before, OutTraffic(defs, endp, y, evs[0], bus(|evs|).wait)), a,
        OutRun(defs, endp, y1, rest, bus), r1);
    }
  }

  /** End to end, OUT: for every run of host, bus with other devices, and driver in which nothing goes
      wrong for a second
      descriptor of a build that reports errors, the assembled ROM, from reset, takes the run's traffic,
      ends with the system's registers and has answered as the system says; and the packets taken are
      the host's, in order, those it saw acknowledged, or one more. */
  lemma RomTakes(defs: set<string>, endp: nat, y: O.Sys, evs: seq<O.Event>, bus: Bus, r: Regs, a: Nib)
    returns (img: A.Image<Lab>, k: nat)
    requires O.Opened(y) && O.AllPossible(defs, y, evs) && O.NoHit(defs, y, evs) && Others(bus)
    requires Ready(r, EpId(endp, false), y.s.e)
    ensures A.Assembled(A.Flatten(Listing(Seg)), defs) == Some(img)
    ensures var ins := OutRun(defs, endp, y, evs, bus);
            var c := A.FlatRun(img.words, TheMachine(), A.Flat(0, Cpu(a, r, ins)), k).s;
            && c.ins == NoMore && Fetch(c.r.ram, EpId(endp, false)) == O.Run(defs, y, evs).s.e
            && c.r.outs == r.outs + OutShown(defs, endp, y, evs)
    ensures var s := O.Run(defs, y, evs);
            && s.acked <= |y.plan|
            && (s.taken == y.plan[..s.acked] || (s.acked < |y.plan| && s.taken == y.plan[..s.acked + 1]))
  {
    var ins := OutRun(defs, endp, y, evs, bus);
    img, k := RomFollowsProtocol(defs, r, ins, a);
    O.OpenedInv(y);
    var r1 := OutPlayed(defs, endp, y, evs, bus, r);
    O.TakenOnceInOrder(defs, y, evs);
  }

  /** Once an OUT token has been looked at, the window is open or closed as the system says. */
  lemma WindowAgrees(defs: set<string>, endp: nat, e: EpStatus, r: Regs) returns (r1: Regs)
    requires BulkOrInterrupt(e) && Ready(r, EpId(endp, false), e)
    ensures r1 == StartOut(defs, Latched(r, PID_OUT, endp)).1
    ensures r1.x == Xfer(e.At(e.Current(false)).len % 1024, !O.Open(defs, e), 0, 0)
  {
    r1 := StartOut(defs, Latched(r, PID_OUT, endp)).1;
    Sees(defs, r, PID_OUT, endp);
  }

  /** What the OUT system stores are as many bytes as the engine counts as stored. */
  lemma StoredAgrees(defs: set<string>, endp: nat, y: O.Sys, fate: O.Fate, r: Regs)
    requires O.Sound(y) && y.acked < |y.plan| && (fate.Intact? ==> |fate.crc| == 2) && !fate.Gone?
    requires Ready(r, EpId(endp, false), y.s.e)
    ensures var r1 := StartOut(defs, Latched(r, PID_OUT, endp)).1;
            var n := Arrive(r1, InputOf(O.Received(y, fate))).x.stored;
            var wire := O.Wire(y, fate);
            && n <= |wire| && y.s.Ptr(y.s.e.idx) + n <= |y.s.mem|
            && O.Stored(y.s, O.Open(defs, y.s.e), wire) == Patch(y.s.mem, y.s.Ptr(y.s.e.idx), wire[..n])
  {
    var r1 := WindowAgrees(defs, endp, y.s.e, r);
    var v, open := O.Decided(defs, y, fate);
    StoredCount(y.s, open, O.Wire(y, fate));
    ArriveStored(y, fate, r1, y.s.e.At(y.s.e.idx).len, open);
  }

  lemma ArriveStored(y: O.Sys, fate: O.Fate, r1: Regs, len: nat, open: bool)
    requires y.acked < |y.plan| && (fate.Intact? ==> |fate.crc| == 2) && !fate.Gone?
    requires r1.x.zl == !open && (open ==> r1.x.bdLen == len)
    ensures Arrive(r1, InputOf(O.Received(y, fate))).x.stored == if open then Min(len, |O.Wire(y, fate)|) else 0
  {
  }

  lemma StoredCount(s: O.D.Out, open: bool, wire: seq<byte>)
    requires s.Sane() && s.e.Current(false) == s.e.idx && (s.e.idx ==> s.dual)
    requires open ==> s.e.At(s.e.idx) == O.D.Ready(s)
    ensures var n := if open then Min(s.e.At(s.e.idx).len, |wire|) else 0;
            s.Ptr(s.e.idx) + n <= |s.mem| && O.Stored(s, open, wire) == Patch(s.mem, s.Ptr(s.e.idx), wire[..n])
  {
    if !open {
      assert Patch(s.mem, s.Ptr(s.e.idx), wire[..0]) == s.mem;
    }
  }
}
