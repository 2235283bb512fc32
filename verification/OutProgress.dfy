/** The OUT side goes on: while it is neither halted nor starved, every round of a driver call and an
    undisturbed transaction gets a packet through, and enough of them finish the transfer. */
module OutProgress {
  import opened Isa
  import opened Engine
  import opened Bytes
  import opened Microcode
  import opened Decision
  import opened OutPath
  import F = OutFaults
  import I = InDriver
  import D = OutDriver

  // ---- Halt --------------------------------------------------------------------------------------

  /** A halted endpoint answers every data packet with STALL and takes none, and once it is resumed it is
      as if it had not been halted. */
  lemma HaltStalls(defs: set<string>, y: Sys, crc: seq<byte>, ackSeen: bool)
    requires Sound(y) && !y.s.e.epType.t0 && y.acked < |y.plan|
    ensures var z := Happen(defs, y, Halt(true));
            && Verdicts(defs, z, Intact(crc)) == Just(Handshake(PID_STALL))
            && Transact(defs, z, Intact(crc), ackSeen) == z
            && z.s.Sane() && D.Lengths(z.s.e, z.s.mps) && Happen(defs, z, Halt(false)) == y
  {
  }

  // ---- A transfer stays the same until it ends -----------------------------------------------------

  predicate SameTransfer(s: D.Out, r: D.Out) {
    && r.asked == s.asked && (r.busy ==> s.busy && r.x.len == s.x.len && r.cuts == s.cuts)
    && (s.busy && !r.busy ==> |r.cuts| == |s.cuts| + 1)
    && (!s.busy ==> r.cuts == s.cuts)
  }

  lemma {:induction false} RetireSame(s: D.Out)
    requires s.Sane() && D.Lengths(s.e, s.mps)
    ensures var r := D.Retire(s);
            && SameTransfer(s, r) && r.e.At(r.retire).state != BD_DONE_ERR
            && (r.e.At(r.retire).state == BD_DONE_OK ==> !r.busy)
    decreases I.Count(s.e, IsDone), s.retire
  {
    var state := s.e.At(s.retire).state;
    if state == BD_DONE_OK && s.busy {
      D.TakeStep(s);
      RetireSame(D.TakeOne(s));
    } else if state == BD_DONE_ERR {
      D.RearmStep(s);
      RetireSame(D.Rearm(s));
    }
  }

  lemma {:induction false} ArmSame(s: D.Out)
    requires s.Sane() && D.Lengths(s.e, s.mps)
    ensures var r := D.Arm(s);
            && SameTransfer(s, r) && r.busy == s.busy && r.retire == s.retire
            && (IsDone(r.e.bd0.state) ==> r.e.bd0 == s.e.bd0) && (IsDone(r.e.bd1.state) ==> r.e.bd1 == s.e.bd1)
    decreases I.Count(s.e, I.IsFree)
  {
    if D.Wanted(s) {
      ArmSame(D.ArmOne(s));
    }
  }

  lemma AdvanceSame(s: D.Out)
    requires s.Sane() && D.Lengths(s.e, s.mps)
    ensures SameTransfer(s, D.Advance(s))
  {
    RetireSame(s);
    ArmSame(D.Retire(s));
  }

  /** A transfer takes the packets already waiting at once: either it is finished with them, or none is
      left, and the descriptors that are free are made ready. */
  lemma SubmitTakes(defs: set<string>, y: Sys, buf: seq<byte>, len: nat)
    requires Sound(y) && Possible(y, Submit(buf, len))
    ensures var r := Happen(defs, y, Submit(buf, len)).s;
            && (r.busy ==> r.retired == |y.taken| && !IsDone(r.e.At(r.retire).state) && r.e.At(r.fill).state != BD_NONE)
            && (!r.busy ==> |r.cuts| == |y.s.cuts| + 1)
  {
    var s1 := Started(y.s, y.taken, buf, len);
    AdvanceKeeps(s1, y.taken);
    AdvanceSame(s1);
  }

  // ---- Rounds ------------------------------------------------------------------------------------

  /** The endpoint can receive: it is not halted, nor starved, nor about to be. */
  predicate Able(y: Sys) {
    Inv(y) && !y.s.e.epType.t0 && !F.Starved(y.s) && !F.Starves(y.s)
  }

  function Clean(crc: seq<byte>): Event {
    Event.Token(true, Intact(crc), true)
  }

  function Rounds(n: nat, crc: seq<byte>): seq<Event> {
    if n == 0 then [Poll] else [Poll, Clean(crc)] + Rounds(n - 1, crc)
  }

  /** A driver call of an endpoint that can receive leaves it so; and with more to receive it has taken
      every packet there was, and left no descriptor done. */
  lemma PollAble(defs: set<string>, y: Sys)
    requires Able(y)
    ensures var z := Happen(defs, y, Poll);
            && Able(z) && z == y.(s := z.s) && SameTransfer(y.s, z.s) && z.s.mps == y.s.mps
            && (z.s.busy ==>
                  z.s.e.At(z.s.e.idx) == D.Ready(z.s) && z.s.retired == |z.taken| && z.s.e.bd0.state != BD_DONE_ERR)
  {
    EventKeeps(defs, y, Poll);
    EventSound(defs, y, Poll);
    AdvanceKeeps(y.s, y.taken);
    AdvanceSame(y.s);
    F.StarvesExactly(y.s, y.taken);
    F.ReadyExactly(y.s, y.taken);
    AdvancedStops(y.s, y.taken);
  }

  /** Where a driver call stops, nothing is left that would starve the endpoint. */
  lemma AdvancedStops(s: D.Out, taken: seq<seq<byte>>)
    requires Ring(s, taken) && Books(s, taken)
    ensures var r := D.Advance(s); !F.Starves(r) && (r.busy ==> r.e.bd0.state != BD_DONE_ERR)
  {
    AdvanceKeeps(s, taken);
    RetireSame(s);
    ArmSame(D.Retire(s));
    F.StopStarves(D.Advance(s), taken);
  }

  /** A round gets one more packet through, and acknowledged, unless the transfer is finished. */
  lemma RoundTakes(defs: set<string>, y: Sys, crc: seq<byte>)
    requires Able(y) && y.acked < |y.plan| && |crc| == 2
    ensures var z := Happen(defs, y, Poll);
            && Able(z) && Shaped(z) && z.plan == y.plan && z.acked == y.acked && SameTransfer(y.s, z.s)
            && z.s.mps == y.s.mps && !Hits(defs, y, Poll) && !Hits(defs, z, Clean(crc)) && Possible(z, Clean(crc))
            && (z.s.busy ==>
                  var r := Happen(defs, z, Clean(crc));
                  && Able(r) && r.plan == y.plan && |r.taken| == r.acked == y.acked + 1
                  && r.s == z.s.(mem := r.s.mem, e := r.s.e))
  {
    PollAble(defs, y);
    var z := Happen(defs, y, Poll);
    if z.s.busy {
      CleanTransaction(defs, z, crc);
      EventKeeps(defs, z, Clean(crc));
      CleanAble(defs, z, crc);
    }
  }

  lemma CleanAble(defs: set<string>, z: Sys, crc: seq<byte>)
    requires Able(z) && z.acked < |z.plan| && z.s.e.bd0.state != BD_DONE_ERR && |crc| == 2
    requires Inv(Transact(defs, z, Intact(crc), true))
    ensures var r := Transact(defs, z, Intact(crc), true);
            Able(r) && r.plan == z.plan && r.s == z.s.(mem := r.s.mem, e := r.s.e)
  {
    var v, open := Decided(defs, z, Intact(crc));
  }

  /** As long as a transfer waits for more, the packets taken since the last one ended are all full, and
      together less than it asked for. */
  lemma StillWants(s: D.Out, taken: seq<seq<byte>>)
    requires Ring(s, taken) && Books(s, taken) && s.busy && s.retired == |taken|
    ensures var last := Start(s, |s.cuts|);
            last <= |taken| && ((|taken| - last) * s.mps < s.x.len || |taken| == last)
  {
    var last := Start(s, |s.cuts|);
    AllFull(taken[last..], s.mps);
    assert taken[last..s.retired] == taken[last..];
  }

  lemma {:induction false} AllFull(ps: seq<seq<byte>>, mps: nat)
    requires forall k :: 0 <= k < |ps| ==> |ps[k]| == mps
    ensures |Flat(ps)| == |ps| * mps
  {
    if ps != [] {
      AllFull(ps[1..], mps);
    }
  }

  lemma RunOne(defs: set<string>, y: Sys, a: Event)
    requires Shaped(y) && Possible(y, a) && !Hits(defs, y, a)
    ensures AllPossible(defs, y, [a]) && NoHit(defs, y, [a]) && Run(defs, y, [a]) == Happen(defs, y, a)
  {
    hide Happen, Hits;
    HappenShape(defs, y, a);
    assert [a][1..] == [];
  }

  lemma RunTwo(defs: set<string>, y: Sys, a: Event, b: Event, rest: seq<Event>)
    requires Shaped(y) && Possible(y, a) && !Hits(defs, y, a)
    requires var z := Happen(defs, y, a);
             && Shaped(z) && Possible(z, b) && !Hits(defs, z, b)
             && var r := Happen(defs, z, b);
                Shaped(r) && AllPossible(defs, r, rest) && NoHit(defs, r, rest)
    ensures AllPossible(defs, y, [a, b] + rest) && NoHit(defs, y, [a, b] + rest)
    ensures Run(defs, y, [a, b] + rest) == Run(defs, Happen(defs, Happen(defs, y, a), b), rest)
  {
    hide Happen, Hits, Possible;
    assert ([a, b] + rest)[1..] == [b] + rest && ([b] + rest)[1..] == rest;
    assert AllPossible(defs, Happen(defs, y, a), [b] + rest);
  }

  /** The transfer goes on, with `n` packets more; all that were taken are its own. */
  predicate Goes(y: Sys, r: Sys, n: nat) {
    && |r.taken| >= y.acked + n && r.s.retired == |r.taken| && r.s.cuts == y.s.cuts
    && r.s.busy && r.s.x.len == y.s.x.len && r.s.mps == y.s.mps
  }

  lemma LastPoll(defs: set<string>, y: Sys, crc: seq<byte>)
    requires Able(y) && y.s.busy
    ensures AllPossible(defs, y, Rounds(0, crc)) && NoHit(defs, y, Rounds(0, crc))
    ensures var r := Run(defs, y, Rounds(0, crc));
            r == Happen(defs, y, Poll) && Able(r) && r.s.asked == y.s.asked && (r.s.busy ==> Goes(y, r, 0))
  {
    PollAble(defs, y);
    RunOne(defs, y, Poll);
  }

  /** `n` rounds: the transfer is finished, or all of them got their packet through. */
  lemma {:induction false} RoundsTake(defs: set<string>, y: Sys, crc: seq<byte>, n: nat) returns (k: nat)
    requires Able(y) && y.s.busy && y.acked + n <= |y.plan| && |crc| == 2
    ensures k <= n && Shaped(y) && AllPossible(defs, y, Rounds(k, crc)) && NoHit(defs, y, Rounds(k, crc))
    ensures var r := Run(defs, y, Rounds(k, crc));
            Able(r) && r.s.asked == y.s.asked && (r.s.busy ==> k == n && Goes(y, r, n))
    decreases n
  {
    hide Ring, Books, Ahead, F.Starved, F.Starves, Happen, BulkOrInterrupt, Hits, AllPossible, NoHit, Run;
    if n == 0 {
      k := 0;
      LastPoll(defs, y, crc);
    } else {
      RoundTakes(defs, y, crc);
      var z := Happen(defs, y, Poll);
      if z.s.busy {
        k := RoundsTake(defs, Happen(defs, z, Clean(crc)), crc, n - 1);
        RunTwo(defs, y, Poll, Clean(crc), Rounds(k, crc));
        k := k + 1;
      } else {
        k := 0;
        LastPoll(defs, y, crc);
      }
    }
  }

  /** While the endpoint is neither halted nor starved, a transfer is finished, with exactly its own group
      of packets, after no more rounds than it has packets, a few to spare. */
  lemma TransferFinishes(defs: set<string>, y: Sys, crc: seq<byte>) returns (k: nat)
    requires Able(y) && y.s.busy && |crc| == 2
    requires y.acked + y.s.x.len / y.s.mps + 2 <= |y.plan|
    ensures k <= y.s.x.len / y.s.mps + 2
    ensures AllPossible(defs, y, Rounds(k, crc))
    ensures var r := Run(defs, y, Rounds(k, crc));
            && !r.s.busy && |r.s.done| == |r.s.cuts| == |y.s.done| + 1 == |r.s.asked|
            && Entry(r.s, r.taken, |y.s.done|) && IsPrefix(r.taken, y.plan)
  {
    var n := y.s.x.len / y.s.mps + 2;
    k := RoundsTake(defs, y, crc, n);
    hide AllPossible, NoHit, Rounds, Happen, Run, F.Starved, F.Starves;
    var r := Run(defs, y, Rounds(k, crc));
    NotForEver(y, r, n);
  }

  /** A transfer has no more packets than it can hold. */
  lemma NotForEver(y: Sys, r: Sys, n: nat)
    requires Able(y) && Able(r) && y.s.busy && (r.s.busy ==> Goes(y, r, n)) && n == y.s.x.len / y.s.mps + 2
    ensures !r.s.busy
  {
    if r.s.busy {
      StillWants(r.s, r.taken);
      hide Ring, Entry, F.Starved, F.Starves, BulkOrInterrupt;
      var last := Start(y.s, |y.s.cuts|);
      assert last <= y.acked + 1 && Start(r.s, |r.s.cuts|) == last;
      TooMany(y.s.x.len, y.s.mps, n, |r.taken| - last);
    }
  }

  lemma TooMany(len: nat, mps: nat, n: nat, m: nat)
    requires 0 < mps && n == len / mps + 2 && m + 1 >= n
    ensures m * mps >= len && m > 0
  {
    var q := len / mps;
    assert len == q * mps + len % mps;
    var more := m - (q + 1);
    MulMore(q, more, mps);
  }

  lemma MulMore(q: nat, more: nat, mps: nat)
    ensures (q + 1 + more) * mps >= q * mps + mps
  {
    assert (q + 1 + more) * mps == q * mps + mps + more * mps;
  }
}
