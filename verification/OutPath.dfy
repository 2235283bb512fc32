/** OUT end to end: a USB host, a bus that loses and damages packets, hardware and driver. Every
    packet is taken once and in order, and the transfers are cut from them as the packets say. */
module OutPath {
  import opened Isa
  import opened Engine
  import opened Bytes
  import opened Microcode
  import opened Transactions
  import opened Decision
  import I = InDriver
  import D = OutDriver

  function One(b: bool): nat {
    if b then 1 else 0
  }

  // ---- The ring of descriptors ---------------------------------------------------------------

  /** The buffer of descriptor `i` holds a packet. */
  predicate Holds(s: D.Out, i: bool, p: seq<byte>) {
    var at := s.Ptr(i);
    |p| <= s.mps && at + s.mps <= |s.mem| && s.mem[at..at + |p|] == p
  }

  /** A descriptor that is done holds the k-th packet taken; only the first one may have failed; any
      other is ready, or free. */
  predicate Slot(s: D.Out, taken: seq<seq<byte>>, i: bool, k: nat) {
    var bd := s.e.At(i);
    if bd.state == BD_DONE_OK then k < |taken| && bd.len == |taken[k]| + 2 && Holds(s, i, taken[k])
    else if bd.state == BD_DONE_ERR then !i
    else bd == D.Ready(s) || bd.state == BD_NONE
  }

  /** Packets waiting at the retire index, and in all. */
  function First(s: D.Out): nat {
    One(s.e.At(s.retire).state == BD_DONE_OK)
  }

  function Waiting(s: D.Out): nat {
    First(s) + One(s.dual && s.e.At(!s.retire).state == BD_DONE_OK)
  }

  /** The descriptor after those used up, counted from the retire index. */
  function NextUp(s: D.Out): bool {
    s.dual && s.retire != (IsDone(s.e.At(s.retire).state) && !IsDone(s.e.At(!s.retire).state))
  }

  /** A fill index that an error has left behind is at the first descriptor. */
  predicate FillPlaced(s: D.Out) {
    s.dual ==>
      var free0, free1 := s.e.bd0.state == BD_NONE, s.e.bd1.state == BD_NONE;
      if s.fill then if s.retire then free0 ==> free1 else free1 && !free0
      else free0 ==> s.retire || free1
  }

  /** Descriptors are used up in turn, and those used up hold the packets not yet retired, in order. */
  predicate Ring(s: D.Out, taken: seq<seq<byte>>) {
    && s.Sane() && D.Lengths(s.e, s.mps)
    && |taken| == s.retired + Waiting(s)
    && Slot(s, taken, s.retire, s.retired)
    && (s.dual ==> Slot(s, taken, !s.retire, s.retired + First(s)))
    && (s.dual && IsDone(s.e.At(!s.retire).state) ==> IsDone(s.e.At(s.retire).state))
    && s.e.idx == NextUp(s) && FillPlaced(s)
  }

  // ---- Transfers are cut from the packets ----------------------------------------------------

  /** All but the last packet are full and not yet enough; the last is short, or makes it enough. */
  predicate Group(ps: seq<seq<byte>>, need: nat, mps: nat) {
    && ps != []
    && (forall k :: 0 <= k < |ps| - 1 ==> |ps[k]| == mps)
    && (|ps| > 1 ==> |Flat(ps[..|ps| - 1])| < need)
    && (|ps[|ps| - 1]| < mps || |Flat(ps)| >= need)
  }

  /** A transfer's data: the bytes of its packets, as far as it asked for them. */
  function Clip(b: seq<byte>, need: nat): seq<byte> {
    if |b| <= need then b else b[..need]
  }

  function Start(s: D.Out, i: nat): nat
    requires i <= |s.cuts|
  {
    if i == 0 then 0 else s.cuts[i - 1]
  }

  /** The i-th completed transfer got exactly the packets from the end of the one before it. */
  predicate Entry(s: D.Out, taken: seq<seq<byte>>, i: nat)
    requires i < |s.cuts| == |s.done| <= |s.asked|
  {
    && Start(s, i) <= s.cuts[i] <= s.retired <= |taken|
    && Group(taken[Start(s, i)..s.cuts[i]], s.asked[i], s.mps)
    && s.done[i] == Clip(Flat(taken[Start(s, i)..s.cuts[i]]), s.asked[i])
  }

  /** The current transfer holds the packets since the last cut; with none waiting there are none. */
  predicate Current(s: D.Out, taken: seq<seq<byte>>) {
    var last := Start(s, |s.cuts|);
    && last <= s.retired <= |taken|
    && if !s.busy then last == s.retired else
       && |s.asked| > 0 && s.x.len == s.asked[|s.asked| - 1]
       && (s.x.ofs < s.x.len || last == s.retired)
       && s.x.ofs == |Flat(taken[last..s.retired])| && s.x.ofs <= s.x.len <= |s.x.buf|
       && s.x.buf[..s.x.ofs] == Flat(taken[last..s.retired])
       && (forall k :: last <= k < s.retired ==> |taken[k]| == s.mps)
  }

  predicate Books(s: D.Out, taken: seq<seq<byte>>) {
    && |s.done| == |s.cuts| && |s.asked| == |s.done| + (if s.busy then 1 else 0)
    && (forall i :: 0 <= i < |s.cuts| ==> Entry(s, taken, i))
    && Current(s, taken)
  }

  // ---- Retiring ------------------------------------------------------------------------------

  /** The packet to retire is the next one taken. */
  lemma NextPacket(s: D.Out, taken: seq<seq<byte>>)
    requires Ring(s, taken) && s.e.At(s.retire).state == BD_DONE_OK
    ensures s.retired < |taken| && s.e.At(s.retire).len == |taken[s.retired]| + 2 && |taken[s.retired]| <= s.mps
    ensures D.Plen(s) == Min(|taken[s.retired]|, s.x.len - s.x.ofs)
    ensures s.mem[s.Ptr(s.retire)..s.Ptr(s.retire) + D.Plen(s)] == taken[s.retired][..D.Plen(s)]
  {
    var at := s.Ptr(s.retire);
    assert s.mem[at..at + D.Plen(s)] == s.mem[at..at + |taken[s.retired]|][..D.Plen(s)];
  }

  lemma SlotKept(s: D.Out, r: D.Out, taken: seq<seq<byte>>, i: bool, k: nat)
    requires Slot(s, taken, i, k) && r.e.At(i) == s.e.At(i)
    requires r.mem == s.mem && r.mps == s.mps && r.ptr0 == s.ptr0 && r.ptr1 == s.ptr1
    ensures Slot(r, taken, i, k)
  {
  }

  lemma TakeRing(s: D.Out, taken: seq<seq<byte>>)
    requires Ring(s, taken) && s.e.At(s.retire).state == BD_DONE_OK
    ensures Ring(D.TakeOne(s), taken)
  {
    var r := D.TakeFields(s);
    D.TakeStep(s);
    if s.dual {
      SlotKept(s, r, taken, !s.retire, s.retired + 1);
    }
  }

  // ---- The books stay right ------------------------------------------------------------------

  /** A copied packet goes to the end of what the transfer has. */
  lemma CopyAdds(s: D.Out, taken: seq<seq<byte>>) returns (c: D.Out)
    requires Ring(s, taken) && Books(s, taken) && s.busy && s.e.At(s.retire).state == BD_DONE_OK
    ensures c == D.Copied(s) && s.retired < |taken|
    ensures c.x.ofs <= c.x.len == s.x.len && c.x.len <= |c.x.buf|
    ensures c.x.plen == Min(|taken[s.retired]|, s.x.len - s.x.ofs)
    ensures var last := Start(s, |s.cuts|);
            && last <= s.retired
            && Flat(taken[last..s.retired + 1]) == Flat(taken[last..s.retired]) + taken[s.retired]
            && c.x.buf[..c.x.ofs] == Clip(Flat(taken[last..s.retired + 1]), s.x.len)
  {
    NextPacket(s, taken);
    var last := Start(s, |s.cuts|);
    var has := Flat(taken[last..s.retired]);
    FlatSnoc(taken, last, s.retired);
    c := CopyBuffer(s, has, taken[s.retired]);
  }

  lemma CopyBuffer(s: D.Out, has: seq<byte>, p: seq<byte>) returns (c: D.Out)
    requires s.Sane() && D.Lengths(s.e, s.mps) && s.e.At(s.retire).state == BD_DONE_OK
    requires s.Ptr(s.retire) + D.Plen(s) <= |s.mem| && D.Plen(s) == Min(|p|, s.x.len - s.x.ofs)
    requires s.mem[s.Ptr(s.retire)..s.Ptr(s.retire) + D.Plen(s)] == p[..D.Plen(s)]
    requires s.x.ofs == |has| && s.x.buf[..s.x.ofs] == has
    ensures c == D.Copied(s) && c.x.ofs <= c.x.len == s.x.len && c.x.len <= |c.x.buf| && c.x.plen == D.Plen(s)
    ensures c.x.buf[..c.x.ofs] == Clip(has + p, s.x.len)
  {
    c := D.Copied(s);
    PatchPrefix(s.x.buf, s.x.ofs, p[..D.Plen(s)]);
    ClipAdds(has, p, s.x.len);
  }

  lemma PatchPrefix(buf: seq<byte>, ofs: nat, b: seq<byte>)
    requires ofs + |b| <= |buf|
    ensures |Patch(buf, ofs, b)| == |buf| && Patch(buf, ofs, b)[..ofs + |b|] == buf[..ofs] + b
  {
  }

  lemma ClipAdds(b: seq<byte>, p: seq<byte>, need: nat)
    requires |b| <= need
    ensures b + p[..Min(|p|, need - |b|)] == Clip(b + p, need)
  {
  }

  lemma FlatSnoc(taken: seq<seq<byte>>, i: nat, j: nat)
    requires i <= j < |taken|
    ensures Flat(taken[i..j + 1]) == Flat(taken[i..j]) + taken[j]
  {
    assert taken[i..j + 1] == taken[i..j] + [taken[j]];
    FlatAppend(taken[i..j], [taken[j]]);
    assert Flat([taken[j]]) == taken[j] + Flat([taken[j]][1..]);
  }

  lemma EntryKept(s: D.Out, r: D.Out, taken: seq<seq<byte>>, taken1: seq<seq<byte>>, i: nat)
    requires i < |s.cuts| == |s.done| <= |s.asked| && Entry(s, taken, i)
    requires |s.cuts| <= |r.cuts| == |r.done| <= |r.asked| && r.cuts[..|s.cuts|] == s.cuts
      && r.done[..|s.done|] == s.done
    requires |s.asked| <= |r.asked| && r.asked[..|s.asked|] == s.asked && s.retired <= r.retired <= |taken1|
      && r.mps == s.mps
    requires IsPrefix(taken, taken1)
    ensures Entry(r, taken1, i)
  {
    assert r.cuts[i] == r.cuts[..|s.cuts|][i] && (i > 0 ==> r.cuts[i - 1] == r.cuts[..|s.cuts|][i - 1]);
    assert r.done[i] == r.done[..|s.done|][i] && r.asked[i] == r.asked[..|s.asked|][i];
    assert taken1[Start(s, i)..s.cuts[i]] == taken[Start(s, i)..s.cuts[i]];
  }

  /** The packet that ends a transfer completes its group. */
  lemma Completes(s: D.Out, taken: seq<seq<byte>>, c: D.Out)
    requires Ring(s, taken) && Books(s, taken) && s.busy && s.e.At(s.retire).state == BD_DONE_OK && c == D.Copied(s)
    requires s.retired < |taken| && (c.x.plen < s.mps || c.x.len == c.x.ofs)
    ensures Group(taken[Start(s, |s.cuts|)..s.retired + 1], s.x.len, s.mps)
  {
    var c1 := CopyAdds(s, taken);
    var last := Start(s, |s.cuts|);
    var ps := taken[last..s.retired + 1];
    assert ps[..|ps| - 1] == taken[last..s.retired] && ps[|ps| - 1] == taken[s.retired];
    FlatSnoc(taken, last, s.retired);
  }

  lemma TakeCloses(s: D.Out, taken: seq<seq<byte>>, c: D.Out)
    requires Ring(s, taken) && Books(s, taken) && s.busy && s.e.At(s.retire).state == BD_DONE_OK && c == D.Copied(s)
    requires c.x.ofs <= |c.x.buf| && (c.x.plen < s.mps || c.x.len == c.x.ofs)
    ensures Books(D.Closed(c), taken)
  {
    var c1 := CopyAdds(s, taken);
    Completes(s, taken, c);
    var r := ClosedFields(s, c);
    NewEntry(s, taken, c, r);
    forall i | 0 <= i < |r.cuts| ensures Entry(r, taken, i) {
      if i < |s.cuts| {
        EntryKept(s, r, taken, taken, i);
      }
    }
  }

  lemma ClosedFields(s: D.Out, c: D.Out) returns (r: D.Out)
    requires s.Sane() && D.Lengths(s.e, s.mps) && s.e.At(s.retire).state == BD_DONE_OK && c == D.Copied(s)
    requires c.x.ofs <= |c.x.buf| && (c.x.plen < s.mps || c.x.len == c.x.ofs)
    ensures r == D.Closed(c) && !r.busy && r.retired == s.retired + 1 && r.mps == s.mps && r.asked == s.asked
    ensures r.cuts == s.cuts + [s.retired + 1] && r.done == s.done + [c.x.buf[..c.x.ofs]]
  {
    r := D.Closed(c);
  }

  lemma NewEntry(s: D.Out, taken: seq<seq<byte>>, c: D.Out, r: D.Out)
    requires |s.done| == |s.cuts| && |s.asked| == |s.done| + 1 && Start(s, |s.cuts|) <= s.retired < |taken|
    requires r.retired == s.retired + 1 && r.mps == s.mps && r.asked == s.asked
    requires c.x.ofs <= |c.x.buf| && r.cuts == s.cuts + [s.retired + 1] && r.done == s.done + [c.x.buf[..c.x.ofs]]
    requires Group(taken[Start(s, |s.cuts|)..s.retired + 1], s.asked[|s.cuts|], s.mps)
    requires c.x.buf[..c.x.ofs] == Clip(Flat(taken[Start(s, |s.cuts|)..s.retired + 1]), s.asked[|s.cuts|])
    ensures Entry(r, taken, |s.cuts|)
  {
    assert Start(r, |s.cuts|) == Start(s, |s.cuts|);
  }

  lemma TakeGoesOn(s: D.Out, taken: seq<seq<byte>>, c: D.Out)
    requires Ring(s, taken) && Books(s, taken) && s.busy && s.e.At(s.retire).state == BD_DONE_OK && c == D.Copied(s)
    requires c.x.ofs <= |c.x.buf| && !(c.x.plen < s.mps || c.x.len == c.x.ofs)
    ensures Books(c, taken)
  {
    var c1 := CopyAdds(s, taken);
    NextPacket(s, taken);
    forall i | 0 <= i < |s.cuts| ensures Entry(c, taken, i) {
      EntryKept(s, c, taken, taken, i);
    }
  }

  lemma TakeBooks(s: D.Out, taken: seq<seq<byte>>)
    requires Ring(s, taken) && Books(s, taken) && s.busy && s.e.At(s.retire).state == BD_DONE_OK
    ensures Books(D.TakeOne(s), taken)
  {
    var c := CopyAdds(s, taken);
    if c.x.plen < s.mps || c.x.len == c.x.ofs {
      TakeCloses(s, taken, c);
    } else {
      TakeGoesOn(s, taken, c);
    }
  }

  // ---- A call of the driver ------------------------------------------------------------------

  /** The driver changes neither the packet memory nor the endpoint's status word. */
  predicate Driven(s: D.Out, r: D.Out) {
    && r.mem == s.mem && r.mps == s.mps && r.dual == s.dual && r.prefill == s.prefill
    && r.e == s.e.(bd0 := r.e.bd0, bd1 := r.e.bd1)
  }

  /** An error can only be the first descriptor's, which is the one made ready again. */
  lemma RearmRing(s: D.Out, taken: seq<seq<byte>>)
    requires Ring(s, taken) && s.e.At(s.retire).state == BD_DONE_ERR
    ensures !s.retire && Ring(D.Rearm(s), taken)
    ensures D.Rearm(s) == s.(e := s.e.With(false, D.Ready(s)), retire := s.dual)
  {
    D.RearmStep(s);
    var r := D.Rearm(s);
    if s.dual {
      SlotKept(s, r, taken, true, s.retired);
    }
  }

  lemma SameBooks(s: D.Out, r: D.Out, taken: seq<seq<byte>>)
    requires Books(s, taken) && r == s.(e := r.e, fill := r.fill, retire := r.retire)
    ensures Books(r, taken)
  {
    forall i | 0 <= i < |s.cuts| ensures Entry(r, taken, i) {
      EntryKept(s, r, taken, taken, i);
    }
  }

  lemma TakeDriven(s: D.Out)
    requires s.Sane() && D.Lengths(s.e, s.mps) && s.e.At(s.retire).state == BD_DONE_OK
    ensures Driven(s, D.TakeOne(s))
  {
    var r := D.TakeFields(s);
    WithStatus(s.e, s.retire, NO_BD);
  }

  /** Retiring keeps ring and books, and leaves no packet while a transfer waits. */
  lemma {:induction false} RetireKeeps(s: D.Out, taken: seq<seq<byte>>)
    requires Ring(s, taken) && Books(s, taken)
    ensures var r := D.Retire(s); Ring(r, taken) && Books(r, taken) && Driven(s, r)
    ensures var r := D.Retire(s); r.busy ==> !IsDone(r.e.At(r.retire).state) && r.retired == |taken|
    decreases I.Count(s.e, IsDone), s.retire
  {
    var state := s.e.At(s.retire).state;
    if state == BD_DONE_OK && s.busy {
      TakeRing(s, taken);
      TakeBooks(s, taken);
      D.TakeStep(s);
      TakeDriven(s);
      RetireKeeps(D.TakeOne(s), taken);
    } else if state == BD_DONE_ERR {
      RearmRing(s, taken);
      D.RearmStep(s);
      SameBooks(s, D.Rearm(s), taken);
      WithStatus(s.e, false, D.Ready(s));
      RetireKeeps(D.Rearm(s), taken);
    }
  }

  lemma ArmRing(s: D.Out, taken: seq<seq<byte>>)
    requires Ring(s, taken) && s.e.At(s.fill).state == BD_NONE
    ensures Ring(D.ArmOne(s), taken)
  {
    var r := ArmFields(s);
    ArmSlot(s, r, taken, s.retire, s.retired);
    if s.dual {
      ArmSlot(s, r, taken, !s.retire, s.retired + First(s));
    }
    ArmPlaced(s, r);
    assert First(r) == First(s) && Waiting(r) == Waiting(s) && NextUp(r) == NextUp(s);
  }

  lemma ArmFields(s: D.Out) returns (r: D.Out)
    requires s.Sane() && D.Lengths(s.e, s.mps) && s.e.At(s.fill).state == BD_NONE
    ensures r == D.ArmOne(s) && r == s.(e := s.e.With(s.fill, D.Ready(s)), fill := s.fill != s.dual)
    ensures r.Sane() && D.Lengths(r.e, r.mps) && r.e.idx == s.e.idx
  {
    r := D.ArmOne(s);
  }

  lemma ArmPlaced(s: D.Out, r: D.Out)
    requires FillPlaced(s) && s.e.At(s.fill).state == BD_NONE && r == D.ArmOne(s)
    ensures FillPlaced(r)
  {
  }

  lemma ArmSlot(s: D.Out, r: D.Out, taken: seq<seq<byte>>, i: bool, k: nat)
    requires Slot(s, taken, i, k) && s.e.At(s.fill).state == BD_NONE && r == D.ArmOne(s)
    ensures Slot(r, taken, i, k) && IsDone(r.e.At(i).state) == IsDone(s.e.At(i).state)
    ensures r.e.At(i).state == BD_DONE_OK <==> s.e.At(i).state == BD_DONE_OK
  {
  }

  /** Making descriptors ready keeps ring and books, and goes on to one that is not free. */
  lemma {:induction false} ArmKeeps(s: D.Out, taken: seq<seq<byte>>)
    requires Ring(s, taken) && Books(s, taken)
    ensures var r := D.Arm(s);
            && Ring(r, taken) && Books(r, taken) && Driven(s, r)
            && r.busy == s.busy && r.retired == s.retired && r.retire == s.retire
    ensures var r := D.Arm(s); r.busy || r.prefill ==> r.e.At(r.fill).state != BD_NONE
    ensures var r := D.Arm(s); IsDone(r.e.At(r.retire).state) == IsDone(s.e.At(s.retire).state)
    decreases I.Count(s.e, I.IsFree)
  {
    if D.Wanted(s) {
      ArmRing(s, taken);
      ArmSlot(s, D.ArmOne(s), taken, s.retire, s.retired);
      SameBooks(s, D.ArmOne(s), taken);
      WithStatus(s.e, s.fill, D.Ready(s));
      ArmKeeps(D.ArmOne(s), taken);
    }
  }

  /** A call of the driver keeps ring and books, and leaves no packet it has a transfer for. */
  lemma AdvanceKeeps(s: D.Out, taken: seq<seq<byte>>)
    requires Ring(s, taken) && Books(s, taken)
    ensures var r := D.Advance(s);
            && Ring(r, taken) && Books(r, taken) && Driven(s, r)
            && (r.busy ==> !IsDone(r.e.At(r.retire).state) && r.retired == |taken|)
            && (r.busy || r.prefill ==> r.e.At(r.fill).state != BD_NONE)
  {
    RetireKeeps(s, taken);
    ArmKeeps(D.Retire(s), taken);
  }

  // ---- Host, bus, hardware and driver --------------------------------------------------------

  /** The driver's state with the hardware's registers and the packets the hardware has taken; the
      packets the host has to send, how many it has seen acknowledged, and its data toggle. */
  datatype Sys = Sys(s: D.Out, taken: seq<seq<byte>>, plan: seq<seq<byte>>, acked: nat, toggle: bool)

  /** What becomes of a data packet on the way: it arrives with its CRC, damaged, or not at all. */
  datatype Fate = Intact(crc: seq<byte>) | Damaged(junk: seq<byte>) | Gone

  datatype Event =
    | Submit(buf: seq<byte>, len: nat)
    | Poll
    | Token(seen: bool, fate: Fate, ackSeen: bool)
    | Halt(on: bool)

  /** A host with packets left sends them; transfers follow one another. */
  predicate Possible(y: Sys, ev: Event) {
    match ev
    case Submit(buf, len) => !y.s.busy && len <= |buf|
    case Token(_, fate, _) => y.acked < |y.plan| && (fate.Intact? ==> |fate.crc| == 2)
    case _ => true
  }

  /** In a build that reports errors, data is lost or damaged for the second of two descriptors. */
  predicate Hits(defs: set<string>, y: Sys, ev: Event) {
    && ev.Token? && ev.seen && !ev.fate.Intact? && !IgnoreErr(defs)
    && y.s.dual && y.s.e.idx && y.s.e.bd1.state == BD_RDY_DATA
  }

  function Received(y: Sys, fate: Fate): Reception
    requires y.acked < |y.plan|
  {
    match fate
    case Intact(_) => Good(if y.toggle then PID_DATA1 else PID_DATA0, |y.plan[y.acked]| + 2)
    case Damaged(junk) => Bad(|junk|)
    case Gone => Nothing
  }

  /** The bytes on the wire, CRC included. */
  function Wire(y: Sys, fate: Fate): seq<byte>
    requires y.acked < |y.plan|
  {
    match fate
    case Intact(crc) => y.plan[y.acked] + crc
    case Damaged(junk) => junk
    case Gone => []
  }

  /** The current descriptor's buffer takes what it has room for, if the window is open. */
  function Stored(s: D.Out, open: bool, wire: seq<byte>): seq<byte> {
    var i := s.e.Current(false);
    var n := Min(s.e.At(i).len, |wire|);
    if open && s.Ptr(i) + n <= |s.mem| then Patch(s.mem, s.Ptr(i), wire[..n]) else s.mem
  }

  /** What is left once the device has decided: its buffer, registers and packets taken, and the
      host's next packet and toggle. */
  function Outcome(y: Sys, fate: Fate, ackSeen: bool, v: Verdict, open: bool): Sys
    requires y.acked < |y.plan|
  {
    var y1 := y.(s := y.s.(mem := Stored(y.s, open, Wire(y, fate)),
                           e := Settled(y.s.e, false, v, Length(Received(y, fate)))),
                 taken := if v.outcome.Completed? then y.taken + [y.plan[y.acked]] else y.taken);
    if v.response == Handshake(PID_ACK) && ackSeen then y1.(acked := y.acked + 1, toggle := !y.toggle) else y1
  }

  /** The window is open for data that could be taken. */
  predicate Open(defs: set<string>, e: EpStatus) {
    LookAt(defs, e, false, PID_OUT).buffer.DataBuffer? && !e.epType.t0
  }

  function Verdicts(defs: set<string>, y: Sys, fate: Fate): Verdict
    requires y.acked < |y.plan|
  {
    DecideOut(LookAt(defs, y.s.e, false, PID_OUT), Received(y, fate), !IgnoreErr(defs))
  }

  /** One OUT transaction: the host sends the packet that is due; the device stores it and decides
      as its microcode does; the host goes on to the next packet if it sees an ACK. */
  function Transact(defs: set<string>, y: Sys, fate: Fate, ackSeen: bool): Sys
    requires y.acked < |y.plan|
  {
    Outcome(y, fate, ackSeen, Verdicts(defs, y, fate), Open(defs, y.s.e))
  }

  function Happen(defs: set<string>, y: Sys, ev: Event): Sys
    requires y.s.Sane() && D.Lengths(y.s.e, y.s.mps) && Possible(y, ev)
  {
    match ev
    case Submit(buf, len) => y.(s := D.Submit(y.s, buf, len))
    case Poll => y.(s := D.Advance(y.s))
    case Token(seen, fate, ackSeen) => if seen then Transact(defs, y, fate, ackSeen) else y
    case Halt(on) => y.(s := D.Halted(y.s, on))
  }

  /** What the code itself relies on: sizes and lengths. */
  predicate Shaped(y: Sys) {
    && y.s.Sane() && D.Lengths(y.s.e, y.s.mps)
    && (forall k :: 0 <= k < |y.plan| ==> |y.plan[k]| <= y.s.mps)
  }

  /** The device's own part. */
  predicate Sound(y: Sys) {
    Shaped(y) && Ring(y.s, y.taken) && Books(y.s, y.taken) && BulkOrInterrupt(y.s.e)
  }

  /** Packets taken against packets acknowledged: as many, or one more if its ACK was lost; and `off`
      more than that. */
  predicate Ahead(y: Sys, off: int) {
    |y.taken| == y.acked + One(y.toggle != y.s.e.dt) + off
  }

  predicate Inv(y: Sys) {
    Sound(y) && Ahead(y, 0) && |y.taken| <= |y.plan| && y.taken == y.plan[..|y.taken|]
  }

  // ---- Every event keeps sizes and lengths ---------------------------------------------------

  lemma SettledShape(e: EpStatus, v: Verdict, p: nat, bytes: nat, mps: nat)
    requires D.Lengths(e, mps) && p <= mps <= 1021 && (v.outcome.Completed? ==> bytes == p + 2)
    ensures D.Lengths(Settled(e, false, v, bytes), mps) && Settled(e, false, v, bytes).dual == e.dual
  {
  }

  /** Only data that came is taken. */
  lemma CompletedGood(defs: set<string>, y: Sys, fate: Fate)
    requires y.acked < |y.plan| && Verdicts(defs, y, fate).outcome.Completed?
    ensures fate.Intact? && Length(Received(y, fate)) == |y.plan[y.acked]| + 2
  {
  }

  /** What a transaction changes on the device's side. */
  lemma TokenFields(defs: set<string>, y: Sys, fate: Fate, ackSeen: bool) returns (y1: Sys, e: EpStatus)
    requires y.acked < |y.plan|
    ensures y1 == Transact(defs, y, fate, ackSeen) && y1.plan == y.plan
    ensures e == Settled(y.s.e, false, Verdicts(defs, y, fate), Length(Received(y, fate)))
    ensures y1.s == y.s.(mem := Stored(y.s, Open(defs, y.s.e), Wire(y, fate)), e := e)
  {
    hide Verdicts, Open, Stored, Settled, Received, Wire;
    y1 := Transact(defs, y, fate, ackSeen);
    e := y1.s.e;
  }

  lemma TokenShape(defs: set<string>, y: Sys, fate: Fate, ackSeen: bool)
    requires Shaped(y) && y.acked < |y.plan|
    ensures Shaped(Transact(defs, y, fate, ackSeen))
  {
    hide Verdicts, Open, Stored, Settled, Received, Wire, Transact, D.Lengths;
    var y1, e := TokenFields(defs, y, fate, ackSeen);
    var v := Verdicts(defs, y, fate);
    if v.outcome.Completed? {
      CompletedGood(defs, y, fate);
    }
    SettledShape(y.s.e, v, |y.plan[y.acked]|, Length(Received(y, fate)), y.s.mps);
    StoredSize(y.s, Open(defs, y.s.e), Wire(y, fate));
  }

  lemma StoredSize(s: D.Out, open: bool, wire: seq<byte>)
    ensures |Stored(s, open, wire)| == |s.mem|
  {
  }

  lemma {:induction false} AdvanceMps(s: D.Out)
    requires s.Sane() && D.Lengths(s.e, s.mps)
    ensures D.Advance(s).mps == s.mps
  {
    RetireMps(s);
    ArmMps(D.Retire(s));
  }

  lemma {:induction false} RetireMps(s: D.Out)
    requires s.Sane() && D.Lengths(s.e, s.mps)
    ensures D.Retire(s).mps == s.mps
    decreases I.Count(s.e, IsDone), s.retire
  {
    if s.e.At(s.retire).state == BD_DONE_OK && s.busy {
      var r := D.TakeFields(s);
      D.TakeStep(s);
      RetireMps(r);
    } else if s.e.At(s.retire).state == BD_DONE_ERR {
      D.RearmStep(s);
      RetireMps(D.Rearm(s));
    }
  }

  lemma {:induction false} ArmMps(s: D.Out)
    requires s.Sane() && D.Lengths(s.e, s.mps)
    ensures D.Arm(s).mps == s.mps
    decreases I.Count(s.e, I.IsFree)
  {
    if D.Wanted(s) {
      ArmMps(D.ArmOne(s));
    }
  }

  lemma HappenShape(defs: set<string>, y: Sys, ev: Event)
    requires Shaped(y) && Possible(y, ev)
    ensures Shaped(Happen(defs, y, ev)) && Happen(defs, y, ev).plan == y.plan
  {
    match ev
    case Submit(buf, len) =>
      AdvanceMps(y.s.(busy := true, x := D.Transfer(buf, len, 0, 0), asked := y.s.asked + [len]));
    case Poll => AdvanceMps(y.s);
    case Token(seen, fate, ackSeen) =>
      if seen {
        TokenShape(defs, y, fate, ackSeen);
      }
    case Halt(_) =>
  }

  // ---- Whole runs ----------------------------------------------------------------------------

  predicate AllPossible(defs: set<string>, y: Sys, evs: seq<Event>)
    requires Shaped(y)
    decreases |evs|
  {
    evs != [] ==>
      && Possible(y, evs[0])
      && (HappenShape(defs, y, evs[0]); AllPossible(defs, Happen(defs, y, evs[0]), evs[1..]))
  }

  function Run(defs: set<string>, y: Sys, evs: seq<Event>): (r: Sys)
    requires Shaped(y) && AllPossible(defs, y, evs)
    ensures Shaped(r) && r.plan == y.plan
    decreases |evs|
  {
    if evs == [] then y else
      HappenShape(defs, y, evs[0]);
      Run(defs, Happen(defs, y, evs[0]), evs[1..])
  }

  /** Nothing goes wrong for a second descriptor in the whole run. */
  predicate NoHit(defs: set<string>, y: Sys, evs: seq<Event>)
    requires Shaped(y) && AllPossible(defs, y, evs)
    decreases |evs|
  {
    evs != [] ==>
      && !Hits(defs, y, evs[0])
      && (HappenShape(defs, y, evs[0]); NoHit(defs, Happen(defs, y, evs[0]), evs[1..]))
  }

  // ---- A token keeps the ring ----------------------------------------------------------------

  /** The descriptor a token finds is ready for the next packet, or not ready at all. */
  lemma CurrentBd(s: D.Out, taken: seq<seq<byte>>)
    requires Ring(s, taken) && !s.e.ctrl
    ensures s.e.Current(false) == s.e.idx
    ensures s.e.At(s.e.idx) == D.Ready(s) || !(s.e.At(s.e.idx).state in {BD_RDY_DATA, BD_RDY_STALL})
  {
  }

  /** The decision for such an endpoint. */
  lemma Decided(defs: set<string>, y: Sys, fate: Fate) returns (v: Verdict, open: bool)
    requires Sound(y) && y.acked < |y.plan|
    ensures v == Verdicts(defs, y, fate) && open == Open(defs, y.s.e)
    ensures y.s.e.Current(false) == y.s.e.idx
    ensures open || !v.outcome.Untouched? ==> y.s.e.At(y.s.e.idx) == D.Ready(y.s)
    ensures v.flips == v.outcome.Completed?
    ensures v.outcome.Completed? ==> open && fate.Intact? && y.toggle == y.s.e.dt && v.response == Handshake(PID_ACK)
    ensures v.outcome.Faulted? ==> !fate.Intact? && !IgnoreErr(defs)
    ensures v.response == Handshake(PID_ACK) ==>
      v.outcome.Completed? || (v.outcome.Untouched? && y.toggle != y.s.e.dt)
    ensures open && fate.Intact? && y.toggle == y.s.e.dt ==> v.outcome.Completed?
    ensures fate.Intact? && y.toggle != y.s.e.dt && !y.s.e.epType.t0 ==> v == Just(Handshake(PID_ACK))
  {
    v := Verdicts(defs, y, fate);
    open := Open(defs, y.s.e);
    CurrentBd(y.s, y.taken);
  }

  /** Writing to the ready descriptor's buffer disturbs no packet waiting in the other. */
  lemma StoredRing(s: D.Out, taken: seq<seq<byte>>, wire: seq<byte>)
    requires Ring(s, taken) && !s.e.ctrl && s.e.At(s.e.idx) == D.Ready(s)
    ensures var m, at, n := Stored(s, true, wire), s.Ptr(s.e.idx), Min(s.mps, |wire|);
            && |m| == |s.mem| && Ring(s.(mem := m), taken)
            && at + n <= |m| && m[at..at + n] == wire[..n]
  {
    CurrentBd(s, taken);
    var i, n := s.e.idx, Min(s.mps, |wire|);
    var m := Stored(s, true, wire);
    assert m == Patch(s.mem, s.Ptr(i), wire[..n]);
    PatchInside(s.mem, s.Ptr(i), wire[..n], n);
    SlotStored(s, taken, m, wire[..n], s.retire, s.retired);
    if s.dual {
      SlotStored(s, taken, m, wire[..n], !s.retire, s.retired + First(s));
    }
  }

  lemma SlotStored(s: D.Out, taken: seq<seq<byte>>, m: seq<byte>, b: seq<byte>, i: bool, k: nat)
    requires s.Sane() && |b| <= s.mps && s.Ptr(s.e.idx) + |b| <= |s.mem| && m == Patch(s.mem, s.Ptr(s.e.idx), b)
    requires Slot(s, taken, i, k) && s.e.At(s.e.idx) == D.Ready(s) && (i != s.e.idx ==> s.dual)
    ensures Slot(s.(mem := m), taken, i, k)
  {
    if s.e.At(i).state == BD_DONE_OK {
      assert i != s.e.idx;
      var n := |taken[k]|;
      PatchOutside(s.mem, s.Ptr(s.e.idx), b, s.Ptr(i), n);
    }
  }

  lemma BooksStored(s: D.Out, m: seq<byte>, e: EpStatus, taken: seq<seq<byte>>, taken1: seq<seq<byte>>)
    requires Books(s, taken) && IsPrefix(taken, taken1)
    ensures Books(s.(mem := m, e := e), taken1)
  {
    var r := s.(mem := m, e := e);
    forall i | 0 <= i < |s.cuts| ensures Entry(r, taken1, i) {
      EntryKept(s, r, taken, taken1, i);
    }
    SliceKept(taken, taken1, Start(s, |s.cuts|), s.retired);
    CurrentKept(s, m, e, taken, taken1);
  }

  lemma SliceKept(taken: seq<seq<byte>>, taken1: seq<seq<byte>>, i: nat, j: nat)
    requires IsPrefix(taken, taken1) && i <= j <= |taken|
    ensures taken1[i..j] == taken[i..j]
  {
    assert taken[i..j] == taken1[..|taken|][i..j];
  }

  lemma CurrentKept(s: D.Out, m: seq<byte>, e: EpStatus, taken: seq<seq<byte>>, taken1: seq<seq<byte>>)
    requires |s.asked| >= |s.cuts| && Current(s, taken) && IsPrefix(taken, taken1)
    requires taken1[Start(s, |s.cuts|)..s.retired] == taken[Start(s, |s.cuts|)..s.retired]
    ensures Current(s.(mem := m, e := e), taken1)
  {
    assert forall k :: 0 <= k < |taken| ==> taken1[k] == taken1[..|taken|][k];
  }

  /** The buffer for the next packet holds it. */
  lemma PacketHeld(s: D.Out, m: seq<byte>, p: seq<byte>, crc: seq<byte>)
    requires s.Sane() && |m| == |s.mem| && |p| <= s.mps && (s.e.idx ==> s.dual)
    requires var at, n := s.Ptr(s.e.idx), Min(s.mps, |p + crc|); at + n <= |m| && m[at..at + n] == (p + crc)[..n]
    ensures Holds(s.(mem := m), s.e.idx, p)
  {
    var at, n := s.Ptr(s.e.idx), Min(s.mps, |p + crc|);
    assert m[at..at + |p|] == m[at..at + n][..|p|];
    assert (p + crc)[..n][..|p|] == p;
  }

  /** The ring once the packet is stored. */
  lemma StorePhase(y: Sys, fate: Fate, open: bool) returns (s: D.Out)
    requires Sound(y) && y.acked < |y.plan| && (open ==> y.s.e.At(y.s.e.idx) == D.Ready(y.s))
    ensures s == y.s.(mem := Stored(y.s, open, Wire(y, fate))) && Ring(s, y.taken)
    ensures open && fate.Intact? ==> Holds(s, s.e.idx, y.plan[y.acked])
  {
    s := y.s.(mem := Stored(y.s, open, Wire(y, fate)));
    if open {
      StoredRing(y.s, y.taken, Wire(y, fate));
      if fate.Intact? {
        PacketHeld(y.s, s.mem, y.plan[y.acked], fate.crc);
      }
    } else {
      assert s == y.s;
    }
  }

  /** The endpoint once the ready descriptor is done, well or badly. */
  lemma UsedUp(s: D.Out, v: Verdict, bytes: nat) returns (r: D.Out)
    requires s.Sane() && !s.e.ctrl && (s.e.idx ==> s.dual) && !v.outcome.Untouched?
    ensures r == s.(e := Settled(s.e, false, v, bytes)) && r.e.dual == s.e.dual && r.e.idx == (s.e.idx != s.dual)
    ensures r.e.At(s.e.idx) == Bd(if v.outcome.Completed? then BD_DONE_OK else BD_DONE_ERR, false, bytes % 1024)
    ensures r.e.At(!s.e.idx) == s.e.At(!s.e.idx)
  {
    r := s.(e := Settled(s.e, false, v, bytes));
  }

  lemma UsedSlot(s: D.Out, r: D.Out, taken: seq<seq<byte>>, taken1: seq<seq<byte>>, i: bool, k: nat)
    requires Slot(s, taken, i, k) && r == s.(e := r.e) && r.e.At(i) == s.e.At(i) && IsPrefix(taken, taken1)
    ensures Slot(r, taken1, i, k)
  {
    assert forall j :: 0 <= j < |taken| ==> taken1[j] == taken1[..|taken|][j];
  }

  lemma UsedLengths(s: D.Out, r: D.Out, mps: nat)
    requires D.Lengths(s.e, mps) && r.e.At(!s.e.idx) == s.e.At(!s.e.idx)
    requires r.e.At(s.e.idx).state == BD_DONE_OK ==> 2 <= r.e.At(s.e.idx).len <= mps + 2
    ensures D.Lengths(r.e, mps)
  {
    assert s.e.idx || !s.e.idx;
  }

  /** A ready descriptor that is used up is the last one used: it holds the packet, or is the first. */
  lemma UsedRing(s: D.Out, r: D.Out, taken: seq<seq<byte>>, p: seq<byte>, ok: bool)
    requires Ring(s, taken) && s.e.At(s.e.idx) == D.Ready(s) && r == s.(e := r.e)
    requires r.e.dual == s.e.dual && r.e.idx == (s.e.idx != s.dual) && r.e.At(!s.e.idx) == s.e.At(!s.e.idx)
    requires r.e.At(s.e.idx).state == if ok then BD_DONE_OK else BD_DONE_ERR
    requires if ok then r.e.At(s.e.idx).len == |p| + 2 && Holds(s, s.e.idx, p) else s.dual ==> !s.e.idx
    ensures Ring(r, if ok then taken + [p] else taken)
  {
    var taken1 := if ok then taken + [p] else taken;
    UsedLengths(s, r, s.mps);
    NewSlot(s, r, taken1, p, ok);
    if s.dual {
      UsedSlot(s, r, taken, taken1, !s.e.idx, s.retired);
    }
    UsedPlaced(s, r);
    UsedCounts(s, r);
  }

  /** The newest descriptor used up. */
  lemma NewSlot(s: D.Out, r: D.Out, taken1: seq<seq<byte>>, p: seq<byte>, ok: bool)
    requires r == s.(e := r.e) && r.e.At(s.e.idx).state == if ok then BD_DONE_OK else BD_DONE_ERR
    requires if ok then taken1 != [] && taken1[|taken1| - 1] == p && r.e.At(s.e.idx).len == |p| + 2
      && Holds(s, s.e.idx, p)
             else !s.e.idx
    ensures Slot(r, taken1, s.e.idx, if ok then |taken1| - 1 else |taken1|)
  {
  }

  /** It is at the retire index if nothing was waiting, and after the other if not. */
  lemma UsedCounts(s: D.Out, r: D.Out)
    requires s.Sane() && s.e.idx == NextUp(s) && s.e.At(s.e.idx) == D.Ready(s) && r == s.(e := r.e)
    requires s.dual && IsDone(s.e.At(!s.retire).state) ==> IsDone(s.e.At(s.retire).state)
    requires r.e.idx == (s.e.idx != s.dual) && r.e.At(!s.e.idx) == s.e.At(!s.e.idx)
    requires IsDone(r.e.At(s.e.idx).state)
    ensures r.e.idx == NextUp(r)
    ensures s.dual && IsDone(r.e.At(!r.retire).state) ==> IsDone(r.e.At(r.retire).state)
    ensures Waiting(r) == Waiting(s) + One(r.e.At(s.e.idx).state == BD_DONE_OK)
    ensures s.e.idx == s.retire ==> Waiting(s) == 0
    ensures s.e.idx != s.retire ==> First(r) == First(s) == Waiting(s)
  {
  }

  lemma UsedPlaced(s: D.Out, r: D.Out)
    requires FillPlaced(s) && r == s.(e := r.e) && r.e.At(!s.e.idx) == s.e.At(!s.e.idx)
    requires s.e.At(s.e.idx).state != BD_NONE && r.e.At(s.e.idx).state != BD_NONE
    ensures FillPlaced(r)
  {
    assert s.e.idx || !s.e.idx;
  }

  /** The ring once the endpoint is written back. */
  lemma SettlePhase(s: D.Out, taken: seq<seq<byte>>, p: seq<byte>, v: Verdict, bytes: nat)
    requires Ring(s, taken) && !s.e.ctrl && (v.outcome.Faulted? && s.dual ==> !s.e.idx)
    requires !v.outcome.Untouched? ==> s.e.At(s.e.idx) == D.Ready(s)
    requires v.outcome.Completed? ==> bytes == |p| + 2 && Holds(s, s.e.idx, p)
    ensures Ring(s.(e := Settled(s.e, false, v, bytes)), if v.outcome.Completed? then taken + [p] else taken)
  {
    if v.outcome.Untouched? {
      assert s.(e := Settled(s.e, false, v, bytes)) == s;
    } else {
      var r := UsedUp(s, v, bytes);
      UsedRing(s, r, taken, p, v.outcome.Completed?);
    }
  }

  lemma SettledStatus(e: EpStatus, v: Verdict, bytes: nat)
    requires v.flips == v.outcome.Completed?
    ensures var r := Settled(e, false, v, bytes);
            r.epType == e.epType && r.ctrl == e.ctrl && r.dt == (e.dt != v.outcome.Completed?)
  {
  }

  /** A transaction keeps the device's part, unless it hits the second descriptor. */
  lemma TokenSound(defs: set<string>, y: Sys, fate: Fate, ackSeen: bool)
    requires Sound(y) && y.acked < |y.plan| && !Hits(defs, y, Event.Token(true, fate, ackSeen))
    ensures Sound(Transact(defs, y, fate, ackSeen))
  {
    var v, open := Decided(defs, y, fate);
    TokenShape(defs, y, fate, ackSeen);
    TokenRing(y, fate, v, open);
    SettledStatus(y.s.e, v, Length(Received(y, fate)));
    Rebuilt(y, Transact(defs, y, fate, ackSeen), Settled(y.s.e, false, v, Length(Received(y, fate))));
  }

  lemma TokenRing(y: Sys, fate: Fate, v: Verdict, open: bool)
    requires Sound(y) && y.acked < |y.plan| && (v.outcome.Faulted? && y.s.dual ==> !y.s.e.idx)
    requires open || !v.outcome.Untouched? ==> y.s.e.At(y.s.e.idx) == D.Ready(y.s)
    requires v.outcome.Completed? ==> open && fate.Intact?
    ensures var e := Settled(y.s.e, false, v, Length(Received(y, fate)));
            Ring(y.s.(mem := Stored(y.s, open, Wire(y, fate)), e := e),
                 if v.outcome.Completed? then y.taken + [y.plan[y.acked]] else y.taken)
  {
    var s := StorePhase(y, fate, open);
    SettlePhase(s, y.taken, y.plan[y.acked], v, Length(Received(y, fate)));
  }

  lemma Rebuilt(y: Sys, y1: Sys, e: EpStatus)
    requires Sound(y) && Shaped(y1) && Ring(y1.s, y1.taken) && e.epType == y.s.e.epType && e.ctrl == y.s.e.ctrl
    requires y1.s == y.s.(mem := y1.s.mem, e := e) && IsPrefix(y.taken, y1.taken)
    ensures Sound(y1)
  {
    BooksStored(y.s, y1.s.mem, e, y.taken, y1.taken);
  }

  /** A transaction leaves device and host as far apart as they were. */
  lemma TokenAhead(defs: set<string>, y: Sys, fate: Fate, ackSeen: bool, off: int)
    requires Sound(y) && y.acked < |y.plan| && Ahead(y, off)
    ensures Ahead(Transact(defs, y, fate, ackSeen), off)
  {
    var v, open := Decided(defs, y, fate);
    SettledStatus(y.s.e, v, Length(Received(y, fate)));
  }

  lemma TokenKeeps(defs: set<string>, y: Sys, fate: Fate, ackSeen: bool)
    requires Inv(y) && y.acked < |y.plan| && !Hits(defs, y, Event.Token(true, fate, ackSeen))
    ensures Inv(Transact(defs, y, fate, ackSeen))
  {
    TokenSound(defs, y, fate, ackSeen);
    TokenAhead(defs, y, fate, ackSeen, 0);
    TokenTakes(defs, y, fate, ackSeen);
    TakenNext(y, Transact(defs, y, fate, ackSeen));
  }

  /** What is taken is the packet that was due. */
  lemma TokenTakes(defs: set<string>, y: Sys, fate: Fate, ackSeen: bool)
    requires Inv(y) && y.acked < |y.plan|
    ensures var r := Transact(defs, y, fate, ackSeen);
            r.plan == y.plan && (r.taken == y.taken || (r.taken == y.taken + [y.plan[y.acked]] && |y.taken| == y.acked))
  {
    var v, open := Decided(defs, y, fate);
  }

  lemma TakenNext(y: Sys, r: Sys)
    requires y.acked < |y.plan| && |y.taken| <= |y.plan| && y.taken == y.plan[..|y.taken|]
    requires r.plan == y.plan
    requires r.taken == y.taken || (r.taken == y.taken + [y.plan[y.acked]] && |y.taken| == y.acked)
    ensures |r.taken| <= |r.plan| && r.taken == r.plan[..|r.taken|]
  {
  }

  // ---- Every event keeps it ------------------------------------------------------------------

  lemma DriverKeeps(y: Sys, s: D.Out)
    requires Sound(y) && Ring(s, y.taken) && Books(s, y.taken) && Driven(y.s, s)
    ensures Sound(y.(s := s)) && s.e.dt == y.s.e.dt
  {
  }

  /** A new transfer, not yet advanced. */
  lemma Started(s: D.Out, taken: seq<seq<byte>>, buf: seq<byte>, len: nat) returns (s1: D.Out)
    requires Ring(s, taken) && Books(s, taken) && !s.busy && len <= |buf|
    ensures s1 == s.(busy := true, x := D.Transfer(buf, len, 0, 0), asked := s.asked + [len])
    ensures Ring(s1, taken) && Books(s1, taken) && Driven(s, s1)
  {
    s1 := s.(busy := true, x := D.Transfer(buf, len, 0, 0), asked := s.asked + [len]);
    StartedRing(s, s1, taken);
    forall i | 0 <= i < |s.cuts| ensures Entry(s1, taken, i) {
      EntryKept(s, s1, taken, taken, i);
    }
    assert taken[s.retired..s.retired] == [];
  }

  lemma StartedRing(s: D.Out, s1: D.Out, taken: seq<seq<byte>>)
    requires Ring(s, taken) && s1 == s.(busy := s1.busy, x := s1.x, asked := s1.asked)
    requires s1.x.ofs <= s1.x.len <= |s1.x.buf|
    ensures Ring(s1, taken)
  {
    SlotKept(s, s1, taken, s.retire, s.retired);
    if s.dual {
      SlotKept(s, s1, taken, !s.retire, s.retired + First(s));
    }
  }

  lemma SubmitKeeps(defs: set<string>, y: Sys, buf: seq<byte>, len: nat)
    requires Sound(y) && Possible(y, Submit(buf, len))
    ensures Sound(Happen(defs, y, Submit(buf, len))) && Happen(defs, y, Submit(buf, len)).s.e.dt == y.s.e.dt
  {
    var s1 := Started(y.s, y.taken, buf, len);
    AdvanceKeeps(s1, y.taken);
    DriverKeeps(y, D.Advance(s1));
  }

  lemma HaltKeeps(defs: set<string>, y: Sys, on: bool)
    requires Sound(y)
    ensures Sound(Happen(defs, y, Halt(on)))
  {
    var s1 := Happen(defs, y, Halt(on)).s;
    HaltRing(y.s, s1, y.taken);
    BooksStored(y.s, y.s.mem, s1.e, y.taken, y.taken);
  }

  lemma HaltRing(s: D.Out, s1: D.Out, taken: seq<seq<byte>>)
    requires Ring(s, taken) && s1 == s.(e := s.e.(epType := s1.e.epType))
    ensures Ring(s1, taken)
  {
    SlotKept(s, s1, taken, s.retire, s.retired);
    if s.dual {
      SlotKept(s, s1, taken, !s.retire, s.retired + First(s));
    }
  }

  lemma EventSound(defs: set<string>, y: Sys, ev: Event)
    requires Sound(y) && Possible(y, ev) && !Hits(defs, y, ev)
    ensures Sound(Happen(defs, y, ev))
    ensures !ev.Token? ==> var r := Happen(defs, y, ev); r == y.(s := r.s) && r.s.e.dt == y.s.e.dt
  {
    match ev
    case Submit(buf, len) => SubmitKeeps(defs, y, buf, len);
    case Poll =>
      AdvanceKeeps(y.s, y.taken);
      DriverKeeps(y, D.Advance(y.s));
    case Token(seen, fate, ackSeen) =>
      if seen {
        TokenSound(defs, y, fate, ackSeen);
      }
    case Halt(on) => HaltKeeps(defs, y, on);
  }

  lemma EventAhead(defs: set<string>, y: Sys, ev: Event, off: int)
    requires Sound(y) && Possible(y, ev) && !Hits(defs, y, ev) && Ahead(y, off)
    ensures Ahead(Happen(defs, y, ev), off)
  {
    EventSound(defs, y, ev);
    if ev.Token? && ev.seen {
      TokenAhead(defs, y, ev.fate, ev.ackSeen, off);
    }
  }

  lemma EventKeeps(defs: set<string>, y: Sys, ev: Event)
    requires Inv(y) && Possible(y, ev) && !Hits(defs, y, ev)
    ensures Inv(Happen(defs, y, ev))
  {
    EventSound(defs, y, ev);
    EventAhead(defs, y, ev, 0);
    if ev.Token? && ev.seen {
      TokenKeeps(defs, y, ev.fate, ev.ackSeen);
    }
  }

  lemma {:induction false} RunKeeps(defs: set<string>, y: Sys, evs: seq<Event>)
    requires Inv(y) && AllPossible(defs, y, evs) && NoHit(defs, y, evs)
    ensures Inv(Run(defs, y, evs))
    decreases |evs|
  {
    if evs != [] {
      HappenShape(defs, y, evs[0]);
      EventKeeps(defs, y, evs[0]);
      RunKeeps(defs, Happen(defs, y, evs[0]), evs[1..]);
    }
  }

  lemma {:induction false} RunAhead(defs: set<string>, y: Sys, evs: seq<Event>, off: int)
    requires Sound(y) && Ahead(y, off) && AllPossible(defs, y, evs) && NoHit(defs, y, evs)
    ensures Sound(Run(defs, y, evs)) && Ahead(Run(defs, y, evs), off)
    decreases |evs|
  {
    if evs != [] {
      HappenShape(defs, y, evs[0]);
      EventSound(defs, y, evs[0]);
      EventAhead(defs, y, evs[0], off);
      RunAhead(defs, Happen(defs, y, evs[0]), evs[1..], off);
    }
  }

  /** An endpoint just opened: its descriptors ready, both toggles at DATA0. */
  predicate Opened(y: Sys) {
    && Shaped(y) && BulkOrInterrupt(y.s.e) && !y.s.busy && !y.s.fill && !y.s.retire && !y.s.e.idx
    && y.s.e.bd0 == D.Ready(y.s) && y.s.e.bd1 == D.Ready(y.s) && !y.s.e.dt && !y.toggle
    && y.s.retired == 0 && y.s.asked == [] && y.s.done == [] && y.s.cuts == []
    && y.taken == [] && y.acked == 0
  }

  lemma OpenedInv(y: Sys)
    requires Opened(y)
    ensures Inv(y)
  {
  }

  /** A finished transfer that asked for enough to hold its packets. */
  predicate FitsAt(s: D.Out, taken: seq<seq<byte>>, i: nat)
    requires i < |s.cuts| == |s.done| <= |s.asked|
  {
    Entry(s, taken, i) && |Flat(taken[Start(s, i)..s.cuts[i]])| <= s.asked[i]
  }

  predicate Fits(s: D.Out, taken: seq<seq<byte>>, n: nat)
    requires n <= |s.cuts| == |s.done| <= |s.asked|
  {
    forall i :: 0 <= i < n ==> FitsAt(s, taken, i)
  }

  lemma {:induction false} DoneIsFlat(s: D.Out, taken: seq<seq<byte>>, n: nat)
    requires n <= |s.cuts| == |s.done| <= |s.asked| && Fits(s, taken, n)
    ensures Start(s, n) <= |taken| && Flat(s.done[..n]) == Flat(taken[..Start(s, n)])
  {
    if n > 0 {
      DoneIsFlat(s, taken, n - 1);
      var a, b := Start(s, n - 1), s.cuts[n - 1];
      assert FitsAt(s, taken, n - 1);
      FlatLast(s.done[..n]);
      assert s.done[..n][..n - 1] == s.done[..n - 1];
      FlatSplit(taken, a, b);
    }
  }

  lemma FlatLast(a: seq<seq<byte>>)
    requires a != []
    ensures Flat(a) == Flat(a[..|a| - 1]) + a[|a| - 1]
  {
    FlatSnoc(a, 0, |a| - 1);
    assert a[0..|a|] == a && a[0..|a| - 1] == a[..|a| - 1];
  }

  lemma FlatSplit(taken: seq<seq<byte>>, a: nat, b: nat)
    requires a <= b <= |taken|
    ensures Flat(taken[..b]) == Flat(taken[..a]) + Flat(taken[a..b])
  {
    FlatAppend(taken[..a], taken[a..b]);
    assert taken[..a] + taken[a..b] == taken[..b];
  }

  /** In every run, whatever is lost or damaged (but for a second descriptor in a build that reports
      errors), the packets taken are the host's, in order, each once: those it saw acknowledged, or
      these and one more whose ACK was lost. Every finished transfer has the data of its own group of
      packets, up to the length it asked for: packets up to the first short one, or to the one that
      makes it full, beginning where the transfer before it ended. If the transfers ask for enough,
      their data are the host's bytes, none missing. */
  lemma TakenOnceInOrder(defs: set<string>, y: Sys, evs: seq<Event>)
    requires Opened(y) && AllPossible(defs, y, evs) && NoHit(defs, y, evs)
    ensures var r := Run(defs, y, evs);
            && r.plan == y.plan && r.acked <= |y.plan|
            && (r.taken == y.plan[..r.acked] || (r.acked < |y.plan| && r.taken == y.plan[..r.acked + 1]))
            && |r.s.done| == |r.s.cuts| <= |r.s.asked|
            && (forall i :: 0 <= i < |r.s.done| ==> Entry(r.s, r.taken, i))
            && (Fits(r.s, r.taken, |r.s.done|) ==> IsPrefix(Flat(r.s.done), Flat(y.plan)))
  {
    var r := Run(defs, y, evs);
    OpenedInv(y);
    RunKeeps(defs, y, evs);
    if Fits(r.s, r.taken, |r.s.done|) {
      var n := |r.s.done|;
      DoneIsFlat(r.s, r.taken, n);
      assert r.s.done[..n] == r.s.done;
      assert r.taken[..Start(r.s, n)] == r.plan[..Start(r.s, n)];
      FlatPrefix(r.taken[..Start(r.s, n)], r.plan);
    }
  }

  /** With no descriptor ready the device takes nothing and touches nothing, and still acknowledges
      a repeat. */
  lemma FlowControl(defs: set<string>, y: Sys, fate: Fate, ackSeen: bool)
    requires Inv(y) && y.acked < |y.plan| && y.s.e.At(y.s.e.idx).state != BD_RDY_DATA
    ensures var r := Transact(defs, y, fate, ackSeen); r.taken == y.taken && r.s == y.s
    ensures y.toggle != y.s.e.dt && fate.Intact? && !y.s.e.epType.t0 && ackSeen ==>
      Transact(defs, y, fate, ackSeen).acked == y.acked + 1
  {
    var v, open := Decided(defs, y, fate);
  }

  /** A transaction that nothing disturbs gets a packet through to a ready descriptor. */
  lemma CleanTransaction(defs: set<string>, y: Sys, crc: seq<byte>)
    requires Inv(y) && y.acked < |y.plan| && !y.s.e.epType.t0
    requires y.toggle == y.s.e.dt ==> y.s.e.At(y.s.e.idx).state == BD_RDY_DATA
    ensures var r := Transact(defs, y, Intact(crc), true); |r.taken| == r.acked == y.acked + 1
  {
    var v, open := Decided(defs, y, Intact(crc));
  }

  // ---- The hardware's part is the microcode's ------------------------------------------------

  /** The endpoint after the protocol has run the transaction's bus traffic is the one of the
      system's step, and what it answers is what the host is given. */
  lemma HardwareAgrees(defs: set<string>, r: Regs, endp: nat, y: Sys, fate: Fate, ackSeen: bool, n: nat, m: nat)
    returns (r1: Regs, v: Verdict)
    requires BulkOrInterrupt(y.s.e) && y.acked < |y.plan|
    requires AtIdle(r) && Fetch(r.ram, EpId(endp, false)) == y.s.e
    ensures var ins := Script(PID_OUT, endp, LookAt(defs, y.s.e, false, PID_OUT), Received(y, fate), n, m);
            Play(defs, Idle, r, ins) == (Idle, r1) && AtIdle(r1)
    ensures Fetch(r1.ram, EpId(endp, false)) == Transact(defs, y, fate, ackSeen).s.e
    ensures v == Verdicts(defs, y, fate)
    ensures r1.outs == r.outs + Shows(v, EpId(endp, false), false, y.s.e.Current(false))
  {
    r1, v := EndpointDecided(defs, r, PID_OUT, endp, y.s.e, Received(y, fate), n, m);
    TransactEp(defs, y, fate, ackSeen, v);
  }

  lemma TransactEp(defs: set<string>, y: Sys, fate: Fate, ackSeen: bool, v: Verdict)
    requires y.acked < |y.plan| && v == Verdicts(defs, y, fate)
    ensures Transact(defs, y, fate, ackSeen).s.e == Settled(y.s.e, false, v, Length(Received(y, fate)))
  {
  }
}
