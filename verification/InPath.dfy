/** IN end to end: driver, hardware and a USB host over a bus that loses and damages packets. The
    host receives the queued packets in order, each once, and the bytes of the transfers with them. */
module InPath {
  import opened Isa
  import opened Engine
  import opened Bytes
  import opened Microcode
  import opened Transactions
  import opened Decision
  import D = InDriver

  // ---- Transfers as packets ------------------------------------------------------------------

  /** The packets of a transfer: full ones and a last one, which an empty transfer has too. */
  function Chunks(b: seq<byte>, mps: nat): seq<seq<byte>>
    requires 0 < mps
  {
    if |b| <= mps then [b] else [b[..mps]] + Chunks(b[mps..], mps)
  }

  function AllChunks(transfers: seq<seq<byte>>, mps: nat): seq<seq<byte>>
    requires 0 < mps
  {
    if transfers == [] then [] else AllChunks(transfers[..|transfers| - 1], mps) + Chunks(transfers[|transfers| - 1],
        mps)
  }

  lemma {:induction false} FlatChunks(b: seq<byte>, mps: nat)
    requires 0 < mps
    ensures Flat(Chunks(b, mps)) == b
  {
    if |b| > mps {
      FlatChunks(b[mps..], mps);
      FlatAppend([b[..mps]], Chunks(b[mps..], mps));
      assert b[..mps] + b[mps..] == b;
    }
  }

  lemma {:induction false} FlatAllChunks(transfers: seq<seq<byte>>, mps: nat)
    requires 0 < mps
    ensures Flat(AllChunks(transfers, mps)) == Flat(transfers)
  {
    if transfers != [] {
      var n := |transfers| - 1;
      FlatAllChunks(transfers[..n], mps);
      FlatChunks(transfers[n], mps);
      FlatAppend(AllChunks(transfers[..n], mps), Chunks(transfers[n], mps));
      FlatAppend(transfers[..n], [transfers[n]]);
      assert transfers[..n] + [transfers[n]] == transfers;
    }
  }

  // ---- The ring of descriptors ---------------------------------------------------------------

  function Size(s: D.In): nat {
    if s.dual then 2 else 1
  }

  /** The descriptor that the k-th packet uses. */
  function Index(s: D.In, k: nat): bool {
    s.dual && k % 2 == 1
  }

  /** Packets up to `hw` are done, those up to the last one queued are ready with their data in the
      buffer, and the rest of the ring is free. */
  predicate Slot(s: D.In, hw: nat, k: nat) {
    var i := Index(s, k);
    var bd := s.e.At(i);
    if k < hw then bd.state == BD_DONE_OK
    else if k < |s.filled| then
      && bd == Bd(BD_RDY_DATA, false, |s.filled[k]|) && |s.filled[k]| <= s.mps
      && s.Ptr(i) + s.mps <= |s.mem| && s.mem[s.Ptr(i)..s.Ptr(i) + |s.filled[k]|] == s.filled[k]
    else bd.state == BD_NONE
  }

  /** A transfer without a buffer is empty. */
  predicate Proper(s: D.In) {
    s.busy && s.x.buf.None? ==> s.x.len == 0
  }

  predicate Ring(s: D.In, hw: nat) {
    && s.Sane() && Proper(s)
    && s.retired <= hw <= |s.filled| <= s.retired + Size(s)
    && s.retire == Index(s, s.retired) && s.fill == Index(s, |s.filled|) && s.e.idx == Index(s, hw)
    && Slot(s, hw, s.retired) && (s.dual ==> Slot(s, hw, s.retired + 1))
  }

  /** What is left of the current transfer. */
  function Rest(s: D.In): seq<byte>
    requires s.Sane()
  {
    if s.x.buf.Some? then s.x.buf.value[s.x.ofs..s.x.len] else []
  }

  function Backlog(s: D.In): seq<seq<byte>>
    requires s.Sane()
  {
    if s.busy then Chunks(Rest(s), s.mps) else []
  }

  lemma RetireOneRing(s: D.In, hw: nat)
    requires Ring(s, hw) && s.retired < hw
    ensures Ring(D.RetireOne(s), hw)
  {
    var r := D.RetireOne(s);
    assert Index(s, s.retired + Size(s)) == Index(s, s.retired);
  }

  /** Retiring catches up with the hardware; there is never an error to retire. */
  lemma {:induction false} RetireRing(s: D.In, hw: nat)
    requires Ring(s, hw)
    ensures Ring(D.Retire(s), hw) && D.Retire(s).retired == hw
    ensures s.e.At(s.retire).state != BD_DONE_ERR
    ensures var r := D.Retire(s); r == s.(e := r.e, retire := r.retire, retired := hw)
    decreases hw - s.retired
  {
    if s.retired < hw {
      RetireOneRing(s, hw);
      RetireRing(D.RetireOne(s), hw);
    }
  }

  /** Loading a packet puts its bytes in its buffer and leaves the other buffer alone. */
  lemma LoadedBuffers(s: D.In, len: nat)
    requires s.Sane() && s.busy && len <= s.mps
    ensures |D.Loaded(s)| == |s.mem| && |D.Piece(s)| == D.Plen(s) <= s.mps
    ensures s.Ptr(s.fill) + s.mps <= |s.mem|
    ensures D.Loaded(s)[s.Ptr(s.fill)..s.Ptr(s.fill) + D.Plen(s)] == D.Piece(s)
    ensures s.dual ==> D.Loaded(s)[s.Ptr(!s.fill)..s.Ptr(!s.fill) + len] == s.mem[s.Ptr(!s.fill)..s.Ptr(!s.fill) + len]
  {
    if s.x.buf.Some? {
      var n := D.Plen(s);
      WordsFit(s, n);
      var src := s.x.buf.value[s.x.ofs..s.x.ofs + Words(n)];
      PatchInside(s.mem, s.Ptr(s.fill), src, n);
      assert src[..n] == D.Piece(s);
      if s.dual {
        PatchOutside(s.mem, s.Ptr(s.fill), src, s.Ptr(!s.fill), len);
      }
    }
  }

  lemma WordsFit(s: D.In, n: nat)
    requires s.Sane() && n <= s.mps
    ensures n <= Words(n) <= s.mps && Words(n) <= n + 3
  {
  }

  lemma FilledFields(s: D.In) returns (r: D.In)
    requires s.Sane() && s.busy
    ensures r == D.FillOne(s) && r.Sane()
    ensures r.e == s.e.With(s.fill, Bd(BD_RDY_DATA, false, D.Plen(s))) && r.e.idx == s.e.idx && r.mem == D.Loaded(s)
    ensures r.ptr0 == s.ptr0 && r.ptr1 == s.ptr1 && r.mps == s.mps && r.dual == s.dual
    ensures Proper(s) ==> Proper(r)
    ensures r.filled == s.filled + [D.Piece(s)] && r.retired == s.retired && r.retire == s.retire
    ensures r.fill == (s.fill != s.dual)
  {
    r := D.FillOne(s);
    D.FillOneSane(s);
  }

  lemma SlotNew(s: D.In, r: D.In, hw: nat)
    requires s.Sane() && s.busy && r == D.FillOne(s) && hw <= |s.filled| && s.fill == Index(s, |s.filled|)
    ensures Slot(r, hw, |s.filled|)
  {
    var q := FilledFields(s);
    LoadedBuffers(s, 0);
  }

  lemma SlotKept(s: D.In, r: D.In, hw: nat, k: nat)
    requires s.Sane() && s.busy && r == D.FillOne(s) && hw <= |s.filled|
    requires s.dual && Slot(s, hw, k) && k != |s.filled| && Index(s, k) != s.fill
    ensures Slot(r, hw, k)
  {
    var q := FilledFields(s);
    hide D.FillOne, D.Loaded, D.Plen;
    if hw <= k < |s.filled| {
      LoadedBuffers(s, |s.filled[k]|);
    }
  }

  lemma NextIndex(s: D.In, k: nat)
    ensures Index(s, k + 1) == (Index(s, k) != s.dual)
  {
  }

  lemma FillOneRing(s: D.In, hw: nat)
    requires Ring(s, hw) && s.busy && |s.filled| < s.retired + Size(s)
    ensures Ring(D.FillOne(s), hw)
  {
    var r := FilledFields(s);
    SlotNew(s, r, hw);
    NextIndex(s, |s.filled|);
    if s.dual {
      BothSlots(s, r, hw);
    }
    FilledRing(s, r, hw);
  }

  lemma FilledRing(s: D.In, r: D.In, hw: nat)
    requires Ring(s, hw) && |s.filled| < s.retired + Size(s)
    requires r.Sane() && Proper(r) && r.dual == s.dual && |r.filled| == |s.filled| + 1 && r.retired == s.retired
      && r.retire == s.retire
    requires r.fill == Index(s, |s.filled| + 1) && r.e.idx == s.e.idx
    requires Slot(r, hw, |s.filled|) && (s.dual ==> Slot(r, hw, s.retired) && Slot(r, hw, s.retired + 1))
    ensures Ring(r, hw)
  {
  }

  lemma BothSlots(s: D.In, r: D.In, hw: nat)
    requires Ring(s, hw) && s.busy && s.dual && |s.filled| < s.retired + 2 && r == D.FillOne(s)
      && Slot(r, hw, |s.filled|)
    ensures Slot(r, hw, s.retired) && Slot(r, hw, s.retired + 1)
  {
    SlotKept(s, r, hw, if |s.filled| == s.retired then s.retired + 1 else s.retired);
  }

  /** The descriptor at the fill index is free if and only if the ring is not full. */
  lemma FreeOrFull(s: D.In, hw: nat)
    requires Ring(s, hw)
    ensures s.e.At(s.fill).state == BD_NONE <==> |s.filled| < s.retired + Size(s)
  {
    if |s.filled| < s.retired + Size(s) {
      assert Slot(s, hw, |s.filled|);
    } else {
      assert Index(s, s.retired + Size(s)) == Index(s, s.retired) && Slot(s, hw, s.retired);
    }
  }

  /** What is filled and what is left make up the transfer. */
  lemma FillOneConserves(s: D.In)
    requires s.Sane() && Proper(s) && s.busy
    ensures D.FillOne(s).Sane()
    ensures D.FillOne(s).filled + Backlog(D.FillOne(s)) == s.filled + Backlog(s)
  {
    var r := FilledFields(s);
    var piece := D.Piece(s);
    RestCut(s, r);
    assert Chunks(Rest(s), s.mps) == [piece] + Backlog(r);
    assert s.filled + [piece] + Backlog(r) == s.filled + ([piece] + Backlog(r));
  }

  /** The piece is what the rest of the transfer begins with, and its last one ends it. */
  lemma RestCut(s: D.In, r: D.In)
    requires s.Sane() && Proper(s) && s.busy && r == D.FillOne(s) && r.Sane()
    ensures if r.busy then s.mps < |Rest(s)| && D.Piece(s) == Rest(s)[..s.mps] && Rest(r) == Rest(s)[s.mps..]
            else |Rest(s)| <= s.mps && D.Piece(s) == Rest(s)
  {
    if r.busy {
      assert Rest(s)[..s.mps] == D.Piece(s) && Rest(s)[s.mps..] == Rest(r);
    } else {
      assert Rest(s) == D.Piece(s);
    }
  }

  predicate Extends(s: D.In, r: D.In) {
    && |s.filled| <= |r.filled| && r.filled[..|s.filled|] == s.filled
    && r.retired == s.retired && r.mps == s.mps && r.dual == s.dual && Hardware(s, r)
  }

  lemma ExtendsTrans(a: D.In, b: D.In, c: D.In)
    requires Extends(a, b) && Extends(b, c)
    ensures Extends(a, c)
  {
    assert c.filled[..|a.filled|] == c.filled[..|b.filled|][..|a.filled|];
  }

  lemma FillOneExtends(s: D.In)
    requires s.Sane() && s.busy
    ensures Extends(s, D.FillOne(s))
  {
    var r := FilledFields(s);
    WithStatus(s.e, s.fill, Bd(BD_RDY_DATA, false, D.Plen(s)));
  }

  /** Filling keeps the ring and loses nothing of the transfer. */
  lemma {:induction false} FillRing(s: D.In, hw: nat)
    requires Ring(s, hw)
    ensures var r := D.Fill(s);
            && Ring(r, hw) && Extends(s, r) && r.filled + Backlog(r) == s.filled + Backlog(s)
            && (r.busy ==> |r.filled| == r.retired + Size(r))
    decreases s.retired + Size(s) - |s.filled|
  {
    FreeOrFull(s, hw);
    if s.busy && s.e.At(s.fill).state == BD_NONE {
      var r := FilledFields(s);
      FillOneRing(s, hw);
      FillOneConserves(s);
      FillOneExtends(s);
      FillRing(r, hw);
      ExtendsTrans(s, r, D.Fill(r));
    }
  }

  /** The driver leaves the endpoint's status word alone. */
  predicate Hardware(s: D.In, r: D.In) {
    r.e == s.e.(bd0 := r.e.bd0, bd1 := r.e.bd1)
  }

  // ---- Driver, hardware, bus and host --------------------------------------------------------

  /** The driver's state with the hardware's registers; how many packets the hardware has had
      acknowledged; the host's next data toggle and the packets it accepted; and the transfers. */
  datatype Sys = Sys(s: D.In, hw: nat, expects: bool, got: seq<seq<byte>>, sent: seq<seq<byte>>)

  /** What can happen: the driver is called, to start a transfer or by an interrupt; the host sends
      an IN token, which the device may not see, the device's packet may not reach the host, and
      the device receives something or nothing; the driver halts the endpoint or resumes it. */
  datatype Event =
    | Submit(buf: Option<seq<byte>>, len: nat)
    | Poll
    | Token(seen: bool, data: bool, rx: Reception)
    | Halt(on: bool)

  /** Transfers follow one another; the host acknowledges only data that reached it. */
  predicate Possible(y: Sys, ev: Event) {
    match ev
    case Submit(buf, len) => !y.s.busy && (if buf.Some? then len + 3 <= |buf.value| else len == 0)
    case Token(_, data, rx) => rx.Good? && rx.pid == PID_ACK ==> data
    case _ => true
  }

  /** The data a device sends in answer: the bytes at the current descriptor's buffer. */
  function Payload(s: D.In, len: nat): seq<byte> {
    var at := s.Ptr(s.e.Current(false));
    if at + len <= |s.mem| then s.mem[at..at + len] else []
  }

  /** One IN transaction: the device decides as its microcode does, and the host, as USB 2.0
      section 8.6 asks, takes the data if its toggle is the one due, and acknowledges it anyway. */
  function Transact(defs: set<string>, y: Sys, data: bool, rx: Reception): Sys {
    var v := DecideIn(LookAt(defs, y.s.e, false, PID_IN), rx);
    var y1 := y.(s := y.s.(e := Settled(y.s.e, false, v, Length(rx))),
                 hw := y.hw + if v.outcome.Completed? then 1 else 0);
    if v.response.DataPacket? && data && v.response.dt == y.expects
    then y1.(expects := !y.expects, got := y.got + [Payload(y.s, v.response.len)])
    else y1
  }

  function Happen(defs: set<string>, y: Sys, ev: Event): Sys
    requires y.s.Sane() && Possible(y, ev)
  {
    match ev
    case Submit(buf, len) =>
      y.(s := D.Submit(y.s, buf, len), sent := y.sent + [if buf.Some? then buf.value[..len] else []])
    case Poll => y.(s := D.Advance(y.s))
    case Token(seen, data, rx) => if seen then Transact(defs, y, data, rx) else y
    case Halt(on) => y.(s := D.Halted(y.s, on))
  }

  /** Packets the host has accepted against packets the device has had acknowledged: as many, or one
      more if its ACK was lost; and `off` more than that. */
  predicate Ahead(y: Sys, off: int) {
    |y.got| == y.hw + (if y.expects == y.s.e.dt then 0 else 1) + off
  }

  /** The device's own part. */
  predicate Sound(y: Sys) {
    && Ring(y.s, y.hw) && BulkOrInterrupt(y.s.e)
    && y.s.filled + Backlog(y.s) == AllChunks(y.sent, y.s.mps)
    && (y.s.busy ==> |y.s.filled| == y.s.retired + Size(y.s))
  }

  predicate Inv(y: Sys) {
    Sound(y) && Ahead(y, 0) && |y.got| <= |y.s.filled| && y.got == y.s.filled[..|y.got|]
  }

  // ---- Every event keeps it ------------------------------------------------------------------

  /** Retiring and filling, from a ring whose transfer may have just been submitted. */
  lemma AdvanceRing(s: D.In, hw: nat)
    requires Ring(s, hw)
    ensures var r := D.Advance(s);
            && Ring(r, hw) && Hardware(s, r) && r.mps == s.mps && r.dual == s.dual
            && |s.filled| <= |r.filled| && r.filled[..|s.filled|] == s.filled
            && r.filled + Backlog(r) == s.filled + Backlog(s) && r.retired == hw
            && (r.busy ==> |r.filled| == r.retired + Size(r))
  {
    var s1 := D.Retire(s);
    RetireRing(s, hw);
    D.RetireSane(s);
    RetireStatus(s);
    FillRing(s1, hw);
    assert s1.filled == s.filled && Backlog(s1) == Backlog(s);
  }

  /** A call of the driver leaves nothing undone: every packet the hardware has had acknowledged is
      retired, no descriptor stays done, and a transfer that is not finished has filled the ring. */
  lemma AdvanceCatchesUp(s: D.In, hw: nat)
    requires Ring(s, hw)
    ensures var r := D.Advance(s);
            && r.retired == hw && !IsDone(r.e.bd0.state) && (r.dual ==> !IsDone(r.e.bd1.state))
            && (r.busy ==> |r.filled| == hw + Size(r))
            && (!r.busy ==> r.filled == s.filled + Backlog(s))
  {
    AdvanceRing(s, hw);
    NoneDone(D.Advance(s), hw);
  }

  lemma NoneDone(r: D.In, hw: nat)
    requires Ring(r, hw) && r.retired == hw
    ensures !IsDone(r.e.bd0.state) && (r.dual ==> !IsDone(r.e.bd1.state))
  {
    assert Slot(r, hw, hw) && (r.dual ==> Slot(r, hw, hw + 1));
  }

  lemma {:induction false} RetireStatus(s: D.In)
    ensures Hardware(s, D.Retire(s))
    decreases D.Count(s.e, IsDone)
  {
    if IsDone(s.e.At(s.retire).state) {
      WithStatus(s.e, s.retire, NO_BD);
      RetireStatus(D.RetireOne(s));
    }
  }

  /** The packets queued are a beginning of those queued later. */
  predicate Longer(y: Sys, r: Sys) {
    && |y.s.filled| <= |r.s.filled| && r.s.filled[..|y.s.filled|] == y.s.filled
    && r.s.mps == y.s.mps && r.s.e.dt == y.s.e.dt
  }

  /** The driver adds to what is queued, and touches nothing the host or hardware have seen. */
  lemma Advanced(y: Sys, r: D.In, sent: seq<seq<byte>>)
    requires Sound(y) && Ring(r, y.hw) && Hardware(y.s, r) && r.mps == y.s.mps
    requires |y.s.filled| <= |r.filled| && r.filled[..|y.s.filled|] == y.s.filled
    requires r.filled + Backlog(r) == AllChunks(sent, r.mps) && (r.busy ==> |r.filled| == r.retired + Size(r))
    ensures Sound(y.(s := r, sent := sent)) && Longer(y, y.(s := r, sent := sent))
  {
  }

  lemma PollKeeps(defs: set<string>, y: Sys)
    requires Sound(y)
    ensures Sound(Happen(defs, y, Poll)) && Longer(y, Happen(defs, y, Poll))
  {
    AdvanceRing(y.s, y.hw);
    Advanced(y, D.Advance(y.s), y.sent);
  }

  /** A new transfer, not yet advanced. */
  lemma Started(s: D.In, hw: nat, buf: Option<seq<byte>>, len: nat) returns (s1: D.In)
    requires Ring(s, hw) && (if buf.Some? then len + 3 <= |buf.value| else len == 0)
    ensures s1 == s.(busy := true, x := D.Transfer(buf, len, 0, 0))
    ensures Ring(s1, hw) && Rest(s1) == (if buf.Some? then buf.value[..len] else [])
  {
    s1 := s.(busy := true, x := D.Transfer(buf, len, 0, 0));
    SlotTransfer(s, s1, hw, s.retired);
    if s.dual {
      SlotTransfer(s, s1, hw, s.retired + 1);
    }
  }

  lemma SlotTransfer(s: D.In, s1: D.In, hw: nat, k: nat)
    requires Slot(s, hw, k) && s1 == s.(busy := s1.busy, x := s1.x)
    ensures Slot(s1, hw, k)
  {
  }

  lemma AllChunksSnoc(sent: seq<seq<byte>>, b: seq<byte>, mps: nat)
    requires 0 < mps
    ensures AllChunks(sent + [b], mps) == AllChunks(sent, mps) + Chunks(b, mps)
  {
    assert (sent + [b])[..|sent|] == sent;
  }

  lemma SubmitKeeps(defs: set<string>, y: Sys, buf: Option<seq<byte>>, len: nat)
    requires Sound(y) && Possible(y, Submit(buf, len))
    ensures Sound(Happen(defs, y, Submit(buf, len))) && Longer(y, Happen(defs, y, Submit(buf, len)))
  {
    var s1 := Started(y.s, y.hw, buf, len);
    AdvanceRing(s1, y.hw);
    AllChunksSnoc(y.sent, Rest(s1), y.s.mps);
    SubmitFields(defs, y, buf, len, s1);
    assert y.s.filled + Backlog(y.s) == y.s.filled;
    Advanced(y, D.Advance(s1), y.sent + [Rest(s1)]);
  }

  lemma SubmitFields(defs: set<string>, y: Sys, buf: Option<seq<byte>>, len: nat, s1: D.In)
    requires y.s.Sane() && s1.Sane() && Possible(y, Submit(buf, len))
    requires s1 == y.s.(busy := true, x := D.Transfer(buf, len, 0, 0))
    ensures var y1 := Happen(defs, y, Submit(buf, len));
            y1 == y.(s := D.Advance(s1), sent := y.sent + [if buf.Some? then buf.value[..len] else []])
  {
  }

  /** What the device decides, from the descriptor the next unacknowledged packet is in. */
  lemma Decided(defs: set<string>, y: Sys, rx: Reception) returns (v: Verdict)
    requires Ring(y.s, y.hw) && BulkOrInterrupt(y.s.e)
    ensures v == DecideIn(LookAt(defs, y.s.e, false, PID_IN), rx)
    ensures v.outcome.Untouched? || v.outcome.Completed?
    ensures v.response.DataPacket? <==> !y.s.e.epType.t0 && y.hw < |y.s.filled|
    ensures v.response.DataPacket? ==>
      && v.response.dt == y.s.e.dt && v.response.len == |y.s.filled[y.hw]|
      && Payload(y.s, v.response.len) == y.s.filled[y.hw]
    ensures v.outcome.Completed? <==> v.response.DataPacket? && rx.Good? && rx.pid == PID_ACK
    ensures v.flips == v.outcome.Completed?
  {
    v := DecideIn(LookAt(defs, y.s.e, false, PID_IN), rx);
    Current(y.s, y.hw);
    if y.hw < |y.s.filled| {
      CurrentPacket(y.s, y.hw);
    }
  }

  lemma CurrentPacket(s: D.In, hw: nat)
    requires s.Sane() && s.e.Current(false) == Index(s, hw) && hw < |s.filled| && Slot(s, hw, hw)
    ensures s.e.At(s.e.Current(false)) == Bd(BD_RDY_DATA, false, |s.filled[hw]|) && |s.filled[hw]| < 1024
    ensures Payload(s, |s.filled[hw]|) == s.filled[hw]
  {
  }

  /** The hardware's descriptor is the ring's slot for packet `hw`, if it is queued, or not ready. */
  lemma Current(s: D.In, hw: nat)
    requires Ring(s, hw) && !s.e.ctrl
    ensures s.e.Current(false) == Index(s, hw)
    ensures hw < |s.filled| ==> Slot(s, hw, hw)
    ensures hw == |s.filled| ==> s.e.At(s.e.idx).state == BD_NONE || s.e.At(s.e.idx).state == BD_DONE_OK
  {
    if hw == |s.filled| && hw == s.retired + Size(s) {
      assert Index(s, hw) == Index(s, s.retired);
    } else {
      assert Slot(s, hw, hw);
    }
  }

  lemma SettledRing(s: D.In, hw: nat, v: Verdict, bytes: nat)
    requires Ring(s, hw) && !s.e.ctrl && hw < |s.filled| && v.outcome.Completed?
    ensures Ring(s.(e := Settled(s.e, false, v, bytes)), hw + 1)
  {
    Current(s, hw);
    var r := SettledFields(s, v, bytes);
    NextIndex(s, hw);
    SettledSlot(s, r, hw, s.retired);
    if s.dual {
      SettledSlot(s, r, hw, s.retired + 1);
    }
  }

  lemma SettledFields(s: D.In, v: Verdict, bytes: nat) returns (r: D.In)
    requires s.Sane() && !s.e.ctrl && v.outcome.Completed?
    ensures r == s.(e := Settled(s.e, false, v, bytes)) && r.e.dual == s.e.dual && r.e.idx == (s.e.idx != s.dual)
    ensures r.e.At(s.e.idx).state == BD_DONE_OK && r.e.At(!s.e.idx) == s.e.At(!s.e.idx)
  {
    r := s.(e := Settled(s.e, false, v, bytes));
  }

  lemma SettledSlot(s: D.In, r: D.In, hw: nat, k: nat)
    requires Slot(s, hw, k) && r == s.(e := r.e) && r.e.At(s.e.idx).state == BD_DONE_OK
    requires r.e.At(!s.e.idx) == s.e.At(!s.e.idx) && s.e.idx == Index(s, hw)
    requires k == hw || Index(s, k) != Index(s, hw)
    ensures Slot(r, hw + 1, k)
  {
  }

  /** One transaction, as the host and the device see it. */
  lemma TokenFields(defs: set<string>, y: Sys, data: bool, rx: Reception) returns (y1: Sys, v: Verdict)
    requires Ring(y.s, y.hw) && BulkOrInterrupt(y.s.e)
    ensures y1 == Transact(defs, y, data, rx) && v == DecideIn(LookAt(defs, y.s.e, false, PID_IN), rx)
    ensures v.outcome.Untouched? || v.outcome.Completed?
    ensures v.outcome.Completed? <==> v.response.DataPacket? && rx.Good? && rx.pid == PID_ACK
    ensures v.response.DataPacket? ==> y.hw < |y.s.filled| && v.response.dt == y.s.e.dt
    ensures y1.s == y.s.(e := Settled(y.s.e, false, v, Length(rx))) && y1.sent == y.sent
    ensures y1.hw == y.hw + (if v.outcome.Completed? then 1 else 0)
    ensures y1.s.e.dt == (y.s.e.dt != v.outcome.Completed?)
    ensures y1.s.e.epType == y.s.e.epType && y1.s.e.ctrl == y.s.e.ctrl
    ensures var news := v.response.DataPacket? && data && v.response.dt == y.expects;
            y1.expects == (y.expects != news) && y1.got == if news then y.got + [y.s.filled[y.hw]] else y.got
  {
    v := Decided(defs, y, rx);
    y1 := Transact(defs, y, data, rx);
    SettledStatus(y.s.e, v, Length(rx));
  }

  lemma SettledStatus(e: EpStatus, v: Verdict, bytes: nat)
    requires !v.outcome.Faulted? && v.flips == v.outcome.Completed?
    ensures var r := Settled(e, false, v, bytes);
            && r.epType == e.epType && r.ctrl == e.ctrl && r.dt == (e.dt != v.outcome.Completed?)
            && (v.outcome.Untouched? ==> r == e)
  {
  }

  lemma TokenSound(defs: set<string>, y: Sys, data: bool, rx: Reception)
    requires Sound(y)
    ensures Sound(Transact(defs, y, data, rx))
  {
    var e := TokenRing(defs, y, data, rx);
    Transacted(y, Transact(defs, y, data, rx), e);
  }

  lemma TokenRing(defs: set<string>, y: Sys, data: bool, rx: Reception) returns (e: EpStatus)
    requires Ring(y.s, y.hw) && BulkOrInterrupt(y.s.e)
    ensures e.epType == y.s.e.epType && e.ctrl == y.s.e.ctrl
    ensures var y1 := Transact(defs, y, data, rx); y1.s == y.s.(e := e) && Ring(y1.s, y1.hw) && y1.sent == y.sent
  {
    hide Ring;
    var y1, v := TokenFields(defs, y, data, rx);
    e := Settled(y.s.e, false, v, Length(rx));
    if v.outcome.Completed? {
      SettledRing(y.s, y.hw, v, Length(rx));
    } else {
      assert y1.s == y.s;
    }
  }

  /** A transaction changes only the endpoint's registers, on the device's side. */
  lemma Transacted(y: Sys, y1: Sys, e: EpStatus)
    requires Sound(y) && y1.s == y.s.(e := e) && y1.sent == y.sent && Ring(y1.s, y1.hw)
    requires e.epType == y.s.e.epType && e.ctrl == y.s.e.ctrl
    ensures Sound(y1)
  {
    assert Backlog(y1.s) == Backlog(y.s);
  }

  /** A transaction leaves device and host as far apart as they were. */
  lemma TokenAhead(defs: set<string>, y: Sys, data: bool, rx: Reception, off: int)
    requires Sound(y) && Possible(y, Event.Token(true, data, rx)) && Ahead(y, off)
    ensures Ahead(Transact(defs, y, data, rx), off)
  {
    var y1, v := TokenFields(defs, y, data, rx);
  }

  lemma TokenKeeps(defs: set<string>, y: Sys, data: bool, rx: Reception)
    requires Inv(y) && Possible(y, Event.Token(true, data, rx))
    ensures Inv(Transact(defs, y, data, rx))
  {
    TokenSound(defs, y, data, rx);
    TokenAhead(defs, y, data, rx, 0);
    TokenGives(defs, y, data, rx);
    GotNext(y, Transact(defs, y, data, rx));
  }

  /** What the host takes is the packet that is due. */
  lemma TokenGives(defs: set<string>, y: Sys, data: bool, rx: Reception)
    requires Ring(y.s, y.hw) && BulkOrInterrupt(y.s.e) && Ahead(y, 0)
    ensures var r := Transact(defs, y, data, rx);
            && r.s.filled == y.s.filled
            && (r.got == y.got || (y.hw < |y.s.filled| && r.got == y.got + [y.s.filled[y.hw]] && |y.got| == y.hw))
  {
    var y1, v := TokenFields(defs, y, data, rx);
  }

  lemma GotNext(y: Sys, r: Sys)
    requires |y.got| <= |y.s.filled| && y.got == y.s.filled[..|y.got|] && r.s.filled == y.s.filled
    requires r.got == y.got || (y.hw < |y.s.filled| && r.got == y.got + [y.s.filled[y.hw]] && |y.got| == y.hw)
    ensures |r.got| <= |r.s.filled| && r.got == r.s.filled[..|r.got|]
  {
  }

  lemma HaltKeeps(defs: set<string>, y: Sys, on: bool)
    requires Sound(y)
    ensures Sound(Happen(defs, y, Halt(on))) && Longer(y, Happen(defs, y, Halt(on)))
  {
    HaltedRing(y.s, y.hw, on);
    assert Backlog(Happen(defs, y, Halt(on)).s) == Backlog(y.s);
  }

  lemma HaltedRing(s: D.In, hw: nat, on: bool)
    requires Ring(s, hw)
    ensures Ring(s.(e := s.e.(epType := s.e.epType.(t0 := on))), hw)
  {
    var e := s.e.(epType := s.e.epType.(t0 := on));
    SlotSame(s, e, hw, s.retired);
    if s.dual {
      SlotSame(s, e, hw, s.retired + 1);
    }
  }

  lemma SlotSame(s: D.In, e: EpStatus, hw: nat, k: nat)
    requires Slot(s, hw, k) && e.At(Index(s, k)) == s.e.At(Index(s, k))
    ensures Slot(s.(e := e), hw, k)
  {
  }

  lemma EventSound(defs: set<string>, y: Sys, ev: Event)
    requires Sound(y) && Possible(y, ev)
    ensures Sound(Happen(defs, y, ev)) && Happen(defs, y, ev).s.mps == y.s.mps
    ensures !ev.Token? ==> Longer(y, Happen(defs, y, ev))
  {
    hide Ring, AllChunks, Backlog, BulkOrInterrupt, LookAt, DecideIn, Settled;
    match ev
    case Submit(buf, len) => SubmitKeeps(defs, y, buf, len);
    case Poll => PollKeeps(defs, y);
    case Token(seen, data, rx) =>
      if seen {
        TokenSound(defs, y, data, rx);
      }
    case Halt(on) => HaltKeeps(defs, y, on);
  }

  /** What is not a transaction leaves the host alone. */
  lemma HostWaits(defs: set<string>, y: Sys, ev: Event)
    requires Sound(y) && Possible(y, ev) && (ev.Token? ==> !ev.seen)
    ensures var r := Happen(defs, y, ev); r.hw == y.hw && r.expects == y.expects && r.got == y.got
  {
  }

  lemma EventAhead(defs: set<string>, y: Sys, ev: Event, off: int)
    requires Sound(y) && Possible(y, ev) && Ahead(y, off)
    ensures Ahead(Happen(defs, y, ev), off)
  {
    EventSound(defs, y, ev);
    if ev.Token? && ev.seen {
      TokenAhead(defs, y, ev.data, ev.rx, off);
    } else {
      HostWaits(defs, y, ev);
    }
  }

  lemma EventKeeps(defs: set<string>, y: Sys, ev: Event)
    requires Inv(y) && Possible(y, ev)
    ensures Inv(Happen(defs, y, ev))
  {
    EventSound(defs, y, ev);
    EventAhead(defs, y, ev, 0);
    if ev.Token? && ev.seen {
      TokenKeeps(defs, y, ev.data, ev.rx);
    } else {
      HostWaits(defs, y, ev);
      StillPrefix(y, Happen(defs, y, ev));
    }
  }

  lemma StillPrefix(y: Sys, r: Sys)
    requires |y.got| <= |y.s.filled| && y.got == y.s.filled[..|y.got|] && r.got == y.got && (Longer(y, r) || r == y)
    ensures |r.got| <= |r.s.filled| && r.got == r.s.filled[..|r.got|]
  {
    if Longer(y, r) {
      assert r.s.filled[..|y.got|] == r.s.filled[..|y.s.filled|][..|y.got|];
    }
  }

  // ---- Whole runs ----------------------------------------------------------------------------

  predicate AllPossible(defs: set<string>, y: Sys, evs: seq<Event>)
    requires Sound(y)
    decreases |evs|
  {
    evs != [] ==>
      && Possible(y, evs[0])
      && (EventSound(defs, y, evs[0]); AllPossible(defs, Happen(defs, y, evs[0]), evs[1..]))
  }

  function Run(defs: set<string>, y: Sys, evs: seq<Event>): (r: Sys)
    requires Sound(y) && AllPossible(defs, y, evs)
    ensures Sound(r) && r.s.mps == y.s.mps
    decreases |evs|
  {
    if evs == [] then y else
      EventSound(defs, y, evs[0]);
      Run(defs, Happen(defs, y, evs[0]), evs[1..])
  }

  lemma {:induction false} RunKeeps(defs: set<string>, y: Sys, evs: seq<Event>)
    requires Inv(y) && AllPossible(defs, y, evs)
    ensures Inv(Run(defs, y, evs))
    decreases |evs|
  {
    if evs != [] {
      EventSound(defs, y, evs[0]);
      EventKeeps(defs, y, evs[0]);
      RunKeeps(defs, Happen(defs, y, evs[0]), evs[1..]);
    }
  }

  lemma {:induction false} RunAhead(defs: set<string>, y: Sys, evs: seq<Event>, off: int)
    requires Sound(y) && Ahead(y, off) && AllPossible(defs, y, evs)
    ensures Ahead(Run(defs, y, evs), off)
    decreases |evs|
  {
    if evs != [] {
      EventSound(defs, y, evs[0]);
      EventAhead(defs, y, evs[0], off);
      RunAhead(defs, Happen(defs, y, evs[0]), evs[1..], off);
    }
  }

  /** An endpoint just opened: nothing queued, both toggles at DATA0. */
  predicate Opened(y: Sys) {
    && y.s.Sane() && BulkOrInterrupt(y.s.e) && !y.s.busy && !y.s.fill && !y.s.retire && !y.s.e.idx
    && y.s.e.bd0 == NO_BD && y.s.e.bd1 == NO_BD && !y.s.e.dt && !y.expects
    && y.s.filled == [] && y.s.retired == 0 && y.s.log == [] && y.hw == 0 && y.got == [] && y.sent == []
  }

  lemma OpenedInv(y: Sys)
    requires Opened(y)
    ensures Inv(y)
  {
  }

  /** The host has the first packets of the transfers, and their bytes; all of them if the driver is
      idle and the hardware has nothing left. */
  predicate Delivered(r: Sys)
    requires Sound(r)
  {
    && IsPrefix(r.got, AllChunks(r.sent, r.s.mps)) && IsPrefix(Flat(r.got), Flat(r.sent))
    && (!r.s.busy && r.hw == |r.s.filled| ==> r.got == AllChunks(r.sent, r.s.mps) && Flat(r.got) == Flat(r.sent))
  }

  lemma InvDelivers(r: Sys)
    requires Inv(r)
    ensures Delivered(r)
  {
    assert r.s.filled[..|r.got|] == (r.s.filled + Backlog(r.s))[..|r.got|];
    FlatPrefix(r.got, AllChunks(r.sent, r.s.mps));
    FlatAllChunks(r.sent, r.s.mps);
    if !r.s.busy && r.hw == |r.s.filled| {
      assert r.got == r.s.filled && r.s.filled + Backlog(r.s) == r.s.filled;
    }
  }

  /** In every run, whatever is lost or damaged, the packets the host has accepted are the first
      packets of the transfers, and their bytes the transfers' first bytes: nothing is lost,
      repeated or out of order. When the driver is idle and the hardware has nothing left, the
      host has it all. */
  lemma DeliveredInOrder(defs: set<string>, y: Sys, evs: seq<Event>)
    requires Opened(y) && Inv(y) && AllPossible(defs, y, evs)
    ensures var r := Run(defs, y, evs);
            && IsPrefix(r.got, AllChunks(r.sent, y.s.mps))
            && IsPrefix(Flat(r.got), Flat(r.sent))
            && (!r.s.busy && r.hw == |r.s.filled| ==> Flat(r.got) == Flat(r.sent))
  {
    RunKeeps(defs, y, evs);
    InvDelivers(Run(defs, y, evs));
  }

  /** A transaction that nothing disturbs gets the next packet through. */
  lemma CleanTransaction(defs: set<string>, y: Sys)
    requires Inv(y) && !y.s.e.epType.t0 && y.hw < |y.s.filled|
    ensures var r := Transact(defs, y, true, Good(PID_ACK, 0));
            r.hw == y.hw + 1 && |r.got| == y.hw + 1 && r.expects == r.s.e.dt
  {
    var y1, v := TokenFields(defs, y, true, Good(PID_ACK, 0));
  }

  // ---- What is reported ------------------------------------------------------------------------

  /** Every transfer but the current one has been reported, once and in turn, with its length. */
  predicate Reported(s: D.In, sent: seq<seq<byte>>) {
    && |sent| == |s.log| + (if s.busy then 1 else 0)
    && (forall i :: 0 <= i < |s.log| ==> s.log[i] == |sent[i]|)
    && (s.busy ==> s.x.len == |sent[|sent| - 1]|)
  }

  lemma {:induction false} FillReports(s: D.In, sent: seq<seq<byte>>)
    requires s.Sane() && Reported(s, sent)
    ensures Reported(D.Fill(s), sent)
    decreases D.Count(s.e, D.IsFree)
  {
    if s.busy && D.IsFree(s.e.At(s.fill).state) {
      D.FillOneSane(s);
      D.FillOneCounts(s);
      FillReports(D.FillOne(s), sent);
    }
  }

  lemma AdvanceReports(s: D.In, hw: nat, sent: seq<seq<byte>>)
    requires Ring(s, hw) && Reported(s, sent)
    ensures Reported(D.Advance(s), sent)
  {
    RetireRing(s, hw);
    D.RetireSane(s);
    FillReports(D.Retire(s), sent);
  }

  lemma EventReports(defs: set<string>, y: Sys, ev: Event)
    requires Sound(y) && Possible(y, ev) && Reported(y.s, y.sent)
    ensures Reported(Happen(defs, y, ev).s, Happen(defs, y, ev).sent)
  {
    hide Slot, AllChunks, Chunks, BulkOrInterrupt, LookAt, DecideIn, Settled;
    match ev
    case Submit(buf, len) =>
      var s1 := Started(y.s, y.hw, buf, len);
      AdvanceReports(s1, y.hw, y.sent + [Rest(s1)]);
    case Poll => AdvanceReports(y.s, y.hw, y.sent);
    case Token(seen, data, rx) =>
    case Halt(on) =>
  }

  /** In every run each transfer is reported once, in turn and with its length, as soon as its last packet
      is queued. */
  lemma {:induction false} RunReports(defs: set<string>, y: Sys, evs: seq<Event>)
    requires Sound(y) && AllPossible(defs, y, evs) && Reported(y.s, y.sent)
    ensures Reported(Run(defs, y, evs).s, Run(defs, y, evs).sent)
    decreases |evs|
  {
    if evs != [] {
      EventSound(defs, y, evs[0]);
      EventReports(defs, y, evs[0]);
      RunReports(defs, Happen(defs, y, evs[0]), evs[1..]);
    }
  }

  // ---- Halt --------------------------------------------------------------------------------------

  /** A halted endpoint answers every IN token with STALL and moves nothing, and once it is resumed it is
      as if it had not been halted. */
  lemma HaltStalls(defs: set<string>, y: Sys, data: bool, rx: Reception)
    requires Sound(y) && !y.s.e.epType.t0
    ensures var z := Happen(defs, y, Halt(true));
            && DecideIn(LookAt(defs, z.s.e, false, PID_IN), rx) == Just(Handshake(PID_STALL))
            && Transact(defs, z, data, rx) == z && z.s.Sane() && Happen(defs, z, Halt(false)) == y
  {
  }

  // ---- Progress ------------------------------------------------------------------------------

  const CLEAN := Event.Token(true, true, Good(PID_ACK, 0))

  /** The driver is called, then a transaction takes place undisturbed; `n` times. */
  function Rounds(n: nat): seq<Event> {
    if n == 0 then [] else [Poll, CLEAN] + Rounds(n - 1)
  }

  /** A transfer is advanced at once: what the hardware is done with is retired, and the ring filled. */
  lemma SubmitCatchesUp(defs: set<string>, y: Sys, buf: Option<seq<byte>>, len: nat)
    requires Sound(y) && Possible(y, Submit(buf, len))
    ensures var r := Happen(defs, y, Submit(buf, len)).s;
            && r.retired == y.hw && !IsDone(r.e.bd0.state) && (r.dual ==> !IsDone(r.e.bd1.state))
            && (r.busy ==> |r.filled| == y.hw + Size(r))
  {
    var s1 := Started(y.s, y.hw, buf, len);
    AdvanceCatchesUp(s1, y.hw);
    SubmitFields(defs, y, buf, len, s1);
  }

  /** With packets left, one round of a driver call and an undisturbed transaction has one packet more
      acknowledged, and the host has all those. */
  lemma RoundDelivers(defs: set<string>, y: Sys)
    requires Inv(y) && !y.s.e.epType.t0 && y.hw < |AllChunks(y.sent, y.s.mps)|
    ensures var z := Happen(defs, y, Poll);
            && Sound(z)
            && var r := Happen(defs, z, CLEAN);
               && Inv(r) && r.hw == |r.got| == y.hw + 1 && r.sent == y.sent && r.s.mps == y.s.mps
               && !r.s.e.epType.t0
  {
    EventKeeps(defs, y, Poll);
    EventSound(defs, y, Poll);
    var z := Happen(defs, y, Poll);
    AdvanceRing(y.s, y.hw);
    AdvanceCatchesUp(y.s, y.hw);
    CleanTransaction(defs, z);
    EventKeeps(defs, z, CLEAN);
    var y1, v := TokenFields(defs, z, true, Good(PID_ACK, 0));
  }

  /** From any point of any run at which the endpoint is not halted, as many rounds as packets are left
      deliver all of them: the transfer is finished, and the host has every byte. */
  lemma {:induction false} RoundsDeliver(defs: set<string>, y: Sys, n: nat)
    requires Inv(y) && !y.s.e.epType.t0 && y.hw + n == |AllChunks(y.sent, y.s.mps)|
    ensures AllPossible(defs, y, Rounds(n))
    ensures var r := Run(defs, y, Rounds(n));
            r.got == AllChunks(y.sent, y.s.mps) && Flat(r.got) == Flat(y.sent) && !r.s.busy
    decreases n
  {
    hide Slot, Happen, BulkOrInterrupt, AllChunks, Backlog, Index, Ahead, Flat, LookAt, DecideIn;
    if n == 0 {
      NothingLeft(y);
    } else {
      RoundDelivers(defs, y);
      RoundsDeliver(defs, Happen(defs, Happen(defs, y, Poll), CLEAN), n - 1);
      RunTwo(defs, y, Poll, CLEAN, Rounds(n - 1));
    }
  }

  lemma NothingLeft(y: Sys)
    requires Inv(y) && y.hw == |AllChunks(y.sent, y.s.mps)|
    ensures y.got == AllChunks(y.sent, y.s.mps) && Flat(y.got) == Flat(y.sent) && !y.s.busy
  {
    assert |Backlog(y.s)| == 0;
    InvDelivers(y);
  }

  lemma RunTwo(defs: set<string>, y: Sys, a: Event, b: Event, rest: seq<Event>)
    requires Sound(y) && Possible(y, a)
    requires var z := Happen(defs, y, a);
             && Sound(z) && Possible(z, b)
             && Sound(Happen(defs, z, b)) && AllPossible(defs, Happen(defs, z, b), rest)
    ensures AllPossible(defs, y, [a, b] + rest)
    ensures Run(defs, y, [a, b] + rest) == Run(defs, Happen(defs, Happen(defs, y, a), b), rest)
  {
    hide Slot, Happen, BulkOrInterrupt, AllChunks, Backlog, Index;
    assert ([a, b] + rest)[1..] == [b] + rest && ([b] + rest)[1..] == rest;
    assert AllPossible(defs, Happen(defs, y, a), [b] + rest);
  }

  // ---- The hardware's part is the microcode's ------------------------------------------------

  /** The endpoint after the protocol has run the transaction's bus traffic is the one of the
      system's step, and the packet it shows is the one the host is given. */
  lemma HardwareAgrees(defs: set<string>, r: Regs, endp: nat, y: Sys, data: bool, rx: Reception, n: nat, m: nat)
    returns (r1: Regs, v: Verdict)
    requires BulkOrInterrupt(y.s.e) && y.s.e.At(y.s.e.Current(false)).state != BD_RDY_STALL
    requires AtIdle(r) && Fetch(r.ram, EpId(endp, true)) == y.s.e && (rx.Good? ==> !IsToken(rx.pid))
    ensures Play(defs, Idle, r, Script(PID_IN, endp, LookAt(defs, y.s.e, false, PID_IN), rx, n, m)) == (Idle, r1)
    ensures AtIdle(r1)
    ensures Fetch(r1.ram, EpId(endp, true)) == Transact(defs, y, data, rx).s.e
    ensures v == DecideIn(LookAt(defs, y.s.e, false, PID_IN), rx)
    ensures r1.outs == r.outs + Shows(v, EpId(endp, true), false, y.s.e.Current(false))
  {
    r1, v := EndpointDecided(defs, r, PID_IN, endp, y.s.e, rx, n, m);
    BytesAgree(defs, y.s.e, rx, v);
    TransactEp(defs, y, data, rx, v);
  }

  /** The driver asks for no STALL through a descriptor of such an endpoint. */
  lemma NoStall(y: Sys)
    requires Sound(y)
    ensures BulkOrInterrupt(y.s.e) && y.s.e.At(y.s.e.Current(false)).state != BD_RDY_STALL
  {
    Current(y.s, y.hw);
  }

  lemma TransactEp(defs: set<string>, y: Sys, data: bool, rx: Reception, v: Verdict)
    requires v == DecideIn(LookAt(defs, y.s.e, false, PID_IN), rx)
    ensures Transact(defs, y, data, rx).s.e == Settled(y.s.e, false, v, Length(rx))
  {
  }

  lemma BytesAgree(defs: set<string>, e: EpStatus, rx: Reception, v: Verdict)
    requires v == DecideIn(LookAt(defs, e, false, PID_IN), rx)
    requires BulkOrInterrupt(e) && e.At(e.Current(false)).state != BD_RDY_STALL
    ensures var bytes := BytesOf(PID_IN, LookAt(defs, e, false, PID_IN), rx);
            Settled(e, false, v, bytes) == Settled(e, false, v, Length(rx))
  {
  }

  // ---- Clearing a halt -----------------------------------------------------------------------

  /** How far the host's reset of its toggle puts it off: not at all if it was due DATA0 anyway; if
      not, one packet is missing when the device is due DATA1 as well, and one too many if it is due
      DATA0. */
  function ResetOff(y: Sys): int {
    if !y.expects then 0 else if y.s.e.dt then -1 else 1
  }

  /** A host that clears a halt starts over at DATA0; the driver leaves its toggle as it is. In every
      run after that, the packets the host has and those the device thinks delivered differ by exactly
      that: they stay in step, and what the host has is what was sent, if and only if it was due DATA0. */
  lemma ClearedHalt(defs: set<string>, y: Sys, evs: seq<Event>)
    requires Inv(y) && AllPossible(defs, y.(expects := false), evs)
    ensures var r := Run(defs, y.(expects := false), evs);
            && Ahead(r, ResetOff(y)) && (Ahead(r, 0) <==> !y.expects)
            && (!y.expects ==> Delivered(r))
            && (y.expects && r.expects == r.s.e.dt && !r.s.busy && r.hw == |r.s.filled| ==>
                  |r.got| == |AllChunks(r.sent, r.s.mps)| + ResetOff(y))
  {
    var z := y.(expects := false);
    var r := Run(defs, z, evs);
    assert Ahead(z, ResetOff(y));
    RunAhead(defs, z, evs, ResetOff(y));
    if !y.expects {
      assert z == y;
      RunKeeps(defs, y, evs);
      InvDelivers(r);
    } else if !r.s.busy {
      assert r.s.filled + Backlog(r.s) == r.s.filled;
    }
  }

  /** If both were due DATA1, the next packet is lost: the device thinks it delivered, and the host
      has dropped it. */
  lemma ClearedHaltLoses(defs: set<string>, y: Sys)
    requires Inv(y) && !y.s.e.epType.t0 && y.hw < |y.s.filled| && y.s.e.dt && y.expects
    ensures var r := Transact(defs, y.(expects := false), true, Good(PID_ACK, 0));
            r.hw == y.hw + 1 && r.got == y.got && |r.got| == y.hw
  {
    var y1, v := TokenFields(defs, y.(expects := false), true, Good(PID_ACK, 0));
  }

  /** If only the host was, it takes its last packet a second time. */
  lemma ClearedHaltRepeats(defs: set<string>, y: Sys)
    requires Inv(y) && !y.s.e.epType.t0 && !y.s.e.dt && y.expects
    ensures y.got != [] && y.hw < |y.s.filled| && y.got[|y.got| - 1] == y.s.filled[y.hw]
    ensures var r := Transact(defs, y.(expects := false), true, Good(PID_ACK, 0));
            r.got == y.got + [y.s.filled[y.hw]]
  {
    var y1, v := TokenFields(defs, y.(expects := false), true, Good(PID_ACK, 0));
  }
}
