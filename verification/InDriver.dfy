/** The TinyUSB driver's side of an IN endpoint (fw/tinyusb/dcd_no2usb.c): it retires the
    descriptors the hardware is done with and fills free ones from the current transfer. */
module InDriver {
  import opened Isa
  import opened Engine
  import opened Bytes

  /** The current transfer: its buffer (none for an empty packet), its length, how much of it has
      been queued, and the size of the last packet queued. */
  datatype Transfer = Transfer(buf: Option<seq<byte>>, len: nat, ofs: nat, plen: nat)

  const NO_TRANSFER := Transfer(None, 0, 0, 0)

  /** The endpoint's registers and transmit memory, shared with the hardware; the driver's own
      state; and what has happened: completions reported, packets queued, packets retired. */
  datatype In = In(
    e: EpStatus, mem: seq<byte>, ptr0: nat, ptr1: nat,
    mps: nat, dual: bool, busy: bool, fill: bool, retire: bool,
    x: Transfer,
    log: seq<nat>, filled: seq<seq<byte>>, retired: nat)
  {
    function Ptr(i: bool): nat {
      if i then ptr1 else ptr0
    }

    /** Two buffers of whole words that do not overlap, a packet size that fits the length field,
        and a transfer inside readable memory (which goes on for a word past its end). */
    predicate Sane() {
      && mps % 4 == 0 && 0 < mps < 1024
      && ptr0 + mps <= |mem| && (dual ==> ptr1 + mps <= |mem| && (ptr0 + mps <= ptr1 || ptr1 + mps <= ptr0))
      && (dual || (!fill && !retire)) && e.dual == dual
      && x.ofs <= x.len && (x.buf.Some? ==> x.len + 3 <= |x.buf.value|)
      && (x.buf.None? ==> x.plen == 0)
    }
  }

  function Count(e: EpStatus, p: Tri -> bool): nat {
    (if p(e.bd0.state) then 1 else 0) + (if p(e.bd1.state) then 1 else 0)
  }

  // ---- What the two loops do -----------------------------------------------------------------

  function RetireOne(s: In): In {
    s.(e := s.e.With(s.retire, NO_BD), retire := s.retire != s.dual, retired := s.retired + 1)
  }

  function Retire(s: In): In
    decreases Count(s.e, IsDone)
  {
    if IsDone(s.e.At(s.retire).state) then Retire(RetireOne(s)) else s
  }

  /** The size of the next packet. */
  function Plen(s: In): nat
    requires s.Sane()
  {
    if s.x.buf.Some? then Min(s.x.len - s.x.ofs, s.mps) else s.x.plen
  }

  function Loaded(s: In): seq<byte>
    requires s.Sane()
  {
    if s.x.buf.Some? then Patch(s.mem, s.Ptr(s.fill), s.x.buf.value[s.x.ofs..s.x.ofs + Words(Plen(s))]) else s.mem
  }

  function Piece(s: In): seq<byte>
    requires s.Sane()
  {
    if s.x.buf.Some? then s.x.buf.value[s.x.ofs..s.x.ofs + Plen(s)] else []
  }

  /** Load the next packet, submit it, and finish the transfer if that was its last. */
  function FillOne(s: In): In
    requires s.Sane()
  {
    var plen := Plen(s);
    var s1 := s.(mem := Loaded(s), e := s.e.With(s.fill, Bd(BD_RDY_DATA, false, plen)),
                 fill := s.fill != s.dual, filled := s.filled + [Piece(s)]);
    if s.x.ofs + plen == s.x.len then s1.(busy := false, x := NO_TRANSFER, log := s.log + [s.x.len])
    else s1.(x := s.x.(ofs := s.x.ofs + plen, plen := plen))
  }

  predicate IsFree(s: Tri) { s == BD_NONE }

  lemma FillOneSane(s: In)
    requires s.Sane() && s.busy
    ensures FillOne(s).Sane()
  {
  }

  lemma FillOneCounts(s: In)
    requires s.Sane() && s.busy && IsFree(s.e.At(s.fill).state)
    ensures Count(FillOne(s).e, IsFree) < Count(s.e, IsFree)
  {
  }

  function Fill(s: In): (r: In)
    requires s.Sane()
    decreases Count(s.e, IsFree)
  {
    if s.busy && IsFree(s.e.At(s.fill).state) then
      FillOneSane(s);
      FillOneCounts(s);
      Fill(FillOne(s))
    else s
  }

  lemma {:induction false} RetireSane(s: In)
    requires s.Sane()
    ensures Retire(s).Sane() && Retire(s).busy == s.busy
    decreases Count(s.e, IsDone)
  {
    if IsDone(s.e.At(s.retire).state) {
      RetireSane(RetireOne(s));
    }
  }

  /** What one call of `_usb_ep_advance_xfer_in` does. */
  function Advance(s: In): In
    requires s.Sane()
  {
    RetireSane(s);
    Fill(Retire(s))
  }

  /** `dcd_edpt_xfer`: a transfer of `len` bytes from `buf`, or of none. */
  function Submit(s: In, buf: Option<seq<byte>>, len: nat): In
    requires s.Sane() && (buf.Some? ==> len + 3 <= |buf.value|)
  {
    Advance(s.(busy := true, x := Transfer(buf, len, 0, 0)))
  }

  /** `dcd_edpt_stall` and `dcd_edpt_clear_stall`: the endpoint is halted, or resumed. */
  function Halted(s: In, on: bool): In {
    s.(e := s.e.(epType := s.e.epType.(t0 := on)))
  }

  /** From any state at all, neither loop goes round more often than there are descriptors. */
  lemma {:induction false} RetireBounded(s: In)
    requires s.Sane()
    ensures s.retired <= Retire(s).retired <= s.retired + (if s.dual then Count(s.e, IsDone) else 1)
    decreases Count(s.e, IsDone)
  {
    if IsDone(s.e.At(s.retire).state) {
      if s.dual {
        RetireBounded(RetireOne(s));
      } else {
        assert Retire(RetireOne(s)) == RetireOne(s);
      }
    }
  }

  lemma {:induction false} FillBounded(s: In)
    requires s.Sane()
    ensures |s.filled| <= |Fill(s).filled| <= |s.filled| + (if s.dual then Count(s.e, IsFree) else 1)
    decreases Count(s.e, IsFree)
  {
    if s.busy && IsFree(s.e.At(s.fill).state) {
      FillOneSane(s);
      FillOneCounts(s);
      if s.dual {
        FillBounded(FillOne(s));
      } else {
        assert Fill(FillOne(s)) == FillOne(s);
      }
    }
  }

  /** The words of the next packet are in the transfer's buffer, and fit the packet's. */
  lemma PacketFits(s: In)
    requires s.Sane()
    ensures s.Ptr(s.fill) + s.mps <= |s.mem|
    ensures s.x.buf.Some? ==> s.x.ofs + Words(Plen(s)) <= |s.x.buf.value| && s.Ptr(s.fill) + Words(Plen(s)) <= |s.mem|
  {
    assert Words(Plen(s)) <= Plen(s) + 3 && (Plen(s) <= s.mps ==> Words(Plen(s)) <= s.mps);
  }

  lemma LoadedIs(s: In, mem: seq<byte>, x: Transfer)
    requires s.Sane()
    requires s.x.buf.Some? ==> s.x.ofs + Words(Plen(s)) <= |s.x.buf.value| && s.Ptr(s.fill) + Words(Plen(s)) <= |s.mem|
    requires s.x.buf.None? ==> mem == s.mem && x == s.x
    requires s.x.buf.Some? ==>
      && x == s.x.(plen := Plen(s))
      && mem == Patch(s.mem, s.Ptr(s.fill), s.x.buf.value[s.x.ofs..s.x.ofs + Words(Plen(s))])
    ensures mem == Loaded(s) && x == s.x.(plen := Plen(s))
  {
  }

  /** Loading the packet, then submitting it, fills the next descriptor. */
  lemma FilledIs(s: In, s1: In, r: In)
    requires s.Sane() && s1 == s.(mem := Loaded(s), x := s.x.(plen := Plen(s)))
    requires r == s1.(e := s.e.With(s.fill, Bd(BD_RDY_DATA, false, s1.x.plen)), fill := s.fill != s.dual,
                      filled := s.filled + [Piece(s)], busy := r.busy, x := r.x, log := r.log)
    requires if s1.x.ofs + s1.x.plen == s1.x.len then !r.busy && r.x == NO_TRANSFER && r.log == s.log + [s1.x.len]
             else r.busy == s.busy && r.x == s1.x.(ofs := s1.x.ofs + s1.x.plen) && r.log == s.log
    ensures r == FillOne(s)
  {
  }

  /** Packets of whole words, that fit the length field, in one or two buffers inside the memory. */
  predicate Fits(dual: bool, mps: nat, size: nat, ptr0: nat, ptr1: nat) {
    && mps % 4 == 0 && 0 < mps < 1024 && ptr0 + mps <= size
    && (dual ==> ptr1 + mps <= size && (ptr0 + mps <= ptr1 || ptr1 + mps <= ptr0))
  }

  /** A transfer without a buffer but with a length queues empty packets, and never ends. */
  lemma {:induction false} NeverEnds(s: In)
    requires s.Sane() && s.busy && s.x.buf.None? && s.x.ofs < s.x.len
    ensures var r := Fill(s);
            && r.busy && r.x == s.x && r.log == s.log
            && |r.filled| >= |s.filled| && forall k :: |s.filled| <= k < |r.filled| ==> r.filled[k] == []
    decreases Count(s.e, IsFree)
  {
    if IsFree(s.e.At(s.fill).state) {
      FillOneSane(s);
      FillOneCounts(s);
      NeverEnds(FillOne(s));
    }
  }

  const TYPE_ISOC := Tri(false, false, true)
  const TYPE_INT := Tri(false, true, false)
  const TYPE_BULK := Tri(true, false, false)

  // ---- The driver in place -------------------------------------------------------------------

  class InEndpoint {
    // registers, and the transmit memory
    var e: EpStatus
    var mem: array<byte>
    const ptr0: nat
    const ptr1: nat
    // struct dcd_ep
    const mps: nat
    const dual: bool
    var busy: bool
    var bdiFill: bool
    var bdiRetire: bool
    var xfer: Transfer
    // events reported
    var log: seq<nat>
    // what has happened
    ghost var filled: seq<seq<byte>>
    ghost var retired: nat

    /** `dcd_edpt_open` on an IN endpoint: bulk endpoints get two buffers; none is filled yet. */
    constructor (epType: Tri, mps: nat, mem: array<byte>, ptr0: nat, ptr1: nat)
      requires epType in {TYPE_ISOC, TYPE_INT, TYPE_BULK}
      ensures State().Sane() <==> Fits(epType == TYPE_BULK, mps, mem.Length, ptr0, ptr1)
      ensures this.mem == mem && this.mps == mps && this.ptr0 == ptr0 && this.ptr1 == ptr1
      ensures e == EpStatus(epType, epType == TYPE_BULK, false, false, false, NO_BD, NO_BD)
      ensures !busy && !bdiFill && !bdiRetire && filled == [] && retired == 0 && log == []
    {
      this.mem, this.mps, this.ptr0, this.ptr1 := mem, mps, ptr0, ptr1;
      dual := epType == TYPE_BULK;
      e := EpStatus(epType, epType == TYPE_BULK, false, false, false, NO_BD, NO_BD);
      busy, bdiFill, bdiRetire, xfer := false, false, false, NO_TRANSFER;
      log, filled, retired := [], [], 0;
    }

    ghost function State(): In
      reads this, mem
    {
      In(e, mem[..], ptr0, ptr1, mps, dual, busy, bdiFill, bdiRetire, xfer, log, filled, retired)
    }

    method RetireDone()
      requires State().Sane()
      modifies this
      ensures mem == old(mem) && State() == Retire(old(State())) && State().Sane()
    {
      RetireSane(State());
      ghost var was := State();
      while IsDone(e.At(bdiRetire).state)
        invariant mem == old(mem) && Retire(State()) == Retire(was)
        decreases Count(e, IsDone)
      {
        RetireNext();
      }
    }

    method RetireNext()
      modifies this`e, this`bdiRetire, this`retired
      ensures State() == RetireOne(old(State()))
    {
      e := e.With(bdiRetire, NO_BD);
      bdiRetire := bdiRetire != dual;
      retired := retired + 1;
    }

    /** Choose the next packet's size, and write the packet to the buffer. */
    method LoadPacket(src: seq<byte>, dst: nat)
      requires xfer.ofs <= xfer.len && xfer.len + 3 <= |src| && mps % 4 == 0 && dst + mps <= mem.Length
      modifies this`xfer, mem
      ensures xfer == old(xfer).(plen := Min(old(xfer.len - xfer.ofs), mps))
      ensures mem[..] == Patch(old(mem[..]), dst, src[xfer.ofs..xfer.ofs + Words(xfer.plen)])
    {
      var plen := xfer.len - xfer.ofs;
      if plen > mps {
        plen := mps;
      }
      assert Words(plen) <= mps;
      xfer := xfer.(plen := plen);
      WriteWords(mem, dst, src[xfer.ofs..], plen);
      assert src[xfer.ofs..][..Words(plen)] == src[xfer.ofs..xfer.ofs + Words(plen)];
    }

    /** Mark the packet ready, and finish the transfer if that was its last. */
    method SubmitPacket()
      requires busy
      modifies this`e, this`bdiFill, this`xfer, this`busy, this`log
      ensures e == old(e).With(old(bdiFill), Bd(BD_RDY_DATA, false, old(xfer.plen)))
        && bdiFill == (old(bdiFill) != dual)
      ensures var x := old(xfer);
              if x.ofs + x.plen == x.len then !busy && xfer == NO_TRANSFER && log == old(log) + [x.len]
              else busy && xfer == x.(ofs := x.ofs + x.plen) && log == old(log)
    {
      e := e.With(bdiFill, Bd(BD_RDY_DATA, false, xfer.plen));
      xfer := xfer.(ofs := xfer.ofs + xfer.plen);
      if xfer.ofs == xfer.len {
        log := log + [xfer.len];
        busy := false;
        xfer := NO_TRANSFER;
      }
      bdiFill := bdiFill != dual;
    }

    /** Load the next packet, if there is a buffer to load it from. */
    method LoadNext()
      requires State().Sane() && busy
      modifies this`xfer, mem
      ensures var s := old(State()); State() == s.(mem := Loaded(s), x := s.x.(plen := Plen(s)))
    {
      ghost var s := State();
      PacketFits(s);
      if xfer.buf.Some? {
        LoadPacket(xfer.buf.value, if bdiFill then ptr1 else ptr0);
      }
      LoadedIs(s, mem[..], xfer);
    }

    /** Queue the next packet of the transfer. */
    method FillNext()
      requires State().Sane() && busy && IsFree(e.At(bdiFill).state)
      modifies this, mem
      ensures mem == old(mem) && State() == FillOne(old(State()))
    {
      ghost var s := State();
      LoadNext();
      ghost var s1 := State();
      filled := filled + [Piece(s)];
      SubmitPacket();
      FilledIs(s, s1, State());
    }

    /** `_usb_ep_advance_xfer_in` */
    method AdvanceXferIn()
      requires State().Sane()
      modifies this, mem
      ensures mem == old(mem) && State() == Advance(old(State()))
    {
      RetireDone();
      ghost var was := State();
      while busy && IsFree(e.At(bdiFill).state)
        invariant mem == old(mem) && State().Sane() && Fill(State()) == Fill(was)
        decreases Count(e, IsFree)
      {
        FillOneSane(State());
        FillOneCounts(State());
        FillNext();
      }
    }

    /** `dcd_edpt_stall` and `dcd_edpt_clear_stall` */
    method EdptStall(on: bool)
      modifies this`e
      ensures State() == Halted(old(State()), on)
    {
      e := e.(epType := e.epType.(t0 := on));
    }

    /** `dcd_edpt_xfer` on an IN endpoint */
    method EdptXfer(buffer: Option<seq<byte>>, total: nat)
      requires State().Sane() && (buffer.Some? ==> total + 3 <= |buffer.value|)
      modifies this, mem
      ensures mem == old(mem) && State() == Submit(old(State()), buffer, total)
    {
      busy := true;
      xfer := Transfer(buffer, total, 0, 0);
      AdvanceXferIn();
    }
  }
}
