/** The TinyUSB driver's side of an OUT endpoint (fw/tinyusb/dcd_no2usb.c): it copies received
    packets into the current transfer's buffer and keeps the descriptors ready for more. */
module OutDriver {
  import opened Isa
  import opened Engine
  import opened Bytes
  import I = InDriver

  /** The current transfer: its buffer, its length, how much has been received, and the size of the
      last packet. */
  datatype Transfer = Transfer(buf: seq<byte>, len: nat, ofs: nat, plen: nat)

  const NO_TRANSFER := Transfer([], 0, 0, 0)

  /** The endpoint's registers and receive memory, shared with the hardware; the driver's own
      state; and what has happened: the lengths asked for, the data of completed transfers and how
      many packets had been retired at the end of each, and packets retired. An endpoint other than 0 is kept
      ready whether or not a transfer is waiting. */
  datatype Out = Out(
    e: EpStatus, mem: seq<byte>, ptr0: nat, ptr1: nat,
    mps: nat, dual: bool, prefill: bool, busy: bool, fill: bool, retire: bool,
    x: Transfer,
    asked: seq<nat>, done: seq<seq<byte>>, cuts: seq<nat>, retired: nat)
  {
    function Ptr(i: bool): nat {
      if i then ptr1 else ptr0
    }

    /** Two buffers of whole words that do not overlap, a packet size whose length with the CRC fits
        the length field, and a transfer inside its buffer. */
    predicate Sane() {
      && mps % 4 == 0 && 0 < mps <= 1021
      && ptr0 + mps <= |mem| && (dual ==> ptr1 + mps <= |mem| && (ptr0 + mps <= ptr1 || ptr1 + mps <= ptr0))
      && (dual || (!fill && !retire)) && e.dual == dual
      && x.ofs <= x.len <= |x.buf|
    }
  }

  /** The packets received are no longer than the endpoint's; their length fields also count their two
      CRC bytes. */
  predicate Lengths(e: EpStatus, mps: nat) {
    && (e.bd0.state == BD_DONE_OK ==> 2 <= e.bd0.len <= mps + 2)
    && (e.bd1.state == BD_DONE_OK ==> 2 <= e.bd1.len <= mps + 2)
  }

  function Ready(s: Out): Bd {
    Bd(BD_RDY_DATA, false, s.mps)
  }

  // ---- What the two loops do -----------------------------------------------------------------

  function Plen(s: Out): nat
    requires s.Sane() && Lengths(s.e, s.mps) && s.e.At(s.retire).state == BD_DONE_OK
  {
    Min(s.e.At(s.retire).len - 2, s.x.len - s.x.ofs)
  }

  lemma PlenFits(s: Out)
    requires s.Sane() && Lengths(s.e, s.mps) && s.e.At(s.retire).state == BD_DONE_OK
    ensures s.x.ofs + Plen(s) <= |s.x.buf| && s.Ptr(s.retire) + Words(Plen(s)) <= |s.mem|
  {
    assert Words(Plen(s)) <= s.mps;
  }

  /** Take the data of a received packet and free its descriptor. */
  function Copied(s: Out): Out
    requires s.Sane() && Lengths(s.e, s.mps) && s.e.At(s.retire).state == BD_DONE_OK
  {
    var plen := Plen(s);
    var buf := Patch(s.x.buf, s.x.ofs, s.mem[s.Ptr(s.retire)..s.Ptr(s.retire) + plen]);
    s.(e := s.e.With(s.retire, NO_BD), retire := s.retire != s.dual, retired := s.retired + 1,
       x := Transfer(buf, s.x.len, s.x.ofs + plen, plen))
  }

  /** A transfer ends with a short packet, or when it has all it asked for. */
  function Closed(s: Out): Out
    requires s.x.ofs <= |s.x.buf|
  {
    if s.x.plen < s.mps || s.x.len == s.x.ofs
    then s.(busy := false, x := NO_TRANSFER, done := s.done + [s.x.buf[..s.x.ofs]], cuts := s.cuts + [s.retired])
    else s
  }

  function TakeOne(s: Out): Out
    requires s.Sane() && Lengths(s.e, s.mps) && s.e.At(s.retire).state == BD_DONE_OK
  {
    Closed(Copied(s))
  }

  /** On an error it is always the first descriptor that is made ready again. */
  function Rearm(s: Out): Out {
    s.(e := s.e.With(false, Ready(s)), retire := s.retire != s.dual)
  }

  lemma TakeFields(s: Out) returns (r: Out)
    requires s.Sane() && Lengths(s.e, s.mps) && s.e.At(s.retire).state == BD_DONE_OK
    ensures r == TakeOne(s) && r.e == s.e.With(s.retire, NO_BD) && r.retire == (s.retire != s.dual)
      && r.retired == s.retired + 1
    ensures r == s.(e := r.e, retire := r.retire, retired := r.retired, busy := r.busy, x := r.x, done := r.done,
      cuts := r.cuts)
    ensures r.x.ofs <= r.x.len <= |r.x.buf|
  {
    r := TakeOne(s);
  }

  lemma WithDone(e: EpStatus, i: bool, bd: Bd, mps: nat)
    requires !IsDone(bd.state) && Lengths(e, mps)
    ensures Lengths(e.With(i, bd), mps)
    ensures I.Count(e.With(i, bd), IsDone) == I.Count(e, IsDone) - (if IsDone(e.At(i).state) then 1 else 0)
    ensures e.With(i, bd).dual == e.dual
  {
  }

  lemma TakeStep(s: Out)
    requires s.Sane() && Lengths(s.e, s.mps) && s.e.At(s.retire).state == BD_DONE_OK
    ensures TakeOne(s).Sane() && Lengths(TakeOne(s).e, s.mps)
    ensures I.Count(TakeOne(s).e, IsDone) < I.Count(s.e, IsDone)
  {
    var r := TakeFields(s);
    WithDone(s.e, s.retire, NO_BD, s.mps);
  }

  lemma RearmStep(s: Out)
    requires s.Sane() && Lengths(s.e, s.mps)
    ensures Rearm(s).Sane() && Lengths(Rearm(s).e, s.mps)
    ensures s.e.At(s.retire).state == BD_DONE_ERR ==>
      var was, now := I.Count(s.e, IsDone), I.Count(Rearm(s).e, IsDone);
      now < was || (now == was && s.retire && !Rearm(s).retire)
  {
    WithDone(s.e, false, Ready(s), s.mps);
  }

  function Retire(s: Out): (r: Out)
    requires s.Sane() && Lengths(s.e, s.mps)
    ensures r.Sane() && Lengths(r.e, r.mps)
    decreases I.Count(s.e, IsDone), s.retire
  {
    var state := s.e.At(s.retire).state;
    if state == BD_DONE_OK && s.busy then
      TakeStep(s);
      Retire(TakeOne(s))
    else if state == BD_DONE_ERR then
      RearmStep(s);
      Retire(Rearm(s))
    else s
  }

  predicate Wanted(s: Out) {
    s.e.At(s.fill).state == BD_NONE && (s.busy || s.prefill)
  }

  function ArmOne(s: Out): Out {
    s.(e := s.e.With(s.fill, Ready(s)), fill := s.fill != s.dual)
  }

  function Arm(s: Out): (r: Out)
    requires s.Sane() && Lengths(s.e, s.mps)
    ensures r.Sane() && Lengths(r.e, r.mps)
    decreases I.Count(s.e, I.IsFree)
  {
    if Wanted(s) then Arm(ArmOne(s)) else s
  }

  /** What one call of `_usb_ep_advance_xfer_out` does. */
  function Advance(s: Out): (r: Out)
    requires s.Sane() && Lengths(s.e, s.mps)
    ensures r.Sane() && Lengths(r.e, r.mps)
  {
    Arm(Retire(s))
  }

  /** `dcd_edpt_xfer`: receive up to `len` bytes into `buf`. */
  function Submit(s: Out, buf: seq<byte>, len: nat): Out
    requires s.Sane() && Lengths(s.e, s.mps) && len <= |buf|
  {
    Advance(s.(busy := true, x := Transfer(buf, len, 0, 0), asked := s.asked + [len]))
  }

  /** `dcd_edpt_stall` and `dcd_edpt_clear_stall`: the endpoint is halted, or resumed. */
  function Halted(s: Out, on: bool): Out {
    s.(e := s.e.(epType := s.e.epType.(t0 := on)))
  }

  // ---- The driver in place -------------------------------------------------------------------

  lemma CopiedIs(s: Out, s1: Out, plen: nat, s2: Out)
    requires s.Sane() && Lengths(s.e, s.mps) && s.e.At(s.retire).state == BD_DONE_OK && plen == Plen(s)
    requires s.Ptr(s.retire) + plen <= |s.mem|
    requires s1 == s.(x := s.x.(buf := Patch(s.x.buf, s.x.ofs, s.mem[s.Ptr(s.retire)..s.Ptr(s.retire) + plen])))
    requires s2 == s1.(e := s1.e.With(s1.retire, NO_BD), retire := s1.retire != s1.dual, retired := s1.retired + 1,
                       x := s1.x.(ofs := s1.x.ofs + plen, plen := plen))
    ensures s2 == Copied(s)
  {
  }

  /** The numbers of the current transfer, beside its buffer. */
  datatype Progress = Progress(len: nat, ofs: nat, plen: nat)

  class OutEndpoint {
    // registers, and the receive memory
    var e: EpStatus
    const mem: array<byte>
    const ptr0: nat
    const ptr1: nat
    // struct dcd_ep
    const mps: nat
    const dual: bool
    const prefill: bool
    var busy: bool
    var bdiFill: bool
    var bdiRetire: bool
    var buf: array?<byte>
    var xfer: Progress
    // events reported
    var log: seq<nat>
    // what has happened
    ghost var asked: seq<nat>
    ghost var done: seq<seq<byte>>
    ghost var cuts: seq<nat>
    ghost var retired: nat

    /** `dcd_edpt_open` on an OUT endpoint: both descriptors are made ready at once. */
    constructor (epType: Tri, mps: nat, mem: array<byte>, ptr0: nat, ptr1: nat)
      requires epType in {I.TYPE_ISOC, I.TYPE_INT, I.TYPE_BULK}
      ensures Valid() <==> mps <= 1021 && I.Fits(epType == I.TYPE_BULK, mps, mem.Length, ptr0, ptr1)
      ensures this.mem == mem && this.mps == mps && this.ptr0 == ptr0 && this.ptr1 == ptr1 && prefill
      ensures e == EpStatus(epType, epType == I.TYPE_BULK, false, false, false, Ready(State()), Ready(State()))
      ensures !busy && !bdiFill && !bdiRetire && buf == null && log == []
      ensures asked == [] && done == [] && cuts == [] && retired == 0
    {
      this.mem, this.mps, this.ptr0, this.ptr1 := mem, mps, ptr0, ptr1;
      dual, prefill := epType == I.TYPE_BULK, true;
      e := EpStatus(epType, epType == I.TYPE_BULK, false, false, false, Bd(BD_RDY_DATA, false, mps),
          Bd(BD_RDY_DATA, false, mps));
      busy, bdiFill, bdiRetire := false, false, false;
      buf, xfer := null, Progress(0, 0, 0);
      log, asked, done, cuts := [], [], [], [];
      retired := 0;
    }

    ghost function Pending(): Transfer
      reads this, buf
    {
      Transfer(if buf == null then [] else buf[..], xfer.len, xfer.ofs, xfer.plen)
    }

    ghost function State(): Out
      reads this, mem, buf
    {
      Out(e, mem[..], ptr0, ptr1, mps, dual, prefill, busy, bdiFill, bdiRetire, Pending(), asked, done, cuts, retired)
    }

    ghost predicate Valid()
      reads this, mem, buf
    {
      buf != mem && State().Sane() && Lengths(e, mps) && Reported()
    }

    /** Every completed transfer has been reported with its length. */
    ghost predicate Reported()
      reads this`log, this`done
    {
      |log| == |done| && forall i :: 0 <= i < |log| ==> log[i] == |done[i]|
    }

    /** Copy a packet of `n` bytes out of the receive memory, if there is anything to copy. */
    method CopyPacket(src: nat, n: nat)
      requires buf != mem && src + Words(n) <= mem.Length && xfer.ofs + n <= |Pending().buf|
      modifies buf
      ensures Pending() == old(Pending()).(buf := Patch(old(Pending().buf), xfer.ofs, mem[..][src..src + n]))
    {
      if n > 0 {
        ReadBytes(buf, xfer.ofs, mem[..], src, n);
      }
    }

    /** A transfer ends with a short packet, or when it has all it asked for. */
    method CloseTransfer()
      requires xfer.ofs <= |Pending().buf| && Reported()
      modifies this`busy, this`buf, this`xfer, this`log, this`done, this`cuts
      ensures State() == Closed(old(State())) && Reported()
      ensures buf == old(buf) || buf == null
    {
      if xfer.plen < mps || xfer.len == xfer.ofs {
        done := done + [Pending().buf[..xfer.ofs]];
        cuts := cuts + [retired];
        log := log + [xfer.ofs];
        busy := false;
        buf := null;
        xfer := Progress(0, 0, 0);
      }
    }

    /** The size of the packet to retire, within what the transfer still wants. */
    method PacketSize() returns (plen: nat)
      requires Valid() && e.At(bdiRetire).state == BD_DONE_OK
      ensures plen == Plen(State())
    {
      plen := e.At(bdiRetire).len - 2;
      if plen > xfer.len - xfer.ofs {
        plen := xfer.len - xfer.ofs;
      }
    }

    /** Copy the packet at the retire index to where the transfer wants it. */
    method CopyData() returns (plen: nat)
      requires Valid() && e.At(bdiRetire).state == BD_DONE_OK
      modifies buf
      ensures plen == Plen(old(State()))
      ensures var s := old(State());
              State() == s.(x := s.x.(buf := Patch(s.x.buf, s.x.ofs, s.mem[s.Ptr(s.retire)..s.Ptr(s.retire) + plen])))
    {
      PlenFits(State());
      plen := PacketSize();
      CopyPacket(if bdiRetire then ptr1 else ptr0, plen);
    }

    method RetirePacket()
      requires Valid() && e.At(bdiRetire).state == BD_DONE_OK
      modifies this`e, this`xfer, this`bdiRetire, this`retired, buf
      ensures State() == Copied(old(State()))
    {
      ghost var s := State();
      var plen := CopyData();
      ghost var s1 := State();
      FreeDescriptor(plen);
      CopiedIs(s, s1, plen, State());
    }

    method FreeDescriptor(plen: nat)
      modifies this`e, this`xfer, this`bdiRetire, this`retired
      ensures var s := old(State());
              State() == s.(e := s.e.With(s.retire, NO_BD), retire := s.retire != s.dual, retired := s.retired + 1,
                            x := s.x.(ofs := s.x.ofs + plen, plen := plen))
    {
      e := e.With(bdiRetire, NO_BD);
      xfer := Progress(xfer.len, xfer.ofs + plen, plen);
      bdiRetire := bdiRetire != dual;
      retired := retired + 1;
    }

    /** Take the data of a received packet, and perhaps finish the transfer. */
    method TakePacket()
      requires Valid() && busy && e.At(bdiRetire).state == BD_DONE_OK
      modifies this, buf
      ensures Valid() && (buf == old(buf) || buf == null) && State() == TakeOne(old(State()))
    {
      TakeStep(State());
      RetirePacket();
      CloseTransfer();
    }

    /** Make the first descriptor ready again, whichever had the error. */
    method RearmFirst()
      requires Valid()
      modifies this`e, this`bdiRetire
      ensures Valid() && State() == Rearm(old(State()))
    {
      RearmStep(State());
      e := e.With(false, Bd(BD_RDY_DATA, false, mps));
      bdiRetire := bdiRetire != dual;
    }

    method RetireDone()
      requires Valid()
      modifies this, buf
      ensures Valid() && (buf == old(buf) || buf == null) && State() == Retire(old(State()))
    {
      ghost var was := State();
      while (e.At(bdiRetire).state == BD_DONE_OK && busy) || e.At(bdiRetire).state == BD_DONE_ERR
        invariant Valid() && (buf == old(buf) || buf == null) && Retire(State()) == Retire(was)
        decreases I.Count(e, IsDone), bdiRetire
      {
        TakeOrRearm();
      }
    }

    method TakeOrRearm()
      requires Valid()
      requires (e.At(bdiRetire).state == BD_DONE_OK && busy) || e.At(bdiRetire).state == BD_DONE_ERR
      modifies this, buf
      ensures Valid() && (buf == old(buf) || buf == null) && Retire(State()) == Retire(old(State()))
      ensures var was, now := I.Count(old(e), IsDone), I.Count(e, IsDone);
              now < was || (now == was && old(bdiRetire) && !bdiRetire)
    {
      if e.At(bdiRetire).state == BD_DONE_OK {
        TakeStep(State());
        TakePacket();
      } else {
        RearmStep(State());
        RearmFirst();
      }
    }

    method ArmNext()
      requires Valid() && e.At(bdiFill).state == BD_NONE
      modifies this`e, this`bdiFill
      ensures Valid() && State() == ArmOne(old(State())) && I.Count(e, I.IsFree) < I.Count(old(e), I.IsFree)
    {
      e := e.With(bdiFill, Bd(BD_RDY_DATA, false, mps));
      bdiFill := bdiFill != dual;
    }

    /** Make every free descriptor ready, if they are wanted. */
    method ArmFree()
      requires Valid()
      modifies this`e, this`bdiFill
      ensures Valid() && State() == Arm(old(State()))
    {
      ghost var was := State();
      while e.At(bdiFill).state == BD_NONE && (busy || prefill)
        invariant Valid() && Arm(State()) == Arm(was)
        decreases I.Count(e, I.IsFree)
      {
        ArmNext();
      }
    }

    /** `_usb_ep_advance_xfer_out` */
    method AdvanceXferOut()
      requires Valid()
      modifies this, buf
      ensures Valid() && (buf == old(buf) || buf == null) && State() == Advance(old(State()))
    {
      RetireDone();
      ArmFree();
    }

    /** `dcd_edpt_stall` and `dcd_edpt_clear_stall` */
    method EdptStall(on: bool)
      requires Valid()
      modifies this`e
      ensures Valid() && State() == Halted(old(State()), on)
    {
      e := e.(epType := e.epType.(t0 := on));
    }

    /** `dcd_edpt_xfer` on an OUT endpoint */
    method EdptXfer(buffer: array?<byte>, total: nat)
      requires Valid() && buffer != mem && total <= (if buffer == null then 0 else buffer.Length)
      modifies this, buffer
      ensures Valid() && State() == Submit(old(State()), if buffer == null then [] else old(buffer[..]), total)
    {
      busy := true;
      buf := buffer;
      xfer := Progress(total, 0, 0);
      asked := asked + [total];
      AdvanceXferOut();
    }
  }
}
