/** The receive window (rtl/usb_trans.v): which bytes of a packet reach the buffer, and where. */
module Window {
  import opened Bytes
  import Engine

  const MEMORY := 2048
  const OPEN := 1024

  /** Address, remaining length with the bit that opens the window above it, bytes counted, memory. */
  datatype Regs = Regs(addr: nat, bdLength: nat, xferLength: nat, mem: seq<byte>)

  predicate IsOpen(r: Regs) {
    r.bdLength >= OPEN
  }

  /** The descriptor's pointer and length are fetched. */
  function Load(mem: seq<byte>, ptr: nat, len: nat): Regs {
    Regs(ptr, OPEN + len, 0, mem)
  }

  function Count(r: Regs): nat {
    if IsOpen(r) then r.bdLength - 1 else r.bdLength
  }

  function PktStart(r: Regs): Regs {
    r.(bdLength := Count(r))
  }

  function DataByte(r: Regs, b: byte): Regs {
    Regs((r.addr + 1) % MEMORY, Count(r), (r.xferLength + 1) % 1024,
         if IsOpen(r) && r.addr < |r.mem| then r.mem[r.addr := b] else r.mem)
  }

  function ZeroLength(r: Regs): Regs {
    r.(bdLength := 0)
  }

  function Feed(r: Regs, bs: seq<byte>): Regs {
    if bs == [] then r else DataByte(Feed(r, bs[..|bs| - 1]), bs[|bs| - 1])
  }

  /** A packet after the fetch. */
  function Receive(mem: seq<byte>, ptr: nat, len: nat, bs: seq<byte>): Regs {
    Feed(PktStart(Load(mem, ptr, len)), bs)
  }

  lemma CountMod(k: nat, m: nat)
    requires m == 1024 || m == MEMORY
    ensures (k % m + 1) % m == (k + 1) % m
  {
  }

  /** Every byte is counted, modulo 1024, and moves the address. */
  lemma {:induction false} Counted(mem: seq<byte>, ptr: nat, len: nat, bs: seq<byte>)
    requires ptr < MEMORY
    ensures Receive(mem, ptr, len, bs).xferLength == |bs| % 1024
    ensures Receive(mem, ptr, len, bs).addr == (ptr + |bs|) % MEMORY
  {
    if bs != [] {
      Counted(mem, ptr, len, bs[..|bs| - 1]);
      CountMod(|bs| - 1, 1024);
      CountMod(ptr + |bs| - 1, MEMORY);
    }
  }

  /** The window stays open for as many bytes as the descriptor has room. */
  lemma {:induction false} Opening(mem: seq<byte>, ptr: nat, len: nat, bs: seq<byte>)
    requires len < 1024
    ensures Receive(mem, ptr, len, bs).bdLength == if |bs| < len then OPEN + len - 1 - |bs| else OPEN - 1
    ensures |Receive(mem, ptr, len, bs).mem| == |mem|
  {
    if bs != [] {
      Opening(mem, ptr, len, bs[..|bs| - 1]);
    }
  }

  lemma PatchMore(mem: seq<byte>, ptr: nat, bs: seq<byte>, k: nat)
    requires k < |bs| && ptr + k < |mem|
    ensures Patch(mem, ptr, bs[..k])[ptr + k := bs[k]] == Patch(mem, ptr, bs[..k + 1])
  {
  }

  /** Exactly the first bytes that fit are written, in order, from the pointer on. */
  lemma {:induction false} WritesWhatFits(mem: seq<byte>, ptr: nat, len: nat, bs: seq<byte>)
    requires len < 1024 && |mem| == MEMORY && ptr < MEMORY && ptr + len <= MEMORY
    ensures Receive(mem, ptr, len, bs).mem == Patch(mem, ptr, bs[..Engine.Min(len, |bs|)])
  {
    if bs != [] {
      var k := |bs| - 1;
      var a := bs[..k];
      WritesWhatFits(mem, ptr, len, a);
      Opening(mem, ptr, len, a);
      Counted(mem, ptr, len, a);
      if k < len {
        assert a[..k] == bs[..k];
        PatchMore(mem, ptr, bs, k);
        assert (ptr + k) % MEMORY == ptr + k;
      } else {
        assert a[..len] == bs[..len];
      }
    } else {
      assert Patch(mem, ptr, []) == mem;
    }
  }

  /** After `ZL` nothing more is written, whatever comes. */
  lemma {:induction false} NothingAfterZl(r: Regs, bs: seq<byte>)
    ensures Feed(PktStart(ZeroLength(r)), bs).mem == r.mem && Feed(ZeroLength(r), bs).mem == r.mem
    ensures !IsOpen(Feed(PktStart(ZeroLength(r)), bs)) && !IsOpen(Feed(ZeroLength(r), bs))
  {
    if bs != [] {
      NothingAfterZl(r, bs[..|bs| - 1]);
    }
  }

  /** The counters of the engine's model are these: as many bytes stored, as many counted. */
  lemma CountersAgree(x: Engine.Xfer, mem: seq<byte>, ptr: nat, bs: seq<byte>)
    requires x.bdLen < 1024 && x.len == 0 && |mem| == MEMORY && ptr < MEMORY && ptr + x.bdLen <= MEMORY
    ensures var x1 := Engine.Receive(x, |bs|);
            var r := if x.zl then Feed(PktStart(ZeroLength(Load(mem, ptr, x.bdLen))), bs)
                else Receive(mem, ptr, x.bdLen, bs);
            && x1.stored <= |bs| && r.mem == Patch(mem, ptr, bs[..x1.stored])
            && (!x.zl ==> x1.len == r.xferLength)
  {
    if x.zl {
      ClosedAgree(x, mem, ptr, bs);
    } else {
      WritesWhatFits(mem, ptr, x.bdLen, bs);
      Counted(mem, ptr, x.bdLen, bs);
      hide Receive, Feed;
    }
  }

  lemma ClosedAgree(x: Engine.Xfer, mem: seq<byte>, ptr: nat, bs: seq<byte>)
    requires x.bdLen < 1024 && |mem| == MEMORY && ptr < MEMORY
    ensures Feed(PktStart(ZeroLength(Load(mem, ptr, x.bdLen))), bs).mem == Patch(mem, ptr, bs[..0])
  {
    NothingAfterZl(Load(mem, ptr, x.bdLen), bs);
    assert Patch(mem, ptr, bs[..0]) == mem;
  }

  /** The counters and the buffer memory as the hardware keeps them. */
  class RxWindow {
    var addr: nat
    var bdLength: nat
    var xferLength: nat
    const mem: array<byte>

    ghost function View(): Regs
      reads this, mem
    {
      Regs(addr, bdLength, xferLength, mem[..])
    }

    method OnLoad(ptr: nat, len: nat)
      modifies this
      ensures View() == Load(old(mem[..]), ptr, len)
    {
      addr, bdLength, xferLength := ptr, OPEN + len, 0;
    }

    method OnPktStart()
      modifies this
      ensures View() == PktStart(old(View()))
    {
      if bdLength >= OPEN {
        bdLength := bdLength - 1;
      }
    }

    method OnData(b: byte)
      modifies this, mem
      ensures View() == DataByte(old(View()), b)
    {
      if bdLength >= OPEN {
        if addr < mem.Length {
          mem[addr] := b;
        }
        bdLength := bdLength - 1;
      }
      addr := (addr + 1) % MEMORY;
      xferLength := (xferLength + 1) % 1024;
    }

    method OnZl()
      modifies this
      ensures View() == ZeroLength(old(View()))
    {
      bdLength := 0;
    }
  }
}
