/** Bytes, packets of bytes laid end to end, and copying by words (the TinyUSB driver's buffer
    accesses). */
module Bytes {
  type byte = x: int | 0 <= x < 256

  function Flat(packets: seq<seq<byte>>): seq<byte> {
    if packets == [] then [] else packets[0] + Flat(packets[1..])
  }

  lemma {:induction false} FlatAppend(a: seq<seq<byte>>, b: seq<seq<byte>>)
    ensures Flat(a + b) == Flat(a) + Flat(b)
  {
    if a == [] {
      assert a + b == b;
    } else {
      hide Flat;
      FlatAppend(a[1..], b);
      FlatJoin(a[0], a[1..], b);
      assert a == [a[0]] + a[1..];
    }
  }

  lemma FlatJoin(p: seq<byte>, rest: seq<seq<byte>>, b: seq<seq<byte>>)
    requires Flat(rest + b) == Flat(rest) + Flat(b)
    ensures Flat([p] + rest + b) == Flat([p] + rest) + Flat(b)
  {
    hide Flat;
    FlatCons(p, rest, [p] + rest);
    FlatCons(p, rest + b, [p] + rest + b);
  }

  lemma FlatCons(p: seq<byte>, rest: seq<seq<byte>>, a: seq<seq<byte>>)
    requires a == [p] + rest
    ensures Flat(a) == p + Flat(rest)
  {
    assert a[1..] == rest;
  }

  predicate IsPrefix<T(==)>(a: seq<T>, b: seq<T>) {
    |a| <= |b| && a == b[..|a|]
  }

  lemma FlatPrefix(a: seq<seq<byte>>, b: seq<seq<byte>>)
    requires IsPrefix(a, b)
    ensures IsPrefix(Flat(a), Flat(b))
  {
    FlatAppend(a, b[|a|..]);
    assert b == a + b[|a|..];
  }

  /** The length rounded up to whole 32-bit words. */
  function Words(len: nat): nat {
    (len + 3) / 4 * 4
  }

  /** The memory after whole words of `src` are written at `dst`. */
  function Patch(mem: seq<byte>, dst: nat, src: seq<byte>): seq<byte>
    requires dst + |src| <= |mem|
  {
    mem[..dst] + src + mem[dst + |src|..]
  }

  lemma PatchInside(mem: seq<byte>, dst: nat, src: seq<byte>, len: nat)
    requires dst + |src| <= |mem| && len <= |src|
    ensures Patch(mem, dst, src)[dst..dst + len] == src[..len]
  {
    assert Patch(mem, dst, src)[dst..dst + |src|] == src;
    assert Patch(mem, dst, src)[dst..dst + |src|][..len] == Patch(mem, dst, src)[dst..dst + len];
  }

  /** Bytes that no written word covers stay. */
  lemma PatchOutside(mem: seq<byte>, dst: nat, src: seq<byte>, at: nat, len: nat)
    requires dst + |src| <= |mem| && at + len <= |mem|
    requires at + len <= dst || dst + |src| <= at
    ensures |Patch(mem, dst, src)| == |mem| && Patch(mem, dst, src)[at..at + len] == mem[at..at + len]
  {
    var p := Patch(mem, dst, src);
    assert forall k :: at <= k < at + len ==> p[k] == mem[k];
  }

  /** Byte by byte: `m` is `was` with the first `len` bytes of `src` written at `dst`. */
  predicate Written(m: seq<byte>, was: seq<byte>, dst: nat, src: seq<byte>, from: nat, len: nat) {
    && |m| == |was| && dst + len <= |was| && from + len <= |src|
    && (forall i :: 0 <= i < |m| ==> m[i] == if dst <= i < dst + len then src[from + i - dst] else was[i])
  }

  lemma WrittenIsPatch(m: seq<byte>, was: seq<byte>, dst: nat, src: seq<byte>, from: nat, len: nat)
    requires Written(m, was, dst, src, from, len)
    ensures m == Patch(was, dst, src[from..from + len])
  {
  }

  /** One 32-bit access. */
  method PutWord(mem: array<byte>, dst: nat, src: seq<byte>, from: nat)
    requires from + 4 <= |src| && dst + 4 <= mem.Length
    modifies mem
    ensures forall i :: 0 <= i < mem.Length ==>
              mem[i] == if dst <= i < dst + 4 then src[from + i - dst] else old(mem[i])
  {
    mem[dst], mem[dst + 1], mem[dst + 2], mem[dst + 3] := src[from], src[from + 1], src[from + 2], src[from + 3];
  }

  /** Copy into the transmit memory, a word at a time: past the end of an odd length the copy
      goes on to the end of the last word, with whatever follows the source. */
  method WriteWords(mem: array<byte>, dst: nat, src: seq<byte>, len: nat)
    requires Words(len) <= |src| && dst + Words(len) <= mem.Length
    modifies mem
    ensures mem[..] == Patch(old(mem[..]), dst, src[..Words(len)])
  {
    var n := (len + 3) / 4;
    var k := 0;
    ghost var was := mem[..];
    while k < n
      invariant 0 <= k <= n
      invariant Written(mem[..], was, dst, src, 0, 4 * k)
    {
      PutWord(mem, dst + 4 * k, src, 4 * k);
      k := k + 1;
    }
    WrittenIsPatch(mem[..], was, dst, src, 0, 4 * n);
  }

  /** Copy out of the receive memory: whole words, then the bytes left over of one more. */
  method ReadBytes(dst: array<byte>, ofs: nat, mem: seq<byte>, src: nat, len: nat)
    requires ofs + len <= dst.Length && src + Words(len) <= |mem|
    modifies dst
    ensures dst[..] == Patch(old(dst[..]), ofs, mem[src..src + len])
  {
    var n := len / 4;
    var k := 0;
    ghost var was := dst[..];
    while k < n
      invariant 0 <= k <= n
      invariant Written(dst[..], was, ofs, mem, src, 4 * k)
    {
      PutWord(dst, ofs + 4 * k, mem, src + 4 * k);
      k := k + 1;
    }
    var j := 4 * n;
    while j < len
      invariant 4 * n <= j <= len
      invariant Written(dst[..], was, ofs, mem, src, j)
    {
      dst[ofs + j] := mem[src + j];
      j := j + 1;
    }
    WrittenIsPatch(dst[..], was, ofs, mem, src, len);
  }
}
