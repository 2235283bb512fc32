/** The serial CRC (rtl/usb_crc.v): a register kept inverted that refines the textbook one, the
    residue a receiver compares with, and the errors it is sure to detect (USB 2.0 section 8.3.5). */
module Crc {
  type Bits = seq<bool>

  function Zeros(n: nat): Bits {
    seq(n, _ => false)
  }

  function Ones(n: nat): Bits {
    seq(n, _ => true)
  }

  function Not(a: Bits): (r: Bits)
    ensures |r| == |a| && forall i :: 0 <= i < |a| ==> r[i] == !a[i]
  {
    seq(|a|, i requires 0 <= i < |a| => !a[i])
  }

  function Xor(a: Bits, b: Bits): (r: Bits)
    requires |a| == |b|
    ensures |r| == |a| && forall i :: 0 <= i < |a| ==> r[i] == (a[i] != b[i])
  {
    seq(|a|, i requires 0 <= i < |a| => a[i] != b[i])
  }

  // ---- The textbook register -----------------------------------------------------------------

  /** One bit: shift left, and subtract the polynomial if the bit shifted out differs from it.
      Registers are written most significant bit first. */
  function Step(poly: Bits, c: Bits, bit: bool): (r: Bits)
    requires |c| == |poly| > 0
    ensures |r| == |c|
  {
    var shifted := c[1..] + [false];
    if c[0] != bit then Xor(shifted, poly) else shifted
  }

  function Run(poly: Bits, c: Bits, bits: Bits): (r: Bits)
    requires |c| == |poly| > 0
    ensures |r| == |c|
  {
    if bits == [] then c else Step(poly, Run(poly, c, bits[..|bits| - 1]), bits[|bits| - 1])
  }

  /** The CRC of a message: start at all ones, and complement the remainder. */
  function CrcOf(poly: Bits, msg: Bits): Bits
    requires |poly| > 0
  {
    Not(Run(poly, Ones(|poly|), msg))
  }

  // ---- The register in hardware --------------------------------------------------------------

  function HwStep(poly: Bits, state: Bits, bit: bool, first: bool): (r: Bits)
    requires |state| == |poly| > 0
    ensures |r| == |state|
  {
    var fb := if first then Zeros(|state|) else state;
    var upd := if fb[0] == bit then poly else Zeros(|state|);
    Xor(fb[1..] + [true], upd)
  }

  /** The hardware's register is the complement of the textbook's. */
  lemma HwStepRefines(poly: Bits, state: Bits, bit: bool, first: bool)
    requires |state| == |poly| > 0
    ensures HwStep(poly, state, bit, first) == Not(Step(poly, if first then Ones(|poly|) else Not(state), bit))
  {
  }

  /** So, from a message's first bit on, it holds the message's CRC. */
  lemma Clocked(poly: Bits, state: Bits, fed: Bits, bit: bool, first: bool)
    requires |state| == |poly| > 0 && (first || state == CrcOf(poly, fed))
    ensures HwStep(poly, state, bit, first) == CrcOf(poly, if first then [bit] else fed + [bit])
  {
    HwStepRefines(poly, state, bit, first);
    if first {
      RunOne(poly, Ones(|poly|), bit);
    } else {
      RunSnoc(poly, Ones(|poly|), fed, bit);
      NotNot(Run(poly, Ones(|poly|), fed));
    }
  }

  class UsbCrc {
    const poly: Bits
    const match_: Bits
    var state: Bits
    ghost var fed: Bits

    /** The register holds the complement of the message's remainder, from its first bit on. */
    ghost predicate Valid()
      reads this
    {
      && |state| == |poly| == |match_| > 0
      && (fed != [] ==> state == CrcOf(poly, fed))
    }

    constructor (poly: Bits, match_: Bits, any: Bits)
      requires |poly| == |match_| == |any| > 0
      ensures Valid() && this.poly == poly && this.match_ == match_ && fed == []
    {
      this.poly, this.match_, state, fed := poly, match_, any, [];
    }

    /** A clock edge. */
    method Clock(inBit: bool, inFirst: bool, inValid: bool)
      requires Valid() && (inValid ==> inFirst || fed != [])
      modifies this
      ensures Valid() && fed == if !inValid then old(fed) else if inFirst then [inBit] else old(fed) + [inBit]
      ensures !inValid ==> state == old(state)
    {
      if inValid {
        Clocked(poly, state, fed, inBit, inFirst);
        state := HwStep(poly, state, inBit, inFirst);
        fed := if inFirst then [inBit] else fed + [inBit];
      }
    }

    /** The bits to send, lowest index first. */
    function Output(): (r: Bits)
      requires Valid() && fed != []
      reads this
      ensures r == CrcOf(poly, fed)
    {
      state
    }

    function Matches(): bool
      reads this
    {
      state == Not(match_)
    }
  }

  lemma NotNot(a: Bits)
    ensures Not(Not(a)) == a
  {
  }

  lemma RunSnoc(poly: Bits, c: Bits, bits: Bits, bit: bool)
    requires |c| == |poly| > 0
    ensures Run(poly, c, bits + [bit]) == Step(poly, Run(poly, c, bits), bit)
  {
    assert (bits + [bit])[..|bits|] == bits;
  }

  lemma RunOne(poly: Bits, c: Bits, bit: bool)
    requires |c| == |poly| > 0
    ensures Run(poly, c, [bit]) == Step(poly, c, bit)
  {
    RunSnoc(poly, c, [], bit);
  }

  lemma {:induction false} RunCat(poly: Bits, c: Bits, a: Bits, b: Bits)
    requires |c| == |poly| > 0
    ensures Run(poly, c, a + b) == Run(poly, Run(poly, c, a), b)
  {
    if b == [] {
      assert a + b == a;
    } else {
      RunCat(poly, c, a, b[..|b| - 1]);
      assert a + b == (a + b[..|b| - 1]) + [b[|b| - 1]];
      RunSnoc(poly, c, a + b[..|b| - 1], b[|b| - 1]);
    }
  }

  // ---- Algebra -------------------------------------------------------------------------------

  lemma StepLinear(poly: Bits, c: Bits, d: Bits, x: bool, y: bool)
    requires |c| == |d| == |poly| > 0
    ensures Step(poly, Xor(c, d), x != y) == Xor(Step(poly, c, x), Step(poly, d, y))
  {
  }

  /** The register is linear in its start and its input together. */
  lemma {:induction false} RunLinear(poly: Bits, c: Bits, d: Bits, x: Bits, y: Bits)
    requires |c| == |d| == |poly| > 0 && |x| == |y|
    ensures Run(poly, Xor(c, d), Xor(x, y)) == Xor(Run(poly, c, x), Run(poly, d, y))
  {
    if x != [] {
      var n := |x| - 1;
      RunLinear(poly, c, d, x[..n], y[..n]);
      assert Xor(x, y)[..n] == Xor(x[..n], y[..n]);
      StepLinear(poly, Run(poly, c, x[..n]), Run(poly, d, y[..n]), x[n], y[n]);
    }
  }

  /** The bit that comes in last tells whether the polynomial was subtracted. */
  lemma TopBit(poly: Bits, c: Bits)
    requires |c| == |poly| > 0 && poly[|poly| - 1]
    ensures Step(poly, c, false)[|poly| - 1] == c[0]
  {
    assert (c[1..] + [false])[|poly| - 1] == false;
  }

  /** With an odd polynomial a step loses nothing: only zero steps to zero on a zero bit. */
  lemma StepInjective(poly: Bits, c: Bits)
    requires |c| == |poly| > 0 && poly[|poly| - 1]
    requires Step(poly, c, false) == Zeros(|poly|)
    ensures c == Zeros(|poly|)
  {
    var s := Step(poly, c, false);
    var shifted := c[1..] + [false];
    TopBit(poly, c);
    forall i | 0 <= i < |c| ensures !c[i] {
      if i > 0 {
        assert shifted[i - 1] == s[i - 1];
      }
    }
  }

  lemma {:induction false} RunZerosInjective(poly: Bits, c: Bits, n: nat)
    requires |c| == |poly| > 0 && poly[|poly| - 1]
    requires Run(poly, c, Zeros(n)) == Zeros(|poly|)
    ensures c == Zeros(|poly|)
  {
    if n > 0 {
      assert Zeros(n)[..n - 1] == Zeros(n - 1);
      StepInjective(poly, Run(poly, c, Zeros(n - 1)));
      RunZerosInjective(poly, c, n - 1);
    }
  }

  /** Feeding a register its own first bits shifts them out and subtracts nothing. */
  lemma {:induction false} SelfFeed(poly: Bits, c: Bits, k: nat)
    requires |c| == |poly| > 0 && k <= |c|
    ensures Run(poly, c, c[..k]) == c[k..] + Zeros(k)
  {
    if k == 0 {
      assert c[..0] == [];
    } else {
      SelfFeed(poly, c, k - 1);
      assert c[..k][..k - 1] == c[..k - 1];
      assert (c[k - 1..] + Zeros(k - 1))[1..] + [false] == c[k..] + Zeros(k);
    }
  }

  lemma XorZeros(a: Bits, z: Bits)
    requires z == Zeros(|a|)
    ensures Xor(a, z) == a
  {
  }

  lemma ZerosXor(z: Bits, a: Bits)
    requires z == Zeros(|a|)
    ensures Xor(z, a) == a
  {
  }

  lemma XorSelf(a: Bits)
    ensures Xor(a, a) == Zeros(|a|)
  {
  }

  lemma XorOnes(a: Bits)
    ensures Xor(a, Ones(|a|)) == Not(a)
  {
  }

  lemma XorCancels(a: Bits, r: Bits)
    requires |a| == |r| && Xor(a, r) == a
    ensures r == Zeros(|a|)
  {
    forall i | 0 <= i < |a| ensures !r[i] {
      assert Xor(a, r)[i] == a[i];
    }
  }

  lemma XorBack(x: Bits, y: Bits)
    requires |x| == |y|
    ensures Xor(x, Xor(x, y)) == y
  {
  }

  /** Two inputs leave the same register if and only if their difference leaves zero. */
  lemma Differ(poly: Bits, c: Bits, x: Bits, y: Bits, d: Bits)
    requires |c| == |poly| > 0 && |x| == |y| && d == Xor(x, y)
    ensures Run(poly, c, y) == Xor(Run(poly, c, x), Run(poly, Zeros(|poly|), d))
    ensures Run(poly, c, x) == Run(poly, c, y) <==> Run(poly, Zeros(|poly|), d) == Zeros(|poly|)
  {
    var z := Zeros(|poly|);
    var r, s := Run(poly, z, d), Run(poly, c, x);
    RunLinear(poly, c, z, x, d);
    XorZeros(c, z);
    XorBack(x, y);
    if s == Run(poly, c, y) {
      XorCancels(s, r);
    }
    if r == z {
      XorZeros(s, z);
    }
  }

  /** A register fed its own first bits, and none after, is fed back to nothing. */
  lemma Padded(poly: Bits, b: Bits) returns (c: Bits)
    requires 0 < |poly| && |b| <= |poly|
    ensures |c| == |poly| && c[..|b|] == b && Run(poly, c, b) == Zeros(|poly|)
  {
    c := b + Zeros(|poly| - |b|);
    SelfFeed(poly, c, |b|);
    assert c[..|b|] == b;
    assert c[|b|..] + Zeros(|b|) == Zeros(|poly|);
  }

  /** A non-zero input no longer than the register leaves it non-zero. */
  lemma ShortNonZero(poly: Bits, b: Bits)
    requires 0 < |poly| && poly[|poly| - 1] && |b| <= |poly|
    requires Run(poly, Zeros(|poly|), b) == Zeros(|poly|)
    ensures b == Zeros(|b|)
  {
    var c := Padded(poly, b);
    var z := Zeros(|poly|);
    RunLinear(poly, c, z, b, b);
    XorZeros(c, z);
    XorSelf(b);
    XorZeros(z, z);
    RunZerosInjective(poly, c, |b|);
    assert c[..|b|] == Zeros(|b|);
  }

  lemma {:induction false} ZerosStay(poly: Bits, n: nat)
    requires 0 < |poly|
    ensures Run(poly, Zeros(|poly|), Zeros(n)) == Zeros(|poly|)
  {
    if n > 0 {
      assert Zeros(n)[..n - 1] == Zeros(n - 1);
      ZerosStay(poly, n - 1);
    }
  }

  /** What a receiver's register holds after a message and its CRC: the same whatever the message. */
  function Residue(poly: Bits): Bits
    requires 0 < |poly|
  {
    Run(poly, Zeros(|poly|), Ones(|poly|))
  }

  predicate Accepts(poly: Bits, received: Bits)
    requires 0 < |poly|
  {
    Run(poly, Ones(|poly|), received) == Residue(poly)
  }

  /** Every message followed by its CRC leaves the residue. */
  lemma CrcAccepted(poly: Bits, msg: Bits)
    requires 0 < |poly|
    ensures Accepts(poly, msg + CrcOf(poly, msg))
  {
    var w := |poly|;
    var c := Run(poly, Ones(w), msg);
    RunCat(poly, Ones(w), msg, Not(c));
    SelfFeed(poly, c, w);
    assert c[..w] == c && c[w..] + Zeros(w) == Zeros(w);
    RunLinear(poly, c, Zeros(w), c, Ones(w));
    XorZeros(c, Zeros(w));
    XorOnes(c);
    ZerosXor(Zeros(w), Residue(poly));
  }

  /** A receiver that compares with the residue accepts a message if and only if it is followed by
      its CRC. */
  lemma ResidueExact(poly: Bits, msg: Bits, tail: Bits)
    requires 0 < |poly| == |tail| && poly[|poly| - 1]
    ensures Accepts(poly, msg + tail) <==> tail == CrcOf(poly, msg)
  {
    var w := |poly|;
    var crc := CrcOf(poly, msg);
    var c := Run(poly, Ones(w), msg);
    CrcAccepted(poly, msg);
    RunCat(poly, Ones(w), msg, tail);
    RunCat(poly, Ones(w), msg, crc);
    var d := Xor(crc, tail);
    Differ(poly, c, crc, tail, d);
    if Accepts(poly, msg + tail) {
      ShortNonZero(poly, d);
      XorBack(crc, tail);
      XorZeros(crc, d);
    }
  }

  /** An error of at most the register's width, anywhere, leaves the register non-zero. */
  lemma BurstLeaves(poly: Bits, before: nat, b: Bits, after: nat)
    requires 0 < |poly| && poly[|poly| - 1] && |b| <= |poly|
    requires Run(poly, Zeros(|poly|), Zeros(before) + b + Zeros(after)) == Zeros(|poly|)
    ensures b == Zeros(|b|)
  {
    var z := Zeros(|poly|);
    RunCat(poly, z, Zeros(before) + b, Zeros(after));
    RunCat(poly, z, Zeros(before), b);
    ZerosStay(poly, before);
    RunZerosInjective(poly, Run(poly, z, b), after);
    ShortNonZero(poly, b);
  }

  /** An error confined to as many consecutive bits as the CRC has is always detected, wherever it
      is in the message and its CRC, and whatever their length. */
  lemma BurstDetected(poly: Bits, word: Bits, before: nat, b: Bits, after: nat)
    requires 0 < |poly| && poly[|poly| - 1] && |b| <= |poly| && |word| == before + |b| + after
    requires Accepts(poly, word)
    requires b != Zeros(|b|)
    ensures !Accepts(poly, Xor(word, Zeros(before) + b + Zeros(after)))
  {
    var err := Zeros(before) + b + Zeros(after);
    XorBack(word, err);
    Differ(poly, Ones(|poly|), word, Xor(word, err), err);
    if Accepts(poly, Xor(word, err)) {
      BurstLeaves(poly, before, b, after);
    }
  }

  // ---- The two instances ---------------------------------------------------------------------

  /** The polynomial and the residue the receiver is built with: 0x05 and 0x0C. */
  const POLY5: Bits := [false, false, true, false, true]
  const MATCH5: Bits := [false, true, true, false, false]

  /** The polynomial and the residue the receiver is built with: 0x8005 and 0x800D. */
  const POLY16: Bits := [true, false, false, false, false, false, false, false, false, false, false, false, false,
      true, false, true]
  const MATCH16: Bits := [true, false, false, false, false, false, false, false, false, false, false, false, true,
      true, false, true]

  /** One step of the residue, bit by bit. */
  lemma {:induction false} OnesSnoc(poly: Bits, n: nat)
    requires 0 < |poly|
    ensures Run(poly, Zeros(|poly|), Ones(n + 1)) == Step(poly, Run(poly, Zeros(|poly|), Ones(n)), true)
  {
    assert Ones(n + 1) == Ones(n) + [true];
    RunSnoc(poly, Zeros(|poly|), Ones(n), true);
  }

  lemma Residue5From0(n: nat)
    requires Run(POLY5, Zeros(5), Ones(n)) == [false, false, false, false, false]
    ensures Run(POLY5, Zeros(5), Ones(n + 5)) == [false, true, true, false, false]
  {
    OnesSnoc(POLY5, n);
    assert Run(POLY5, Zeros(5), Ones(n + 1)) == [false, false, true, false, true];
    OnesSnoc(POLY5, n + 1);
    assert Run(POLY5, Zeros(5), Ones(n + 2)) == [false, true, true, true, true];
    OnesSnoc(POLY5, n + 2);
    assert Run(POLY5, Zeros(5), Ones(n + 3)) == [true, true, false, true, true];
    OnesSnoc(POLY5, n + 3);
    assert Run(POLY5, Zeros(5), Ones(n + 4)) == [true, false, true, true, false];
    OnesSnoc(POLY5, n + 4);
  }

  lemma Residue16From0(n: nat)
    requires Run(POLY16, Zeros(16), Ones(n))
      == [false, false, false, false, false, false, false, false, false, false, false, false, false, false, false,
         false]
    ensures Run(POLY16, Zeros(16), Ones(n + 2))
      == [false, false, false, false, false, false, false, false, false, false, false, false, true, false, true, false]
  {
    hide Run;
    OnesSnoc(POLY16, n);
    assert Run(POLY16, Zeros(16), Ones(n + 1))
        == [true, false, false, false, false, false, false, false, false, false, false, false, false, true, false,
           true];
    OnesSnoc(POLY16, n + 1);
  }

  lemma Residue16From2(n: nat)
    requires Run(POLY16, Zeros(16), Ones(n))
      == [false, false, false, false, false, false, false, false, false, false, false, false, true, false, true, false]
    ensures Run(POLY16, Zeros(16), Ones(n + 2))
      == [false, false, false, false, false, false, false, false, false, false, true, false, false, false, true, false]
  {
    hide Run;
    OnesSnoc(POLY16, n);
    assert Run(POLY16, Zeros(16), Ones(n + 1))
        == [true, false, false, false, false, false, false, false, false, false, false, true, false, false, false,
           true];
    OnesSnoc(POLY16, n + 1);
  }

  lemma Residue16From4(n: nat)
    requires Run(POLY16, Zeros(16), Ones(n))
      == [false, false, false, false, false, false, false, false, false, false, true, false, false, false, true, false]
    ensures Run(POLY16, Zeros(16), Ones(n + 2))
      == [false, false, false, false, false, false, false, false, true, false, false, false, false, false, true, false]
  {
    hide Run;
    OnesSnoc(POLY16, n);
    assert Run(POLY16, Zeros(16), Ones(n + 1))
        == [true, false, false, false, false, false, false, false, false, true, false, false, false, false, false,
           true];
    OnesSnoc(POLY16, n + 1);
  }

  lemma Residue16From6(n: nat)
    requires Run(POLY16, Zeros(16), Ones(n))
      == [false, false, false, false, false, false, false, false, true, false, false, false, false, false, true, false]
    ensures Run(POLY16, Zeros(16), Ones(n + 2))
      == [false, false, false, false, false, false, true, false, false, false, false, false, false, false, true, false]
  {
    hide Run;
    OnesSnoc(POLY16, n);
    assert Run(POLY16, Zeros(16), Ones(n + 1))
        == [true, false, false, false, false, false, false, true, false, false, false, false, false, false, false,
           true];
    OnesSnoc(POLY16, n + 1);
  }

  lemma Residue16From8(n: nat)
    requires Run(POLY16, Zeros(16), Ones(n))
      == [false, false, false, false, false, false, true, false, false, false, false, false, false, false, true, false]
    ensures Run(POLY16, Zeros(16), Ones(n + 2))
      == [false, false, false, false, true, false, false, false, false, false, false, false, false, false, true, false]
  {
    hide Run;
    OnesSnoc(POLY16, n);
    assert Run(POLY16, Zeros(16), Ones(n + 1))
        == [true, false, false, false, false, true, false, false, false, false, false, false, false, false, false,
           true];
    OnesSnoc(POLY16, n + 1);
  }

  lemma Residue16From10(n: nat)
    requires Run(POLY16, Zeros(16), Ones(n))
      == [false, false, false, false, true, false, false, false, false, false, false, false, false, false, true, false]
    ensures Run(POLY16, Zeros(16), Ones(n + 2))
      == [false, false, true, false, false, false, false, false, false, false, false, false, false, false, true, false]
  {
    hide Run;
    OnesSnoc(POLY16, n);
    assert Run(POLY16, Zeros(16), Ones(n + 1))
        == [true, false, false, true, false, false, false, false, false, false, false, false, false, false, false,
           true];
    OnesSnoc(POLY16, n + 1);
  }

  lemma Residue16From12(n: nat)
    requires Run(POLY16, Zeros(16), Ones(n))
      == [false, false, true, false, false, false, false, false, false, false, false, false, false, false, true, false]
    ensures Run(POLY16, Zeros(16), Ones(n + 2))
      == [true, false, false, false, false, false, false, false, false, false, false, false, false, false, true, false]
  {
    hide Run;
    OnesSnoc(POLY16, n);
    assert Run(POLY16, Zeros(16), Ones(n + 1))
        == [true, true, false, false, false, false, false, false, false, false, false, false, false, false, false,
           true];
    OnesSnoc(POLY16, n + 1);
  }

  lemma Residue16From14(n: nat)
    requires Run(POLY16, Zeros(16), Ones(n))
      == [true, false, false, false, false, false, false, false, false, false, false, false, false, false, true, false]
    ensures Run(POLY16, Zeros(16), Ones(n + 2))
      == [true, false, false, false, false, false, false, false, false, false, false, false, true, true, false, true]
  {
    hide Run;
    OnesSnoc(POLY16, n);
    assert Run(POLY16, Zeros(16), Ones(n + 1))
        == [false, false, false, false, false, false, false, false, false, false, false, false, false, true, false,
           false];
    OnesSnoc(POLY16, n + 1);
  }

  lemma NothingRun(poly: Bits, n: nat)
    requires 0 < |poly| && n == 0
    ensures Run(poly, Zeros(|poly|), Ones(n)) == Zeros(|poly|)
  {
    assert Ones(n) == [];
  }

  lemma Residue5(n: nat)
    requires n == 0
    ensures Run(POLY5, Zeros(5), Ones(n + 5)) == MATCH5
  {
    NothingRun(POLY5, n);
    Residue5From0(n);
  }

  lemma Residue16(n: nat)
    requires n == 0
    ensures Run(POLY16, Zeros(16), Ones(n + 16)) == MATCH16
  {
    NothingRun(POLY16, n);
    assert Zeros(16) == [false, false, false, false, false, false, false, false,
                         false, false, false, false, false, false, false, false];
    hide Run, Step, Ones, Zeros;
    Residue16From0(n);
    Residue16From2(n + 2);
    Residue16From4(n + 4);
    Residue16From6(n + 6);
    Residue16From8(n + 8);
    Residue16From10(n + 10);
    Residue16From12(n + 12);
    Residue16From14(n + 14);
  }

  lemma ZerosSnoc(n: nat)
    ensures Run(POLY16, Ones(16), Zeros(n + 1)) == Step(POLY16, Run(POLY16, Ones(16), Zeros(n)), false)
  {
    assert Zeros(n + 1) == Zeros(n) + [false];
    RunSnoc(POLY16, Ones(16), Zeros(n), false);
  }

  lemma ZerosFrom0(n: nat)
    requires Run(POLY16, Ones(16), Zeros(n))
          == [true, true, true, true, true, true, true, true,
              true, true, true, true, true, true, true, true]
    ensures Run(POLY16, Ones(16), Zeros(n + 2))
         == [true, true, true, true, true, true, true, true,
             true, true, true, true, false, true, true, false]
  {
    hide Run, Zeros, Ones;
    ZerosFirst(n);
    ZerosSnoc(n + 1);
  }

  lemma ZerosFirst(n: nat)
    requires Run(POLY16, Ones(16), Zeros(n))
          == [true, true, true, true, true, true, true, true,
              true, true, true, true, true, true, true, true]
    ensures Run(POLY16, Ones(16), Zeros(n + 1))
         == [false, true, true, true, true, true, true, true,
             true, true, true, true, true, false, true, true]
  {
    hide Run, Zeros, Ones;
    ZerosSnoc(n);
  }

  lemma ZerosFrom2(n: nat)
    requires Run(POLY16, Ones(16), Zeros(n))
          == [true, true, true, true, true, true, true, true,
              true, true, true, true, false, true, true, false]
    ensures Run(POLY16, Ones(16), Zeros(n + 2))
         == [true, true, true, true, true, true, true, true,
             true, true, false, true, false, false, true, false]
  {
    hide Run, Zeros, Ones;
    ZerosSnoc(n);
    assert Run(POLY16, Ones(16), Zeros(n + 1))
        == [false, true, true, true, true, true, true, true,
            true, true, true, false, true, false, false, true];
    ZerosSnoc(n + 1);
  }

  lemma ZerosFrom4(n: nat)
    requires Run(POLY16, Ones(16), Zeros(n))
          == [true, true, true, true, true, true, true, true,
              true, true, false, true, false, false, true, false]
    ensures Run(POLY16, Ones(16), Zeros(n + 2))
         == [true, true, true, true, true, true, true, true,
             false, true, false, false, false, false, true, false]
  {
    hide Run, Zeros, Ones;
    ZerosSnoc(n);
    assert Run(POLY16, Ones(16), Zeros(n + 1))
        == [false, true, true, true, true, true, true, true,
            true, false, true, false, false, false, false, true];
    ZerosSnoc(n + 1);
  }

  lemma ZerosFrom6(n: nat)
    requires Run(POLY16, Ones(16), Zeros(n))
          == [true, true, true, true, true, true, true, true,
              false, true, false, false, false, false, true, false]
    ensures Run(POLY16, Ones(16), Zeros(n + 2))
         == [true, true, true, true, true, true, false, true,
             false, false, false, false, false, false, true, false]
  {
    hide Run, Zeros, Ones;
    ZerosSnoc(n);
    assert Run(POLY16, Ones(16), Zeros(n + 1))
        == [false, true, true, true, true, true, true, false,
            true, false, false, false, false, false, false, true];
    ZerosSnoc(n + 1);
  }

  /** The register after a zero byte. */
  lemma ZeroByte(n: nat)
    requires n == 0
    ensures !Run(POLY16, Ones(16), Zeros(n + 8))[15]
  {
    assert Zeros(n) == [];
    assert Run(POLY16, Ones(16), Zeros(n)) == Ones(16);
    assert Ones(16) == [true, true, true, true, true, true, true, true,
                        true, true, true, true, true, true, true, true];
    hide Run, Step, Zeros, Ones;
    ZerosFrom0(n);
    ZerosFrom2(n + 2);
    ZerosFrom4(n + 4);
    ZerosFrom6(n + 6);
  }

  /** Two ways to leave the same register, by an input and by zeroes: the start of the second differs
      from that of the first in the input's bits only. */
  lemma LastsAgree(poly: Bits, x: Bits, s: Bits)
    requires |s| == |poly| > 0 && poly[|poly| - 1] && |x| < |poly|
    requires Run(poly, Ones(|poly|), x) == Run(poly, s, Zeros(|x|))
    ensures s[|poly| - 1]
  {
    hide Run, Step, Xor;
    var w := |poly|;
    var t := Xor(Ones(w), s);
    var c := Padded(poly, x);
    RunLinear(poly, Ones(w), s, x, Zeros(|x|));
    XorZeros(x, Zeros(|x|));
    XorSelf(Run(poly, s, Zeros(|x|)));
    RunLinear(poly, t, c, x, x);
    XorSelf(x);
    XorZeros(Zeros(w), Zeros(w));
    RunZerosInjective(poly, Xor(t, c), |x|);
    PaddedEnd(poly, x, c);
    OnesMeet(s, c);
  }

  lemma OnesMeet(s: Bits, c: Bits)
    requires |s| == |c| > 0 && Xor(Xor(Ones(|s|), s), c) == Zeros(|s|) && !c[|s| - 1]
    ensures s[|s| - 1]
  {
    assert Xor(Xor(Ones(|s|), s), c)[|s| - 1] == false;
  }

  lemma PaddedEnd(poly: Bits, b: Bits, c: Bits)
    requires 0 < |poly| && |b| < |poly| && |c| == |poly|
    requires c[..|b|] == b && Run(poly, c, b) == Zeros(|poly|)
    ensures !c[|poly| - 1]
  {
    SelfFeed(poly, c, |b|);
    assert (c[|b|..] + Zeros(|b|))[|poly| - 1 - |b|] == c[|poly| - 1];
  }

  /** A message without the space for a CRC is never taken for one with it: not a single byte. */
  lemma ByteRefused(x: Bits)
    requires |x| == 8
    ensures !Accepts(POLY16, x)
  {
    var s := Run(POLY16, Ones(16), Zeros(8));
    CrcAccepted(POLY16, []);
    assert [] + CrcOf(POLY16, []) == Zeros(8) + Zeros(8);
    RunCat(POLY16, Ones(16), Zeros(8), Zeros(8));
    ZeroByte(0);
    if Accepts(POLY16, x) {
      LastsAgree(POLY16, x, s);
    }
  }

  /** Nor a single bit. */
  lemma BitRefused(bit: bool)
    ensures Run(POLY16, Ones(16), [bit]) != MATCH16
  {
    RunOne(POLY16, Ones(16), bit);
    assert Step(POLY16, Ones(16), bit)[1];
  }

  /** The comparison values are the residues. */
  lemma Residues()
    ensures Residue(POLY5) == MATCH5 && Residue(POLY16) == MATCH16
  {
    Residue5(0);
    Residue16(0);
  }

  lemma NotInjective(a: Bits, b: Bits)
    ensures Not(a) == Not(b) <==> a == b
  {
    if Not(a) == Not(b) {
      assert forall i :: 0 <= i < |a| ==> a[i] == !Not(a)[i] && b[i] == !Not(b)[i];
    }
  }

  /** A register that has been fed a whole message and what followed it signals a match if and only
      if what followed is the message's CRC. */
  lemma MatchMeans(u: UsbCrc, msg: Bits, tail: Bits)
    requires u.Valid() && u.fed == msg + tail && msg != [] && |tail| == |u.poly|
    requires u.poly[|u.poly| - 1] && u.match_ == Residue(u.poly)
    ensures u.Matches() <==> tail == CrcOf(u.poly, msg)
  {
    NotInjective(Run(u.poly, Ones(|u.poly|), msg + tail), u.match_);
    ResidueExact(u.poly, msg, tail);
  }
}
