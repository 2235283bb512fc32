/** Descriptors and buffer memory (fw/v0/src/usb.c): searching a configuration's chain of
    descriptors, and giving out buffers for its endpoints. */
module Descriptors {
  import opened Isa
  import opened Bytes

  const DT_INTF := 4
  const DT_EP := 5

  type Raw = seq<byte>

  // ---- Chains ----------------------------------------------------------------------------------

  /** A descriptor long enough for its type. */
  predicate Shaped(b: Raw, p: nat)
    requires p + 2 <= |b|
  {
    && 2 <= b[p] && (b[p + 1] == DT_INTF ==> 9 <= b[p]) && (b[p + 1] == DT_EP ==> 7 <= b[p])
  }

  /** Descriptors end to end from one place to another. */
  predicate Chain(b: Raw, p: nat, e: nat)
    requires e <= |b|
    decreases e - p
  {
    p == e || (p + 2 <= e && Shaped(b, p) && p + b[p] <= e && Chain(b, p + b[p], e))
  }

  /** The places of its descriptors. */
  function Parse(b: Raw, p: nat, e: nat): seq<nat>
    requires e <= |b| && Chain(b, p, e)
    decreases e - p
  {
    if p == e then [] else [p] + Parse(b, p + b[p], e)
  }

  function First(ps: seq<nat>, f: nat -> bool): Option<nat> {
    if ps == [] then None else if f(ps[0]) then Some(ps[0]) else First(ps[1..], f)
  }

  function OfType(b: Raw, dt: nat): nat -> bool {
    (p: nat) => p + 2 <= |b| && b[p + 1] == dt
  }

  /** The last match of `g` up to and with the first match of `f`. */
  function LastUpTo(ps: seq<nat>, f: nat -> bool, g: nat -> bool, acc: Option<nat>): Option<nat> {
    if ps == [] then acc
    else
      var acc1 := if g(ps[0]) then Some(ps[0]) else acc;
      if f(ps[0]) then acc1 else LastUpTo(ps[1..], f, g, acc1)
  }

  /** An interface descriptor for the given number and alternate setting. */
  function ForIntf(b: Raw, idx: byte, alt: byte): nat -> bool {
    (p: nat) => p + 4 <= |b| && b[p + 1] == DT_INTF && b[p + 2] == idx && b[p + 3] == alt
  }

  lemma {:induction false} ParseFrom(b: Raw, p: nat, e: nat, q: nat)
    requires e <= |b| && Chain(b, p, e) && q in Parse(b, p, e)
    ensures p <= q && q + 2 <= e && Shaped(b, q) && q + b[q] <= e && Chain(b, q, e)
    decreases e - p
  {
    if q != p {
      ParseFrom(b, p + b[p], e, q);
    }
  }

  lemma {:induction false} FirstIn(ps: seq<nat>, f: nat -> bool)
    ensures First(ps, f).Some? ==> First(ps, f).value in ps && f(First(ps, f).value)
  {
    if ps != [] && !f(ps[0]) {
      FirstIn(ps[1..], f);
    }
  }

  /** `usb_desc_find` is a search of the parsed list. */
  method DescFind(b: Raw, sod: nat, eod: nat, dt: byte) returns (r: Option<nat>)
    requires eod <= |b| && Chain(b, sod, eod)
    ensures r == First(Parse(b, sod, eod), OfType(b, dt))
  {
    var p := sod;
    while eod - p >= 2
      invariant p <= eod && Chain(b, p, eod)
      invariant First(Parse(b, p, eod), OfType(b, dt)) == First(Parse(b, sod, eod), OfType(b, dt))
      decreases eod - p
    {
      if b[p + 1] == dt {
        return Some(p);
      }
      p := p + b[p];
    }
    r := None;
  }

  /** The next descriptor of a type, and that it is one. */
  method DescNext(b: Raw, sod: nat, eod: nat, dt: byte) returns (r: Option<nat>)
    requires eod <= |b| && Chain(b, sod, eod)
    ensures r == First(Parse(b, sod, eod), OfType(b, dt))
    ensures r.Some? ==>
      var p := r.value;
      && sod <= p && p + 2 <= eod && b[p + 1] == dt && Shaped(b, p) && p + b[p] <= eod
      && Chain(b, p, eod) && Chain(b, p + b[p], eod)
  {
    r := DescFind(b, sod, eod, dt);
    FirstIn(Parse(b, sod, eod), OfType(b, dt));
    if r.Some? {
      ParseFrom(b, sod, eod, r.value);
    }
  }

  /** The search that `usb_desc_find_intf` still has to do. */
  function Found(b: Raw, p: nat, e: nat, idx: byte, alt: byte): Option<nat>
    requires e <= |b| && Chain(b, p, e)
  {
    First(Parse(b, p, e), ForIntf(b, idx, alt))
  }

  function Found0(b: Raw, p: nat, e: nat, idx: byte, alt: byte, acc: Option<nat>): Option<nat>
    requires e <= |b| && Chain(b, p, e)
  {
    LastUpTo(Parse(b, p, e), ForIntf(b, idx, alt), ForIntf(b, idx, 0), acc)
  }

  /** Skipping what is no interface descriptor skips no match. */
  lemma {:induction false} SkipToIntf(b: Raw, p: nat, e: nat, idx: byte, alt: byte, acc: Option<nat>, n: Option<nat>)
    requires e <= |b| && Chain(b, p, e) && n == First(Parse(b, p, e), OfType(b, DT_INTF))
    ensures n.None? ==> Found(b, p, e, idx, alt) == None && Found0(b, p, e, idx, alt, acc) == acc
    ensures n.Some? && n.value < e && Chain(b, n.value, e) ==>
      && Found(b, p, e, idx, alt) == Found(b, n.value, e, idx, alt)
      && Found0(b, p, e, idx, alt, acc) == Found0(b, n.value, e, idx, alt, acc)
    decreases e - p
  {
    if p < e {
      OneStep(b, p, e, idx, alt, acc);
      assert ([p] + Parse(b, p + b[p], e))[1..] == Parse(b, p + b[p], e);
      if b[p + 1] != DT_INTF {
        SkipToIntf(b, p + b[p], e, idx, alt, acc, n);
      }
    }
  }

  lemma OneStep(b: Raw, p: nat, e: nat, idx: byte, alt: byte, acc: Option<nat>)
    requires e <= |b| && Chain(b, p, e) && p < e
    ensures p + b[p] <= e && Chain(b, p + b[p], e)
    ensures var f, acc1 := ForIntf(b, idx, alt)(p), if ForIntf(b, idx, 0)(p) then Some(p) else acc;
            && Found(b, p, e, idx, alt) == (if f then Some(p) else Found(b, p + b[p], e, idx, alt))
            && Found0(b, p, e, idx, alt, acc) == if f then acc1 else Found0(b, p + b[p], e, idx, alt, acc1)
  {
    assert ([p] + Parse(b, p + b[p], e))[1..] == Parse(b, p + b[p], e);
  }

  /** One round of the search: on to the next interface descriptor, and over it if it is no match. */
  lemma OneRound(b: Raw, p: nat, e: nat, idx: byte, alt: byte, acc: Option<nat>, n: nat, acc1: Option<nat>)
    requires e <= |b| && Chain(b, p, e) && First(Parse(b, p, e), OfType(b, DT_INTF)) == Some(n)
    requires n + 2 <= e && b[n + 1] == DT_INTF && Shaped(b, n) && n + b[n] <= e && Chain(b, n, e)
      && Chain(b, n + b[n], e)
    requires acc1 == if b[n + 2] == idx && b[n + 3] == 0 then Some(n) else acc
    ensures var hit := b[n + 2] == idx && b[n + 3] == alt;
            && Found(b, p, e, idx, alt) == (if hit then Some(n) else Found(b, n + b[n], e, idx, alt))
            && Found0(b, p, e, idx, alt, acc) == if hit then acc1 else Found0(b, n + b[n], e, idx, alt, acc1)
  {
    SkipToIntf(b, p, e, idx, alt, acc, Some(n));
    OneStep(b, n, e, idx, alt, acc);
  }

  /** `usb_desc_find_intf`: the first interface descriptor that matches, and the last one of its
      alternate setting 0 on the way there. */
  method DescFindIntf(b: Raw, conf: nat, eod: nat, idx: byte, alt: byte) returns (r: Option<nat>, alt0: Option<nat>)
    requires eod <= |b| && Chain(b, conf, eod)
    ensures r == First(Parse(b, conf, eod), ForIntf(b, idx, alt))
    ensures alt0 == LastUpTo(Parse(b, conf, eod), ForIntf(b, idx, alt), ForIntf(b, idx, 0), None)
  {
    var sod := conf;
    alt0 := None;
    while true
      invariant sod <= eod && Chain(b, sod, eod)
      invariant Found(b, sod, eod, idx, alt) == Found(b, conf, eod, idx, alt)
      invariant Found0(b, sod, eod, idx, alt, alt0) == Found0(b, conf, eod, idx, alt, None)
      decreases eod - sod
    {
      var n := DescNext(b, sod, eod, DT_INTF);
      if n.None? {
        SkipToIntf(b, sod, eod, idx, alt, alt0, n);
        return None, alt0;
      }
      var p := n.value;
      OneRound(b, sod, eod, idx, alt, alt0, p, if b[p + 2] == idx && b[p + 3] == 0 then Some(p) else alt0);
      if b[p + 2] == idx {
        if b[p + 3] == 0 {
          alt0 := Some(p);
        }
        if b[p + 3] == alt {
          return Some(p), alt0;
        }
      }
      sod := p + b[p];
    }
  }

  // ---- Endpoint buffers ------------------------------------------------------------------------

  /** The n-th next endpoint descriptors, while none is for the address. */
  function EpOf(b: Raw, p: nat, e: nat, n: nat, addr: byte): Option<nat>
    requires e <= |b| && Chain(b, p, e)
    decreases n
  {
    if n == 0 then None
    else match First(Parse(b, p, e), OfType(b, DT_EP))
      case None => None
      case Some(q) =>
        FirstIn(Parse(b, p, e), OfType(b, DT_EP));
        ParseFrom(b, p, e, q);
        if b[q + 2] == addr then Some(q) else EpOf(b, q + b[q], e, n - 1, addr)
  }

  /** The packet size an interface setting gives the endpoint, or none. */
  function SizeAt(b: Raw, i: nat, e: nat, addr: byte): nat
    requires e <= |b| && Chain(b, i, e) && i < e && b[i + 1] == DT_INTF
  {
    match EpOf(b, i + b[i], e, b[i + 4], addr)
    case None => 0
    case Some(q) =>
      EpOfIn(b, i + b[i], e, b[i + 4], addr);
      Le16(b[q + 4], b[q + 5])
  }

  function Le16(lo: int, hi: int): nat
    requires 0 <= lo && 0 <= hi
  {
    lo + 256 * hi
  }

  /** The places in a list that a test picks. */
  function Only(ps: seq<nat>, f: nat -> bool): seq<nat> {
    if ps == [] then [] else (if f(ps[0]) then [ps[0]] else []) + Only(ps[1..], f)
  }

  function Upto<T>(s: seq<T>, n: nat): seq<T> {
    if n < |s| then s[..n] else s
  }

  function ForEp(b: Raw, addr: byte): nat -> bool {
    (p: nat) => p + 3 <= |b| && b[p + 2] == addr
  }

  /** The nested search, flattened: of the next endpoint descriptors, as many as the interface declares,
      the first one with the address. */
  lemma {:induction false} EpOfIs(b: Raw, p: nat, e: nat, n: nat, addr: byte)
    requires e <= |b| && Chain(b, p, e)
    ensures EpOf(b, p, e, n, addr) == First(Upto(Only(Parse(b, p, e), OfType(b, DT_EP)), n), ForEp(b, addr))
    decreases e - p, n
  {
    hide EpOf, Only, Upto, First, Parse, Chain, ForEp, OfType;
    if n == 0 || p >= e {
      ChainEnds(b, p, e);
      EpOfNone(b, p, e, n, addr);
    } else {
      EpOfStep(b, p, e, n, addr);
      var rest := Parse(b, p + b[p], e);
      OnlyCons(p, rest, OfType(b, DT_EP));
      Types(b, p, e, addr);
      if b[p + 1] == DT_EP {
        FirstUpto(p, Only(rest, OfType(b, DT_EP)), n, ForEp(b, addr));
        EpOfIs(b, p + b[p], e, n - 1, addr);
      } else {
        EpOfIs(b, p + b[p], e, n, addr);
      }
    }
  }

  lemma ChainEnds(b: Raw, p: nat, e: nat)
    requires e <= |b| && Chain(b, p, e)
    ensures p <= e
  {
  }

  lemma EpOfNone(b: Raw, p: nat, e: nat, n: nat, addr: byte)
    requires e <= |b| && Chain(b, p, e) && (n == 0 || p == e)
    ensures EpOf(b, p, e, n, addr) == None == First(Upto(Only(Parse(b, p, e), OfType(b, DT_EP)), n), ForEp(b, addr))
  {
    assert n == 0 ==> Upto(Only(Parse(b, p, e), OfType(b, DT_EP)), n) == [];
  }

  lemma Types(b: Raw, p: nat, e: nat, addr: byte)
    requires e <= |b| && Chain(b, p, e) && p < e
    ensures p + 2 <= |b| && (OfType(b, DT_EP)(p) <==> b[p + 1] == DT_EP)
    ensures b[p + 1] == DT_EP ==> p + 3 <= |b| && (ForEp(b, addr)(p) <==> b[p + 2] == addr)
  {
  }

  lemma OnlyCons(p: nat, rest: seq<nat>, f: nat -> bool)
    ensures Only([p] + rest, f) == if f(p) then [p] + Only(rest, f) else Only(rest, f)
  {
    assert ([p] + rest)[1..] == rest;
  }

  lemma FirstUpto(p: nat, eps: seq<nat>, n: nat, f: nat -> bool)
    requires n > 0
    ensures First(Upto([p] + eps, n), f) == if f(p) then Some(p) else First(Upto(eps, n - 1), f)
  {
    assert Upto([p] + eps, n) == [p] + Upto(eps, n - 1);
    assert ([p] + Upto(eps, n - 1))[1..] == Upto(eps, n - 1);
  }

  lemma EpOfStep(b: Raw, p: nat, e: nat, n: nat, addr: byte)
    requires e <= |b| && Chain(b, p, e) && p < e && n > 0
    ensures p + 2 <= e && p < p + b[p] <= e && Chain(b, p + b[p], e) && Parse(b, p, e) == [p] + Parse(b, p + b[p], e)
    ensures b[p + 1] == DT_EP ==> p + 3 <= |b|
    ensures EpOf(b, p, e, n, addr)
      == if b[p + 1] != DT_EP then EpOf(b, p + b[p], e, n, addr)
         else if b[p + 2] == addr then Some(p) else EpOf(b, p + b[p], e, n - 1, addr)
  {
    assert ([p] + Parse(b, p + b[p], e))[1..] == Parse(b, p + b[p], e);
  }

  lemma {:induction false} EpOfIn(b: Raw, p: nat, e: nat, n: nat, addr: byte)
    requires e <= |b| && Chain(b, p, e)
    ensures EpOf(b, p, e, n, addr).Some? ==> EpOf(b, p, e, n, addr).value + 7 <= e
    decreases n
  {
    var f := First(Parse(b, p, e), OfType(b, DT_EP));
    if n > 0 && f.Some? {
      FirstIn(Parse(b, p, e), OfType(b, DT_EP));
      ParseFrom(b, p, e, f.value);
      EpOfIn(b, f.value + b[f.value], e, n - 1, addr);
    }
  }

  /** Interface descriptors, each at the head of the rest of the chain. */
  predicate Intfs(b: Raw, e: nat, ps: seq<nat>)
    requires e <= |b|
  {
    forall k :: 0 <= k < |ps| ==> ps[k] < e && Chain(b, ps[k], e) && b[ps[k] + 1] == DT_INTF
  }

  /** The interface descriptors from one on, as long as they have its number. */
  function Settings(b: Raw, i: nat, e: nat, num: byte): (r: seq<nat>)
    requires e <= |b| && Chain(b, i, e) && i < e && b[i + 1] == DT_INTF
    ensures Intfs(b, e, r)
    decreases e - i
  {
    if b[i + 2] != num then []
    else match First(Parse(b, i + b[i], e), OfType(b, DT_INTF))
      case None => [i]
      case Some(q) =>
        FirstIn(Parse(b, i + b[i], e), OfType(b, DT_INTF));
        ParseFrom(b, i + b[i], e, q);
        [i] + Settings(b, q, e, num)
  }

  function While(ps: seq<nat>, f: nat -> bool): seq<nat> {
    if ps == [] || !f(ps[0]) then [] else [ps[0]] + While(ps[1..], f)
  }

  function OfNumber(b: Raw, num: byte): nat -> bool {
    (p: nat) => p + 3 <= |b| && b[p + 2] == num
  }

  /** The settings are the interface descriptors from this one on, up to the first of another number. */
  lemma {:induction false} SettingsAre(b: Raw, i: nat, e: nat, num: byte)
    requires e <= |b| && Chain(b, i, e) && i < e && b[i + 1] == DT_INTF
    ensures Settings(b, i, e, num) == While(Only(Parse(b, i, e), OfType(b, DT_INTF)), OfNumber(b, num))
    decreases e - i
  {
    var rest := Parse(b, i + b[i], e);
    assert ([i] + rest)[1..] == rest;
    var next := Only(rest, OfType(b, DT_INTF));
    assert ([i] + next)[1..] == next;
    FirstOnly(rest, OfType(b, DT_INTF));
    FirstIn(rest, OfType(b, DT_INTF));
    var q := First(rest, OfType(b, DT_INTF));
    if q.Some? {
      ParseFrom(b, i + b[i], e, q.value);
      OnlyFrom(b, i + b[i], e, q.value);
      SettingsAre(b, q.value, e, num);
    }
  }

  lemma {:induction false} FirstOnly(ps: seq<nat>, f: nat -> bool)
    ensures if First(ps, f).None? then Only(ps, f) == [] else Only(ps, f) != [] && Only(ps, f)[0] == First(ps, f).value
  {
    if ps != [] {
      FirstOnly(ps[1..], f);
    }
  }

  /** What comes before the first descriptor of a type is none of the type. */
  lemma {:induction false} OnlyFrom(b: Raw, p: nat, e: nat, q: nat)
    requires e <= |b| && Chain(b, p, e) && First(Parse(b, p, e), OfType(b, DT_INTF)) == Some(q)
    requires q < e && Chain(b, q, e)
    ensures Only(Parse(b, p, e), OfType(b, DT_INTF)) == Only(Parse(b, q, e), OfType(b, DT_INTF))
    decreases e - p
  {
    if p < e {
      var rest := Parse(b, p + b[p], e);
      assert ([p] + rest)[1..] == rest;
      if b[p + 1] != DT_INTF {
        OnlyFrom(b, p + b[p], e, q);
        assert [] + Only(rest, OfType(b, DT_INTF)) == Only(rest, OfType(b, DT_INTF));
      }
    }
  }

  function Largest(b: Raw, e: nat, addr: byte, settings: seq<nat>, sofar: nat): nat
    requires e <= |b| && Intfs(b, e, settings)
  {
    if settings == [] then sofar
    else
      var n := SizeAt(b, settings[0], e, addr);
      Largest(b, e, addr, settings[1..], if n > sofar then n else sofar)
  }

  lemma {:induction false} LargestIs(b: Raw, e: nat, addr: byte, settings: seq<nat>, sofar: nat)
    requires e <= |b| && Intfs(b, e, settings)
    ensures var w := Largest(b, e, addr, settings, sofar);
            && sofar <= w && (forall k :: 0 <= k < |settings| ==> SizeAt(b, settings[k], e, addr) <= w)
            && (w == sofar || exists k :: 0 <= k < |settings| && SizeAt(b, settings[k], e, addr) == w)
  {
    hide SizeAt, Chain;
    if settings != [] {
      var n := SizeAt(b, settings[0], e, addr);
      var rest, so := settings[1..], if n > sofar then n else sofar;
      LargestIs(b, e, addr, rest, so);
      var w := Largest(b, e, addr, rest, so);
      assert w == Largest(b, e, addr, settings, sofar);
      forall k | 0 <= k < |settings| ensures SizeAt(b, settings[k], e, addr) <= w {
        assert k > 0 ==> settings[k] == rest[k - 1];
      }
      if w != so {
        var k :| 0 <= k < |rest| && SizeAt(b, rest[k], e, addr) == w;
        assert settings[k + 1] == rest[k];
      } else if w != sofar {
        assert SizeAt(b, settings[0], e, addr) == w;
      }
    }
  }

  /** A buffer of this size holds a packet of the endpoint in every setting. */
  predicate HoldsAll(b: Raw, intf: nat, e: nat, addr: byte, size: nat)
    requires e <= |b| && Chain(b, intf, e) && intf < e && b[intf + 1] == DT_INTF
  {
    var settings := Settings(b, intf, e, b[intf + 2]);
    forall k :: 0 <= k < |settings| ==> SizeAt(b, settings[k], e, addr) <= size
  }

  /** The inner loop: the endpoint's descriptor in one setting. */
  method FindEp(b: Raw, from: nat, e: nat, count: nat, addr: byte) returns (r: Option<nat>)
    requires e <= |b| && Chain(b, from, e)
    ensures r == EpOf(b, from, e, count, addr)
  {
    var p: nat, n: nat := from, count;
    while n > 0
      invariant Chain(b, p, e) && EpOf(b, p, e, n, addr) == EpOf(b, from, e, count, addr)
      decreases n
    {
      var q := DescNext(b, p, e, DT_EP);
      if q.None? {
        return None;
      }
      if b[q.value + 2] == addr {
        return q;
      }
      p, n := q.value + b[q.value], n - 1;
    }
    r := None;
  }

  method SizeOf(b: Raw, i: nat, e: nat, addr: byte) returns (n: nat)
    requires e <= |b| && Chain(b, i, e) && i < e && b[i + 1] == DT_INTF
    ensures n == SizeAt(b, i, e, addr)
  {
    var q := FindEp(b, i + b[i], e, b[i + 4], addr);
    EpOfIn(b, i + b[i], e, b[i + 4], addr);
    n := if q.None? then 0 else Le16(b[q.value + 4], b[q.value + 5]);
  }

  /** What the scan still has to come to, from an interface descriptor or past the last one. */
  function LargestFrom(b: Raw, at: Option<nat>, e: nat, num: byte, addr: byte, sofar: nat): nat
    requires e <= |b| && (at.Some? ==> at.value < e && Chain(b, at.value, e) && b[at.value + 1] == DT_INTF)
  {
    if at.None? then sofar else Largest(b, e, addr, Settings(b, at.value, e, num), sofar)
  }

  lemma LargestStop(b: Raw, i: nat, e: nat, num: byte, addr: byte, sofar: nat)
    requires e <= |b| && Chain(b, i, e) && i < e && b[i + 1] == DT_INTF && b[i + 2] != num
    ensures LargestFrom(b, Some(i), e, num, addr, sofar) == sofar
  {
  }

  lemma LargestStep(b: Raw, i: nat, e: nat, num: byte, addr: byte, sofar: nat, next: Option<nat>)
    requires e <= |b| && Chain(b, i, e) && i < e && b[i + 1] == DT_INTF && b[i + 2] == num
    requires next == First(Parse(b, i + b[i], e), OfType(b, DT_INTF))
    requires next.Some? ==> next.value < e && Chain(b, next.value, e) && b[next.value + 1] == DT_INTF
    ensures var n := SizeAt(b, i, e, addr);
            LargestFrom(b, Some(i), e, num, addr, sofar)
                == LargestFrom(b, next, e, num, addr, if n > sofar then n else sofar)
  {
    var rest := if next.None? then [] else Settings(b, next.value, e, num);
    var settings := Settings(b, i, e, num);
    assert settings == [i] + rest;
    assert settings[1..] == rest && settings[0] == i;
    var n := SizeAt(b, i, e, addr);
    var m := if n > sofar then n else sofar;
    assert Largest(b, e, addr, settings, sofar) == Largest(b, e, addr, settings[1..], m);
  }

  lemma HeldBy(b: Raw, intf: nat, e: nat, addr: byte, w: nat)
    requires e <= |b| && Chain(b, intf, e) && intf < e && b[intf + 1] == DT_INTF
    requires w == LargestFrom(b, Some(intf), e, b[intf + 2], addr, 0)
    ensures HoldsAll(b, intf, e, addr, w) && (w > 0 ==> !HoldsAll(b, intf, e, addr, w - 1))
  {
    LargestIs(b, e, addr, Settings(b, intf, e, b[intf + 2]), 0);
  }

  /** `usb_ep_boot`, its scan: the least size that holds the endpoint's packets in every setting. */
  method LargestPacket(b: Raw, intf: nat, e: nat, addr: byte) returns (w: nat)
    requires e <= |b| && Chain(b, intf, e) && intf < e && b[intf + 1] == DT_INTF
    ensures HoldsAll(b, intf, e, addr, w) && (w > 0 ==> !HoldsAll(b, intf, e, addr, w - 1))
  {
    var num := b[intf + 2];
    var at := Some(intf);
    w := 0;
    while at.Some? && b[at.value + 2] == num
      invariant at.Some? ==> at.value < e && Chain(b, at.value, e) && b[at.value + 1] == DT_INTF
      invariant LargestFrom(b, at, e, num, addr, w) == LargestFrom(b, Some(intf), e, num, addr, 0)
      decreases if at.Some? then e - at.value else 0
    {
      var i := at.value;
      ghost var sofar := w;
      var n := SizeOf(b, i, e, addr);
      if n > w {
        w := n;
      }
      at := DescNext(b, i + b[i], e, DT_INTF);
      LargestStep(b, i, e, num, addr, sofar, at);
    }
    if at.Some? {
      LargestStop(b, at.value, e, num, addr, w);
    }
    HeldBy(b, intf, e, addr, w);
  }

  // ---- Buffer memory ---------------------------------------------------------------------------

  /** A buffer given out: the direction it is for, where it starts, and the size asked for. */
  datatype Buffer = Buffer(isIn: bool, ptr: nat, size: nat)

  predicate Apart(x: Buffer, y: Buffer) {
    x.isIn != y.isIn || x.ptr + x.size <= y.ptr || y.ptr + y.size <= x.ptr
  }

  function RoundUp(size: nat): nat {
    (size + 3) / 4 * 4
  }

  class Allocator {
    var memOut: nat
    var memIn: nat
    ghost var given: seq<Buffer>

    function Mem(isIn: bool): nat
      reads this
    {
      if isIn then memIn else memOut
    }

    /** What EP0 keeps: OUT and SETUP packets below, and IN packets. */
    static function Base(isIn: bool): nat {
      if isIn then 0x40 else 0x80
    }

    /** Everything given out is aligned, beyond EP0's buffers, below the mark, and apart. */
    ghost predicate Valid()
      reads this
    {
      && memOut % 4 == 0 && memIn % 4 == 0 && Base(false) <= memOut && Base(true) <= memIn
      && (forall k :: 0 <= k < |given| ==>
            given[k].ptr % 4 == 0 && Base(given[k].isIn) <= given[k].ptr
                && given[k].ptr + given[k].size <= Mem(given[k].isIn))
      && (forall j, k :: 0 <= j < k < |given| ==> Apart(given[j], given[k]))
    }

    /** `usb_bus_reset`, its reset of the marks */
    method Reset()
      modifies this
      ensures Valid() && given == [] && memOut == 0x80 && memIn == 0x40
    {
      memOut, memIn := 0x80, 0x40;
      given := [];
    }

    /** `_usb_alloc_buf` */
    method AllocBuf(size: nat, isIn: bool) returns (ptr: nat)
      requires Valid()
      modifies this
      ensures Valid() && given == old(given) + [Buffer(isIn, ptr, size)]
      ensures ptr == old(Mem(isIn)) && Mem(isIn) < ptr + size + 4 && Mem(!isIn) == old(Mem(!isIn))
    {
      ptr := Mem(isIn);
      if isIn {
        memIn := memIn + RoundUp(size);
      } else {
        memOut := memOut + RoundUp(size);
      }
      given := given + [Buffer(isIn, ptr, size)];
    }

    /** `usb_ep_boot`: one or two buffers, each for the largest packet; nothing for an endpoint that
        no setting has. */
    method EpBoot(b: Raw, intf: nat, e: nat, addr: byte, dual: bool) returns (ok: bool, ptrs: seq<nat>)
      requires Valid() && e <= |b| && Chain(b, intf, e) && intf < e && b[intf + 1] == DT_INTF
      modifies this
      ensures Valid() && |ptrs| == (if !ok then 0 else if dual then 2 else 1)
      ensures |given| == |old(given)| + |ptrs| && given[..|old(given)|] == old(given)
      ensures forall k :: 0 <= k < |ptrs| ==>
        var g := given[|old(given)| + k];
        && g.ptr == ptrs[k] && g.isIn == (addr >= 128) && HoldsAll(b, intf, e, addr, g.size)
        && g.size > 0 && !HoldsAll(b, intf, e, addr, g.size - 1)
      ensures !ok <==> HoldsAll(b, intf, e, addr, 0)
    {
      var w := LargestPacket(b, intf, e, addr);
      ptrs := [];
      ok := w > 0;
      if ok {
        var p := AllocBuf(w, addr >= 128);
        ptrs := [p];
        if dual {
          p := AllocBuf(w, addr >= 128);
          ptrs := ptrs + [p];
        }
      }
    }
  }
}
