/** The line code, one symbol a bit time: bit stuffing, NRZI and end of packet in the transmitter
    (rtl/usb_tx_ll.v), and their inverses in the receiver (rtl/usb_rx_ll.v). */
module LineCode {
  datatype Sym = J | K | SE0 | SE1

  predicate IsLevel(s: Sym) { s.J? || s.K? }

  function Other(s: Sym): Sym {
    if s.J? then K else J
  }

  // ---- What USB 2.0 sections 7.1.8 and 7.1.9 ask for -----------------------------------------

  /** A zero is inserted after every six ones; `ones` have gone before. */
  function Stuff(bits: seq<bool>, ones: nat): seq<bool>
    requires ones <= 6
    decreases |bits|, ones
  {
    if ones == 6 then [false] + Stuff(bits, 0)
    else if bits == [] then []
    else [bits[0]] + Stuff(bits[1..], if bits[0] then ones + 1 else 0)
  }

  /** A zero changes the level, a one keeps it. */
  function Nrzi(level: Sym, bits: seq<bool>): (r: seq<Sym>)
    ensures |r| == |bits|
    decreases |bits|
  {
    if bits == [] then []
    else
      var s := if bits[0] then level else Other(level);
      [s] + Nrzi(s, bits[1..])
  }

  // ---- The transmitter -----------------------------------------------------------------------

  datatype TxPhase = Sending | Eop1 | Eop2 | Eop3 | Off

  /** The phase, the count of ones, whether a stuffed bit is due, and the level on the wire. */
  datatype Tx = Tx(phase: TxPhase, ones: nat, stuffing: bool, level: Sym)

  const TX_START := Tx(Sending, 0, false, J)

  function TxNextPhase(p: TxPhase, last: bool): TxPhase {
    if last then Eop1
    else match p
      case Sending => Sending
      case Eop1 => Eop2
      case Eop2 => Eop3
      case Eop3 => Off
      case Off => Off
  }

  /** The symbol for a bit. */
  function TxLevel(t: Tx, bit: bool): Sym {
    if bit && !t.stuffing then t.level else Other(t.level)
  }

  function TxSym(t: Tx, bit: bool): Sym {
    match t.phase
    case Sending => TxLevel(t, bit)
    case Eop1 => if t.stuffing then TxLevel(t, bit) else SE0
    case Eop2 => SE0
    case _ => J
  }

  /** One bit time, with the bit offered and whether it is the last. */
  function TxTick(t: Tx, bit: bool, last: bool): Tx {
    Tx(if t.stuffing then t.phase else TxNextPhase(t.phase, last),
       if bit && !t.stuffing then (t.ones + 1) % 8 else 0,
       bit && t.ones == 5,
       TxLevel(t, bit))
  }

  /** A stuffed bit is due exactly after six ones. */
  predicate Paced(t: Tx) {
    t.ones <= 6 && (t.stuffing <==> t.ones == 6) && IsLevel(t.level)
  }

  lemma TickPaced(t: Tx, bit: bool, last: bool)
    requires Paced(t)
    ensures Paced(TxTick(t, bit, last)) && (t.stuffing ==> !TxTick(t, bit, last).stuffing)
  {
  }

  /** The wire while bits are offered; a bit is taken unless a stuffed one was due. After the last,
      the bits offered are whatever the shift register holds. */
  function Send(t: Tx, bits: seq<bool>, junk: nat -> bool): seq<Sym>
    requires bits != [] && t.phase.Sending? && Paced(t)
    decreases |bits|, if t.stuffing then 1 else 0
  {
    var sym, t1 := TxSym(t, bits[0]), TxTick(t, bits[0], |bits| == 1);
    TickPaced(t, bits[0], |bits| == 1);
    if t.stuffing then [sym] + Send(t1, bits, junk)
    else if |bits| == 1 then [sym] + SendEop(t1, junk, 0)
    else [sym] + Send(t1, bits[1..], junk)
  }

  function Remaining(p: TxPhase): nat {
    match p
    case Eop1 => 3
    case Eop2 => 2
    case Eop3 => 1
    case _ => 0
  }

  function SendEop(t: Tx, junk: nat -> bool, k: nat): seq<Sym>
    requires !t.phase.Sending? && Paced(t)
    decreases Remaining(t.phase), if t.stuffing then 1 else 0
  {
    TickPaced(t, junk(k), false);
    if t.phase.Off? then [] else [TxSym(t, junk(k))] + SendEop(TxTick(t, junk(k), false), junk, k + 1)
  }

  /** At least two SE0, then J: two or three, and one or two. */
  predicate IsEop(e: seq<Sym>) {
    e == [SE0, SE0, J] || e == [SE0, SE0, J, J] || e == [SE0, SE0, SE0, J]
  }

  /** After the last bit come a stuffed zero if one is due, and an end of packet. */
  lemma EopShape(t: Tx, junk: nat -> bool, k: nat) returns (e: seq<Sym>)
    requires t.phase.Eop1? && Paced(t)
    ensures SendEop(t, junk, k) == Nrzi(t.level, Stuff([], t.ones)) + e && IsEop(e)
    decreases if t.stuffing then 1 else 0
  {
    TickPaced(t, junk(k), false);
    var t1 := TxTick(t, junk(k), false);
    if t.stuffing {
      e := EopShape(t1, junk, k + 1);
      assert Stuff([], 6) == [false] + Stuff([], 0);
    } else {
      e := SendEop(t, junk, k);
      EopUnstuffed(t, junk, k);
      assert Stuff([], t.ones) == [];
    }
  }

  lemma EopUnstuffed(t: Tx, junk: nat -> bool, k: nat)
    requires t.phase.Eop1? && Paced(t) && !t.stuffing
    ensures IsEop(SendEop(t, junk, k))
  {
    TickPaced(t, junk(k), false);
    var t1 := TxTick(t, junk(k), false);
    TickPaced(t1, junk(k + 1), false);
    var t2 := TxTick(t1, junk(k + 1), false);
    TickPaced(t2, junk(k + 2), false);
    var t3 := TxTick(t2, junk(k + 2), false);
    TickPaced(t3, junk(k + 3), false);
    var t4 := TxTick(t3, junk(k + 3), false);
    assert SendEop(t, junk, k) == [SE0] + SendEop(t1, junk, k + 1);
    assert SendEop(t1, junk, k + 1) == [SE0] + SendEop(t2, junk, k + 2);
    if t1.stuffing {
      assert t2.phase.Eop2? && !t2.stuffing;
      assert SendEop(t2, junk, k + 2) == [SE0] + SendEop(t3, junk, k + 3);
      assert SendEop(t3, junk, k + 3) == [J] + SendEop(t4, junk, k + 4);
    } else {
      assert SendEop(t2, junk, k + 2) == [J] + SendEop(t3, junk, k + 3);
      if t2.stuffing {
        assert SendEop(t3, junk, k + 3) == [J] + SendEop(t4, junk, k + 4);
      }
    }
  }

  lemma StuffStep(bits: seq<bool>, ones: nat)
    requires ones <= 6 && bits != []
    ensures ones == 6 ==> Stuff(bits, ones) == [false] + Stuff(bits, 0)
    ensures ones < 6 ==> Stuff(bits, ones) == [bits[0]] + Stuff(bits[1..], if bits[0] then ones + 1 else 0)
  {
  }

  /** One symbol of the transmitter: a stuffed one if it is due, or the next bit's. */
  lemma SendStep(t: Tx, bits: seq<bool>, junk: nat -> bool, rest: seq<Sym>)
    requires bits != [] && t.phase.Sending? && Paced(t)
    requires var t1 := TxTick(t, bits[0], |bits| == 1);
             Paced(t1) && if t.stuffing then rest == Send(t1, bits, junk)
                 else if |bits| == 1 then rest == SendEop(t1, junk, 0) else rest == Send(t1, bits[1..], junk)
    ensures Send(t, bits, junk) == [TxLevel(t, bits[0])] + rest
  {
  }

  /** The bits still to encode once the transmitter has sent one symbol. */
  function StuffRest(t: Tx, bits: seq<bool>): seq<bool>
    requires bits != [] && t.ones <= 6
  {
    if t.ones == 6 then Stuff(bits, 0) else Stuff(bits[1..], if bits[0] then t.ones + 1 else 0)
  }

  lemma StuffNext(t: Tx, bits: seq<bool>)
    requires bits != [] && Paced(t)
    ensures Stuff(bits, t.ones) == [!t.stuffing && bits[0]] + StuffRest(t, bits)
  {
    StuffStep(bits, t.ones);
  }

  lemma NrziNext(level: Sym, bit: bool, rest: seq<bool>, stuffed: seq<bool>, s: Sym)
    requires stuffed == [bit] + rest && s == if bit then level else Other(level)
    ensures Nrzi(level, stuffed) == [s] + Nrzi(s, rest)
  {
    assert stuffed[1..] == rest;
  }

  lemma ConsCat(n: seq<Sym>, s: Sym, m: seq<Sym>, e: seq<Sym>)
    requires n == [s] + m
    ensures n + e == [s] + (m + e)
  {
  }

  /** The same step of stuffing and encoding. */
  lemma StandardStep(t: Tx, bits: seq<bool>, stuffed: seq<bool>, rest: seq<bool>, e: seq<Sym>)
    requires bits != [] && Paced(t) && stuffed == Stuff(bits, t.ones) && rest == StuffRest(t, bits)
    ensures Nrzi(t.level, stuffed) + e == [TxLevel(t, bits[0])] + (Nrzi(TxLevel(t, bits[0]), rest) + e)
  {
    var s := TxLevel(t, bits[0]);
    StuffNext(t, bits);
    NrziNext(t.level, !t.stuffing && bits[0], rest, stuffed, s);
    ConsCat(Nrzi(t.level, stuffed), s, Nrzi(s, rest), e);
  }

  /** The transmitter stuffs and encodes as the standard says, and ends the packet. */
  lemma {:induction false} SendIsStandard(t: Tx, bits: seq<bool>, junk: nat -> bool) returns (e: seq<Sym>)
    requires bits != [] && t.phase.Sending? && Paced(t)
    ensures Send(t, bits, junk) == Nrzi(t.level, Stuff(bits, t.ones)) + e && IsEop(e)
    decreases |bits|, if t.stuffing then 1 else 0
  {
    var t1 := TxTick(t, bits[0], |bits| == 1);
    TickPaced(t, bits[0], |bits| == 1);
    var left := if t.stuffing then bits else bits[1..];
    if t.stuffing || |bits| > 1 {
      e := SendIsStandard(t1, left, junk);
      SendStep(t, bits, junk, Send(t1, left, junk));
    } else {
      e := EopShape(t1, junk, 0);
      SendStep(t, bits, junk, SendEop(t1, junk, 0));
    }
    StandardStep(t, bits, Stuff(bits, t.ones), StuffRest(t, bits), e);
  }

  // ---- The receiver --------------------------------------------------------------------------

  /** The last symbol and bit, the count of repeats, the flags of the last symbol, and how far an
      end of packet or a synchronisation pattern has been seen. */
  datatype Rx = Rx(sym: Sym, bit: bool, rep: nat, err: bool, skip: bool, eopState: nat, eop: bool, syncState: nat,
      sync: bool)

  function RxEop(state: nat, s: Sym): nat {
    if state == 0 && s.SE0? then 1
    else if (state == 1 || state == 2) && s.SE0? then 2
    else if state == 2 && s.J? then 3
    else 0
  }

  function RxSync(state: nat, s: Sym): nat {
    if !IsLevel(s) then 0
    else if state == 7 && s.K? then 8
    else if state < 7 && (state % 2 == 0) == s.K? then state + 1
    else if s.K? then 1
    else 0
  }

  /** One symbol. A synchronisation pattern leaves the tracker as after its last K. */
  function RxStep(r: Rx, s: Sym): Rx {
    var same := s == r.sym;
    var sync := RxSync(r.syncState, s);
    Rx(s, IsLevel(s) && IsLevel(r.sym) && same,
       if !same then 0 else if r.rep < 7 then r.rep + 1 else 7,
       same && r.rep >= 6,
       r.rep == 6,
       RxEop(r.eopState, s), r.eopState == 2 && s.J?,
       if sync == 8 then 1 else sync, sync == 8)
  }

  function RxRun(r: Rx, wire: seq<Sym>): Rx
    decreases |wire|
  {
    if wire == [] then r else RxRun(RxStep(r, wire[0]), wire[1..])
  }

  /** The bits a receiver passes on: all but the stuffed ones. */
  function Decode(r: Rx, wire: seq<Sym>): seq<bool>
    decreases |wire|
  {
    if wire == [] then []
    else
      var r1 := RxStep(r, wire[0]);
      (if r1.skip then [] else [r1.bit]) + Decode(r1, wire[1..])
  }

  /** No stuffing error, and no end of packet, at any symbol. */
  predicate Clean(r: Rx, wire: seq<Sym>)
    decreases |wire|
  {
    wire != [] ==>
      var r1 := RxStep(r, wire[0]);
      !r1.err && !r1.eop && Clean(r1, wire[1..])
  }

  /** A receiver level with the transmitter: the same level, and as many repeats as ones. */
  predicate InStep(r: Rx, level: Sym, ones: nat) {
    r.sym == level && IsLevel(level) && r.rep == ones <= 6 && r.eopState == 0
  }

  /** Unstuffing what was stuffed gives the bits back, without a stuffing error. */
  lemma {:induction false} Unstuffs(r: Rx, level: Sym, ones: nat, bits: seq<bool>) returns (level1: Sym, ones1: nat)
    requires InStep(r, level, ones)
    ensures var wire := Nrzi(level, Stuff(bits, ones));
            && Decode(r, wire) == bits && Clean(r, wire)
            && InStep(RxRun(r, wire), level1, ones1) && ones1 < 6
    decreases |bits|, ones
  {
    var wire := Nrzi(level, Stuff(bits, ones));
    if ones == 6 {
      assert Stuff(bits, 6) == [false] + Stuff(bits, 0);
      var r1 := RxStep(r, Other(level));
      level1, ones1 := Unstuffs(r1, Other(level), 0, bits);
      assert wire[1..] == Nrzi(Other(level), Stuff(bits, 0));
    } else if bits == [] {
      level1, ones1 := level, ones;
    } else {
      var next := if bits[0] then level else Other(level);
      var n := if bits[0] then ones + 1 else 0;
      assert Stuff(bits, ones) == [bits[0]] + Stuff(bits[1..], n);
      level1, ones1 := Unstuffs(RxStep(r, next), next, n, bits[1..]);
      assert wire[1..] == Nrzi(next, Stuff(bits[1..], n));
      assert [bits[0]] + bits[1..] == bits;
    }
  }

  // ---- Whole packets -------------------------------------------------------------------------

  const SYNC_BITS: seq<bool> := [false, false, false, false, false, false, false, true]
  const SYNC_WIRE: seq<Sym> := [K, J, K, J, K, J, K, K]

  /** A receiver waiting on an idle line. */
  predicate Idle(r: Rx) {
    r.sym.J? && r.eopState == 0 && r.syncState == 0
  }

  /** The pattern is seen at its last symbol and not before. */
  lemma SyncSeen(r: Rx)
    requires Idle(r)
    ensures InStep(RxRun(r, SYNC_WIRE), K, 1) && RxRun(r, SYNC_WIRE).sync
    ensures forall k :: 1 <= k < 8 ==> !RxRun(r, SYNC_WIRE[..k]).sync
  {
    hide RxStep, RxRun, InStep, Idle;
    var r1, r2, r3, r4, r5, r6, r7, r8 := SyncSteps(r);
    RunNothing(r);
    RunSnoc(r, [], K);
    assert [] + [K] == [K];
    RunSnoc(r, [K], J);
    assert [K] + [J] == [K, J];
    RunSnoc(r, [K, J], K);
    assert [K, J] + [K] == [K, J, K];
    RunSnoc(r, [K, J, K], J);
    assert [K, J, K] + [J] == [K, J, K, J];
    RunSnoc(r, [K, J, K, J], K);
    assert [K, J, K, J] + [K] == [K, J, K, J, K];
    RunSnoc(r, [K, J, K, J, K], J);
    assert [K, J, K, J, K] + [J] == [K, J, K, J, K, J];
    RunSnoc(r, [K, J, K, J, K, J], K);
    assert [K, J, K, J, K, J] + [K] == [K, J, K, J, K, J, K];
    RunSnoc(r, [K, J, K, J, K, J, K], K);
    assert [K, J, K, J, K, J, K] + [K] == [K, J, K, J, K, J, K, K];
    Prefixes();
  }

  /** The pattern is seen at its last symbol, and not before, if and only if what came before it was no
      alternation that its first K continues. */
  lemma SyncExactly(r: Rx)
    requires r.syncState < 8
    ensures (RxRun(r, SYNC_WIRE).sync && forall k :: 1 <= k < 8 ==> !RxRun(r, SYNC_WIRE[..k]).sync)
       <==> r.syncState in {0, 1, 3, 5}
  {
    var states := SyncStates(r);
    Prefixes();
    assert SYNC_WIRE[..8] == SYNC_WIRE;
    assert RxRun(r, SYNC_WIRE[..8]).sync == (states[8] == 8);
    assert forall k :: 1 <= k < 8 ==> RxRun(r, SYNC_WIRE[..k]).sync == (states[k] == 8);
  }

  /** How far the tracker is after each symbol of the pattern; 8 is a pattern seen. */
  lemma SyncStates(r: Rx) returns (states: seq<nat>)
    requires r.syncState < 8
    ensures |states| == 9 && forall k :: 1 <= k < 9 ==> RxRun(r, SYNC_WIRE[..k]).sync == (states[k] == 8)
    ensures (states[8] == 8 && forall k :: 1 <= k < 8 ==> states[k] != 8) <==> r.syncState in {0, 1, 3, 5}
  {
    states := [r.syncState];
    var q := r;
    RunNothing(r);
    assert SYNC_WIRE[..0] == [];
    for j := 0 to 8
      invariant |states| == j + 1 && q == RxRun(r, SYNC_WIRE[..j]) && q.syncState < 8 && states[0] == r.syncState
      invariant j > 0 ==> q.syncState == (if states[j] == 8 then 1 else states[j])
      invariant forall k :: 1 <= k <= j ==> RxRun(r, SYNC_WIRE[..k]).sync == (states[k] == 8)
      invariant forall k :: 0 <= k < j ==>
        states[k + 1] == RxSync(if states[k] == 8 then 1 else states[k], SYNC_WIRE[k])
    {
      assert SYNC_WIRE[..j] + [SYNC_WIRE[j]] == SYNC_WIRE[..j + 1];
      RunSnoc(r, SYNC_WIRE[..j], SYNC_WIRE[j]);
      var s := RxSync(q.syncState, SYNC_WIRE[j]);
      q := RxStep(q, SYNC_WIRE[j]);
      states := states + [s];
    }
    SyncTable(states);
  }

  lemma SyncTable(states: seq<nat>)
    requires |states| == 9 && states[0] < 8
    requires forall k :: 0 <= k < 8 ==>
      states[k + 1] == RxSync(if states[k] == 8 then 1 else states[k], SYNC_WIRE[k])
    ensures (states[8] == 8 && forall k :: 1 <= k < 8 ==> states[k] != 8) <==> states[0] in {0, 1, 3, 5}
  {
    assert states[1] == RxSync(states[0], K);
    assert states[2] == RxSync(if states[1] == 8 then 1 else states[1], J);
    assert states[3] == RxSync(if states[2] == 8 then 1 else states[2], K);
    assert states[4] == RxSync(if states[3] == 8 then 1 else states[3], J);
    assert states[5] == RxSync(if states[4] == 8 then 1 else states[4], K);
    assert states[6] == RxSync(if states[5] == 8 then 1 else states[5], J);
    assert states[7] == RxSync(if states[6] == 8 then 1 else states[6], K);
    assert states[8] == RxSync(if states[7] == 8 then 1 else states[7], K);
  }

  lemma RunNothing(r: Rx)
    ensures RxRun(r, []) == r
  {
  }

  lemma SyncSteps(r: Rx) returns (r1: Rx, r2: Rx, r3: Rx, r4: Rx, r5: Rx, r6: Rx, r7: Rx, r8: Rx)
    requires Idle(r)
    ensures r1 == RxStep(r, K) && r2 == RxStep(r1, J) && r3 == RxStep(r2, K) && r4 == RxStep(r3, J)
    ensures r5 == RxStep(r4, K) && r6 == RxStep(r5, J) && r7 == RxStep(r6, K) && r8 == RxStep(r7, K)
    ensures !r1.sync && !r2.sync && !r3.sync && !r4.sync && !r5.sync && !r6.sync && !r7.sync
    ensures r8.sync && InStep(r8, K, 1)
  {
    r1, r2 := RxStep(r, K), RxStep(RxStep(r, K), J);
    r3 := RxStep(r2, K);
    r4 := RxStep(r3, J);
    r5 := RxStep(r4, K);
    r6 := RxStep(r5, J);
    r7 := RxStep(r6, K);
    r8 := RxStep(r7, K);
  }

  lemma Prefixes()
    ensures SYNC_WIRE[..1] == [K] && SYNC_WIRE[..2] == [K, J] && SYNC_WIRE[..3] == [K, J, K]
      && SYNC_WIRE[..4] == [K, J, K, J]
    ensures SYNC_WIRE[..5] == [K, J, K, J, K] && SYNC_WIRE[..6] == [K, J, K, J, K, J]
      && SYNC_WIRE[..7] == [K, J, K, J, K, J, K]
  {
  }

  lemma {:induction false} RunSnoc(r: Rx, wire: seq<Sym>, s: Sym)
    ensures RxRun(r, wire + [s]) == RxStep(RxRun(r, wire), s)
    decreases |wire|
  {
    if wire == [] {
      assert [] + [s] == [s];
      assert RxRun(r, [s]) == RxRun(RxStep(r, s), []);
    } else {
      RunSnoc(RxStep(r, wire[0]), wire[1..], s);
      assert (wire + [s])[1..] == wire[1..] + [s];
    }
  }

  lemma StuffSync(rest: seq<bool>)
    ensures Nrzi(J, Stuff(SYNC_BITS + rest, 0)) == SYNC_WIRE + Nrzi(K, Stuff(rest, 1))
  {
    var b := SYNC_BITS + rest;
    StuffZeros(7, b);
    assert b[7..] == [true] + rest;
    StuffStep(b[7..], 0);
    assert b[7..][1..] == rest;
    assert seq(7, _ => false) + ([true] + Stuff(rest, 1)) == SYNC_BITS + Stuff(rest, 1);
    NrziSync(Stuff(b, 0), Stuff(rest, 1));
  }

  lemma {:induction false} StuffZeros(n: nat, b: seq<bool>)
    requires n <= |b| && forall i :: 0 <= i < n ==> !b[i]
    ensures Stuff(b, 0) == seq(n, _ => false) + Stuff(b[n..], 0)
  {
    if n > 0 {
      StuffZeros(n - 1, b[1..]);
      assert b[1..][n - 1..] == b[n..];
      assert seq(n, _ => false) == [false] + seq(n - 1, _ => false);
    } else {
      assert b[0..] == b;
    }
  }

  /** Zeroes change the level at every bit. */
  lemma NrziPair(b: seq<bool>, rest: seq<bool>)
    requires b == [false, false] + rest
    ensures Nrzi(J, b) == [K, J] + Nrzi(J, rest)
  {
    hide Nrzi;
    assert b == [false] + ([false] + rest);
    NrziNext(J, false, [false] + rest, b, K);
    NrziNext(K, false, rest, [false] + rest, J);
  }

  lemma NrziSync(b: seq<bool>, rest: seq<bool>)
    requires b == SYNC_BITS + rest
    ensures Nrzi(J, b) == SYNC_WIRE + Nrzi(K, rest)
  {
    hide Nrzi;
    var b1, b6, b4, b2 := SyncCuts(b, rest);
    NrziPair(b, b2);
    NrziPair(b2, b4);
    NrziPair(b4, b6);
    NrziNext(J, false, b1, b6, K);
    NrziNext(K, true, rest, b1, K);
    SyncSyms(Nrzi(K, rest));
  }

  lemma SyncCuts(b: seq<bool>, rest: seq<bool>) returns (b1: seq<bool>, b6: seq<bool>, b4: seq<bool>, b2: seq<bool>)
    requires b == SYNC_BITS + rest
    ensures b1 == [true] + rest && b6 == [false] + b1 && b4 == [false, false] + b6
    ensures b2 == [false, false] + b4 && b == [false, false] + b2
  {
    b1, b6, b4, b2 := b[7..], b[6..], b[4..], b[2..];
  }

  lemma SyncSyms(rest: seq<Sym>)
    ensures [K, J] + ([K, J] + ([K, J] + ([K] + ([K] + rest)))) == SYNC_WIRE + rest
  {
  }

  lemma CleanCons(r: Rx, s: Sym, rest: seq<Sym>)
    requires !RxStep(r, s).err && !RxStep(r, s).eop && Clean(RxStep(r, s), rest)
    ensures Clean(r, [s] + rest)
  {
    assert ([s] + rest)[1..] == rest;
  }

  /** The first J after an end of packet's SE0. */
  predicate AtEop(r: Rx) {
    r.sym.J? && r.rep == 0 && r.eopState == 3 && r.syncState == 0 && !r.sync
  }

  /** An end of packet is seen at its first J, and not before. */
  lemma EopSeen(r: Rx, level: Sym, ones: nat, e: seq<Sym>) returns (n: nat)
    requires InStep(r, level, ones) && IsEop(e)
    ensures (n == 2 || n == 3) && n < |e| && e[n].J? && (forall k :: 0 <= k < n ==> e[k].SE0?)
    ensures Clean(r, e[..n]) && RxRun(r, e[..n + 1]).eop && AtEop(RxRun(r, e[..n + 1]))
  {
    n := if e[2].J? then 2 else 3;
    var r1 := RxStep(r, SE0);
    var r2 := RxStep(r1, SE0);
    assert [] + [SE0] == [SE0] && [SE0] + [SE0] == [SE0, SE0] && [SE0, SE0] + [SE0] == [SE0, SE0, SE0];
    assert [SE0, SE0] + [J] == [SE0, SE0, J] && [SE0, SE0, SE0] + [J] == [SE0, SE0, SE0, J];
    if n == 2 {
      assert e[..2] == [SE0, SE0] && e[..3] == [SE0, SE0, J];
      RunSnoc(r, [], SE0);
      RunSnoc(r, [SE0], SE0);
      RunSnoc(r, [SE0, SE0], J);
      CleanCons(r1, SE0, []);
      CleanCons(r, SE0, [SE0]);
    } else {
      var r3 := RxStep(r2, SE0);
      assert e[..3] == [SE0, SE0, SE0] && e[..4] == [SE0, SE0, SE0, J];
      RunSnoc(r, [], SE0);
      RunSnoc(r, [SE0], SE0);
      RunSnoc(r, [SE0, SE0], SE0);
      RunSnoc(r, [SE0, SE0, SE0], J);
      CleanCons(r2, SE0, []);
      CleanCons(r1, SE0, [SE0]);
      CleanCons(r, SE0, [SE0, SE0]);
    }
  }

  /** What the transmitter sends for a packet's bits, the receiver of the line gives back: the
      synchronisation pattern is seen at its end; the bits after it come out in order, the stuffed
      ones gone and no stuffing error, also when the packet ends in six ones; then the end of packet. */
  lemma LineRoundTrip(r: Rx, rest: seq<bool>, junk: nat -> bool) returns (data: seq<Sym>, e: seq<Sym>)
    requires Idle(r)
    ensures Send(TX_START, SYNC_BITS + rest, junk) == SYNC_WIRE + data + e && IsEop(e)
    ensures var r1 := RxRun(r, SYNC_WIRE);
            r1.sync && Decode(r1, data) == rest && Clean(r1, data)
    ensures exists level, ones :: ones < 6 && InStep(RxRun(RxRun(r, SYNC_WIRE), data), level, ones)
  {
    e := SendIsStandard(TX_START, SYNC_BITS + rest, junk);
    StuffSync(rest);
    SyncSeen(r);
    data := Nrzi(K, Stuff(rest, 1));
    var level, ones := Unstuffs(RxRun(r, SYNC_WIRE), K, 1, rest);
  }

  /** Eight equal symbols would be a stuffing error. */
  lemma {:induction false} CleanVaries(r: Rx, wire: seq<Sym>, k: nat)
    requires Clean(r, wire) && r.rep <= 7
    requires k + 8 <= |wire|
    ensures !(forall j :: k < j < k + 8 ==> wire[j] == wire[k])
    decreases |wire|
  {
    if k > 0 {
      CleanVaries(RxStep(r, wire[0]), wire[1..], k - 1);
      assert forall j :: 0 <= j < |wire| - 1 ==> wire[1..][j] == wire[j + 1];
    } else if forall j :: 0 < j < 8 ==> wire[j] == wire[0] {
      Repeats(RxStep(r, wire[0]), wire[1..], wire[0], 7);
    }
  }

  /** Repeating the level seven times more is an error. */
  lemma {:induction false} Repeats(r: Rx, wire: seq<Sym>, s: Sym, n: nat)
    requires Clean(r, wire) && r.sym == s && n <= |wire| && forall j :: 0 <= j < n ==> wire[j] == s
    ensures n > 0 ==> r.rep + n <= 6
    decreases n
  {
    if n > 0 {
      Repeats(RxStep(r, s), wire[1..], s, n - 1);
    }
  }

  lemma {:induction false} CleanCat(r: Rx, a: seq<Sym>, b: seq<Sym>)
    requires Clean(r, a) && Clean(RxRun(r, a), b)
    ensures Clean(r, a + b)
    decreases |a|
  {
    if a == [] {
      assert a + b == b;
    } else {
      CleanCat(RxStep(r, a[0]), a[1..], b);
      assert (a + b)[1..] == a[1..] + b;
    }
  }

  /** A receiver on an idle line takes the pattern without error. */
  lemma SyncClean(r: Rx)
    requires Idle(r)
    ensures Clean(r, SYNC_WIRE)
  {
    var r1 := RxStep(r, K);
    var r2 := RxStep(r1, J);
    var r3 := RxStep(r2, K);
    var r4 := RxStep(r3, J);
    var r5 := RxStep(r4, K);
    var r6 := RxStep(r5, J);
    var r7 := RxStep(r6, K);
    CleanCons(r7, K, []);
    CleanCons(r6, K, [K]);
    CleanCons(r5, J, [K, K]);
    CleanCons(r4, K, [J, K, K]);
    CleanCons(r3, J, [K, J, K, K]);
    CleanCons(r2, K, [J, K, J, K, K]);
    CleanCons(r1, J, [K, J, K, J, K, K]);
    CleanCons(r, K, [J, K, J, K, J, K, K]);
    assert SYNC_WIRE == [K] + [J, K, J, K, J, K, K];
  }

  /** Of eight symbols that reach into the end of packet, one is a level and one is SE0. */
  lemma EndVaries(levels: seq<Sym>, e: seq<Sym>, k: nat)
    requires IsEop(e) && (forall i :: 0 <= i < |levels| ==> IsLevel(levels[i])) && k + 8 <= |levels + e|
    requires |levels| < k + 8
    ensures !(forall j :: k < j < k + 8 ==> (levels + e)[j] == (levels + e)[k])
  {
    assert (levels + e)[k] == levels[k] && (levels + e)[|levels|] == SE0;
  }

  lemma {:induction false} NrziLevels(level: Sym, bits: seq<bool>)
    requires IsLevel(level)
    ensures forall i :: 0 <= i < |bits| ==> IsLevel(Nrzi(level, bits)[i])
    decreases |bits|
  {
    if bits != [] {
      NrziLevels(if bits[0] then level else Other(level), bits[1..]);
    }
  }

  /** Whatever is sent, across the synchronisation pattern, the bits after it and the end of packet, the
      transmitter's wire never keeps one level across seven bit intervals. */
  lemma NoSevenEqual(rest: seq<bool>, junk: nat -> bool, k: nat)
    requires k + 8 <= |Send(TX_START, SYNC_BITS + rest, junk)|
    ensures var wire := Send(TX_START, SYNC_BITS + rest, junk); !(forall j :: k < j < k + 8 ==> wire[j] == wire[k])
  {
    var r := Rx(J, false, 0, false, false, 0, false, 0, false);
    var e := SendIsStandard(TX_START, SYNC_BITS + rest, junk);
    var data := Nrzi(K, Stuff(rest, 1));
    StuffSync(rest);
    SyncSeen(r);
    var level, ones := Unstuffs(RxRun(r, SYNC_WIRE), K, 1, rest);
    SyncClean(r);
    CleanCat(r, SYNC_WIRE, data);
    NrziLevels(K, Stuff(rest, 1));
    Varies(r, SYNC_WIRE + data, e, k);
  }

  lemma Varies(r: Rx, levels: seq<Sym>, e: seq<Sym>, k: nat)
    requires Clean(r, levels) && r.rep <= 7 && IsEop(e)
    requires (forall i :: 0 <= i < |levels| ==> IsLevel(levels[i])) && k + 8 <= |levels + e|
    ensures !(forall j :: k < j < k + 8 ==> (levels + e)[j] == (levels + e)[k])
  {
    if k + 8 <= |levels| {
      CleanVaries(r, levels, k);
      assert forall j :: k <= j < k + 8 ==> (levels + e)[j] == levels[j];
    } else {
      EndVaries(levels, e, k);
    }
  }

  /** A synchronisation pattern that is detected has been on the wire. */
  predicate Tracks(wire: seq<Sym>, n: nat) {
    n <= 7 && n <= |wire| && wire[|wire| - n..] == SYNC_WIRE[..n]
  }

  lemma TailSnoc(wire: seq<Sym>, n: nat, s: Sym)
    requires n <= 7 && n <= |wire| && wire[|wire| - n..] == SYNC_WIRE[..n] && s == SYNC_WIRE[n]
    ensures (wire + [s])[|wire| - n..] == SYNC_WIRE[..n + 1]
  {
    assert (wire + [s])[|wire| - n..] == wire[|wire| - n..] + [s];
    assert SYNC_WIRE[..n + 1] == SYNC_WIRE[..n] + [SYNC_WIRE[n]];
  }

  /** A step of the tracker is the next symbol of the pattern, or starts over. */
  lemma TrackStep(n: nat, s: Sym)
    requires n <= 7
    ensures var t := RxSync(n, s); t <= 8 && ((t == n + 1 && s == SYNC_WIRE[n]) || (t == 1 && s.K?) || t == 0)
  {
  }

  lemma StepTracks(wire: seq<Sym>, n: nat, s: Sym)
    requires Tracks(wire, n)
    ensures RxSync(n, s) < 8 ==> Tracks(wire + [s], RxSync(n, s))
    ensures RxSync(n, s) == 8 ==>
      8 <= |wire| + 1 && (wire + [s])[|wire| + 1 - 8..] == SYNC_WIRE && Tracks(wire + [s], 1)
  {
    var w, t := wire + [s], RxSync(n, s);
    TrackStep(n, s);
    if t == n + 1 {
      TailSnoc(wire, n, s);
      assert SYNC_WIRE[..8] == SYNC_WIRE;
    }
    assert w[|w| - 1..] == [s] && SYNC_WIRE[..1] == [K] && w[|w|..] == SYNC_WIRE[..0];
  }

  lemma {:induction false} SyncSound(r: Rx, wire: seq<Sym>)
    requires r.syncState == 0 && !r.sync
    ensures Tracks(wire, RxRun(r, wire).syncState)
    ensures RxRun(r, wire).sync ==> 8 <= |wire| && wire[|wire| - 8..] == SYNC_WIRE
    decreases |wire|
  {
    if wire != [] {
      var w, s := wire[..|wire| - 1], wire[|wire| - 1];
      SyncSound(r, w);
      assert wire == w + [s];
      RunSnoc(r, w, s);
      StepTracks(w, RxRun(r, w).syncState, s);
    }
  }

  /** How many SE0 are at the end of the wire, up to two, or two of them and a J. */
  predicate EndsSo(wire: seq<Sym>, state: nat) {
    match state
    case 0 => true
    case 1 => |wire| >= 1 && wire[|wire| - 1].SE0?
    case 2 => |wire| >= 2 && wire[|wire| - 2].SE0? && wire[|wire| - 1].SE0?
    case 3 => |wire| >= 3 && wire[|wire| - 3..] == [SE0, SE0, J]
    case _ => false
  }

  /** An end of packet that is seen was on the wire: two SE0 and a J. */
  lemma {:induction false} EopSound(r: Rx, wire: seq<Sym>)
    requires r.eopState == 0 && !r.eop
    ensures EndsSo(wire, RxRun(r, wire).eopState)
    ensures RxRun(r, wire).eop ==> 3 <= |wire| && wire[|wire| - 3..] == [SE0, SE0, J]
    decreases |wire|
  {
    hide RxRun, RxStep, EndsSo;
    if wire == [] {
      RunNothing(r);
      NothingEnds(r.eopState);
    } else {
      var w, s := wire[..|wire| - 1], wire[|wire| - 1];
      EopSound(r, w);
      assert wire == w + [s];
      RunSnoc(r, w, s);
      EopMore(w, RxRun(r, w), s);
    }
  }

  lemma NothingEnds(state: nat)
    requires state == 0
    ensures EndsSo([], state)
  {
  }

  lemma EopMore(w: seq<Sym>, r: Rx, s: Sym)
    requires EndsSo(w, r.eopState)
    ensures EndsSo(w + [s], RxStep(r, s).eopState)
    ensures RxStep(r, s).eop ==> 2 <= |w| && (w + [s])[|w| - 2..] == [SE0, SE0, J]
  {
    if |w| >= 2 {
      assert (w + [s])[|w| - 2..] == [w[|w| - 2], w[|w| - 1], s];
    }
  }

  // ---- The registers in place ----------------------------------------------------------------

  class UsbTxLl {
    var phase: TxPhase
    var bsCnt: nat
    var bsNow: bool
    var lvlPrev: Sym
    var outSym: Sym

    function View(): Tx
      reads this
    {
      Tx(phase, bsCnt, bsNow, lvlPrev)
    }

    method Start()
      modifies this
      ensures View() == TX_START
    {
      phase := Sending;
      bsCnt, bsNow := 0, false;
      lvlPrev := J;
    }

    /** One bit time: the bit is acknowledged unless a stuffed one took its place. */
    method Tick(bit: bool, last: bool) returns (ack: bool)
      requires IsLevel(lvlPrev)
      modifies this
      ensures View() == TxTick(old(View()), bit, last) && outSym == TxSym(old(View()), bit)
      ensures ack == (old(phase).Sending? && !old(bsNow))
    {
      var bsBit := !bsNow && bit;
      var symNxt := if bsBit == lvlPrev.J? then J else K;
      ack := !bsNow && phase.Sending?;
      match phase {
        case Sending => outSym := symNxt;
        case Eop1 => outSym := if bsNow then symNxt else SE0;
        case Eop2 => outSym := SE0;
        case _ => outSym := J;
      }
      if !bsNow {
        phase := TxNextPhase(phase, last);
      }
      lvlPrev := symNxt;
      bsCnt, bsNow := if bit && !bsNow then (bsCnt + 1) % 8 else 0, bit && bsCnt == 5;
    }
  }

  class UsbRxLl {
    var sym: Sym
    var bit: bool
    var bsSkip: bool
    var eopState: nat
    var eop: bool
    var syncState: nat
    var sync: bool
    var rep: nat
    var bsErr: bool

    function View(): Rx
      reads this
    {
      Rx(sym, bit, rep, bsErr, bsSkip, eopState, eop, syncState, sync)
    }

    /** One symbol sampled. */
    method Sample(s: Sym)
      requires rep <= 7
      modifies this
      ensures View() == RxStep(old(View()), s)
    {
      var same := s == sym;
      bit := IsLevel(s) && IsLevel(sym) && same;
      bsSkip := rep == 6;
      bsErr := same && rep >= 6;
      if !same {
        rep := 0;
      } else if rep < 7 {
        rep := rep + 1;
      }
      eop := eopState == 2 && s.J?;
      eopState := RxEop(eopState, s);
      syncState := RxSync(syncState, s);
      sync := syncState == 8;
      if sync {
        syncState := 1;
      }
      sym := s;
    }
  }
}
