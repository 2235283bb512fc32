/** Which packets the receiver takes: for whatever bits are on the wire, exactly those that are laid out as
    USB 2.0 section 8.3 asks, with the identifier's complement and the CRC right; and how it goes on after
    one that is not. */
module PacketExact {
  import opened Isa
  import opened Engine
  import opened Crc
  import opened LineCode
  import opened BlockSteps
  import opened Packet
  import P = Packet

  // ---- What a good packet is, on its bits ------------------------------------------------------------

  /** The first four bits of the nine identifiers, in the order of the wire. */
  const TOKENS: set<seq<bool>> :=
    {[true, false, false, false], [true, false, false, true], [true, false, true, true], [true, false, true, false]}
  const DATAS: set<seq<bool>> := {[true, true, false, false], [true, true, false, true]}
  const HANDSHAKES: set<seq<bool>> := {[false, true, false, false], [false, true, false, true],
      [false, true, true, true]}

  /** The last four bits are the complement of the first four. */
  predicate Complement(o: Octet) {
    o[4] == !o[0] && o[5] == !o[1] && o[6] == !o[2] && o[7] == !o[3]
  }

  lemma TwoBytes(b: seq<Octet>)
    requires |b| == 2
    ensures |FlatBits(b)| == 16
  {
    FlatBitsSize(b);
  }

  /** A handshake is its identifier alone; a token or frame marker has two bytes more that end in their
      CRC5; data has a CRC16 behind any number of bytes. */
  predicate Good(b: seq<Octet>) {
    && b != [] && Complement(b[0])
    && var id := b[0][..4];
       || (id in HANDSHAKES && |b| == 1)
       || (id in TOKENS && |b| == 3 && (TwoBytes(b[1..]); EndsInCrc5(FlatBits(b[1..]))))
       || (id in DATAS && EndsInCrc(b[1..]))
  }

  /** The nine identifiers of USB 2.0 table 8-1, by their bits. */
  lemma Identifiers()
    ensures PidBits(PID_OUT)[..4] == [true, false, false, false] && PidBits(PID_IN)[..4] == [true, false, false, true]
    ensures PidBits(PID_SOF)[..4] == [true, false, true, false] && PidBits(PID_SETUP)[..4] == [true, false, true, true]
    ensures PidBits(PID_DATA0)[..4] == [true, true, false, false]
      && PidBits(PID_DATA1)[..4] == [true, true, false, true]
    ensures PidBits(PID_ACK)[..4] == [false, true, false, false] && PidBits(PID_NAK)[..4] == [false, true, false, true]
    ensures PidBits(PID_STALL)[..4] == [false, true, true, true]
  {
  }

  /** What the receiver makes of the identifier is what its bits say. */
  lemma Identifies(o: Octet)
    ensures PidValid(o) <==> Complement(o) && (o[..4] in TOKENS || o[..4] in DATAS || o[..4] in HANDSHAKES)
    ensures AfterPid(o) == if !Complement(o) then RError else if o[..4] in TOKENS then RToken1
                           else if o[..4] in HANDSHAKES then RWaitEop else if o[..4] in DATAS then RData else RError
    ensures Complement(o) && o[..4] in DATAS ==> IsData(PidOf(o))
    ensures Complement(o) ==> (IsHandshake(PidOf(o)) <==> o[..4] in HANDSHAKES)
  {
    assert o == [o[0], o[1], o[2], o[3], o[4], o[5], o[6], o[7]];
    assert o[..4] == [o[0], o[1], o[2], o[3]];
  }

  // ---- Bytes -----------------------------------------------------------------------------------------

  /** Where some bytes lead from the identifier on. */
  function Parse(b: seq<Octet>): RxState
    requires b != []
  {
    if |b| == 1 then AfterPid(b[0]) else AfterByte(Parse(b[..|b| - 1]), b[|b| - 1])
  }

  /** What the CRC cores have been fed. */
  function Eaten(b: seq<Octet>): seq<bool>
    requires b != []
  {
    if |b| == 1 then [b[0][7]] else FlatBits(b[1..])
  }

  /** Goods and errors signalled. */
  function Oks(log: seq<RxEvent>): nat { multiset(log)[DoneOk] }

  function Errs(log: seq<RxEvent>): nat { multiset(log)[DoneErr] }

  lemma {:induction false} ErrorStays(p: RxPkt, bits: seq<bool>)
    requires p.state.RError?
    ensures var q := BitsRun(p, bits);
            q.state.RError? && q.log == p.log && q.match5 == p.match5 && q.match16 == p.match16
    decreases |bits|
  {
    if bits != [] {
      var p1 := BitStep(p, bits[0]);
      assert p.log + [] == p.log;
      ErrorStays(p1, bits[1..]);
    }
  }

  /** The receiver after whole bytes. */
  ghost predicate Read(p: RxPkt, b: seq<Octet>, q: RxPkt)
    requires b != []
  {
    && q.state == Parse(b) && q.match5 == p.match5 && q.match16 == p.match16
    && Oks(q.log) == Oks(p.log) && Errs(q.log) == Errs(p.log) + (if q.state.RError? then 1 else 0)
    && (!q.state.RError? ==>
          && InByte(q.state) && !q.state.RPid? && q.cnt == 6 && !q.eopOk && q.pid == PidOf(b[0])
             && q.first == (|b| == 1)
          && q.fed == Eaten(b) && q.crc5Ok == p.match5(q.fed) && q.crc16Ok == p.match16(q.fed))
  }

  lemma ParseStates(b: seq<Octet>)
    requires b != []
    ensures !Parse(b).RPid? && !Parse(b).RIdle?
    decreases |b|
  {
    if |b| > 1 {
      ParseStates(b[..|b| - 1]);
    }
  }

  lemma FirstByte(p: RxPkt, o: Octet)
    requires Synced(p)
    ensures Read(p, [o], BitsRun(p, o))
  {
    var q := ByteReceived(p, o);
  }

  lemma MoreBytes(p: RxPkt, a: seq<Octet>, o: Octet, m: RxPkt, b: seq<Octet>)
    requires a != [] && Read(p, a, m) && b == a + [o] && !m.state.RError?
    ensures Read(p, b, BitsRun(m, o))
  {
    var q := ByteReceived(m, o);
    assert b[..|b| - 1] == a;
    EatenMore(a, o, b);
  }

  lemma EatenMore(a: seq<Octet>, o: Octet, b: seq<Octet>)
    requires a != [] && b == a + [o]
    ensures Eaten(b) == if |a| == 1 then o else Eaten(a) + o
  {
    assert b[1..] == a[1..] + [o];
    FlatBitsAppend(a[1..], [o]);
    assert FlatBits([o]) == o + FlatBits([o][1..]);
    if |a| == 1 {
      assert b[1..] == [o];
    }
  }

  lemma {:induction false} BytesRead(p: RxPkt, b: seq<Octet>)
    requires Synced(p) && b != []
    ensures Read(p, b, BitsRun(p, FlatBits(b)))
    decreases |b|
  {
    if |b| == 1 {
      assert b == [b[0]] && FlatBits(b) == b[0] + FlatBits(b[1..]) && b[1..] == [] && b[0] + [] == b[0];
      FirstByte(p, b[0]);
    } else {
      var a, o := b[..|b| - 1], b[|b| - 1];
      BytesRead(p, a);
      var m := BitsRun(p, FlatBits(a));
      assert b == a + [o];
      FlatBitsAppend(a, [o]);
      assert FlatBits([o]) == o + FlatBits([o][1..]) && o + [] == o;
      BitsRunCat(p, FlatBits(a), o);
      if m.state.RError? {
        ErrorStays(m, o);
      } else {
        MoreBytes(p, a, o, m, b);
      }
    }
  }

  /** Where the bytes lead, by identifier and number. */
  lemma {:induction false} ParseMeans(b: seq<Octet>)
    requires b != []
    ensures var id := b[0][..4];
            Parse(b) ==
              if !Complement(b[0]) then RError
              else if id in TOKENS then
                if |b| == 1 then RToken1 else if |b| == 2 then RToken2 else if |b| == 3 then RWaitEop else RError
              else if id in HANDSHAKES then if |b| == 1 then RWaitEop else RError
              else if id in DATAS then RData else RError
    decreases |b|
  {
    Identifies(b[0]);
    hide Complement, AfterPid;
    if |b| > 1 {
      ParseMeans(b[..|b| - 1]);
    }
  }

  /** A whole packet with its CRC, if it has one, right. */
  lemma RightMeans(p: RxPkt, b: seq<Octet>, q: RxPkt)
    requires b != [] && Read(p, b, q) && p.match5 == Match5 && p.match16 == Match16
    ensures (q.state.RWaitEop? || q.state.RData?) && Right(q) <==> Good(b)
  {
    ParseMeans(b);
    Identifies(b[0]);
    Disjoint(b[0][..4]);
    hide Complement, AfterPid, Parse, PidValid, IsHandshake, EndsInCrc, EndsInCrc5, Match5, Match16, TOKENS, DATAS,
      HANDSHAKES;
    if q.state.RData? {
      DataRight(b);
    } else if q.state.RWaitEop? && |b| == 3 {
      TwoBytes(b[1..]);
      EndsMatch5(FlatBits(b[1..]));
    }
  }

  lemma Disjoint(id: seq<bool>)
    requires |id| == 4
    ensures id in TOKENS ==> id !in DATAS && id !in HANDSHAKES
    ensures id in DATAS ==> id !in HANDSHAKES
  {
    assert id == [id[0], id[1], id[2], id[3]];
  }

  lemma DataRight(b: seq<Octet>)
    requires b != [] && Complement(b[0])
    ensures Match16(Eaten(b)) <==> EndsInCrc(b[1..])
  {
    assert b[0][7] == !PidOf(b[0]).b3;
    EndsMatch(PidOf(b[0]), b[1..]);
  }

  // ---- The end of packet -----------------------------------------------------------------------------

  /** The packet ends in its place, and is right. */
  predicate Ends(q: RxPkt, x: seq<bool>) {
    (|x| == 2 || |x| == 3) && (q.state.RWaitEop? || q.state.RData?) && Right(q)
  }

  lemma EndState(q: RxPkt, x: seq<bool>, m: RxPkt, l: Rx)
    requires InByte(q.state) && !q.state.RPid? && !q.eopOk && Partly(q, x, m) && (x == [] ==> m == q) && l.eop
    ensures RxpStep(m, l).state == if Ends(q, x) then RIdle else RError
  {
    hide Supported, PidValid;
  }

  lemma EndSignals(m: RxPkt, l: Rx)
    requires InByte(m.state) && !m.state.RPid? && (RxpStep(m, l).state.RIdle? || RxpStep(m, l).state.RError?)
    ensures var f := RxpStep(m, l);
            && Oks(f.log) == Oks(m.log) + (if f.state.RIdle? then 1 else 0)
            && Errs(f.log) == Errs(m.log) + (if f.state.RIdle? then 0 else 1)
  {
    var byteStb, data := StepLog(m, l);
    var next := RxpStep(m, l).state;
    SignalCounts(m, next, byteStb, data);
    hide RxpStep, RxSignals;
    assert multiset(m.log + RxSignals(m, next, byteStb, data))
        == multiset(m.log) + multiset(RxSignals(m, next, byteStb, data));
  }

  lemma StepLog(m: RxPkt, l: Rx) returns (byteStb: bool, data: Octet)
    ensures RxpStep(m, l).log == m.log + RxSignals(m, RxpStep(m, l).state, byteStb, data)
  {
    hide RxSignals;
    byteStb := !l.skip && m.cnt >= 8;
    data := if !l.skip then m.data[1..] + [l.bit] else m.data;
  }

  lemma SignalCounts(m: RxPkt, next: RxState, byteStb: bool, data: Octet)
    requires InByte(m.state) && !m.state.RPid? && (next.RIdle? || next.RError?)
    ensures var s := RxSignals(m, next, byteStb, data);
            Oks(s) == (if next.RIdle? then 1 else 0) && Errs(s) == (if next.RIdle? then 0 else 1)
  {
  }

  /** The end of packet after some bits of a byte. */
  lemma EndExact(q: RxPkt, x: seq<bool>, m: RxPkt, l: Rx) returns (f: RxPkt)
    requires InByte(q.state) && !q.state.RPid? && !q.eopOk && Partly(q, x, m) && (x == [] ==> m == q) && l.eop
    ensures f == RxpStep(m, l) && f.state == (if Ends(q, x) then RIdle else RError)
    ensures Oks(f.log) == Oks(q.log) + (if Ends(q, x) then 1 else 0)
    ensures Errs(f.log) == Errs(q.log) + (if Ends(q, x) then 0 else 1)
  {
    EndState(q, x, m, l);
    hide RxpStep, Ends;
    f := RxpStep(m, l);
    EndSignals(m, l);
  }

  // ---- On the wire -----------------------------------------------------------------------------------

  /** The whole bytes of some bits, and what is left. */
  function Wholes(bits: seq<bool>): seq<Octet> {
    Octets(bits[..|bits| / 8 * 8])
  }

  function Left(bits: seq<bool>): nat {
    |bits| % 8
  }

  lemma WholesCut(bits: seq<bool>) returns (b: seq<Octet>, x: seq<bool>)
    ensures b == Wholes(bits) && bits == FlatBits(b) + x && |x| == Left(bits) && |b| == |bits| / 8
  {
    var k := |bits| / 8 * 8;
    b, x := Wholes(bits), bits[k..];
    OctetsFlat(bits[..k]);
    assert bits == bits[..k] + bits[k..];
  }

  /** What the receiver has once the bits of a packet, and the zeroes that an end of packet's SE0 reads as,
      have come, and the J after them. */
  lemma BitsEnd(p: RxPkt, bits: seq<bool>, l: Rx) returns (f: RxPkt)
    requires Synced(p) && p.match5 == Match5 && p.match16 == Match16 && |bits| >= 8 && l.eop
    ensures f == RxpStep(BitsRun(p, bits), l)
    ensures var good := Good(Wholes(bits)) && Left(bits) in {2, 3};
            && Oks(f.log) == Oks(p.log) + (if good then 1 else 0)
            && Errs(f.log) == Errs(p.log) + (if good then 0 else 1) && (f.state.RIdle? || f.state.RError?)
  {
    var b, x := WholesCut(bits);
    BytesRead(p, b);
    var q := BitsRun(p, FlatBits(b));
    RightMeans(p, b, q);
    BitsRunCat(p, FlatBits(b), x);
    ReadPhase(p, b, q);
    f := RxpStep(BitsRun(p, bits), l);
    hide *;
    PartEnds(q, x, l, f, Good(b));
    ReadCounts(p, b, q);
  }

  lemma ReadPhase(p: RxPkt, b: seq<Octet>, q: RxPkt)
    requires b != [] && Read(p, b, q)
    ensures q.state.RError? || (InByte(q.state) && !q.state.RPid? && !q.eopOk && q.cnt == 6)
  {
  }

  lemma ReadCounts(p: RxPkt, b: seq<Octet>, q: RxPkt)
    requires b != [] && Read(p, b, q)
    ensures Oks(q.log) == Oks(p.log) && Errs(q.log) == Errs(p.log) + (if q.state.RError? then 1 else 0)
  {
  }

  /** The bits left over, and the J that ends the packet. */
  lemma PartEnds(q: RxPkt, x: seq<bool>, l: Rx, f: RxPkt, good: bool)
    requires q.state.RError? || (InByte(q.state) && !q.state.RPid? && !q.eopOk && q.cnt == 6)
    requires |x| <= 7 && l.eop && f == RxpStep(BitsRun(q, x), l)
    requires (q.state.RWaitEop? || q.state.RData?) && Right(q) <==> good
    ensures var done := good && (|x| == 2 || |x| == 3);
            && Oks(f.log) == Oks(q.log) + (if done then 1 else 0)
            && Errs(f.log) == Errs(q.log) + (if done || q.state.RError? then 0 else 1)
            && (f.state.RIdle? || f.state.RError?)
  {
    if q.state.RError? {
      ErrorStays(q, x);
      ErrorEnds(BitsRun(q, x), l);
    } else {
      Shifted(q, x);
      NoBits(q, x);
      var g := EndExact(q, x, BitsRun(q, x), l);
    }
  }

  lemma NoBits(q: RxPkt, x: seq<bool>)
    ensures x == [] ==> BitsRun(q, x) == q
  {
  }

  /** An error ends with the packet, without another word. */
  lemma ErrorEnds(m: RxPkt, l: Rx)
    requires m.state.RError? && (l.eop || (l.err && l.sym.J?))
    ensures RxpStep(m, l).state.RIdle? && RxpStep(m, l).log == m.log
  {
    assert m.log + [] == m.log;
  }

  function Zeroes(n: nat): seq<bool> {
    seq(n, _ => false)
  }

  /** Data and the end of packet's SE0 on the line, up to the J after them. */
  lemma EndOnWire(r: Rx, p: RxPkt, data: seq<Sym>, bits: seq<bool>, e: seq<Sym>) returns (z: nat, l: Rx)
    requires Synced(p) && Clean(r, data) && LineCode.Decode(r, data) == bits && IsEop(e)
    requires exists level, ones :: ones < 6 && InStep(RxRun(r, data), level, ones)
    ensures 2 <= z <= 3 && z < |e| && e[z].J? && l.eop && AtEop(l)
    ensures P.Receive(r, p, data + e[..z + 1]) == (l, RxpStep(BitsRun(p, bits + Zeroes(z)), l))
  {
    var r1 := RxRun(r, data);
    var level, ones :| ones < 6 && InStep(r1, level, ones);
    z := EopSeen(r1, level, ones, e);
    EopBits(r1, level, ones, z, e[..z]);
    assert LineCode.Decode(r1, e[..z]) == Zeroes(z);
    Follows(r, p, data);
    var m := BitsRun(p, bits);
    hide *;
    l := ZeroesOnWire(r, p, data, m, r1, e, z);
    BitsRunCat(p, bits, Zeroes(z));
  }

  lemma ZeroesOnWire(r: Rx, p: RxPkt, data: seq<Sym>, m: RxPkt, r1: Rx, e: seq<Sym>, z: nat) returns (l: Rx)
    requires P.Receive(r, p, data) == (r1, m) && z < |e| && e[z].J? && Clean(r1, e[..z])
    requires LineCode.Decode(r1, e[..z]) == Zeroes(z) && !m.state.RIdle? && (m.state.RPid? ==> m.first)
    ensures l == RxRun(r1, e[..z + 1])
    ensures P.Receive(r, p, data + e[..z + 1]) == (l, RxpStep(BitsRun(m, Zeroes(z)), l))
  {
    hide RxpStep, RxRun, BitsRun, Clean, LineCode.Decode, P.Receive, RxStep;
    Follows(r1, m, e[..z]);
    assert e[..z] + [J] == e[..z + 1];
    ReceiveSnoc(r1, m, e[..z], J);
    LineCode.RunSnoc(r1, e[..z], J);
    ReceiveCat(r, p, data, e[..z + 1]);
    l := RxRun(r1, e[..z + 1]);
  }

  /** The receiver at rest, with the CRC cores of USB. */
  ghost predicate Rests(r: Rx, p: RxPkt) {
    Idle(r) && p.state.RIdle? && p.match5 == Match5 && p.match16 == Match16
  }

  /** A packet's bits between synchronisation and end, on the wire. */
  lemma OnWire(r: Rx, p: RxPkt, bits: seq<bool>, junk: nat -> bool)
    returns (wire: seq<Sym>, n: nat, z: nat, p1: RxPkt, l: Rx)
    requires Rests(r, p)
    ensures wire == Send(TX_START, SYNC_BITS + bits, junk) && n < |wire| && wire[n].J? && 2 <= z <= 3
    ensures Synced(p1) && p1.log == p.log && p1.match5 == Match5 && p1.match16 == Match16
    ensures l.eop && AtEop(l)
    ensures P.Receive(r, p, wire[..n + 1]) == (l, RxpStep(BitsRun(p1, bits + Zeroes(z)), l))
  {
    var data, e := LineRoundTrip(r, bits, junk);
    p1 := SyncReceived(r, p);
    var r1 := RxRun(r, SYNC_WIRE);
    z, l := EndOnWire(r1, p1, data, bits, e);
    hide *;
    ReceiveCat(r, p, SYNC_WIRE, data + e[..z + 1]);
    CatAssoc(SYNC_WIRE, data, e[..z + 1]);
    wire, n := WireCut(data, e, z);
  }

  /** Whatever bits are on the wire as a packet: at the J of its end it has been signalled as good if and
      only if, with the two or three zeroes that the SE0 read as, they are the whole bytes of a good
      packet and two or three bits more; and if not, and there was a whole byte, as an error, once. */
  lemma ReceivedExactly(r: Rx, p: RxPkt, bits: seq<bool>, junk: nat -> bool) returns (wire: seq<Sym>, n: nat, z: nat)
    requires Rests(r, p)
    ensures wire == Send(TX_START, SYNC_BITS + bits, junk) && n < |wire| && wire[n].J? && 2 <= z <= 3
    ensures var all := bits + Zeroes(z);
            var good := Good(Wholes(all)) && Left(all) in {2, 3};
            var q := P.Receive(r, p, wire[..n + 1]).1;
            && Oks(q.log) == Oks(p.log) + (if good then 1 else 0)
            && (|all| >= 8 ==>
                  Errs(q.log) == Errs(p.log) + (if good then 0 else 1) && (q.state.RIdle? || q.state.RError?))
            && AtEop(P.Receive(r, p, wire[..n + 1]).0)
  {
    var p1, l;
    wire, n, z, p1, l := OnWire(r, p, bits, junk);
    var all := bits + Zeroes(z);
    if |all| >= 8 {
      var f := BitsEnd(p1, all, l);
    } else {
      ShortEnd(p1, all, l);
    }
  }

  /** A packet without a whole byte is never good. */
  lemma ShortEnd(p: RxPkt, bits: seq<bool>, l: Rx)
    requires Synced(p) && |bits| < 8
    ensures !Good(Wholes(bits)) && Oks(RxpStep(BitsRun(p, bits), l).log) == Oks(p.log)
  {
    hide *;
    ShortBits(p, bits);
    var m := BitsRun(p, bits);
    PidGoesOn(m, l);
    var byteStb, data := StepLog(m, l);
    PidSignals(m, RxpStep(m, l).state, byteStb, data);
    OksAdd(m.log, RxSignals(m, RxpStep(m, l).state, byteStb, data));
  }

  lemma ShortBits(p: RxPkt, bits: seq<bool>)
    requires Synced(p) && |bits| < 8
    ensures !Good(Wholes(bits)) && BitsRun(p, bits).state.RPid? && BitsRun(p, bits).log == p.log
  {
    assert Wholes(bits) == [];
    Shifted(p, bits);
    hide BitsRun;
  }

  lemma PidGoesOn(m: RxPkt, l: Rx)
    requires m.state.RPid?
    ensures !RxpStep(m, l).state.RIdle?
  {
    hide PidValid;
  }

  lemma PidSignals(m: RxPkt, next: RxState, byteStb: bool, data: Octet)
    requires m.state.RPid? && !next.RIdle?
    ensures Oks(RxSignals(m, next, byteStb, data)) == 0
  {
    hide PidValid;
  }

  lemma OksAdd(a: seq<RxEvent>, b: seq<RxEvent>)
    ensures Oks(a + b) == Oks(a) + Oks(b)
  {
    assert multiset(a + b) == multiset(a) + multiset(b);
  }

  /** A first byte whose last four bits are not the complement of the first four, or that is none of the nine
      identifiers, whatever bits follow: the packet is reported as an error, and not announced; and the
      receiver is idle again at its end. */
  lemma BadIdentifier(r: Rx, p: RxPkt, o: Octet, rest: seq<bool>, junk: nat -> bool) returns (wire: seq<Sym>, n: nat)
    requires Rests(r, p)
    requires !Complement(o) || !(o[..4] in TOKENS || o[..4] in DATAS || o[..4] in HANDSHAKES)
    ensures wire == Send(TX_START, SYNC_BITS + (o + rest), junk) && n < |wire| && wire[n].J?
    ensures var q := P.Receive(r, p, wire[..n + 1]).1; q.state.RIdle? && q.log == p.log + [DoneErr]
  {
    var z, p1, l;
    wire, n, z, p1, l := OnWire(r, p, o + rest, junk);
    Identifies(o);
    var m := ByteReceived(p1, o);
    ErrorStays(m, rest + Zeroes(z));
    BitsRunCat(p1, o, rest + Zeroes(z));
    CatAssoc(o, rest, Zeroes(z));
    ErrorEnds(BitsRun(p1, o + (rest + Zeroes(z))), l);
  }

  // ---- After an error --------------------------------------------------------------------------------

  function Js(k: nat): seq<Sym> {
    if k == 0 then [] else Js(k - 1) + [J]
  }

  /** The line receiver after an end of packet and `k` times J. */
  predicate Rested(l: Rx, k: nat) {
    && l.sym.J? && l.syncState == 0 && !l.sync && l.rep == (if k < 7 then k else 7)
    && (if k == 0 then l.eopState == 3 else l.eopState == 0 && !l.eop && l.err == (k >= 7))
  }

  lemma RestedNext(l: Rx, k: nat)
    requires Rested(l, k)
    ensures Rested(RxStep(l, J), k + 1)
  {
  }

  /** An error found at the very end of a packet leaves the receiver only after seven times J; until then
      nothing is signalled. */
  lemma {:induction false} ErrorLasts(l: Rx, p: RxPkt, k: nat)
    requires Rested(l, 0) && p.state.RError?
    ensures var q := P.Receive(l, p, Js(k));
            && Rested(q.0, k) && (q.1.state.RIdle? <==> k >= 7) && (q.1.state.RError? <==> k < 7)
            && q.1.log == p.log && q.1.match5 == p.match5 && q.1.match16 == p.match16
  {
    if k > 0 {
      ErrorLasts(l, p, k - 1);
      ReceiveSnoc(l, p, Js(k - 1), J);
      var q := P.Receive(l, p, Js(k - 1));
      RestedNext(q.0, k - 1);
      assert q.1.log + [] == q.1.log;
    }
  }

  /** A receiver that is idle at the end of a packet is at rest one J later. */
  lemma {:induction false} IdleRests(l: Rx, p: RxPkt, k: nat)
    requires Rested(l, 0) && p.state.RIdle? && p.match5 == Match5 && p.match16 == Match16
    ensures var q := P.Receive(l, p, Js(k));
            && Rested(q.0, k) && q.1.state.RIdle? && q.1.log == p.log && q.1.match5 == Match5 && q.1.match16 == Match16
            && (k > 0 ==> Rests(q.0, q.1))
  {
    if k > 0 {
      IdleRests(l, p, k - 1);
      ReceiveSnoc(l, p, Js(k - 1), J);
      var q := P.Receive(l, p, Js(k - 1));
      RestedNext(q.0, k - 1);
      IdleStep(q.1, RxStep(q.0, J));
    }
  }

  /** So after a data packet with a wrong CRC, and seven times J at least, the receiver is at rest, and the
      next packet is received. With fewer it is not: the next packet is passed over without a word, good or
      not, and only the one after that is received. */
  lemma NextAfterError(l: Rx, p: RxPkt, k: nat, bits: seq<bool>, junk: nat -> bool) returns (wire: seq<Sym>, n: nat)
    requires AtEop(l) && p.state.RError? && 0 < k && p.match5 == Match5 && p.match16 == Match16
    ensures wire == Send(TX_START, SYNC_BITS + bits, junk) && n < |wire| && wire[n].J?
    ensures var q := P.Receive(l, p, Js(k));
            && (k >= 7 ==> Rests(q.0, q.1))
            && (k < 7 ==>
                  var f := P.Receive(q.0, q.1, wire[..n + 1]).1; f.state.RIdle? && f.log == p.log)
  {
    ErrorLasts(l, p, k);
    var q := P.Receive(l, p, Js(k));
    var data, e := LineRoundTrip(q.0, bits, junk);
    var m;
    if k < 7 {
      m := PassedOver(q.0, q.1, bits, data, e);
      ReceiveCat(q.0, q.1, SYNC_WIRE, data + e[..m + 1]);
    } else {
      m := if e[2].J? then 2 else 3;
    }
    wire, n := WireCut(data, e, m);
    CatAssoc(SYNC_WIRE, data, e[..m + 1]);
  }

  /** A whole packet while in error: its end leads out. */
  lemma PassedOver(r: Rx, p: RxPkt, bits: seq<bool>, data: seq<Sym>, e: seq<Sym>) returns (m: nat)
    requires Idle(r) && p.state.RError? && Carries(r, data, bits) && IsEop(e) && Clean(r, SYNC_WIRE)
    requires exists level, ones :: ones < 6 && InStep(RxRun(RxRun(r, SYNC_WIRE), data), level, ones)
    ensures m < |e| && e[m].J?
    ensures var q := P.Receive(r, p, SYNC_WIRE);
            var f := P.Receive(q.0, q.1, data + e[..m + 1]).1; f.state.RIdle? && f.log == p.log
  {
    var p1 := ErrorWire(r, p, SYNC_WIRE);
    var r1 := RxRun(r, SYNC_WIRE);
    var p2 := ErrorWire(r1, p1, data);
    var r2 := RxRun(r1, data);
    var level, ones :| ones < 6 && InStep(r2, level, ones);
    m := EopSeen(r2, level, ones, e);
    hide *;
    ErrorOut(r2, p2, e, m);
    ReceiveCat(r1, p1, data, e[..m + 1]);
  }

  lemma ErrorWire(r: Rx, p: RxPkt, wire: seq<Sym>) returns (q: RxPkt)
    requires p.state.RError? && Clean(r, wire)
    ensures P.Receive(r, p, wire) == (RxRun(r, wire), q) && q.state.RError? && q.log == p.log
  {
    Follows(r, p, wire);
    ErrorStays(p, LineCode.Decode(r, wire));
    q := BitsRun(p, LineCode.Decode(r, wire));
  }

  lemma ErrorOut(r: Rx, p: RxPkt, e: seq<Sym>, m: nat)
    requires p.state.RError? && m < |e| && e[m].J? && Clean(r, e[..m]) && RxRun(r, e[..m + 1]).eop
    ensures var f := P.Receive(r, p, e[..m + 1]).1; f.state.RIdle? && f.log == p.log
  {
    hide RxpStep, RxRun, RxStep, P.Receive, Clean;
    var q := ErrorWire(r, p, e[..m]);
    assert e[..m] + [J] == e[..m + 1];
    ReceiveSnoc(r, p, e[..m], J);
    LineCode.RunSnoc(r, e[..m], J);
    ErrorEnds(q, RxRun(r, e[..m + 1]));
  }

  /** A stuffing error in data is an error of the packet: however it goes on, until the end of packet, or
      seven times J, nothing more is signalled. */
  lemma StuffingError(r: Rx, p: RxPkt, s: Sym, wire: seq<Sym>)
    requires p.state.RData? && RxStep(r, s).err && !RxStep(r, s).eop
    requires Quietly(RxStep(r, s), wire)
    ensures var q := P.Receive(r, p, [s] + wire).1;
            q.state.RError? && Errs(q.log) == Errs(p.log) + 1 && Oks(q.log) == Oks(p.log)
  {
    var r1 := RxStep(r, s);
    var p1 := RxpStep(p, r1);
    var byteStb, data := StepLog(p, r1);
    SignalCounts(p, p1.state, byteStb, data);
    assert multiset(p.log + RxSignals(p, p1.state, byteStb, data))
        == multiset(p.log) + multiset(RxSignals(p, p1.state, byteStb, data));
    assert ([s] + wire)[1..] == wire;
    QuietError(r1, p1, wire);
  }

  /** Neither an end of packet, nor a stuffing error at a J. */
  predicate Quietly(r: Rx, wire: seq<Sym>)
    decreases |wire|
  {
    wire != [] ==>
      var r1 := RxStep(r, wire[0]);
      !r1.eop && !(r1.err && r1.sym.J?) && Quietly(r1, wire[1..])
  }

  lemma {:induction false} QuietError(r: Rx, p: RxPkt, wire: seq<Sym>)
    requires p.state.RError? && Quietly(r, wire)
    ensures var q := P.Receive(r, p, wire).1; q.state.RError? && q.log == p.log
    decreases |wire|
  {
    if wire != [] {
      var r1 := RxStep(r, wire[0]);
      assert p.log + [] == p.log;
      QuietError(r1, RxpStep(p, r1), wire[1..]);
    }
  }
}
