/** Packets as bits: the transmitter that builds them (rtl/usb_tx_pkt.v) and the receiver that
    takes them apart (rtl/usb_rx_pkt.v). A byte is its eight bits, in the order of the wire. */
module Packet {
  import opened Isa
  import opened Engine
  import opened Crc
  import opened LineCode
  import opened BlockSteps

  type Octet = b: seq<bool> | |b| == 8 witness seq(8, _ => false)

  type Word = b: seq<bool> | |b| == 16 witness seq(16, _ => false)

  function FlatBits(b: seq<Octet>): seq<bool> {
    if b == [] then [] else b[0] + FlatBits(b[1..])
  }

  predicate IsHandshake(pid: Nib) {
    pid == PID_ACK || pid == PID_NAK || pid == PID_STALL
  }

  /** A packet identifier, least significant bit first, and its complement. */
  function PidBits(pid: Nib): Octet {
    [pid.b0, pid.b1, pid.b2, pid.b3, !pid.b0, !pid.b1, !pid.b2, !pid.b3]
  }

  function PidOf(o: Octet): Nib
  {
    Nib(o[3], o[2], o[1], o[0])
  }

  // ---- The packet as USB 2.0 section 8.3 lays it out -------------------------------------------

  /** The CRC cores as the rest of the transceiver uses them: what one computes of the bits it has
      been fed, and whether one finds the residue. */
  type CrcCore = seq<bool> -> Word
  type Matcher = seq<bool> -> bool

  function CrcBits(crc: CrcCore, payload: seq<Octet>): Word {
    crc(FlatBits(payload))
  }

  /** What follows the synchronisation pattern. */
  function Body(crc: CrcCore, pid: Nib, payload: seq<Octet>): seq<bool> {
    PidBits(pid) + if IsHandshake(pid) then [] else FlatBits(payload) + CrcBits(crc, payload)
  }

  // ---- The transmitter -----------------------------------------------------------------------

  datatype TxState = TIdle | TPid | TData | TCrcLsb | TCrcMsb

  /** The state, what is left of the byte being sent, the length counter, whether the byte is the
      last, the bytes still to fetch, the bits that the CRC core has been fed, and that core. */
  datatype TxPkt = TxPkt(state: TxState, shift: seq<bool>, len: int, last: bool, isData: bool, todo: seq<Octet>,
      fed: seq<bool>, crc: CrcCore)

  /** The synchronisation byte is loaded; the length counter is one below the length. */
  function TxStart(crc: CrcCore, payload: seq<Octet>): TxPkt {
    TxPkt(TPid, SYNC_BITS, |payload| - 1, false, false, payload, [], crc)
  }

  /** The byte that the state selects. */
  function TxLoad(t: TxPkt, pid: Nib): Octet {
    match t.state
    case TPid => PidBits(pid)
    case TData => if t.todo == [] then Zeros(8) else t.todo[0]
    case TCrcLsb => if t.fed == [] then Zeros(8) else t.crc(t.fed)[..8]
    case TCrcMsb => if t.fed == [] then Zeros(8) else t.crc(t.fed)[8..]
    case TIdle => Zeros(8)
  }

  function TxNext(t: TxPkt, pid: Nib): TxState {
    match t.state
    case TPid => if IsHandshake(pid) then TIdle else if t.len < 0 then TCrcLsb else TData
    case TData => if t.len < 0 then TCrcLsb else TData
    case TCrcLsb => TCrcMsb
    case _ => TIdle
  }

  /** A bit has been acknowledged, and is not the byte's last: shift. */
  function TxShift(t: TxPkt): TxPkt
    requires |t.shift| > 1
  {
    t.(shift := t.shift[1..], fed := if t.isData then t.fed + [t.shift[1]] else t.fed)
  }

  /** It is the last: load the next byte. */
  function TxReload(t: TxPkt, pid: Nib): TxPkt {
    var o := TxLoad(t, pid);
    t.(state := TxNext(t, pid), shift := o,
       len := if t.state.TPid? || t.state.TData? then t.len - 1 else t.len,
       last := t.state.TCrcMsb? || (t.state.TPid? && IsHandshake(pid)),
       isData := t.state.TData?,
       todo := if t.state.TData? && t.todo != [] then t.todo[1..] else t.todo,
       fed := if t.state.TData? then t.fed + [o[0]] else t.fed)
  }

  /** Bytes still to come after the one being sent. */
  function TxLeft(t: TxPkt): nat {
    match t.state
    case TIdle => 0
    case TCrcMsb => 1
    case TCrcLsb => 2
    case TData => 3 + if t.len < 0 then 0 else t.len + 1
    case TPid => 5 + if t.len < 0 then 0 else t.len + 1
  }

  predicate TxSane(t: TxPkt) {
    |t.shift| > 0 && (t.last <==> t.state.TIdle?)
  }

  lemma ReloadSane(t: TxPkt, pid: Nib)
    requires TxSane(t) && !t.last
    ensures TxSane(TxReload(t, pid)) && TxLeft(TxReload(t, pid)) < TxLeft(t)
  {
  }

  /** All the bits of the packet, the last one being marked so. */
  function TxBits(t: TxPkt, pid: Nib): (r: seq<bool>)
    requires TxSane(t)
    ensures r != []
    decreases TxLeft(t), |t.shift|
  {
    if |t.shift| > 1 then [t.shift[0]] + TxBits(TxShift(t), pid)
    else if t.last then [t.shift[0]]
    else
      ReloadSane(t, pid);
      [t.shift[0]] + TxBits(TxReload(t, pid), pid)
  }

  /** The same byte with only its last bit left to send. */
  function ByteDone(t: TxPkt): TxPkt
    requires t.shift != []
  {
    t.(shift := t.shift[|t.shift| - 1..], fed := if t.isData then t.fed + t.shift[1..] else t.fed)
  }

  /** What is sent after a byte whose last bit is in the register. */
  function After(t: TxPkt, pid: Nib): seq<bool>
    requires TxSane(t)
  {
    if t.last then [] else
      ReloadSane(t, pid);
      TxBits(TxReload(t, pid), pid)
  }

  lemma LastOut(t: TxPkt, pid: Nib)
    requires TxSane(t) && |t.shift| == 1
    ensures TxBits(t, pid) == t.shift + After(t, pid)
  {
    OneLeft(t);
    if t.last {
      assert t.shift + [] == t.shift;
    }
  }

  lemma MoreOut(t: TxPkt, pid: Nib, rest: seq<bool>)
    requires TxSane(t) && |t.shift| > 1
    requires TxBits(TxShift(t), pid) == TxShift(t).shift + rest
    ensures TxBits(t, pid) == t.shift + rest
  {
    assert TxBits(t, pid) == [t.shift[0]] + TxBits(TxShift(t), pid);
    assert [t.shift[0]] + (t.shift[1..] + rest) == t.shift + rest;
  }

  lemma {:induction false} ByteOut(t: TxPkt, pid: Nib) returns (d: TxPkt)
    requires TxSane(t)
    ensures d == ByteDone(t) && TxSane(d)
    ensures TxBits(t, pid) == t.shift + After(d, pid)
    decreases |t.shift|
  {
    if |t.shift| == 1 {
      d := t;
      OneLeft(t);
      LastOut(t, pid);
    } else {
      d := ByteOut(TxShift(t), pid);
      ShiftDone(t);
      MoreOut(t, pid, After(d, pid));
    }
  }

  lemma OneLeft(t: TxPkt)
    requires |t.shift| == 1
    ensures ByteDone(t) == t && t.shift == [t.shift[0]]
  {
    assert t.shift[0..] == t.shift && t.shift[1..] == [] && t.fed + [] == t.fed;
  }

  lemma ShiftDone(t: TxPkt)
    requires |t.shift| > 1
    ensures ByteDone(TxShift(t)) == ByteDone(t)
  {
    var n := |t.shift|;
    assert t.shift[1..][n - 2..] == t.shift[n - 1..];
    assert t.fed + [t.shift[1]] + t.shift[1..][1..] == t.fed + t.shift[1..];
  }

  /** The byte being sent, then the CRC of what has been fed once it is out. */
  lemma CrcOut(t: TxPkt, pid: Nib, fed: seq<bool>)
    requires TxSane(t) && t.state.TCrcLsb? && fed == ByteDone(t).fed && t.crc([]) == Zeros(16)
    ensures TxBits(t, pid) == t.shift + t.crc(fed)
  {
    var d := ByteOut(t, pid);
    var t1 := TxReload(d, pid);
    var d1 := ByteOut(t1, pid);
    var t2 := TxReload(d1, pid);
    var d2 := ByteOut(t2, pid);
    assert Zeros(16)[..8] == Zeros(8) && Zeros(16)[8..] == Zeros(8);
    assert t1.shift == t.crc(fed)[..8] && t2.shift == t.crc(fed)[8..];
    assert t.crc(fed)[..8] + t.crc(fed)[8..] == t.crc(fed);
  }

  /** The next data byte is loaded. */
  lemma DataStep(t: TxPkt, pid: Nib, fed: seq<bool>) returns (t1: TxPkt)
    requires TxSane(t) && t.state.TData? && t.todo != [] && fed == ByteDone(t).fed
    ensures t1.shift == t.todo[0] && t1.todo == t.todo[1..] && t1.len == t.len - 1 && t1.crc == t.crc && TxSane(t1)
    ensures t1.state == if t.len < 0 then TCrcLsb else TData
    ensures ByteDone(t1).fed == fed + t.todo[0]
    ensures TxBits(t, pid) == t.shift + TxBits(t1, pid)
  {
    var d := ByteOut(t, pid);
    t1 := TxReload(d, pid);
    var o := t.todo[0];
    assert fed + [o[0]] + o[1..] == fed + o;
  }

  lemma {:induction false} FlatBitsCons(b: seq<Octet>, fed: seq<bool>)
    requires b != []
    ensures FlatBits(b) == b[0] + FlatBits(b[1..])
    ensures fed + FlatBits(b) == fed + b[0] + FlatBits(b[1..])
  {
  }

  /** The byte being sent, the bytes still to fetch, and the CRC of all the data. */
  lemma {:induction false} DataOut(t: TxPkt, pid: Nib, fed: seq<bool>)
    requires TxSane(t) && t.state.TData? && t.todo != [] && t.len == |t.todo| - 2 && fed == ByteDone(t).fed
      && t.crc([]) == Zeros(16)
    ensures TxBits(t, pid) == t.shift + (FlatBits(t.todo) + t.crc(fed + FlatBits(t.todo)))
    decreases |t.todo|
  {
    var t1 := DataStep(t, pid, fed);
    var o, rest := t.todo[0], t.todo[1..];
    FlatBitsCons(t.todo, fed);
    if rest == [] {
      CrcOut(t1, pid, fed + o);
      assert FlatBits(rest) == [] && fed + o + [] == fed + o && o + [] == o;
    } else {
      DataOut(t1, pid, fed + o);
      CatAssoc(o, FlatBits(rest), t.crc(fed + o + FlatBits(rest)));
    }
  }

  lemma Loaded(crc: CrcCore, pid: Nib, payload: seq<Octet>) returns (t1: TxPkt)
    ensures TxSane(t1) && t1.shift == PidBits(pid) && !t1.isData && t1.fed == [] && t1.todo == payload && t1.crc == crc
      && t1.len == |payload| - 2
    ensures t1.state == if IsHandshake(pid) then TIdle else if payload == [] then TCrcLsb else TData
    ensures TxBits(TxStart(crc, payload), pid) == SYNC_BITS + TxBits(t1, pid)
  {
    var t := TxStart(crc, payload);
    var d := ByteOut(t, pid);
    t1 := TxReload(d, pid);
  }

  /** The transmitter sends the packet of the standard, after the synchronisation pattern. */
  lemma TransmitsBody(crc: CrcCore, pid: Nib, payload: seq<Octet>)
    requires crc([]) == Zeros(16)
    ensures TxBits(TxStart(crc, payload), pid) == SYNC_BITS + Body(crc, pid, payload)
  {
    var t1 := Loaded(crc, pid, payload);
    if IsHandshake(pid) {
      var d := ByteOut(t1, pid);
    } else if payload == [] {
      CrcOut(t1, pid, []);
      assert [] + CrcBits(crc, payload) == CrcBits(crc, payload);
    } else {
      DataOut(t1, pid, []);
      assert [] + FlatBits(payload) == FlatBits(payload);
    }
  }

  // ---- The receiver --------------------------------------------------------------------------

  datatype RxState = RIdle | RPid | RError | RToken1 | RToken2 | RWaitEop | RData

  datatype RxEvent = Started | ByteIn(o: Octet) | DoneOk | DoneErr

  /** The state, the bit counter, the last eight bits, whether an end of packet would be in place,
      the bits that the CRC cores have been fed (starting anew after the identifier), what they said
      at the last whole byte, the identifier, what has been signalled, and the cores. */
  datatype RxPkt = RxPkt(
    state: RxState, cnt: nat, data: Octet, eopOk: bool,
    first: bool, fed: seq<bool>, crc5Ok: bool, crc16Ok: bool, pid: Nib, log: seq<RxEvent>,
    match5: Matcher, match16: Matcher)

  predicate Supported(pid: Nib) {
    IsToken(pid) || pid == PID_SOF || pid == PID_DATA0 || pid == PID_DATA1 || IsHandshake(pid)
  }

  /** The identifier's complement is right, and it is one of those supported. */
  predicate PidValid(o: Octet)
  {
    o == PidBits(PidOf(o)) && Supported(PidOf(o))
  }

  function AfterPid(o: Octet): RxState
  {
    if !PidValid(o) then RError
    else if IsToken(PidOf(o)) || PidOf(o) == PID_SOF then RToken1
    else if IsHandshake(PidOf(o)) then RWaitEop
    else RData
  }

  /** The next state, from what the line receiver says of a symbol. */
  function RxNext(p: RxPkt, l: Rx, byteStb: bool, data: Octet): RxState
  {
    match p.state
    case RIdle => if l.sync then RPid else RIdle
    case RPid => if byteStb then AfterPid(data) else RPid
    case RError => if l.eop || (l.err && l.sym.J?) then RIdle else RError
    case RToken1 => if l.eop then RError else if byteStb then RToken2 else RToken1
    case RToken2 => if l.eop then RError else if byteStb then RWaitEop else RToken2
    case RWaitEop =>
      if l.eop then if p.eopOk && (p.crc5Ok || IsHandshake(p.pid)) then RIdle else RError
      else if byteStb then RError else RWaitEop
    case RData =>
      if l.eop then if p.eopOk && p.crc16Ok then RIdle else RError
      else if l.err then RError else RData
  }

  function RxSignals(p: RxPkt, next: RxState, byteStb: bool, data: Octet): seq<RxEvent>
  {
    (if p.state.RPid? && byteStb && PidValid(data) then [Started] else [])
    + (if p.state.RData? && byteStb then [ByteIn(data)] else [])
    + (if next.RIdle? && !p.state.RIdle? && !p.state.RError? then [DoneOk] else [])
    + (if next.RError? && !p.state.RError? then [DoneErr] else [])
  }

  /** One symbol. */
  function RxpStep(p: RxPkt, l: Rx): (q: RxPkt)
  {
    var strobe := !l.skip;
    var byteStb := strobe && p.cnt >= 8;
    var data := if strobe then p.data[1..] + [l.bit] else p.data;
    var fed := if !strobe then p.fed else if p.first then [l.bit] else p.fed + [l.bit];
    var idle := p.state.RIdle?;
    var next := RxNext(p, l, byteStb, data);
    RxPkt(
      next,
      if idle then 6 else if strobe then (p.cnt % 8 + 15) % 16 else p.cnt,
      data,
      if idle then false else if strobe then p.cnt % 8 / 2 == 2 else p.eopOk,
      if p.state.RPid? || next.RPid? then true else if strobe then false else p.first,
      fed,
      if idle then false else if byteStb then p.match5(fed) else p.crc5Ok,
      if idle then false else if byteStb then p.match16(fed) else p.crc16Ok,
      if p.state.RPid? && byteStb then PidOf(data) else p.pid,
      p.log + RxSignals(p, next, byteStb, data),
      p.match5, p.match16)
  }

  function Fold<S, X>(f: (S, X) -> S, s: S, xs: seq<X>): S
    decreases |xs|
  {
    if xs == [] then s else Fold(f, f(s, xs[0]), xs[1..])
  }

  lemma {:induction false} FoldCat<S, X>(f: (S, X) -> S, s: S, a: seq<X>, b: seq<X>)
    ensures Fold(f, s, a + b) == Fold(f, Fold(f, s, a), b)
    decreases |a|
  {
    if a == [] {
      assert a + b == b;
    } else {
      FoldCat(f, f(s, a[0]), a[1..], b);
      assert (a + b)[1..] == a[1..] + b;
    }
  }

  lemma FoldSnoc<S, X>(f: (S, X) -> S, s: S, a: seq<X>, x: X)
    ensures Fold(f, s, a + [x]) == f(Fold(f, s, a), x)
  {
    FoldCat(f, s, a, [x]);
    assert Fold(f, Fold(f, s, a), [x]) == Fold(f, f(Fold(f, s, a), x), []);
  }

  /** Line and packet receiver together, at one symbol and over some. */
  function Take(q: (Rx, RxPkt), s: Sym): (Rx, RxPkt) {
    var r1 := RxStep(q.0, s);
    (r1, RxpStep(q.1, r1))
  }

  function Receive(r: Rx, p: RxPkt, wire: seq<Sym>): (Rx, RxPkt) {
    Fold(Take, (r, p), wire)
  }

  /** One bit inside a packet, with nothing else happening. */
  function BitStep(p: RxPkt, bit: bool): (q: RxPkt)
  {
    RxpStep(p, Rx(J, bit, 0, false, false, 0, false, 0, false))
  }

  function BitsRun(p: RxPkt, bits: seq<bool>): RxPkt {
    Fold(BitStep, p, bits)
  }

  /** Inside a packet, a stuffed bit is passed over; without error or end of packet a symbol is its bit. */
  lemma SymbolIsBit(p: RxPkt, l: Rx)
    requires !p.state.RIdle? && !l.err && !l.eop
    requires p.state.RPid? ==> p.first
    ensures l.skip ==> RxpStep(p, l) == p
    ensures !l.skip ==> RxpStep(p, l) == BitStep(p, l.bit)
    ensures !BitStep(p, l.bit).state.RIdle? && (BitStep(p, l.bit).state.RPid? ==> BitStep(p, l.bit).first)
  {
  }

  /** The packet receiver sees the bits that the line receiver decodes. */
  lemma {:induction false} Follows(r: Rx, p: RxPkt, wire: seq<Sym>)
    requires !p.state.RIdle? && (p.state.RPid? ==> p.first) && Clean(r, wire)
    ensures Receive(r, p, wire) == (RxRun(r, wire), BitsRun(p, LineCode.Decode(r, wire)))
    ensures var q := BitsRun(p, LineCode.Decode(r, wire)); !q.state.RIdle? && (q.state.RPid? ==> q.first)
    decreases |wire|
  {
    if wire != [] {
      var r1 := RxStep(r, wire[0]);
      SymbolIsBit(p, r1);
      Follows(r1, RxpStep(p, r1), wire[1..]);
      if !r1.skip {
        assert ([r1.bit] + LineCode.Decode(r1, wire[1..]))[1..] == LineCode.Decode(r1, wire[1..]);
      } else {
        assert [] + LineCode.Decode(r1, wire[1..]) == LineCode.Decode(r1, wire[1..]);
      }
    }
  }

  lemma BitsRunCat(p: RxPkt, a: seq<bool>, b: seq<bool>)
    ensures BitsRun(p, a + b) == BitsRun(BitsRun(p, a), b)
  {
    FoldCat(BitStep, p, a, b);
  }

  lemma BitsRunSnoc(p: RxPkt, a: seq<bool>, bit: bool)
    ensures BitsRun(p, a + [bit]) == BitStep(BitsRun(p, a), bit)
  {
    FoldSnoc(BitStep, p, a, bit);
  }

  /** What the CRC cores have been fed after some bits. */
  function Fed(p: RxPkt, bits: seq<bool>): seq<bool> {
    if bits == [] then p.fed
    else if p.state.RPid? then [bits[|bits| - 1]]
    else if p.first then bits else p.fed + bits
  }

  predicate InByte(s: RxState) {
    s.RPid? || s.RData? || s.RToken1? || s.RToken2? || s.RWaitEop?
  }

  /** Where a whole byte leads. */
  function AfterByte(s: RxState, o: Octet): RxState {
    match s
    case RPid => AfterPid(o)
    case RToken1 => RToken2
    case RToken2 => RWaitEop
    case RWaitEop => RError
    case _ => s
  }

  lemma MidBit(p: RxPkt, bit: bool) returns (q: RxPkt)
    requires p.cnt < 8 && InByte(p.state) && (p.state.RPid? ==> p.first)
    ensures q == BitStep(p, bit)
    ensures q == p.(cnt := (p.cnt + 15) % 16, data := p.data[1..] + [bit], eopOk := p.cnt / 2 == 2,
      first := p.state.RPid?,
                    fed := if p.first then [bit] else p.fed + [bit])
  {
    q := BitStep(p, bit);
    assert p.log + [] == p.log;
  }

  /** The registers after some bits of a byte. */
  ghost predicate Partly(p: RxPkt, bits: seq<bool>, q: RxPkt) {
    && q == p.(cnt := q.cnt, data := q.data, eopOk := q.eopOk, first := q.first, fed := q.fed)
    && |bits| <= 7 && q.cnt == (if |bits| == 7 then 15 else 6 - |bits|) && q.data == p.data[|bits|..] + bits
    && q.fed == Fed(p, bits) && q.first == (if bits == [] then p.first else p.state.RPid?)
    && (bits != [] ==> (q.eopOk <==> |bits| == 2 || |bits| == 3))
  }

  /** Up to seven bits of a byte only shift. */
  lemma {:induction false} Shifted(p: RxPkt, bits: seq<bool>)
    requires p.cnt == 6 && InByte(p.state) && |bits| <= 7 && (p.state.RPid? ==> p.first)
    ensures Partly(p, bits, BitsRun(p, bits))
    decreases |bits|
  {
    if bits == [] {
      NoneYet(p);
    } else {
      var a, bit := SplitLast(bits);
      Shifted(p, a);
      ShiftedMore(p, a, bit);
    }
  }

  lemma SplitLast(bits: seq<bool>) returns (a: seq<bool>, bit: bool)
    requires bits != []
    ensures bits == a + [bit] && |a| == |bits| - 1
  {
    a, bit := bits[..|bits| - 1], bits[|bits| - 1];
  }

  lemma ShiftedMore(p: RxPkt, a: seq<bool>, bit: bool)
    requires InByte(p.state) && (p.state.RPid? ==> p.first) && |a| < 7 && Partly(p, a, BitsRun(p, a))
    ensures Partly(p, a + [bit], BitsRun(p, a + [bit]))
  {
    var m := BitsRun(p, a);
    BitsRunSnoc(p, a, bit);
    OneMore(p, a, m, bit, a + [bit]);
  }

  lemma NoneYet(p: RxPkt)
    requires p.cnt == 6
    ensures Partly(p, [], BitsRun(p, []))
  {
    assert p.data[0..] + [] == p.data;
  }

  lemma OneMore(p: RxPkt, a: seq<bool>, m: RxPkt, bit: bool, bits: seq<bool>)
    requires InByte(p.state) && (p.state.RPid? ==> p.first) && |a| < 7 && Partly(p, a, m) && bits == a + [bit]
    ensures Partly(p, bits, BitStep(m, bit))
  {
    var q := MidBit(m, bit);
    assert (p.data[|a|..] + a)[1..] + [bit] == p.data[|bits|..] + bits;
    FedSnoc(p, a, bit, bits);
  }

  lemma FedSnoc(p: RxPkt, a: seq<bool>, bit: bool, bits: seq<bool>)
    requires bits == a + [bit]
    ensures Fed(p, bits) == if p.state.RPid? || (a == [] && p.first) then [bit] else Fed(p, a) + [bit]
  {
    assert a == [] ==> bits == [bit];
    assert p.fed + a + [bit] == p.fed + bits;
  }

  lemma LastBit(p: RxPkt, bit: bool, o: Octet) returns (q: RxPkt)
    requires p.cnt == 15 && InByte(p.state) && (p.state.RPid? ==> p.first) && o == p.data[1..] + [bit]
    ensures q == BitStep(p, bit)
    ensures q.data == o && q.cnt == 6 && q.first == p.state.RPid? && q.fed == (if p.first then [bit] else p.fed + [bit])
    ensures q.crc5Ok == p.match5(q.fed) && q.crc16Ok == p.match16(q.fed) && q.match5 == p.match5
      && q.match16 == p.match16
    ensures q.state == AfterByte(p.state, o)
    ensures q.pid == if p.state.RPid? then PidOf(o) else p.pid
    ensures p.state.RPid? ==> q.log == p.log + [if PidValid(o) then Started else DoneErr]
    ensures p.state.RData? ==> q.log == p.log + [ByteIn(o)]
    ensures p.state.RToken1? || p.state.RToken2? ==> q.log == p.log
    ensures p.state.RWaitEop? ==> q.log == p.log + [DoneErr]
    ensures !q.eopOk
  {
    q := BitStep(p, bit);
    assert p.log + [] == p.log;
  }

  /** The eighth bit makes the byte. */
  lemma ByteReceived(p: RxPkt, o: Octet) returns (q: RxPkt)
    requires p.cnt == 6 && InByte(p.state) && (p.state.RPid? ==> p.first)
    ensures q == BitsRun(p, o) && q.data == o && q.cnt == 6 && q.fed == Fed(p, o) && q.first == p.state.RPid?
    ensures q.crc5Ok == p.match5(q.fed) && q.crc16Ok == p.match16(q.fed) && q.match5 == p.match5
      && q.match16 == p.match16
    ensures q.state == AfterByte(p.state, o)
    ensures q.pid == if p.state.RPid? then PidOf(o) else p.pid
    ensures p.state.RPid? ==> q.log == p.log + [if PidValid(o) then Started else DoneErr]
    ensures p.state.RData? ==> q.log == p.log + [ByteIn(o)]
    ensures p.state.RToken1? || p.state.RToken2? ==> q.log == p.log
    ensures p.state.RWaitEop? ==> q.log == p.log + [DoneErr]
    ensures !q.eopOk
  {
    var a, bit := SplitLast(o);
    Shifted(p, a);
    BitsRunSnoc(p, a, bit);
    FedSnoc(p, a, bit, o);
    SevenIn(p, a, bit, BitsRun(p, a), o);
    q := LastBit(BitsRun(p, a), bit, o);
  }

  /** After seven bits the eighth completes the byte. */
  lemma SevenIn(p: RxPkt, a: seq<bool>, bit: bool, m: RxPkt, o: Octet)
    requires Partly(p, a, m) && |a| == 7 && o == a + [bit]
    ensures m.cnt == 15 && o == m.data[1..] + [bit]
  {
    assert m.data == p.data[7..] + a && p.data[7..] == [p.data[7]];
    assert m.data[1..] == a;
  }

  // ---- Packets, sent and received --------------------------------------------------------------

  function BytesIn(b: seq<Octet>): seq<RxEvent> {
    if b == [] then [] else [ByteIn(b[0])] + BytesIn(b[1..])
  }

  /** What the cores have been fed once more data has come. */
  function MoreFed(p: RxPkt, bits: seq<bool>): seq<bool> {
    if p.first then bits else p.fed + bits
  }

  /** Whole bytes of data are signalled one by one, and the core has seen them all. */
  lemma {:induction false} DataReceived(p: RxPkt, b: seq<Octet>) returns (q: RxPkt)
    requires p.cnt == 6 && p.state.RData? && b != []
    ensures q == BitsRun(p, FlatBits(b)) && q.cnt == 6 && q.state.RData? && q.pid == p.pid && q.match16 == p.match16
    ensures q.log == p.log + BytesIn(b) && q.crc16Ok == p.match16(MoreFed(p, FlatBits(b)))
    decreases |b|
  {
    var m := ByteReceived(p, b[0]);
    BitsRunCat(p, b[0], FlatBits(b[1..]));
    FlatBitsCut(b);
    FedMore(p, m, b[0], FlatBits(b[1..]));
    CatAssoc(p.log, [ByteIn(b[0])], BytesIn(b[1..]));
    if |b| == 1 {
      q := m;
    } else {
      q := DataReceived(m, b[1..]);
    }
  }

  lemma FlatBitsCut(b: seq<Octet>)
    requires b != []
    ensures FlatBits(b) == b[0] + FlatBits(b[1..]) && (|b| == 1 ==> FlatBits(b) == b[0])
    ensures BytesIn(b) == [ByteIn(b[0])] + BytesIn(b[1..]) && (|b| == 1 ==> BytesIn(b) == [ByteIn(b[0])])
  {
    if |b| == 1 {
      assert b[1..] == [] && b[0] + [] == b[0] && [ByteIn(b[0])] + [] == [ByteIn(b[0])];
    }
  }

  lemma CatAssoc<X>(a: seq<X>, b: seq<X>, c: seq<X>)
    ensures a + b + c == a + (b + c)
  {
  }

  lemma FedMore(p: RxPkt, m: RxPkt, o: Octet, rest: seq<bool>)
    requires p.state.RData? && m.fed == Fed(p, o) && !m.first
    ensures m.fed == MoreFed(p, o) && MoreFed(m, rest) == MoreFed(p, o + rest)
  {
    CatAssoc(p.fed, o, rest);
  }

  lemma {:induction false} FlatBitsAppend(a: seq<Octet>, b: seq<Octet>)
    ensures FlatBits(a + b) == FlatBits(a) + FlatBits(b)
    decreases |a|
  {
    if a == [] {
      assert a + b == b;
    } else {
      FlatBitsAppend(a[1..], b);
      assert (a + b)[1..] == a[1..] + b;
    }
  }

  /** The two bytes of the CRC. */
  function CrcBytes(w: Word): seq<Octet> {
    [w[..8], w[8..]]
  }

  lemma CrcBytesFlat(w: Word)
    ensures FlatBits(CrcBytes(w)) == w
  {
    var b := CrcBytes(w);
    assert b[1..] == [w[8..]] && b[1..][1..] == [];
    assert FlatBits(b[1..]) == w[8..] + [];
    assert w[..8] + w[8..] == w;
  }

  /** A receiver right after the synchronisation pattern. */
  predicate Synced(p: RxPkt) {
    p.state.RPid? && p.cnt == 6 && p.first
  }

  lemma PidReceived(p: RxPkt, pid: Nib) returns (q: RxPkt)
    requires Synced(p) && Supported(pid) && !IsToken(pid) && pid != PID_SOF
    ensures q == BitsRun(p, PidBits(pid)) && q.cnt == 6 && q.pid == pid && q.log == p.log + [Started] && q.first
    ensures q.state == (if IsHandshake(pid) then RWaitEop else RData) && q.match16 == p.match16
    ensures q.crc16Ok == p.match16([!pid.b3])
  {
    q := ByteReceived(p, PidBits(pid));
    assert PidOf(PidBits(pid)) == pid;
  }

  /** Everything that is signalled for a packet, but for its end. */
  function Signals(crc: CrcCore, pid: Nib, payload: seq<Octet>): seq<RxEvent> {
    [Started] + if IsHandshake(pid) then [] else BytesIn(payload + CrcBytes(CrcBits(crc, payload)))
  }

  lemma DataBody(p: RxPkt, crc: CrcCore, payload: seq<Octet>) returns (q: RxPkt)
    requires p.state.RData? && p.cnt == 6 && p.first && p.match16(FlatBits(payload) + CrcBits(crc, payload))
    ensures q == BitsRun(p, FlatBits(payload) + CrcBits(crc, payload)) && q.cnt == 6 && q.pid == p.pid
    ensures q.state.RData? && q.crc16Ok && q.log == p.log + BytesIn(payload + CrcBytes(CrcBits(crc, payload)))
  {
    var w := CrcBits(crc, payload);
    FlatBitsAppend(payload, CrcBytes(w));
    CrcBytesFlat(w);
    q := DataReceived(p, payload + CrcBytes(w));
  }

  /** The whole body has come, and is in order. */
  lemma BodyReceived(p: RxPkt, crc: CrcCore, pid: Nib, payload: seq<Octet>) returns (q: RxPkt)
    requires Synced(p) && (IsHandshake(pid) || IsData(pid)) && p.match16(FlatBits(payload) + CrcBits(crc, payload))
    ensures q == BitsRun(p, Body(crc, pid, payload)) && q.cnt == 6 && q.pid == pid
    ensures q.state == (if IsHandshake(pid) then RWaitEop else RData) && (IsData(pid) ==> q.crc16Ok)
    ensures q.log == p.log + Signals(crc, pid, payload)
  {
    var m := PidReceived(p, pid);
    if IsHandshake(pid) {
      q := m;
      assert PidBits(pid) + [] == PidBits(pid);
      assert Signals(crc, pid, payload) == [Started];
    } else {
      var bits := FlatBits(payload) + CrcBits(crc, payload);
      BitsRunCat(p, PidBits(pid), bits);
      q := DataBody(m, crc, payload);
      SignalsOf(p.log, crc, pid, payload);
    }
  }

  lemma SignalsOf(log: seq<RxEvent>, crc: CrcCore, pid: Nib, payload: seq<Octet>)
    requires !IsHandshake(pid)
    ensures log + [Started] + BytesIn(payload + CrcBytes(CrcBits(crc, payload))) == log + Signals(crc, pid, payload)
  {
  }

  /** A packet may end here: a handshake after its identifier, a token after two bytes, data after any
      whole byte. */
  predicate Whole(p: RxPkt) {
    p.cnt == 6 && (p.state.RWaitEop? || p.state.RData?)
  }

  /** And if it has a CRC, that is right. */
  predicate Right(p: RxPkt) {
    if p.state.RData? then p.crc16Ok else p.crc5Ok || IsHandshake(p.pid)
  }

  /** What its end makes of it. */
  predicate Closed(p: RxPkt, q: RxPkt) {
    && q.pid == p.pid
    && (if Right(p) then q.state.RIdle? && q.log == p.log + [DoneOk] else q.state.RError? && q.log == p.log + [DoneErr])
  }

  /** In a byte's place come two or three zeroes and the end of packet: the CRC decides. */
  lemma EndStep(p: RxPkt, l: Rx, m: RxPkt, bits: seq<bool>) returns (q: RxPkt)
    requires Whole(p) && (|bits| == 2 || |bits| == 3) && Partly(p, bits, m) && l.eop
    ensures q == RxpStep(m, l) && Closed(p, q)
  {
    q := RxpStep(m, l);
  }

  /** The end of packet, where it belongs, ends the packet well if its CRC is right. */
  lemma EndReceived(r: Rx, level: Sym, ones: nat, p: RxPkt, e: seq<Sym>) returns (n: nat, q: RxPkt)
    requires InStep(r, level, ones) && ones < 6 && IsEop(e) && Whole(p)
    ensures n < |e| && e[n].J? && (forall k :: 0 <= k < n ==> e[k].SE0?)
    ensures q == Receive(r, p, e[..n + 1]).1 && Closed(p, q) && AtEop(Receive(r, p, e[..n + 1]).0)
  {
    n := EopSeen(r, level, ones, e);
    var z := e[..n];
    EopBits(r, level, ones, n, z);
    Follows(r, p, z);
    var bits := LineCode.Decode(r, z);
    Shifted(p, bits);
    ReceiveSnoc(r, p, z, J);
    LineCode.RunSnoc(r, z, J);
    assert z + [J] == e[..n + 1];
    q := EndStep(p, RxStep(RxRun(r, z), J), BitsRun(p, bits), bits);
  }

  lemma DecodeCons(r: Rx, s: Sym, rest: seq<Sym>)
    ensures RxRun(r, [s] + rest) == RxRun(RxStep(r, s), rest)
    ensures LineCode.Decode(r, [s] + rest)
      == (if RxStep(r, s).skip then [] else [RxStep(r, s).bit]) + LineCode.Decode(RxStep(r, s), rest)
  {
    assert ([s] + rest)[1..] == rest;
  }

  lemma EopBits(r: Rx, level: Sym, ones: nat, n: nat, z: seq<Sym>)
    requires InStep(r, level, ones) && ones < 6 && (n == 2 || n == 3) && |z| == n
    requires forall k :: 0 <= k < n ==> z[k].SE0?
    ensures |LineCode.Decode(r, z)| == n && !RxStep(RxRun(r, z), J).skip
    ensures forall k :: 0 <= k < n ==> !LineCode.Decode(r, z)[k]
  {
    var r1 := RxStep(r, SE0);
    var r2 := RxStep(r1, SE0);
    if n == 2 {
      assert z == [SE0] + ([SE0] + []);
    } else {
      assert z == [SE0] + ([SE0] + ([SE0] + []));
      DecodeCons(r2, SE0, []);
    }
    DecodeCons(r1, SE0, z[2..]);
    DecodeCons(r, SE0, [SE0] + z[2..]);
    assert z[2..] == if n == 2 then [] else [SE0] + [];
    assert z == [SE0] + ([SE0] + z[2..]);
  }

  lemma ReceiveSnoc(r: Rx, p: RxPkt, wire: seq<Sym>, s: Sym)
    ensures var q := Receive(r, p, wire);
            var r1 := RxStep(q.0, s);
            Receive(r, p, wire + [s]) == (r1, RxpStep(q.1, r1))
  {
    FoldSnoc(Take, (r, p), wire, s);
  }

  /** Nothing has happened. */
  ghost predicate Waiting(p: RxPkt, q: RxPkt) {
    q.state.RIdle? && q.log == p.log && q.match16 == p.match16 && q.match5 == p.match5
  }

  lemma IdleStep(p: RxPkt, l: Rx)
    requires p.state.RIdle?
    ensures var q := RxpStep(p, l);
            q.log == p.log && q.match16 == p.match16 && q.match5 == p.match5 && if l.sync then Synced(q)
                else q.state.RIdle?
  {
    assert p.log + [] == p.log;
  }

  lemma WaitsOn(r: Rx, p: RxPkt, a: seq<Sym>, s: Sym, q: (Rx, RxPkt))
    requires q == Receive(r, p, a) && q.0 == RxRun(r, a) && Waiting(p, q.1) && !RxRun(r, a + [s]).sync
    ensures Receive(r, p, a + [s]).0 == RxRun(r, a + [s]) && Waiting(p, Receive(r, p, a + [s]).1)
  {
    ReceiveSnoc(r, p, a, s);
    LineCode.RunSnoc(r, a, s);
    IdleStep(q.1, RxStep(q.0, s));
  }

  lemma LastSym(wire: seq<Sym>) returns (a: seq<Sym>, s: Sym)
    requires wire != []
    ensures wire == a + [s] && wire[..|wire|] == wire && forall k :: 1 <= k <= |a| ==> a[..k] == wire[..k]
  {
    a, s := wire[..|wire| - 1], wire[|wire| - 1];
  }

  /** Until a synchronisation pattern is seen, nothing happens. */
  lemma {:induction false} IdleWaits(r: Rx, p: RxPkt, wire: seq<Sym>)
    requires p.state.RIdle? && forall k :: 1 <= k <= |wire| ==> !RxRun(r, wire[..k]).sync
    ensures Receive(r, p, wire).0 == RxRun(r, wire) && Waiting(p, Receive(r, p, wire).1)
    decreases |wire|
  {
    if wire != [] {
      var a, s := LastSym(wire);
      IdleWaits(r, p, a);
      WaitsOn(r, p, a, s, Receive(r, p, a));
    }
  }

  lemma SyncCut() returns (a: seq<Sym>)
    ensures a + [K] == SYNC_WIRE && |a| == 7 && forall k :: 1 <= k <= 7 ==> a[..k] == SYNC_WIRE[..k]
  {
    a := SYNC_WIRE[..7];
  }

  lemma SyncReceived(r: Rx, p: RxPkt) returns (q: RxPkt)
    requires Idle(r) && p.state.RIdle?
    ensures Receive(r, p, SYNC_WIRE) == (RxRun(r, SYNC_WIRE), q) && Synced(q) && q.log == p.log
      && q.match16 == p.match16
  {
    var a := SyncCut();
    SyncSeen(r);
    IdleWaits(r, p, a);
    q := SyncLast(r, p, a, SYNC_WIRE);
  }

  lemma SyncLast(r: Rx, p: RxPkt, a: seq<Sym>, wire: seq<Sym>) returns (q: RxPkt)
    requires Receive(r, p, a).0 == RxRun(r, a) && Waiting(p, Receive(r, p, a).1)
    requires wire == a + [K] && RxRun(r, wire).sync
    ensures Receive(r, p, wire) == (RxRun(r, wire), q) && Synced(q) && q.log == p.log && q.match16 == p.match16
      && q.match5 == p.match5
  {
    ReceiveSnoc(r, p, a, K);
    LineCode.RunSnoc(r, a, K);
    q := Receive(r, p, wire).1;
    IdleStep(Receive(r, p, a).1, RxRun(r, wire));
  }

  lemma ReceiveCat(r: Rx, p: RxPkt, a: seq<Sym>, b: seq<Sym>)
    ensures var q := Receive(r, p, a); Receive(r, p, a + b) == Receive(q.0, q.1, b)
  {
    FoldCat(Take, (r, p), a, b);
  }

  function Core16(m: seq<bool>): Word {
    CrcOf(POLY16, m)
  }

  predicate Match16(m: seq<bool>) {
    Run(POLY16, Ones(16), m) == MATCH16
  }

  lemma CoresRight(m: seq<bool>)
    ensures Match16(m + Core16(m)) && Core16([]) == Zeros(16)
  {
    Residues();
    CrcAccepted(POLY16, m);
  }

  /** The bits that come between synchronisation and end of packet are the body's. */
  lemma BodyOnWire(r: Rx, p: RxPkt, data: seq<Sym>, crc: CrcCore, pid: Nib, payload: seq<Octet>) returns (q: RxPkt)
    requires Synced(p) && Clean(r, data) && LineCode.Decode(r, data) == Body(crc, pid, payload)
    requires (IsHandshake(pid) || IsData(pid)) && p.match16(FlatBits(payload) + CrcBits(crc, payload))
    ensures Receive(r, p, data) == (RxRun(r, data), q) && q.cnt == 6 && q.pid == pid
    ensures (q.state.RWaitEop? && IsHandshake(q.pid)) || (q.state.RData? && q.crc16Ok)
    ensures q.log == p.log + Signals(crc, pid, payload)
  {
    Follows(r, p, data);
    q := BodyReceived(p, crc, pid, payload);
  }

  /** The receiver at the end of its packet. */
  ghost predicate Ended(q: RxPkt, pid: Nib, log: seq<RxEvent>) {
    q.state.RIdle? && q.pid == pid && q.log == log
  }

  lemma WireReceived(r: Rx, p: RxPkt, pid: Nib, payload: seq<Octet>, data: seq<Sym>, e: seq<Sym>) returns (m: nat)
    requires Idle(r) && p.state.RIdle? && p.match16 == Match16 && (IsHandshake(pid) || IsData(pid))
    requires var r1 := RxRun(r, SYNC_WIRE); Clean(r1, data) && LineCode.Decode(r1, data) == Body(Core16, pid, payload)
    requires exists level, ones :: ones < 6 && InStep(RxRun(RxRun(r, SYNC_WIRE), data), level, ones)
    requires IsEop(e)
    ensures m < |e| && e[m].J?
    ensures Ended(Receive(r, p, SYNC_WIRE + data + e[..m + 1]).1, pid, p.log + Signals(Core16, pid, payload) + [DoneOk])
  {
    CoresRight(FlatBits(payload));
    var p1 := SyncReceived(r, p);
    var r1 := RxRun(r, SYNC_WIRE);
    var p2 := BodyOnWire(r1, p1, data, Core16, pid, payload);
    var level, ones :| ones < 6 && InStep(RxRun(r1, data), level, ones);
    var p3;
    m, p3 := EndReceived(RxRun(r1, data), level, ones, p2, e);
    ReceiveCat(r, p, SYNC_WIRE, data);
    ReceiveCat(r, p, SYNC_WIRE + data, e[..m + 1]);
  }

  /** For every handshake or data packet, empty ones included: what the transmitter puts on the wire,
      the receiver takes for that packet. At the first J of the end of packet it has signalled the
      start, the payload's bytes and the two of the CRC in order, and a good end; it reported no
      error on the way, and is idle again. */
  lemma PacketRoundTrip(r: Rx, p: RxPkt, pid: Nib, payload: seq<Octet>, junk: nat -> bool)
      returns (wire: seq<Sym>, n: nat)
    requires Idle(r) && p.state.RIdle? && p.match16 == Match16 && (IsHandshake(pid) || IsData(pid))
    ensures wire == Send(TX_START, TxBits(TxStart(Core16, payload), pid), junk)
    ensures n < |wire| && wire[n].J?
    ensures Ended(Receive(r, p, wire[..n + 1]).1, pid, p.log + Signals(Core16, pid, payload) + [DoneOk])
  {
    CoresRight([]);
    TransmitsBody(Core16, pid, payload);
    var data, e := LineRoundTrip(r, Body(Core16, pid, payload), junk);
    var m := WireReceived(r, p, pid, payload, data, e);
    wire, n := WireCut(data, e, m);
  }

  /** The wire up to the first J of its end of packet. */
  lemma WireCut(data: seq<Sym>, e: seq<Sym>, m: nat) returns (wire: seq<Sym>, n: nat)
    requires m < |e|
    ensures wire == SYNC_WIRE + data + e && n < |wire| && wire[n] == e[m]
    ensures wire[..n + 1] == SYNC_WIRE + data + e[..m + 1]
  {
    wire, n := SYNC_WIRE + data + e, 8 + |data| + m;
  }

  // ---- Any data at all, sent and received ------------------------------------------------------

  /** What the CRC core has been fed since the identifier; with no data, that one's last bit. */
  function Heard(pid: Nib, b: seq<Octet>): seq<bool> {
    if b == [] then [!pid.b3] else FlatBits(b)
  }

  /** The identifier of a data packet, and any whole bytes. */
  lemma DataOnWire(r: Rx, p: RxPkt, data: seq<Sym>, pid: Nib, b: seq<Octet>) returns (q: RxPkt)
    requires Synced(p) && Clean(r, data) && LineCode.Decode(r, data) == PidBits(pid) + FlatBits(b)
    requires IsData(pid)
    ensures Receive(r, p, data) == (RxRun(r, data), q) && Whole(q) && q.state.RData? && q.pid == pid
    ensures q.crc16Ok == p.match16(Heard(pid, b)) && q.log == p.log + [Started] + BytesIn(b)
  {
    Follows(r, p, data);
    var m := PidReceived(p, pid);
    if b == [] {
      assert PidBits(pid) + [] == PidBits(pid);
      q := m;
    } else {
      BitsRunCat(p, PidBits(pid), FlatBits(b));
      q := DataReceived(m, b);
    }
  }

  /** A body on the wire, between synchronisation and end of packet. */
  predicate Carries(r: Rx, data: seq<Sym>, body: seq<bool>) {
    var r1 := RxRun(r, SYNC_WIRE);
    Clean(r1, data) && LineCode.Decode(r1, data) == body
  }

  /** Once a body has come, the end of packet decides. */
  lemma EndsWire(r: Rx, p: RxPkt, p2: RxPkt, data: seq<Sym>, e: seq<Sym>) returns (m: nat)
    requires Receive(r, p, SYNC_WIRE + data) == (RxRun(RxRun(r, SYNC_WIRE), data), p2) && Whole(p2) && IsEop(e)
    requires exists level, ones :: ones < 6 && InStep(RxRun(RxRun(r, SYNC_WIRE), data), level, ones)
    ensures m < |e| && e[m].J? && Closed(p2, Receive(r, p, SYNC_WIRE + data + e[..m + 1]).1)
  {
    var r2 := RxRun(RxRun(r, SYNC_WIRE), data);
    var level, ones :| ones < 6 && InStep(r2, level, ones);
    var p3;
    m, p3 := EndReceived(r2, level, ones, p2, e);
    ReceiveCat(r, p, SYNC_WIRE + data, e[..m + 1]);
  }

  lemma AnyData(r: Rx, p: RxPkt, pid: Nib, b: seq<Octet>, data: seq<Sym>, e: seq<Sym>) returns (m: nat, p2: RxPkt)
    requires Idle(r) && p.state.RIdle? && p.match16 == Match16 && IsData(pid)
    requires Carries(r, data, PidBits(pid) + FlatBits(b)) && IsEop(e)
    requires exists level, ones :: ones < 6 && InStep(RxRun(RxRun(r, SYNC_WIRE), data), level, ones)
    ensures m < |e| && e[m].J? && Closed(p2, Receive(r, p, SYNC_WIRE + data + e[..m + 1]).1)
    ensures p2.state.RData? && p2.crc16Ok == Match16(Heard(pid, b)) && p2.pid == pid
    ensures p2.log == p.log + [Started] + BytesIn(b)
  {
    var p1 := SyncReceived(r, p);
    p2 := DataOnWire(RxRun(r, SYNC_WIRE), p1, data, pid, b);
    ReceiveCat(r, p, SYNC_WIRE, data);
    m := EndsWire(r, p, p2, data, e);
  }

  /** There are two bytes more, and they are the CRC of those before. */
  predicate EndsInCrc(b: seq<Octet>) {
    |b| >= 2 && FlatBits(b[|b| - 2..]) == Core16(FlatBits(b[..|b| - 2]))
  }

  lemma {:induction false} FlatBitsSize(b: seq<Octet>)
    ensures |FlatBits(b)| == 8 * |b|
  {
    if b != [] {
      FlatBitsSize(b[1..]);
    }
  }

  lemma EndsMatch(pid: Nib, b: seq<Octet>)
    ensures Match16(Heard(pid, b)) <==> EndsInCrc(b)
  {
    Residues();
    FlatBitsSize(b);
    if |b| >= 2 {
      var msg, tail := b[..|b| - 2], b[|b| - 2..];
      assert b == msg + tail;
      FlatBitsAppend(msg, tail);
      FlatBitsSize(tail);
      ResidueExact(POLY16, FlatBits(msg), FlatBits(tail));
    } else if |b| == 1 {
      ByteRefused(FlatBits(b));
    } else {
      BitRefused(!pid.b3);
    }
  }

  /** Whatever whole bytes, none included, are stuffed, encoded and sent as a data packet, in its place or
      in place of another: they are signalled in order, and at its end the packet is good if and only if
      it ends in the CRC of what came before. */
  lemma CrcDecides(r: Rx, p: RxPkt, pid: Nib, b: seq<Octet>, junk: nat -> bool) returns (wire: seq<Sym>, n: nat)
    requires Idle(r) && p.state.RIdle? && p.match16 == Match16 && IsData(pid)
    ensures wire == Send(TX_START, SYNC_BITS + (PidBits(pid) + FlatBits(b)), junk)
    ensures n < |wire| && wire[n].J?
    ensures var q := Receive(r, p, wire[..n + 1]).1;
            && q.pid == pid
            && if EndsInCrc(b) then q.state.RIdle? && q.log == p.log + [Started] + BytesIn(b) + [DoneOk]
               else q.state.RError? && q.log == p.log + [Started] + BytesIn(b) + [DoneErr]
  {
    EndsMatch(pid, b);
    var p2;
    wire, n, p2 := DataSent(r, p, pid, b, PidBits(pid) + FlatBits(b), junk);
  }

  lemma DataSent(r: Rx, p: RxPkt, pid: Nib, b: seq<Octet>, bits: seq<bool>, junk: nat -> bool)
    returns (wire: seq<Sym>, n: nat, p2: RxPkt)
    requires Idle(r) && p.state.RIdle? && p.match16 == Match16 && IsData(pid)
    requires bits == PidBits(pid) + FlatBits(b)
    ensures wire == Send(TX_START, SYNC_BITS + bits, junk) && n < |wire| && wire[n].J?
    ensures Closed(p2, Receive(r, p, wire[..n + 1]).1)
    ensures p2.state.RData? && p2.crc16Ok == Match16(Heard(pid, b)) && p2.pid == pid
    ensures p2.log == p.log + [Started] + BytesIn(b)
  {
    var data, e := LineRoundTrip(r, bits, junk);
    var m;
    m, p2 := AnyData(r, p, pid, b, data, e);
    wire, n := WireCut(data, e, m);
  }

  // ---- Tokens ----------------------------------------------------------------------------------

  predicate Match5(m: seq<bool>) {
    Run(POLY5, Ones(5), m) == MATCH5
  }

  predicate HasToken(pid: Nib) {
    IsToken(pid) || pid == PID_SOF
  }

  lemma TokenPid(p: RxPkt, pid: Nib) returns (q: RxPkt)
    requires Synced(p) && HasToken(pid)
    ensures q == BitsRun(p, PidBits(pid)) && q.cnt == 6 && q.pid == pid && q.log == p.log + [Started] && q.first
    ensures q.state.RToken1? && q.match5 == p.match5
  {
    q := ByteReceived(p, PidBits(pid));
    assert PidOf(PidBits(pid)) == pid;
  }

  /** The two bytes of a token: eleven bits of address and endpoint, or of a frame number, and the CRC. */
  lemma TokenBody(p: RxPkt, a: Octet, b: Octet) returns (q: RxPkt)
    requires p.cnt == 6 && p.state.RToken1? && p.first
    ensures q == BitsRun(p, a + b) && Whole(q) && q.state.RWaitEop? && q.pid == p.pid && q.log == p.log
    ensures q.crc5Ok == p.match5(a + b)
  {
    var m := ByteReceived(p, a);
    q := ByteReceived(m, b);
    BitsRunCat(p, a, b);
  }

  lemma TokenOnWire(r: Rx, p: RxPkt, data: seq<Sym>, pid: Nib, a: Octet, b: Octet) returns (q: RxPkt)
    requires Synced(p) && Clean(r, data) && LineCode.Decode(r, data) == PidBits(pid) + (a + b) && HasToken(pid)
    ensures Receive(r, p, data) == (RxRun(r, data), q) && Whole(q) && q.state.RWaitEop? && q.pid == pid
    ensures q.crc5Ok == p.match5(a + b) && q.log == p.log + [Started]
  {
    Follows(r, p, data);
    var m := TokenPid(p, pid);
    BitsRunCat(p, PidBits(pid), a + b);
    q := TokenBody(m, a, b);
  }

  /** The last five of sixteen bits are the CRC of the eleven before. */
  predicate EndsInCrc5(bits: seq<bool>)
    requires |bits| == 16
  {
    bits[11..] == CrcOf(POLY5, bits[..11])
  }

  lemma EndsMatch5(bits: seq<bool>)
    requires |bits| == 16
    ensures Match5(bits) <==> EndsInCrc5(bits)
  {
    Residues();
    assert bits == bits[..11] + bits[11..];
    ResidueExact(POLY5, bits[..11], bits[11..]);
  }

  lemma TokenSent(r: Rx, p: RxPkt, pid: Nib, a: Octet, b: Octet, bits: seq<bool>, junk: nat -> bool)
    returns (wire: seq<Sym>, n: nat, p2: RxPkt)
    requires Idle(r) && p.state.RIdle? && p.match5 == Match5 && HasToken(pid) && bits == PidBits(pid) + (a + b)
    ensures wire == Send(TX_START, SYNC_BITS + bits, junk) && n < |wire| && wire[n].J?
    ensures Closed(p2, Receive(r, p, wire[..n + 1]).1)
    ensures p2.state.RWaitEop? && p2.crc5Ok == Match5(a + b) && p2.pid == pid && p2.log == p.log + [Started]
  {
    var data, e := LineRoundTrip(r, bits, junk);
    var p1 := SyncReceived(r, p);
    p2 := TokenOnWire(RxRun(r, SYNC_WIRE), p1, data, pid, a, b);
    ReceiveCat(r, p, SYNC_WIRE, data);
    var m := EndsWire(r, p, p2, data, e);
    wire, n := WireCut(data, e, m);
  }

  /** Whatever sixteen bits are on the wire as a token or a start of frame: at its end of packet it is
      good if and only if the last five are the CRC of the eleven before. */
  lemma TokenDecides(r: Rx, p: RxPkt, pid: Nib, a: Octet, b: Octet, junk: nat -> bool) returns (wire: seq<Sym>, n: nat)
    requires Idle(r) && p.state.RIdle? && p.match5 == Match5 && HasToken(pid)
    ensures wire == Send(TX_START, SYNC_BITS + (PidBits(pid) + (a + b)), junk)
    ensures n < |wire| && wire[n].J?
    ensures var q := Receive(r, p, wire[..n + 1]).1;
            && q.pid == pid
            && if EndsInCrc5(a + b) then q.state.RIdle? && q.log == p.log + [Started] + [DoneOk]
               else q.state.RError? && q.log == p.log + [Started] + [DoneErr]
  {
    EndsMatch5(a + b);
    var p2;
    wire, n, p2 := TokenSent(r, p, pid, a, b, PidBits(pid) + (a + b), junk);
    assert !IsHandshake(pid);
  }

  /** A token with its CRC of which up to five consecutive bits have been changed, any of them at least, is
      reported as an error. */
  lemma TokenDamageReported(r: Rx, p: RxPkt, pid: Nib, word: seq<bool>, before: nat, err: seq<bool>, after: nat,
      junk: nat -> bool) returns (wire: seq<Sym>, n: nat)
    requires Idle(r) && p.state.RIdle? && p.match5 == Match5 && HasToken(pid) && |word| == 16 && EndsInCrc5(word)
    requires before + |err| + after == 16 && |err| <= 5 && err != Zeros(|err|)
    ensures wire == Send(TX_START, SYNC_BITS + (PidBits(pid) + Xor(word, Zeros(before) + err + Zeros(after))), junk)
    ensures n < |wire| && wire[n].J?
    ensures var q := Receive(r, p, wire[..n + 1]).1; q.state.RError? && q.log == p.log + [Started] + [DoneErr]
  {
    var bits := Xor(word, Zeros(before) + err + Zeros(after));
    Residues();
    EndsMatch5(word);
    BurstDetected(POLY5, word, before, err, after);
    EndsMatch5(bits);
    assert bits == bits[..8] + bits[8..];
    wire, n := TokenDecides(r, p, pid, bits[..8], bits[8..], junk);
  }

  // ---- Damage ----------------------------------------------------------------------------------

  function Octets(bits: seq<bool>): (b: seq<Octet>)
    requires |bits| % 8 == 0
    ensures 8 * |b| == |bits|
  {
    if bits == [] then [] else [bits[..8]] + Octets(bits[8..])
  }

  lemma {:induction false} OctetsFlat(bits: seq<bool>)
    requires |bits| % 8 == 0
    ensures FlatBits(Octets(bits)) == bits
  {
    if bits != [] {
      OctetsFlat(bits[8..]);
      assert Octets(bits)[1..] == Octets(bits[8..]);
      assert bits[..8] + bits[8..] == bits;
    }
  }

  /** The payload and CRC of a packet, with some bits the other way round. */
  function Garbled(payload: seq<Octet>, before: nat, err: seq<bool>, after: nat): seq<bool>
    requires before + |err| + after == |FlatBits(payload)| + 16
  {
    Xor(FlatBits(payload) + CrcBits(Core16, payload), Zeros(before) + err + Zeros(after))
  }

  lemma BurstMismatch(payload: seq<Octet>, before: nat, err: seq<bool>, after: nat, b: seq<Octet>)
    requires before + |err| + after == |FlatBits(payload)| + 16 && |err| <= 16 && err != Zeros(|err|)
    requires FlatBits(b) == Garbled(payload, before, err, after) && |b| >= 2
    ensures !EndsInCrc(b)
  {
    Residues();
    CoresRight(FlatBits(payload));
    BurstDetected(POLY16, FlatBits(payload) + CrcBits(Core16, payload), before, err, after);
    EndsMatch(PID_DATA0, b);
  }

  /** A data packet in which, between transmitter and receiver, at most sixteen consecutive bits of
      payload and CRC have been changed, any of them at least: whatever bytes come of it, at its end of
      packet the receiver reports an error. */
  lemma DamageReported(r: Rx, p: RxPkt, pid: Nib, payload: seq<Octet>, before: nat, err: seq<bool>, after: nat,
      junk: nat -> bool)
    returns (b: seq<Octet>, wire: seq<Sym>, n: nat)
    requires Idle(r) && p.state.RIdle? && p.match16 == Match16 && IsData(pid)
    requires before + |err| + after == |FlatBits(payload)| + 16 && |err| <= 16 && err != Zeros(|err|)
    ensures FlatBits(b) == Garbled(payload, before, err, after)
    ensures wire == Send(TX_START, SYNC_BITS + (PidBits(pid) + Garbled(payload, before, err, after)), junk)
    ensures n < |wire| && wire[n].J?
    ensures var q := Receive(r, p, wire[..n + 1]).1;
            q.state.RError? && q.log == p.log + [Started] + BytesIn(b) + [DoneErr]
  {
    var bits := Garbled(payload, before, err, after);
    FlatBitsSize(payload);
    b := Octets(bits);
    OctetsFlat(bits);
    BurstMismatch(payload, before, err, after, b);
    wire, n := CrcDecides(r, p, pid, b, junk);
  }

  // ---- The registers in place ----------------------------------------------------------------

  class UsbTxPkt {
    var state: TxState
    var shiftData: seq<bool>
    var len: int
    var lastByte: bool
    var dataCrc: bool
    var todo: seq<Octet>
    var fed: seq<bool>
    const crc: CrcCore

    ghost function View(): TxPkt
      reads this
    {
      TxPkt(state, shiftData, len, lastByte, dataCrc, todo, fed, crc)
    }

    method Start(payload: seq<Octet>)
      modifies this
      ensures View() == TxStart(crc, payload)
    {
      state, shiftData, len := TPid, SYNC_BITS, |payload| - 1;
      lastByte, dataCrc := false, false;
      todo, fed := payload, [];
    }

    /** The bit offered has been acknowledged. */
    method Next(pid: Nib)
      requires shiftData != []
      modifies this
      ensures View() == if |old(shiftData)| > 1 then TxShift(old(View())) else TxReload(old(View()), pid)
    {
      if |shiftData| > 1 {
        if dataCrc {
          fed := fed + [shiftData[1]];
        }
        shiftData := shiftData[1..];
      } else {
        LoadByte(pid);
      }
    }

    method LoadByte(pid: Nib)
      modifies this
      ensures View() == TxReload(old(View()), pid)
    {
      var o := Zeros(8);
      if state.TPid? {
        o := PidBits(pid);
      } else if state.TData? {
        if todo != [] {
          o := todo[0];
          todo := todo[1..];
        }
      } else if state.TCrcLsb? && fed != [] {
        o := crc(fed)[..8];
      } else if state.TCrcMsb? && fed != [] {
        o := crc(fed)[8..];
      }
      dataCrc := state.TData?;
      lastByte := state.TCrcMsb? || (state.TPid? && IsHandshake(pid));
      if dataCrc {
        fed := fed + [o[0]];
      }
      Advance(pid);
      shiftData := o;
    }

    /** The state machine and the length counter. */
    method Advance(pid: Nib)
      modifies this`state, this`len
      ensures state == TxNext(old(View()), pid) && len == if old(state).TPid? || old(state).TData? then old(len) - 1
        else old(len)
    {
      var lenLast := len < 0;
      if state.TPid? || state.TData? {
        len := len - 1;
      }
      if state.TPid? && IsHandshake(pid) {
        state := TIdle;
      } else if state.TPid? || state.TData? {
        state := if lenLast then TCrcLsb else TData;
      } else {
        state := if state.TCrcLsb? then TCrcMsb else TIdle;
      }
    }
  }

  lemma StepIs(p: RxPkt, l: Rx, byteStb: bool, data: Octet, q: RxPkt)
    requires byteStb == (!l.skip && p.cnt >= 8) && data == if l.skip then p.data else p.data[1..] + [l.bit]
    requires q.state == RxNext(p, l, byteStb, data) && q.data == data && q.match5 == p.match5 && q.match16 == p.match16
    requires q.cnt == if p.state.RIdle? then 6 else if l.skip then p.cnt else (p.cnt % 8 + 15) % 16
    requires q.eopOk == if p.state.RIdle? then false else if l.skip then p.eopOk else p.cnt % 8 / 2 == 2
    requires q.first == (p.state.RPid? || q.state.RPid? || (l.skip && p.first))
    requires q.fed == if l.skip then p.fed else if p.first then [l.bit] else p.fed + [l.bit]
    requires q.crc5Ok == if p.state.RIdle? then false else if byteStb then p.match5(q.fed) else p.crc5Ok
    requires q.crc16Ok == if p.state.RIdle? then false else if byteStb then p.match16(q.fed) else p.crc16Ok
    requires q.pid == (if p.state.RPid? && byteStb then PidOf(data) else p.pid)
      && q.log == p.log + RxSignals(p, q.state, byteStb, data)
    ensures q == RxpStep(p, l)
  {
  }

  class UsbRxPkt {
    var state: RxState
    var bitCnt: nat
    var data: Octet
    var bitEopOk: bool
    var crcInFirst: bool
    var fed: seq<bool>
    var crc5Ok: bool
    var crc16Ok: bool
    var pid: Nib
    var log: seq<RxEvent>
    const match5: Matcher
    const match16: Matcher

    ghost function View(): RxPkt
      reads this
    {
      RxPkt(state, bitCnt, data, bitEopOk, crcInFirst, fed, crc5Ok, crc16Ok, pid, log, match5, match16)
    }

    /** One symbol, as the line receiver reports it. */
    method Symbol(l: Rx)
      modifies this
      ensures View() == RxpStep(old(View()), l)
    {
      ghost var s := View();
      var byteStb := !l.skip && bitCnt >= 8;
      var dataNxt: Octet := if l.skip then data else data[1..] + [l.bit];
      var next := NextState(l, byteStb, dataNxt);
      var events := Signals(next, byteStb, dataNxt);
      Count(l, byteStb);
      Latch(next, dataNxt, byteStb, l.skip, events);
      StepIs(s, l, byteStb, dataNxt, View());
    }

    /** The identifier, the shift register, the state, and what is signalled. */
    method Latch(next: RxState, dataNxt: Octet, byteStb: bool, skip: bool, events: seq<RxEvent>)
      modifies this`pid, this`crcInFirst, this`data, this`state, this`log
      ensures pid == if old(state).RPid? && byteStb then PidOf(dataNxt) else old(pid)
      ensures data == dataNxt && state == next && log == old(log) + events
      ensures crcInFirst == (old(state).RPid? || next.RPid? || (skip && old(crcInFirst)))
    {
      crcInFirst := state.RPid? || next.RPid? || (skip && crcInFirst);
      if state.RPid? && byteStb {
        pid := PidOf(dataNxt);
      }
      data := dataNxt;
      state := next;
      log := log + events;
    }

    method Signals(next: RxState, byteStb: bool, dataNxt: Octet) returns (events: seq<RxEvent>)
      ensures events == RxSignals(View(), next, byteStb, dataNxt)
    {
      events := (if state.RPid? && byteStb && PidValid(dataNxt) then [Started] else [])
              + (if state.RData? && byteStb then [ByteIn(dataNxt)] else [])
              + (if next.RIdle? && !state.RIdle? && !state.RError? then [DoneOk] else [])
              + (if next.RError? && !state.RError? then [DoneErr] else []);
    }

    /** Bit counter, end-of-packet alignment and CRC results; in IDLE they are held reset. */
    method Count(l: Rx, byteStb: bool)
      requires byteStb == (!l.skip && bitCnt >= 8)
      modifies this`bitCnt, this`bitEopOk, this`fed, this`crc5Ok, this`crc16Ok
      ensures fed == if l.skip then old(fed) else if crcInFirst then [l.bit] else old(fed) + [l.bit]
      ensures bitCnt == if state.RIdle? then 6 else if l.skip then old(bitCnt) else (old(bitCnt) % 8 + 15) % 16
      ensures bitEopOk == if state.RIdle? then false else if l.skip then old(bitEopOk) else old(bitCnt) % 8 / 2 == 2
      ensures crc5Ok == if state.RIdle? then false else if byteStb then match5(fed) else old(crc5Ok)
      ensures crc16Ok == if state.RIdle? then false else if byteStb then match16(fed) else old(crc16Ok)
    {
      if !l.skip {
        fed := if crcInFirst then [l.bit] else fed + [l.bit];
        bitEopOk := bitCnt % 8 / 2 == 2;
        bitCnt := (bitCnt % 8 + 15) % 16;
      }
      if byteStb {
        crc5Ok := match5(fed);
        crc16Ok := match16(fed);
      }
      if state.RIdle? {
        bitCnt := 6;
        bitEopOk := false;
        crc5Ok := false;
        crc16Ok := false;
      }
    }

    method NextState(l: Rx, byteStb: bool, dataNxt: Octet) returns (next: RxState)
      ensures next == RxNext(View(), l, byteStb, dataNxt)
    {
      next := state;
      match state {
        case RIdle =>
          if l.sync { next := RPid; }
        case RPid =>
          if byteStb { next := AfterPid(dataNxt); }
        case RError =>
          if l.eop || (l.err && l.sym.J?) { next := RIdle; }
        case RToken1 =>
          if l.eop { next := RError; } else if byteStb { next := RToken2; }
        case RToken2 =>
          if l.eop { next := RError; } else if byteStb { next := RWaitEop; }
        case RWaitEop =>
          if l.eop { next := if bitEopOk && (crc5Ok || IsHandshake(pid)) then RIdle else RError; }
          else if byteStb { next := RError; }
        case RData =>
          if l.eop { next := if bitEopOk && crc16Ok then RIdle else RError; }
          else if l.err { next := RError; }
      }
    }
  }
}
