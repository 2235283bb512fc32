/** One decision per transaction: what USB 2.0 section 8.4.6 asks for, with the lockout of control
    endpoints added, and the proof that every transaction the protocol runs is that decision. */
module Decision {
  import opened Isa
  import opened Engine
  import opened Microcode
  import opened BlockSteps
  import opened Transactions

  datatype Kind = Absent | Isochronous | Ordinary(halted: bool, control: bool)

  datatype Buffer = NoBuffer | DataBuffer | StallBuffer

  /** What a token finds: the endpoint, whether it is locked out, its descriptor and toggle. */
  datatype Seen = Seen(kind: Kind, locked: bool, buffer: Buffer, dt: bool, len: nat)

  /** What follows on the bus: data after OUT and SETUP, a handshake after IN data. */
  datatype Reception = Nothing | Bad(bytes: nat) | Good(pid: Nib, bytes: nat)

  datatype Response = Silence | DataPacket(dt: bool, len: nat) | Handshake(pid: Nib)

  datatype Outcome = Untouched | Completed | Faulted

  /** The response, what becomes of the descriptor, whether the toggle flips and the lockout sets,
      and the code of the notification, if any. */
  datatype Verdict = Verdict(response: Response, outcome: Outcome, flips: bool, locks: bool, notice: Option<Nib>)

  function Just(response: Response): Verdict {
    Verdict(response, Untouched, false, false, None)
  }

  const STALLED := Verdict(Handshake(PID_STALL), Completed, false, false, Some(NOTIFY_SUCCESS))

  // ---- The decision --------------------------------------------------------------------------

  function DecideIn(s: Seen, rx: Reception): Verdict {
    match s.kind
    case Absent => Just(Silence)
    case Isochronous =>
      if s.buffer.DataBuffer? then Verdict(DataPacket(false, s.len), Completed, false, false, Some(NOTIFY_SUCCESS))
      else Just(DataPacket(false, 0))
    case Ordinary(halted, _) =>
      if halted then Just(Handshake(PID_STALL))
      else if s.locked then Just(Handshake(PID_NAK))
      else match s.buffer
        case NoBuffer => Just(Handshake(PID_NAK))
        case StallBuffer => STALLED
        case DataBuffer =>
          if rx.Good? && rx.pid == PID_ACK
          then Verdict(DataPacket(s.dt, s.len), Completed, true, false, Some(NOTIFY_SUCCESS))
          else Verdict(DataPacket(s.dt, s.len), Untouched, false, false, Some(NOTIFY_TX_FAIL))
  }

  /** A failed reception, with a descriptor to report it in or without. */
  function Fault(reports: bool): Verdict {
    if reports then Verdict(Silence, Faulted, false, false, Some(NOTIFY_RX_FAIL)) else Just(Silence)
  }

  function DecideOut(s: Seen, rx: Reception, reports: bool): Verdict {
    var isData := rx.Good? && IsData(rx.pid);
    match s.kind
    case Absent => Just(Silence)
    case Isochronous =>
      if !s.buffer.DataBuffer? then Just(Silence)
      else if isData then Verdict(Silence, Completed, false, false, Some(NOTIFY_SUCCESS))
      else Fault(reports)
    case Ordinary(halted, _) =>
      if !isData then Fault(reports && !s.buffer.NoBuffer?)
      else if halted then Just(Handshake(PID_STALL))
      else if s.locked then Just(Handshake(PID_NAK))
      else if (rx.pid == PID_DATA1) != s.dt then Just(Handshake(PID_ACK))
      else match s.buffer
        case NoBuffer => Just(Handshake(PID_NAK))
        case StallBuffer => STALLED
        case DataBuffer => Verdict(Handshake(PID_ACK), Completed, true, false, Some(NOTIFY_SUCCESS))
  }

  function DecideSetup(s: Seen, rx: Reception, reports: bool): Verdict {
    if s.kind.Ordinary? && s.kind.control && !s.locked && s.buffer.DataBuffer? then
      if rx.Good? && rx.pid == PID_DATA0
      then Verdict(Handshake(PID_ACK), Completed, true, true, Some(NOTIFY_SUCCESS))
      else Fault(reports)
    else Just(Silence)
  }

  function Decide(pid: Nib, s: Seen, rx: Reception, reports: bool): Verdict {
    if pid == PID_IN then DecideIn(s, rx)
    else if pid == PID_OUT then DecideOut(s, rx, reports)
    else DecideSetup(s, rx, reports)
  }

  // ---- What USB 2.0 asks of a function -----------------------------------------------------------

  /** Section 8.4.6.1: what to answer to an IN token. */
  function InAnswer(halt: bool, canTransmit: bool, dt: bool, len: nat): Response {
    if halt then Handshake(PID_STALL) else if canTransmit then DataPacket(dt, len) else Handshake(PID_NAK)
  }

  /** Section 8.4.6.3: what to answer to the data of an OUT token. */
  function OutAnswer(corrupted: bool, halt: bool, matches: bool, canAccept: bool): Response {
    if corrupted then Silence
    else if halt then Handshake(PID_STALL)
    else if !matches then Handshake(PID_ACK)
    else if canAccept then Handshake(PID_ACK)
    else Handshake(PID_NAK)
  }

  /** Unless it is locked, a bulk, interrupt or control endpoint answers as the standard's tables ask, but
      that a STALL asked for in a descriptor comes after the test for a repeat; packets move, and the toggle
      flips, exactly when the tables let them; a locked one answers NAK. Isochronous data goes without
      toggle and handshake, and a SETUP is acknowledged or not answered. */
  lemma AnswersAsUsb(s: Seen, rx: Reception, reports: bool)
    ensures s.kind.Ordinary? ==>
      var halt, can, data := s.kind.halted, s.buffer.DataBuffer?, rx.Good? && IsData(rx.pid);
      var matches := data && (rx.pid == PID_DATA1) == s.dt;
      var i, o := DecideIn(s, rx), DecideOut(s, rx, reports);
      && i.response == (if !halt && s.locked then Handshake(PID_NAK)
                        else InAnswer(halt || s.buffer.StallBuffer?, can, s.dt, s.len))
      && o.response == (if data && !halt && s.locked then Handshake(PID_NAK)
                        else OutAnswer(!data, halt || (matches && s.buffer.StallBuffer?), matches, can))
      && (i.flips <==> i.response.DataPacket? && rx.Good? && rx.pid == PID_ACK)
      && (o.flips <==> data && !halt && !s.locked && matches && can)
      && (i.response.DataPacket? ==> (i.outcome.Completed? <==> i.flips))
    ensures s.kind.Isochronous? ==>
      && DecideIn(s, rx).response == DataPacket(false, if s.buffer.DataBuffer? then s.len else 0)
      && DecideOut(s, rx, reports).response == Silence
      && !DecideIn(s, rx).flips && !DecideOut(s, rx, reports).flips
    ensures s.kind.Absent? ==> DecideIn(s, rx).response == Silence == DecideOut(s, rx, reports).response
    ensures DecideSetup(s, rx, reports).response
      == (if s.kind.Ordinary? && s.kind.control && !s.locked && s.buffer.DataBuffer? && rx.Good? && rx.pid == PID_DATA0
          then Handshake(PID_ACK) else Silence)
  {
  }

  // ---- What a token sees, and what a verdict leaves -------------------------------------------

  function KindOf(defs: set<string>, t: Tri): Kind {
    if IsIsoc(t) && !NoIsoc(defs) then Isochronous
    else if IsNone(t) then Absent
    else Ordinary(t.t0, IsCtrl(t))
  }

  function BufferOf(s: Tri): Buffer {
    if s == BD_RDY_DATA then DataBuffer else if s == BD_RDY_STALL then StallBuffer else NoBuffer
  }

  function LookAt(defs: set<string>, e: EpStatus, cel: bool, pid: Nib): Seen {
    var bd := e.At(e.Current(pid == PID_SETUP));
    Seen(KindOf(defs, e.epType), cel && IsCtrl(e.epType), BufferOf(bd.state), e.dt && pid != PID_SETUP, bd.len % 1024)
  }

  /** Bulk or interrupt, halted or not. */
  predicate BulkOrInterrupt(e: EpStatus) {
    e.epType.t2 != e.epType.t1 && !e.ctrl
  }

  function Look(defs: set<string>, r: Regs, pid: Nib, endp: nat): Seen {
    LookAt(defs, Fetch(r.ram, EpId(endp, pid == PID_IN)), r.cel, pid)
  }

  /** The endpoint after the verdict: its current descriptor, its toggle, and its index moved on
      if it has two descriptors. */
  function Settled(e: EpStatus, setup: bool, v: Verdict, bytes: nat): EpStatus {
    if v.outcome.Untouched? then e
    else e.With(e.Current(setup), Bd(if v.outcome.Completed? then BD_DONE_OK else BD_DONE_ERR, setup, bytes % 1024))
          .(dt := (e.dt && !setup) != v.flips, idx := e.idx != e.dual)
  }

  function SettledRam(ram: Ram, id: EpId, setup: bool, v: Verdict, bytes: nat): Ram {
    if v.outcome.Untouched? then ram else ram[id := Settled(Fetch(ram, id), setup, v, bytes)]
  }

  function PacketOf(id: EpId, p: Response): seq<Out> {
    match p
    case Silence => []
    case DataPacket(dt, len) => [Sent(id, if dt then PID_DATA1 else PID_DATA0, len)]
    case Handshake(pid) => [Sent(id, pid, 0)]
  }

  /** Data goes out before its notification, a handshake after. */
  function Shows(v: Verdict, id: EpId, setup: bool, bd: bool): seq<Out> {
    var note := if v.notice.Some? then [Notified(v.notice.value, id, setup, bd)] else [];
    if v.response.DataPacket? then PacketOf(id, v.response) + note else note + PacketOf(id, v.response)
  }

  // ---- Transactions on the bus ---------------------------------------------------------------

  /** Between transactions nothing is left that the engine could take for a token. */
  predicate AtIdle(r: Regs) {
    (r.evt.b0 ==> !IsToken(r.pktPid)) && (r.cel ==> r.celEna)
  }

  function InputOf(rx: Reception): Input {
    match rx
    case Nothing => Timeout
    case Bad(bytes) => Broken(bytes)
    case Good(pid, bytes) => Packet(pid, bytes)
  }

  function Length(rx: Reception): nat {
    if rx.Nothing? then 0 else rx.bytes
  }

  function Wait(n: nat, rest: Inputs): Inputs {
    if n == 0 then rest else More(Quiet, Wait(n - 1, rest))
  }

  predicate SendsData(pid: Nib, s: Seen) {
    pid == PID_IN && s.buffer.DataBuffer? && (s.kind.Isochronous? || (s.kind.Ordinary? && !s.kind.halted && !s.locked))
  }

  /** The bus around one transaction: a token, then, each after a while, the end of the device's
      data packet if it sends one, and what the host sends next unless the transaction is over. */
  function Script(pid: Nib, endp: nat, s: Seen, rx: Reception, n: nat, m: nat): Inputs {
    var reply := Wait(m, More(InputOf(rx), NoMore));
    More(Token(pid, endp, true),
         if pid != PID_IN then reply
         else if !SendsData(pid, s) then NoMore
         else Wait(n, More(TxDone, if s.kind.Isochronous? then NoMore else reply)))
  }

  function BytesOf(pid: Nib, s: Seen, rx: Reception): nat {
    if pid == PID_IN && (!SendsData(pid, s) || s.kind.Isochronous?) then 0
    else Length(rx)
  }

  predicate Holds(p: Phase, evt: Nib) {
    match p
    case Idle => evt == ZERO
    case InTx => !evt.b2
    case IsocTx => !evt.b2
    case _ => !RxEnded(evt)
  }

  lemma {:induction false} WaitHolds(defs: set<string>, p: Phase, r: Regs, n: nat, rest: Inputs)
    requires Holds(p, r.evt)
    ensures Play(defs, p, r, Wait(n, rest)) == Play(defs, p, r, rest)
  {
    if n > 0 {
      assert Next(defs, p, r) == (p, r);
      WaitHolds(defs, p, r, n - 1, rest);
    }
  }

  // ---- The protocol carries out the decision -------------------------------------------------

  /** The registers after a transaction decided by `v`, as far as anyone outside can tell. */
  predicate Carried(r: Regs, r1: Regs, id: EpId, setup: bool, v: Verdict, bytes: nat) {
    && r1.ram == SettledRam(r.ram, id, setup, v, bytes)
    && r1.cel == (r.cel || (v.locks && r.celEna)) && r1.celEna == r.celEna
    && r1.outs == r.outs + Shows(v, id, setup, Fetch(r.ram, id).Current(setup))
    && AtIdle(r1)
  }

  /** The registers once the token has been taken up. */
  function Latched(r: Regs, pid: Nib, endp: nat): Regs {
    Arrive(r, Token(pid, endp, true)).(evt := ZERO)
  }

  lemma TokenTurn(defs: set<string>, r: Regs, pid: Nib, endp: nat, rest: Inputs)
    requires IsToken(pid)
    ensures var r1 := Latched(r, pid, endp);
            var q := if pid == PID_IN then StartIn(defs, r1) else if pid == PID_OUT then StartOut(defs, r1)
                else StartSetup(r1);
            Play(defs, Idle, r, More(Token(pid, endp, true), rest)) == Play(defs, q.0, q.1, rest)
  {
  }

  /** What the endpoint update writes back is the endpoint settled. */
  lemma WrittenBack(r: Regs, t: Trans, id: EpId, setup: bool, v: Verdict, state: Tri, dtFlip: bool, bytes: nat)
    requires t == LatchTrans(r, if setup then PID_SETUP else if id.isIn then PID_IN else PID_OUT, id.endp)
    requires (setup ==> !id.isIn) && v.flips == dtFlip
    requires v.outcome == (if state == BD_DONE_OK then Completed else Faulted) && state in {BD_DONE_OK, BD_DONE_ERR}
    ensures WriteBack(r.ram, EpTrans(t, Some(state), true, dtFlip), bytes % 1024)
         == SettledRam(r.ram, id, setup, v, bytes)
    ensures t.ep == id && t.isSetup == setup && t.idxCur == Fetch(r.ram, id).Current(setup)
  {
  }

  lemma Finished(r: Regs, r1: Regs, id: EpId, setup: bool, v: Verdict, state: Tri, dtFlip: bool, celSet: bool,
      code: Nib, bytes: nat)
    requires r1.t == LatchTrans(r, if setup then PID_SETUP else if id.isIn then PID_IN else PID_OUT, id.endp)
    requires setup ==> !id.isIn
    requires r1.ram == r.ram && r1.cel == r.cel && r1.celEna == r.celEna && (r.cel ==> r.celEna)
    requires v.outcome == (if state == BD_DONE_OK then Completed else Faulted) && state in {BD_DONE_OK, BD_DONE_ERR}
    requires v.flips == dtFlip && v.locks == celSet && r1.x.len == bytes % 1024
    ensures var r2 := Done(r1, state, dtFlip, celSet, code);
            && r2.ram == SettledRam(r.ram, id, setup, v, bytes)
            && r2.cel == (r.cel || (v.locks && r.celEna))
            && r2.outs == r1.outs + [Notified(code, id, setup, Fetch(r.ram, id).Current(setup))]
            && r2.evt == r1.evt && r2.pktPid == r1.pktPid && r2.x == r1.x && r2.celEna == r.celEna
  {
    hide LatchTrans, WriteBack, SettledRam, Fetch, EpStatus.Current;
    WrittenBack(r, r1.t, id, setup, v, state, dtFlip, bytes);
  }

  /** The registers `r1` hold what the token saw in `r`. */
  predicate Opens(defs: set<string>, r: Regs, pid: Nib, endp: nat, r1: Regs, s: Seen) {
    && KindOf(defs, r1.t.epType) == s.kind && Locked(r1.t) == s.locked && BufferOf(r1.t.bdState) == s.buffer
    && r1.t.dt == s.dt && r1.x == Xfer(s.len, false, 0, 0) && r1.t == LatchTrans(r, pid, endp)
    && r1.pktPid == pid && r1.evt == ZERO && r1.outs == r.outs && r1.ram == r.ram && r1.cel == r.cel
       && r1.celEna == r.celEna
  }

  lemma Sees(defs: set<string>, r: Regs, pid: Nib, endp: nat)
    requires IsToken(pid)
    ensures Opens(defs, r, pid, endp, Latched(r, pid, endp), Look(defs, r, pid, endp))
  {
  }

  /** IN transactions that end with the device's answer. */
  lemma InAnswered(defs: set<string>, r: Regs, endp: nat, r1: Regs, s: Seen, rx: Reception)
    requires AtIdle(r) && Opens(defs, r, PID_IN, endp, r1, s) && !SendsData(PID_IN, s)
    ensures StartIn(defs, r1).0 == Idle && Carried(r, StartIn(defs, r1).1, EpId(endp, true), false, DecideIn(s, rx), 0)
  {
    if s.kind.Ordinary? && !s.kind.halted && !s.locked && s.buffer.StallBuffer? {
      InStalled(defs, r, endp, r1, s, rx);
    } else {
      assert DecideIn(s, rx).outcome.Untouched?;
    }
  }

  lemma InStalled(defs: set<string>, r: Regs, endp: nat, r1: Regs, s: Seen, rx: Reception)
    requires AtIdle(r) && Opens(defs, r, PID_IN, endp, r1, s)
    requires s.kind.Ordinary? && !s.kind.halted && !s.locked && s.buffer.StallBuffer?
    ensures StartIn(defs, r1).0 == Idle && Carried(r, StartIn(defs, r1).1, EpId(endp, true), false, DecideIn(s, rx), 0)
  {
    Finished(r, r1, EpId(endp, true), false, STALLED, BD_DONE_OK, false, false, NOTIFY_SUCCESS, 0);
    assert StartIn(defs, r1) == (Idle, StallBd(r1));
  }

  lemma InIsocSent(defs: set<string>, r: Regs, endp: nat, r1: Regs, s: Seen, rx: Reception, n: nat)
    requires AtIdle(r) && Opens(defs, r, PID_IN, endp, r1, s) && SendsData(PID_IN, s) && s.kind.Isochronous?
    ensures var q := StartIn(defs, r1);
            var p := Play(defs, q.0, q.1, Wait(n, More(TxDone, NoMore)));
            p.0 == Idle && Carried(r, p.1, EpId(endp, true), false, DecideIn(s, rx), 0)
  {
    var r2 := Data(r1, PID_DATA0);
    assert StartIn(defs, r1) == (IsocTx, r2);
    WaitHolds(defs, IsocTx, r2, n, More(TxDone, NoMore));
    Finished(r, r2, EpId(endp, true), false, DecideIn(s, rx), BD_DONE_OK, false, false, NOTIFY_SUCCESS, 0);
  }

  lemma InDataSent(defs: set<string>, r: Regs, endp: nat, r1: Regs, s: Seen, rx: Reception, n: nat, m: nat)
    requires AtIdle(r) && (rx.Good? ==> !IsToken(rx.pid))
    requires Opens(defs, r, PID_IN, endp, r1, s) && SendsData(PID_IN, s) && s.kind.Ordinary?
    ensures var q := StartIn(defs, r1);
            var p := Play(defs, q.0, q.1, Wait(n, More(TxDone, Wait(m, More(InputOf(rx), NoMore)))));
            p.0 == Idle && Carried(r, p.1, EpId(endp, true), false, DecideIn(s, rx), Length(rx))
  {
    var r2 := Data(r1, Toggled(PID_DATA0, s.dt));
    assert StartIn(defs, r1) == (InTx, r2);
    var reply := More(InputOf(rx), NoMore);
    WaitHolds(defs, InTx, r2, n, More(TxDone, Wait(m, reply)));
    TxEnds(defs, r2);
    WaitHolds(defs, InAck, r2, m, reply);
    InReplied(defs, r, endp, r1, s, rx, r2);
  }

  lemma TxEnds(defs: set<string>, r: Regs)
    requires r.evt == ZERO
    ensures Next(defs, InTx, Arrive(r, TxDone)) == (InAck, r)
  {
  }

  /** The host's reply to a data packet. */
  lemma InReplied(defs: set<string>, r: Regs, endp: nat, r1: Regs, s: Seen, rx: Reception, r2: Regs)
    requires AtIdle(r) && (rx.Good? ==> !IsToken(rx.pid))
    requires Opens(defs, r, PID_IN, endp, r1, s) && SendsData(PID_IN, s) && s.kind.Ordinary?
    requires r2 == Data(r1, Toggled(PID_DATA0, s.dt))
    ensures var p := Play(defs, InAck, r2, More(InputOf(rx), NoMore));
            p.0 == Idle && Carried(r, p.1, EpId(endp, true), false, DecideIn(s, rx), Length(rx))
  {
    if rx.Good? && rx.pid == PID_ACK {
      InAcked(defs, r, endp, r1, s, rx, r2, Arrive(r2, InputOf(rx)));
    } else {
      InLost(defs, r, endp, r1, s, rx, r2, Arrive(r2, InputOf(rx)));
    }
  }

  lemma InAcked(defs: set<string>, r: Regs, endp: nat, r1: Regs, s: Seen, rx: Reception, r2: Regs, r3: Regs)
    requires AtIdle(r) && Opens(defs, r, PID_IN, endp, r1, s) && SendsData(PID_IN, s) && s.kind.Ordinary?
    requires r2 == Data(r1, Toggled(PID_DATA0, s.dt)) && rx.Good? && rx.pid == PID_ACK && r3 == Arrive(r2, InputOf(rx))
    ensures Next(defs, InAck, r3).0 == Idle
      && Carried(r, Next(defs, InAck, r3).1, EpId(endp, true), false, DecideIn(s, rx), rx.bytes)
  {
    Finished(r, r3, EpId(endp, true), false, DecideIn(s, rx), BD_DONE_OK, true, false, NOTIFY_SUCCESS, rx.bytes);
  }

  lemma InLost(defs: set<string>, r: Regs, endp: nat, r1: Regs, s: Seen, rx: Reception, r2: Regs, r3: Regs)
    requires AtIdle(r) && Opens(defs, r, PID_IN, endp, r1, s) && SendsData(PID_IN, s) && s.kind.Ordinary?
    requires r2 == Data(r1, Toggled(PID_DATA0, s.dt)) && !(rx.Good? && rx.pid == PID_ACK)
      && r3 == Arrive(r2, InputOf(rx))
    requires rx.Good? ==> !IsToken(rx.pid)
    ensures Next(defs, InAck, r3).0 == Idle
      && Carried(r, Next(defs, InAck, r3).1, EpId(endp, true), false, DecideIn(s, rx), 0)
  {
    var v := DecideIn(s, rx);
    assert v == Verdict(DataPacket(s.dt, s.len), Untouched, false, false, Some(NOTIFY_TX_FAIL));
    assert Next(defs, InAck, r3) == (Idle, Note(r3, NOTIFY_TX_FAIL));
    hide DecideIn, Next, KindOf, BufferOf;
  }

  // ---- OUT -----------------------------------------------------------------------------------

  /** The registers `r2` are `r1`, except that nothing is to be stored any more if `zl`. */
  predicate Still(r1: Regs, r2: Regs, zl: bool) {
    r2 == if zl then ZeroLength(r1) else r1
  }

  /** A transaction that leaves the descriptor alone and says nothing. */
  lemma Kept(defs: set<string>, r: Regs, pid: Nib, endp: nat, r1: Regs, s: Seen, zl: bool, r2: Regs, rx: Reception,
      r3: Regs)
    requires AtIdle(r) && Opens(defs, r, pid, endp, r1, s) && Still(r1, r2, zl)
    requires r3 == Arrive(r2, InputOf(rx)) && (rx.Good? ==> !IsToken(rx.pid))
    ensures Carried(r, r3, EpId(endp, false), pid == PID_SETUP, Just(Silence), Length(rx))
  {
  }

  /** A failed reception, reported in builds that do. */
  lemma Reported(defs: set<string>, r: Regs, pid: Nib, endp: nat, r1: Regs, s: Seen, zl: bool, r2: Regs, rx: Reception,
      r3: Regs)
    requires AtIdle(r) && (pid == PID_OUT || pid == PID_SETUP) && Opens(defs, r, pid, endp, r1, s) && Still(r1, r2, zl)
    requires r3 == Arrive(r2, InputOf(rx)) && (rx.Good? ==> !IsToken(rx.pid))
    ensures Carried(r, Failed(defs, r3), EpId(endp, false), pid == PID_SETUP, Fault(!IgnoreErr(defs)), Length(rx))
  {
    Kept(defs, r, pid, endp, r1, s, zl, r2, rx, r3);
    if !IgnoreErr(defs) {
      Finished(r, r3, EpId(endp, false), pid == PID_SETUP, Fault(true), BD_DONE_ERR, false, false, NOTIFY_RX_FAIL,
          Length(rx));
    }
  }

  lemma OutIsoc(defs: set<string>, r: Regs, endp: nat, r1: Regs, s: Seen, rx: Reception, m: nat)
    requires AtIdle(r) && (rx.Good? ==> !IsToken(rx.pid)) && Opens(defs, r, PID_OUT, endp, r1, s) && s.kind.Isochronous?
    ensures var q := StartOut(defs, r1);
            var p := Play(defs, q.0, q.1, Wait(m, More(InputOf(rx), NoMore)));
            p.0 == Idle && Carried(r, p.1, EpId(endp, false), false, DecideOut(s, rx, !IgnoreErr(defs)), Length(rx))
  {
    var zl := !s.buffer.DataBuffer?;
    var r2 := if zl then ZeroLength(r1) else r1;
    assert StartOut(defs, r1) == (if zl then Discard else IsocWait, r2);
    var p := if zl then Discard else IsocWait;
    WaitHolds(defs, p, r2, m, More(InputOf(rx), NoMore));
    IsocReplied(defs, r, endp, r1, s, rx, zl, r2, Arrive(r2, InputOf(rx)));
    hide Carried, DecideOut, StartOut, Next, Arrive, Holds;
  }

  /** What the host sends after an isochronous OUT token. */
  lemma IsocReplied(defs: set<string>, r: Regs, endp: nat, r1: Regs, s: Seen, rx: Reception, zl: bool, r2: Regs,
      r3: Regs)
    requires AtIdle(r) && (rx.Good? ==> !IsToken(rx.pid)) && Opens(defs, r, PID_OUT, endp, r1, s) && s.kind.Isochronous?
    requires zl == !s.buffer.DataBuffer? && Still(r1, r2, zl) && r3 == Arrive(r2, InputOf(rx))
    ensures var q := Next(defs, if zl then Discard else IsocWait, r3);
            q.0 == Idle && Carried(r, q.1, EpId(endp, false), false, DecideOut(s, rx, !IgnoreErr(defs)), Length(rx))
  {
    if !zl && rx.Good? && IsData(rx.pid) {
      IsocTaken(defs, r, endp, r1, s, rx, r3);
    } else {
      Kept(defs, r, PID_OUT, endp, r1, s, zl, r2, rx, r3);
      Reported(defs, r, PID_OUT, endp, r1, s, zl, r2, rx, r3);
      IsocNot(defs, s, rx, zl, r3);
      hide Carried, DecideOut, Next, Failed, Opens, AtIdle;
    }
  }

  lemma IsocNot(defs: set<string>, s: Seen, rx: Reception, zl: bool, r3: Regs)
    requires s.kind.Isochronous? && zl == !s.buffer.DataBuffer? && (zl || !(rx.Good? && IsData(rx.pid)))
    requires RxEnded(r3.evt) && (r3.evt.b0 <==> rx.Good?) && (rx.Good? ==> r3.pktPid == rx.pid)
    ensures Next(defs, if zl then Discard else IsocWait, r3) == (Idle, if zl then r3 else Failed(defs, r3))
    ensures DecideOut(s, rx, !IgnoreErr(defs)) == if zl then Just(Silence) else Fault(!IgnoreErr(defs))
  {
  }

  lemma IsocTaken(defs: set<string>, r: Regs, endp: nat, r1: Regs, s: Seen, rx: Reception, r3: Regs)
    requires AtIdle(r) && Opens(defs, r, PID_OUT, endp, r1, s) && s.kind.Isochronous? && s.buffer.DataBuffer?
    requires rx.Good? && IsData(rx.pid) && r3 == Arrive(r1, InputOf(rx))
    ensures var q := Next(defs, IsocWait, r3);
            q.0 == Idle && Carried(r, q.1, EpId(endp, false), false, DecideOut(s, rx, !IgnoreErr(defs)), rx.bytes)
  {
    var v := Verdict(Silence, Completed, false, false, Some(NOTIFY_SUCCESS));
    assert DecideOut(s, rx, !IgnoreErr(defs)) == v;
    Finished(r, r3, EpId(endp, false), false, v, BD_DONE_OK, false, false, NOTIFY_SUCCESS, rx.bytes);
  }

  lemma SetupCase(defs: set<string>, r: Regs, endp: nat, r1: Regs, s: Seen, rx: Reception, m: nat)
    requires AtIdle(r) && (rx.Good? ==> !IsToken(rx.pid)) && Opens(defs, r, PID_SETUP, endp, r1, s)
    ensures var q := StartSetup(r1);
            var p := Play(defs, q.0, q.1, Wait(m, More(InputOf(rx), NoMore)));
            p.0 == Idle && Carried(r, p.1, EpId(endp, false), true, DecideSetup(s, rx, !IgnoreErr(defs)), Length(rx))
  {
    var q := StartSetup(r1);
    SetupOpens(defs, r, endp, r1, s);
    WaitHolds(defs, q.0, q.1, m, More(InputOf(rx), NoMore));
    SetupReplied(defs, r, endp, r1, s, rx, q.0 == Discard, q.1, Arrive(q.1, InputOf(rx)));
    hide Carried, DecideSetup, StartSetup, Next, Arrive, Holds;
  }

  /** What the host sends after a SETUP token. */
  lemma SetupReplied(defs: set<string>, r: Regs, endp: nat, r1: Regs, s: Seen, rx: Reception, zl: bool, r2: Regs,
      r3: Regs)
    requires AtIdle(r) && (rx.Good? ==> !IsToken(rx.pid)) && Opens(defs, r, PID_SETUP, endp, r1, s)
    requires zl == !(s.kind.Ordinary? && s.kind.control && !s.locked && s.buffer.DataBuffer?)
    requires Still(r1, r2, zl) && (!zl ==> r2 == r1) && r3 == Arrive(r2, InputOf(rx))
    ensures var q := Next(defs, if zl then Discard else SetupWait, r3);
            q.0 == Idle && Carried(r, q.1, EpId(endp, false), true, DecideSetup(s, rx, !IgnoreErr(defs)), Length(rx))
  {
    if !zl && rx.Good? && rx.pid == PID_DATA0 {
      SetupTaken(defs, r, endp, r1, s, rx, r3);
    } else {
      Kept(defs, r, PID_SETUP, endp, r1, s, zl, r2, rx, r3);
      Reported(defs, r, PID_SETUP, endp, r1, s, zl, r2, rx, r3);
      SetupNot(defs, s, rx, zl, r3);
      hide Carried, DecideSetup, Next, Failed, Opens, AtIdle;
    }
  }

  lemma SetupNot(defs: set<string>, s: Seen, rx: Reception, zl: bool, r3: Regs)
    requires zl == !(s.kind.Ordinary? && s.kind.control && !s.locked && s.buffer.DataBuffer?)
    requires zl || !(rx.Good? && rx.pid == PID_DATA0)
    requires RxEnded(r3.evt) && (r3.evt.b0 <==> rx.Good?) && (rx.Good? ==> r3.pktPid == rx.pid)
    ensures Next(defs, if zl then Discard else SetupWait, r3) == (Idle, if zl then r3 else Failed(defs, r3))
    ensures DecideSetup(s, rx, !IgnoreErr(defs)) == if zl then Just(Silence) else Fault(!IgnoreErr(defs))
  {
  }

  lemma SetupOpens(defs: set<string>, r: Regs, endp: nat, r1: Regs, s: Seen)
    requires Opens(defs, r, PID_SETUP, endp, r1, s)
    ensures var takes := s.kind.Ordinary? && s.kind.control && !s.locked && s.buffer.DataBuffer?;
            StartSetup(r1) == if takes then (SetupWait, r1) else (Discard, ZeroLength(r1))
  {
  }

  lemma SetupTaken(defs: set<string>, r: Regs, endp: nat, r1: Regs, s: Seen, rx: Reception, r3: Regs)
    requires AtIdle(r) && Opens(defs, r, PID_SETUP, endp, r1, s) && rx.Good? && rx.pid == PID_DATA0
    requires s.kind.Ordinary? && s.kind.control && !s.locked && s.buffer.DataBuffer?
    requires r3 == Arrive(r1, InputOf(rx))
    ensures Next(defs, SetupWait, r3).0 == Idle
    ensures Carried(r, Next(defs, SetupWait, r3).1, EpId(endp, false), true, DecideSetup(s, rx, !IgnoreErr(defs)),
      rx.bytes)
  {
    Finished(r, r3, EpId(endp, false), true, DecideSetup(s, rx, !IgnoreErr(defs)), BD_DONE_OK, true, true,
        NOTIFY_SUCCESS, rx.bytes);
  }

  lemma OutOpens(defs: set<string>, r: Regs, endp: nat, r1: Regs, s: Seen) returns (zl: bool)
    requires Opens(defs, r, PID_OUT, endp, r1, s) && s.kind.Ordinary?
    ensures zl == (s.kind.halted || s.locked || !s.buffer.DataBuffer?)
    ensures StartOut(defs, r1) == (OutWait, if zl then ZeroLength(r1) else r1)
  {
    zl := s.kind.halted || s.locked || !s.buffer.DataBuffer?;
  }

  lemma OutOrdinary(defs: set<string>, r: Regs, endp: nat, r1: Regs, s: Seen, rx: Reception, m: nat)
    requires AtIdle(r) && (rx.Good? ==> !IsToken(rx.pid)) && Opens(defs, r, PID_OUT, endp, r1, s) && s.kind.Ordinary?
    ensures var q := StartOut(defs, r1);
            var p := Play(defs, q.0, q.1, Wait(m, More(InputOf(rx), NoMore)));
            p.0 == Idle && Carried(r, p.1, EpId(endp, false), false, DecideOut(s, rx, !IgnoreErr(defs)), Length(rx))
  {
    var zl := OutOpens(defs, r, endp, r1, s);
    var r2 := if zl then ZeroLength(r1) else r1;
    WaitHolds(defs, OutWait, r2, m, More(InputOf(rx), NoMore));
    var r3 := Arrive(r2, InputOf(rx));
    if rx.Good? && IsData(rx.pid) {
      Answered(defs, r, endp, r1, s, rx, zl, r2, r3);
      assert Next(defs, OutWait, r3) == (Idle, Answer(r3));
    } else {
      OutFailed(defs, r, endp, r1, s, rx, zl, r2, r3);
    }
  }

  lemma OutFailed(defs: set<string>, r: Regs, endp: nat, r1: Regs, s: Seen, rx: Reception, zl: bool, r2: Regs, r3: Regs)
    requires AtIdle(r) && Opens(defs, r, PID_OUT, endp, r1, s) && s.kind.Ordinary? && Still(r1, r2, zl)
    requires !(rx.Good? && IsData(rx.pid)) && (rx.Good? ==> !IsToken(rx.pid)) && r3 == Arrive(r2, InputOf(rx))
    ensures Next(defs, OutWait, r3).0 == Idle
    ensures Carried(r, Next(defs, OutWait, r3).1, EpId(endp, false), false, DecideOut(s, rx, !IgnoreErr(defs)),
      Length(rx))
  {
    OutNot(defs, s, rx, r3);
    if s.buffer.NoBuffer? {
      Kept(defs, r, PID_OUT, endp, r1, s, zl, r2, rx, r3);
    } else {
      Reported(defs, r, PID_OUT, endp, r1, s, zl, r2, rx, r3);
    }
  }

  lemma OutNot(defs: set<string>, s: Seen, rx: Reception, r3: Regs)
    requires s.kind.Ordinary? && !(rx.Good? && IsData(rx.pid)) && BufferOf(r3.t.bdState) == s.buffer
    requires RxEnded(r3.evt) && (r3.evt.b0 <==> rx.Good?) && (rx.Good? ==> r3.pktPid == rx.pid)
    ensures Next(defs, OutWait, r3) == (Idle, if s.buffer.NoBuffer? then r3 else Failed(defs, r3))
    ensures DecideOut(s, rx, !IgnoreErr(defs)) == if s.buffer.NoBuffer? then Just(Silence) else Fault(!IgnoreErr(defs))
  {
  }

  /** The answer to a packet of data. */
  lemma Answered(defs: set<string>, r: Regs, endp: nat, r1: Regs, s: Seen, rx: Reception, zl: bool, r2: Regs, r3: Regs)
    requires AtIdle(r) && Opens(defs, r, PID_OUT, endp, r1, s) && s.kind.Ordinary? && Still(r1, r2, zl)
    requires rx.Good? && IsData(rx.pid) && r3 == Arrive(r2, InputOf(rx))
    ensures Carried(r, Answer(r3), EpId(endp, false), false, DecideOut(s, rx, !IgnoreErr(defs)), rx.bytes)
  {
    var v := DecideOut(s, rx, !IgnoreErr(defs));
    AnswerOf(r3, s, rx, v, IgnoreErr(defs));
    hide DecideOut, Answer, Carried, Shows, Settled, KindOf;
    if v.outcome.Untouched? {
      Kept(defs, r, PID_OUT, endp, r1, s, zl, r2, rx, r3);
      Shaken(r, r3, EpId(endp, false), v, rx.bytes);
    } else {
      Finished(r, r3, EpId(endp, false), false, v, BD_DONE_OK, v.flips, false, NOTIFY_SUCCESS, rx.bytes);
      ShakenDone(r, r3, EpId(endp, false), v, rx.bytes);
    }
  }

  lemma Shaken(r: Regs, r3: Regs, id: EpId, v: Verdict, bytes: nat)
    requires Carried(r, r3, id, false, Just(Silence), bytes) && v.response.Handshake? && v == Just(v.response)
      && r3.t.ep == id
    ensures Carried(r, Emptied(r3, v.response.pid), id, false, v, bytes)
  {
  }

  lemma ShakenDone(r: Regs, r3: Regs, id: EpId, v: Verdict, bytes: nat)
    requires v.response.Handshake? && v.outcome.Completed? && !v.locks && v.notice == Some(NOTIFY_SUCCESS)
    requires r3.t.ep == id && (r.cel ==> r.celEna) && r3.outs == r.outs && (r3.evt.b0 ==> !IsToken(r3.pktPid))
    requires var r4 := Done(r3, BD_DONE_OK, v.flips, false, NOTIFY_SUCCESS);
             && r4.ram == SettledRam(r.ram, id, false, v, bytes) && r4.cel == r.cel && r4.celEna == r.celEna
             && r4.outs == r3.outs + [Notified(NOTIFY_SUCCESS, id, false, Fetch(r.ram, id).Current(false))]
    ensures Carried(r, Emptied(Done(r3, BD_DONE_OK, v.flips, false, NOTIFY_SUCCESS), v.response.pid), id, false, v,
      bytes)
  {
  }

  lemma AnswerOf(r: Regs, s: Seen, rx: Reception, v: Verdict, ignore: bool)
    requires s.kind == Ordinary(r.t.epType.t0, IsCtrl(r.t.epType)) && s.locked == Locked(r.t)
      && s.buffer == BufferOf(r.t.bdState) && s.dt == r.t.dt
    requires rx.Good? && IsData(rx.pid) && rx.pid == r.pktPid && v == DecideOut(s, rx, !ignore)
    ensures v.response.Handshake? && !v.locks && !v.outcome.Faulted? && !IsToken(v.response.pid)
    ensures v.outcome.Untouched? ==> v == Just(v.response) && Answer(r) == Emptied(r, v.response.pid)
    ensures v.outcome.Completed? ==>
      v.notice == Some(NOTIFY_SUCCESS)
          && Answer(r) == Emptied(Done(r, BD_DONE_OK, v.flips, false, NOTIFY_SUCCESS), v.response.pid)
  {
    assert Expected(r) <==> (rx.pid == PID_DATA1) == s.dt;
  }

  lemma OutAbsent(defs: set<string>, r: Regs, endp: nat, r1: Regs, s: Seen, rx: Reception, m: nat)
    requires AtIdle(r) && (rx.Good? ==> !IsToken(rx.pid)) && Opens(defs, r, PID_OUT, endp, r1, s) && s.kind.Absent?
    ensures var q := StartOut(defs, r1);
            var p := Play(defs, q.0, q.1, Wait(m, More(InputOf(rx), NoMore)));
            p.0 == Idle && Carried(r, p.1, EpId(endp, false), false, DecideOut(s, rx, !IgnoreErr(defs)), Length(rx))
  {
    assert StartOut(defs, r1) == (Idle, r1);
    WaitHolds(defs, Idle, r1, m, More(InputOf(rx), NoMore));
    var r3 := Arrive(r1, InputOf(rx));
    assert Next(defs, Idle, r3) == (Idle, r3.(evt := ZERO));
  }

  // ---- The theorem ---------------------------------------------------------------------------

  /** From IDLE back to IDLE, every transaction does what the one decision says: the packets sent
      and the notifications, the endpoint's descriptor, index and toggle, and the lockout; and
      every other endpoint is left as it was. */
  lemma TransactionDecided(defs: set<string>, r: Regs, pid: Nib, endp: nat, rx: Reception, n: nat, m: nat)
    requires AtIdle(r) && IsToken(pid) && (rx.Good? ==> !IsToken(rx.pid))
    ensures var s := Look(defs, r, pid, endp);
            var p := Play(defs, Idle, r, Script(pid, endp, s, rx, n, m));
            && p.0 == Idle
            && Carried(r, p.1, EpId(endp, pid == PID_IN), pid == PID_SETUP,
                       Decide(pid, s, rx, !IgnoreErr(defs)), BytesOf(pid, s, rx))
  {
    var s, r1 := Look(defs, r, pid, endp), Latched(r, pid, endp);
    Sees(defs, r, pid, endp);
    TokenTurn(defs, r, pid, endp, Script(pid, endp, s, rx, n, m).tail);
    if pid == PID_SETUP {
      SetupCase(defs, r, endp, r1, s, rx, m);
    } else if pid == PID_OUT {
      if s.kind.Isochronous? {
        OutIsoc(defs, r, endp, r1, s, rx, m);
      } else if s.kind.Ordinary? {
        OutOrdinary(defs, r, endp, r1, s, rx, m);
      } else {
        OutAbsent(defs, r, endp, r1, s, rx, m);
      }
    } else if !SendsData(PID_IN, s) {
      InAnswered(defs, r, endp, r1, s, rx);
    } else if s.kind.Isochronous? {
      InIsocSent(defs, r, endp, r1, s, rx, n);
    } else {
      InDataSent(defs, r, endp, r1, s, rx, n, m);
    }
  }

  lemma EndpointCarried(r: Regs, r1: Regs, id: EpId, setup: bool, v: Verdict, bytes: nat)
    requires Carried(r, r1, id, setup, v, bytes)
    ensures Fetch(r1.ram, id) == Settled(Fetch(r.ram, id), setup, v, bytes)
  {
  }

  /** The same for an endpoint taken by itself, one that the lockout does not concern. */
  lemma EndpointDecided(defs: set<string>, r: Regs, pid: Nib, endp: nat, e: EpStatus, rx: Reception, n: nat, m: nat)
      returns (r1: Regs, v: Verdict)
    requires AtIdle(r) && (pid == PID_IN || pid == PID_OUT) && (rx.Good? ==> !IsToken(rx.pid))
    requires e == Fetch(r.ram, EpId(endp, pid == PID_IN)) && !IsCtrl(e.epType)
    ensures Play(defs, Idle, r, Script(pid, endp, LookAt(defs, e, false, pid), rx, n, m)) == (Idle, r1)
    ensures v == Decide(pid, LookAt(defs, e, false, pid), rx, !IgnoreErr(defs))
    ensures AtIdle(r1) && r1.outs == r.outs + Shows(v, EpId(endp, pid == PID_IN), false, e.Current(false))
    ensures Fetch(r1.ram, EpId(endp, pid == PID_IN))
      == Settled(e, false, v, BytesOf(pid, LookAt(defs, e, false, pid), rx))
  {
    TransactionDecided(defs, r, pid, endp, rx, n, m);
    assert Look(defs, r, pid, endp) == LookAt(defs, e, false, pid);
    r1 := Play(defs, Idle, r, Script(pid, endp, Look(defs, r, pid, endp), rx, n, m)).1;
    v := Decide(pid, Look(defs, r, pid, endp), rx, !IgnoreErr(defs));
    EndpointCarried(r, r1, EpId(endp, pid == PID_IN), false, v, BytesOf(pid, Look(defs, r, pid, endp), rx));
  }

  // ---- Transactions with other devices -----------------------------------------------------------

  /** What the engine hears of transactions that are not with it: tokens for other addresses, the packets
      that follow them, whole or damaged, frame markers, silence. */
  predicate Elsewhere(ins: Inputs) {
    ins.More? ==>
      && (match ins.head
          case Token(_, _, ours) => !ours
          case Packet(pid, _) => !IsToken(pid)
          case Broken(_) => true
          case Timeout => true
          case Quiet => true
          case _ => false)
      && Elsewhere(ins.tail)
  }

  /** Between its own transactions the engine ignores all of that: it sends and reports nothing, and leaves
      status memory and lockout alone. */
  lemma {:induction false} ElsewhereIgnored(defs: set<string>, r: Regs, ins: Inputs) returns (r1: Regs)
    requires AtIdle(r) && Elsewhere(ins)
    ensures Play(defs, Idle, r, ins) == (Idle, r1) && AtIdle(r1)
    ensures r1.ram == r.ram && r1.cel == r.cel && r1.celEna == r.celEna && r1.outs == r.outs
    decreases ins
  {
    r1 := r;
    if ins.More? {
      var q := Next(defs, Idle, Arrive(r, ins.head));
      r1 := ElsewhereIgnored(defs, q.1, ins.tail);
    }
  }

  /** A whole transaction with another device is one such: a token of any kind for any endpoint of its, and
      anything that follows but another token. */
  lemma OtherDevice(defs: set<string>, r: Regs, pid: Nib, endp: nat, rx: Reception, m: nat) returns (r1: Regs)
    requires AtIdle(r) && IsToken(pid) && (rx.Good? ==> !IsToken(rx.pid))
    ensures Play(defs, Idle, r, More(Token(pid, endp, false), Wait(m, More(InputOf(rx), NoMore)))) == (Idle, r1)
    ensures AtIdle(r1) && r1.ram == r.ram && r1.cel == r.cel && r1.outs == r.outs
  {
    WaitElsewhere(m, More(InputOf(rx), NoMore));
    r1 := ElsewhereIgnored(defs, r, More(Token(pid, endp, false), Wait(m, More(InputOf(rx), NoMore))));
  }

  lemma {:induction false} WaitElsewhere(m: nat, rest: Inputs)
    requires Elsewhere(rest)
    ensures Elsewhere(Wait(m, rest))
  {
    if m > 0 {
      WaitElsewhere(m - 1, rest);
    }
  }
}
