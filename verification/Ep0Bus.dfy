/** The control endpoint on the bus: the engine of `Ep0`, the registers of the transaction engine, and
    the host, on a bus that loses and damages packets. Every transaction is one of `Ep0`'s happenings,
    or none, because the protocol decides it so; data toggles are those of the registers. */
module Ep0Bus {
  import opened Isa
  import opened Engine
  import opened Bytes
  import opened Microcode
  import opened BlockSteps
  import opened Transactions
  import opened Decision
  import A = Assembler
  import T = EndToEnd
  import E = Ep0

  const OUT0 := EpId(0, false)
  const IN0 := EpId(0, true)
  const CONTROL := Tri(true, true, false)

  /** The IN status word that goes with a SETUP: its toggle is set. */
  const IN_STATUS := EpStatus(CONTROL, false, false, false, true, NO_BD, NO_BD)

  /** The packets of the latest request. */
  function Latest(records: seq<seq<seq<byte>>>): seq<seq<byte>> {
    if records == [] then [] else records[|records| - 1]
  }

  /** The toggle of the packet after these: the first packet after SETUP is a DATA1. */
  function Due(packets: seq<seq<byte>>): bool {
    |packets| % 2 == 0
  }

  /** The host, since the latest SETUP that was accepted: the packets it has received, those it has seen
      acknowledged, the one it is trying to send, and whether a SETUP of its has failed since. */
  datatype Host = Host(got: seq<seq<byte>>, sent: seq<seq<byte>>, trying: Option<seq<byte>>, failed: bool)

  const FRESH := Host([], [], None, false)

  datatype Sys = Sys(e: E.Ep0, r: Regs, h: Host)

  /** Transactions that the device sees the token of, with what it receives then; whether its data
      arrives, or its handshake is heard; what the bus carries for other devices; and the firmware, polled
      or in the middle of a poll. */
  datatype Event =
    | Setup(q: E.Request, rx: Reception)
    | In(arrives: bool, rx: Reception)
    | Out(b: seq<byte>, rx: Reception, heard: bool)
    | Others(ins: Inputs)
    | Turned
    | Polled

  predicate OnBus(ev: Event) { ev.Setup? || ev.In? || ev.Out? }

  function Pid(ev: Event): Nib {
    if ev.Setup? then PID_SETUP else if ev.In? then PID_IN else PID_OUT
  }

  function IdOf(ev: Event): EpId {
    EpId(0, ev.In?)
  }

  // ---- What a transaction means -----------------------------------------------------------------

  function Verdicts(defs: set<string>, y: Sys, ev: Event): Verdict
    requires OnBus(ev)
  {
    Decide(Pid(ev), Look(defs, y.r, Pid(ev), 0), ev.rx, !IgnoreErr(defs))
  }

  /** What the engine's side has of a verdict. */
  function Meaning(v: Verdict, ev: Event): Option<E.Happening>
    requires OnBus(ev)
  {
    if v.outcome.Untouched? then None
    else match ev
      case Setup(q, _) => Some(if v.outcome.Completed? then E.SetupCame(q) else E.SetupFailed)
      case In(_, _) => Some(if v.response.DataPacket? then E.InSent else E.StallSent(true, 0))
      case Out(b, rx, _) =>
        Some(if v.outcome.Faulted? then E.OutFailed
             else if v.response == Handshake(PID_STALL) then E.StallSent(false, Length(rx) % 1024)
             else E.OutCame(b))
  }

  /** What the host has of it: it takes a packet whose toggle is due, and goes on to its next one when it
      hears an ACK. */
  function Hears(h: Host, e: E.Ep0, ev: Event, v: Verdict): Host
    requires OnBus(ev)
  {
    match ev
    case Setup(_, _) =>
      if v.outcome.Completed? then FRESH else if v.outcome.Faulted? then h.(failed := true) else h
    case In(arrives, _) =>
      if arrives && v.response.DataPacket? && v.response.dt == Due(h.got) then h.(got := h.got + [E.Sending(e)]) else h
    case Out(b, _, heard) =>
      if heard && v.response == Handshake(PID_ACK) then h.(sent := h.sent + [b], trying := None)
      else h.(trying := Some(b))
  }

  /** What a host does: it acknowledges only what arrives; it sends data for a request whose SETUP has
      been accepted, with the toggle due, the same packet until it is acknowledged, and no more than it
      has announced; and after a SETUP that failed it sends another before anything else. */
  predicate Fair(y: Sys, ev: Event) {
    match ev
    case Setup(_, rx) => rx.Good? ==> !IsToken(rx.pid)
    case In(arrives, rx) => rx.Good? ==> !IsToken(rx.pid) && (rx.pid == PID_ACK ==> arrives)
    case Out(b, rx, _) =>
      && y.e.asked != [] && !y.h.failed && |b| <= E.PKT
      && (rx.Good? ==> rx == Good(if Due(y.h.sent) then PID_DATA1 else PID_DATA0, |b| + 2))
      && (y.h.trying.Some? ==> b == y.h.trying.value)
      && var q := y.e.asked[|y.e.asked| - 1]; (!q.read ==> |Flat(y.h.sent)| + |b| <= q.wLength)
    case Others(ins) => Elsewhere(ins)
    case _ => true
  }

  // ---- Traffic ---------------------------------------------------------------------------------

  function If(c: bool, i: Input, rest: Inputs): Inputs {
    if c then More(i, rest) else rest
  }

  /** The firmware's writes: the descriptors it has changed, and with a SETUP the IN status word and the
      release of the lockout. */
  function Writes(e: E.Ep0, e1: E.Ep0): Inputs {
    var handles := e.cel && !e1.cel;
    If(handles, Configure(IN0, IN_STATUS),
    If(e1.out != e.out, Post(OUT0, false, e1.out),
    If(e1.inn != e.inn, Post(IN0, false, e1.inn),
    If(handles, Release,
    If(e1.setup != e.setup, Post(OUT0, true, e1.setup), NoMore)))))
  }

  function Driven(ev: Event): E.Happening
    requires ev.Turned? || ev.Polled?
  {
    if ev.Turned? then E.Turned else E.Polled
  }

  /** The happenings of an event: one or none. */
  function Means(defs: set<string>, y: Sys, ev: Event): Option<E.Happening> {
    if OnBus(ev) then Meaning(Verdicts(defs, y, ev), ev) else if ev.Others? then None else Some(Driven(ev))
  }

  function Moved(e: E.Ep0, h: Option<E.Happening>, dispatch: E.Dispatch): E.Ep0
    requires E.Sane(e)
  {
    if h.None? then e else E.Happen(e, h.value, dispatch)
  }

  function Traffic(defs: set<string>, y: Sys, ev: Event, wait: (nat, nat), dispatch: E.Dispatch): Inputs
    requires E.Sane(y.e)
  {
    if OnBus(ev) then Script(Pid(ev), 0, Look(defs, y.r, Pid(ev), 0), ev.rx, wait.0, wait.1)
    else if ev.Others? then ev.ins
    else Writes(y.e, E.Happen(y.e, Driven(ev), dispatch))
  }

  /** The registers are what the protocol makes of the traffic. */
  function Step(defs: set<string>, y: Sys, ev: Event, wait: (nat, nat), dispatch: E.Dispatch): Sys
    requires E.Sane(y.e)
  {
    Sys(Moved(y.e, Means(defs, y, ev), dispatch),
        Play(defs, Idle, y.r, Traffic(defs, y, ev, wait, dispatch)).1,
        if OnBus(ev) then Hears(y.h, y.e, ev, Verdicts(defs, y, ev)) else y.h)
  }

  // ---- What always holds -------------------------------------------------------------------------

  predicate Same(bd: Bd, m: Bd) {
    bd.state == m.state && (m.state == BD_RDY_DATA ==> bd.len == m.len)
  }

  /** EP0's registers: control mode descriptors for OUT and SETUP, one descriptor for IN. */
  predicate Configured(o: EpStatus, i: EpStatus) {
    && o.epType == CONTROL && o.ctrl && !o.dual
    && i.epType == CONTROL && !i.ctrl && !i.dual && !i.idx
  }

  /** The descriptors are those the firmware knows, and the toggles those due. */
  predicate Linked(e: E.Ep0, failed: bool, r: Regs) {
    var o, i := Fetch(r.ram, OUT0), Fetch(r.ram, IN0);
    && AtIdle(r) && r.celEna && r.cel == e.cel && Configured(o, i)
    && Same(o.bd0, e.out) && Same(o.bd1, e.setup) && Same(i.bd0, e.inn)
    && (e.out.state == BD_DONE_OK ==> o.bd0.len == e.out.len)
    && (!failed && e.came != [] ==> o.dt == Due(Latest(e.came)))
    && (!e.cel ==> i.dt == Due(Latest(e.went)))
  }

  /** The host has what was sent, or one packet more, the one whose acknowledgement was lost; and the
      other way about. */
  predicate Agreed(e: E.Ep0, h: Host) {
    && (h.got == Latest(e.went)
        || (!e.cel && e.inn.state == BD_RDY_DATA && h.got == Latest(e.went) + [e.tx]))
    && (h.sent == Latest(e.came) || (h.trying.Some? && Latest(e.came) == h.sent + [h.trying.value]))
    && (!e.cel && e.ctrl.DataOut? ==> Latest(e.went) == [])
  }

  predicate Sound(y: Sys, dispatch: E.Dispatch) {
    E.Inv(y.e, dispatch) && Linked(y.e, y.h.failed, y.r) && Agreed(y.e, y.h)
  }

  // ---- Transactions ------------------------------------------------------------------------------

  /** What the registers are after a transaction, by the protocol's decision. */
  lemma Played(defs: set<string>, y: Sys, ev: Event, wait: (nat, nat), dispatch: E.Dispatch)
      returns (r1: Regs, bytes: nat)
    requires OnBus(ev) && Fair(y, ev) && AtIdle(y.r) && E.Sane(y.e)
    ensures Play(defs, Idle, y.r, Traffic(defs, y, ev, wait, dispatch)) == (Idle, r1)
    ensures Carried(y.r, r1, IdOf(ev), ev.Setup?, Verdicts(defs, y, ev), bytes)
    ensures ev.Out? ==> bytes == Length(ev.rx)
  {
    TransactionDecided(defs, y.r, Pid(ev), 0, ev.rx, wait.0, wait.1);
    r1 := Play(defs, Idle, y.r, Traffic(defs, y, ev, wait, dispatch)).1;
    bytes := BytesOf(Pid(ev), Look(defs, y.r, Pid(ev), 0), ev.rx);
  }

  /** What a SETUP, OUT or IN token finds. */
  lemma Finds(defs: set<string>, y: Sys, pid: Nib, dispatch: E.Dispatch)
    requires Sound(y, dispatch) && IsToken(pid)
    ensures var s := Look(defs, y.r, pid, 0);
            var bd := if pid == PID_SETUP then y.e.setup else if pid == PID_OUT then y.e.out else y.e.inn;
            && s.kind == Ordinary(false, true) && s.locked == y.e.cel && s.buffer == BufferOf(bd.state)
            && s.dt == (Fetch(y.r.ram, EpId(0, pid == PID_IN)).dt && pid != PID_SETUP)
  {
  }

  /** Both of EP0's registers after a transaction. */
  lemma Settles(y: Sys, r1: Regs, ev: Event, v: Verdict, bytes: nat)
    requires OnBus(ev) && Carried(y.r, r1, IdOf(ev), ev.Setup?, v, bytes)
    ensures Fetch(r1.ram, IdOf(ev)) == Settled(Fetch(y.r.ram, IdOf(ev)), ev.Setup?, v, bytes)
    ensures Fetch(r1.ram, EpId(0, !ev.In?)) == Fetch(y.r.ram, EpId(0, !ev.In?))
    ensures r1.cel == (y.r.cel || (v.locks && y.r.celEna)) && r1.celEna == y.r.celEna && AtIdle(r1)
  {
  }

  /** The state after a transaction. */
  predicate Follows(y: Sys, ev: Event, v: Verdict, r1: Regs, bytes: nat, y1: Sys, dispatch: E.Dispatch) {
    && OnBus(ev) && E.Sane(y.e) && (ev.Out? ==> bytes == Length(ev.rx))
    && Carried(y.r, r1, IdOf(ev), ev.Setup?, v, bytes)
    && y1 == Sys(Moved(y.e, Meaning(v, ev), dispatch), r1, Hears(y.h, y.e, ev, v))
  }

  lemma Stepped(defs: set<string>, y: Sys, ev: Event, wait: (nat, nat), dispatch: E.Dispatch)
      returns (y1: Sys, bytes: nat)
    requires OnBus(ev) && Fair(y, ev) && Sound(y, dispatch)
    ensures y1 == Step(defs, y, ev, wait, dispatch)
    ensures Play(defs, Idle, y.r, Traffic(defs, y, ev, wait, dispatch)) == (Idle, y1.r)
    ensures Follows(y, ev, Verdicts(defs, y, ev), y1.r, bytes, y1, dispatch)
  {
    hide Carried, E.Happen, Traffic, Play, Verdicts, Agreed;
    var r1;
    r1, bytes := Played(defs, y, ev, wait, dispatch);
    y1 := Step(defs, y, ev, wait, dispatch);
  }

  // ---- SETUP

  /** A SETUP changes something only if its descriptor is ready and the endpoint not locked. */
  predicate SetupFits(e: E.Ep0, v: Verdict) {
    && (!v.outcome.Untouched? ==> !e.cel && e.setup.state == BD_RDY_DATA)
    && v.locks == v.flips == v.outcome.Completed?
  }

  lemma SetupVerdict(defs: set<string>, y: Sys, ev: Event, dispatch: E.Dispatch)
    requires Sound(y, dispatch) && ev.Setup?
    ensures SetupFits(y.e, Verdicts(defs, y, ev))
  {
    Finds(defs, y, PID_SETUP, dispatch);
  }

  lemma SetupLinked(y: Sys, ev: Event, v: Verdict, bytes: nat, y1: Sys, dispatch: E.Dispatch)
    requires Sound(y, dispatch) && ev.Setup? && SetupFits(y.e, v) && Follows(y, ev, v, y1.r, bytes, y1, dispatch)
    ensures Linked(y1.e, y1.h.failed, y1.r) && Agreed(y1.e, y1.h)
  {
    hide E.Inv, Carried, AtIdle;
    Settles(y, y1.r, ev, v, bytes);
  }

  // ---- IN

  /** A packet goes only if it is ready and the endpoint not locked, with the toggle due, and is done only
      if the host has acknowledged it. */
  predicate InFits(e: E.Ep0, ev: Event, v: Verdict)
    requires ev.In?
  {
    && !v.locks && !v.outcome.Faulted?
    && (v.response.DataPacket? ==>
          && !e.cel && e.inn.state == BD_RDY_DATA && v.response.dt == Due(Latest(e.went))
          && v.flips == v.outcome.Completed? && (v.outcome.Completed? ==> ev.arrives))
    && (!v.response.DataPacket? && v.outcome.Completed? ==> !e.cel && e.inn.state == BD_RDY_STALL && !v.flips)
  }

  lemma InVerdict(defs: set<string>, y: Sys, ev: Event, dispatch: E.Dispatch)
    requires Sound(y, dispatch) && ev.In? && Fair(y, ev)
    ensures InFits(y.e, ev, Verdicts(defs, y, ev))
  {
    Finds(defs, y, PID_IN, dispatch);
  }

  lemma InLinked(y: Sys, ev: Event, v: Verdict, bytes: nat, y1: Sys, dispatch: E.Dispatch)
    requires Sound(y, dispatch) && ev.In? && InFits(y.e, ev, v) && Follows(y, ev, v, y1.r, bytes, y1, dispatch)
    requires y.e.inn.state == BD_RDY_DATA ==> y.e.went != []
    ensures Linked(y1.e, y1.h.failed, y1.r)
  {
    hide E.Inv, Carried, AtIdle;
    Settles(y, y1.r, ev, v, bytes);
  }

  lemma InAgreed(y: Sys, ev: Event, v: Verdict, bytes: nat, y1: Sys, dispatch: E.Dispatch)
    requires Sound(y, dispatch) && ev.In? && InFits(y.e, ev, v) && Follows(y, ev, v, y1.r, bytes, y1, dispatch)
    requires y.e.inn.state == BD_RDY_DATA ==> y.e.went != [] && E.Sending(y.e) == y.e.tx && !y.e.ctrl.DataOut?
    ensures Agreed(y1.e, y1.h)
  {
    hide E.Inv, Carried, AtIdle, Linked;
  }

  // ---- OUT

  /** A packet is taken only if it is asked for, the endpoint not locked, and its toggle the one due; it is
      acknowledged without being taken only if it has come before. */
  predicate OutFits(e: E.Ep0, h: Host, ev: Event, v: Verdict)
    requires ev.Out?
  {
    && !v.locks && !v.response.DataPacket?
    && (v.outcome.Faulted? ==> IsReady(e.out.state) && !v.flips && v.response.Silence?)
    && (v.outcome.Completed? ==> !e.cel && Due(h.sent) == Due(Latest(e.came)))
    && (v.outcome.Completed? && v.response == Handshake(PID_STALL) ==> e.out.state == BD_RDY_STALL && !v.flips)
    && (v.outcome.Completed? && v.response != Handshake(PID_STALL) ==>
          v.response == Handshake(PID_ACK) && e.out.state == BD_RDY_DATA && v.flips && Length(ev.rx) == |ev.b| + 2)
    && (v.response == Handshake(PID_ACK) && v.outcome.Untouched? ==> Due(h.sent) != Due(Latest(e.came)))
  }

  lemma OutVerdict(defs: set<string>, y: Sys, ev: Event, dispatch: E.Dispatch)
    requires Sound(y, dispatch) && ev.Out? && Fair(y, ev)
    ensures OutFits(y.e, y.h, ev, Verdicts(defs, y, ev))
  {
    Finds(defs, y, PID_OUT, dispatch);
  }

  lemma OutLinked(y: Sys, ev: Event, v: Verdict, bytes: nat, y1: Sys, dispatch: E.Dispatch)
    requires Sound(y, dispatch) && ev.Out? && Fair(y, ev) && OutFits(y.e, y.h, ev, v)
    requires Follows(y, ev, v, y1.r, bytes, y1, dispatch)
    ensures Linked(y1.e, y1.h.failed, y1.r)
  {
    hide E.Inv, Carried, AtIdle;
    Settles(y, y1.r, ev, v, bytes);
  }

  lemma OutAgreed(y: Sys, ev: Event, v: Verdict, bytes: nat, y1: Sys, dispatch: E.Dispatch)
    requires Sound(y, dispatch) && ev.Out? && Fair(y, ev) && OutFits(y.e, y.h, ev, v)
    requires Follows(y, ev, v, y1.r, bytes, y1, dispatch) && y.e.came != []
    ensures Agreed(y1.e, y1.h)
  {
    hide E.Inv, Carried, AtIdle, Linked;
    var c := Latest(y.e.came);
    assert c == y.h.sent || (Due(c) != Due(y.h.sent) && c == y.h.sent + [ev.b]);
    if v.outcome.Completed? && v.response == Handshake(PID_ACK) {
      assert Meaning(v, ev) == Some(E.OutCame(ev.b));
      assert Latest(y1.e.came) == y.h.sent + [ev.b];
    } else {
      assert Latest(y1.e.came) == c;
    }
  }

  /** The packet that a write waits for fits what is left of it. */
  lemma WriteFits(y: Sys, ev: Event, dispatch: E.Dispatch)
    requires Sound(y, dispatch) && ev.Out? && Fair(y, ev) && !y.e.cel && y.e.out.state == BD_RDY_DATA
    requires Due(y.h.sent) == Due(Latest(y.e.came)) && y.e.ctrl.DataOut?
    ensures y.e.x.ofs + |ev.b| <= y.e.x.len
  {
    var c := Latest(y.e.came);
    assert c == y.h.sent;
    assert c == E.Come(y.e) == E.Taken(y.e);
    assert E.Hand(y.e) == y.e.asked[|y.e.asked| - 1];
  }

  lemma OutPossible(y: Sys, ev: Event, v: Verdict, dispatch: E.Dispatch)
    requires Sound(y, dispatch) && ev.Out? && Fair(y, ev) && OutFits(y.e, y.h, ev, v)
    ensures var h := Meaning(v, ev); h.Some? ==> E.Possible(y.e, h.value)
    ensures y.e.came != []
  {
    if v.outcome.Completed? && v.response == Handshake(PID_ACK) && y.e.ctrl.DataOut? {
      WriteFits(y, ev, dispatch);
    }
  }

  /** An IN descriptor is filled for a request only, and not while a write takes its data. */
  lemma InReady(e: E.Ep0, dispatch: E.Dispatch)
    requires E.Inv(e, dispatch) && e.inn.state == BD_RDY_DATA
    ensures e.went != [] && E.Sending(e) == e.tx && !e.ctrl.DataOut? && !e.ctrl.Stall?
  {
  }

  predicate Fits(y: Sys, ev: Event, v: Verdict) {
    match ev
    case Setup(_, _) => SetupFits(y.e, v)
    case In(_, _) => InFits(y.e, ev, v)
    case Out(_, _, _) => OutFits(y.e, y.h, ev, v)
    case _ => false
  }

  lemma Decided(defs: set<string>, y: Sys, ev: Event, dispatch: E.Dispatch)
    requires Sound(y, dispatch) && OnBus(ev) && Fair(y, ev)
    ensures Fits(y, ev, Verdicts(defs, y, ev))
  {
    hide Sound, Fair, Verdicts, SetupFits, InFits, OutFits;
    match ev
    case Setup(_, _) => SetupVerdict(defs, y, ev, dispatch);
    case In(_, _) => InVerdict(defs, y, ev, dispatch);
    case Out(_, _, _) => OutVerdict(defs, y, ev, dispatch);
  }

  lemma TransactionPossible(y: Sys, ev: Event, v: Verdict, dispatch: E.Dispatch)
    requires Sound(y, dispatch) && OnBus(ev) && Fair(y, ev) && Fits(y, ev, v)
    ensures var h := Meaning(v, ev); h.Some? ==> E.Possible(y.e, h.value)
    ensures ev.Out? ==> y.e.came != []
  {
    hide Sound, Fair, OutFits;
    match ev
    case Setup(_, _) =>
    case In(_, _) =>
    case Out(_, _, _) => OutPossible(y, ev, v, dispatch);
  }

  lemma TransactionLinked(y: Sys, ev: Event, v: Verdict, bytes: nat, y1: Sys, dispatch: E.Dispatch)
    requires Sound(y, dispatch) && OnBus(ev) && Fair(y, ev) && Fits(y, ev, v)
    requires Follows(y, ev, v, y1.r, bytes, y1, dispatch) && (ev.Out? ==> y.e.came != [])
    ensures Linked(y1.e, y1.h.failed, y1.r) && Agreed(y1.e, y1.h)
  {
    hide Linked, Agreed, Fair, Follows, OutFits, InFits, SetupFits, E.Inv;
    match ev
    case Setup(_, _) => SetupLinked(y, ev, v, bytes, y1, dispatch);
    case In(_, _) =>
      if y.e.inn.state == BD_RDY_DATA {
        InReady(y.e, dispatch);
      }
      InLinked(y, ev, v, bytes, y1, dispatch);
      InAgreed(y, ev, v, bytes, y1, dispatch);
    case Out(_, _, _) =>
      OutLinked(y, ev, v, bytes, y1, dispatch);
      OutAgreed(y, ev, v, bytes, y1, dispatch);
  }

  lemma MovedKeeps(e: E.Ep0, h: Option<E.Happening>, dispatch: E.Dispatch)
    requires E.Inv(e, dispatch) && (h.Some? ==> E.Possible(e, h.value))
    ensures E.Inv(Moved(e, h, dispatch), dispatch)
  {
    if h.Some? {
      E.HappenKeeps(e, h.value, dispatch);
    }
  }

  /** Every transaction is one of the happenings that `Ep0` admits, or none, and leaves registers and
      host in step with the engine. */
  lemma TransactionStep(defs: set<string>, y: Sys, ev: Event, wait: (nat, nat), dispatch: E.Dispatch)
      returns (y1: Sys)
    requires Sound(y, dispatch) && OnBus(ev) && Fair(y, ev)
    ensures var h := Means(defs, y, ev); h.Some? ==> E.Possible(y.e, h.value)
    ensures y1 == Step(defs, y, ev, wait, dispatch)
    ensures Play(defs, Idle, y.r, Traffic(defs, y, ev, wait, dispatch)) == (Idle, y1.r)
    ensures Sound(y1, dispatch)
  {
    hide Linked, Agreed, E.Inv, E.Happen, Hears, Carried, Fits, Meaning, Verdicts, Traffic, Play, Fair, Moved;
    var bytes;
    y1, bytes := Stepped(defs, y, ev, wait, dispatch);
    var v := Verdicts(defs, y, ev);
    var h := Meaning(v, ev);
    Decided(defs, y, ev, dispatch);
    TransactionPossible(y, ev, v, dispatch);
    TransactionLinked(y, ev, v, bytes, y1, dispatch);
    MovedKeeps(y.e, h, dispatch);
  }

  // ---- The firmware ------------------------------------------------------------------------------

  /** What turns of the poll loop leave alone: the records of the bus, the lockout unless they handle the
      SETUP that set it, and, if there was none, a packet that waits to be sent. */
  predicate Drives(e: E.Ep0, e1: E.Ep0) {
    && e1.asked == e.asked && e1.came == e.came && e1.went == e.went && (e1.cel ==> e.cel)
    && (!e.cel && e.inn.state == BD_RDY_DATA ==> e1.inn == e.inn && e1.tx == e.tx)
    && (!e.cel && e1.ctrl.DataOut? ==> e.ctrl.DataOut?)
    && (e1.out.state == BD_DONE_OK ==> e1.out == e.out)
  }

  lemma SetupDrives(e: E.Ep0, dispatch: E.Dispatch)
    requires e.cel
    ensures Drives(e, E.HandleSetup(e, dispatch))
  {
  }

  lemma StatusDrives(e: E.Ep0, dispatch: E.Dispatch)
    requires E.Inv(e, dispatch)
    ensures Drives(e, E.StatusTurn(e))
  {
  }

  lemma TurnDrives(e: E.Ep0, dispatch: E.Dispatch)
    requires E.Inv(e, dispatch)
    ensures Drives(e, E.TurnOnce(e, dispatch).0)
  {
    hide E.HandleSetup, E.StatusTurn, E.Staged, E.Logged;
    if E.StatusActs(e) {
      StatusDrives(e, dispatch);
    } else if e.setup.state == BD_DONE_OK {
      SetupDrives(e, dispatch);
    } else if e.inn.state == BD_RDY_DATA {
      InReady(e, dispatch);
    }
  }

  lemma {:induction false} PollDrives(e: E.Ep0, dispatch: E.Dispatch)
    requires E.Inv(e, dispatch)
    ensures Drives(e, E.Poll(e, dispatch))
    decreases E.Measure(e)
  {
    E.TurnDecreases(e, dispatch);
    E.TurnKeeps(e, dispatch);
    TurnDrives(e, dispatch);
    var (e1, turn) := E.TurnOnce(e, dispatch);
    if turn.Again? {
      PollDrives(e1, dispatch);
    }
  }

  /** A write of the firmware, or none, between transactions. */
  lemma Written(defs: set<string>, r: Regs, c: bool, i: Input, rest: Inputs) returns (r1: Regs)
    requires AtIdle(r) && (i.Post? || i.Configure? || i.Release?)
    ensures Play(defs, Idle, r, If(c, i, rest)) == Play(defs, Idle, r1, rest)
    ensures AtIdle(r1) && r1.celEna == r.celEna
    ensures r1.ram == if c then Arrive(r, i).ram else r.ram
    ensures r1.cel == (r.cel && !(c && i.Release?)) && r1.outs == r.outs
  {
    r1 := if c then Next(defs, Idle, Arrive(r, i)).1 else r;
  }

  /** EP0's registers after the firmware's writes. */
  lemma WritesPlay(defs: set<string>, r: Regs, e: E.Ep0, e1: E.Ep0) returns (r1: Regs)
    requires AtIdle(r)
    ensures Play(defs, Idle, r, Writes(e, e1)) == (Idle, r1)
    ensures AtIdle(r1) && r1.celEna == r.celEna && r1.cel == (r.cel && !(e.cel && !e1.cel)) && r1.outs == r.outs
    ensures var o, i := Fetch(r.ram, OUT0), Fetch(r.ram, IN0);
            && Fetch(r1.ram, OUT0) == o.(bd0 := if e1.out != e.out then e1.out else o.bd0,
                                         bd1 := if e1.setup != e.setup then e1.setup else o.bd1)
            && Fetch(r1.ram, IN0) == (if e.cel && !e1.cel then i.Status(IN_STATUS) else i)
                                       .(bd0 := if e1.inn != e.inn then e1.inn else i.bd0)
  {
    hide Play, Writes, AtIdle, If;
    var handles := e.cel && !e1.cel;
    var i5 := If(e1.setup != e.setup, Post(OUT0, true, e1.setup), NoMore);
    var i4 := If(handles, Release, i5);
    var i3 := If(e1.inn != e.inn, Post(IN0, false, e1.inn), i4);
    var i2 := If(e1.out != e.out, Post(OUT0, false, e1.out), i3);
    var a := Written(defs, r, handles, Configure(IN0, IN_STATUS), i2);
    var b := Written(defs, a, e1.out != e.out, Post(OUT0, false, e1.out), i3);
    var c := Written(defs, b, e1.inn != e.inn, Post(IN0, false, e1.inn), i4);
    var d := Written(defs, c, handles, Release, i5);
    r1 := Written(defs, d, e1.setup != e.setup, Post(OUT0, true, e1.setup), NoMore);
    WritesAre(defs, r, e, e1);
  }

  lemma WritesAre(defs: set<string>, r: Regs, e: E.Ep0, e1: E.Ep0)
    ensures Writes(e, e1)
      == If(e.cel && !e1.cel, Configure(IN0, IN_STATUS),
         If(e1.out != e.out, Post(OUT0, false, e1.out),
         If(e1.inn != e.inn, Post(IN0, false, e1.inn),
         If(e.cel && !e1.cel, Release,
         If(e1.setup != e.setup, Post(OUT0, true, e1.setup), NoMore)))))
    ensures forall s: Regs :: Play(defs, Idle, s, NoMore) == (Idle, s)
  {
  }

  lemma DriverLinked(defs: set<string>, y: Sys, e1: E.Ep0, r1: Regs, dispatch: E.Dispatch)
    requires Sound(y, dispatch) && E.Inv(e1, dispatch) && Drives(y.e, e1)
    requires AtIdle(r1) && r1.celEna == y.r.celEna && r1.cel == (y.r.cel && !(y.e.cel && !e1.cel))
    requires var o, i := Fetch(y.r.ram, OUT0), Fetch(y.r.ram, IN0);
             && Fetch(r1.ram, OUT0) == o.(bd0 := if e1.out != y.e.out then e1.out else o.bd0,
                                          bd1 := if e1.setup != y.e.setup then e1.setup else o.bd1)
             && Fetch(r1.ram, IN0) == (if y.e.cel && !e1.cel then i.Status(IN_STATUS) else i)
                                        .(bd0 := if e1.inn != y.e.inn then e1.inn else i.bd0)
    ensures Linked(e1, y.h.failed, r1) && Agreed(e1, y.h)
  {
    hide E.Sane, E.Staged, E.Logged, AtIdle;
  }

  /** So does the firmware, polled or after a turn of its loop. */
  lemma DriverStep(defs: set<string>, y: Sys, ev: Event, wait: (nat, nat), dispatch: E.Dispatch) returns (y1: Sys)
    requires Sound(y, dispatch) && (ev.Turned? || ev.Polled?)
    ensures y1 == Step(defs, y, ev, wait, dispatch)
    ensures Play(defs, Idle, y.r, Traffic(defs, y, ev, wait, dispatch)) == (Idle, y1.r)
    ensures Sound(y1, dispatch)
  {
    hide Play, Writes, E.Poll, E.TurnOnce, Agreed, Drives;
    var e1 := E.Happen(y.e, Driven(ev), dispatch);
    if ev.Turned? {
      TurnDrives(y.e, dispatch);
    } else {
      PollDrives(y.e, dispatch);
    }
    E.HappenKeeps(y.e, Driven(ev), dispatch);
    var r1 := WritesPlay(defs, y.r, y.e, e1);
    DriverLinked(defs, y, e1, r1, dispatch);
    y1 := Step(defs, y, ev, wait, dispatch);
  }

  /** What the bus carries for other devices changes nothing. */
  lemma OthersStep(defs: set<string>, y: Sys, ev: Event, wait: (nat, nat), dispatch: E.Dispatch) returns (y1: Sys)
    requires Sound(y, dispatch) && ev.Others? && Fair(y, ev)
    ensures y1 == Step(defs, y, ev, wait, dispatch) && y1.e == y.e && y1.h == y.h
    ensures Play(defs, Idle, y.r, Traffic(defs, y, ev, wait, dispatch)) == (Idle, y1.r)
    ensures Sound(y1, dispatch)
  {
    var r1 := ElsewhereIgnored(defs, y.r, ev.ins);
    y1 := Step(defs, y, ev, wait, dispatch);
    hide E.Inv, Play, Same, Configured, Agreed;
    assert Fetch(r1.ram, OUT0) == Fetch(y.r.ram, OUT0) && Fetch(r1.ram, IN0) == Fetch(y.r.ram, IN0);
  }

  // ---- Runs --------------------------------------------------------------------------------------

  lemma StepSound(defs: set<string>, y: Sys, ev: Event, wait: (nat, nat), dispatch: E.Dispatch)
    requires Sound(y, dispatch) && Fair(y, ev)
    ensures var h := Means(defs, y, ev); h.Some? ==> E.Possible(y.e, h.value)
    ensures var y1 := Step(defs, y, ev, wait, dispatch);
            Sound(y1, dispatch) && Play(defs, Idle, y.r, Traffic(defs, y, ev, wait, dispatch)) == (Idle, y1.r)
  {
    hide Sound, Traffic, Play, Step, Fair;
    var y1;
    if OnBus(ev) {
      y1 := TransactionStep(defs, y, ev, wait, dispatch);
    } else if ev.Others? {
      y1 := OthersStep(defs, y, ev, wait, dispatch);
    } else {
      y1 := DriverStep(defs, y, ev, wait, dispatch);
    }
  }

  /** The bus and how long it is silent in each transaction, and the handlers. */
  datatype World = World(defs: set<string>, waits: nat -> (nat, nat), dispatch: E.Dispatch)

  /** The state after the first of the events. */
  function First(w: World, y: Sys, evs: seq<Event>): Sys
    requires Sound(y, w.dispatch) && evs != []
  {
    Step(w.defs, y, evs[0], w.waits(|evs|), w.dispatch)
  }

  /** The host is fair all along. */
  predicate AllFair(w: World, y: Sys, evs: seq<Event>)
    requires Sound(y, w.dispatch)
    decreases |evs|
  {
    evs != [] ==>
      && Fair(y, evs[0])
      && (StepSound(w.defs, y, evs[0], w.waits(|evs|), w.dispatch); AllFair(w, First(w, y, evs), evs[1..]))
  }

  function After(w: World, y: Sys, evs: seq<Event>): Sys
    requires Sound(y, w.dispatch) && AllFair(w, y, evs)
    decreases |evs|
  {
    if evs == [] then y else
      StepSound(w.defs, y, evs[0], w.waits(|evs|), w.dispatch);
      After(w, First(w, y, evs), evs[1..])
  }

  /** All that the engine is given: the bus traffic and the firmware's writes. */
  function AllTraffic(w: World, y: Sys, evs: seq<Event>): Inputs
    requires Sound(y, w.dispatch) && AllFair(w, y, evs)
    decreases |evs|
  {
    if evs == [] then NoMore else
      StepSound(w.defs, y, evs[0], w.waits(|evs|), w.dispatch);
      T.Cat(Traffic(w.defs, y, evs[0], w.waits(|evs|), w.dispatch), AllTraffic(w, First(w, y, evs), evs[1..]))
  }

  function Happenings(w: World, y: Sys, evs: seq<Event>): seq<E.Happening>
    requires Sound(y, w.dispatch) && AllFair(w, y, evs)
    decreases |evs|
  {
    if evs == [] then [] else
      StepSound(w.defs, y, evs[0], w.waits(|evs|), w.dispatch);
      var h := Means(w.defs, y, evs[0]);
      (if h.Some? then [h.value] else []) + Happenings(w, First(w, y, evs), evs[1..])
  }

  lemma SoundSane(y: Sys, dispatch: E.Dispatch)
    requires Sound(y, dispatch)
    ensures E.Sane(y.e)
  {
  }

  lemma Cons(w: World, y: Sys, evs: seq<Event>) returns (y1: Sys, rest: seq<Event>)
    requires Sound(y, w.dispatch) && AllFair(w, y, evs) && evs != []
    ensures y1 == First(w, y, evs) && rest == evs[1..] && Sound(y1, w.dispatch) && AllFair(w, y1, rest)
    ensures After(w, y, evs) == After(w, y1, rest)
    ensures AllTraffic(w, y, evs)
      == T.Cat(Traffic(w.defs, y, evs[0], w.waits(|evs|), w.dispatch), AllTraffic(w, y1, rest))
    ensures Play(w.defs, Idle, y.r, Traffic(w.defs, y, evs[0], w.waits(|evs|), w.dispatch)) == (Idle, y1.r)
    ensures var h := Means(w.defs, y, evs[0]);
            && Happenings(w, y, evs) == (if h.Some? then [h.value] else []) + Happenings(w, y1, rest)
            && y1.e == Moved(y.e, h, w.dispatch) && (h.Some? ==> E.Possible(y.e, h.value))
  {
    hide Sound, Traffic, Play, Fair, Moved, Means;
    StepSound(w.defs, y, evs[0], w.waits(|evs|), w.dispatch);
    y1, rest := First(w, y, evs), evs[1..];
  }

  /** The registers over a whole run are what the protocol makes of the traffic, and hold what the engine
      knows, with the toggles due. */
  lemma {:induction false} RunPlays(w: World, y: Sys, evs: seq<Event>)
    requires Sound(y, w.dispatch) && AllFair(w, y, evs)
    ensures var y1 := After(w, y, evs);
            Sound(y1, w.dispatch) && Play(w.defs, Idle, y.r, AllTraffic(w, y, evs)) == (Idle, y1.r)
    decreases |evs|
  {
    hide Sound, Traffic, Play, Fair, Moved, Means, First;
    if evs != [] {
      var y1, rest := Cons(w, y, evs);
      RunPlays(w, y1, rest);
      SoundSane(y, w.dispatch);
      T.PlayGlue(w.defs, y.r, Traffic(w.defs, y, evs[0], w.waits(|evs|), w.dispatch), y1.r, AllTraffic(w, y1, rest),
        After(w, y1, rest).r);
    } else {
      PlaysNothing(w.defs, y.r);
    }
  }

  lemma PlaysNothing(defs: set<string>, r: Regs)
    ensures Play(defs, Idle, r, NoMore) == (Idle, r)
  {
  }

  /** The run is a run of `Ep0`: the transactions that mean something, and the polls, are happenings that
      it admits, and lead the engine to the same state. */
  lemma {:induction false} RunHappens(w: World, y: Sys, evs: seq<Event>)
    requires Sound(y, w.dispatch) && AllFair(w, y, evs)
    ensures E.Inv(y.e, w.dispatch) && E.AllPossible(y.e, Happenings(w, y, evs), w.dispatch)
    ensures E.Run(y.e, Happenings(w, y, evs), w.dispatch) == After(w, y, evs).e
    decreases |evs|
  {
    hide Linked, Agreed, E.Inv, Traffic, Play, Fair, Means, First, E.Possible, E.Happen;
    if evs != [] {
      var y1, rest := Cons(w, y, evs);
      RunHappens(w, y1, rest);
      var h := Means(w.defs, y, evs[0]);
      if h.Some? {
        var hs := Happenings(w, y, evs);
        assert hs[0] == h.value && hs[1..] == Happenings(w, y1, rest);
        E.HappenKeeps(y.e, h.value, w.dispatch);
      } else {
        assert [] + Happenings(w, y1, rest) == Happenings(w, y1, rest);
      }
    }
  }

  // ---- What host and handlers have in the end ------------------------------------------------------

  /** The engine has been reset, and the registers and the host with it. */
  predicate Opened(y: Sys) {
    && E.Reset(y.e) && y.h == FRESH && AtIdle(y.r) && y.r.celEna && !y.r.cel
    && var o, i := Fetch(y.r.ram, OUT0), Fetch(y.r.ram, IN0);
       && Configured(o, i) && i.dt && o.bd0 == NO_BD && i.bd0 == NO_BD && o.bd1 == y.e.setup
  }

  lemma OpenedSound(y: Sys, dispatch: E.Dispatch)
    requires Opened(y)
    ensures Sound(y, dispatch)
  {
    E.ResetInv(y.e, dispatch);
  }

  /** The latest request is in hand, and its handler serves it. */
  predicate InHand(e: E.Ep0, dispatch: E.Dispatch) {
    !e.cel && 0 < e.handled == |e.asked| && E.Serves(E.Reply(e, dispatch), E.Hand(e))
  }

  /** The packets the host has are the first of those queued. */
  lemma GotQueued(y: Sys, dispatch: E.Dispatch)
    requires Sound(y, dispatch) && InHand(y.e, dispatch)
    ensures IsPrefix(y.h.got, E.Queued(y.e))
  {
  }

  /** A read: whatever the bus has lost and damaged, the host has a beginning of the handler's data, in
      order; and all of it, up to the length asked for, once it has had a short packet. */
  predicate ReadRight(y: Sys, dispatch: E.Dispatch)
    requires InHand(y.e, dispatch)
  {
    var buf, got := E.Reply(y.e, dispatch).buf, y.h.got;
    var n := E.Due(E.Hand(y.e), buf);
    && IsPrefix(Flat(got), buf[..n])
    && (got != [] && |got[|got| - 1]| < E.PKT ==> Flat(got) == buf[..n])
  }

  /** A write: the packets that came are those the host has seen acknowledged, or one more; and once the
      host has the status packet, the handler's buffer begins with their bytes, as many as the request
      announced, which are the host's when it has sent them all; the rest of the buffer is untouched. */
  predicate WriteRight(y: Sys, dispatch: E.Dispatch)
    requires InHand(y.e, dispatch) && !E.Hand(y.e).read && |y.e.came| == |y.e.asked|
  {
    var c, q, buf := E.Come(y.e), E.Hand(y.e), E.Reply(y.e, dispatch).buf;
    && (c == y.h.sent || (y.h.trying.Some? && c == y.h.sent + [y.h.trying.value]))
    && (y.h.got != [] ==>
          && y.e.x.data == Flat(c) + buf[q.wLength..] && |Flat(c)| == q.wLength
          && (|Flat(y.h.sent)| == q.wLength ==> Flat(c) == Flat(y.h.sent)))
  }

  predicate HostRight(y: Sys, dispatch: E.Dispatch) {
    InHand(y.e, dispatch) ==>
      && |y.e.came| == |y.e.asked|
      && if E.Hand(y.e).read then ReadRight(y, dispatch) else WriteRight(y, dispatch)
  }

  lemma HostReads(y: Sys, dispatch: E.Dispatch)
    requires Sound(y, dispatch) && InHand(y.e, dispatch) && E.Hand(y.e).read
    ensures ReadRight(y, dispatch)
  {
    var e, got := y.e, y.h.got;
    GotQueued(y, dispatch);
    FlatPrefix(got, E.Queued(e));
    var m := if e.ctrl.DataIn? then e.x.ofs else e.x.len;
    assert Flat(E.Queued(e)) == e.x.data[..m];
    assert e.x.data[..m] == e.x.data[..e.x.len][..m];
    var g := |Flat(got)|;
    assert e.x.data[..m][..g] == e.x.data[..e.x.len][..g];
    if got != [] && |got[|got| - 1]| < E.PKT {
      assert got[|got| - 1] == E.Queued(e)[|got| - 1];
      assert got == E.Queued(e);
    }
  }

  lemma HostWrites(y: Sys, dispatch: E.Dispatch)
    requires Sound(y, dispatch) && InHand(y.e, dispatch) && !E.Hand(y.e).read
    ensures |y.e.came| == |y.e.asked| && WriteRight(y, dispatch)
  {
    var e, c := y.e, E.Come(y.e);
    assert c == Latest(e.came);
    FlatPrefix(y.h.sent, c);
    if y.h.got != [] {
      assert E.Gone(e) == Latest(e.went);
      assert E.WriteDone(e, dispatch);
      assert e.x.data == e.x.data[..e.x.len] + e.x.data[e.x.len..];
    }
  }

  lemma SoundHost(y: Sys, dispatch: E.Dispatch)
    requires Sound(y, dispatch)
    ensures HostRight(y, dispatch)
  {
    hide Linked, Agreed, E.Staged, ReadRight, WriteRight;
    if InHand(y.e, dispatch) {
      if E.Hand(y.e).read {
        HostReads(y, dispatch);
      } else {
        HostWrites(y, dispatch);
      }
    }
  }

  /** EP0 end to end: for every run of host, bus and firmware, fair to the host's side, the assembled ROM,
      from reset, takes the run's traffic and ends with registers that hold what the engine knows, the
      toggles those due; and host and handler have each other's bytes. */
  lemma RomControls(w: World, y: Sys, evs: seq<Event>, a: Nib) returns (img: A.Image<Lab>, k: nat, y1: Sys)
    requires Opened(y) && Sound(y, w.dispatch) && AllFair(w, y, evs)
    ensures y1 == After(w, y, evs) && Linked(y1.e, y1.h.failed, y1.r) && HostRight(y1, w.dispatch)
    ensures A.Assembled(A.Flatten(Listing(Seg)), w.defs) == Some(img)
    ensures var c := A.FlatRun(img.words, TheMachine(), A.Flat(0, Cpu(a, y.r, AllTraffic(w, y, evs))), k).s;
            c.ins == NoMore && c.r == y1.r
  {
    hide E.Inv, Linked, Agreed, HostRight, Play, AllTraffic, After, AllFair, Happenings, A.FlatRun;
    img, k := RomFollowsProtocol(w.defs, y.r, AllTraffic(w, y, evs), a);
    RunPlays(w, y, evs);
    y1 := After(w, y, evs);
    SoundHost(y1, w.dispatch);
  }
}
