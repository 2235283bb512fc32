/** The control endpoint's engine (fw/v0/src/usb_ctrl_ep0.c): SETUP, data and status stages, polled,
    with the hardware completing descriptors and locking the endpoint in between. */
module Ep0 {
  import opened Isa
  import opened Engine
  import opened Bytes
  import Decision

  const PKT := 64

  datatype CtrlState = Idle | DataIn | DataOut | StatusDoneIn | StatusDoneOut | Stall

  /** What matters of a request here: its direction and its length. */
  datatype Request = Request(read: bool, wLength: nat)

  /** What the handlers make of it: nothing, or a buffer, with the data to be read. */
  datatype Answer = Refused | Provide(buf: seq<byte>)

  /** Handlers may answer differently every time: to the n-th request as they like. */
  type Dispatch = (nat, Request) -> Answer

  datatype Xfer = Xfer(data: seq<byte>, len: nat, ofs: nat)

  datatype Event = Handled | Completed | Stalled

  /** The engine with its descriptors and buffers (the request in the SETUP buffer among them), the
      lockout bit, how many requests it has handled, for which of them each descriptor was last filled,
      and what it has reported. Beside it, what the bus has seen, which only the hardware adds to: the
      requests whose SETUP packets were accepted, and for each of them the packets that came through
      OUT and that went through IN. */
  datatype Ep0 = Ep0(
    ctrl: CtrlState, setup: Bd, out: Bd, inn: Bd, cel: bool,
    req: Request, tx: seq<byte>, rx: seq<byte>, x: Xfer,
    handled: nat, inFor: nat, outFor: nat, log: seq<Event>,
    asked: seq<Request>, came: seq<seq<seq<byte>>>, went: seq<seq<seq<byte>>>)

  function Ready(len: nat): Bd { Bd(BD_RDY_DATA, false, len) }
  function StallBd(): Bd { Bd(BD_RDY_STALL, false, 0) }

  // ---- The data stage --------------------------------------------------------------------------

  function QueueIn(e: Ep0, packet: seq<byte>): Ep0 {
    e.(inn := Ready(|packet|), tx := packet, inFor := e.handled)
  }

  function QueueOut(e: Ep0): Ep0 {
    e.(out := Ready(PKT), outFor := e.handled)
  }

  /** Send the next packet of a read; a short one is the last. */
  function SendNext(e: Ep0): Ep0
    requires e.x.ofs <= e.x.len <= |e.x.data|
  {
    var n := Min(e.x.len - e.x.ofs, PKT);
    var packet := e.x.data[e.x.ofs..e.x.ofs + n];
    var e1 := QueueIn(e, packet).(x := e.x.(ofs := e.x.ofs + n));
    if n < PKT then QueueOut(e1).(ctrl := StatusDoneOut) else e1
  }

  /** The packet in the buffer fits what the request still wants. */
  predicate Fits(e: Ep0) {
    && e.x.ofs <= e.x.len <= |e.x.data|
    && (e.out.state == BD_DONE_OK ==> e.out.len == |e.rx| + 2 && e.x.ofs + |e.rx| <= e.x.len)
  }

  /** Take the packet of a write that has come, if any; finish, or ask for the next. */
  function TakeNext(e: Ep0): Ep0
    requires Fits(e)
  {
    var done := e.out.state == BD_DONE_OK;
    var n := |e.rx|;
    var e1 := if !done then e else
      e.(x := e.x.(data := Patch(e.x.data, e.x.ofs, e.rx), ofs := e.x.ofs + n), out := NO_BD);
    if e1.x.ofs == e1.x.len then QueueIn(e1, []).(ctrl := StatusDoneIn)
    else if e.out.state != BD_RDY_DATA then QueueOut(e1)
    else e1
  }

  /** `usb_handle_control_data` */
  function HandleData(e: Ep0): Ep0
    requires e.ctrl.DataIn? ==> e.x.ofs <= e.x.len <= |e.x.data|
    requires e.ctrl.DataOut? ==> Fits(e)
  {
    if e.ctrl.DataIn? then SendNext(e) else if e.ctrl.DataOut? then TakeNext(e) else e
  }

  // ---- Requests --------------------------------------------------------------------------------

  function Refuse(e: Ep0): Ep0 {
    e.(ctrl := Stall, inn := StallBd(), out := StallBd(), log := e.log + [Stalled])
  }

  /** The request's transfer, before its first packet. */
  function Open(e: Ep0, q: Request, buf: seq<byte>): Ep0 {
    e.(ctrl := if q.read then DataIn else DataOut,
       x := Xfer.Xfer(buf, if q.wLength > |buf| then |buf| else q.wLength, 0),
       log := e.log + [Handled])
  }

  /** A buffer has been provided, and for a write it is large enough. */
  predicate Serves(a: Answer, q: Request) {
    a.Provide? && (q.read || q.wLength <= |a.buf|)
  }

  /** `usb_handle_control_request`, with the descriptors cleared */
  function HandleRequest(e: Ep0, dispatch: Dispatch): Ep0
    requires e.out == NO_BD
  {
    var a := dispatch(e.handled, e.req);
    if Serves(a, e.req) then HandleData(Open(e, e.req, a.buf)) else Refuse(e)
  }

  /** A SETUP packet: clear what an earlier request left, handle it, release the lockout. */
  function HandleSetup(e: Ep0, dispatch: Dispatch): Ep0 {
    Released(HandleRequest(Emptied(e), dispatch))
  }

  function Emptied(e: Ep0): Ep0 {
    e.(out := NO_BD, inn := NO_BD, handled := e.handled + 1)
  }

  function Released(e: Ep0): Ep0 {
    e.(cel := false, setup := Ready(PKT))
  }

  /** A request is refused if and only if no handler provides a buffer for it, or it writes more than the
      buffer holds; any other has its data stage opened, in its direction and up to its length. */
  lemma RefusedExactly(e: Ep0, dispatch: Dispatch)
    ensures var a, q, r := dispatch(e.handled + 1, e.req), e.req, HandleSetup(e, dispatch);
            && r.handled == e.handled + 1 && !r.cel && r.setup == Ready(PKT)
            && if a.Refused? || (!q.read && |a.buf| < q.wLength)
               then r.ctrl.Stall? && r.inn == StallBd() && r.out == StallBd() && r.log == e.log + [Stalled]
               else
                 && r.log == e.log + [Handled] && r.x.len == (if q.wLength <= |a.buf| then q.wLength else |a.buf|)
                 && if q.read then
                      && r.tx == a.buf[..Min(r.x.len, PKT)] && r.inn == Ready(|r.tx|)
                      && (r.ctrl.StatusDoneOut? <==> r.x.len < PKT) && (r.ctrl.DataIn? <==> r.x.len >= PKT)
                    else if q.wLength == 0 then r.ctrl.StatusDoneIn? && r.inn == Ready(0)
                    else r.ctrl.DataOut? && r.out == Ready(PKT)
  {
  }

  // ---- The poll loop ---------------------------------------------------------------------------

  datatype Turn = Again | Quit

  function Complete(e: Ep0): Ep0 {
    e.(ctrl := Idle, log := e.log + [Completed])
  }

  /** The first part of a turn: a status stage that has finished, or a STALL to renew. */
  function StatusTurn(e: Ep0): Ep0 {
    match e.ctrl
    case StatusDoneIn => if e.inn.state == BD_DONE_OK then Complete(e.(inn := NO_BD)) else e
    case StatusDoneOut =>
      var e1 := if e.inn.state == BD_DONE_OK then e.(inn := NO_BD) else e;
      if e.out.state == BD_DONE_OK then Complete(e1.(out := NO_BD)) else e1
    case Stall =>
      e.(inn := if e.inn.state != BD_RDY_STALL then StallBd() else e.inn,
         out := if e.out.state != BD_RDY_STALL then StallBd() else e.out)
    case _ => e
  }

  predicate StatusActs(e: Ep0) {
    match e.ctrl
    case StatusDoneIn => e.inn.state == BD_DONE_OK
    case StatusDoneOut => e.inn.state == BD_DONE_OK || e.out.state == BD_DONE_OK
    case Stall => e.inn.state != BD_RDY_STALL || e.out.state != BD_RDY_STALL
    case _ => false
  }

  /** One turn of the loop, and whether there is another. */
  function TurnOnce(e: Ep0, dispatch: Dispatch): (Ep0, Turn)
    requires e.x.ofs <= e.x.len <= |e.x.data| && (e.ctrl.DataOut? ==> Fits(e))
  {
    if StatusActs(e) then (StatusTurn(e), Again)
    else if e.setup.state == BD_DONE_ERR then (e.(setup := Ready(PKT)), Again)
    else if e.out.state == BD_DONE_ERR then (QueueOut(e), Again)
    else if e.setup.state == BD_DONE_OK then (HandleSetup(e, dispatch), Quit)
    else if e.out.state == BD_DONE_OK then (if e.ctrl.DataOut? then HandleData(e) else e.(out := NO_BD), Again)
    else if e.inn.state == BD_DONE_OK then (if e.ctrl.DataIn? then HandleData(e) else e.(inn := NO_BD), Again)
    else (e, Quit)
  }

  predicate Sane(e: Ep0) {
    e.x.ofs <= e.x.len <= |e.x.data| && (e.ctrl.DataOut? ==> Fits(e))
  }

  function One(b: bool): nat {
    if b then 1 else 0
  }

  /** Descriptors done, and while stalling those to renew. */
  function Measure(e: Ep0): nat {
    One(IsDone(e.setup.state)) + One(IsDone(e.out.state)) + One(IsDone(e.inn.state))
    + (if e.ctrl.Stall? then One(e.inn.state != BD_RDY_STALL) + One(e.out.state != BD_RDY_STALL) else 0)
  }

  lemma StatusDecreases(e: Ep0)
    requires Sane(e) && StatusActs(e)
    ensures Sane(StatusTurn(e)) && Measure(StatusTurn(e)) < Measure(e)
  {
  }

  lemma SendDecreases(e: Ep0)
    requires Sane(e) && e.ctrl.DataIn? && e.inn.state == BD_DONE_OK
    ensures Sane(SendNext(e)) && Measure(SendNext(e)) < Measure(e)
  {
  }

  lemma TakeDecreases(e: Ep0)
    requires Sane(e) && e.ctrl.DataOut? && e.out.state == BD_DONE_OK
    ensures Sane(TakeNext(e)) && Measure(TakeNext(e)) < Measure(e)
  {
  }

  lemma OpenSane(e: Ep0, q: Request, buf: seq<byte>)
    requires e.out == NO_BD
    ensures Sane(Open(e, q, buf)) && Sane(HandleData(Open(e, q, buf)))
  {
  }

  lemma SetupSane(e: Ep0, dispatch: Dispatch)
    requires Sane(e)
    ensures Sane(HandleSetup(e, dispatch))
  {
    RequestSane(Emptied(e), dispatch);
  }

  lemma RequestSane(e: Ep0, dispatch: Dispatch)
    requires Sane(e) && e.out == NO_BD
    ensures Sane(HandleRequest(e, dispatch))
  {
    var a := dispatch(e.handled, e.req);
    if Serves(a, e.req) {
      OpenSane(e, e.req, a.buf);
    }
  }

  /** Every turn that is followed by another leaves less to do. */
  lemma TurnDecreases(e: Ep0, dispatch: Dispatch)
    requires Sane(e)
    ensures Sane(TurnOnce(e, dispatch).0)
    ensures TurnOnce(e, dispatch).1.Again? ==> Measure(TurnOnce(e, dispatch).0) < Measure(e)
  {
    if StatusActs(e) {
      StatusDecreases(e);
    } else if e.setup.state == BD_DONE_ERR || e.out.state == BD_DONE_ERR {
    } else if e.setup.state == BD_DONE_OK {
      SetupSane(e, dispatch);
    } else if e.out.state == BD_DONE_OK {
      if e.ctrl.DataOut? {
        TakeDecreases(e);
      }
    } else if e.inn.state == BD_DONE_OK && e.ctrl.DataIn? {
      SendDecreases(e);
    }
  }

  /** `usb_ep0_poll`: it ends from every state, the hardware standing still. */
  function Poll(e: Ep0, dispatch: Dispatch): Ep0
    requires Sane(e)
    decreases Measure(e)
  {
    TurnDecreases(e, dispatch);
    var (e1, turn) := TurnOnce(e, dispatch);
    if turn.Again? then Poll(e1, dispatch) else e1
  }

  // ---- What always holds -----------------------------------------------------------------------

  predicate AllFull(ps: seq<seq<byte>>) {
    forall k :: 0 <= k < |ps| ==> |ps[k]| == PKT
  }

  /** The packets of a read: as many full ones as fit, and one for the rest, which may be empty. */
  predicate Chopped(ps: seq<seq<byte>>, b: seq<byte>) {
    && |ps| == |b| / PKT + 1 && AllFull(ps[..|ps| - 1]) && |ps[|ps| - 1]| == |b| % PKT && Flat(ps) == b
  }

  /** The request in hand, what its handler answered, and the packets it has moved. */
  function Hand(e: Ep0): Request
    requires 0 < e.handled <= |e.asked|
  {
    e.asked[e.handled - 1]
  }

  function Reply(e: Ep0, dispatch: Dispatch): Answer
    requires 0 < e.handled <= |e.asked|
  {
    dispatch(e.handled, Hand(e))
  }

  /** Packets sent for the request in hand, and those and the one that is ready to be sent. */
  function Gone(e: Ep0): seq<seq<byte>>
    requires 0 < e.handled <= |e.went|
  {
    e.went[e.handled - 1]
  }

  function Queued(e: Ep0): seq<seq<byte>>
    requires 0 < e.handled <= |e.went|
  {
    Gone(e) + if e.inn.state == BD_RDY_DATA then [e.tx] else []
  }

  /** Packets received for it, and those of them that the engine has taken. */
  function Come(e: Ep0): seq<seq<byte>>
    requires 0 < e.handled <= |e.came|
  {
    e.came[e.handled - 1]
  }

  function Taken(e: Ep0): seq<seq<byte>>
    requires 0 < e.handled <= |e.came|
  {
    var c := Come(e);
    if e.out.state == BD_DONE_OK && c != [] then c[..|c| - 1] else c
  }

  /** SETUP packets: one at a time, and the endpoint locked until it is handled. A descriptor that is
      ready was filled for the request in hand. */
  predicate Locked(e: Ep0) {
    && |e.asked| == |e.came| == |e.went| == e.handled + One(e.cel)
    && (if e.cel then e.setup.state == BD_DONE_OK else e.setup.state == BD_RDY_DATA || e.setup.state == BD_DONE_ERR)
    && (e.cel ==> e.req == e.asked[e.handled] && e.came[e.handled] == [] && e.went[e.handled] == [])
    && (e.inn.state == BD_RDY_DATA ==> e.inFor == e.handled && e.inn.len == |e.tx|)
    && (e.out.state == BD_RDY_DATA ==> e.outFor == e.handled && e.out.len == PKT)
    && (e.setup.state == BD_RDY_DATA ==> e.setup.len == PKT)
  }

  /** How much of a read's data is to be sent: what was asked for, as far as there is any. */
  function Due(q: Request, buf: seq<byte>): nat {
    Min(q.wLength, |buf|)
  }

  /** The transfer is the request's: a read of its handler's data, up to the length asked for. */
  predicate Reads(e: Ep0, dispatch: Dispatch)
    requires 0 < e.handled <= |e.asked|
  {
    && Hand(e).read && Reply(e, dispatch).Provide?
    && e.x.data == Reply(e, dispatch).buf && e.x.len == Due(Hand(e), e.x.data)
  }

  /** Or a write into its handler's buffer, of exactly the length announced; what is behind the bytes
      received is as the handler left it. */
  predicate Writes(e: Ep0, dispatch: Dispatch)
    requires 0 < e.handled <= |e.asked|
  {
    && !Hand(e).read && Serves(Reply(e, dispatch), Hand(e))
    && e.x.len == Hand(e).wLength && e.x.ofs <= |e.x.data| == |Reply(e, dispatch).buf|
    && e.x.data[e.x.ofs..] == Reply(e, dispatch).buf[e.x.ofs..]
  }

  /** All of a read has been queued; all of a write has been received. */
  predicate ReadDone(e: Ep0, dispatch: Dispatch)
    requires 0 < e.handled <= |e.asked| == |e.went| && Sane(e)
  {
    Reads(e, dispatch) && Chopped(Queued(e), e.x.data[..e.x.len])
  }

  predicate WriteDone(e: Ep0, dispatch: Dispatch)
    requires 0 < e.handled <= |e.asked| == |e.came| && Sane(e)
  {
    Writes(e, dispatch) && e.x.ofs == e.x.len && Flat(Come(e)) == e.x.data[..e.x.len]
  }

  /** The stages of a request, each with what its descriptors may hold. */
  predicate Staged(e: Ep0, dispatch: Dispatch)
    requires Sane(e) && Locked(e)
  {
    if e.handled == 0 then e.ctrl.Idle? && e.out == NO_BD && e.inn == NO_BD
    else match e.ctrl
      case Idle =>
        && e.out == NO_BD && e.inn.state != BD_RDY_STALL && e.inn.state != BD_DONE_ERR
        && (ReadDone(e, dispatch) || WriteDone(e, dispatch))
      case DataIn =>
        && Reads(e, dispatch) && Queued(e) != [] && AllFull(Queued(e))
        && Flat(Queued(e)) == e.x.data[..e.x.ofs] && e.x.ofs == PKT * |Queued(e)|
        && e.out == NO_BD && (e.inn.state == BD_RDY_DATA || e.inn.state == BD_DONE_OK)
      case StatusDoneOut =>
        && ReadDone(e, dispatch)
        && (e.out.state == BD_RDY_DATA || IsDone(e.out.state))
        && (e.inn.state == BD_RDY_DATA || e.inn.state == BD_DONE_OK || e.inn == NO_BD)
      case DataOut =>
        && Writes(e, dispatch) && e.x.ofs < e.x.len && Flat(Taken(e)) == e.x.data[..e.x.ofs]
        && (e.out.state == BD_DONE_OK ==> Come(e) != [] && Come(e)[|Come(e)| - 1] == e.rx)
        && (e.out.state == BD_RDY_DATA || IsDone(e.out.state)) && e.inn == NO_BD
      case StatusDoneIn =>
        && WriteDone(e, dispatch)
        && e.out == NO_BD && (e.inn.state == BD_RDY_DATA || e.inn.state == BD_DONE_OK)
      case Stall =>
        && !Serves(Reply(e, dispatch), Hand(e))
        && (e.out.state == BD_RDY_STALL || IsDone(e.out.state))
        && (e.inn.state == BD_RDY_STALL || e.inn.state == BD_DONE_OK)
  }

  /** How many requests have been answered. */
  function Answered(log: seq<Event>): nat {
    if log == [] then 0 else Answered(log[..|log| - 1]) + One(!log[|log| - 1].Completed?)
  }

  /** Every request handled is in the log, the one in hand last; every completion follows the handling
      it completes. */
  predicate Logged(e: Ep0) {
    && Answered(e.log) == e.handled && Paired(e.log)
    && (!e.ctrl.Idle? && !e.ctrl.Stall? ==> e.log != [] && e.log[|e.log| - 1].Handled?)
  }

  predicate Paired(log: seq<Event>) {
    forall k :: 0 <= k < |log| && log[k].Completed? ==> k > 0 && log[k - 1].Handled?
  }

  lemma LogMore(log: seq<Event>, ev: Event)
    requires Paired(log) && (ev.Completed? ==> log != [] && log[|log| - 1].Handled?)
    ensures Paired(log + [ev]) && Answered(log + [ev]) == Answered(log) + One(!ev.Completed?)
  {
    assert (log + [ev])[..|log|] == log;
  }

  predicate Inv(e: Ep0, dispatch: Dispatch) {
    Sane(e) && Locked(e) && Staged(e, dispatch) && Logged(e)
  }

  lemma FlatLast(ps: seq<seq<byte>>, p: seq<byte>)
    ensures Flat(ps + [p]) == Flat(ps) + p
  {
    FlatAppend(ps, [p]);
    assert Flat([p]) == p + Flat([p][1..]);
  }

  // ---- The poll keeps it -----------------------------------------------------------------------

  /** The registers after the next packet of a read is queued. */
  lemma SendFields(e: Ep0) returns (e1: Ep0, packet: seq<byte>)
    requires Sane(e) && e.ctrl.DataIn? && 0 < e.handled <= |e.went| && e.inn.state != BD_RDY_DATA
    ensures e1 == SendNext(e) && |packet| == Min(e.x.len - e.x.ofs, PKT)
    ensures packet == e.x.data[e.x.ofs..e.x.ofs + |packet|] && e1.x == e.x.(ofs := e.x.ofs + |packet|)
    ensures e1.inn == Ready(|packet|) && e1.tx == packet && e1.inFor == e.handled
    ensures if |packet| < PKT then e1.ctrl.StatusDoneOut? && e1.out == Ready(PKT) && e1.outFor == e.handled
            else e1.ctrl.DataIn? && e1.out == e.out && e1.outFor == e.outFor
    ensures e1 == e.(inn := e1.inn, tx := e1.tx, inFor := e1.inFor, out := e1.out, outFor := e1.outFor, x := e1.x,
      ctrl := e1.ctrl)
    ensures Queued(e1) == Queued(e) + [packet]
  {
    e1 := SendNext(e);
    packet := e1.tx;
    assert Gone(e) + [] == Gone(e);
  }

  lemma SendKeeps(e: Ep0, dispatch: Dispatch)
    requires Sane(e) && e.ctrl.DataIn? && Locked(e) && Logged(e) && e.out == NO_BD && e.inn.state != BD_RDY_DATA
    requires 0 < e.handled && Reads(e, dispatch) && AllFull(Queued(e))
    requires Flat(Queued(e)) == e.x.data[..e.x.ofs] && e.x.ofs == PKT * |Queued(e)|
    ensures Inv(SendNext(e), dispatch)
  {
    var e1, packet := SendFields(e);
    FlatLast(Queued(e), packet);
    assert e.x.data[..e.x.ofs] + packet == e.x.data[..e1.x.ofs];
    assert Reads(e1, dispatch);
    if |packet| < PKT {
      ChoppedLast(Queued(e), packet, e.x.data, e.x.len);
    }
  }

  lemma ChoppedLast(ps: seq<seq<byte>>, packet: seq<byte>, data: seq<byte>, len: nat)
    requires len <= |data| && len == PKT * |ps| + |packet| && |packet| < PKT
    requires AllFull(ps) && Flat(ps + [packet]) == data[..len]
    ensures Chopped(ps + [packet], data[..len])
  {
    assert (ps + [packet])[..|ps|] == ps;
    Division(|ps|, |packet|);
  }

  lemma Division(k: nat, n: nat)
    requires n < PKT
    ensures (PKT * k + n) / PKT == k && (PKT * k + n) % PKT == n
  {
  }

  /** The buffer after the packet that has come, if any, is taken. */
  lemma Filled(e: Ep0, dispatch: Dispatch) returns (x: Xfer)
    requires Sane(e) && e.ctrl.DataOut? && Locked(e) && 0 < e.handled && Writes(e, dispatch)
    requires Flat(Taken(e)) == e.x.data[..e.x.ofs]
    requires e.out.state == BD_DONE_OK ==> e.x.ofs < e.x.len && Come(e) != [] && Come(e)[|Come(e)| - 1] == e.rx
    ensures x == TakeNext(e).x && x.ofs <= x.len == e.x.len && |x.data| == |e.x.data|
    ensures Flat(Come(e)) == x.data[..x.ofs] && x.data[x.ofs..] == Reply(e, dispatch).buf[x.ofs..]
  {
    x := TakeNext(e).x;
    if e.out.state == BD_DONE_OK {
      var c := Come(e);
      FlatLast(Taken(e), e.rx);
      assert c == Taken(e) + [e.rx];
      PatchEnds(e.x.data, e.x.ofs, e.rx);
      var buf := Reply(e, dispatch).buf;
      assert buf[e.x.ofs..][|e.rx|..] == buf[x.ofs..] && e.x.data[e.x.ofs..][|e.rx|..] == e.x.data[x.ofs..];
    }
  }

  lemma PatchEnds(data: seq<byte>, ofs: nat, b: seq<byte>)
    requires ofs + |b| <= |data|
    ensures var p := Patch(data, ofs, b);
            |p| == |data| && p[..ofs + |b|] == data[..ofs] + b && p[ofs + |b|..] == data[ofs + |b|..]
  {
  }

  lemma TakeKeeps(e: Ep0, dispatch: Dispatch)
    requires Sane(e) && e.ctrl.DataOut? && Locked(e) && Logged(e) && e.inn == NO_BD && 0 < e.handled
    requires Writes(e, dispatch) && Flat(Taken(e)) == e.x.data[..e.x.ofs]
    requires if e.out.state == BD_DONE_OK then e.x.ofs < e.x.len && Come(e) != [] && Come(e)[|Come(e)| - 1] == e.rx
             else e.out == NO_BD
    ensures Inv(TakeNext(e), dispatch)
  {
    var x := Filled(e, dispatch);
    var e1 := TakeNext(e);
    assert Writes(e1, dispatch);
    assert Come(e1) == Come(e) && Taken(e1) == Come(e);
  }

  /** A new request: nothing is left of the one before it. */
  lemma SetupKeeps(e: Ep0, dispatch: Dispatch)
    requires Inv(e, dispatch) && e.setup.state == BD_DONE_OK
    ensures Inv(HandleSetup(e, dispatch), dispatch) && !HandleSetup(e, dispatch).cel
  {
    var e1 := e.(out := NO_BD, inn := NO_BD, handled := e.handled + 1, cel := false, setup := Ready(PKT));
    var a := dispatch(e1.handled, e.req);
    SetupSane(e, dispatch);
    if Serves(a, e.req) {
      OpenKeeps(e1, a.buf, dispatch);
      HandleDataCommutes(e, dispatch, e1);
    } else {
      assert HandleSetup(e, dispatch) == Refuse(e1);
      RefuseKeeps(e1, dispatch);
    }
  }

  /** The release and the next SETUP buffer come after the handling, and do not concern it. */
  lemma HandleDataCommutes(e: Ep0, dispatch: Dispatch, e1: Ep0)
    requires e1 == e.(out := NO_BD, inn := NO_BD, handled := e.handled + 1, cel := false, setup := Ready(PKT))
    requires Serves(dispatch(e1.handled, e.req), e.req)
    ensures HandleSetup(e, dispatch) == HandleData(Open(e1, e.req, dispatch(e1.handled, e.req).buf))
  {
  }

  /** Descriptors cleared, and the endpoint released, for a request that has moved nothing yet. */
  predicate Cleared(e: Ep0) {
    && e.out == NO_BD && e.inn == NO_BD && !e.cel && e.setup == Ready(PKT)
    && |e.asked| == |e.came| == |e.went| == e.handled > 0
    && e.req == Hand(e) && Come(e) == [] && Gone(e) == []
    && Paired(e.log) && Answered(e.log) + 1 == e.handled
  }

  lemma RefuseKeeps(e: Ep0, dispatch: Dispatch)
    requires Sane(Refuse(e)) && Cleared(e) && !Serves(Reply(e, dispatch), Hand(e))
    ensures Inv(Refuse(e), dispatch)
  {
    LogMore(e.log, Stalled);
  }

  lemma OpenKeeps(e: Ep0, buf: seq<byte>, dispatch: Dispatch)
    requires Cleared(e) && Serves(Reply(e, dispatch), Hand(e)) && buf == Reply(e, dispatch).buf
    ensures Sane(Open(e, e.req, buf)) && Inv(HandleData(Open(e, e.req, buf)), dispatch)
  {
    var o := Open(e, e.req, buf);
    OpenSane(e, e.req, buf);
    LogMore(e.log, Handled);
    assert o.x.data[..0] == [] && o.x.data[0..] == buf[0..];
    assert Queued(o) == [] && Taken(o) == [];
    if e.req.read {
      SendKeeps(o, dispatch);
    } else {
      TakeKeeps(o, dispatch);
    }
  }

  lemma StatusKeeps(e: Ep0, dispatch: Dispatch)
    requires Inv(e, dispatch) && StatusActs(e)
    ensures Inv(StatusTurn(e), dispatch)
  {
    StatusDecreases(e);
    if e.ctrl.StatusDoneIn? {
      StatusInKeeps(e, dispatch);
    } else if e.ctrl.StatusDoneOut? {
      StatusOutKeeps(e, dispatch);
    } else {
      StallKeeps(e, dispatch);
    }
  }

  lemma StatusInKeeps(e: Ep0, dispatch: Dispatch)
    requires Inv(e, dispatch) && e.ctrl.StatusDoneIn? && e.inn.state == BD_DONE_OK
    ensures Inv(e.(inn := NO_BD, ctrl := Idle, log := e.log + [Completed]), dispatch)
  {
    LogMore(e.log, Completed);
    var e1 := e.(inn := NO_BD, ctrl := Idle, log := e.log + [Completed]);
    assert WriteDone(e1, dispatch);
  }

  lemma StatusOutKeeps(e: Ep0, dispatch: Dispatch)
    requires Inv(e, dispatch) && e.ctrl.StatusDoneOut? && StatusActs(e)
    ensures Inv(StatusTurn(e), dispatch)
  {
    var e1 := if e.inn.state == BD_DONE_OK then e.(inn := NO_BD) else e;
    StatusSent(e, e1, dispatch);
    if e.out.state == BD_DONE_OK {
      StatusClosed(e1, dispatch);
    }
  }

  lemma StatusSent(e: Ep0, e1: Ep0, dispatch: Dispatch)
    requires Inv(e, dispatch) && e.ctrl.StatusDoneOut?
    requires e1 == if e.inn.state == BD_DONE_OK then e.(inn := NO_BD) else e
    ensures Inv(e1, dispatch)
  {
    assert Queued(e1) == Queued(e);
  }

  lemma StatusClosed(e: Ep0, dispatch: Dispatch)
    requires Inv(e, dispatch) && e.ctrl.StatusDoneOut?
    ensures Inv(e.(out := NO_BD, ctrl := Idle, log := e.log + [Completed]), dispatch)
  {
    LogMore(e.log, Completed);
    var e1 := e.(out := NO_BD, ctrl := Idle, log := e.log + [Completed]);
    assert ReadDone(e1, dispatch);
  }

  lemma StallKeeps(e: Ep0, dispatch: Dispatch)
    requires Inv(e, dispatch) && e.ctrl.Stall?
    ensures Inv(StatusTurn(e), dispatch)
  {
    var e1 := StatusTurn(e);
    assert e1 == e.(inn := e1.inn, out := e1.out) && e1.inn.state == BD_RDY_STALL && e1.out.state == BD_RDY_STALL;
  }

  lemma TurnKeeps(e: Ep0, dispatch: Dispatch)
    requires Inv(e, dispatch)
    ensures Inv(TurnOnce(e, dispatch).0, dispatch)
  {
    TurnDecreases(e, dispatch);
    if StatusActs(e) {
      StatusKeeps(e, dispatch);
    } else if e.setup.state == BD_DONE_ERR || e.out.state == BD_DONE_ERR {
      RetryKeeps(e, dispatch);
    } else if e.setup.state == BD_DONE_OK {
      SetupKeeps(e, dispatch);
    } else {
      DataKeeps(e, dispatch);
    }
  }

  lemma RetryKeeps(e: Ep0, dispatch: Dispatch)
    requires Inv(e, dispatch)
    ensures e.setup.state == BD_DONE_ERR ==> Inv(e.(setup := Ready(PKT)), dispatch)
    ensures e.out.state == BD_DONE_ERR && !e.ctrl.Stall? ==> Inv(QueueOut(e), dispatch)
  {
    if e.setup.state == BD_DONE_ERR {
      SetupAgain(e, Ready(PKT), dispatch);
    }
    if e.out.state == BD_DONE_ERR && !e.ctrl.Stall? {
      OutChanged(e, QueueOut(e), dispatch);
    }
  }

  lemma SetupAgain(e: Ep0, bd: Bd, dispatch: Dispatch)
    requires Inv(e, dispatch) && !e.cel && (bd == Ready(PKT) || bd.state == BD_DONE_ERR)
    ensures Inv(e.(setup := bd), dispatch)
  {
  }

  /** An OUT descriptor that waits for a packet, or has failed, in the stages that have one. */
  lemma OutChanged(e: Ep0, e1: Ep0, dispatch: Dispatch)
    requires Inv(e, dispatch) && e1 == e.(out := e1.out, outFor := e1.outFor)
    requires e.ctrl.DataOut? || e.ctrl.StatusDoneOut? || (e.ctrl.Stall? && e1.out.state != BD_RDY_DATA)
    requires e.out.state != BD_DONE_OK
      && (e1.out.state == BD_DONE_ERR || (e1.out == Ready(PKT) && e1.outFor == e.handled))
    ensures Inv(e1, dispatch)
  {
    assert Taken(e1) == Taken(e);
  }

  lemma DataKeeps(e: Ep0, dispatch: Dispatch)
    requires Inv(e, dispatch) && !StatusActs(e) && e.setup.state != BD_DONE_OK
    requires !IsDone(e.setup.state) && e.out.state != BD_DONE_ERR
    ensures Sane(TurnOnce(e, dispatch).0) && Inv(TurnOnce(e, dispatch).0, dispatch)
  {
    if e.out.state == BD_DONE_OK {
      assert e.ctrl.DataOut?;
      TakeKeeps(e, dispatch);
    } else if e.inn.state == BD_DONE_OK {
      if e.ctrl.DataIn? {
        SendKeeps(e, dispatch);
      } else {
        SentIdle(e, dispatch);
      }
    }
  }

  /** A packet that went after the status stage. */
  lemma SentIdle(e: Ep0, dispatch: Dispatch)
    requires Inv(e, dispatch) && e.ctrl.Idle? && e.inn.state == BD_DONE_OK
    ensures Inv(e.(inn := NO_BD), dispatch)
  {
    assert e.handled > 0 ==> Queued(e.(inn := NO_BD)) == Queued(e);
  }

  /** Nothing is left to handle: no descriptor is done, and each stage has the one it goes on with ready. */
  predicate Settled(e: Ep0) {
    && !IsDone(e.setup.state) && !IsDone(e.out.state) && !IsDone(e.inn.state)
    && (e.ctrl.DataIn? || e.ctrl.StatusDoneIn? ==> e.inn.state == BD_RDY_DATA)
    && (e.ctrl.DataOut? || e.ctrl.StatusDoneOut? ==> e.out.state == BD_RDY_DATA)
    && (e.ctrl.Stall? ==> e.inn.state == BD_RDY_STALL && e.out.state == BD_RDY_STALL)
  }

  /** The poll leaves nothing undone. */
  lemma {:induction false} PollSettles(e: Ep0, dispatch: Dispatch)
    requires Inv(e, dispatch)
    ensures Settled(Poll(e, dispatch))
    decreases Measure(e)
  {
    TurnDecreases(e, dispatch);
    TurnKeeps(e, dispatch);
    var (e1, turn) := TurnOnce(e, dispatch);
    if turn.Again? {
      PollSettles(e1, dispatch);
    } else if e.setup.state == BD_DONE_OK && !StatusActs(e) && e.out.state != BD_DONE_ERR {
      SetupSettles(e, dispatch);
    } else {
      QuitSettles(e, dispatch);
    }
  }

  lemma SetupSettles(e: Ep0, dispatch: Dispatch)
    requires Inv(e, dispatch) && e.setup.state == BD_DONE_OK
    ensures Settled(HandleSetup(e, dispatch))
  {
  }

  lemma QuitSettles(e: Ep0, dispatch: Dispatch)
    requires Inv(e, dispatch) && TurnOnce(e, dispatch).1.Quit? && e.setup.state != BD_DONE_OK
    ensures TurnOnce(e, dispatch).0 == e && Settled(e)
  {
  }

  /** A SETUP that waits comes before the data of the request it follows: nothing of that is taken or sent
      any more. */
  lemma SetupFirst(e: Ep0, dispatch: Dispatch)
    requires Sane(e) && e.setup.state == BD_DONE_OK && !StatusActs(e) && e.out.state != BD_DONE_ERR
    ensures Poll(e, dispatch) == HandleSetup(e, dispatch)
  {
  }

  /** The poll keeps every stage right, and leaves the endpoint unlocked. */
  lemma {:induction false} PollKeeps(e: Ep0, dispatch: Dispatch)
    requires Inv(e, dispatch)
    ensures Inv(Poll(e, dispatch), dispatch) && !Poll(e, dispatch).cel
    decreases Measure(e)
  {
    TurnDecreases(e, dispatch);
    TurnKeeps(e, dispatch);
    var (e1, turn) := TurnOnce(e, dispatch);
    if turn.Again? {
      PollKeeps(e1, dispatch);
    } else {
      QuitUnlocked(e, dispatch);
    }
  }

  lemma QuitUnlocked(e: Ep0, dispatch: Dispatch)
    requires Inv(e, dispatch) && TurnOnce(e, dispatch).1.Quit?
    ensures !TurnOnce(e, dispatch).0.cel
  {
    if e.setup.state == BD_DONE_OK && !StatusActs(e) && e.out.state != BD_DONE_ERR {
      SetupKeeps(e, dispatch);
    }
  }

  // ---- With the hardware -----------------------------------------------------------------------

  /** What happens to the endpoint. While it is locked the hardware completes nothing but errors, which
      is the lockout's own property. The engine may be polled, or be in the middle of a poll and take
      one turn of its loop. */
  datatype Happening =
    | SetupCame(q: Request)
    | SetupFailed
    | InSent
    | OutCame(b: seq<byte>)
    | OutFailed
    | StallSent(isIn: bool, len: nat)
    | Turned
    | Polled

  /** The hardware uses descriptors that are ready, and, but for errors, only while unlocked. A host
      writes no more than it announced, in packets of at most 64 bytes. */
  predicate Possible(e: Ep0, h: Happening) {
    match h
    case SetupCame(_) => !e.cel && e.setup.state == BD_RDY_DATA
    case SetupFailed => !e.cel && e.setup.state == BD_RDY_DATA
    case InSent => !e.cel && e.inn.state == BD_RDY_DATA
    case OutCame(b) =>
      !e.cel && e.out.state == BD_RDY_DATA && |b| <= PKT && (e.ctrl.DataOut? ==> e.x.ofs + |b| <= e.x.len)
    case OutFailed => e.out.state == BD_RDY_DATA || e.out.state == BD_RDY_STALL
    case StallSent(isIn, _) => !e.cel && (if isIn then e.inn else e.out).state == BD_RDY_STALL
    case _ => true
  }

  /** What the hardware decides for a locked control endpoint: whatever its descriptors hold, no
      packet moves through them, and the answer is NAK, STALL or nothing. */
  lemma LockedMovesNothing(s: Decision.Seen, pid: Nib, rx: Decision.Reception, reports: bool)
    requires s.locked && s.kind.Ordinary? && s.kind.control && IsToken(pid)
    ensures var v := Decision.Decide(pid, s, rx, reports);
            && !v.outcome.Completed? && !v.flips && !v.locks
            && v.response in {Decision.Silence, Decision.Handshake(PID_NAK), Decision.Handshake(PID_STALL)}
  {
  }

  /** One more packet in the latest request's record. */
  function Noted(records: seq<seq<seq<byte>>>, packet: seq<byte>): seq<seq<seq<byte>>> {
    if records == [] then records
    else records[..|records| - 1] + [records[|records| - 1] + [packet]]
  }

  /** The bytes the hardware stores: as many as the descriptor has room for. */
  function Storing(b: seq<byte>, len: nat): seq<byte> {
    if |b| <= len then b else b[..len]
  }

  /** A request's length in the buffer for SETUP packets. */
  const REQ_LEN := 8

  /** The bytes the hardware sends: as many of the buffer's as the descriptor says. */
  function Sending(e: Ep0): seq<byte> {
    if e.inn.len <= |e.tx| then e.tx[..e.inn.len] else e.tx
  }

  function Happen(e: Ep0, h: Happening, dispatch: Dispatch): Ep0
    requires Sane(e)
  {
    match h
    case SetupCame(q) =>
      e.(setup := Bd(BD_DONE_OK, true, 10), req := if REQ_LEN <= e.setup.len then q else e.req, cel := true,
         asked := e.asked + [q], came := e.came + [[]], went := e.went + [[]])
    case SetupFailed => e.(setup := Bd(BD_DONE_ERR, true, 0))
    case InSent => e.(inn := e.inn.(state := BD_DONE_OK), went := Noted(e.went, Sending(e)))
    case OutCame(b) => e.(out := Bd(BD_DONE_OK, false, |b| + 2), rx := Storing(b, e.out.len), came := Noted(e.came, b))
    case OutFailed => e.(out := e.out.(state := BD_DONE_ERR))
    case StallSent(isIn, len) =>
      if isIn then e.(inn := e.inn.(state := BD_DONE_OK)) else e.(out := Bd(BD_DONE_OK, false, len))
    case Turned => TurnOnce(e, dispatch).0
    case Polled => Poll(e, dispatch)
  }

  lemma SetupCameKeeps(e: Ep0, q: Request, dispatch: Dispatch)
    requires Inv(e, dispatch) && Possible(e, SetupCame(q))
    ensures Inv(Happen(e, SetupCame(q), dispatch), dispatch)
  {
    var e1 := Happen(e, SetupCame(q), dispatch);
    if e.handled > 0 {
      assert Hand(e1) == Hand(e) && Come(e1) == Come(e) && Gone(e1) == Gone(e);
    }
  }

  lemma InSentKeeps(e: Ep0, dispatch: Dispatch)
    requires Inv(e, dispatch) && Possible(e, InSent)
    ensures Inv(Happen(e, InSent, dispatch), dispatch)
  {
    var e1 := Happen(e, InSent, dispatch);
    assert Sending(e) == e.tx;
    assert Gone(e1) == Gone(e) + [e.tx] && Gone(e1) + [] == Gone(e1);
    assert Queued(e1) == Queued(e);
  }

  lemma OutCameKeeps(e: Ep0, b: seq<byte>, dispatch: Dispatch)
    requires Inv(e, dispatch) && Possible(e, OutCame(b))
    ensures Inv(Happen(e, OutCame(b), dispatch), dispatch)
  {
    var e1 := Happen(e, OutCame(b), dispatch);
    assert Come(e1) == Come(e) + [b];
    assert Taken(e1) == Come(e) && Taken(e) == Come(e);
  }

  lemma HappenKeeps(e: Ep0, h: Happening, dispatch: Dispatch)
    requires Inv(e, dispatch) && Possible(e, h)
    ensures Inv(Happen(e, h, dispatch), dispatch)
  {
    match h
    case SetupCame(q) => SetupCameKeeps(e, q, dispatch);
    case InSent => InSentKeeps(e, dispatch);
    case OutCame(b) => OutCameKeeps(e, b, dispatch);
    case OutFailed => OutChanged(e, Happen(e, h, dispatch), dispatch);
    case SetupFailed => SetupAgain(e, Bd(BD_DONE_ERR, true, 0), dispatch);
    case StallSent(isIn, len) => StallSentKeeps(e, isIn, len, dispatch);
    case Turned => TurnKeeps(e, dispatch);
    case Polled => PollKeeps(e, dispatch);
  }

  lemma StallSentKeeps(e: Ep0, isIn: bool, len: nat, dispatch: Dispatch)
    requires Inv(e, dispatch) && Possible(e, StallSent(isIn, len))
    ensures Inv(Happen(e, StallSent(isIn, len), dispatch), dispatch)
  {
    assert e.ctrl.Stall?;
  }

  predicate AllPossible(e: Ep0, hs: seq<Happening>, dispatch: Dispatch)
    requires Inv(e, dispatch)
    decreases |hs|
  {
    hs != [] ==>
      && Possible(e, hs[0])
      && (HappenKeeps(e, hs[0], dispatch); AllPossible(Happen(e, hs[0], dispatch), hs[1..], dispatch))
  }

  function Run(e: Ep0, hs: seq<Happening>, dispatch: Dispatch): Ep0
    requires Inv(e, dispatch) && AllPossible(e, hs, dispatch)
    decreases |hs|
  {
    if hs == [] then e else
      HappenKeeps(e, hs[0], dispatch);
      Run(Happen(e, hs[0], dispatch), hs[1..], dispatch)
  }

  lemma {:induction false} RunKeeps(e: Ep0, hs: seq<Happening>, dispatch: Dispatch)
    requires Inv(e, dispatch) && AllPossible(e, hs, dispatch)
    ensures Inv(Run(e, hs, dispatch), dispatch)
    decreases |hs|
  {
    if hs != [] {
      HappenKeeps(e, hs[0], dispatch);
      RunKeeps(Happen(e, hs[0], dispatch), hs[1..], dispatch);
    }
  }

  /** `usb_ep0_reset`: idle, nothing queued but a buffer for SETUP. */
  predicate Reset(e: Ep0) {
    && e.ctrl.Idle? && e.out == NO_BD && e.inn == NO_BD && e.setup == Ready(PKT) && !e.cel
    && e.x.ofs <= e.x.len <= |e.x.data| && e.handled == 0 && e.log == []
    && e.asked == [] && e.came == [] && e.went == []
  }

  lemma ResetInv(e: Ep0, dispatch: Dispatch)
    requires Reset(e)
    ensures Inv(e, dispatch)
  {
  }

  lemma QueuedPrefix(e: Ep0, n: nat)
    requires 0 < e.handled <= |e.went| && n <= |e.x.data| && Flat(Queued(e)) == e.x.data[..n]
    ensures IsPrefix(Flat(Gone(e)), e.x.data[..n])
    ensures e.inn.state != BD_RDY_DATA ==> Gone(e) == Queued(e)
  {
    FlatPrefix(Gone(e), Queued(e));
  }

  /** What a read may have put on the bus at any time: a beginning of its handler's data. */
  lemma SentSoFar(e: Ep0, dispatch: Dispatch)
    requires Inv(e, dispatch) && 0 < e.handled && Hand(e).read && Serves(Reply(e, dispatch), Hand(e))
    ensures var buf := Reply(e, dispatch).buf; IsPrefix(Flat(Gone(e)), buf[..Due(Hand(e), buf)])
  {
    var n := if e.ctrl.DataIn? then e.x.ofs else e.x.len;
    QueuedPrefix(e, n);
    assert e.x.data[..n] == e.x.data[..e.x.len][..n];
    var g := |Flat(Gone(e))|;
    assert e.x.data[..n][..g] == e.x.data[..e.x.len][..g];
  }

  /** In every interleaving of the hardware with the engine, for the request in hand, whatever its
      handler answered: a read puts nothing on the bus but its handler's data, and at its status stage
      all of it, up to the length asked for, has been queued as full packets and one for the rest, and
      is on the bus unless the last of them still waits; a write has at its status stage the packets
      that came in its handler's buffer, in order, of exactly the length announced, and the rest of the
      buffer untouched; every request is reported once, and every completion follows its own. */
  lemma StagesRight(e: Ep0, hs: seq<Happening>, dispatch: Dispatch)
    requires Reset(e) && Inv(e, dispatch) && AllPossible(e, hs, dispatch)
    ensures var r := Run(e, hs, dispatch);
            && |r.asked| == |r.came| == |r.went| && r.handled <= |r.asked|
            && Paired(r.log) && Answered(r.log) == r.handled
            && (r.ctrl.DataIn? || r.ctrl.StatusDoneOut? || r.ctrl.DataOut? || r.ctrl.StatusDoneIn? ==>
                  r.handled > 0 && Serves(Reply(r, dispatch), Hand(r)))
            && (r.handled > 0 && Serves(Reply(r, dispatch), Hand(r)) ==>
                  var q, buf := Hand(r), Reply(r, dispatch).buf;
                  && (q.read ==> IsPrefix(Flat(Gone(r)), buf[..Due(q, buf)]))
                  && (r.ctrl.StatusDoneOut? ==>
                        q.read && Chopped(Queued(r), buf[..Due(q, buf)])
                        && (r.inn.state != BD_RDY_DATA ==> Gone(r) == Queued(r)))
                  && (r.ctrl.StatusDoneIn? ==>
                        !q.read && r.x.data == Flat(Come(r)) + buf[q.wLength..] && |Flat(Come(r))| == q.wLength))
  {
    RunKeeps(e, hs, dispatch);
    var r := Run(e, hs, dispatch);
    if r.handled > 0 && Serves(Reply(r, dispatch), Hand(r)) {
      if Hand(r).read {
        SentSoFar(r, dispatch);
      }
      if r.ctrl.StatusDoneOut? {
        QueuedPrefix(r, r.x.len);
      }
      if r.ctrl.StatusDoneIn? {
        assert r.x.data == r.x.data[..r.x.len] + r.x.data[r.x.len..];
      }
    }
  }

  /** In every interleaving, a packet that moves through an IN or OUT descriptor moves for the latest
      SETUP the hardware has accepted: nothing queued for an earlier request is ever used. */
  lemma NothingStale(e: Ep0, hs: seq<Happening>, dispatch: Dispatch, h: Happening)
    requires Reset(e) && Inv(e, dispatch) && AllPossible(e, hs, dispatch)
    requires Possible(Run(e, hs, dispatch), h)
    ensures var r := Run(e, hs, dispatch);
            && (h.InSent? ==> r.inFor == |r.asked|)
            && (h.OutCame? ==> r.outFor == |r.asked|)
  {
    RunKeeps(e, hs, dispatch);
  }

  /** The last stage of the request in hand has taken place on the bus. */
  predicate StatusOver(e: Ep0) {
    (e.ctrl.StatusDoneIn? && e.inn.state == BD_DONE_OK) || (e.ctrl.StatusDoneOut? && e.out.state == BD_DONE_OK)
  }

  /** A status stage that has finished is reported by the next poll, once, and before a newer SETUP is
      handled. */
  lemma StatusReported(e: Ep0, dispatch: Dispatch)
    requires Inv(e, dispatch) && StatusOver(e)
    ensures var r := Poll(e, dispatch);
            if e.setup.state == BD_DONE_OK
            then r.handled == e.handled + 1 && exists ev: Event :: !ev.Completed? && r.log == e.log + [Completed] + [ev]
            else r.handled == e.handled && r.log == e.log + [Completed]
  {
    var e1 := StatusTurn(e);
    TurnDecreases(e, dispatch);
    TurnKeeps(e, dispatch);
    StatusFinished(e, dispatch);
    assert TurnOnce(e, dispatch) == (e1, Again);
    IdlePolled(e1, dispatch);
  }

  lemma StatusFinished(e: Ep0, dispatch: Dispatch)
    requires Inv(e, dispatch) && StatusOver(e)
    ensures var r := StatusTurn(e);
            && StatusActs(e) && r.ctrl.Idle? && r.log == e.log + [Completed] && r.setup == e.setup
            && r.out == NO_BD && r.handled == e.handled
  {
  }

  /** Polled while idle, the engine reports nothing but a new request. */
  lemma {:induction false} IdlePolled(e: Ep0, dispatch: Dispatch)
    requires Sane(e) && e.ctrl.Idle? && e.out == NO_BD
    ensures var r := Poll(e, dispatch);
            if e.setup.state == BD_DONE_OK
            then r.handled == e.handled + 1 && exists ev: Event :: !ev.Completed? && r.log == e.log + [ev]
            else r.handled == e.handled && r.log == e.log
    decreases Measure(e)
  {
    TurnDecreases(e, dispatch);
    var (e1, turn) := TurnOnce(e, dispatch);
    if e.setup.state == BD_DONE_OK {
      SetupLogs(e, dispatch);
    } else if turn.Again? {
      IdlePolled(e1, dispatch);
    }
  }

  lemma SetupLogs(e: Ep0, dispatch: Dispatch)
    ensures var r := HandleSetup(e, dispatch);
            r.handled == e.handled + 1 && exists ev: Event :: !ev.Completed? && r.log == e.log + [ev]
  {
    var r := HandleSetup(e, dispatch);
    assert r.log == e.log + [Handled] || r.log == e.log + [Stalled];
  }

  // ---- The engine in place ---------------------------------------------------------------------

  class Engine0 {
    var ctrl: CtrlState
    var setup: Bd
    var out: Bd
    var inn: Bd
    var cel: bool
    var req: Request
    var tx: seq<byte>
    var rx: seq<byte>
    var x: Xfer
    var log: seq<Event>
    var handled: nat
    ghost var inFor: nat
    ghost var outFor: nat
    ghost var asked: seq<Request>
    ghost var came: seq<seq<seq<byte>>>
    ghost var went: seq<seq<seq<byte>>>

    ghost function View(): Ep0
      reads this
    {
      Ep0(ctrl, setup, out, inn, cel, req, tx, rx, x, handled, inFor, outFor, log, asked, came, went)
    }

    method QueueInData(packet: seq<byte>)
      modifies this`inn, this`tx, this`inFor
      ensures View() == QueueIn(old(View()), packet)
    {
      tx := packet;
      inn := Bd(BD_RDY_DATA, false, |packet|);
      inFor := handled;
    }

    method QueueOutData()
      modifies this`out, this`outFor
      ensures View() == QueueOut(old(View()))
    {
      out := Bd(BD_RDY_DATA, false, PKT);
      outFor := handled;
    }

    method SendData()
      requires x.ofs <= x.len <= |x.data|
      modifies this
      ensures View() == SendNext(old(View()))
    {
      var n := x.len - x.ofs;
      if n > PKT {
        n := PKT;
      }
      var packet := x.data[x.ofs..x.ofs + n];
      QueueInData(packet);
      x := x.(ofs := x.ofs + n);
      if n < PKT {
        QueueOutData();
        ctrl := StatusDoneOut;
      }
    }

    method TakeData()
      requires Fits(View())
      modifies this
      ensures View() == TakeNext(old(View()))
    {
      var was := out.state;
      if was == BD_DONE_OK {
        var n := out.len - 2;
        x := x.(data := x.data[..x.ofs] + rx + x.data[x.ofs + n..], ofs := x.ofs + n);
        out := NO_BD;
      }
      if x.ofs == x.len {
        QueueInData([]);
        ctrl := StatusDoneIn;
      } else if was != BD_RDY_DATA {
        QueueOutData();
      }
    }

    /** `usb_handle_control_data` */
    method HandleControlData()
      requires ctrl.DataIn? ==> x.ofs <= x.len <= |x.data|
      requires ctrl.DataOut? ==> Fits(View())
      modifies this
      ensures View() == HandleData(old(View()))
    {
      if ctrl.DataIn? {
        SendData();
      } else if ctrl.DataOut? {
        TakeData();
      }
    }

    method OpenTransfer(buf: seq<byte>)
      modifies this`ctrl, this`x, this`log
      ensures View() == Open(old(View()), req, buf)
    {
      var len := |buf|;
      if req.wLength <= len {
        len := req.wLength;
      }
      x := Xfer.Xfer(buf, len, 0);
      ctrl := if req.read then DataIn else DataOut;
      log := log + [Handled];
    }

    /** `usb_handle_control_request` */
    method HandleControlRequest(dispatch: Dispatch)
      requires out == NO_BD
      modifies this
      ensures View() == HandleRequest(old(View()), dispatch)
    {
      var a := dispatch(handled, req);
      if a.Refused? || (req.wLength > |a.buf| && !req.read) {
        ctrl := Stall;
        inn := Bd(BD_RDY_STALL, false, 0);
        out := Bd(BD_RDY_STALL, false, 0);
        log := log + [Stalled];
      } else {
        OpenTransfer(a.buf);
        HandleControlData();
      }
    }

    method AcceptSetup(dispatch: Dispatch)
      modifies this
      ensures View() == HandleSetup(old(View()), dispatch)
    {
      ClearData();
      HandleControlRequest(dispatch);
      Release();
    }

    method ClearData()
      modifies this`out, this`inn, this`handled
      ensures View() == Emptied(old(View()))
    {
      out, inn, handled := NO_BD, NO_BD, handled + 1;
    }

    /** End the lockout, and allow a new SETUP. */
    method Release()
      modifies this`cel, this`setup
      ensures View() == Released(old(View()))
    {
      cel, setup := false, Bd(BD_RDY_DATA, false, PKT);
    }

    /** The status stages and the renewal of a STALL. */
    method FinishStatus() returns (acted: bool)
      modifies this`ctrl, this`inn, this`out, this`log
      ensures acted == StatusActs(old(View())) && View() == StatusTurn(old(View()))
    {
      acted := false;
      if ctrl.StatusDoneIn? {
        if inn.state == BD_DONE_OK {
          ctrl, inn, log, acted := Idle, NO_BD, log + [Completed], true;
        }
      } else if ctrl.StatusDoneOut? {
        if inn.state == BD_DONE_OK {
          inn, acted := NO_BD, true;
        }
        if out.state == BD_DONE_OK {
          ctrl, out, log, acted := Idle, NO_BD, log + [Completed], true;
        }
      } else if ctrl.Stall? {
        if inn.state != BD_RDY_STALL {
          inn, acted := Bd(BD_RDY_STALL, false, 0), true;
        }
        if out.state != BD_RDY_STALL {
          out, acted := Bd(BD_RDY_STALL, false, 0), true;
        }
      }
    }

    /** One turn of the loop: whether it acted, and whether it ended the poll. */
    method PollOnce(dispatch: Dispatch) returns (acted: bool)
      requires Sane(View())
      modifies this
      ensures var t := TurnOnce(old(View()), dispatch); View() == t.0 && acted == t.1.Again?
    {
      acted := FinishStatus();
      if acted {
        return;
      }
      if setup.state == BD_DONE_ERR {
        setup := Bd(BD_RDY_DATA, false, PKT);
        acted := true;
      } else if out.state == BD_DONE_ERR {
        QueueOutData();
        acted := true;
      } else if setup.state == BD_DONE_OK {
        AcceptSetup(dispatch);
      } else {
        acted := ProcessData();
      }
    }

    /** Packets that have come or gone in a data stage, or where none was due. */
    method ProcessData() returns (acted: bool)
      requires Sane(View())
      modifies this
      ensures View() == if old(out.state) == BD_DONE_OK then if old(ctrl).DataOut? then HandleData(old(View()))
        else old(View()).(out := NO_BD)
                        else if old(inn.state) == BD_DONE_OK then if old(ctrl).DataIn? then HandleData(old(View()))
                            else old(View()).(inn := NO_BD)
                        else old(View())
      ensures acted == (old(out.state) == BD_DONE_OK || old(inn.state) == BD_DONE_OK)
    {
      acted := out.state == BD_DONE_OK || inn.state == BD_DONE_OK;
      if out.state == BD_DONE_OK {
        if ctrl.DataOut? {
          HandleControlData();
        } else {
          out := NO_BD;
        }
      } else if inn.state == BD_DONE_OK {
        if ctrl.DataIn? {
          HandleControlData();
        } else {
          inn := NO_BD;
        }
      }
    }

    /** `usb_ep0_poll` */
    method PollAll(dispatch: Dispatch)
      requires Sane(View())
      modifies this
      ensures View() == Poll(old(View()), dispatch)
    {
      ghost var was := View();
      var acted := true;
      while acted
        invariant if acted then Sane(View()) && Poll(View(), dispatch) == Poll(was, dispatch)
          else View() == Poll(was, dispatch)
        decreases if acted then 1 + Measure(View()) else 0
      {
        TurnDecreases(View(), dispatch);
        acted := PollOnce(dispatch);
      }
    }
  }
}
