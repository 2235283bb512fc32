/** The DFU flash writer (fw/v0/src/usb_dfu.c): control requests fill a buffer, and a tick erases
    and programs the flash behind them. */
module Dfu {
  import opened Isa

  type byte = bv8

  datatype DfuState =
    | AppIdle | AppDetach | DfuIdle | DnloadSync | DnBusy | DnloadIdle
    | ManifestSync | Manifest | ManifestWaitReset | UploadIdle | DfuError

  datatype Request = Detach | Dnload | Upload | GetStatus | ClrStatus | GetState | Abort

  /** Which requests a state accepts. */
  predicate ValidReq(s: DfuState, q: Request) {
    match s
    case AppIdle => q.Detach? || q.GetStatus? || q.GetState?
    case AppDetach => q.GetStatus? || q.GetState?
    case DfuIdle => !q.ClrStatus?
    case DnloadSync => q.Dnload? || q.GetStatus? || q.GetState? || q.Abort?
    case DnloadIdle => q.Dnload? || q.GetStatus? || q.GetState? || q.Abort?
    case ManifestSync => q.GetStatus? || q.GetState? || q.Abort?
    case UploadIdle => q.Upload? || q.GetStatus? || q.GetState? || q.Abort?
    case DfuError => q.GetStatus? || q.ClrStatus? || q.GetState?
    case _ => false
  }

  // ---- An abstract flash -----------------------------------------------------------------------

  /** What has been done to a byte since the zone was selected. */
  datatype Mark = Untouched | Erased | Programmed

  datatype Cell = Cell(v: byte, mark: Mark)

  const BLANK: byte := 0xff
  const SECTOR := 4096
  const PAGE := 256

  /** Erasing sets every bit of a sector; programming can only clear bits. */
  function EraseCells(f: seq<Cell>, at: nat): (r: seq<Cell>)
    ensures |r| == |f|
  {
    seq(|f|, i requires 0 <= i < |f| => if at <= i < at + SECTOR then Cell(BLANK, Erased) else f[i])
  }

  function ProgramCells(f: seq<Cell>, at: nat, data: seq<byte>): (r: seq<Cell>)
    ensures |r| == |f|
  {
    seq(|f|, i requires 0 <= i < |f| => if at <= i < at + |data| then Cell(f[i].v & data[i - at], Programmed) else f[i])
  }

  /** Erase inside the zone, by whole sectors, and nothing programmed since the zone was selected. */
  predicate EraseAllowed(f: seq<Cell>, at: nat, start: nat, end: nat) {
    && at % SECTOR == 0 && start <= at && at + SECTOR <= end <= |f|
    && (forall i :: at <= i < at + SECTOR ==> !f[i].mark.Programmed?)
  }

  /** Program inside the zone and inside one page, bytes erased before and not programmed since. */
  predicate ProgramAllowed(f: seq<Cell>, at: nat, len: nat, start: nat, end: nat) {
    && 0 < len && at % PAGE + len <= PAGE && start <= at && at + len <= end <= |f|
    && (forall i :: at <= i < at + len ==> f[i].mark.Erased?)
  }

  function Values(f: seq<Cell>, from: nat, to: nat): seq<byte>
    requires from <= to <= |f|
  {
    seq(to - from, i requires 0 <= i < to - from => f[from + i].v)
  }

  // ---- The writer ------------------------------------------------------------------------------

  datatype Op = FlIdle | FlErase | FlProgram

  datatype Flash = Flash(addrRead: nat, addrProg: nat, addrErase: nat, addrEnd: nat, opOfs: nat, opLen: nat, op: Op)

  /** The writer and the flash it drives. `xfer` counts the bytes received of a block under way. For
      the record: where the zone starts, whether every command has been allowed, how many there were,
      what the host has sent of a block under way, and the blocks it has sent. */
  datatype Dfu = Dfu(
    state: DfuState, ok: bool, armed: bool, buf: seq<byte>, fl: Flash, xfer: Option<nat>,
    cells: seq<Cell>, start: nat, legal: bool, commands: nat, incoming: seq<byte>, accepted: seq<seq<byte>>)

  /** The next erase command. */
  function EraseNext(d: Dfu): Dfu {
    d.(cells := EraseCells(d.cells, d.fl.addrErase), fl := d.fl.(addrErase := d.fl.addrErase + SECTOR),
       legal := d.legal && EraseAllowed(d.cells, d.fl.addrErase, d.start, d.fl.addrEnd), commands := d.commands + 1)
  }

  function PageLen(fl: Flash): nat
    requires fl.opOfs <= fl.opLen
  {
    var l := fl.opLen - fl.opOfs;
    var pl := PAGE - (fl.addrProg + fl.opOfs) % PAGE;
    if l > pl then pl else l
  }

  /** The next program command: what is left of the block, as far as the page goes. */
  function ProgramNext(d: Dfu): Dfu
    requires d.fl.opOfs <= d.fl.opLen <= |d.buf|
  {
    var l := PageLen(d.fl);
    var at := d.fl.addrProg + d.fl.opOfs;
    d.(cells := ProgramCells(d.cells, at, d.buf[d.fl.opOfs..d.fl.opOfs + l]), fl := d.fl.(opOfs := d.fl.opOfs + l),
       legal := d.legal && ProgramAllowed(d.cells, at, l, d.start, d.fl.addrEnd), commands := d.commands + 1)
  }

  function ProgramDone(d: Dfu): Dfu {
    d.(fl := d.fl.(op := FlIdle, addrProg := d.fl.addrProg + d.fl.opLen), state := DnloadIdle, armed := true)
  }

  function TickProgram(d: Dfu): Dfu
    requires d.fl.opOfs <= d.fl.opLen <= |d.buf|
  {
    if !d.fl.op.FlProgram? || !d.state.DnloadSync? then d
    else if d.fl.opOfs == d.fl.opLen then ProgramDone(d)
    else ProgramNext(d)
  }

  /** One tick, at the start of a frame. */
  function Tick(d: Dfu, busy: bool): Dfu
    requires d.fl.opOfs <= d.fl.opLen <= |d.buf|
  {
    if d.fl.op.FlIdle? || busy then d
    else if d.fl.op.FlErase? then
      if d.fl.addrErase >= d.fl.addrProg + d.fl.opLen then TickProgram(d.(fl := d.fl.(op := FlProgram)))
      else EraseNext(d)
    else TickProgram(d)
  }

  function Error(d: Dfu): Dfu {
    d.(state := DfuError, ok := false)
  }

  /** A control request that is not of the vendor's; `len` is its wLength. Its SETUP ends a transfer
      that was under way: the block it was for is given up. */
  function Ask(d: Dfu, q: Request, len: nat): Dfu
    requires len <= |d.buf| && d.fl.addrRead <= d.fl.addrEnd <= |d.cells|
  {
    Handle(d.(xfer := None), q, len)
  }

  function Handle(d: Dfu, q: Request, len: nat): Dfu
    requires len <= |d.buf| && d.fl.addrRead <= d.fl.addrEnd <= |d.cells|
  {
    if !ValidReq(d.state, q) then Error(d)
    else match q
      case Detach => d
      case Dnload =>
        if len == 0 then d.(state := DfuIdle)
        else if d.fl.addrErase + len > d.fl.addrEnd then Error(d)
        else d.(xfer := Some(0), incoming := [], fl := d.fl.(opOfs := 0, opLen := len, op := FlErase))
      case Upload =>
        var n := ReadLen(d.fl, len);
        d.(buf := Values(d.cells, d.fl.addrRead, d.fl.addrRead + n) + d.buf[n..],
            fl := d.fl.(addrRead := d.fl.addrRead + n))
      case GetStatus =>
        if d.state.DnloadSync? && d.fl.op.FlIdle? then d.(state := DnloadIdle)
        else if d.state.ManifestSync? then d.(state := DfuIdle)
        else d
      case ClrStatus => d.(state := DfuIdle, ok := true)
      case GetState => d
      case Abort => d.(state := DfuIdle)
  }

  /** A state's number in DFU 1.1 section 6.1.2. */
  function Number(s: DfuState): byte {
    match s
    case AppIdle => 0
    case AppDetach => 1
    case DfuIdle => 2
    case DnloadSync => 3
    case DnBusy => 4
    case DnloadIdle => 5
    case ManifestSync => 6
    case Manifest => 7
    case ManifestWaitReset => 8
    case UploadIdle => 9
    case DfuError => 10
  }

  /** How many bytes an UPLOAD gets: as many as it asks for, up to the end of the zone. */
  function ReadLen(fl: Flash, len: nat): nat
    requires fl.addrRead <= fl.addrEnd
  {
    if fl.addrRead + len > fl.addrEnd then fl.addrEnd - fl.addrRead else len
  }

  /** What the data stage of a request returns to the host: flash, or the status with the time to wait
      before the next poll, or the state. */
  function Reply(d: Dfu, q: Request, len: nat): seq<byte>
    requires len <= |d.buf| && d.fl.addrRead <= d.fl.addrEnd <= |d.cells|
  {
    if !ValidReq(d.state, q) then []
    else match q
      case Upload => Values(d.cells, d.fl.addrRead, d.fl.addrRead + ReadLen(d.fl, len))
      case GetStatus =>
        var s := if d.state.DnloadSync? && !d.fl.op.FlIdle? then DnBusy else Ask(d, q, len).state;
        [if d.ok then 0 else ERR_UNKNOWN, POLL_MS, 0, 0, Number(s), 0]
      case GetState => [Number(d.state)]
      case _ => []
  }

  const ERR_UNKNOWN: byte := 14
  const POLL_MS: byte := 10

  /** Data of the block under way arrives, a packet at a time. */
  function Data(d: Dfu, packet: seq<byte>): Dfu
    requires d.xfer.Some? && d.xfer.value + |packet| <= |d.buf|
  {
    var at := d.xfer.value;
    d.(buf := d.buf[..at] + packet + d.buf[at + |packet|..], xfer := Some(at + |packet|),
        incoming := d.incoming + packet)
  }

  /** The transfer is complete: the block is accepted. */
  function DnloadDone(d: Dfu): Dfu {
    d.(state := DnloadSync, xfer := None, accepted := d.accepted + [d.incoming])
  }

  // ---- What always holds -----------------------------------------------------------------------

  function Flat(blocks: seq<seq<byte>>): seq<byte> {
    if blocks == [] then [] else Flat(blocks[..|blocks| - 1]) + blocks[|blocks| - 1]
  }

  /** How much of the block under way is in flash, if any. */
  function Partly(d: Dfu): nat {
    if d.fl.op.FlProgram? then d.fl.opOfs else 0
  }

  /** Addresses: sectors are erased ahead of what is programmed. */
  predicate Placed(d: Dfu) {
    && |d.buf| == 4096 && d.fl.opOfs <= d.fl.opLen <= 4096
    && d.start % SECTOR == 0 && d.fl.addrEnd % SECTOR == 0 && d.fl.addrErase % SECTOR == 0
    && d.start <= d.fl.addrRead <= d.fl.addrEnd <= |d.cells|
    && d.start <= d.fl.addrProg <= d.fl.addrErase <= d.fl.addrEnd
    && match d.fl.op
       case FlIdle => true
       case FlErase => d.fl.opOfs == 0 && 0 < d.fl.opLen && d.fl.addrProg + d.fl.opLen <= d.fl.addrEnd
       case FlProgram => 0 < d.fl.opLen && d.fl.addrProg + d.fl.opLen <= d.fl.addrErase
  }

  /** Marks: programmed up to the last byte written, erased from there to the last sector erased. */
  predicate Marked(d: Dfu)
    requires Placed(d)
  {
    && (forall i :: d.start <= i < d.fl.addrProg + Partly(d) ==> d.cells[i].mark.Programmed?)
    && (forall i :: d.fl.addrProg + Partly(d) <= i < d.fl.addrErase ==> d.cells[i] == Cell(BLANK, Erased))
    && (forall i :: d.fl.addrErase <= i < d.fl.addrEnd ==> d.cells[i].mark.Untouched?)
  }

  /** Blocks that are in flash in full: all but the one still being written. */
  function Written(d: Dfu): seq<seq<byte>> {
    if d.state.DnloadSync? && d.accepted != [] then d.accepted[..|d.accepted| - 1] else d.accepted
  }

  /** Contents: the blocks written, then what is programmed of the one in the buffer. */
  predicate Filled(d: Dfu)
    requires Placed(d)
  {
    && Values(d.cells, d.start, d.fl.addrProg) == Flat(Written(d))
    && Values(d.cells, d.fl.addrProg, d.fl.addrProg + Partly(d)) == d.buf[..Partly(d)]
    && (d.state.DnloadSync? ==> d.accepted != [] && d.accepted[|d.accepted| - 1] == d.buf[..d.fl.opLen])
  }

  /** The phases of a block: its data, then its writing. Outside them, a block that was given up may
      have left sectors being erased, but nothing programmed. */
  predicate Phased(d: Dfu) {
    && (d.state.DnloadSync? ==> d.xfer.None? && !d.fl.op.FlIdle?)
    && (!d.state.DnloadSync? ==> (d.xfer.Some? ==> !d.fl.op.FlIdle?) && (d.fl.op.FlProgram? ==> d.fl.opOfs == 0))
    && (d.xfer.Some? ==> d.xfer.value <= d.fl.opLen <= |d.buf| && d.buf[..d.xfer.value] == d.incoming)
  }

  ghost predicate Inv(d: Dfu) {
    Placed(d) && Marked(d) && Filled(d) && Phased(d) && d.legal
  }

  // ---- Ticks -----------------------------------------------------------------------------------

  lemma EraseKeeps(d: Dfu)
    requires Inv(d) && d.fl.op.FlErase? && d.fl.addrErase < d.fl.addrProg + d.fl.opLen
    ensures Inv(EraseNext(d))
  {
    var e := EraseNext(d);
    assert Placed(e);
    assert Values(e.cells, e.start, e.fl.addrProg) == Values(d.cells, d.start, d.fl.addrProg);
  }

  /** The next piece stays in the page, and in what is erased. */
  lemma PieceAllowed(d: Dfu) returns (l: nat)
    requires Inv(d) && d.fl.op.FlProgram? && d.state.DnloadSync? && d.fl.opOfs < d.fl.opLen
    ensures l == PageLen(d.fl) && d.fl.opOfs + l <= d.fl.opLen
    ensures ProgramAllowed(d.cells, d.fl.addrProg + d.fl.opOfs, l, d.start, d.fl.addrEnd)
  {
    l := PageLen(d.fl);
  }

  lemma ProgramMarks(d: Dfu, e: Dfu, l: nat)
    requires Placed(d) && Marked(d) && d.fl.op.FlProgram? && d.fl.opOfs + l <= d.fl.opLen
    requires e.cells == ProgramCells(d.cells, d.fl.addrProg + d.fl.opOfs, d.buf[d.fl.opOfs..d.fl.opOfs + l])
    requires e.fl == d.fl.(opOfs := d.fl.opOfs + l) && e.start == d.start && e.buf == d.buf
    ensures Placed(e) && Marked(e) && Values(e.cells, e.start, e.fl.addrProg) == Values(d.cells, d.start, d.fl.addrProg)
  {
    assert Placed(e);
  }

  lemma ProgramKeeps(d: Dfu)
    requires Inv(d) && d.fl.op.FlProgram? && d.state.DnloadSync? && d.fl.opOfs < d.fl.opLen
    ensures Inv(ProgramNext(d))
  {
    var e := ProgramNext(d);
    var l := PieceAllowed(d);
    ProgramMarks(d, e, l);
    ProgramValues(d, l);
    ProgramFilled(d, e, l);
  }

  lemma ProgramFilled(d: Dfu, e: Dfu, l: nat)
    requires Inv(d) && d.fl.op.FlProgram? && d.state.DnloadSync? && d.fl.opOfs + l <= d.fl.opLen
    requires e == d.(cells := e.cells, fl := d.fl.(opOfs := d.fl.opOfs + l), legal := true, commands := e.commands)
    requires Placed(e) && Values(e.cells, e.start, e.fl.addrProg) == Values(d.cells, d.start, d.fl.addrProg)
    requires Values(e.cells, d.fl.addrProg, d.fl.addrProg + d.fl.opOfs + l) == d.buf[..d.fl.opOfs + l]
    ensures Filled(e) && Phased(e)
  {
  }

  /** Programming an erased byte stores the data. */
  lemma ProgramValues(d: Dfu, l: nat)
    requires Placed(d) && Marked(d) && Filled(d) && d.fl.op.FlProgram? && d.fl.opOfs + l <= d.fl.opLen
    ensures var c := ProgramCells(d.cells, d.fl.addrProg + d.fl.opOfs, d.buf[d.fl.opOfs..d.fl.opOfs + l]);
            Values(c, d.fl.addrProg, d.fl.addrProg + d.fl.opOfs + l) == d.buf[..d.fl.opOfs + l]
  {
    var a, k := d.fl.addrProg, d.fl.opOfs;
    var data := d.buf[k..k + l];
    var c := ProgramCells(d.cells, a + k, data);
    PageStored(d.cells, a + k, data);
    ValuesCat(c, a, a + k, a + k + l);
    ValuesKept(d.cells, c, a, a + k);
    assert d.buf[..k] + data == d.buf[..k + l];
  }

  lemma ValuesKept(f: seq<Cell>, c: seq<Cell>, a: nat, b: nat)
    requires a <= b <= |f| == |c| && forall i :: a <= i < b ==> c[i] == f[i]
    ensures Values(c, a, b) == Values(f, a, b)
  {
  }

  /** Programming erased bytes stores the data. */
  lemma PageStored(f: seq<Cell>, at: nat, data: seq<byte>)
    requires at + |data| <= |f| && forall i :: at <= i < at + |data| ==> f[i].v == BLANK
    ensures Values(ProgramCells(f, at, data), at, at + |data|) == data
  {
    forall i | 0 <= i < |data| ensures ProgramCells(f, at, data)[at + i].v == data[i] {
      assert BLANK & data[i] == data[i];
    }
  }

  lemma ValuesCat(f: seq<Cell>, a: nat, b: nat, c: nat)
    requires a <= b <= c <= |f|
    ensures Values(f, a, c) == Values(f, a, b) + Values(f, b, c)
  {
  }

  lemma FlatSnoc(blocks: seq<seq<byte>>)
    requires blocks != []
    ensures Flat(blocks) == Flat(blocks[..|blocks| - 1]) + blocks[|blocks| - 1]
  {
  }

  lemma DoneKeeps(d: Dfu)
    requires Inv(d) && d.fl.op.FlProgram? && d.state.DnloadSync? && d.fl.opOfs == d.fl.opLen
    ensures Inv(ProgramDone(d))
  {
    var e := ProgramDone(d);
    ValuesCat(d.cells, d.start, d.fl.addrProg, d.fl.addrProg + d.fl.opLen);
    FlatSnoc(d.accepted);
    DoneFilled(d, e);
  }

  lemma DoneFilled(d: Dfu, e: Dfu)
    requires Inv(d) && d.fl.op.FlProgram? && d.state.DnloadSync? && d.fl.opOfs == d.fl.opLen && e == ProgramDone(d)
    requires Values(d.cells, d.start, e.fl.addrProg)
      == Values(d.cells, d.start, d.fl.addrProg) + Values(d.cells, d.fl.addrProg, e.fl.addrProg)
    requires d.accepted != [] && Flat(d.accepted) == Flat(d.accepted[..|d.accepted| - 1]) + d.accepted[|d.accepted| - 1]
    ensures Placed(e) && Marked(e) && Filled(e) && Phased(e) && e.legal
  {
    assert Placed(e);
    assert e.buf[..0] == [] && Values(e.cells, e.fl.addrProg, e.fl.addrProg) == [];
  }

  lemma TickKeeps(d: Dfu, busy: bool)
    requires Inv(d)
    ensures Inv(Tick(d, busy))
    ensures Tick(d, busy).commands <= d.commands + (if busy then 0 else 1)
  {
    if !d.fl.op.FlIdle? && !busy {
      if d.fl.op.FlErase? && d.fl.addrErase < d.fl.addrProg + d.fl.opLen {
        EraseKeeps(d);
      } else {
        var d1 := d.(fl := d.fl.(op := FlProgram));
        ErasedKeeps(d);
        if d1.state.DnloadSync? {
          if d1.fl.opOfs == d1.fl.opLen {
            DoneKeeps(d1);
          } else {
            ProgramKeeps(d1);
          }
        }
      }
    }
  }

  /** All is erased that needs to be: programming may begin. */
  lemma ErasedKeeps(d: Dfu)
    requires Inv(d) && !d.fl.op.FlIdle? && (d.fl.op.FlErase? ==> d.fl.addrErase >= d.fl.addrProg + d.fl.opLen)
    ensures Inv(d.(fl := d.fl.(op := FlProgram)))
  {
    var d1 := d.(fl := d.fl.(op := FlProgram));
    assert Placed(d1);
  }

  // ---- Requests --------------------------------------------------------------------------------

  /** The host waits for dfuDNLOAD_IDLE: while a block is written it only asks for the status or the
      state (DFU 1.1 section 6.1); blocks are at most 4096 bytes. It may give up a block whose data it is
      still sending. */
  predicate Patient(d: Dfu, q: Request, len: nat) {
    len <= 4096 && (d.state.DnloadSync? ==> q.GetStatus? || q.GetState?)
  }

  /** Outside dfuDNLOAD_SYNC, other states are only names. */
  lemma StateKeeps(d: Dfu, state: DfuState, ok: bool)
    requires Inv(d) && !d.state.DnloadSync? && !state.DnloadSync?
    ensures Inv(d.(state := state, ok := ok))
  {
    assert Placed(d.(state := state, ok := ok));
  }

  lemma AskKeeps(d: Dfu, q: Request, len: nat)
    requires Inv(d) && Patient(d, q, len)
    ensures Inv(Ask(d, q, len))
  {
    var d0 := d.(xfer := None);
    assert Placed(d0) && Inv(d0);
    if d.state.DnloadSync? {
      assert Handle(d0, q, len) == d0;
    } else {
      HandleKeeps(d0, q, len);
    }
  }

  lemma HandleKeeps(d: Dfu, q: Request, len: nat)
    requires Inv(d) && d.xfer.None? && len <= 4096 && !d.state.DnloadSync?
    ensures Inv(Handle(d, q, len))
  {
    var e := Handle(d, q, len);
    if q.Dnload? && ValidReq(d.state, q) && len > 0 && d.fl.addrErase + len <= d.fl.addrEnd {
      DnloadKeeps(d, len);
    } else if q.Upload? && ValidReq(d.state, q) {
      UploadKeeps(d, len);
    } else {
      StateKeeps(d, e.state, e.ok);
      assert e == d.(state := e.state, ok := e.ok);
    }
  }

  lemma DnloadKeeps(d: Dfu, len: nat)
    requires Inv(d) && d.xfer.None? && !d.state.DnloadSync? && 0 < len <= 4096 && d.fl.addrErase + len <= d.fl.addrEnd
    ensures Inv(d.(xfer := Some(0), incoming := [], fl := d.fl.(opOfs := 0, opLen := len, op := FlErase)))
  {
    var e := d.(xfer := Some(0), incoming := [], fl := d.fl.(opOfs := 0, opLen := len, op := FlErase));
    assert Placed(e);
  }

  lemma UploadKeeps(d: Dfu, len: nat)
    requires Inv(d) && d.xfer.None? && !d.state.DnloadSync? && len <= 4096 && ValidReq(d.state, Upload)
    ensures Inv(Handle(d, Upload, len))
  {
    var e := Handle(d, Upload, len);
    assert Placed(e);
    assert d.buf[..0] == e.buf[..0];
  }

  lemma DataKeeps(d: Dfu, packet: seq<byte>)
    requires Inv(d) && d.xfer.Some? && d.xfer.value + |packet| <= d.fl.opLen
    ensures Inv(Data(d, packet))
  {
    var e := Data(d, packet);
    assert Placed(e);
    assert d.buf[..0] == e.buf[..0];
  }

  lemma AcceptKeeps(d: Dfu)
    requires Inv(d) && d.xfer == Some(d.fl.opLen)
    ensures Inv(DnloadDone(d))
  {
    var e := DnloadDone(d);
    assert Placed(e);
    assert e.accepted[..|d.accepted|] == d.accepted;
  }

  // ---- Whole downloads -------------------------------------------------------------------------

  /** A tick in some frame; a request; a packet of a block's data; the end of its transfer. */
  datatype Event = Frame(busy: bool) | Asked(q: Request, len: nat) | Packet(data: seq<byte>) | Finished

  predicate Possible(d: Dfu, ev: Event) {
    match ev
    case Frame(_) => true
    case Asked(q, len) => Patient(d, q, len)
    case Packet(data) => d.xfer.Some? && d.xfer.value + |data| <= d.fl.opLen
    case Finished => d.xfer == Some(d.fl.opLen)
  }

  /** What the code itself relies on: a block fits the buffer, and the zone is in flash. */
  predicate Shaped(d: Dfu) {
    && |d.buf| == 4096 && d.fl.opOfs <= d.fl.opLen <= 4096 && d.fl.addrRead <= d.fl.addrEnd <= |d.cells|
    && (d.xfer.Some? ==> d.xfer.value <= d.fl.opLen)
  }

  function Happen(d: Dfu, ev: Event): Dfu
    requires Shaped(d) && Possible(d, ev)
  {
    match ev
    case Frame(busy) => Tick(d, busy)
    case Asked(q, len) => Ask(d, q, len)
    case Packet(data) => Data(d, data)
    case Finished => DnloadDone(d)
  }

  /** Nothing outside the zone changes, nor the zone. */
  predicate SameOutside(d: Dfu, e: Dfu) {
    && e.start == d.start && e.fl.addrEnd == d.fl.addrEnd && |e.cells| == |d.cells|
    && (forall i :: 0 <= i < |d.cells| && !(d.start <= i < d.fl.addrEnd) ==> e.cells[i] == d.cells[i])
  }

  lemma FrameKeeps(d: Dfu, busy: bool)
    requires Inv(d)
    ensures Inv(Tick(d, busy)) && SameOutside(d, Tick(d, busy))
  {
    TickKeeps(d, busy);
    TickInside(d, busy);
  }

  lemma AskInside(d: Dfu, q: Request, len: nat)
    requires Shaped(d) && Patient(d, q, len)
    ensures var e := Ask(d, q, len); e.cells == d.cells && e.start == d.start && e.fl.addrEnd == d.fl.addrEnd
  {
  }

  lemma HappenKeeps(d: Dfu, ev: Event)
    requires Inv(d) && Possible(d, ev)
    ensures Inv(Happen(d, ev)) && SameOutside(d, Happen(d, ev))
  {
    match ev
    case Frame(busy) => FrameKeeps(d, busy);
    case Asked(q, len) =>
      AskKeeps(d, q, len);
      AskInside(d, q, len);
    case Packet(data) => DataKeeps(d, data);
    case Finished => AcceptKeeps(d);
  }

  lemma ProgramInside(d: Dfu)
    requires Inv(d) && d.fl.op.FlProgram?
    ensures SameOutside(d, TickProgram(d))
  {
    if d.state.DnloadSync? && d.fl.opOfs < d.fl.opLen {
      var l := PieceAllowed(d);
    }
  }

  lemma TickInside(d: Dfu, busy: bool)
    requires Inv(d)
    ensures SameOutside(d, Tick(d, busy))
  {
    if d.fl.op.FlProgram? {
      ProgramInside(d);
    } else if d.fl.op.FlErase? && d.fl.addrErase >= d.fl.addrProg + d.fl.opLen {
      ErasedKeeps(d);
      ProgramInside(d.(fl := d.fl.(op := FlProgram)));
    }
  }

  lemma PageShape(d: Dfu)
    requires Shaped(d) && d.fl.opOfs < d.fl.opLen
    ensures Shaped(ProgramNext(d))
  {
    assert PageLen(d.fl) <= d.fl.opLen - d.fl.opOfs;
  }

  lemma TickShape(d: Dfu, busy: bool)
    requires Shaped(d)
    ensures Shaped(Tick(d, busy))
  {
    if d.fl.opOfs < d.fl.opLen {
      PageShape(d.(fl := d.fl.(op := FlProgram)));
    }
  }

  lemma AskShape(d: Dfu, q: Request, len: nat)
    requires Shaped(d) && Patient(d, q, len)
    ensures Shaped(Ask(d, q, len))
  {
  }

  lemma DataShape(d: Dfu, packet: seq<byte>)
    requires Shaped(d) && d.xfer.Some? && d.xfer.value + |packet| <= d.fl.opLen
    ensures Shaped(Data(d, packet))
  {
  }

  lemma HappenShape(d: Dfu, ev: Event)
    requires Shaped(d) && Possible(d, ev)
    ensures Shaped(Happen(d, ev))
  {
    match ev
    case Frame(busy) => TickShape(d, busy);
    case Asked(q, len) => AskShape(d, q, len);
    case Packet(data) => DataShape(d, data);
    case Finished =>
  }

  predicate AllPossible(d: Dfu, evs: seq<Event>)
    requires Shaped(d)
    decreases |evs|
  {
    evs != [] ==> Possible(d, evs[0]) && (HappenShape(d, evs[0]); AllPossible(Happen(d, evs[0]), evs[1..]))
  }

  function Run(d: Dfu, evs: seq<Event>): (r: Dfu)
    requires Shaped(d) && AllPossible(d, evs)
    ensures Shaped(r)
    decreases |evs|
  {
    if evs == [] then d else
      HappenShape(d, evs[0]);
      Run(Happen(d, evs[0]), evs[1..])
  }

  lemma {:induction false} RunKeeps(d: Dfu, evs: seq<Event>)
    requires Inv(d) && AllPossible(d, evs)
    ensures Inv(Run(d, evs)) && SameOutside(d, Run(d, evs))
    decreases |evs|
  {
    if evs != [] {
      HappenKeeps(d, evs[0]);
      HappenShape(d, evs[0]);
      RunKeeps(Happen(d, evs[0]), evs[1..]);
    }
  }

  /** A new zone, a new record of what is done to it. */
  function Unmarked(f: seq<Cell>): (r: seq<Cell>)
    ensures |r| == |f| && forall i :: 0 <= i < |f| ==> r[i] == Cell(f[i].v, Untouched)
  {
    seq(|f|, i requires 0 <= i < |f| => Cell(f[i].v, Untouched))
  }

  /** Selecting a zone leaves a flash operation and a block's transfer under way as they are. */
  function Select(d: Dfu, from: nat, to: nat): Dfu {
    d.(state := DfuIdle, fl := d.fl.(addrRead := from, addrProg := from, addrErase := from, addrEnd := to),
       cells := Unmarked(d.cells), start := from, legal := true, commands := 0, accepted := [])
  }

  /** `_dfu_set_intf`: a zone of whole sectors has just been selected. */
  predicate Selected(d: Dfu) {
    && d.state.DfuIdle? && d.fl.op.FlIdle? && d.xfer.None? && |d.buf| == 4096 && d.fl.opOfs <= d.fl.opLen <= 4096
    && d.start % SECTOR == 0 && d.fl.addrEnd % SECTOR == 0 && d.start <= d.fl.addrEnd <= |d.cells|
    && d.fl.addrRead == d.start && d.fl.addrProg == d.start && d.fl.addrErase == d.start
    && (forall i :: d.start <= i < d.fl.addrEnd ==> d.cells[i].mark.Untouched?)
    && d.legal && d.accepted == []
  }

  /** With none under way, a download may begin, and no byte of the flash has changed. */
  lemma SelectStarts(d: Dfu, from: nat, to: nat)
    requires d.fl.op.FlIdle? && d.xfer.None? && |d.buf| == 4096 && d.fl.opOfs <= d.fl.opLen <= 4096
    requires from % SECTOR == 0 && to % SECTOR == 0 && from <= to <= |d.cells|
    ensures var r := Select(d, from, to);
            Selected(r) && Inv(r) && Values(r.cells, 0, |r.cells|) == Values(d.cells, 0, |d.cells|)
  {
    SelectedInv(Select(d, from, to));
  }

  lemma SelectedInv(d: Dfu)
    requires Selected(d)
    ensures Inv(d)
  {
    assert Values(d.cells, d.start, d.start) == [];
    assert d.buf[..0] == [];
  }

  /** However requests, packets, ticks and the flash's own pace interleave: unless a block is still
      being written, the zone begins with exactly the blocks the host has sent, end to end; every
      command so far was allowed (erased before programmed, never erased after, inside the zone and
      the page), and nothing outside the zone has changed. */
  lemma DownloadStored(d: Dfu, evs: seq<Event>)
    requires Selected(d) && Inv(d) && AllPossible(d, evs)
    ensures var r := Run(d, evs);
            && r.legal && SameOutside(d, r)
            && (!r.state.DnloadSync? ==> Placed(r) && Values(r.cells, r.start, r.fl.addrProg) == Flat(r.accepted))
  {
    RunKeeps(d, evs);
  }

  /** The requests each state takes by DFU 1.1 appendix A.2, those of the runtime mode included. */
  predicate Standard(s: DfuState, q: Request) {
    match q
    case GetStatus => !s.DnBusy? && !s.Manifest? && !s.ManifestWaitReset?
    case GetState => !s.DnBusy? && !s.Manifest? && !s.ManifestWaitReset?
    case Detach => s.AppIdle?
    case Dnload => s.DfuIdle? || s.DnloadIdle?
    case Upload => s.DfuIdle? || s.UploadIdle?
    case Abort => s.DfuIdle? || s.DnloadIdle? || s.UploadIdle?
    case ClrStatus => s.DfuError?
  }

  /** And those the code takes beyond that. */
  predicate Extra(s: DfuState, q: Request) {
    (q.Detach? && s.DfuIdle?) || (q.Dnload? && s.DnloadSync?) || (q.Abort? && (s.DnloadSync? || s.ManifestSync?))
  }

  /** A request leads to dfuERROR if and only if its state does not take it, or it is a block that does not
      fit; no block is under way then, and the flash is as it was. Of that state only CLRSTATUS leads out. */
  lemma RefusedExactly(d: Dfu, q: Request, len: nat)
    requires Shaped(d) && len <= 4096
    ensures var e := Ask(d, q, len);
            && (e.state.DfuError? <==>
                  || !(Standard(d.state, q) || Extra(d.state, q))
                  || (q.Dnload? && 0 < len && d.fl.addrEnd < d.fl.addrErase + len)
                  || (d.state.DfuError? && !q.ClrStatus?))
            && (e.state.DfuError? && !d.state.DfuError? ==> !e.ok && e.xfer.None? && e.cells == d.cells && e.fl == d.fl)
            && (d.state.DfuError? && q.ClrStatus? ==> e.state.DfuIdle? && e.ok)
  {
  }

  /** Where a request that is taken leads: ABORT, CLRSTATUS, an empty DNLOAD and a finished manifestation to
      dfuIDLE, a finished block to dfuDNLOAD_IDLE, anything else nowhere; and only DNLOAD touches the flash
      writer, only UPLOAD the place to read from. */
  lemma StateFollows(d: Dfu, q: Request, len: nat)
    requires Shaped(d) && len <= 4096 && (Standard(d.state, q) || Extra(d.state, q))
    requires q.Dnload? ==> d.fl.addrErase + len <= d.fl.addrEnd
    ensures var e := Ask(d, q, len);
            && e.state == (if q.Abort? || q.ClrStatus? || (q.Dnload? && len == 0)
                              || (q.GetStatus? && d.state.ManifestSync?) then DfuIdle
                           else if q.GetStatus? && d.state.DnloadSync? && d.fl.op.FlIdle? then DnloadIdle
                           else d.state)
            && e.ok == (d.ok || q.ClrStatus?) && e.cells == d.cells && e.accepted == d.accepted
            && (q.Dnload? && len > 0 <==> e.xfer.Some?)
            && (!q.Dnload? && !q.Upload? ==> e.fl == d.fl && e.buf == d.buf)
  {
  }

  /** When a block is accepted: if and only if the zone has as many bytes left that have not been erased
      yet, which are those behind the last sector erased. If not the writer goes to dfuERROR, though the
      block might still fit behind what is programmed. */
  lemma AcceptedExactly(d: Dfu, len: nat)
    requires Inv(d) && (d.state.DfuIdle? || d.state.DnloadIdle?) && 0 < len <= 4096
    ensures forall i :: d.start <= i < d.fl.addrEnd ==> (d.cells[i].mark.Untouched? <==> d.fl.addrErase <= i)
    ensures var e := Ask(d, Dnload, len);
            if d.fl.addrErase + len <= d.fl.addrEnd then e.xfer == Some(0) && e.state == d.state
            else e.xfer.None? && e.state.DfuError? && e.cells == d.cells
  {
  }

  /** So once the zone's last sector has been erased every block is refused, also one that fits. */
  lemma LastSectorRefuses(d: Dfu, len: nat)
    requires Inv(d) && (d.state.DfuIdle? || d.state.DnloadIdle?) && 0 < len <= 4096
    requires d.fl.addrEnd - SECTOR < d.fl.addrProg && d.fl.addrProg + len <= d.fl.addrEnd
    ensures Ask(d, Dnload, len).state.DfuError?
  {
    AcceptedExactly(d, len);
    LastSector(d.fl.addrErase, d.fl.addrEnd, d.fl.addrProg);
  }

  lemma LastSector(erase: nat, end: nat, prog: nat)
    requires erase % SECTOR == 0 && end % SECTOR == 0 && end - SECTOR < prog <= erase <= end
    ensures erase == end
  {
  }

  /** The sectors that some bytes still need, and the pages they lie in. */
  function Sectors(erased: nat, end: nat): nat {
    if erased < end then (end - erased + SECTOR - 1) / SECTOR else 0
  }

  function Pages(from: nat, end: nat): nat {
    if from < end then (end - 1) / PAGE - from / PAGE + 1 else 0
  }

  /** The ticks still needed for the block under way: one for each sector to erase, one for each page that
      some of it is still to be programmed in, and one to notice that it is done. */
  function Work(d: Dfu): nat
    requires Placed(d)
  {
    var end := d.fl.addrProg + d.fl.opLen;
    match d.fl.op
    case FlIdle => 0
    case FlErase => Sectors(d.fl.addrErase, end) + Pages(d.fl.addrProg, end) + 1
    case FlProgram => Pages(d.fl.addrProg + d.fl.opOfs, end) + 1
  }

  lemma SectorDone(erased: nat, end: nat)
    requires erased < end
    ensures Sectors(erased + SECTOR, end) == Sectors(erased, end) - 1
  {
  }

  lemma PageDone(from: nat, end: nat, l: nat)
    requires from < end && l == if end - from > PAGE - from % PAGE then PAGE - from % PAGE else end - from
    ensures Pages(from + l, end) == Pages(from, end) - 1
  {
  }

  /** Once a block's transfer is over, every tick that finds the flash ready does exactly one step of the
      work, and dfuDNLOAD_IDLE is reached when none is left. */
  lemma TickProgresses(d: Dfu)
    requires Inv(d) && d.state.DnloadSync?
    ensures Placed(Tick(d, false)) && Work(Tick(d, false)) == Work(d) - 1
    ensures Work(Tick(d, false)) == 0 <==> Tick(d, false).state.DnloadIdle?
  {
    TickKeeps(d, false);
    if d.fl.op.FlErase? && d.fl.addrErase < d.fl.addrProg + d.fl.opLen {
      EraseProgresses(d);
    } else {
      ProgramProgresses(d.(fl := d.fl.(op := FlProgram)));
      hide TickProgram, Sectors, Pages;
    }
  }

  lemma EraseProgresses(d: Dfu)
    requires Placed(d) && d.state.DnloadSync? && d.fl.op.FlErase? && d.fl.addrErase < d.fl.addrProg + d.fl.opLen
    ensures var e := EraseNext(d); Placed(e) ==> Work(e) == Work(d) - 1 && Work(e) > 0 && e.state.DnloadSync?
  {
    SectorDone(d.fl.addrErase, d.fl.addrProg + d.fl.opLen);
    hide Sectors, Pages, EraseCells;
  }

  lemma ProgramProgresses(d: Dfu)
    requires Placed(d) && d.state.DnloadSync? && d.fl.op.FlProgram?
    ensures var e := TickProgram(d);
            Placed(e) ==> Work(e) == Work(d) - 1 && (Work(e) == 0 <==> e.state.DnloadIdle?)
  {
    if d.fl.opOfs < d.fl.opLen {
      PageDone(d.fl.addrProg + d.fl.opOfs, d.fl.addrProg + d.fl.opLen, PageLen(d.fl));
    } else {
      assert Pages(d.fl.addrProg + d.fl.opOfs, d.fl.addrProg + d.fl.opLen) == 0;
    }
    hide Pages, ProgramCells, PageLen;
  }

  // ---- A host that does not wait ---------------------------------------------------------------

  /** dfuDNLOAD_SYNC accepts ABORT: the block being written is given up, and no longer counted as sent. */
  function GivenUp(d: Dfu): Dfu
    requires d.accepted != [] && d.fl.addrRead <= d.fl.addrEnd <= |d.cells|
  {
    Ask(d, Abort, 0).(accepted := d.accepted[..|d.accepted| - 1])
  }

  lemma GivenUpInv(d: Dfu)
    requires Inv(d) && d.state.DnloadSync? && Partly(d) == 0
    ensures d.accepted != [] && Inv(GivenUp(d))
  {
    var e := GivenUp(d);
    assert e == d.(state := DfuIdle, accepted := e.accepted);
    assert Placed(e);
  }

  /** If nothing of that block has been programmed, nothing is broken: whatever follows, every command
      is allowed, and the zone begins with the blocks sent, less the one given up. */
  lemma AbortBeforeProgramming(d: Dfu, evs: seq<Event>)
    requires Inv(d) && d.state.DnloadSync? && Partly(d) == 0
    requires d.accepted != [] && Shaped(d) && Shaped(GivenUp(d)) && AllPossible(GivenUp(d), evs)
    ensures var r := Run(GivenUp(d), evs);
            && r.legal && SameOutside(d, r)
            && (!r.state.DnloadSync? ==> Placed(r) && Values(r.cells, r.start, r.fl.addrProg) == Flat(r.accepted))
  {
    GivenUpInv(d);
    RunKeeps(GivenUp(d), evs);
  }

  /** The next byte to program is programmed already; no block is under way but one that was given up,
      or one of which nothing has been programmed. */
  predicate Spoiled(d: Dfu, at: nat) {
    && Shaped(d) && d.fl.addrProg == at < |d.cells| && d.cells[at].mark.Programmed?
    && (!d.fl.op.FlIdle? ==> 0 < d.fl.opLen)
    && (!d.fl.op.FlIdle? && d.fl.opOfs > 0 ==> d.fl.op.FlProgram? && !d.state.DnloadSync? && d.xfer.None?)
  }

  lemma SpoiledErase(d: Dfu, at: nat)
    requires Spoiled(d, at) && d.fl.op.FlErase?
    ensures var r := EraseNext(d); Shaped(r) && (r.legal ==> Spoiled(r, at))
  {
    assert EraseAllowed(d.cells, d.fl.addrErase, d.start, d.fl.addrEnd) ==>
        !(d.fl.addrErase <= at < d.fl.addrErase + SECTOR);
  }

  lemma SpoiledProgram(d: Dfu, at: nat)
    requires Spoiled(d, at) && d.fl.op.FlProgram?
    ensures var r := TickProgram(d); Shaped(r) && (r.legal ==> Spoiled(r, at))
  {
    if d.state.DnloadSync? {
      assert d.fl.opOfs < d.fl.opLen && !ProgramAllowed(d.cells, at, PageLen(d.fl), d.start, d.fl.addrEnd);
    }
  }

  lemma SpoiledTick(d: Dfu, busy: bool, at: nat)
    requires Spoiled(d, at)
    ensures var r := Tick(d, busy); Shaped(r) && (r.legal ==> Spoiled(r, at))
  {
    if d.fl.op.FlErase? && d.fl.addrErase < d.fl.addrProg + d.fl.opLen {
      SpoiledErase(d, at);
    } else if !d.fl.op.FlIdle? {
      SpoiledProgram(d.(fl := d.fl.(op := FlProgram)), at);
    }
  }

  lemma SpoiledAsk(d: Dfu, q: Request, len: nat, at: nat)
    requires Spoiled(d, at) && Patient(d, q, len)
    ensures Spoiled(Ask(d, q, len), at)
  {
  }

  lemma SpoiledEvent(d: Dfu, ev: Event, at: nat)
    requires Spoiled(d, at) && Possible(d, ev)
    ensures var r := Happen(d, ev); Shaped(r) && (r.legal ==> Spoiled(r, at))
  {
    match ev
    case Frame(busy) => SpoiledTick(d, busy, at);
    case Asked(q, len) => SpoiledAsk(d, q, len, at);
    case Packet(data) => DataShape(d, data);
    case Finished =>
  }

  /** A command that was not allowed is never taken back. */
  lemma {:induction false} NeverForgiven(d: Dfu, evs: seq<Event>)
    requires Shaped(d) && !d.legal && AllPossible(d, evs)
    ensures !Run(d, evs).legal
    decreases |evs|
  {
    if evs != [] {
      HappenShape(d, evs[0]);
      NeverForgiven(Happen(d, evs[0]), evs[1..]);
    }
  }

  lemma {:induction false} SpoiledRun(d: Dfu, evs: seq<Event>, at: nat)
    requires Spoiled(d, at) && AllPossible(d, evs)
    ensures Run(d, evs).legal ==> Spoiled(Run(d, evs), at)
    decreases |evs|
  {
    if evs != [] {
      var r := Happen(d, evs[0]);
      SpoiledEvent(d, evs[0], at);
      HappenShape(d, evs[0]);
      if r.legal {
        SpoiledRun(r, evs[1..], at);
      } else {
        NeverForgiven(r, evs[1..]);
      }
    }
  }

  /** If some of it has been programmed, everything is: whatever follows in this zone, no block is
      stored any more without a command that is not allowed. */
  lemma AbortWhileProgramming(d: Dfu, evs: seq<Event>)
    requires Inv(d) && d.state.DnloadSync? && Partly(d) > 0
    requires d.accepted != [] && Shaped(d) && Shaped(GivenUp(d)) && AllPossible(GivenUp(d), evs)
    ensures var r := Run(GivenUp(d), evs); r.legal ==> r.fl.addrProg == d.fl.addrProg
  {
    SpoiledRun(GivenUp(d), evs, d.fl.addrProg);
  }

  /** The block is sent again at once: its first page is programmed as it should be if and only if
      nothing of it was programmed before. */
  lemma ResendAfterAbort(d: Dfu, data: seq<byte>)
    requires Inv(d) && d.state.DnloadSync? && d.fl.op.FlProgram?
    requires |data| == d.fl.opLen && d.fl.addrErase + |data| <= d.fl.addrEnd
    ensures ValidReq(d.state, Abort)
    ensures var d1 := Ask(Ask(d, Abort, 0), Dnload, |data|);
            && d1.xfer == Some(0) && |data| <= |d1.buf|
            && var d2 := DnloadDone(Data(d1, data));
               d2.fl.opLen <= |d2.buf| && d2.fl.opOfs == 0 && (Tick(d2, false).legal <==> d.fl.opOfs == 0)
  {
    var d1 := Ask(Ask(d, Abort, 0), Dnload, |data|);
    assert d1 == d.(state := DfuIdle, xfer := Some(0), incoming := [],
        fl := d.fl.(opOfs := 0, opLen := |data|, op := FlErase));
    var d2 := DnloadDone(Data(d1, data));
    var d3 := d2.(fl := d2.fl.(op := FlProgram));
    assert Tick(d2, false) == TickProgram(d3) && TickProgram(d3) == ProgramNext(d3);
    FirstPage(d, d3);
  }

  /** The first page of a block may be programmed if and only if none of it has been. */
  lemma FirstPage(d: Dfu, e: Dfu)
    requires Inv(d) && d.fl.op.FlProgram? && e.cells == d.cells && e.start == d.start && 0 < e.fl.opLen <= d.fl.opLen
    requires e.fl.opOfs == 0 && e.fl.addrProg == d.fl.addrProg && e.fl.addrEnd == d.fl.addrEnd
    ensures ProgramAllowed(e.cells, e.fl.addrProg, PageLen(e.fl), e.start, e.fl.addrEnd) <==> d.fl.opOfs == 0
  {
    if d.fl.opOfs > 0 {
      assert e.cells[e.fl.addrProg].mark.Programmed?;
    }
  }

  /** Some ticks, one after the other, with no request or data between them. */
  function Ticks(d: Dfu, busy: seq<bool>): (r: Dfu)
    requires Shaped(d)
    ensures Shaped(r)
    decreases |busy|
  {
    if busy == [] then d else
      TickShape(d, busy[0]);
      Ticks(Tick(d, busy[0]), busy[1..])
  }

  /** Ticks do not look at a transfer under way, nor at the record of blocks. */
  predicate SameWork(d: Dfu, e: Dfu) {
    e == d.(xfer := e.xfer, incoming := e.incoming, accepted := e.accepted)
  }

  lemma TickSame(d: Dfu, e: Dfu, busy: bool)
    requires Shaped(d) && Shaped(e) && SameWork(d, e)
    ensures SameWork(Tick(d, busy), Tick(e, busy))
  {
    if d.fl.op.FlErase? && d.fl.addrErase < d.fl.addrProg + d.fl.opLen {
      assert EraseNext(e) == EraseNext(d).(xfer := e.xfer, incoming := e.incoming, accepted := e.accepted);
    } else if !d.fl.op.FlIdle? {
      ProgramSame(d.(fl := d.fl.(op := FlProgram)), e.(fl := e.fl.(op := FlProgram)));
    }
  }

  lemma ProgramSame(d: Dfu, e: Dfu)
    requires Shaped(d) && Shaped(e) && SameWork(d, e) && d.fl.op.FlProgram?
    ensures SameWork(TickProgram(d), TickProgram(e))
  {
    hide ProgramCells, ProgramAllowed, PageLen;
    if d.state.DnloadSync? && d.fl.opOfs < d.fl.opLen {
      assert ProgramNext(e) == ProgramNext(d).(xfer := e.xfer, incoming := e.incoming, accepted := e.accepted);
    } else if d.state.DnloadSync? {
      assert ProgramDone(e) == ProgramDone(d).(xfer := e.xfer, incoming := e.incoming, accepted := e.accepted);
    }
  }

  lemma {:induction false} TicksSame(d: Dfu, e: Dfu, busy: seq<bool>)
    requires Shaped(d) && Shaped(e) && SameWork(d, e)
    ensures SameWork(Ticks(d, busy), Ticks(e, busy))
    decreases |busy|
  {
    if busy != [] {
      TickShape(d, busy[0]);
      TickShape(e, busy[0]);
      TickSame(d, e, busy[0]);
      hide SameWork, Tick, Shaped;
      TicksSame(Tick(d, busy[0]), Tick(e, busy[0]), busy[1..]);
    }
  }

  /** The last block sent is being stored, or has been: all of it, from `at` on, and nothing after it. */
  predicate Storing(d: Dfu, at: nat, data: seq<byte>) {
    && Placed(d) && at + |data| <= |d.cells|
    && (if d.state.DnloadSync?
        then d.fl.addrProg == at && d.fl.opLen == |data| && d.buf[..d.fl.opLen] == data
             && Values(d.cells, at, at + Partly(d)) == data[..Partly(d)]
        else d.state.DnloadIdle? && d.fl.op.FlIdle? && d.fl.addrProg == at + |data|
             && Values(d.cells, at, at + |data|) == data)
  }

  lemma StoringTick(d: Dfu, busy: bool, at: nat, data: seq<byte>)
    requires Inv(d) && Storing(d, at, data)
    ensures Inv(Tick(d, busy)) && Storing(Tick(d, busy), at, data)
  {
    TickKeeps(d, busy);
    var e := Tick(d, busy);
    if d.state.DnloadSync? && e.state.DnloadSync? {
      assert e.buf == d.buf && data[..Partly(e)] == e.buf[..Partly(e)];
    } else if d.state.DnloadSync? {
      assert d.fl.opOfs == d.fl.opLen && e.cells == d.cells && data[..|data|] == data;
    }
  }

  lemma {:induction false} StoringTicks(d: Dfu, busy: seq<bool>, at: nat, data: seq<byte>)
    requires Inv(d) && Storing(d, at, data)
    ensures Inv(Ticks(d, busy)) && Storing(Ticks(d, busy), at, data)
    decreases |busy|
  {
    if busy != [] {
      StoringTick(d, busy[0], at, data);
      TickShape(d, busy[0]);
      StoringTicks(Tick(d, busy[0]), busy[1..], at, data);
    }
  }

  lemma {:induction false} SpoiledTicks(d: Dfu, busy: seq<bool>, at: nat)
    requires Spoiled(d, at)
    ensures Ticks(d, busy).legal ==> Spoiled(Ticks(d, busy), at)
    decreases |busy|
  {
    if busy != [] {
      var r := Tick(d, busy[0]);
      SpoiledTick(d, busy[0], at);
      if r.legal {
        SpoiledTicks(r, busy[1..], at);
      } else {
        TicksNeverForgiven(r, busy[1..]);
      }
    }
  }

  lemma {:induction false} TicksNeverForgiven(d: Dfu, busy: seq<bool>)
    requires Shaped(d) && !d.legal
    ensures !Ticks(d, busy).legal
    decreases |busy|
  {
    if busy != [] {
      TickShape(d, busy[0]);
      TicksNeverForgiven(Tick(d, busy[0]), busy[1..]);
    }
  }

  /** The block that a DNLOAD in dfuDNLOAD_SYNC puts in the place of the one being written: as long as
      none of its data has come, the bytes of that one. */
  lemma Replaced(d: Dfu, len: nat) returns (d1: Dfu, e: Dfu)
    requires Inv(d) && d.state.DnloadSync? && Partly(d) == 0 && 0 < len <= 4096 && d.fl.addrErase + len <= d.fl.addrEnd
    ensures d1 == Ask(d, Dnload, len) && Shaped(d1) && SameWork(e, d1)
    ensures Inv(e) && Storing(e, d.fl.addrProg, d.buf[..len])
  {
    d1 := Ask(d, Dnload, len);
    assert d1 == d.(xfer := Some(0), incoming := [], fl := d.fl.(opOfs := 0, opLen := len, op := FlErase));
    e := d1.(xfer := None, accepted := d.accepted[..|d.accepted| - 1] + [d.buf[..len]]);
    assert Placed(e);
    assert e.accepted[..|e.accepted| - 1] == d.accepted[..|d.accepted| - 1];
    assert Values(e.cells, e.fl.addrProg, e.fl.addrProg) == [] && d.buf[..len][..0] == [];
  }

  /** dfuDNLOAD_SYNC also accepts DNLOAD, whether sectors are being erased or a block programmed. Ticks
      that come before its data program in the new block's place the bytes of the block before it; every
      command is allowed if nothing of that had been programmed, and if something had, no block is stored
      any more with allowed commands only. */
  lemma DnloadInSync(d: Dfu, len: nat, busy: seq<bool>)
    requires Inv(d) && d.state.DnloadSync? && 0 < len <= 4096 && d.fl.addrErase + len <= d.fl.addrEnd
    ensures ValidReq(d.state, Dnload) && Ask(d, Dnload, len).xfer == Some(0) && Shaped(Ask(d, Dnload, len))
    ensures var r := Ticks(Ask(d, Dnload, len), busy);
            if Partly(d) == 0 then r.legal && Storing(r, d.fl.addrProg, d.buf[..len])
            else r.legal ==> r.fl.addrProg == d.fl.addrProg
  {
    var d1 := Restarted(d, len);
    if Partly(d) == 0 {
      var d2, e := Replaced(d, len);
      hide *;
      StoringTicks(e, busy, d.fl.addrProg, d.buf[..len]);
      TicksSame(e, d1, busy);
      StoringSame(Ticks(e, busy), Ticks(d1, busy), d.fl.addrProg, d.buf[..len]);
    } else {
      SpoiledTicks(d1, busy, d.fl.addrProg);
      hide Ticks, Ask, Inv;
    }
  }

  lemma Restarted(d: Dfu, len: nat) returns (d1: Dfu)
    requires Inv(d) && d.state.DnloadSync? && 0 < len <= 4096 && d.fl.addrErase + len <= d.fl.addrEnd
    ensures ValidReq(d.state, Dnload) && d1 == Ask(d, Dnload, len) && Shaped(d1) && d1.xfer == Some(0)
    ensures d1 == d.(xfer := Some(0), incoming := [], fl := d.fl.(opOfs := 0, opLen := len, op := FlErase))
    ensures Partly(d) > 0 ==> Spoiled(d1, d.fl.addrProg)
  {
    d1 := Ask(d, Dnload, len);
  }

  lemma StoringSame(e: Dfu, r: Dfu, at: nat, data: seq<byte>)
    requires Inv(e) && Storing(e, at, data) && SameWork(e, r)
    ensures r.legal && Storing(r, at, data)
  {
    assert Placed(r);
  }

  // ---- The writer in place -----------------------------------------------------------------------

  class DfuWriter {
    var state: DfuState
    var ok: bool
    var armed: bool
    var buf: array<byte>
    var fl: Flash
    var xfer: Option<nat>
    var cells: seq<Cell>
    ghost var start: nat
    ghost var legal: bool
    ghost var commands: nat
    ghost var incoming: seq<byte>
    ghost var accepted: seq<seq<byte>>

    ghost function View(): Dfu
      reads this, buf
    {
      Dfu(state, ok, armed, buf[..], fl, xfer, cells, start, legal, commands, incoming, accepted)
    }

    /** `_dfu_tick` */
    method OnTick(busy: bool)
      requires fl.opOfs <= fl.opLen <= buf.Length
      modifies this
      ensures buf == old(buf) && View() == Tick(old(View()), busy)
    {
      if fl.op.FlIdle? || busy {
        return;
      }
      if fl.op.FlErase? {
        if fl.addrErase >= fl.addrProg + fl.opLen {
          fl := fl.(op := FlProgram);
        } else {
          EraseSector();
        }
      }
      if fl.op.FlProgram? && state.DnloadSync? {
        ProgramPiece();
      }
    }

    method EraseSector()
      modifies this
      ensures buf == old(buf) && View() == EraseNext(old(View()))
    {
      legal := legal && EraseAllowed(cells, fl.addrErase, start, fl.addrEnd);
      commands := commands + 1;
      cells := EraseCells(cells, fl.addrErase);
      fl := fl.(addrErase := fl.addrErase + SECTOR);
    }

    method ProgramPiece()
      requires fl.opOfs <= fl.opLen <= buf.Length && fl.op.FlProgram? && state.DnloadSync?
      modifies this
      ensures buf == old(buf) && View() == TickProgram(old(View()))
    {
      if fl.opOfs == fl.opLen {
        fl := fl.(op := FlIdle, addrProg := fl.addrProg + fl.opLen);
        state := DnloadIdle;
        armed := true;
      } else {
        ProgramPage();
      }
    }

    /** How much of the block the page takes. */
    method PageRoom() returns (l: nat)
      requires fl.opOfs <= fl.opLen
      ensures l == PageLen(fl)
    {
      l := fl.opLen - fl.opOfs;
      var pl := PAGE - (fl.addrProg + fl.opOfs) % PAGE;
      if l > pl {
        l := pl;
      }
    }

    method ProgramPage()
      requires fl.opOfs <= fl.opLen <= buf.Length
      modifies this
      ensures buf == old(buf) && View() == ProgramNext(old(View()))
    {
      var l := PageRoom();
      legal := legal && ProgramAllowed(cells, fl.addrProg + fl.opOfs, l, start, fl.addrEnd);
      commands := commands + 1;
      cells := ProgramCells(cells, fl.addrProg + fl.opOfs, buf[..][fl.opOfs..fl.opOfs + l]);
      fl := fl.(opOfs := fl.opOfs + l);
    }

    /** Copy the flash from the read address on, as far as the zone goes. */
    method ReadFlash(len: nat) returns (n: nat)
      requires len <= buf.Length && fl.addrRead <= fl.addrEnd <= |cells|
      modifies this`fl, buf
      ensures n == old(ReadLen(fl, len)) && old(fl.addrRead) + n <= |cells|
      ensures var d := old(View());
              View() == d.(buf := Values(d.cells, d.fl.addrRead, d.fl.addrRead + n) + d.buf[n..],
                           fl := d.fl.(addrRead := d.fl.addrRead + n))
    {
      n := len;
      if fl.addrRead + len > fl.addrEnd {
        n := fl.addrEnd - fl.addrRead;
      }
      ghost var was := buf[..];
      var i := 0;
      while i < n
        invariant 0 <= i <= n && fl == old(fl)
        invariant forall k :: 0 <= k < buf.Length ==> buf[k] == if k < i then cells[fl.addrRead + k].v else was[k]
      {
        buf[i] := cells[fl.addrRead + i].v;
        i := i + 1;
      }
      assert buf[..] == Values(cells, fl.addrRead, fl.addrRead + n) + was[n..];
      fl := fl.(addrRead := fl.addrRead + n);
    }

    /** `_dfu_ctrl_req` */
    method CtrlReq(q: Request, len: nat) returns (reply: seq<byte>)
      requires len <= buf.Length && fl.addrRead <= fl.addrEnd <= |cells|
      modifies this, buf
      ensures buf == old(buf) && View() == Ask(old(View()), q, len) && reply == Reply(old(View()), q, len)
    {
      xfer := None;
      reply := Respond(q, len);
    }

    method Respond(q: Request, len: nat) returns (reply: seq<byte>)
      requires len <= buf.Length && fl.addrRead <= fl.addrEnd <= |cells| && xfer.None?
      modifies this, buf
      ensures buf == old(buf) && View() == Handle(old(View()), q, len) && reply == Reply(old(View()), q, len)
    {
      reply := [];
      if !ValidReq(state, q) {
        state, ok := DfuError, false;
      } else if q.Dnload? && len > 0 {
        if fl.addrErase + len > fl.addrEnd {
          state, ok := DfuError, false;
        } else {
          xfer, incoming := Some(0), [];
          fl := fl.(opOfs := 0, opLen := len, op := FlErase);
        }
      } else if q.Upload? {
        var n := ReadFlash(len);
        reply := buf[..n];
      } else if q.Dnload? || q.Abort? {
        state := DfuIdle;
      } else if q.GetStatus? {
        var s := UpdateState();
        reply := [if ok then 0 else ERR_UNKNOWN, POLL_MS, 0, 0, Number(s), 0];
      } else if q.GetState? {
        reply := [Number(state)];
      } else if q.ClrStatus? {
        state, ok := DfuIdle, true;
      }
    }

    /** The state GETSTATUS reports, which may be a new one. */
    method UpdateState() returns (s: DfuState)
      modifies this`state
      ensures s == (if old(state).DnloadSync? && !fl.op.FlIdle? then DnBusy else state)
      ensures state == (if old(state).DnloadSync? && fl.op.FlIdle? then DnloadIdle
                        else if old(state).ManifestSync? then DfuIdle else old(state))
    {
      s := state;
      if state.DnloadSync? {
        if fl.op.FlIdle? {
          state := DnloadIdle;
          s := state;
        } else {
          s := DnBusy;
        }
      } else if state.ManifestSync? {
        state := DfuIdle;
        s := state;
      }
    }

    /** `_dfu_dnload_done_cb` */
    method DnloadDoneCb()
      modifies this
      ensures buf == old(buf) && View() == DnloadDone(old(View()))
    {
      state := DnloadSync;
      xfer := None;
      accepted := accepted + [incoming];
    }

    /** `_dfu_set_intf`, for a zone in flash. */
    method SetIntf(from: nat, to: nat)
      modifies this
      ensures buf == old(buf) && View() == Select(old(View()), from, to)
    {
      state := DfuIdle;
      fl := fl.(addrRead := from, addrProg := from, addrErase := from, addrEnd := to);
      start, legal, commands, accepted := from, true, 0, [];
      cells := Unmarked(cells);
    }
  }
}
