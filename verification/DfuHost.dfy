/** A host with the DFU writer: a whole download block by block, which is accepted exactly as far as whole
    sectors allow, polling for the status, and reading the zone back. */
module DfuHost {
  import opened Isa
  import opened Dfu

  // ---- One block -------------------------------------------------------------------------------------

  /** How many ticks find the flash ready. */
  function Free(busy: seq<bool>): nat {
    if busy == [] then 0 else (if busy[0] then 0 else 1) + Free(busy[1..])
  }

  /** With enough ticks that find the flash ready, however many others come between them, the block under
      way is stored. */
  lemma {:induction false} TicksFinish(d: Dfu, busy: seq<bool>)
    requires Inv(d) && Shaped(d) && (d.state.DnloadSync? || (d.state.DnloadIdle? && d.fl.op.FlIdle?))
    requires d.state.DnloadSync? ==> Work(d) <= Free(busy)
    ensures var r := Ticks(d, busy);
            && Inv(r) && r.state.DnloadIdle? && r.fl.op.FlIdle? && SameOutside(d, r)
            && r.xfer == d.xfer && r.accepted == d.accepted
    decreases |busy|
  {
    if busy != [] {
      var e := Tick(d, busy[0]);
      FrameKeeps(d, busy[0]);
      TickShape(d, busy[0]);
      TickStep(d, busy[0]);
      TicksFinish(e, busy[1..]);
    }
  }

  lemma TickStep(d: Dfu, busy: bool)
    requires Inv(d) && (d.state.DnloadSync? || (d.state.DnloadIdle? && d.fl.op.FlIdle?))
    ensures var e := Tick(d, busy);
            && Placed(e) && e.xfer == d.xfer && e.accepted == d.accepted
            && (e.state.DnloadSync? || (e.state.DnloadIdle? && e.fl.op.FlIdle?))
            && (e.state.DnloadSync? ==> d.state.DnloadSync? && Work(e) <= Work(d) - (if busy then 0 else 1))
  {
    FrameKeeps(d, busy);
    if d.state.DnloadSync? && !busy {
      TickProgresses(d);
    }
  }

  /** Where the next sector begins. */
  function RoundUp(n: nat): nat {
    (n + SECTOR - 1) / SECTOR * SECTOR
  }

  /** No sector is erased that is not needed for what is programmed or about to be. */
  predicate Near(d: Dfu) {
    d.fl.addrErase <= RoundUp(d.fl.addrProg + if d.fl.op.FlIdle? then 0 else d.fl.opLen)
  }

  lemma RoundUpFits(a: nat, x: nat)
    requires a % SECTOR == 0 && a < x
    ensures a + SECTOR <= RoundUp(x)
  {
  }

  lemma RoundUpMore(x: nat, y: nat)
    requires x <= y
    ensures x <= RoundUp(x) <= RoundUp(y)
  {
  }

  lemma RoundUpIs(a: nat, x: nat)
    requires a % SECTOR == 0 && x <= a <= RoundUp(x)
    ensures a == RoundUp(x)
  {
  }

  lemma TickNear(d: Dfu, busy: bool)
    requires Placed(d) && Near(d)
    ensures Near(Tick(d, busy))
  {
    hide RoundUp, EraseCells, ProgramCells, EraseAllowed, ProgramAllowed, PageLen;
    if d.fl.op.FlErase? && d.fl.addrErase < d.fl.addrProg + d.fl.opLen {
      RoundUpFits(d.fl.addrErase, d.fl.addrProg + d.fl.opLen);
    }
  }

  lemma {:induction false} TicksNear(d: Dfu, busy: seq<bool>)
    requires Inv(d) && Shaped(d) && Near(d)
    ensures Near(Ticks(d, busy))
    decreases |busy|
  {
    if busy != [] {
      FrameKeeps(d, busy[0]);
      TickNear(d, busy[0]);
      hide Near, Tick, Marked, Filled, Phased;
      TickShape(d, busy[0]);
      TicksNear(Tick(d, busy[0]), busy[1..]);
    }
  }

  // ---- Runs of events --------------------------------------------------------------------------------

  lemma {:induction false} RunCat(d: Dfu, a: seq<Event>, b: seq<Event>)
    requires Shaped(d) && AllPossible(d, a) && AllPossible(Run(d, a), b)
    ensures AllPossible(d, a + b) && Run(d, a + b) == Run(Run(d, a), b)
    decreases |a|
  {
    if a == [] {
      assert a + b == b;
    } else {
      HappenShape(d, a[0]);
      RunCat(Happen(d, a[0]), a[1..], b);
      assert (a + b)[1..] == a[1..] + b;
    }
  }

  lemma RunCons(d: Dfu, ev: Event, rest: seq<Event>)
    requires Shaped(d) && Possible(d, ev) && Shaped(Happen(d, ev)) && AllPossible(Happen(d, ev), rest)
    ensures AllPossible(d, [ev] + rest) && Run(d, [ev] + rest) == Run(Happen(d, ev), rest)
  {
    assert ([ev] + rest)[1..] == rest;
  }

  lemma RunNone(d: Dfu)
    requires Shaped(d)
    ensures AllPossible(d, []) && Run(d, []) == d
  {
  }

  function Frames(busy: seq<bool>): seq<Event> {
    if busy == [] then [] else [Frame(busy[0])] + Frames(busy[1..])
  }

  lemma {:induction false} FramesRun(d: Dfu, busy: seq<bool>)
    requires Shaped(d)
    ensures AllPossible(d, Frames(busy)) && Run(d, Frames(busy)) == Ticks(d, busy)
    decreases |busy|
  {
    if busy != [] {
      TickShape(d, busy[0]);
      FramesRun(Tick(d, busy[0]), busy[1..]);
      assert Frames(busy)[1..] == Frames(busy[1..]);
    }
  }

  function Packets(pieces: seq<seq<byte>>): seq<Event> {
    if pieces == [] then [] else [Packet(pieces[0])] + Packets(pieces[1..])
  }

  function Joined(pieces: seq<seq<byte>>): seq<byte> {
    if pieces == [] then [] else pieces[0] + Joined(pieces[1..])
  }

  /** A block's packets, however it is cut, are put together again. */
  lemma {:induction false} PacketsRun(d: Dfu, pieces: seq<seq<byte>>)
    requires Inv(d) && Shaped(d) && d.xfer.Some? && d.xfer.value + |Joined(pieces)| <= d.fl.opLen
    ensures AllPossible(d, Packets(pieces))
    ensures var r := Run(d, Packets(pieces));
            && Inv(r) && r.xfer == Some(d.xfer.value + |Joined(pieces)|) && r.incoming == d.incoming + Joined(pieces)
            && r == d.(xfer := r.xfer, incoming := r.incoming, buf := r.buf)
    decreases |pieces|
  {
    hide *;
    if pieces != [] {
      PacketStep(d, pieces);
      PacketsRun(Data(d, pieces[0]), pieces[1..]);
      RunCons(d, Packet(pieces[0]), Packets(pieces[1..]));
      PacketsNext(pieces);
      assert d.incoming + pieces[0] + Joined(pieces[1..]) == d.incoming + (pieces[0] + Joined(pieces[1..]));
    } else {
      PacketsNone();
      RunNone(d);
      assert d.incoming + [] == d.incoming;
    }
  }

  lemma PacketsNone()
    ensures Packets([]) == [] && Joined([]) == []
  {
  }

  lemma PacketsNext(pieces: seq<seq<byte>>)
    requires pieces != []
    ensures Packets(pieces) == [Packet(pieces[0])] + Packets(pieces[1..])
    ensures Joined(pieces) == pieces[0] + Joined(pieces[1..])
  {
  }

  lemma PacketStep(d: Dfu, pieces: seq<seq<byte>>)
    requires Inv(d) && Shaped(d) && pieces != []
    requires d.xfer.Some? && d.xfer.value + |Joined(pieces)| <= d.fl.opLen
    ensures Joined(pieces) == pieces[0] + Joined(pieces[1..])
    ensures Possible(d, Packet(pieces[0])) && d.fl.opLen <= |d.buf|
    ensures var e := Data(d, pieces[0]);
            && e == Happen(d, Packet(pieces[0])) && Inv(e) && Shaped(e)
            && e.xfer == Some(d.xfer.value + |pieces[0]|) && e.incoming == d.incoming + pieces[0]
            && e == d.(xfer := e.xfer, incoming := e.incoming, buf := e.buf)
  {
    DataKeeps(d, pieces[0]);
    DataShape(d, pieces[0]);
  }

  // ---- Whole downloads -------------------------------------------------------------------------------

  /** A block: the packets its data comes in, and the ticks until the host goes on. */
  datatype Block = Block(pieces: seq<seq<byte>>, busy: seq<bool>)

  function Bytes(b: Block): seq<byte> {
    Joined(b.pieces)
  }

  function BlockEvents(b: Block): seq<Event> {
    [Asked(Dnload, |Bytes(b)|)] + (Packets(b.pieces) + ([Finished] + Frames(b.busy)))
  }

  /** Between blocks: every byte sent so far is in flash, and sectors are erased as far as that. */
  ghost predicate Between(d: Dfu) {
    Inv(d) && Shaped(d) && Near(d) && d.fl.op.FlIdle? && (d.state.DfuIdle? || d.state.DnloadIdle?)
  }

  /** A zone just selected is one to start with. */
  lemma SelectedBetween(d: Dfu)
    requires Selected(d)
    ensures Between(d)
  {
    SelectedInv(d);
    RoundUpMore(d.start, d.start);
  }

  lemma BetweenPlaces(d: Dfu)
    requires Between(d)
    ensures d.start <= d.fl.addrProg && d.fl.addrProg == d.start + |Flat(d.accepted)|
    ensures d.fl.addrErase == RoundUp(d.fl.addrProg) <= d.fl.addrEnd <= |d.cells|
    ensures Values(d.cells, d.start, d.fl.addrProg) == Flat(d.accepted)
  {
    hide RoundUp, Marked;
    RoundUpIs(d.fl.addrErase, d.fl.addrProg);
  }

  /** A block is accepted if and only if it fits behind the sector that the bytes before it end in. */
  lemma AcceptedBySectors(d: Dfu, len: nat)
    requires Between(d) && 0 < len <= 4096
    ensures var e := Ask(d, Dnload, len);
            if RoundUp(d.start + |Flat(d.accepted)|) + len <= d.fl.addrEnd then e.xfer == Some(0)
            else e.xfer.None? && e.state.DfuError? && e.cells == d.cells
  {
    BetweenPlaces(d);
    hide RoundUp;
    AcceptedExactly(d, len);
  }

  /** The block is asked for: its data may come. */
  lemma BlockAsked(d: Dfu, len: nat) returns (e: Dfu)
    requires Between(d) && 0 < len <= 4096 && RoundUp(d.fl.addrProg) + len <= d.fl.addrEnd
    ensures Possible(d, Asked(Dnload, len)) && e == Happen(d, Asked(Dnload, len)) && Inv(e) && Shaped(e) && Near(e)
    ensures e == d.(xfer := Some(0), incoming := [], fl := d.fl.(opOfs := 0, opLen := len, op := FlErase))
    ensures !e.state.DnloadSync?
  {
    BetweenPlaces(d);
    RoundUpMore(d.fl.addrProg, d.fl.addrProg + len);
    hide RoundUp, Marked, Filled;
    AskKeeps(d, Dnload, len);
    AskShape(d, Dnload, len);
    AcceptedExactly(d, len);
    e := Happen(d, Asked(Dnload, len));
  }

  /** All of its data has come. */
  lemma BlockFinished(d: Dfu, pieces: seq<seq<byte>>) returns (e: Dfu)
    requires Inv(d) && Shaped(d) && Near(d) && !d.state.DnloadSync?
    requires d.xfer == Some(0) && d.incoming == [] && |Joined(pieces)| == d.fl.opLen
    ensures AllPossible(d, Packets(pieces)) && Possible(Run(d, Packets(pieces)), Finished)
    ensures e == Happen(Run(d, Packets(pieces)), Finished) && Inv(e) && Shaped(e) && Near(e)
    ensures e.state.DnloadSync? && e.accepted == d.accepted + [Joined(pieces)] && e.xfer.None?
    ensures e.fl == d.fl && e.cells == d.cells && e.start == d.start
  {
    hide Inv, Run, AllPossible, Packets, RoundUp, Flat;
    PacketsRun(d, pieces);
    assert [] + Joined(pieces) == Joined(pieces);
    var r := Run(d, Packets(pieces));
    AcceptKeeps(r);
    HappenShape(r, Finished);
    e := Happen(r, Finished);
  }

  /** And the block is stored. */
  lemma BlockStored(d: Dfu, busy: seq<bool>) returns (e: Dfu)
    requires Inv(d) && Shaped(d) && Near(d) && d.state.DnloadSync? && d.fl.opLen / PAGE + 4 <= Free(busy)
    requires d.fl.op.FlErase? && d.fl.addrErase >= d.fl.addrProg && 0 < d.fl.opLen <= 4096
    ensures e == Ticks(d, busy) && Between(e) && e.state.DnloadIdle? && e.accepted == d.accepted && SameOutside(d, e)
  {
    FewSteps(d.fl.addrErase, d.fl.addrProg, d.fl.opLen);
    TicksFinish(d, busy);
    TicksNear(d, busy);
    e := Ticks(d, busy);
  }

  /** The events of a block, put together. */
  lemma BlockGlue(d: Dfu, b: Block, d1: Dfu, d2: Dfu, d3: Dfu)
    requires Shaped(d) && Possible(d, Asked(Dnload, |Bytes(b)|)) && d1 == Happen(d, Asked(Dnload, |Bytes(b)|))
    requires Shaped(d1) && AllPossible(d1, Packets(b.pieces)) && Possible(Run(d1, Packets(b.pieces)), Finished)
    requires d2 == Happen(Run(d1, Packets(b.pieces)), Finished) && Shaped(d2) && d3 == Ticks(d2, b.busy)
    ensures AllPossible(d, BlockEvents(b)) && Run(d, BlockEvents(b)) == d3
  {
    hide *;
    FramesRun(d2, b.busy);
    RunCons(Run(d1, Packets(b.pieces)), Finished, Frames(b.busy));
    RunCat(d1, Packets(b.pieces), [Finished] + Frames(b.busy));
    RunCons(d, Asked(Dnload, |Bytes(b)|), Packets(b.pieces) + ([Finished] + Frames(b.busy)));
    BlockIs(b);
  }

  lemma BlockIs(b: Block)
    ensures BlockEvents(b) == [Asked(Dnload, |Bytes(b)|)] + (Packets(b.pieces) + ([Finished] + Frames(b.busy)))
    ensures Bytes(b) == Joined(b.pieces)
  {
  }

  /** A block of up to 4096 bytes, and ticks enough to write it: for one sector, its pages and one that it
      may begin in the middle of, and the end. */
  predicate Proper(b: Block) {
    0 < |Bytes(b)| <= 4096 && |Bytes(b)| / PAGE + 4 <= Free(b.busy)
  }

  lemma FewSteps(erased: nat, from: nat, len: nat)
    requires from <= erased && 0 < len <= 4096
    ensures Sectors(erased, from + len) + Pages(from, from + len) + 1 <= len / PAGE + 4
  {
    FewPages(from, len);
  }

  lemma FewPages(from: nat, len: nat)
    requires 0 < len
    ensures Pages(from, from + len) <= len / PAGE + 2
  {
  }

  lemma BlockRun(d: Dfu, b: Block)
    requires Between(d) && Proper(b) && RoundUp(d.fl.addrProg) + |Bytes(b)| <= d.fl.addrEnd
    ensures Shaped(d) && AllPossible(d, BlockEvents(b))
    ensures var r := Run(d, BlockEvents(b));
            && Between(r) && r.state.DnloadIdle? && r.accepted == d.accepted + [Bytes(b)] && SameOutside(d, r)
            && r.fl.addrProg == d.fl.addrProg + |Bytes(b)|
  {
    assert Shaped(d);
    hide *;
    var d1, d2, d3 := BlockPhases(d, b);
    BlockGlue(d, b, d1, d2, d3);
    BlockAfter(d, b, d2, d3);
  }

  lemma BlockPhases(d: Dfu, b: Block) returns (d1: Dfu, d2: Dfu, d3: Dfu)
    requires Between(d) && Proper(b) && RoundUp(d.fl.addrProg) + |Bytes(b)| <= d.fl.addrEnd
    ensures Shaped(d) && Possible(d, Asked(Dnload, |Bytes(b)|)) && d1 == Happen(d, Asked(Dnload, |Bytes(b)|))
    ensures Shaped(d1) && AllPossible(d1, Packets(b.pieces)) && Possible(Run(d1, Packets(b.pieces)), Finished)
    ensures d2 == Happen(Run(d1, Packets(b.pieces)), Finished) && Shaped(d2) && d3 == Ticks(d2, b.busy)
    ensures Between(d3) && d3.state.DnloadIdle? && d3.accepted == d.accepted + [Bytes(b)] && SameOutside(d2, d3)
    ensures d2.cells == d.cells && d2.start == d.start && d2.fl.addrEnd == d.fl.addrEnd
  {
    assert Shaped(d);
    hide RoundUp, Inv, Run, AllPossible, Ticks, Near, Flat, Ask, Between, Tick, Data, Packets, Happen, Shaped, Possible,
      SameOutside;
    d1 := BlockAsked(d, |Bytes(b)|);
    BetweenPlaces(d);
    d2 := BlockFinished(d1, b.pieces);
    RoundUpMore(d.fl.addrProg, d.fl.addrProg);
    d3 := BlockStored(d2, b.busy);
  }

  lemma BlockAfter(d: Dfu, b: Block, d2: Dfu, d3: Dfu)
    requires Between(d) && Between(d3) && d3.accepted == d.accepted + [Bytes(b)] && SameOutside(d2, d3)
    requires d2.cells == d.cells && d2.start == d.start && d2.fl.addrEnd == d.fl.addrEnd
    ensures SameOutside(d, d3) && d3.fl.addrProg == d.fl.addrProg + |Bytes(b)|
  {
    BetweenPlaces(d);
    BetweenPlaces(d3);
    FlatMore(d.accepted, Bytes(b));
    hide Inv, Near, Between, Flat;
  }

  lemma FlatMore(blocks: seq<seq<byte>>, b: seq<byte>)
    ensures Flat(blocks + [b]) == Flat(blocks) + b
  {
    assert (blocks + [b])[..|blocks|] == blocks;
  }

  function AllEvents(blocks: seq<Block>): seq<Event> {
    if blocks == [] then [] else BlockEvents(blocks[0]) + AllEvents(blocks[1..])
  }

  function AllBytes(blocks: seq<Block>): seq<seq<byte>> {
    if blocks == [] then [] else [Bytes(blocks[0])] + AllBytes(blocks[1..])
  }

  /** Every block fits behind the sector that the one before it ends in. */
  predicate AllFit(at: nat, end: nat, blocks: seq<Block>)
    decreases |blocks|
  {
    blocks != [] ==>
      && Proper(blocks[0]) && RoundUp(at) + |Bytes(blocks[0])| <= end
      && AllFit(at + |Bytes(blocks[0])|, end, blocks[1..])
  }

  /** A host that sends such blocks one after the other, however each is cut into packets and however busy
      the flash is in between, has all of them accepted; they are in the zone then, in order, by allowed
      commands only, and nothing outside it has changed. */
  lemma {:induction false} DownloadCompletes(d: Dfu, blocks: seq<Block>)
    requires Between(d) && AllFit(d.fl.addrProg, d.fl.addrEnd, blocks)
    ensures Shaped(d) && AllPossible(d, AllEvents(blocks))
    ensures var r := Run(d, AllEvents(blocks));
            && Between(r) && r.accepted == d.accepted + AllBytes(blocks) && SameOutside(d, r)
            && r.start <= r.fl.addrProg <= |r.cells| && r.legal
            && Values(r.cells, r.start, r.fl.addrProg) == Flat(d.accepted + AllBytes(blocks))
            && Ask(r, Dnload, 0).state.DfuIdle?
    decreases |blocks|
  {
    hide *;
    if blocks == [] {
      BetweenEnds(d);
    } else {
      FirstFits(blocks, d.fl.addrProg, d.fl.addrEnd);
      BlockRun(d, blocks[0]);
      var r := Run(d, BlockEvents(blocks[0]));
      AllNext(blocks, d.fl.addrProg, d.fl.addrEnd);
      SameEnd(d, r);
      DownloadCompletes(r, blocks[1..]);
      RunCat(d, BlockEvents(blocks[0]), AllEvents(blocks[1..]));
      SameTrans(d, r, Run(r, AllEvents(blocks[1..])));
      assert r.accepted + AllBytes(blocks[1..]) == d.accepted + ([Bytes(blocks[0])] + AllBytes(blocks[1..]));
    }
  }

  lemma BetweenEnds(d: Dfu)
    requires Between(d)
    ensures Shaped(d) && AllPossible(d, AllEvents([])) && Run(d, AllEvents([])) == d
    ensures d.accepted + AllBytes([]) == d.accepted
    ensures d.start <= d.fl.addrProg <= |d.cells| && Values(d.cells, d.start, d.fl.addrProg) == Flat(d.accepted)
    ensures d.legal && SameOutside(d, d) && Ask(d, Dnload, 0).state.DfuIdle?
  {
    BetweenPlaces(d);
  }

  lemma FirstFits(blocks: seq<Block>, at: nat, end: nat)
    requires blocks != [] && AllFit(at, end, blocks)
    ensures Proper(blocks[0]) && RoundUp(at) + |Bytes(blocks[0])| <= end
  {
  }

  lemma SameEnd(d: Dfu, r: Dfu)
    requires SameOutside(d, r)
    ensures r.fl.addrEnd == d.fl.addrEnd
  {
  }

  lemma SameTrans(d: Dfu, e: Dfu, r: Dfu)
    requires SameOutside(d, e) && SameOutside(e, r)
    ensures SameOutside(d, r)
  {
  }

  lemma AllNext(blocks: seq<Block>, at: nat, end: nat)
    requires blocks != [] && AllFit(at, end, blocks)
    ensures AllFit(at + |Bytes(blocks[0])|, end, blocks[1..])
    ensures AllEvents(blocks) == BlockEvents(blocks[0]) + AllEvents(blocks[1..])
    ensures AllBytes(blocks) == [Bytes(blocks[0])] + AllBytes(blocks[1..])
  {
  }

  // ---- What the host is told -------------------------------------------------------------------------

  /** GETSTATUS answers dfuDNBUSY as long as the last block is being written, then dfuDNLOAD_IDLE, and from
      that on the zone begins with all blocks sent; GETSTATE tells the writer's own state. */
  lemma StatusTells(d: Dfu)
    requires Inv(d) && (d.state.DnloadSync? || d.state.DnloadIdle?)
    ensures |Reply(d, GetStatus, 6)| == 6 && (Reply(d, GetStatus, 6)[4] == 4 <==> d.state.DnloadSync?)
    ensures Reply(d, GetStatus, 6)[0] == 0 <==> d.ok
    ensures Reply(d, GetStatus, 6)[4] != 4 ==>
      Reply(d, GetStatus, 6)[4] == 5 && d.start <= d.fl.addrProg <= |d.cells|
      && Values(d.cells, d.start, d.fl.addrProg) == Flat(d.accepted)
    ensures Reply(d, GetState, 1) == [if d.state.DnloadSync? then 3 else 5]
  {
  }

  /** The status is an error exactly in dfuERROR, and no block is under way then. */
  predicate StatusRight(d: Dfu) {
    (d.ok <==> !d.state.DfuError?) && (d.state.DfuError? ==> d.xfer.None?)
  }

  /** So it is in every run, and GETSTATUS says so. */
  lemma {:induction false} ErrorReported(d: Dfu, evs: seq<Event>)
    requires Inv(d) && Shaped(d) && AllPossible(d, evs) && StatusRight(d)
    ensures var r := Run(d, evs);
            && StatusRight(r)
            && (r.state.DfuError? ==> Reply(r, GetStatus, 6) == [ERR_UNKNOWN, POLL_MS, 0, 0, 10, 0])
    decreases |evs|
  {
    if evs != [] {
      HappenKeeps(d, evs[0]);
      HappenShape(d, evs[0]);
      StatusStep(d, evs[0]);
      hide Inv, StatusRight, Happen, Reply;
      ErrorReported(Happen(d, evs[0]), evs[1..]);
    }
  }

  lemma StatusStep(d: Dfu, ev: Event)
    requires Shaped(d) && Possible(d, ev) && StatusRight(d)
    ensures StatusRight(Happen(d, ev))
  {
    hide EraseCells, ProgramCells, EraseAllowed, ProgramAllowed, PageLen;
  }

  // ---- Reading back ----------------------------------------------------------------------------------

  function Uploads(d: Dfu, lens: seq<nat>): seq<byte>
    requires Shaped(d) && forall k :: 0 <= k < |lens| ==> lens[k] <= 4096
    decreases |lens|
  {
    if lens == [] then [] else
      UploadShape(d, lens[0]);
      Reply(d, Upload, lens[0]) + Uploads(Ask(d, Upload, lens[0]), lens[1..])
  }

  lemma UploadShape(d: Dfu, len: nat)
    requires Shaped(d) && len <= 4096
    ensures Shaped(Ask(d, Upload, len))
  {
  }

  function Sum(lens: seq<nat>): nat {
    if lens == [] then 0 else lens[0] + Sum(lens[1..])
  }

  /** Reads in dfuIDLE give the host the zone's bytes, one after the other from where the last one ended,
      as many as it asks for or as there are; they change nothing in flash. */
  lemma {:induction false} UploadsRead(d: Dfu, lens: seq<nat>)
    requires Shaped(d) && d.state.DfuIdle? && forall k :: 0 <= k < |lens| ==> lens[k] <= 4096
    ensures var there := d.fl.addrEnd - d.fl.addrRead;
            var n := if Sum(lens) < there then Sum(lens) else there;
            Uploads(d, lens) == Values(d.cells, d.fl.addrRead, d.fl.addrRead + n)
    decreases |lens|
  {
    if lens != [] {
      var e := Ask(d, Upload, lens[0]);
      UploadShape(d, lens[0]);
      UploadStep(d, lens[0]);
      UploadsRead(e, lens[1..]);
      var n, m := ReadLen(d.fl, lens[0]), ReadLen(e.fl, Sum(lens[1..]));
      ValuesCat(d.cells, d.fl.addrRead, d.fl.addrRead + n, d.fl.addrRead + n + m);
    }
  }

  lemma UploadStep(d: Dfu, len: nat)
    requires Shaped(d) && d.state.DfuIdle? && len <= 4096
    ensures var e, n := Ask(d, Upload, len), ReadLen(d.fl, len);
            && Reply(d, Upload, len) == Values(d.cells, d.fl.addrRead, d.fl.addrRead + n) && |e.buf| == |d.buf|
            && e == d.(xfer := None, buf := e.buf, fl := d.fl.(addrRead := d.fl.addrRead + n))
  {
  }

  // ---- Armed -----------------------------------------------------------------------------------------

  /** The writer reboots at a bus reset if and only if it has stored a block since the zone was selected. */
  predicate ArmedRight(d: Dfu) {
    d.armed <==> Written(d) != []
  }

  lemma {:induction false} ArmedWhenStored(d: Dfu, evs: seq<Event>)
    requires Inv(d) && Shaped(d) && AllPossible(d, evs) && ArmedRight(d)
    ensures ArmedRight(Run(d, evs))
    decreases |evs|
  {
    if evs != [] {
      HappenKeeps(d, evs[0]);
      HappenShape(d, evs[0]);
      ArmedStep(d, evs[0]);
      hide Inv, ArmedRight, Happen;
      ArmedWhenStored(Happen(d, evs[0]), evs[1..]);
    }
  }

  lemma ArmedStep(d: Dfu, ev: Event)
    requires Inv(d) && Shaped(d) && Possible(d, ev) && ArmedRight(d)
    ensures ArmedRight(Happen(d, ev))
  {
    match ev
    case Frame(busy) => ArmedTick(d, busy);
    case Asked(q, len) => ArmedAsk(d, q, len);
    case Packet(data) =>
    case Finished => assert (d.accepted + [d.incoming])[..|d.accepted|] == d.accepted;
  }

  lemma ArmedTick(d: Dfu, busy: bool)
    requires Inv(d) && Shaped(d) && ArmedRight(d)
    ensures ArmedRight(Tick(d, busy))
  {
    hide EraseCells, ProgramCells, EraseAllowed, ProgramAllowed, PageLen, Marked, Placed;
  }

  lemma ArmedAsk(d: Dfu, q: Request, len: nat)
    requires Inv(d) && Shaped(d) && Patient(d, q, len) && ArmedRight(d)
    ensures ArmedRight(Ask(d, q, len))
  {
    hide Marked, Placed, Filled, Values;
  }
}
