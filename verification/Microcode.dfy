/** The transaction microcode, transcribed section by section, and its reading as basic blocks. */
module Microcode {
  import opened Isa
  import opened Assembler
  import opened Engine

  datatype Lab =
    | IDLE | DO_IN | IN_WAIT_TX | IN_WAIT_ACK | IN_FAIL
    | IN_ISOC | IN_ISOC_WAIT_TX | IN_ISOC_NO_DATA
    | DO_SETUP | SETUP_WAIT_DATA | SETUP_FAIL
    | DO_OUT | OUT_WAIT_DATA | OUT_DROP_DATA | OUT_FAIL
    | OUT_ISOC | OUT_ISOC_WAIT_DATA | OUT_ISOC_FAIL | OUT_ISOC_NO_SPACE
    | TX_STALL_BD | TX_STALL_HALT | TX_NAK | TX_ACK
    | RX_DISCARD_NEXT | RX_DISCARD_WAIT

  type Prog = Source<Lab>

  // Masks and values of the tests
  const EVT_ALL := Nib(true, true, true, true)
  const EVT_RX_END := Nib(true, false, true, true)
  const PID_DATA_MSK := Nib(false, true, true, true)
  const PID_DATA_VAL := Nib(false, false, true, true)
  const EP_TYPE_NONE := Nib(false, false, false, false)
  const EP_TYPE_ISOC := Nib(false, false, false, true)
  const EP_TYPE_CTRL := Nib(false, true, true, false)
  const EP_TYPE_MSK1 := Nib(false, true, true, true)
  const EP_TYPE_HALT := Nib(false, false, false, true)
  const EP_TYPE_CEL_CTRL := Nib(true, true, true, false)
  const EP_TYPE_CEL_MSK2 := Nib(true, true, true, false)
  const BD_IS_RDY_DATA := Nib(false, false, true, false)
  const BD_IS_RDY_STALL := Nib(false, false, true, true)
  const BD_RDY_MSK := Nib(false, true, true, false)
  const BD_RDY_VAL := Nib(false, false, true, false)
  const ALL := Nib(true, true, true, true)
  const NOTIFY_SUCCESS := Nib(false, false, false, false)
  const NOTIFY_TX_FAIL := Nib(true, false, false, false)
  const NOTIFY_RX_FAIL := Nib(true, false, false, true)
  const TIMEOUT := 70

  // Assembler mnemonics

  function Do(insn: Insn, rest: Prog): Prog {
    Item(Op(insn), rest)
  }

  function Jeq(l: Lab, val: Nib, mask: Nib, rest: Prog): Prog {
    Item(Jump(l, Cond(mask, val, false)), rest)
  }

  function Jne(l: Lab, val: Nib, mask: Nib, rest: Prog): Prog {
    Item(Jump(l, Cond(mask, val, true)), rest)
  }

  function Goto(l: Lab): Prog {
    Item(Jump(l, ALWAYS), End)
  }

  function IfNotDef(sym: string, thn: Prog, rest: Prog): Prog {
    Section(sym, false, thn, None, rest)
  }

  /** `EP` with a new state, a flip of the buffer index and a write-back, as every use has it. */
  function EpDone(state: Tri, dtFlip: bool, celSet: bool): Insn {
    Insn.Ep(Some(state), true, dtFlip, true, celSet)
  }

  /** One piece of code after another. */
  function Join(a: Prog, b: Prog): Prog
    decreases a, b
  {
    match a
    case End => b
    case Item(t, rest) => Item(t, Join(rest, b))
    case Section(sym, d, thn, els, rest) => Section(sym, d, thn, els, Join(rest, b))
  }

  /** `EP` for a completed transaction, and its notification. */
  function Finish(state: Tri, dtFlip: bool, celSet: bool, code: Nib, rest: Prog): Prog {
    Do(EpDone(state, dtFlip, celSet), Do(Notify(code), rest))
  }

  /** Send a packet without data and start over. */
  function SendEmpty(pid: Nib): Prog {
    Do(Zl, Do(Tx(pid, false), Goto(IDLE)))
  }

  /** Wait at `self` for the end of the packet being sent. */
  function AwaitTx(self: Lab, rest: Prog): Prog {
    Do(Ld(Evt), Jeq(self, ZERO, EVT_TX_DONE, Do(EvtClr(EVT_TX_DONE), rest)))
  }

  /** Wait at `self` for a packet or its absence; anything but a good packet is a failure. */
  function AwaitPacket(self: Lab, fail: Lab, rest: Prog): Prog {
    Do(Ld(Evt), Jeq(self, ZERO, EVT_RX_END, Jeq(fail, ZERO, EVT_RX_OK, rest)))
  }

  /** The tests of the endpoint's type that start an IN or OUT transaction. */
  function CheckType(isoc: Lab, halted: Lab, locked: Lab, rest: Prog): Prog {
    Do(Ld(EpType),
    IfNotDef("NO_ISOC", Jeq(isoc, EP_TYPE_ISOC, EP_TYPE_MSK1, End),
    Jeq(IDLE, EP_TYPE_NONE, EP_TYPE_MSK1,
    Jeq(halted, EP_TYPE_HALT, EP_TYPE_HALT,
    Jeq(locked, EP_TYPE_CEL_CTRL, EP_TYPE_CEL_MSK2, rest)))))
  }

  // ---- The program ---------------------------------------------------------------------------

  // The items between a label and the next one; where a block reads a second register, the
  // rest of it has its own name

  function IdleEvent(rest: Prog): Prog {
    Do(Ld(Evt), Jeq(IDLE, ZERO, ALL, Do(EvtClr(EVT_ALL), Jeq(IDLE, ZERO, EVT_RX_OK, rest))))
  }

  function IdleToken(): Prog {
    Do(Ld(PktPid), Jeq(DO_IN, PID_IN, ALL, Jeq(DO_OUT, PID_OUT, ALL, Jeq(DO_SETUP, PID_SETUP, ALL, Goto(IDLE)))))
  }

  function SegIdle(): Prog {
    IdleEvent(IdleToken())
  }

  // IN, bulk/control/interrupt

  function InBd(): Prog {
    Do(Ld(BdState), Jeq(TX_STALL_BD, BD_IS_RDY_STALL, ALL,
        Jne(TX_NAK, BD_IS_RDY_DATA, ALL, Do(Tx(PID_DATA0, true), End))))
  }

  function SegDoIn(): Prog {
    CheckType(IN_ISOC, TX_STALL_HALT, TX_NAK, InBd())
  }

  function SegInWaitTx(): Prog {
    AwaitTx(IN_WAIT_TX, Do(EvtRto(TIMEOUT), End))
  }

  function InAck(): Prog {
    Do(Ld(PktPid), Jne(IN_FAIL, PID_ACK, ALL, Finish(BD_DONE_OK, true, false, NOTIFY_SUCCESS, Goto(IDLE))))
  }

  function SegInWaitAck(): Prog {
    AwaitPacket(IN_WAIT_ACK, IN_FAIL, InAck())
  }

  function SegInFail(): Prog {
    Do(Notify(NOTIFY_TX_FAIL), Goto(IDLE))
  }

  // IN, isochronous

  function SegInIsoc(): Prog {
    Do(Ld(BdState), Jne(IN_ISOC_NO_DATA, BD_IS_RDY_DATA, ALL, Do(Tx(PID_DATA0, false), End)))
  }

  function SegInIsocWaitTx(): Prog {
    AwaitTx(IN_ISOC_WAIT_TX, Finish(BD_DONE_OK, false, false, NOTIFY_SUCCESS, Goto(IDLE)))
  }

  // SETUP

  function SegDoSetup(): Prog {
    Do(Ld(EpType), Jne(RX_DISCARD_NEXT, EP_TYPE_CTRL, EP_TYPE_CEL_MSK2,
    Do(Ld(BdState), Jne(RX_DISCARD_NEXT, BD_IS_RDY_DATA, ALL, Do(EvtRto(TIMEOUT), End)))))
  }

  function SetupData(): Prog {
    Do(Ld(PktPid), Jne(SETUP_FAIL, PID_DATA0, ALL, Finish(BD_DONE_OK, true, true, NOTIFY_SUCCESS, Goto(TX_ACK))))
  }

  function SegSetupWaitData(): Prog {
    AwaitPacket(SETUP_WAIT_DATA, SETUP_FAIL, SetupData())
  }

  function SegSetupFail(): Prog {
    Finish(BD_DONE_ERR, false, false, NOTIFY_RX_FAIL, Goto(IDLE))
  }

  // OUT, bulk/control/interrupt

  function OutBd(): Prog {
    Do(Ld(BdState), Jne(OUT_DROP_DATA, BD_IS_RDY_DATA, ALL, Do(EvtRto(TIMEOUT), End)))
  }

  function SegDoOut(): Prog {
    CheckType(OUT_ISOC, OUT_DROP_DATA, OUT_DROP_DATA, OutBd())
  }

  function OutIsData(rest: Prog): Prog {
    Do(Ld(PktPidChk), Jne(OUT_FAIL, PID_DATA_VAL, PID_DATA_MSK, rest))
  }

  function OutType(rest: Prog): Prog {
    Do(Ld(EpType), Jeq(TX_STALL_HALT, EP_TYPE_HALT, EP_TYPE_HALT,
        Jeq(TX_NAK, EP_TYPE_CEL_CTRL, EP_TYPE_CEL_MSK2, rest)))
  }

  function OutToggle(rest: Prog): Prog {
    Do(Ld(PktPidChk), Jeq(TX_ACK, PID_DATA1, ALL, rest))
  }

  function OutTake(): Prog {
    Do(Ld(BdState), Jne(TX_NAK, BD_RDY_VAL, BD_RDY_MSK, Jeq(TX_STALL_BD, BD_IS_RDY_STALL, ALL,
    Finish(BD_DONE_OK, true, false, NOTIFY_SUCCESS, Goto(TX_ACK)))))
  }

  function OutRespond(): Prog {
    OutType(OutToggle(OutTake()))
  }

  function SegOutWaitData(): Prog {
    AwaitPacket(OUT_WAIT_DATA, OUT_FAIL, OutIsData(OutRespond()))
  }

  function SegOutDropData(): Prog {
    Do(Zl, Goto(OUT_WAIT_DATA))
  }

  function SegOutFail(): Prog {
    Do(Ld(BdState), Jne(IDLE, BD_RDY_VAL, BD_RDY_MSK, Finish(BD_DONE_ERR, false, false, NOTIFY_RX_FAIL, Goto(IDLE))))
  }

  // OUT, isochronous

  function SegOutIsoc(): Prog {
    Do(Ld(BdState), Jne(OUT_ISOC_NO_SPACE, BD_IS_RDY_DATA, ALL, Do(EvtRto(TIMEOUT), End)))
  }

  function OutIsocData(): Prog {
    Do(Ld(PktPid), Jne(OUT_ISOC_FAIL, PID_DATA_VAL, PID_DATA_MSK,
        Finish(BD_DONE_OK, false, false, NOTIFY_SUCCESS, Goto(IDLE))))
  }

  function SegOutIsocWaitData(): Prog {
    AwaitPacket(OUT_ISOC_WAIT_DATA, OUT_ISOC_FAIL, OutIsocData())
  }

  function SegOutIsocFail(): Prog {
    Finish(BD_DONE_ERR, false, false, NOTIFY_RX_FAIL, Goto(IDLE))
  }

  function SegOutIsocNoSpace(): Prog {
    Goto(RX_DISCARD_NEXT)
  }

  // Shared tails

  function SegTxStallBd(): Prog {
    Finish(BD_DONE_OK, false, false, NOTIFY_SUCCESS, End)
  }

  function SegRxDiscardNext(): Prog {
    Do(Zl, Do(EvtRto(TIMEOUT), End))
  }

  function SegRxDiscardWait(): Prog {
    Do(Ld(Evt), Jeq(RX_DISCARD_WAIT, ZERO, EVT_RX_END, Goto(IDLE)))
  }

  function Seg(l: Lab): Prog {
    match l
    case IDLE => SegIdle()
    case DO_IN => SegDoIn()
    case IN_WAIT_TX => SegInWaitTx()
    case IN_WAIT_ACK => SegInWaitAck()
    case IN_FAIL => SegInFail()
    case IN_ISOC => SegInIsoc()
    case IN_ISOC_WAIT_TX => SegInIsocWaitTx()
    case IN_ISOC_NO_DATA => SendEmpty(PID_DATA0)
    case DO_SETUP => SegDoSetup()
    case SETUP_WAIT_DATA => SegSetupWaitData()
    case SETUP_FAIL => SegSetupFail()
    case DO_OUT => SegDoOut()
    case OUT_WAIT_DATA => SegOutWaitData()
    case OUT_DROP_DATA => SegOutDropData()
    case OUT_FAIL => SegOutFail()
    case OUT_ISOC => SegOutIsoc()
    case OUT_ISOC_WAIT_DATA => SegOutIsocWaitData()
    case OUT_ISOC_FAIL => SegOutIsocFail()
    case OUT_ISOC_NO_SPACE => SegOutIsocNoSpace()
    case TX_STALL_BD => SegTxStallBd()
    case TX_STALL_HALT => SendEmpty(PID_STALL)
    case TX_NAK => SendEmpty(PID_NAK)
    case TX_ACK => SendEmpty(PID_ACK)
    case RX_DISCARD_NEXT => SegRxDiscardNext()
    case RX_DISCARD_WAIT => SegRxDiscardWait()
  }

  predicate NoIsoc(defs: set<string>) { "NO_ISOC" in defs }
  predicate IgnoreErr(defs: set<string>) { "IGNORE_RX_ERR" in defs }

  predicate IsFail(l: Lab) {
    l.SETUP_FAIL? || l.OUT_FAIL? || l.OUT_ISOC_FAIL?
  }

  /** The labels in the order of the listing. The three failure labels have two places: without
      error reports they stand, with nothing of their own, before IDLE. */
  function At(p: nat): Lab {
    if p == 0 then SETUP_FAIL
    else if p == 1 then OUT_FAIL
    else if p == 2 then OUT_ISOC_FAIL
    else if p == 3 then IDLE
    else if p == 4 then DO_IN
    else if p == 5 then IN_WAIT_TX
    else if p == 6 then IN_WAIT_ACK
    else if p == 7 then IN_FAIL
    else if p == 8 then IN_ISOC
    else if p == 9 then IN_ISOC_WAIT_TX
    else if p == 10 then IN_ISOC_NO_DATA
    else if p == 11 then DO_SETUP
    else if p == 12 then SETUP_WAIT_DATA
    else if p == 13 then SETUP_FAIL
    else if p == 14 then DO_OUT
    else if p == 15 then OUT_WAIT_DATA
    else if p == 16 then OUT_DROP_DATA
    else if p == 17 then OUT_FAIL
    else if p == 18 then OUT_ISOC
    else if p == 19 then OUT_ISOC_WAIT_DATA
    else if p == 20 then OUT_ISOC_FAIL
    else if p == 21 then OUT_ISOC_NO_SPACE
    else if p == 22 then TX_STALL_BD
    else if p == 23 then TX_STALL_HALT
    else if p == 24 then TX_NAK
    else if p == 25 then TX_ACK
    else if p == 26 then RX_DISCARD_NEXT
    else RX_DISCARD_WAIT
  }

  const PLACES := 28

  function Place(l: Lab, ignoreErr: bool): nat {
    match l
    case IDLE => 3
    case DO_IN => 4
    case IN_WAIT_TX => 5
    case IN_WAIT_ACK => 6
    case IN_FAIL => 7
    case IN_ISOC => 8
    case IN_ISOC_WAIT_TX => 9
    case IN_ISOC_NO_DATA => 10
    case DO_SETUP => 11
    case SETUP_WAIT_DATA => 12
    case SETUP_FAIL => if ignoreErr then 0 else 13
    case DO_OUT => 14
    case OUT_WAIT_DATA => 15
    case OUT_DROP_DATA => 16
    case OUT_FAIL => if ignoreErr then 1 else 17
    case OUT_ISOC => 18
    case OUT_ISOC_WAIT_DATA => 19
    case OUT_ISOC_FAIL => if ignoreErr then 2 else 20
    case OUT_ISOC_NO_SPACE => 21
    case TX_STALL_BD => 22
    case TX_STALL_HALT => 23
    case TX_NAK => 24
    case TX_ACK => 25
    case RX_DISCARD_NEXT => 26
    case RX_DISCARD_WAIT => 27
  }

  /** Which places a build has. */
  predicate Shown(p: nat, defs: set<string>) {
    if p < 3 then IgnoreErr(defs)
    else if p == 13 || p == 17 then !IgnoreErr(defs)
    else if p == 20 then !NoIsoc(defs) && !IgnoreErr(defs)
    else if 8 <= p < 11 || 18 <= p < 22 then !NoIsoc(defs)
    else true
  }

  /** A run of labelled blocks from one place up to another, and what follows in the listing.
      The outline of the listing is the same whatever the blocks hold. */
  function Blocks(p: nat, q: nat, rest: Prog, seg: Lab -> Prog): Prog
    decreases q - p
  {
    if p >= q then rest else Item(Label(At(p)), Join(seg(At(p)), Blocks(p + 1, q, rest, seg)))
  }

  /** Labels with nothing of their own. */
  function Bare(p: nat, q: nat): Prog
    decreases q - p
  {
    if p >= q then End else Item(Label(At(p)), Bare(p + 1, q))
  }

  /** The listing's last part: OUT transactions and the shared tails. */
  function ListingOut(seg: Lab -> Prog): Prog {
    Blocks(14, 17, IfNotDef("IGNORE_RX_ERR", Blocks(17, 18, End, seg),
    IfNotDef("NO_ISOC",
      Blocks(18, 20, IfNotDef("IGNORE_RX_ERR", Blocks(20, 21, End, seg), Blocks(21, 22, End, seg)), seg),
    Blocks(22, PLACES, End, seg))), seg)
  }

  function ListingSetup(seg: Lab -> Prog): Prog {
    Blocks(11, 13, IfNotDef("IGNORE_RX_ERR", Blocks(13, 14, End, seg), ListingOut(seg)), seg)
  }

  /** The whole listing, in order, with its conditional sections. */
  function Listing(seg: Lab -> Prog): Prog {
    Section("IGNORE_RX_ERR", true, Bare(0, 3), None,
    Blocks(3, 8, IfNotDef("NO_ISOC", Blocks(8, 11, End, seg), ListingSetup(seg)), seg))
  }

  // ---- The selected program as a list of blocks ----------------------------------------------

  /** What a label is followed by in a given build. */
  function BodyIn(l: Lab, defs: set<string>, seg: Lab -> Prog): Prog {
    if IsFail(l) && IgnoreErr(defs) then End else seg(l)
  }

  /** The code of a build from one place up to another. */
  function CodeOf(p: nat, q: nat, defs: set<string>, seg: Lab -> Prog): Code<Lab>
    decreases q - p
  {
    if p >= q then Nil
    else if Shown(p, defs) then Cons(Label(At(p)),
        Append(Select(BodyIn(At(p), defs, seg), defs), CodeOf(p + 1, q, defs, seg)))
    else CodeOf(p + 1, q, defs, seg)
  }

  lemma {:induction false} SelectJoin(a: Prog, b: Prog, defs: set<string>)
    ensures Select(Join(a, b), defs) == Append(Select(a, defs), Select(b, defs))
  {
    match a
    case End =>
    case Item(t, rest) => SelectJoin(rest, b, defs);
    case Section(sym, d, thn, els, rest) =>
      SelectJoin(rest, b, defs);
      AppendAssoc(if (sym in defs) == d then Select(thn, defs) else if els.Some? then Select(els.value, defs) else Nil,
                  Select(rest, defs), Select(b, defs));
  }

  lemma {:induction false} CodeCat(p: nat, q: nat, r: nat, defs: set<string>, seg: Lab -> Prog)
    requires p <= q <= r
    ensures CodeOf(p, r, defs, seg) == Append(CodeOf(p, q, defs, seg), CodeOf(q, r, defs, seg))
    decreases q - p
  {
    if p < q {
      CodeCat(p + 1, q, r, defs, seg);
      if Shown(p, defs) {
        AppendAssoc(Select(BodyIn(At(p), defs, seg), defs), CodeOf(p + 1, q, defs, seg), CodeOf(q, r, defs, seg));
      }
    }
  }

  /** Blocks that stand where a build shows them select their code. */
  lemma {:induction false} SelectBlocks(p: nat, q: nat, r: nat, rest: Prog, defs: set<string>, seg: Lab -> Prog)
    requires p <= q <= r && Select(rest, defs) == CodeOf(q, r, defs, seg)
    requires forall i :: p <= i < q ==> Shown(i, defs) && !(IsFail(At(i)) && IgnoreErr(defs))
    ensures Select(Blocks(p, q, rest, seg), defs) == CodeOf(p, r, defs, seg)
    decreases q - p
  {
    if p < q {
      assert Shown(p, defs) && !(IsFail(At(p)) && IgnoreErr(defs));
      forall i | p + 1 <= i < q ensures Shown(i, defs) && !(IsFail(At(i)) && IgnoreErr(defs)) {
      }
      SelectBlocks(p + 1, q, r, rest, defs, seg);
      SelectJoin(seg(At(p)), Blocks(p + 1, q, rest, seg), defs);
    }
  }

  lemma {:induction false} SelectBare(p: nat, q: nat, defs: set<string>, seg: Lab -> Prog)
    requires forall i :: p <= i < q ==> Shown(i, defs) && IsFail(At(i)) && IgnoreErr(defs)
    ensures Select(Bare(p, q), defs) == CodeOf(p, q, defs, seg)
    decreases q - p
  {
    if p < q {
      assert Shown(p, defs) && IsFail(At(p)) && IgnoreErr(defs);
      forall i | p + 1 <= i < q ensures Shown(i, defs) && IsFail(At(i)) && IgnoreErr(defs) {
      }
      SelectBare(p + 1, q, defs, seg);
    }
  }

  lemma {:induction false} Hidden(p: nat, q: nat, defs: set<string>, seg: Lab -> Prog)
    requires forall i :: p <= i < q ==> !Shown(i, defs)
    ensures CodeOf(p, q, defs, seg) == Nil
    decreases q - p
  {
    if p < q {
      assert !Shown(p, defs);
      forall i | p + 1 <= i < q ensures !Shown(i, defs) {
      }
      Hidden(p + 1, q, defs, seg);
    }
  }

  /** A section that is either all shown or all hidden. */
  lemma {:induction false} SelectOptional(p: nat, q: nat, r: nat, sym: string, on: bool, thn: Prog, rest: Prog,
      defs: set<string>, seg: Lab -> Prog)
    requires p <= q <= r && Select(rest, defs) == CodeOf(q, r, defs, seg)
    requires (sym in defs) == on ==> Select(thn, defs) == CodeOf(p, q, defs, seg)
    requires (sym in defs) != on ==> forall i :: p <= i < q ==> !Shown(i, defs)
    ensures Select(Section(sym, on, thn, None, rest), defs) == CodeOf(p, r, defs, seg)
  {
    CodeCat(p, q, r, defs, seg);
    if (sym in defs) != on {
      Hidden(p, q, defs, seg);
    }
  }

  lemma {:induction false} SelectOut(defs: set<string>, seg: Lab -> Prog)
    ensures Select(ListingOut(seg), defs) == CodeOf(14, PLACES, defs, seg)
  {
    var ie, ni := IgnoreErr(defs), NoIsoc(defs);
    SelectBlocks(22, PLACES, PLACES, End, defs, seg);
    SelectOutIsoc(defs, seg);
    var isoc := Blocks(18, 20, IfNotDef("IGNORE_RX_ERR", Blocks(20, 21, End, seg), Blocks(21, 22, End, seg)), seg);
    SelectOptional(18, 22, PLACES, "NO_ISOC", false, isoc, Blocks(22, PLACES, End, seg), defs, seg);
    var k := IfNotDef("NO_ISOC", isoc, Blocks(22, PLACES, End, seg));
    if !ie { SelectBlocks(17, 18, 18, End, defs, seg); }
    SelectOptional(17, 18, PLACES, "IGNORE_RX_ERR", false, Blocks(17, 18, End, seg), k, defs, seg);
    SelectBlocks(14, 17, PLACES, IfNotDef("IGNORE_RX_ERR", Blocks(17, 18, End, seg), k), defs, seg);
  }

  lemma {:induction false} SelectOutIsoc(defs: set<string>, seg: Lab -> Prog)
    ensures !NoIsoc(defs) ==>
      Select(Blocks(18, 20, IfNotDef("IGNORE_RX_ERR", Blocks(20, 21, End, seg), Blocks(21, 22, End, seg)), seg), defs)
          == CodeOf(18, 22, defs, seg)
  {
    if !NoIsoc(defs) {
      SelectBlocks(21, 22, 22, End, defs, seg);
      if !IgnoreErr(defs) { SelectBlocks(20, 21, 21, End, defs, seg); }
      SelectOptional(20, 21, 22, "IGNORE_RX_ERR", false, Blocks(20, 21, End, seg), Blocks(21, 22, End, seg), defs, seg);
      SelectBlocks(18, 20, 22, IfNotDef("IGNORE_RX_ERR", Blocks(20, 21, End, seg), Blocks(21, 22, End, seg)), defs,
          seg);
    }
  }

  lemma {:induction false} SelectSetup(defs: set<string>, seg: Lab -> Prog)
    ensures Select(ListingSetup(seg), defs) == CodeOf(11, PLACES, defs, seg)
  {
    SelectOut(defs, seg);
    if !IgnoreErr(defs) { SelectBlocks(13, 14, 14, End, defs, seg); }
    SelectOptional(13, 14, PLACES, "IGNORE_RX_ERR", false, Blocks(13, 14, End, seg), ListingOut(seg), defs, seg);
    SelectBlocks(11, 13, PLACES, IfNotDef("IGNORE_RX_ERR", Blocks(13, 14, End, seg), ListingOut(seg)), defs, seg);
  }

  /** In every build, the listing selects the blocks of its labels, in order. */
  lemma {:induction false} SelectListing(defs: set<string>, seg: Lab -> Prog)
    ensures Select(Listing(seg), defs) == CodeOf(0, PLACES, defs, seg)
  {
    SelectSetup(defs, seg);
    if !NoIsoc(defs) { SelectBlocks(8, 11, 11, End, defs, seg); }
    SelectOptional(8, 11, PLACES, "NO_ISOC", false, Blocks(8, 11, End, seg), ListingSetup(seg), defs, seg);
    var isoc := IfNotDef("NO_ISOC", Blocks(8, 11, End, seg), ListingSetup(seg));
    SelectBlocks(3, 8, PLACES, isoc, defs, seg);
    if IgnoreErr(defs) { SelectBare(0, 3, defs, seg); }
    SelectOptional(0, 3, PLACES, "IGNORE_RX_ERR", true, Bare(0, 3), Blocks(3, 8, isoc, seg), defs, seg);
  }

  // ---- The listing is well nested ------------------------------------------------------------

  lemma {:induction false} WellFormedJoin(a: Prog, b: Prog)
    requires WellFormed(a) && WellFormed(b)
    ensures WellFormed(Join(a, b))
  {
    match a
    case End =>
    case Item(_, rest) => WellFormedJoin(rest, b);
    case Section(_, _, _, _, rest) => WellFormedJoin(rest, b);
  }

  lemma {:induction false} WellFormedBlocks(p: nat, q: nat, rest: Prog, seg: Lab -> Prog)
    requires WellFormed(rest) && forall l :: WellFormed(seg(l))
    ensures WellFormed(Blocks(p, q, rest, seg))
    decreases q - p
  {
    if p < q {
      WellFormedBlocks(p + 1, q, rest, seg);
      WellFormedJoin(seg(At(p)), Blocks(p + 1, q, rest, seg));
    }
  }

  lemma {:induction false} WellFormedListing(seg: Lab -> Prog)
    requires forall l :: WellFormed(seg(l))
    ensures WellFormed(Listing(seg))
  {
    WellFormedOut(seg);
    WellFormedBlocks(13, 14, End, seg);
    WellFormedBlocks(11, 13, IfNotDef("IGNORE_RX_ERR", Blocks(13, 14, End, seg), ListingOut(seg)), seg);
    WellFormedBlocks(8, 11, End, seg);
    WellFormedBlocks(3, 8, IfNotDef("NO_ISOC", Blocks(8, 11, End, seg), ListingSetup(seg)), seg);
    assert WellFormed(Item(Label(OUT_ISOC_FAIL), End));
  }

  lemma {:induction false} WellFormedOut(seg: Lab -> Prog)
    requires forall l :: WellFormed(seg(l))
    ensures WellFormed(ListingOut(seg))
  {
    WellFormedBlocks(20, 21, End, seg);
    WellFormedBlocks(21, 22, End, seg);
    var isoc := IfNotDef("IGNORE_RX_ERR", Blocks(20, 21, End, seg), Blocks(21, 22, End, seg));
    WellFormedBlocks(18, 20, isoc, seg);
    WellFormedBlocks(22, PLACES, End, seg);
    WellFormedBlocks(17, 18, End, seg);
    var k := IfNotDef("NO_ISOC", Blocks(18, 20, isoc, seg), Blocks(22, PLACES, End, seg));
    WellFormedBlocks(14, 17, IfNotDef("IGNORE_RX_ERR", Blocks(17, 18, End, seg), k), seg);
  }
}
