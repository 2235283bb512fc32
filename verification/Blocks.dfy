/** The microcode read as basic blocks: from a label, straight-line code runs to the next label.
    The selected program, and the ROM assembled from it, do exactly what the blocks do. */
module Blocks {
  import opened Isa
  import opened Assembler
  import opened Engine
  import opened Microcode

  /** The program of a build. */
  function Program(defs: set<string>, seg: Lab -> Prog): Code<Lab> {
    Select(Listing(seg), defs)
  }

  function CodeFrom(p: nat, defs: set<string>, seg: Lab -> Prog): Code<Lab> {
    CodeOf(p, PLACES, defs, seg)
  }

  /** The labels a build has. */
  predicate Present(l: Lab, defs: set<string>) {
    if l.IN_ISOC? || l.IN_ISOC_WAIT_TX? || l.IN_ISOC_NO_DATA? || l.OUT_ISOC? || l.OUT_ISOC_WAIT_DATA?
        || l.OUT_ISOC_NO_SPACE?
    then !NoIsoc(defs)
    else l.OUT_ISOC_FAIL? ==> !NoIsoc(defs) || IgnoreErr(defs)
  }

  lemma PresentShown(l: Lab, defs: set<string>)
    ensures Present(l, defs) <==> Shown(Place(l, IgnoreErr(defs)), defs)
  {
  }

  lemma PlaceOf(p: nat, defs: set<string>)
    requires p < PLACES && Shown(p, defs)
    ensures Place(At(p), IgnoreErr(defs)) == p
  {
  }

  lemma LabelAt(l: Lab, defs: set<string>)
    ensures Place(l, IgnoreErr(defs)) < PLACES && At(Place(l, IgnoreErr(defs))) == l
  {
  }

  // ---- Block bodies --------------------------------------------------------------------------

  predicate Allowed(t: Token<Lab>, defs: set<string>) {
    (t.Op? && !t.insn.Jmp? && Encodable(t.insn)) || (t.Jump? && Present(t.target, defs))
  }

  /** Straight-line source: operations and jumps to known labels, no labels, no else parts. */
  predicate Straight(src: Prog, defs: set<string>)
    decreases src
  {
    match src
    case End => true
    case Item(t, rest) => Allowed(t, defs) && Straight(rest, defs)
    case Section(sym, d, thn, els, rest) =>
      els == None && WellFormed(thn) && ((sym in defs) == d ==> Straight(thn, defs)) && Straight(rest, defs)
  }

  /** The blocks that can fall through: those that end before a label, and in builds without
      error reports the three empty failure blocks. */
  predicate Falls(l: Lab, defs: set<string>) {
    || l.DO_IN? || l.IN_WAIT_TX? || l.DO_SETUP? || l.DO_OUT? || l.TX_STALL_BD? || l.RX_DISCARD_NEXT?
    || ((l.IN_ISOC? || l.OUT_ISOC?) && !NoIsoc(defs))
    || (IsFail(l) && IgnoreErr(defs))
  }

  /** Source that ends in an unconditional jump. */
  predicate Closed(src: Prog) {
    match src
    case End => false
    case Item(t, rest) => if rest.End? then t.Jump? && t.cond == ALWAYS else Closed(rest)
    case Section(_, _, _, _, rest) => Closed(rest)
  }

  /** The number of items a source can select. */
  function Items(src: Prog): nat {
    match src
    case End => 0
    case Item(_, rest) => 1 + Items(rest)
    case Section(_, _, thn, _, rest) => Items(thn) + Items(rest)
  }

  function Size(l: Lab): nat {
    match l
    case OUT_FAIL => 5
    case IN_WAIT_TX => 4
    case OUT_WAIT_DATA => 16
    case OUT_DROP_DATA => 2
    case OUT_ISOC_WAIT_DATA => 8
    case IN_FAIL => 2
    case RX_DISCARD_NEXT => 2
    case DO_IN => 9
    case DO_OUT => 8
    case IDLE => 9
    case IN_WAIT_ACK => 8
    case IN_ISOC_WAIT_TX => 6
    case TX_STALL_BD => 2
    case OUT_ISOC_NO_SPACE => 1
    case SETUP_WAIT_DATA => 8
    case DO_SETUP => 5
    case _ => 3
  }

  /** How a block leaves: by a taken jump, or by falling through to the next label. */
  datatype Exit = Go(l: Lab, c: Cpu) | Fall(c: Cpu)

  function RunBody(src: Prog, defs: set<string>, c: Cpu): Exit
    decreases src
  {
    match src
    case End => Fall(c)
    case Item(t, rest) =>
      if t.Jump? && t.cond.Taken(c.a) then Go(t.target, c)
      else RunBody(rest, defs, if t.Op? then Step(t.insn, c) else c)
    case Section(sym, d, thn, _, rest) =>
      var e := if (sym in defs) == d then RunBody(thn, defs, c) else Fall(c);
      if e.Go? then e else RunBody(rest, defs, e.c)
  }

  lemma SymRunMore(prog: Code<Lab>, c: Sym<Lab, Cpu>, n: nat, k: nat)
    ensures SymRun(prog, TheMachine(), SymRun(prog, TheMachine(), c, n), k) == SymRun(prog, TheMachine(), c, n + k)
  {
  }

  /** The symbolic configuration a block leaves in. */
  function Target(prog: Code<Lab>, e: Exit, k: Code<Lab>): Sym<Lab, Cpu> {
    if e.Go? then Sym(Find(prog, e.l), e.c) else Sym(k, e.c)
  }

  /** The symbolic program runs straight-line code as `RunBody` says. */
  lemma {:induction false} BodyRuns(prog: Code<Lab>, src: Prog, defs: set<string>, c: Cpu, k: Code<Lab>)
      returns (n: nat)
    requires Straight(src, defs)
    ensures SymRun(prog, TheMachine(), Sym(Append(Select(src, defs), k), c), n)
      == Target(prog, RunBody(src, defs, c), k)
    decreases src
  {
    var m := TheMachine();
    var s := Sym(Append(Select(src, defs), k), c);
    match src
    case End => n := 0;
    case Item(t, rest) =>
      var one := SymRun(prog, m, s, 1);
      assert one == SymStep(prog, m, SymRun(prog, m, s, 0));
      if t.Jump? && t.cond.Taken(c.a) {
        n := 1;
      } else {
        n := BodyRuns(prog, rest, defs, one.s, k);
        SymRunMore(prog, s, 1, n);
        n := 1 + n;
      }
    case Section(sym, d, thn, els, rest) =>
      if (sym in defs) == d {
        AppendAssoc(Select(thn, defs), Select(rest, defs), k);
        n := BodyRuns(prog, thn, defs, c, Append(Select(rest, defs), k));
        var e := RunBody(thn, defs, c);
        if e.Fall? {
          var n' := BodyRuns(prog, rest, defs, e.c, k);
          SymRunMore(prog, s, n, n');
          n := n + n';
        }
      } else {
        n := BodyRuns(prog, rest, defs, c, k);
      }
  }

  // Every block of the listing is straight-line code with known targets

  /** Straight-line code of at most `n` items, closed if it must be. */
  predicate Tidy(src: Prog, defs: set<string>, n: nat, closed: bool) {
    Straight(src, defs) && Items(src) <= n && (closed ==> Closed(src))
  }

  lemma TidyDo(insn: Insn, rest: Prog, defs: set<string>, n: nat, closed: bool)
    requires Tidy(rest, defs, n, closed) && !insn.Jmp? && Encodable(insn)
    ensures Tidy(Do(insn, rest), defs, n + 1, closed)
  {
  }

  lemma TidyTest(l: Lab, cond: Cond, rest: Prog, defs: set<string>, n: nat, closed: bool)
    requires Tidy(rest, defs, n, closed) && Present(l, defs)
    ensures Tidy(Item(Jump(l, cond), rest), defs, n + 1, closed)
  {
  }

  lemma TidyGoto(l: Lab, defs: set<string>)
    requires Present(l, defs)
    ensures Tidy(Goto(l), defs, 1, true)
  {
  }

  lemma TidyFinish(state: Tri, dtFlip: bool, celSet: bool, code: Nib, rest: Prog, defs: set<string>, n: nat,
      closed: bool)
    requires Tidy(rest, defs, n, closed)
    ensures Tidy(Finish(state, dtFlip, celSet, code, rest), defs, n + 2, closed)
  {
    TidyDo(Notify(code), rest, defs, n, closed);
  }

  lemma TidySend(pid: Nib, defs: set<string>)
    ensures Tidy(SendEmpty(pid), defs, 3, true)
  {
    TidyGoto(IDLE, defs);
    TidyDo(Tx(pid, false), Goto(IDLE), defs, 1, true);
  }

  lemma TidyAwait(self: Lab, fail: Lab, rest: Prog, defs: set<string>, n: nat)
    requires Tidy(rest, defs, n, true) && Present(self, defs) && Present(fail, defs)
    ensures Tidy(AwaitPacket(self, fail, rest), defs, n + 3, true)
  {
    var test := Jeq(fail, ZERO, EVT_RX_OK, rest);
    TidyTest(fail, Cond(EVT_RX_OK, ZERO, false), rest, defs, n, true);
    TidyTest(self, Cond(EVT_RX_END, ZERO, false), test, defs, n + 1, true);
  }

  lemma TidyCheck(isoc: Lab, halted: Lab, locked: Lab, rest: Prog, defs: set<string>, n: nat)
    requires Tidy(rest, defs, n, false) && (NoIsoc(defs) || Present(isoc, defs)) && Present(halted, defs)
      && Present(locked, defs)
    ensures Tidy(CheckType(isoc, halted, locked, rest), defs, n + 5, false)
  {
    var a := Jeq(locked, EP_TYPE_CEL_CTRL, EP_TYPE_CEL_MSK2, rest);
    var b := Jeq(halted, EP_TYPE_HALT, EP_TYPE_HALT, a);
    var c := Jeq(IDLE, EP_TYPE_NONE, EP_TYPE_MSK1, b);
    TidyTest(locked, Cond(EP_TYPE_CEL_MSK2, EP_TYPE_CEL_CTRL, false), rest, defs, n, false);
    TidyTest(halted, Cond(EP_TYPE_HALT, EP_TYPE_HALT, false), a, defs, n + 1, false);
    assert Present(IDLE, defs);
    hide Tidy, Present;
    TidyTest(IDLE, Cond(EP_TYPE_MSK1, EP_TYPE_NONE, false), b, defs, n + 2, false);
    TidyIsoc(isoc, Cond(EP_TYPE_MSK1, EP_TYPE_ISOC, false), c, defs, n + 3);
    TidyDo(Ld(EpType), IfNotDef("NO_ISOC", Jeq(isoc, EP_TYPE_ISOC, EP_TYPE_MSK1, End), c), defs, n + 4, false);
  }

  /** One test that builds without isochronous endpoints leave out. */
  lemma TidyIsoc(isoc: Lab, cond: Cond, rest: Prog, defs: set<string>, n: nat)
    requires Tidy(rest, defs, n, false) && (NoIsoc(defs) || Present(isoc, defs))
    ensures Tidy(IfNotDef("NO_ISOC", Item(Jump(isoc, cond), End), rest), defs, n + 1, false)
  {
    var d := Item(Jump(isoc, cond), End);
    assert Items(d) == 1 && WellFormed(d) && (!NoIsoc(defs) ==> Straight(d, defs));
  }

  // One block at a time

  lemma TidyIdle(defs: set<string>)
    ensures Tidy(SegIdle(), defs, 9, true)
  {
    assert Tidy(IdleToken(), defs, 5, true);
    var t := IdleToken();
    TidyTest(IDLE, Cond(EVT_RX_OK, ZERO, false), t, defs, 5, true);
    TidyDo(EvtClr(EVT_ALL), Jeq(IDLE, ZERO, EVT_RX_OK, t), defs, 6, true);
  }

  lemma TidyDoIn(defs: set<string>)
    ensures Tidy(SegDoIn(), defs, 9, false)
  {
    assert Tidy(InBd(), defs, 4, false);
    TidyCheck(IN_ISOC, TX_STALL_HALT, TX_NAK, InBd(), defs, 4);
  }

  lemma TidyInWaitTx(defs: set<string>)
    ensures Tidy(SegInWaitTx(), defs, 4, false)
  {
  }

  lemma TidyInWaitAck(defs: set<string>)
    ensures Tidy(SegInWaitAck(), defs, 8, true)
  {
    assert Tidy(InAck(), defs, 5, true);
    TidyAwait(IN_WAIT_ACK, IN_FAIL, InAck(), defs, 5);
  }

  lemma TidyInFail(defs: set<string>)
    ensures Tidy(SegInFail(), defs, 2, true)
  {
  }

  lemma TidyInIsoc(defs: set<string>)
    requires !NoIsoc(defs)
    ensures Tidy(SegInIsoc(), defs, 3, false)
  {
  }

  lemma TidyInIsocWaitTx(defs: set<string>)
    requires !NoIsoc(defs)
    ensures Tidy(SegInIsocWaitTx(), defs, 6, true)
  {
  }

  lemma TidyDoSetup(defs: set<string>)
    ensures Tidy(SegDoSetup(), defs, 5, false)
  {
  }

  lemma TidySetupWaitData(defs: set<string>)
    ensures Tidy(SegSetupWaitData(), defs, 8, true)
  {
    assert Tidy(SetupData(), defs, 5, true);
    TidyAwait(SETUP_WAIT_DATA, SETUP_FAIL, SetupData(), defs, 5);
  }

  lemma TidyFail(defs: set<string>)
    ensures Tidy(SegSetupFail(), defs, 3, true) && Tidy(SegOutIsocFail(), defs, 3, true)
  {
    TidyGoto(IDLE, defs);
    TidyFinish(BD_DONE_ERR, false, false, NOTIFY_RX_FAIL, Goto(IDLE), defs, 1, true);
  }

  lemma TidyDoOut(l: Lab, defs: set<string>)
    requires l.DO_OUT?
    ensures Tidy(Seg(l), defs, Size(l), !Falls(l, defs))
  {
    assert Tidy(OutBd(), defs, 3, false);
    TidyCheck(OUT_ISOC, OUT_DROP_DATA, OUT_DROP_DATA, OutBd(), defs, 3);
  }

  lemma TidyOutTake(defs: set<string>)
    ensures Tidy(OutTake(), defs, 6, true)
  {
  }

  lemma TidyOutRest(rest: Prog, defs: set<string>, n: nat)
    requires Tidy(rest, defs, n, true)
    ensures Tidy(OutToggle(rest), defs, n + 2, true) && Tidy(OutType(rest), defs, n + 3, true)
      && Tidy(OutIsData(rest), defs, n + 2, true)
  {
    TidyTest(TX_NAK, Cond(EP_TYPE_CEL_MSK2, EP_TYPE_CEL_CTRL, false), rest, defs, n, true);
  }

  lemma TidyOutWaitData(defs: set<string>)
    ensures Tidy(SegOutWaitData(), defs, 16, true)
  {
    var take := OutTake();
    TidyOutTake(defs);
    TidyOutRest(take, defs, 6);
    TidyOutRest(OutToggle(take), defs, 8);
    TidyOutRest(OutType(OutToggle(take)), defs, 11);
    TidyAwait(OUT_WAIT_DATA, OUT_FAIL, OutIsData(OutType(OutToggle(take))), defs, 13);
  }

  lemma TidyOutDropData(l: Lab, defs: set<string>)
    requires l.OUT_DROP_DATA?
    ensures Tidy(Seg(l), defs, Size(l), !Falls(l, defs))
  {
  }

  lemma TidyOutFail(l: Lab, defs: set<string>)
    requires l.OUT_FAIL? && !IgnoreErr(defs)
    ensures Tidy(Seg(l), defs, Size(l), !Falls(l, defs))
  {
  }

  lemma TidyOutIsoc(l: Lab, defs: set<string>)
    requires l.OUT_ISOC? && !NoIsoc(defs)
    ensures Tidy(Seg(l), defs, Size(l), !Falls(l, defs))
  {
  }

  lemma TidyOutIsocWaitData(l: Lab, defs: set<string>)
    requires l.OUT_ISOC_WAIT_DATA? && !NoIsoc(defs)
    ensures Tidy(Seg(l), defs, Size(l), !Falls(l, defs))
  {
    assert Tidy(OutIsocData(), defs, 5, true);
    TidyAwait(OUT_ISOC_WAIT_DATA, OUT_ISOC_FAIL, OutIsocData(), defs, 5);
  }

  lemma TidyOutIsocFail(l: Lab, defs: set<string>)
    requires l.OUT_ISOC_FAIL? && !NoIsoc(defs) && !IgnoreErr(defs)
    ensures Tidy(Seg(l), defs, Size(l), !Falls(l, defs))
  {
    TidyFail(defs);
  }

  lemma TidyOutIsocNoSpace(l: Lab, defs: set<string>)
    requires l.OUT_ISOC_NO_SPACE? && !NoIsoc(defs)
    ensures Tidy(Seg(l), defs, Size(l), !Falls(l, defs))
  {
    TidyGoto(RX_DISCARD_NEXT, defs);
  }

  lemma TidyTails(defs: set<string>)
    ensures Tidy(SegTxStallBd(), defs, 2, false) && Tidy(SegRxDiscardNext(), defs, 2, false)
      && Tidy(SegRxDiscardWait(), defs, 3, true)
  {
  }

  predicate IsInBlock(l: Lab) {
    l.IDLE? || l.DO_IN? || l.IN_WAIT_TX? || l.IN_WAIT_ACK? || l.IN_FAIL? || l.IN_ISOC? || l.IN_ISOC_WAIT_TX?
        || l.IN_ISOC_NO_DATA?
  }

  predicate IsOutBlock(l: Lab) {
    l.DO_OUT? || l.OUT_DROP_DATA? || l.OUT_FAIL? || l.OUT_ISOC? || l.OUT_ISOC_WAIT_DATA? || l.OUT_ISOC_FAIL?
        || l.OUT_ISOC_NO_SPACE?
  }

  lemma StraightIn(l: Lab, defs: set<string>)
    requires IsInBlock(l) && Present(l, defs) && !(IsFail(l) && IgnoreErr(defs))
    ensures Tidy(Seg(l), defs, Size(l), !Falls(l, defs))
  {
    if l.IDLE? {
      TidyIdle(defs);
    } else if l.DO_IN? {
      TidyDoIn(defs);
    } else if l.IN_WAIT_TX? {
      TidyInWaitTx(defs);
    } else if l.IN_WAIT_ACK? {
      TidyInWaitAck(defs);
    } else if l.IN_FAIL? {
      TidyInFail(defs);
    } else if l.IN_ISOC? {
      TidyInIsoc(defs);
    } else if l.IN_ISOC_WAIT_TX? {
      TidyInIsocWaitTx(defs);
    } else {
      TidySend(PID_DATA0, defs);
    }
  }

  lemma StraightOut(l: Lab, defs: set<string>)
    requires (l.DO_OUT? || l.OUT_DROP_DATA? || (l.OUT_FAIL? && !IgnoreErr(defs)))
    ensures Tidy(Seg(l), defs, Size(l), !Falls(l, defs))
  {
    if l.DO_OUT? {
      TidyDoOut(l, defs);
    } else if l.OUT_DROP_DATA? {
      TidyOutDropData(l, defs);
    } else {
      TidyOutFail(l, defs);
    }
  }

  lemma StraightOutIsoc(l: Lab, defs: set<string>)
    requires !NoIsoc(defs)
    requires l.OUT_ISOC? || l.OUT_ISOC_WAIT_DATA? || l.OUT_ISOC_NO_SPACE? || (l.OUT_ISOC_FAIL? && !IgnoreErr(defs))
    ensures Tidy(Seg(l), defs, Size(l), !Falls(l, defs))
  {
    if l.OUT_ISOC? {
      TidyOutIsoc(l, defs);
    } else if l.OUT_ISOC_WAIT_DATA? {
      TidyOutIsocWaitData(l, defs);
    } else if l.OUT_ISOC_FAIL? {
      TidyOutIsocFail(l, defs);
    } else {
      TidyOutIsocNoSpace(l, defs);
    }
  }

  lemma StraightRest(l: Lab, defs: set<string>)
    requires !IsInBlock(l) && !IsOutBlock(l) && l != OUT_WAIT_DATA && Present(l, defs)
      && !(IsFail(l) && IgnoreErr(defs))
    ensures Tidy(Seg(l), defs, Size(l), !Falls(l, defs))
  {
    if l.DO_SETUP? {
      TidyDoSetup(defs);
    } else if l.SETUP_WAIT_DATA? {
      TidySetupWaitData(defs);
    } else if l.SETUP_FAIL? {
      TidyFail(defs);
    } else if l.TX_STALL_HALT? {
      TidySend(PID_STALL, defs);
    } else if l.TX_NAK? {
      TidySend(PID_NAK, defs);
    } else if l.TX_ACK? {
      TidySend(PID_ACK, defs);
    } else {
      TidyTails(defs);
    }
  }

  lemma {:induction false} StraightSeg(l: Lab, defs: set<string>)
    requires Present(l, defs)
    ensures Tidy(BodyIn(l, defs, Seg), defs, Size(l), !Falls(l, defs))
  {
    if !(IsFail(l) && IgnoreErr(defs)) {
      if IsInBlock(l) {
        StraightIn(l, defs);
      } else if IsOutBlock(l) && (l.DO_OUT? || l.OUT_DROP_DATA? || l.OUT_FAIL?) {
        StraightOut(l, defs);
      } else if IsOutBlock(l) {
        StraightOutIsoc(l, defs);
      } else if l.OUT_WAIT_DATA? {
        TidyOutWaitData(defs);
      } else {
        StraightRest(l, defs);
      }
    }
  }

  /** What the proofs below need of the blocks' contents. */
  ghost predicate GoodBlocks(defs: set<string>, seg: Lab -> Prog) {
    forall l :: Present(l, defs) ==> Tidy(BodyIn(l, defs, seg), defs, Size(l), !Falls(l, defs))
  }

  lemma SegsGood(defs: set<string>)
    ensures GoodBlocks(defs, Seg)
  {
    forall l | Present(l, defs)
      ensures Tidy(BodyIn(l, defs, Seg), defs, Size(l), !Falls(l, defs))
    {
      StraightSeg(l, defs);
    }
  }

  // ---- Running block by block ----------------------------------------------------------------

  lemma {:induction false} FindBeyond(src: Prog, defs: set<string>, k: Code<Lab>, l: Lab)
    requires Straight(src, defs)
    ensures Find(Append(Select(src, defs), k), l) == Find(k, l)
    decreases src
  {
    match src
    case End =>
    case Item(t, rest) => FindBeyond(rest, defs, k, l);
    case Section(sym, d, thn, els, rest) =>
      FindBeyond(rest, defs, k, l);
      if (sym in defs) == d {
        AppendAssoc(Select(thn, defs), Select(rest, defs), k);
        FindBeyond(thn, defs, Append(Select(rest, defs), k), l);
      }
  }

  /** Jumping to a label lands on its body, followed by the blocks after it. */
  lemma {:induction false} FindPlace(p: nat, q: nat, defs: set<string>, seg: Lab -> Prog)
    requires GoodBlocks(defs, seg)
    requires p <= q < PLACES && Shown(q, defs)
    ensures Find(CodeFrom(p, defs, seg), At(q))
      == Append(Select(BodyIn(At(q), defs, seg), defs), CodeFrom(q + 1, defs, seg))
    decreases q - p
  {
    if p < q {
      FindPlace(p + 1, q, defs, seg);
      if Shown(p, defs) {
        PlaceOf(p, defs);
        PlaceOf(q, defs);
        PresentShown(At(p), defs);
        FindBeyond(BodyIn(At(p), defs, seg), defs, CodeFrom(p + 1, defs, seg), At(q));
      }
    }
  }

  /** What the program holds at a label. */
  lemma FindLabel(l: Lab, defs: set<string>, seg: Lab -> Prog)
    requires GoodBlocks(defs, seg)
    requires Present(l, defs)
    ensures Find(Program(defs, seg), l)
         == Append(Select(BodyIn(l, defs, seg), defs), CodeFrom(Place(l, IgnoreErr(defs)) + 1, defs, seg))
  {
    SelectListing(defs, seg);
    PresentShown(l, defs);
    LabelAt(l, defs);
    FindPlace(0, Place(l, IgnoreErr(defs)), defs, seg);
  }

  /** The label such a block falls through to. */
  function NextLab(l: Lab): Lab {
    match l
    case DO_IN => IN_WAIT_TX
    case IN_WAIT_TX => IN_WAIT_ACK
    case IN_ISOC => IN_ISOC_WAIT_TX
    case DO_SETUP => SETUP_WAIT_DATA
    case DO_OUT => OUT_WAIT_DATA
    case OUT_ISOC => OUT_ISOC_WAIT_DATA
    case TX_STALL_BD => TX_STALL_HALT
    case RX_DISCARD_NEXT => RX_DISCARD_WAIT
    case SETUP_FAIL => OUT_FAIL
    case OUT_FAIL => OUT_ISOC_FAIL
    case _ => IDLE
  }

  /** Straight-line code jumps to labels of the build, and falls through only if nothing closes it. */
  lemma {:induction false} BodyLeaves(src: Prog, defs: set<string>, c: Cpu)
    requires Straight(src, defs)
    ensures var e := RunBody(src, defs, c); e.Go? ==> Present(e.l, defs)
    ensures Closed(src) ==> RunBody(src, defs, c).Go?
    decreases src
  {
    match src
    case End =>
    case Item(t, rest) => BodyLeaves(rest, defs, if t.Op? then Step(t.insn, c) else c);
    case Section(sym, d, thn, _, rest) =>
      if (sym in defs) == d {
        BodyLeaves(thn, defs, c);
      }
      var e := if (sym in defs) == d then RunBody(thn, defs, c) else Fall(c);
      BodyLeaves(rest, defs, e.c);
  }

  /** One block: where it goes, and what it did. */
  function RunBlock(l: Lab, defs: set<string>, c: Cpu, seg: Lab -> Prog): (Lab, Cpu) {
    var e := RunBody(BodyIn(l, defs, seg), defs, c);
    (if e.Go? then e.l else NextLab(l), e.c)
  }

  lemma NextPlace(l: Lab, defs: set<string>)
    requires Falls(l, defs)
    ensures Present(NextLab(l), defs) && Present(l, defs)
    ensures var p := Place(l, IgnoreErr(defs)) + 1;
            p < PLACES && Shown(p, defs) && At(p) == NextLab(l) && Place(NextLab(l), IgnoreErr(defs)) == p
  {
  }

  /** Falling through a block's end is one symbolic step, over the next label. */
  lemma FallStep(l: Lab, defs: set<string>, seg: Lab -> Prog)
    requires GoodBlocks(defs, seg)
    requires Falls(l, defs)
    ensures Present(l, defs)
    ensures CodeFrom(Place(l, IgnoreErr(defs)) + 1, defs, seg)
      == Cons(Label(NextLab(l)), Find(Program(defs, seg), NextLab(l)))
  {
    NextPlace(l, defs);
    FindLabel(NextLab(l), defs, seg);
  }

  /** Straight-line code and, if it falls through, the step over the label that follows. */
  lemma {:induction false} PieceRuns(prog: Code<Lab>, src: Prog, defs: set<string>, c: Cpu, k: Code<Lab>, next: Lab)
      returns (n: nat)
    requires Straight(src, defs)
    requires Closed(src) || k == Cons(Label(next), Find(prog, next))
    ensures var e := RunBody(src, defs, c);
            SymRun(prog, TheMachine(), Sym(Append(Select(src, defs), k), c), n)
            == Sym(Find(prog, if e.Go? then e.l else next), e.c)
  {
    var start := Sym(Append(Select(src, defs), k), c);
    BodyLeaves(src, defs, c);
    n := BodyRuns(prog, src, defs, c, k);
    if RunBody(src, defs, c).Fall? {
      assert SymRun(prog, TheMachine(), start, n + 1)
          == SymStep(prog, TheMachine(), SymRun(prog, TheMachine(), start, n));
      n := n + 1;
    }
  }

  /** A block is some steps of the symbolic program, to a label of the build. */
  lemma {:induction false} BlockRuns(l: Lab, defs: set<string>, c: Cpu, seg: Lab -> Prog) returns (n: nat)
    requires GoodBlocks(defs, seg)
    requires Present(l, defs)
    ensures Present(RunBlock(l, defs, c, seg).0, defs)
    ensures SymRun(Program(defs, seg), TheMachine(), Sym(Find(Program(defs, seg), l), c), n)
         == Sym(Find(Program(defs, seg), RunBlock(l, defs, c, seg).0), RunBlock(l, defs, c, seg).1)
  {
    var k := CodeFrom(Place(l, IgnoreErr(defs)) + 1, defs, seg);
    var body := BodyIn(l, defs, seg);
    FindLabel(l, defs, seg);
    BodyLeaves(body, defs, c);
    if Falls(l, defs) {
      NextPlace(l, defs);
      FallStep(l, defs, seg);
    }
    n := PieceRuns(Program(defs, seg), body, defs, c, k, NextLab(l));
  }

  function Iterate<T>(f: T -> T, x: T, n: nat): T {
    if n == 0 then x else f(Iterate(f, x, n - 1))
  }

  lemma {:induction false} IterateMore<T>(f: T -> T, x: T, n: nat, k: nat)
    ensures Iterate(f, Iterate(f, x, n), k) == Iterate(f, x, n + k)
  {
    if k > 0 {
      IterateMore(f, x, n, k - 1);
    }
  }

  function Stepper(defs: set<string>, seg: Lab -> Prog): ((Lab, Cpu)) -> (Lab, Cpu) {
    (p: (Lab, Cpu)) => RunBlock(p.0, defs, p.1, seg)
  }

  /** A number of blocks, from a label on. */
  function RunBlocks(l: Lab, defs: set<string>, c: Cpu, n: nat, seg: Lab -> Prog): (Lab, Cpu) {
    Iterate(Stepper(defs, seg), (l, c), n)
  }
}
