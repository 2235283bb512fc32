/** The ROM: every build of the microcode assembles, fits the 256 words, and runs as its blocks do. */
module Rom {
  import opened Isa
  import opened Assembler
  import opened Engine
  import opened Microcode
  import opened Blocks

  /** Words a list of items can take: a label is padded by at most three. */
  function Weight<L>(items: Code<L>): nat {
    match items
    case Nil => 0
    case Cons(t, rest) => (if t.Label? then 3 else 1) + Weight(rest)
  }

  lemma {:induction false} LayoutBound<L>(items: Code<L>, address: nat)
    ensures |Layout(items, address)| <= Weight(items)
    ensures forall l <- Labels(items, address) :: Labels(items, address)[l] <= address + |Layout(items, address)|
  {
    if items.Cons? {
      LayoutBound(items.tail, Next(items.head, address));
    }
  }

  lemma {:induction false} WeightAppend<L>(a: Code<L>, b: Code<L>)
    ensures Weight(Append(a, b)) == Weight(a) + Weight(b)
  {
    if a.Cons? {
      WeightAppend(a.tail, b);
    }
  }

  lemma {:induction false} GoodAppend<L>(a: Code<L>, b: Code<L>)
    requires GoodItems(a) && GoodItems(b)
    ensures GoodItems(Append(a, b))
  {
    if a.Cons? {
      GoodAppend(a.tail, b);
    }
  }

  predicate TargetsPresent(items: Code<Lab>, defs: set<string>) {
    items.Cons? ==> (items.head.Jump? ==> Present(items.head.target, defs)) && TargetsPresent(items.tail, defs)
  }

  lemma {:induction false} TargetsAppend(a: Code<Lab>, b: Code<Lab>, defs: set<string>)
    requires TargetsPresent(a, defs) && TargetsPresent(b, defs)
    ensures TargetsPresent(Append(a, b), defs)
  {
    if a.Cons? {
      TargetsAppend(a.tail, b, defs);
    }
  }

  /** What straight-line source selects: no labels, encodable operations, jumps to labels the build has. */
  lemma {:induction false} StraightGood(src: Prog, defs: set<string>)
    requires Straight(src, defs)
    ensures var items := Select(src, defs);
            GoodItems(items) && Defined(items) == {} && UniqueLabels(items) && TargetsPresent(items, defs)
                && Weight(items) <= Items(src)
    decreases src
  {
    match src
    case End =>
    case Item(t, rest) => StraightGood(rest, defs);
    case Section(sym, d, thn, els, rest) =>
      StraightGood(rest, defs);
      if (sym in defs) == d {
        StraightGood(thn, defs);
        var a, b := Select(thn, defs), Select(rest, defs);
        WeightAppend(a, b);
        GoodAppend(a, b);
        TargetsAppend(a, b, defs);
        UniqueAppend(a, b);
      }
  }

  /** The words left for the blocks from a place on. */
  function Budget(p: nat): nat
    decreases PLACES - p
  {
    if p >= PLACES then 0 else 3 + Size(At(p)) + Budget(p + 1)
  }

  predicate Good(items: Code<Lab>, defs: set<string>) {
    GoodItems(items) && TargetsPresent(items, defs)
  }

  lemma BodyGood(p: nat, defs: set<string>, seg: Lab -> Prog)
    requires GoodBlocks(defs, seg)
    requires p < PLACES && Shown(p, defs)
    ensures var items := Select(BodyIn(At(p), defs, seg), defs);
            Good(items, defs) && Defined(items) == {} && UniqueLabels(items) && Weight(items) <= Size(At(p))
  {
    PlaceOf(p, defs);
    PresentShown(At(p), defs);
    StraightGood(BodyIn(At(p), defs, seg), defs);
  }

  lemma {:induction false} CodeGood(p: nat, defs: set<string>, seg: Lab -> Prog)
    requires GoodBlocks(defs, seg)
    requires p <= PLACES
    ensures Good(CodeFrom(p, defs, seg), defs) && Weight(CodeFrom(p, defs, seg)) <= Budget(p)
    decreases PLACES - p
  {
    if p < PLACES {
      CodeGood(p + 1, defs, seg);
      if Shown(p, defs) {
        var body := Select(BodyIn(At(p), defs, seg), defs);
        BodyGood(p, defs, seg);
        WeightAppend(body, CodeFrom(p + 1, defs, seg));
        GoodAppend(body, CodeFrom(p + 1, defs, seg));
        TargetsAppend(body, CodeFrom(p + 1, defs, seg), defs);
      }
    }
  }

  /** The labels of one place are its own, if it is shown. */
  lemma DefinedHere(p: nat, l: Lab, defs: set<string>, seg: Lab -> Prog)
    requires GoodBlocks(defs, seg) && p < PLACES
    ensures l in Defined(CodeFrom(p, defs, seg))
      <==> (Shown(p, defs) && l == At(p)) || l in Defined(CodeFrom(p + 1, defs, seg))
  {
    if Shown(p, defs) {
      BodyGood(p, defs, seg);
      UniqueAppend(Select(BodyIn(At(p), defs, seg), defs), CodeFrom(p + 1, defs, seg));
    }
  }

  /** A label has its place there, and only one. */
  lemma PlaceHere(p: nat, l: Lab, defs: set<string>)
    requires p < PLACES
    ensures Present(l, defs) && Place(l, IgnoreErr(defs)) == p <==> Shown(p, defs) && l == At(p)
  {
    PresentShown(l, defs);
    LabelAt(l, defs);
    if Shown(p, defs) {
      PlaceOf(p, defs);
    }
  }

  /** The labels defined from a place on are those of the build's later places. */
  lemma {:induction false} DefinedFrom(p: nat, l: Lab, defs: set<string>, seg: Lab -> Prog)
    requires GoodBlocks(defs, seg)
    requires p <= PLACES
    ensures l in Defined(CodeFrom(p, defs, seg)) <==> Present(l, defs) && Place(l, IgnoreErr(defs)) >= p
    decreases PLACES - p
  {
    LabelAt(l, defs);
    if p < PLACES {
      DefinedFrom(p + 1, l, defs, seg);
      DefinedHere(p, l, defs, seg);
      PlaceHere(p, l, defs);
    }
  }

  lemma {:induction false} CodeUnique(p: nat, defs: set<string>, seg: Lab -> Prog)
    requires GoodBlocks(defs, seg)
    requires p <= PLACES
    ensures UniqueLabels(CodeFrom(p, defs, seg))
    decreases PLACES - p
  {
    if p < PLACES {
      CodeUnique(p + 1, defs, seg);
      if Shown(p, defs) {
        PlaceOf(p, defs);
        BodyGood(p, defs, seg);
        DefinedFrom(p + 1, At(p), defs, seg);
        UniqueAppend(Select(BodyIn(At(p), defs, seg), defs), CodeFrom(p + 1, defs, seg));
      }
    }
  }

  lemma {:induction false} TargetsResolve(items: Code<Lab>, address: nat, labels: map<Lab, nat>, defs: set<string>)
    requires TargetsPresent(items, defs) && (forall l :: Present(l, defs) ==> l in labels)
    requires forall l :: l in Defined(items) ==> l in labels
    ensures Resolvable(Layout(items, address), labels)
  {
    if items.Cons? {
      TargetsResolve(items.tail, Next(items.head, address), labels, defs);
    }
  }

  lemma BudgetTails()
    ensures Budget(22) == 34
  {
    assert Budget(25) == 17;
  }

  lemma BudgetIsoc()
    ensures Budget(18) == 61
  {
    BudgetTails();
    assert Budget(20) == 44;
  }

  lemma BudgetOut()
    ensures Budget(14) == 104
  {
    BudgetIsoc();
    assert Budget(16) == 74;
  }

  lemma BudgetMiddle()
    ensures Budget(9) == 144
  {
    BudgetOut();
    assert Budget(11) == 129;
  }

  lemma BudgetStart()
    ensures Budget(3) == 197
  {
    BudgetMiddle();
    assert Budget(6) == 166;
  }

  lemma BudgetFits()
    ensures Budget(0) < 256
  {
    BudgetStart();
  }

  // ---- The theorem ---------------------------------------------------------------------------

  /** Every one of the four builds assembles, into fewer than 256 words, every label aligned. */
  lemma RomExists(defs: set<string>) returns (img: Image<Lab>)
    ensures Assembled(Flatten(Listing(Seg)), defs) == Some(img)
    ensures Fits(Program(defs, Seg), img) && |img.words| < 256
    ensures forall l :: Present(l, defs) ==> l in img.labels && img.labels[l] % 4 == 0
  {
    var prog := Program(defs, Seg);
    SegsGood(defs);
    SelectListing(defs, Seg);
    CodeGood(0, defs, Seg);
    CodeUnique(0, defs, Seg);
    LayoutBound(prog, 0);
    BudgetFits();
    LabelsDefined(prog, 0);
    forall l ensures l in Labels(prog, 0) <==> Present(l, defs) {
      DefinedFrom(0, l, defs, Seg);
    }
    TargetsResolve(prog, 0, Labels(prog, 0), defs);
    LabelsAligned(prog, 0);
    img := ImageOf(prog).value;
    ListingScans(defs);
  }

  lemma {:induction false} StraightWellFormed(src: Prog, defs: set<string>)
    requires Straight(src, defs)
    ensures WellFormed(src)
    decreases src
  {
    match src
    case End =>
    case Item(_, rest) => StraightWellFormed(rest, defs);
    case Section(_, _, _, _, rest) => StraightWellFormed(rest, defs);
  }

  /** The listing's sections nest, so the assembler selects each build's program. */
  lemma {:induction false} ListingScans(defs: set<string>)
    ensures Scan(Flatten(Listing(Seg)), [], defs) == Some(Program(defs, Seg))
  {
    forall l ensures WellFormed(Seg(l)) {
      StraightSeg(l, {});
      StraightWellFormed(Seg(l), {});
    }
    WellFormedListing(Seg);
    AppendNil(Flatten(Listing(Seg)));
    ScanSelects(Listing(Seg), Nil, [], defs);
    AppendNil(Program(defs, Seg));
  }

  lemma {:induction false} OverLabel(prog: Code<Lab>, l: Lab, rest: Code<Lab>, c: Cpu, n: nat)
    ensures SymRun(prog, TheMachine(), Sym(Cons(Label(l), rest), c), n + 1)
      == SymRun(prog, TheMachine(), Sym(rest, c), n)
  {
    if n > 0 {
      OverLabel(prog, l, rest, c, n - 1);
    }
  }

  /** A bare label adds nothing but itself to the code. */
  lemma {:induction false} BareCode(p: nat, defs: set<string>, seg: Lab -> Prog)
    requires p < 3
    ensures CodeFrom(p, defs, seg)
         == if Shown(p, defs) then Cons(Label(At(p)), CodeFrom(p + 1, defs, seg)) else CodeFrom(p + 1, defs, seg)
  {
  }

  lemma {:induction false} IdleCode(defs: set<string>, seg: Lab -> Prog)
    requires GoodBlocks(defs, seg)
    ensures CodeFrom(3, defs, seg) == Cons(Label(IDLE), Find(Program(defs, seg), IDLE))
  {
    FindLabel(IDLE, defs, seg);
  }

  lemma {:induction false} SkipBare(p: nat, defs: set<string>, c: Cpu, seg: Lab -> Prog) returns (n: nat)
    requires GoodBlocks(defs, seg) && p <= 3
    ensures SymRun(Program(defs, seg), TheMachine(), Sym(CodeFrom(p, defs, seg), c), n)
         == Sym(Find(Program(defs, seg), IDLE), c)
    decreases 3 - p
  {
    var prog := Program(defs, seg);
    if p == 3 {
      IdleCode(defs, seg);
      OverLabel(prog, IDLE, Find(prog, IDLE), c, 0);
      n := 1;
    } else {
      var k := SkipBare(p + 1, defs, c, seg);
      BareCode(p, defs, seg);
      OverLabel(prog, At(p), CodeFrom(p + 1, defs, seg), c, k);
      n := if Shown(p, defs) then k + 1 else k;
    }
  }

  /** The program starts, past its bare labels, at IDLE. */
  lemma {:induction false} Starts(defs: set<string>, c: Cpu, seg: Lab -> Prog) returns (n: nat)
    requires GoodBlocks(defs, seg)
    ensures SymRun(Program(defs, seg), TheMachine(), Sym(Program(defs, seg), c), n)
         == Sym(Find(Program(defs, seg), IDLE), c)
  {
    SelectListing(defs, seg);
    n := SkipBare(0, defs, c, seg);
  }

  /** One block more, after some symbolic steps. */
  lemma {:induction false} OneMoreBlock(defs: set<string>, start: Sym<Lab, Cpu>, n: nat, p: (Lab, Cpu),
      seg: Lab -> Prog) returns (n': nat)
    requires GoodBlocks(defs, seg) && Present(p.0, defs)
    requires SymRun(Program(defs, seg), TheMachine(), start, n) == Sym(Find(Program(defs, seg), p.0), p.1)
    ensures var q := RunBlock(p.0, defs, p.1, seg);
            Present(q.0, defs) && SymRun(Program(defs, seg), TheMachine(), start, n')
                == Sym(Find(Program(defs, seg), q.0), q.1)
  {
    var k := BlockRuns(p.0, defs, p.1, seg);
    SymRunMore(Program(defs, seg), start, n, k);
    n' := n + k;
  }

  /** Any number of blocks from reset is some number of symbolic steps. */
  lemma {:induction false} BlocksRun(defs: set<string>, c: Cpu, b: nat, seg: Lab -> Prog) returns (n: nat)
    requires GoodBlocks(defs, seg)
    ensures Present(RunBlocks(IDLE, defs, c, b, seg).0, defs)
    ensures var p := RunBlocks(IDLE, defs, c, b, seg);
            SymRun(Program(defs, seg), TheMachine(), Sym(Program(defs, seg), c), n)
                == Sym(Find(Program(defs, seg), p.0), p.1)
  {
    if b == 0 {
      n := Starts(defs, c, seg);
    } else {
      n := BlocksRun(defs, c, b - 1, seg);
      n := OneMoreBlock(defs, Sym(Program(defs, seg), c), n, RunBlocks(IDLE, defs, c, b - 1, seg), seg);
    }
  }

  /** The assembled ROM, from reset, runs the microcode's blocks: after some clocks it is in the
      state the blocks lead to, about to run the block they lead to. */
  lemma RomRunsBlocks(defs: set<string>, c: Cpu, b: nat) returns (img: Image<Lab>, k: nat)
    ensures Assembled(Flatten(Listing(Seg)), defs) == Some(img) && |img.words| < 256
    ensures FlatRun(img.words, TheMachine(), Flat(0, c), k).s == RunBlocks(IDLE, defs, c, b, Seg).1
    ensures var l := RunBlocks(IDLE, defs, c, b, Seg).0;
            Find(Program(defs, Seg), l).Cons? ==>
              AtAddress(Program(defs, Seg), 0, Find(Program(defs, Seg), l),
                  FlatRun(img.words, TheMachine(), Flat(0, c), k).pc)
  {
    SegsGood(defs);
    img := RomExists(defs);
    var n := BlocksRun(defs, c, b, Seg);
    k := RomFollowsSource(Program(defs, Seg), img, TheMachine(), c, n);
  }
}
