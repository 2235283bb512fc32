/** The microcode assembler: conditional sections, labels padded to a multiple of four words,
    late resolution of jump targets. It is a small compiler, and the theorem is that running the
    words it emits with the engine's jump rule does what the symbolic program says. */
module Assembler {
  import opened Isa

  /** One element of the source list. `Op` is an instruction that is not a jump. */
  datatype Token<L> =
    | Label(name: L)
    | IfDef(sym: string)
    | IfNDef(sym: string)
    | Else
    | EndIf
    | Op(insn: Insn)
    | Jump(target: L, cond: Cond)

  datatype Code<L> = Nil | Cons(head: Token<L>, tail: Code<L>)

  function Append<L>(a: Code<L>, b: Code<L>): Code<L> {
    match a
    case Nil => b
    case Cons(t, rest) => Cons(t, Append(rest, b))
  }

  lemma AppendAssoc<L>(a: Code<L>, b: Code<L>, c: Code<L>)
    ensures Append(Append(a, b), c) == Append(a, Append(b, c))
  {
  }

  lemma AppendNil<L>(a: Code<L>)
    ensures Append(a, Nil) == a
  {
  }

  // ---- Conditional sections ------------------------------------------------------------------

  /** Whether every enclosing section is selected. */
  predicate Active(stack: seq<bool>) {
    forall i :: 0 <= i < |stack| ==> stack[i]
  }

  /** The list with its inactive parts and all its section marks removed; None when an ELSE or
      ENDIF has nothing to close. Sections left open at the end are accepted. */
  function Scan<L>(code: Code<L>, stack: seq<bool>, defs: set<string>): Option<Code<L>> {
    match code
    case Nil => Some(Nil)
    case Cons(t, rest) =>
      match t
      case IfDef(sym) => Scan(rest, stack + [sym in defs], defs)
      case IfNDef(sym) => Scan(rest, stack + [sym !in defs], defs)
      case Else =>
        if stack == [] then None
        else Scan(rest, stack[..|stack| - 1] + [!stack[|stack| - 1]], defs)
      case EndIf => if stack == [] then None else Scan(rest, stack[..|stack| - 1], defs)
      case _ =>
        var r := Scan(rest, stack, defs);
        if Active(stack) && r.Some? then Some(Cons(t, r.value)) else r
  }

  /** A source with properly nested sections: what the list means before it is flattened. */
  datatype Source<L> =
    | End
    | Item(tok: Token<L>, rest: Source<L>)
    | Section(sym: string, ifDefined: bool, thn: Source<L>, els: Option<Source<L>>, rest: Source<L>)

  predicate Plain<L>(t: Token<L>) {
    t.Label? || t.Op? || t.Jump?
  }

  predicate WellFormed<L>(src: Source<L>) {
    match src
    case End => true
    case Item(tok, rest) => Plain(tok) && WellFormed(rest)
    case Section(_, _, thn, els, rest) =>
      WellFormed(thn) && (els.Some? ==> WellFormed(els.value)) && WellFormed(rest)
  }

  /** The flat list of a nested source. */
  function Flatten<L>(src: Source<L>): Code<L> {
    match src
    case End => Nil
    case Item(tok, rest) => Cons(tok, Flatten(rest))
    case Section(sym, ifDefined, thn, els, rest) =>
      Cons(if ifDefined then IfDef(sym) else IfNDef(sym),
           Append(Flatten(thn), FlattenElse(els, Flatten(rest))))
  }

  function FlattenElse<L>(els: Option<Source<L>>, rest: Code<L>): Code<L> {
    match els
    case None => Cons(EndIf, rest)
    case Some(e) => Cons(Else, Append(Flatten(e), Cons(EndIf, rest)))
  }

  /** The items a nested source selects under a set of definitions. */
  function Select<L>(src: Source<L>, defs: set<string>): Code<L> {
    match src
    case End => Nil
    case Item(tok, rest) => Cons(tok, Select(rest, defs))
    case Section(sym, ifDefined, thn, els, rest) =>
      Append(if (sym in defs) == ifDefined then Select(thn, defs)
             else if els.Some? then Select(els.value, defs) else Nil,
             Select(rest, defs))
  }

  function After<L>(prefix: Code<L>, r: Option<Code<L>>): Option<Code<L>> {
    if r.Some? then Some(Append(prefix, r.value)) else None
  }

  /** The assembler's section stack selects what the nesting says, at any depth. */
  lemma {:induction false} ScanSelects<L>(src: Source<L>, k: Code<L>, stack: seq<bool>, defs: set<string>)
    requires WellFormed(src)
    ensures Scan(Append(Flatten(src), k), stack, defs)
         == After(if Active(stack) then Select(src, defs) else Nil, Scan(k, stack, defs))
    decreases src
  {
    match src
    case End =>
    case Item(tok, rest) => ScanSelects(rest, k, stack, defs);
    case Section(sym, ifDefined, thn, els, rest) =>
      var on := (sym in defs) == ifDefined;
      var inner, flipped := stack + [on], stack + [!on];
      assert inner[..|inner| - 1] == stack && flipped[..|flipped| - 1] == stack;
      assert Active(inner) <==> Active(stack) && on by {
        assert inner[|stack|] == on;
        assert forall i :: 0 <= i < |stack| ==> inner[i] == stack[i];
      }
      assert Active(flipped) <==> Active(stack) && !on by {
        assert flipped[|stack|] == !on;
        assert forall i :: 0 <= i < |stack| ==> flipped[i] == stack[i];
      }
      var tail := Append(Flatten(rest), k);
      ScanSelects(rest, k, stack, defs);
      match els {
        case None =>
          AppendAssoc(Flatten(thn), Cons(EndIf, Flatten(rest)), k);
          ScanSelects(thn, Cons(EndIf, tail), inner, defs);
        case Some(e) =>
          AppendAssoc(Flatten(e), Cons(EndIf, Flatten(rest)), k);
          AppendAssoc(Flatten(thn), FlattenElse(els, Flatten(rest)), k);
          ScanSelects(thn, Cons(Else, Append(Flatten(e), Cons(EndIf, tail))), inner, defs);
          ScanSelects(e, Cons(EndIf, tail), flipped, defs);
      }
      var r := Scan(k, stack, defs);
      if r.Some? && Active(stack) {
        var chosen := if on then Select(thn, defs) else if els.Some? then Select(els.value, defs) else Nil;
        AppendAssoc(chosen, Select(rest, defs), r.value);
      }
  }

  // ---- Layout --------------------------------------------------------------------------------

  /** One word of the flat image before targets are resolved. */
  datatype Slot<L> = Fixed(insn: Insn) | Pending(target: L, cond: Cond)

  /** The words of padding needed to bring an address to a multiple of four. */
  function Pad(address: nat): (k: nat)
    ensures k < 4 && (address + k) % 4 == 0
  {
    (4 - address % 4) % 4
  }

  /** Padding is made of jumps to the label that follows it. */
  function Pads<L>(target: L, k: nat): (slots: seq<Slot<L>>)
    ensures |slots| == k && forall i :: 0 <= i < k ==> slots[i] == Pending(target, ALWAYS)
  {
    seq(k, _ => Pending(target, ALWAYS))
  }

  /** The words one item takes when it starts at an address. */
  function Slots<L>(t: Token<L>, address: nat): seq<Slot<L>> {
    match t
    case Label(l) => Pads(l, Pad(address))
    case Op(insn) => [Fixed(insn)]
    case Jump(target, cond) => [Pending(target, cond)]
    case _ => []
  }

  function Next<L>(t: Token<L>, address: nat): nat {
    address + |Slots(t, address)|
  }

  function Layout<L>(items: Code<L>, address: nat): seq<Slot<L>> {
    match items
    case Nil => []
    case Cons(t, rest) => Slots(t, address) + Layout(rest, Next(t, address))
  }

  /** The address of each label (of its last definition, should there be several). */
  function Labels<L(==)>(items: Code<L>, address: nat): map<L, nat> {
    match items
    case Nil => map[]
    case Cons(t, rest) =>
      var m := Labels(rest, Next(t, address));
      if t.Label? && t.name !in m then m[t.name := Next(t, address)] else m
  }

  function Defined<L(==)>(items: Code<L>): set<L> {
    match items
    case Nil => {}
    case Cons(t, rest) => if t.Label? then {t.name} + Defined(rest) else Defined(rest)
  }

  predicate UniqueLabels<L(==)>(items: Code<L>) {
    match items
    case Nil => true
    case Cons(t, rest) => UniqueLabels(rest) && (t.Label? ==> t.name !in Defined(rest))
  }

  predicate TargetsIn<L(==)>(items: Code<L>, labels: set<L>) {
    match items
    case Nil => true
    case Cons(t, rest) => TargetsIn(rest, labels) && (t.Jump? ==> t.target in labels)
  }

  lemma LabelsDefined<L>(items: Code<L>, address: nat)
    ensures Labels(items, address).Keys == Defined(items)
  {
  }

  /** Every label lands on a multiple of four, as the jump encoding needs. */
  lemma {:induction false} LabelsAligned<L>(items: Code<L>, address: nat)
    ensures forall l <- Labels(items, address) :: Labels(items, address)[l] % 4 == 0
  {
    match items
    case Nil =>
    case Cons(t, rest) => LabelsAligned(rest, Next(t, address));
  }

  // Appending one item, as the assembler's first loop does

  function EndOf<L>(items: Code<L>, address: nat): nat {
    address + |Layout(items, address)|
  }

  lemma {:induction false} LayoutSnoc<L>(items: Code<L>, t: Token<L>, address: nat)
    ensures Layout(Append(items, Cons(t, Nil)), address)
         == Layout(items, address) + Slots(t, EndOf(items, address))
  {
    match items
    case Nil =>
      assert Layout(Cons(t, Nil), address) == Slots(t, address) + [];
    case Cons(u, rest) => LayoutSnoc(rest, t, Next(u, address));
  }

  lemma {:induction false} LabelsSnoc<L>(items: Code<L>, t: Token<L>, address: nat)
    requires t.Label? ==> t.name !in Defined(items)
    ensures Labels(Append(items, Cons(t, Nil)), address)
         == if t.Label? then Labels(items, address)[t.name := Next(t, EndOf(items, address))]
            else Labels(items, address)
  {
    match items
    case Nil =>
    case Cons(u, rest) =>
      LabelsSnoc(rest, t, Next(u, address));
  }

  lemma {:induction false} UniqueAppend<L>(a: Code<L>, b: Code<L>)
    ensures Defined(Append(a, b)) == Defined(a) + Defined(b)
    ensures UniqueLabels(Append(a, b)) <==> UniqueLabels(a) && UniqueLabels(b) && Defined(a) !! Defined(b)
  {
    match a
    case Nil =>
    case Cons(t, rest) => UniqueAppend(rest, b);
  }

  // ---- The assembler -------------------------------------------------------------------------

  datatype Image<L> = Image(words: seq<Word>, labels: map<L, nat>)

  function Resolve<L(==)>(slot: Slot<L>, labels: map<L, nat>): Word
    requires slot.Pending? ==> slot.target in labels
  {
    match slot
    case Fixed(insn) => Encode(insn)
    case Pending(target, cond) => JmpWord(labels[target], cond)
  }

  predicate Resolvable<L(==)>(slots: seq<Slot<L>>, labels: map<L, nat>) {
    forall i :: 0 <= i < |slots| && slots[i].Pending? ==> slots[i].target in labels
  }

  function ResolveAll<L(==)>(slots: seq<Slot<L>>, labels: map<L, nat>): seq<Word>
    requires Resolvable(slots, labels)
  {
    seq(|slots|, i requires 0 <= i < |slots| => Resolve(slots[i], labels))
  }

  /** The image of a list of selected items; None where the assembler raises: a label defined
      twice, or a jump to a label that is not defined. */
  function ImageOf<L(==)>(items: Code<L>): Option<Image<L>> {
    var labels := Labels(items, 0);
    var slots := Layout(items, 0);
    if UniqueLabels(items) && Resolvable(slots, labels)
    then Some(Image(ResolveAll(slots, labels), labels)) else None
  }

  function Assembled<L(==)>(code: Code<L>, defs: set<string>): Option<Image<L>> {
    var items := Scan(code, [], defs);
    if items.Some? then ImageOf(items.value) else None
  }

  /** What the first pass has emitted for the items it has selected so far. */
  ghost predicate Emitted<L>(items: Code<L>, flat: seq<Slot<L>>, labels: map<L, nat>) {
    flat == Layout(items, 0) && labels == Labels(items, 0) && UniqueLabels(items)
  }

  lemma EmitOne<L>(done: Code<L>, t: Token<L>, flat: seq<Slot<L>>, labels: map<L, nat>)
    requires Emitted(done, flat, labels)
    requires t.Label? ==> t.name !in labels
    ensures Emitted(Append(done, Cons(t, Nil)), flat + Slots(t, |flat|),
                    if t.Label? then labels[t.name := Next(t, |flat|)] else labels)
  {
    LabelsDefined(done, 0);
    LayoutSnoc(done, t, 0);
    LabelsSnoc(done, t, 0);
    UniqueAppend(done, Cons(t, Nil));
  }

  lemma ScanOne<L>(done: Code<L>, t: Token<L>, rest: Code<L>, stack: seq<bool>, defs: set<string>)
    requires Plain(t) && Active(stack)
    ensures After(done, Scan(Cons(t, rest), stack, defs)) == After(Append(done, Cons(t, Nil)), Scan(rest, stack, defs))
  {
    var k := Scan(rest, stack, defs);
    if k.Some? {
      AppendAssoc(done, Cons(t, Nil), k.value);
    }
  }

  lemma DuplicateLabel<L>(done: Code<L>, name: L, rest: Code<L>, stack: seq<bool>, defs: set<string>)
    requires name in Labels(done, 0) && Active(stack)
    ensures var r := After(done, Scan(Cons(Label(name), rest), stack, defs));
            r.Some? ==> !UniqueLabels(r.value)
  {
    LabelsDefined(done, 0);
    var k := Scan(rest, stack, defs);
    if k.Some? {
      UniqueAppend(done, Cons(Label(name), k.value));
    }
  }

  /** The first pass: follow the section stack, emit words, record label addresses. */
  method FirstPass<L(==)>(code: Code<L>, defs: set<string>)
    returns (r: Option<(seq<Slot<L>>, map<L, nat>)>)
    ensures r == (var items := Scan(code, [], defs);
                  if items.Some? && UniqueLabels(items.value)
                  then Some((Layout(items.value, 0), Labels(items.value, 0))) else None)
  {
    var flat: seq<Slot<L>> := [];
    var labels: map<L, nat> := map[];
    var condstack: seq<bool> := [];
    var rest := code;
    ghost var done: Code<L> := Nil;
    while rest.Cons?
      invariant Scan(code, [], defs) == After(done, Scan(rest, condstack, defs))
      invariant Emitted(done, flat, labels)
      decreases rest
    {
      var elem := rest.head;
      var active := Active(condstack);
      if elem.IfDef? {
        condstack := condstack + [elem.sym in defs];
      } else if elem.IfNDef? {
        condstack := condstack + [elem.sym !in defs];
      } else if elem.Else? {
        if condstack == [] { return None; }
        condstack := condstack[..|condstack| - 1] + [!condstack[|condstack| - 1]];
      } else if elem.EndIf? {
        if condstack == [] { return None; }
        condstack := condstack[..|condstack| - 1];
      } else if active {
        ScanOne(done, elem, rest.tail, condstack, defs);
        if elem.Label? {
          if elem.name in labels {
            DuplicateLabel(done, elem.name, rest.tail, condstack, defs);
            return None;
          }
          EmitOne(done, elem, flat, labels);
          flat, labels := AddLabel(flat, labels, elem.name);
        } else {
          EmitOne(done, elem, flat, labels);
          flat := flat + [if elem.Op? then Fixed(elem.insn) else Pending(elem.target, elem.cond)];
        }
        done := Append(done, Cons(elem, Nil));
      }
      rest := rest.tail;
    }
    AppendNil(done);
    r := Some((flat, labels));
  }

  /** The second pass: replace every pending target by its address. */
  method SecondPass<L(==)>(flat: seq<Slot<L>>, labels: map<L, nat>) returns (r: Option<seq<Word>>)
    ensures r == if Resolvable(flat, labels) then Some(ResolveAll(flat, labels)) else None
  {
    var words: seq<Word> := [];
    for offset := 0 to |flat|
      invariant |words| == offset
      invariant forall i :: 0 <= i < offset ==>
        (flat[i].Pending? ==> flat[i].target in labels) && words[i] == Resolve(flat[i], labels)
    {
      if flat[offset].Pending? && flat[offset].target !in labels { return None; }
      words := words + [Resolve(flat[offset], labels)];
    }
    assert Resolvable(flat, labels) && words == ResolveAll(flat, labels);
    r := Some(words);
  }

  method Assemble<L(==)>(code: Code<L>, defs: set<string>) returns (r: Option<Image<L>>)
    ensures r == Assembled(code, defs)
  {
    var first := FirstPass(code, defs);
    if first.None? { return None; }
    var words := SecondPass(first.value.0, first.value.1);
    if words.None? { return None; }
    r := Some(Image(words.value, first.value.1));
  }

  /** Pads to a multiple of four with jumps to the label, then records its address. */
  method AddLabel<L(==)>(flat: seq<Slot<L>>, labels: map<L, nat>, name: L)
    returns (flat': seq<Slot<L>>, labels': map<L, nat>)
    ensures flat' == flat + Pads(name, Pad(|flat|))
    ensures labels' == labels[name := |flat'|]
  {
    flat' := flat;
    while |flat'| % 4 != 0
      invariant |flat| <= |flat'| <= |flat| + Pad(|flat|)
      invariant flat' == flat + Pads(name, |flat'| - |flat|)
      decreases |flat| + Pad(|flat|) - |flat'|
    {
      flat' := flat' + [Pending(name, ALWAYS)];
    }
    labels' := labels[name := |flat'|];
  }

  // ---- Meaning -------------------------------------------------------------------------------

  /** What a program runs on: how a non-jump instruction changes the state, and the A register
      that jumps test. */
  datatype Machine<!S> = Machine(exec: (Insn, S) -> S, areg: S -> Nib)

  /** A symbolic configuration: the items still to run, and the state. */
  datatype Sym<L, S> = Sym(code: Code<L>, s: S)

  /** The items that follow a label's definition. */
  function Find<L(==)>(prog: Code<L>, l: L): Code<L> {
    match prog
    case Nil => Nil
    case Cons(t, rest) => if t == Label(l) then rest else Find(rest, l)
  }

  function SymStep<L(==), S>(prog: Code<L>, m: Machine<S>, c: Sym<L, S>): Sym<L, S> {
    match c.code
    case Nil => c
    case Cons(t, rest) =>
      match t
      case Op(insn) => Sym(rest, m.exec(insn, c.s))
      case Jump(l, cond) => Sym(if cond.Taken(m.areg(c.s)) then Find(prog, l) else rest, c.s)
      case _ => Sym(rest, c.s)
  }

  function SymRun<L(==), S>(prog: Code<L>, m: Machine<S>, c: Sym<L, S>, n: nat): Sym<L, S> {
    if n == 0 then c else SymStep(prog, m, SymRun(prog, m, c, n - 1))
  }

  /** A flat configuration: the program counter and the state. */
  datatype Flat<S> = Flat(pc: nat, s: S)

  /** One clock of the engine: the 8-bit counter either steps or takes the jump's target. */
  function FlatStep<S>(rom: seq<Word>, m: Machine<S>, c: Flat<S>): Flat<S> {
    if c.pc >= |rom| then c else
    match Decode(rom[c.pc])
    case Jmp(target, cond) => Flat(if cond.Taken(m.areg(c.s)) then target else (c.pc + 1) % 256, c.s)
    case insn => Flat((c.pc + 1) % 256, m.exec(insn, c.s))
  }

  function FlatRun<S>(rom: seq<Word>, m: Machine<S>, c: Flat<S>, n: nat): Flat<S> {
    if n == 0 then c else FlatStep(rom, m, FlatRun(rom, m, c, n - 1))
  }

  /** The instructions of the source are encodable, and jumps go to labels. */
  predicate GoodItems<L>(items: Code<L>) {
    match items
    case Nil => true
    case Cons(t, rest) => Plain(t) && (t.Op? ==> !t.insn.Jmp? && Encodable(t.insn)) && GoodItems(rest)
  }

  /** The items `code` are what is left of `items` from address `p` on. */
  predicate AtAddress<L(==)>(items: Code<L>, address: nat, code: Code<L>, p: nat) {
    (code == items && p == address)
    || (items.Cons? && AtAddress(items.tail, Next(items.head, address), code, p))
  }

  lemma {:induction false} AtAddressSlots<L>(items: Code<L>, address: nat, code: Code<L>, p: nat)
    requires AtAddress(items, address, code, p) && GoodItems(items)
    ensures address <= p <= EndOf(items, address) && GoodItems(code)
    ensures Layout(items, address)[p - address..] == Layout(code, p)
  {
    if !(code == items && p == address) {
      AtAddressSlots(items.tail, Next(items.head, address), code, p);
    }
  }

  lemma {:induction false} AtAddressNext<L>(items: Code<L>, address: nat, code: Code<L>, p: nat)
    requires AtAddress(items, address, code, p) && code.Cons?
    ensures AtAddress(items, address, code.tail, Next(code.head, p))
  {
    if !(code == items && p == address) {
      AtAddressNext(items.tail, Next(items.head, address), code, p);
    }
  }

  lemma {:induction false} AtAddressFind<L>(items: Code<L>, address: nat, l: L)
    requires l in Labels(items, address) && UniqueLabels(items)
    ensures AtAddress(items, address, Find(items, l), Labels(items, address)[l])
  {
    var rest := Next(items.head, address);
    LabelsDefined(items.tail, rest);
    if items.head == Label(l) {
      assert AtAddress(items.tail, rest, items.tail, rest);
    } else {
      AtAddressFind(items.tail, rest, l);
    }
  }

  lemma {:induction false} AtAddressLabel<L>(items: Code<L>, address: nat, code: Code<L>, p: nat)
    requires AtAddress(items, address, code, p) && UniqueLabels(items)
    requires code.Cons? && code.head.Label?
    ensures code.head.name in Labels(items, address)
    ensures Labels(items, address)[code.head.name] == Next(code.head, p)
  {
    LabelsDefined(items, address);
    if !(code == items && p == address) {
      AtAddressLabel(items.tail, Next(items.head, address), code, p);
    } else {
      LabelsDefined(items.tail, Next(items.head, address));
    }
  }

  /** What the theorem asks of a source: it assembles, into the 256-word ROM. */
  ghost predicate Fits<L>(items: Code<L>, img: Image<L>) {
    && GoodItems(items)
    && ImageOf(items) == Some(img)
    && |img.words| <= 256
    && forall l <- img.labels :: img.labels[l] < 256
  }

  /** The symbolic and the flat configuration agree. */
  ghost predicate Agree<L, S>(items: Code<L>, c: Sym<L, S>, f: Flat<S>) {
    c.s == f.s && (c.code.Cons? ==> AtAddress(items, 0, c.code, f.pc))
  }

  /** The word at the address of the next item, and what it decodes to. */
  lemma WordAt<L>(items: Code<L>, img: Image<L>, code: Code<L>, p: nat)
    requires Fits(items, img) && AtAddress(items, 0, code, p) && code.Cons?
    requires |Slots(code.head, p)| > 0
    ensures p < |img.words|
    ensures match Slots(code.head, p)[0]
            case Fixed(insn) => Decode(img.words[p]) == insn && !insn.Jmp?
            case Pending(l, cond) => l in img.labels && Decode(img.words[p]) == Jmp(img.labels[l], cond)
  {
    AtAddressSlots(items, 0, code, p);
    var slots := Layout(items, 0);
    assert slots[p] == slots[p..][0] == Layout(code, p)[0] == Slots(code.head, p)[0];
    match slots[p]
    case Fixed(insn) => DecodeEncode(insn);
    case Pending(l, cond) =>
      LabelsAligned(items, 0);
      DecodeJmp(img.labels[l], cond);
  }

  /** The counter does not wrap while items remain. */
  lemma NextFits<L>(items: Code<L>, img: Image<L>, code: Code<L>, p: nat)
    requires Fits(items, img) && AtAddress(items, 0, code, p) && code.Cons?
    ensures p < 256
  {
    AtAddressSlots(items, 0, code, p);
    if code.head.Label? {
      AtAddressLabel(items, 0, code, p);
    } else {
      WordAt(items, img, code, p);
    }
  }

  /** A symbolic step that costs the engine no clock: a label that needed no padding. */
  predicate Free<L>(code: Code<L>, p: nat) {
    code.Cons? && code.head.Label? && Pad(p) == 0
  }

  lemma LabelSimulated<L, S>(items: Code<L>, img: Image<L>, m: Machine<S>, c: Sym<L, S>, f: Flat<S>)
    requires Fits(items, img) && Agree(items, c, f) && c.code.Cons? && c.code.head.Label?
    ensures Agree(items, SymStep(items, m, c), if Free(c.code, f.pc) then f else FlatStep(img.words, m, f))
  {
    AtAddressNext(items, 0, c.code, f.pc);
    AtAddressLabel(items, 0, c.code, f.pc);
    if Pad(f.pc) > 0 {
      WordAt(items, img, c.code, f.pc);
      assert ALWAYS.Taken(m.areg(f.s));
    }
  }

  lemma OpSimulated<L, S>(items: Code<L>, img: Image<L>, m: Machine<S>, c: Sym<L, S>, f: Flat<S>)
    requires Fits(items, img) && Agree(items, c, f) && c.code.Cons? && c.code.head.Op?
    ensures Agree(items, SymStep(items, m, c), FlatStep(img.words, m, f))
  {
    AtAddressNext(items, 0, c.code, f.pc);
    WordAt(items, img, c.code, f.pc);
    if c.code.tail.Cons? {
      NextFits(items, img, c.code.tail, f.pc + 1);
    }
  }

  lemma JumpSimulated<L, S>(items: Code<L>, img: Image<L>, m: Machine<S>, c: Sym<L, S>, f: Flat<S>)
    requires Fits(items, img) && Agree(items, c, f) && c.code.Cons? && c.code.head.Jump?
    ensures Agree(items, SymStep(items, m, c), FlatStep(img.words, m, f))
  {
    hide AtAddress, Fits, Find, Decode;
    JumpAt(items, img, c.code, f.pc);
    if c.code.tail.Cons? {
      NextFits(items, img, c.code.tail, f.pc + 1);
    }
  }

  /** A jump's word, its target, and the item after it. */
  lemma JumpAt<L>(items: Code<L>, img: Image<L>, code: Code<L>, p: nat)
    requires Fits(items, img) && AtAddress(items, 0, code, p) && code.Cons? && code.head.Jump?
    ensures p < |img.words| && code.head.target in img.labels
    ensures Decode(img.words[p]) == Jmp(img.labels[code.head.target], code.head.cond)
    ensures AtAddress(items, 0, code.tail, p + 1)
    ensures AtAddress(items, 0, Find(items, code.head.target), img.labels[code.head.target])
  {
    AtAddressNext(items, 0, code, p);
    WordAt(items, img, code, p);
    AtAddressFind(items, 0, code.head.target);
  }

  /** One symbolic step is one clock, or none for an aligned label. */
  lemma StepSimulated<L, S>(items: Code<L>, img: Image<L>, m: Machine<S>, c: Sym<L, S>, f: Flat<S>)
    requires Fits(items, img) && Agree(items, c, f) && c.code.Cons?
    ensures Agree(items, SymStep(items, m, c), if Free(c.code, f.pc) then f else FlatStep(img.words, m, f))
  {
    AtAddressSlots(items, 0, c.code, f.pc);
    assert Plain(c.code.head);
    match c.code.head
    case Label(_) => LabelSimulated(items, img, m, c, f);
    case Op(_) => OpSimulated(items, img, m, c, f);
    case Jump(_, _) => JumpSimulated(items, img, m, c, f);
  }

  lemma Advance<L, S>(items: Code<L>, img: Image<L>, m: Machine<S>, c: Sym<L, S>, f: Flat<S>) returns (clock: bool)
    requires Fits(items, img) && Agree(items, c, f)
    ensures Agree(items, SymStep(items, m, c), if clock then FlatStep(img.words, m, f) else f)
    ensures !Free(c.code, f.pc) && c.code.Cons? ==> clock
  {
    clock := c.code.Cons? && !Free(c.code, f.pc);
    if c.code.Cons? {
      StepSimulated(items, img, m, c, f);
    }
  }

  /** Forward: whatever the symbolic program does in n steps, the assembled ROM does in at most
      n clocks. */
  lemma {:induction false} RomFollowsSource<L, S>(items: Code<L>, img: Image<L>, m: Machine<S>, s: S, n: nat)
      returns (k: nat)
    requires Fits(items, img)
    ensures k <= n
    ensures Agree(items, SymRun(items, m, Sym(items, s), n), FlatRun(img.words, m, Flat(0, s), k))
  {
    hide *;
    if n == 0 {
      k := 0;
      RunsStart(items, img, m, s);
    } else {
      k := RomFollowsSource(items, img, m, s, n - 1);
      SymSnoc(items, m, Sym(items, s), n - 1);
      FlatSnoc(img.words, m, Flat(0, s), k);
      var clock := Advance(items, img, m, SymRun(items, m, Sym(items, s), n - 1), FlatRun(img.words, m, Flat(0, s), k));
      if clock { k := k + 1; }
    }
  }

  lemma RunsStart<L, S>(items: Code<L>, img: Image<L>, m: Machine<S>, s: S)
    requires Fits(items, img)
    ensures Agree(items, SymRun(items, m, Sym(items, s), 0), FlatRun(img.words, m, Flat(0, s), 0))
  {
  }

  lemma SymSnoc<L, S>(items: Code<L>, m: Machine<S>, c: Sym<L, S>, n: nat)
    ensures SymRun(items, m, c, n + 1) == SymStep(items, m, SymRun(items, m, c, n))
  {
  }

  lemma FlatSnoc<S>(words: seq<Word>, m: Machine<S>, f: Flat<S>, k: nat)
    ensures FlatRun(words, m, f, k + 1) == FlatStep(words, m, FlatRun(words, m, f, k))
  {
  }

  function Length<L>(code: Code<L>): nat {
    match code
    case Nil => 0
    case Cons(_, rest) => 1 + Length(rest)
  }

  /** Symbolic steps over aligned labels change nothing that the engine sees. */
  lemma {:induction false} SkipFree<L, S>(items: Code<L>, img: Image<L>, m: Machine<S>, s: S, n: nat, f: Flat<S>)
      returns (n': nat)
    requires Fits(items, img) && Agree(items, SymRun(items, m, Sym(items, s), n), f)
    ensures n' >= n
    ensures var c := SymRun(items, m, Sym(items, s), n'); Agree(items, c, f) && !Free(c.code, f.pc)
    decreases Length(SymRun(items, m, Sym(items, s), n).code)
  {
    var c := SymRun(items, m, Sym(items, s), n);
    if !Free(c.code, f.pc) { return n; }
    StepSimulated(items, img, m, c, f);
    n' := SkipFree(items, img, m, s, n + 1, f);
  }

  lemma ClockMatched<L, S>(items: Code<L>, img: Image<L>, m: Machine<S>, s: S, n: nat, f: Flat<S>) returns (n': nat)
    requires Fits(items, img) && Agree(items, SymRun(items, m, Sym(items, s), n), f)
    ensures n' > n
    ensures var c := SymRun(items, m, Sym(items, s), n'); c.code.Nil? || Agree(items, c, FlatStep(img.words, m, f))
  {
    n' := SkipFree(items, img, m, s, n, f);
    var c := SymRun(items, m, Sym(items, s), n');
    var clock := Advance(items, img, m, c, f);
    n' := n' + 1;
  }

  /** Backward: every clock of the ROM is a point of the symbolic run, until that runs off its
      end. With `RomFollowsSource`, the two runs are the same run. */
  lemma {:induction false} SourceFollowsRom<L, S>(items: Code<L>, img: Image<L>, m: Machine<S>, s: S, k: nat)
      returns (n: nat)
    requires Fits(items, img)
    ensures n >= k || SymRun(items, m, Sym(items, s), n).code.Nil?
    ensures var c := SymRun(items, m, Sym(items, s), n);
            c.code.Nil? || Agree(items, c, FlatRun(img.words, m, Flat(0, s), k))
  {
    if k == 0 {
      n := 0;
    } else {
      n := SourceFollowsRom(items, img, m, s, k - 1);
      if SymRun(items, m, Sym(items, s), n).code.Cons? {
        n := ClockMatched(items, img, m, s, n, FlatRun(img.words, m, Flat(0, s), k - 1));
      }
    }
  }

  // ---- The theorem for nested sources --------------------------------------------------------

  /** A machine that also records the non-jump instructions it executes. */
  function Traced<S>(m: Machine<S>): Machine<(S, seq<Insn>)> {
    Machine((insn: Insn, p: (S, seq<Insn>)) => (m.exec(insn, p.0), p.1 + [insn]), (p: (S, seq<Insn>)) => m.areg(p.0))
  }

  /** For every well-nested source and every set of definitions: the assembler selects what the
      nesting says, and the ROM it emits executes the selected program's non-jump instructions
      in the same order and to the same effect; padding adds jump clocks only. */
  lemma AssemblerPreservesMeaning<L, S>(src: Source<L>, defs: set<string>, img: Image<L>, m: Machine<S>, s: S, n: nat)
    returns (k: nat, n': nat)
    requires WellFormed(src)
    requires Assembled(Flatten(src), defs) == Some(img)
    requires GoodItems(Select(src, defs)) && |img.words| <= 256
    requires forall l <- img.labels :: img.labels[l] < 256
    ensures Assembled(Flatten(src), defs) == ImageOf(Select(src, defs))
    ensures forall l <- img.labels :: img.labels[l] % 4 == 0
    ensures var prog := Select(src, defs);
            FlatRun(img.words, Traced(m), Flat(0, (s, [])), k).s == SymRun(prog, Traced(m), Sym(prog, (s, [])), n).s
    ensures var prog := Select(src, defs);
            var c := SymRun(prog, Traced(m), Sym(prog, (s, [])), n');
            c.code.Nil? || (n' >= n && c.s == FlatRun(img.words, Traced(m), Flat(0, (s, [])), n).s)
  {
    var prog := Select(src, defs);
    AppendNil(Flatten(src));
    ScanSelects(src, Nil, [], defs);
    AppendNil(prog);
    LabelsAligned(prog, 0);
    k := RomFollowsSource(prog, img, Traced(m), (s, []), n);
    n' := SourceFollowsRom(prog, img, Traced(m), (s, []), n);
  }
}
