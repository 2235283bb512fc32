/** The instruction set of the transaction engine: 16-bit words, as the assembler writes them
    and as the engine's decoder reads them. A word is kept as its four hexadecimal digits, which
    is also the form in which the ROM image is printed. */
module Isa {

  datatype Option<+T> = None | Some(value: T)

  /** A 4-bit value, most significant bit first. */
  datatype Nib = Nib(b3: bool, b2: bool, b1: bool, b0: bool) {
    function And(m: Nib): Nib {
      Nib(b3 && m.b3, b2 && m.b2, b1 && m.b1, b0 && m.b0)
    }

    function Or(m: Nib): Nib {
      Nib(b3 || m.b3, b2 || m.b2, b1 || m.b1, b0 || m.b0)
    }

    function Xor(m: Nib): Nib {
      Nib(b3 != m.b3, b2 != m.b2, b1 != m.b1, b0 != m.b0)
    }

    function Not(): Nib {
      Nib(!b3, !b2, !b1, !b0)
    }
  }

  /** A 3-bit value, most significant bit first. */
  datatype Tri = Tri(t2: bool, t1: bool, t0: bool)

  const ZERO := Nib(false, false, false, false)

  function Bit(b: bool): nat {
    if b then 1 else 0
  }

  function Value(n: Nib): nat {
    8 * Bit(n.b3) + 4 * Bit(n.b2) + 2 * Bit(n.b1) + Bit(n.b0)
  }

  function NibOf(d: nat): Nib {
    Nib(d / 8 % 2 == 1, d / 4 % 2 == 1, d / 2 % 2 == 1, d % 2 == 1)
  }

  lemma ValueRoundTrip(d: nat)
    requires d < 16
    ensures Value(NibOf(d)) == d
  {
  }

  /** A jump's condition on the A register: masked equality, possibly inverted. */
  datatype Cond = Cond(mask: Nib, val: Nib, inv: bool) {
    /** `(a & mask) ^ val` is zero. */
    predicate Matches(a: Nib) {
      && (a.b3 && mask.b3) == val.b3
      && (a.b2 && mask.b2) == val.b2
      && (a.b1 && mask.b1) == val.b1
      && (a.b0 && mask.b0) == val.b0
    }

    predicate Taken(a: Nib) {
      Matches(a) != inv
    }
  }

  const ALWAYS := Cond(ZERO, ZERO, false)

  datatype Src = Evt | PktPid | PktPidChk | EpType | BdState

  datatype Insn =
    | Nop
    | Ld(src: Src)
    | Ep(newState: Option<Tri>, bdiFlip: bool, dtFlip: bool, wb: bool, celSet: bool)
    | Zl
    | Tx(pid: Nib, setDt: bool)
    | Notify(code: Nib)
    | EvtClr(mask: Nib)
    | EvtRto(timeout: nat)
    | Jmp(target: nat, cond: Cond)

  datatype Word = Word(d3: Nib, d2: Nib, d1: Nib, d0: Nib)

  /** What the assembler can express: word-aligned targets inside the 256-word ROM. */
  predicate Encodable(i: Insn) {
    && (i.Jmp? ==> i.target % 4 == 0 && i.target < 256)
    && (i.EvtRto? ==> i.timeout < 256)
  }

  // Operation digits
  const OP_NOP := ZERO
  const OP_LD := Nib(false, false, false, true)
  const OP_EP := Nib(false, false, true, false)
  const OP_ZL := Nib(false, false, true, true)
  const OP_TX := Nib(false, true, false, false)
  const OP_NOTIFY := Nib(false, true, false, true)
  const OP_EVT_CLR := Nib(false, true, true, false)
  const OP_EVT_RTO := Nib(false, true, true, true)

  function SrcCode(src: Src): Nib {
    match src
    case Evt => Nib(false, false, false, false)
    case PktPid => Nib(false, false, true, false)
    case PktPidChk => Nib(false, false, true, true)
    case EpType => Nib(false, true, false, false)
    case BdState => Nib(false, true, true, false)
  }

  function EpWord(newState: Option<Tri>, bdiFlip: bool, dtFlip: bool, wb: bool, celSet: bool): Word {
    var st := if newState.Some? then newState.value else Tri(false, false, false);
    Word(OP_EP, Nib(false, false, false, celSet), Nib(wb, false, st.t2, st.t1),
         Nib(st.t0, newState.Some?, bdiFlip, dtFlip))
  }

  /** `1 << 15`, the inversion in bit 14, the target's bits 7:2 in bits 13:8, mask and value.
      A target of 256 or more spills into the two top bits, as the shift does. */
  function JmpWord(target: nat, cond: Cond): Word {
    var top := NibOf(target / 64 % 16);
    Word(Nib(true, cond.inv || top.b2, top.b1, top.b0), NibOf(target / 4 % 16), cond.mask, cond.val)
  }

  function Encode(i: Insn): Word {
    match i
    case Nop => Word(OP_NOP, ZERO, ZERO, ZERO)
    case Ld(src) => Word(OP_LD, ZERO, ZERO, SrcCode(src))
    case Ep(newState, bdiFlip, dtFlip, wb, celSet) => EpWord(newState, bdiFlip, dtFlip, wb, celSet)
    case Zl => Word(OP_ZL, ZERO, ZERO, ZERO)
    case Tx(pid, setDt) => Word(OP_TX, ZERO, Nib(false, false, false, setDt), pid)
    case Notify(code) => Word(OP_NOTIFY, ZERO, ZERO, code)
    case EvtClr(mask) => Word(OP_EVT_CLR, ZERO, ZERO, mask)
    case EvtRto(timeout) => Word(OP_EVT_RTO, ZERO, NibOf(timeout / 16), NibOf(timeout % 16))
    case Jmp(target, cond) => JmpWord(target, cond)
  }

  /** The decoder: bit 15 selects a jump, otherwise the top digit selects the operation. */
  function Decode(w: Word): Insn {
    if w.d3.b3 then
      Jmp(64 * (2 * Bit(w.d3.b1) + Bit(w.d3.b0)) + 4 * Value(w.d2), Cond(w.d1, w.d0, w.d3.b2))
    else
      match (w.d3.b2, w.d3.b1, w.d3.b0)
      case (false, false, true) => Ld(DecodeSrc(w.d0))
      case (false, true, false) =>
        Ep(if w.d0.b2 then Some(Tri(w.d1.b1, w.d1.b0, w.d0.b3)) else None,
           w.d0.b1, w.d0.b0, w.d1.b3, w.d2.b0)
      case (false, true, true) => Zl
      case (true, false, false) => Tx(w.d0, w.d1.b0)
      case (true, false, true) => Notify(w.d0)
      case (true, true, false) => EvtClr(w.d0)
      case (true, true, true) => EvtRto(16 * Value(w.d1) + Value(w.d0))
      case _ => Nop
  }

  /** The A-register multiplexer looks at bits 2:1 only, and at bit 0 for the toggle check. */
  function DecodeSrc(d: Nib): Src {
    match (d.b2, d.b1)
    case (false, false) => Evt
    case (false, true) => if d.b0 then PktPidChk else PktPid
    case (true, false) => EpType
    case (true, true) => BdState
  }

  /** The engine decodes every encodable instruction to itself. */
  lemma DecodeEncode(i: Insn)
    requires Encodable(i)
    ensures Decode(Encode(i)) == i
  {
    match i
    case EvtRto(t) =>
      ValueRoundTrip(t / 16);
      ValueRoundTrip(t % 16);
    case Jmp(_, _) => DecodeJmp(i.target, i.cond);
    case Ep(newState, bdiFlip, dtFlip, wb, celSet) => DecodeEp(newState, bdiFlip, dtFlip, wb, celSet);
    case _ =>
  }

  lemma DecodeEp(newState: Option<Tri>, bdiFlip: bool, dtFlip: bool, wb: bool, celSet: bool)
    ensures Decode(EpWord(newState, bdiFlip, dtFlip, wb, celSet)) == Ep(newState, bdiFlip, dtFlip, wb, celSet)
  {
  }

  /** A jump survives encoding exactly when its target lies in the 256-word ROM. */
  lemma DecodeJmp(target: nat, cond: Cond)
    requires target % 4 == 0
    ensures target < 256 ==> Decode(JmpWord(target, cond)) == Jmp(target, cond)
    ensures Decode(JmpWord(target, cond)) == Jmp(target, cond) ==> target < 256
  {
    JumpFields(target, cond);
    var top := NibOf(target / 64 % 16);
    if target < 256 {
      TwoBits(target / 64);
      assert target == 64 * (target / 64) + 4 * (target / 4 % 16);
    } else {
      assert 2 * Bit(top.b1) + Bit(top.b0) <= 3;
    }
  }

  /** What the decoder makes of any aligned target. */
  lemma JumpFields(target: nat, cond: Cond)
    requires target % 4 == 0
    ensures var top := NibOf(target / 64 % 16);
            var to := 64 * (2 * Bit(top.b1) + Bit(top.b0)) + 4 * (target / 4 % 16);
            Decode(JmpWord(target, cond)) == Jmp(to, Cond(cond.mask, cond.val, cond.inv || top.b2))
  {
    ValueRoundTrip(target / 4 % 16);
  }

  lemma TwoBits(d: nat)
    requires d < 4
    ensures !NibOf(d % 16).b2 && 2 * Bit(NibOf(d % 16).b1) + Bit(NibOf(d % 16).b0) == d
  {
  }
}
