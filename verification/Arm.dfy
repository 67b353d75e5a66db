/**
 The guest side of the JIT: what the ARM architecture (ARM Architecture Reference Manual,
 DDI 0100, sections A3.2, A4.1 and A5.1) says a data-processing instruction with an
 immediate-shifted register operand does. Nothing here refers to the code generated for it.
 */
module Arm {
  import opened X86

  datatype Opcode =
    | AND | EOR | SUB | RSB | ADD | ADC | SBC | RSC
    | TST | TEQ | CMP | CMN | ORR | BIC | MVN

  datatype Cond = EQ | NE | CS | CC | MI | PL | VS | VC | HI | LS | GE | LT | GT | LE | AL | NV

  datatype ShiftKind = LSL | LSR | ASR | ROR | RRX

  /** A decoded instruction, as the disassembler's context holds it. */
  datatype Inst = Inst(
    op: Opcode, cond: Cond, s: bool, rd: Reg, rn: Reg, rm: Reg, shift: ShiftKind, imm: bv32)
  {
    /** What the decoder guarantees: shift amounts in range, comparisons always set flags. */
    predicate Decoded() {
      && (op in {TST, TEQ, CMP, CMN} ==> s)
      && match shift
         case LSL => imm <= 31
         case LSR => 1 <= imm <= 32
         case ASR => 1 <= imm <= 32
         case ROR => 1 <= imm <= 31
         case RRX => true
    }

    /** The fragment modelled here: no R15 operand, no NV condition. */
    predicate InFragment() {
      Decoded() && cond != NV && rd < 15 && rn < 15 && rm < 15
    }
  }

  datatype State = State(regs: RegFile, n: bool, z: bool, c: bool, v: bool)

  // ----- A3.2: conditions -----

  predicate Passed(cond: Cond, st: State) {
    match cond
    case EQ => st.z
    case NE => !st.z
    case CS => st.c
    case CC => !st.c
    case MI => st.n
    case PL => !st.n
    case VS => st.v
    case VC => !st.v
    case HI => st.c && !st.z
    case LS => !st.c || st.z
    case GE => st.n == st.v
    case LT => st.n != st.v
    case GT => !st.z && st.n == st.v
    case LE => st.z || st.n != st.v
    case AL => true
    case NV => true
  }

  // ----- A5.1: the shifter operand -----

  /** The instruction's shifter leaves C alone (LSL #0). */
  predicate KeepsCarry(i: Inst) { i.shift == LSL && i.imm == 0 }

  function Operand(i: Inst, x: bv32, c: bool): bv32
    requires i.Decoded()
  {
    match i.shift
    case LSL => Lsl(x, i.imm)
    case LSR => Lsr(x, i.imm)
    case ASR => Asr(x, i.imm)
    case ROR => Rotr(x, i.imm)
    case RRX => (B2w(c) << 31) | (x >> 1)
  }

  function CarryOut(i: Inst, x: bv32, c: bool): bool
    requires i.Decoded()
  {
    match i.shift
    case LSL => if i.imm == 0 then c else Bit(x, 32 - i.imm)
    case LSR => Bit(x, i.imm - 1)
    case ASR => Bit(x, i.imm - 1)
    case ROR => Bit(x, i.imm - 1)
    case RRX => x & 1 != 0
  }

  // ----- A4.1: the instructions -----

  /** The value an instruction computes from Rn and its shifter operand. */
  function Result(op: Opcode, a: bv32, b: bv32, c: bool): bv32 {
    match op
    case AND => Conj(a, b)
    case TST => Conj(a, b)
    case EOR => Excl(a, b)
    case TEQ => Excl(a, b)
    case SUB => Minus(a, b)
    case CMP => Minus(a, b)
    case RSB => Minus(b, a)
    case ADD => Plus(a, b)
    case CMN => Plus(a, b)
    case ADC => Plus(Plus(a, b), B2w(c))
    case SBC => Minus(Minus(a, b), B2w(!c))
    case RSC => Minus(Minus(b, a), B2w(!c))
    case ORR => Disj(a, b)
    case BIC => Conj(a, Compl(b))
    case MVN => Compl(b)
  }

  predicate Logical(op: Opcode) { op in {AND, EOR, TST, TEQ, ORR, BIC, MVN} }

  predicate Compares(op: Opcode) { op in {TST, TEQ, CMP, CMN} }

  /** The carry flag an S-form instruction leaves; `co` is the shifter's carry out. */
  function CarryFlag(op: Opcode, a: bv32, b: bv32, c: bool, co: bool): bool {
    match op
    case SUB => !BorrowFrom(a, b, false)
    case CMP => !BorrowFrom(a, b, false)
    case RSB => !BorrowFrom(b, a, false)
    case ADD => CarryFrom(a, b, false)
    case CMN => CarryFrom(a, b, false)
    case ADC => CarryFrom(a, b, c)
    case SBC => !BorrowFrom(a, b, !c)
    case RSC => !BorrowFrom(b, a, !c)
    case _ => co
  }

  /** The overflow flag an S-form instruction leaves; logical instructions keep `v`. */
  function OverflowFlag(op: Opcode, a: bv32, b: bv32, c: bool, v: bool): bool {
    match op
    case SUB => OverflowSub(a, b, false)
    case CMP => OverflowSub(a, b, false)
    case RSB => OverflowSub(b, a, false)
    case ADD => OverflowAdd(a, b, false)
    case CMN => OverflowAdd(a, b, false)
    case ADC => OverflowAdd(a, b, c)
    case SBC => OverflowSub(a, b, !c)
    case RSC => OverflowSub(b, a, !c)
    case _ => v
  }

  /** One instruction whose condition passed. */
  function Execute(i: Inst, st: State): State
    requires i.Decoded()
  {
    var a, b := st.regs[i.rn], Operand(i, st.regs[i.rm], st.c);
    var r := Result(i.op, a, b, st.c);
    var regs := if Compares(i.op) then st.regs else st.regs[i.rd := r];
    if i.s then
      State(regs, Msb(r), r == 0,
            CarryFlag(i.op, a, b, st.c, CarryOut(i, st.regs[i.rm], st.c)),
            OverflowFlag(i.op, a, b, st.c, st.v))
    else
      st.(regs := regs)
  }

  function Step(i: Inst, st: State): State
    requires i.Decoded()
  {
    if Passed(i.cond, st) then Execute(i, st) else st
  }

  predicate AllDecoded(p: seq<Inst>) { forall k :: 0 <= k < |p| ==> p[k].Decoded() }

  predicate AllInFragment(p: seq<Inst>) { forall k :: 0 <= k < |p| ==> p[k].InFragment() }

  /** A straight-line ARM program. */
  function Run(p: seq<Inst>, st: State): State
    requires AllDecoded(p)
    decreases |p|
  {
    if |p| == 0 then st else Run(p[1..], Step(p[0], st))
  }
}
