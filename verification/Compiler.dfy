/**
 The compiler: the code it emits for a data-processing instruction, as functions, and the
 `Emitter` whose methods emit that code into a growing stream.
 */
module Compiler {
  import opened X86
  import opened Arm

  // ----- the pieces of code -----

  const LOAD_FLAGS: seq<Op> := [Op.Mov(Eax, Saved), RorAl1, Sahf]

  function StoreFlagsCode(lookahead: bool): seq<Op> {
    if lookahead then [] else [SetoAl, Lahf, Op.Mov(Saved, Eax)]
  }

  function ShiftCode(kind: ShiftKind, imm: bv32): seq<Op> {
    match kind
    case LSL =>
      if imm == 0 then []
      else if imm >= 32 then [Shift(Shl, Eax, 31), Shift(Shl, Eax, 1)]
      else [Shift(Shl, Eax, imm)]
    case LSR =>
      if imm >= 32 then [Shift(Shr, Eax, 31), Shift(Shr, Eax, 1)] else [Shift(Shr, Eax, imm)]
    case ASR =>
      if imm == 0 then []
      else if imm == 32 then [Shift(Sar, Eax, 31), Shift(Sar, Eax, 1)]
      else [Shift(Sar, Eax, imm)]
    case ROR => if imm == 0 then [] else [Shift(Ror, Eax, imm)]
    case RRX => [Rcr1(Eax)]
  }

  /** EAX := the shifter operand, bit 0 of ESI := its carry out. */
  function ShifterCode(i: Inst): seq<Op> {
    (if i.shift == RRX then LOAD_FLAGS else [])
      + [Op.Mov(Eax, Loc.Arm(i.rm))] + ShiftCode(i.shift, i.imm) + [Rcl1(Esi)]
  }

  /** `op` between Rn and EAX with the result in Rd: in place when Rd is Rn. */
  function IntoRd(op: AluOp, i: Inst): seq<Op> {
    if i.rn == i.rd then [Alu(op, Loc.Arm(i.rn), Eax)]
    else [Alu(op, Eax, Loc.Arm(i.rn)), Op.Mov(Loc.Arm(i.rd), Eax)]
  }

  /** The same for a subtraction from Rn: EDX is needed as a second register. */
  function SubtractIntoRd(op: AluOp, src: Loc, i: Inst): seq<Op> {
    if i.rn == i.rd then [Alu(op, Loc.Arm(i.rn), src)]
    else [Op.Mov(Edx, Loc.Arm(i.rn)), Alu(op, Edx, src), Op.Mov(Loc.Arm(i.rd), Edx)]
  }

  /** What follows the shifter operand, up to the flag store. `loaded`: the flags may be
      taken from the host, no load is emitted for SBC. */
  function OperationCode(i: Inst, loaded: bool): seq<Op> {
    match i.op
    case AND => IntoRd(And, i) + [Rcr1(Esi)]
    case EOR => IntoRd(Xor, i) + [Rcr1(Esi)]
    case BIC => [Not(Eax)] + IntoRd(And, i) + [Rcr1(Esi)]
    case ORR => [Alu(Or, Eax, Loc.Arm(i.rn)), Op.Mov(Loc.Arm(i.rd), Eax), Rcr1(Esi)]
    case MVN => [Not(Eax), Op.Mov(Loc.Arm(i.rd), Eax), Rcr1(Esi)]
    case TST => [Alu(Test, Loc.Arm(i.rn), Eax)]
    case TEQ => [Alu(Xor, Eax, Loc.Arm(i.rn))]
    case ADD => IntoRd(Add, i)
    case ADC => [Push(Eax)] + LOAD_FLAGS + [Pop(Eax)] + IntoRd(Adc, i)
    case CMP => [Alu(Cmp, Loc.Arm(i.rn), Eax), Cmc]
    case CMN => [Alu(Add, Eax, Loc.Arm(i.rn))]
    case SUB => SubtractIntoRd(Sub, Eax, i)
    case RSB => [Alu(Sub, Eax, Loc.Arm(i.rn)), Op.Mov(Loc.Arm(i.rd), Eax)]
    case SBC =>
      [Op.Mov(Ecx, Eax)] + (if loaded then [] else LOAD_FLAGS) + [Cmc]
        + SubtractIntoRd(Sbb, Ecx, i) + (if i.s then [Cmc] else [])
    case RSC =>
      [Alu(Sub, Eax, Ecx), Op.Mov(Loc.Arm(i.rd), Eax)] + (if i.s then [Cmc] else [])
  }

  /** RSC adds the borrow to Rn before it computes the shifter operand. */
  function PrefixCode(i: Inst, loaded: bool): seq<Op> {
    if i.op == RSC then
      (if loaded then [] else LOAD_FLAGS)
        + [Cmc, Op.Mov(Ecx, Loc.Arm(i.rn)), AluImm(Adc, Ecx, 0)]
    else []
  }

  /** `not [rd]` needs no shifter operand. */
  predicate MvnInPlace(i: Inst) { i.op == MVN && i.rd == i.rm && KeepsCarry(i) }

  function BodyCode(i: Inst, lookahead: bool, loaded: bool): seq<Op> {
    (if MvnInPlace(i) then [Not(Loc.Arm(i.rd)), Rcr1(Esi)]
     else PrefixCode(i, loaded) + ShifterCode(i) + OperationCode(i, loaded))
      + (if i.s then StoreFlagsCode(lookahead) else [])
  }

  /** The skip jump of a condition: taken when the condition fails. */
  function SkipJump(cond: Cond): Cc {
    match cond
    case EQ => Jnz case NE => Jz
    case CS => Jnc case CC => Jc
    case MI => Jns case PL => Js
    case VS => Jno case VC => Jo
    case HI => Jbe case LS => Ja
    case GE => Jl case LT => Jge
    case GT => Jle case LE => Jg
    case AL => Jnz case NV => Jnz
  }

  /** HI and LS complement the carry before they test it. */
  predicate Complements(cond: Cond) { cond in {HI, LS} }

  predicate Guarded(cond: Cond) { cond !in {AL, NV} }

  /** Everything before the skip jump of a conditional instruction. */
  function GuardCode(cond: Cond, loaded: bool): seq<Op> {
    (if loaded then [] else LOAD_FLAGS) + (if Complements(cond) then [Cmc] else [])
  }

  /** The cycle counter: `inc` when a lookahead will drop the flags anyway. */
  function TickCode(lookahead: bool): seq<Op> {
    if lookahead then [IncEbx] else [LeaEbx]
  }

  function GuardedCode(i: Inst, lookahead: bool, loaded: bool): seq<Op> {
    var body := BodyCode(i, lookahead, true);
    GuardCode(i.cond, loaded) + [Jump(SkipJump(i.cond), |body|)] + body
  }

  /** The code of one instruction. `live`: the previous instruction stored flags, so the host
      flags may be used in place of the saved ones. */
  function InstCode(i: Inst, lookahead: bool, live: bool): seq<Op> {
    var loaded := live && !lookahead;
    TickCode(lookahead)
      + if Guarded(i.cond) then GuardedCode(i, lookahead, loaded) else BodyCode(i, lookahead, loaded)
  }

  // ----- shifts by a register -----

  /** Brings the shift amount in ECX into the range the host shifts can do. */
  function ClampCode(kind: ShiftKind): seq<Op> {
    if kind == ROR then [AluImm(And, Ecx, 31)]
    else (if kind in {LSR, ASR} then [Dec(Ecx)] else [])
         + [PushImm(31), Pop(Esi), Alu(Cmp, Ecx, Esi), Cmova(Ecx, Esi)]
  }

  function ShiftClCode(kind: ShiftKind): seq<Op> {
    match kind
    case LSL => [ShiftCl(Shl, Eax)]
    case LSR => [ShiftCl(Shr, Eax), Shift(Shr, Eax, 1)]
    case ASR => [ShiftCl(Sar, Eax), Shift(Sar, Eax, 1)]
    case ROR => [ShiftCl(Ror, Eax)]
    case RRX => []
  }

  /** The saved carry into bit 0 of ESI, in case nothing is shifted. */
  const LOAD_CARRY: seq<Op> := [Op.Mov(Esi, Saved), Shift(Shr, Esi, 8)]

  /** EAX shifted by ECX, bit 0 of ESI := the carry out; nothing is done for amount 0. */
  function RegShiftCode(kind: ShiftKind): seq<Op> {
    var rest := ClampCode(kind) + ShiftClCode(kind) + [Rcl1(Esi)];
    LOAD_CARRY + [Alu(Or, Ecx, Ecx)] + [Jump(Jz, |rest|)] + rest
  }

  /** The next instruction overwrites every flag and, as the source judges it, reads none. */
  predicate Overwrites(next: Inst) {
    next.s && next.op !in {ADC, SBC} && next.shift != RRX
  }

  function LookaheadAt(p: seq<Inst>, k: nat, enabled: bool): bool {
    enabled && k + 1 < |p| && Overwrites(p[k + 1])
  }

  function LiveAt(p: seq<Inst>, k: nat): bool
    requires k <= |p|
  {
    k > 0 && p[k - 1].s
  }

  /** The code of instructions `k..` of a page. */
  function CodeFrom(p: seq<Inst>, k: nat, enabled: bool): seq<Op>
    requires k <= |p|
    decreases |p| - k
  {
    if k == |p| then []
    else InstCode(p[k], LookaheadAt(p, k, enabled), LiveAt(p, k)) + CodeFrom(p, k + 1, enabled)
  }

  /** The code of the first `k` instructions of a page. */
  function CodeUpTo(p: seq<Inst>, k: nat, enabled: bool): seq<Op>
    requires k <= |p|
  {
    if k == 0 then []
    else CodeUpTo(p, k - 1, enabled)
         + InstCode(p[k - 1], LookaheadAt(p, k - 1, enabled), LiveAt(p, k - 1))
  }

  lemma {:induction false} CodeUpToZero(p: seq<Inst>)
    ensures CodeUpTo(p, 0, true) == []
  {
  }

  lemma CodeUpToNext(p: seq<Inst>, k: nat, enabled: bool)
    requires k < |p|
    ensures CodeUpTo(p, k + 1, enabled)
         == CodeUpTo(p, k, enabled) + InstCode(p[k], LookaheadAt(p, k, enabled), LiveAt(p, k))
  {
    hide InstCode;
  }

  lemma {:induction false} CodeSplit(p: seq<Inst>, k: nat, enabled: bool)
    requires k <= |p|
    ensures CodeUpTo(p, k, enabled) + CodeFrom(p, k, enabled) == CodeFrom(p, 0, enabled)
  {
    hide InstCode, LookaheadAt, LiveAt;
    if k == 0 {
      assert [] + CodeFrom(p, 0, enabled) == CodeFrom(p, 0, enabled);
    } else {
      CodeSplit(p, k - 1, enabled);
      var c := InstCode(p[k - 1], LookaheadAt(p, k - 1, enabled), LiveAt(p, k - 1));
      assert (CodeUpTo(p, k - 1, enabled) + c) + CodeFrom(p, k, enabled)
          == CodeUpTo(p, k - 1, enabled) + (c + CodeFrom(p, k, enabled));
    }
  }

  // ----- the emitter -----

  class Emitter {
    var s: seq<Op>
    var flagsUpdated: bool
    var ctx: Inst
    var lookaheadS: bool

    constructor (first: Inst)
      ensures s == [] && !flagsUpdated && ctx == first && !lookaheadS
    {
      s, flagsUpdated, ctx, lookaheadS := [], false, first, false;
    }

    method Emit(ops: seq<Op>)
      modifies this`s
      ensures s == old(s) + ops
    {
      s := s + ops;
    }

    method LoadFlags()
      modifies this`s
      ensures s == old(s) + LOAD_FLAGS
    {
      Emit([Op.Mov(Eax, Saved), RorAl1, Sahf]);
    }

    method StoreFlags()
      modifies this`s, this`flagsUpdated
      ensures s == old(s) + StoreFlagsCode(lookaheadS) && flagsUpdated
    {
      flagsUpdated := true;
      if lookaheadS {
        return;
      }
      Emit([SetoAl, Lahf, Op.Mov(Saved, Eax)]);
    }

    method ShiftEaxImm()
      modifies this`s
      ensures s == old(s) + ShiftCode(ctx.shift, ctx.imm)
    {
      match ctx.shift
      case LSL =>
        if ctx.imm == 0 {
        } else if ctx.imm >= 32 {
          Emit([Shift(Shl, Eax, 31), Shift(Shl, Eax, 1)]);
        } else {
          Emit([Shift(Shl, Eax, ctx.imm)]);
        }
      case LSR =>
        if ctx.imm >= 32 {
          Emit([Shift(Shr, Eax, 31), Shift(Shr, Eax, 1)]);
        } else {
          Emit([Shift(Shr, Eax, ctx.imm)]);
        }
      case ASR =>
        if ctx.imm != 0 {
          if ctx.imm == 32 {
            Emit([Shift(Sar, Eax, 31), Shift(Sar, Eax, 1)]);
          } else {
            Emit([Shift(Sar, Eax, ctx.imm)]);
          }
        }
      case ROR =>
        if ctx.imm != 0 {
          Emit([Shift(Ror, Eax, ctx.imm)]);
        }
      case RRX =>
        Emit([Rcr1(Eax)]);
    }

    method LoadShifterImm()
      modifies this`s
      ensures s == old(s) + ShifterCode(ctx)
    {
      if ctx.shift == RRX {
        LoadFlags();
      }
      Emit([Op.Mov(Eax, Loc.Arm(ctx.rm))]);
      ShiftEaxImm();
      Emit([Rcl1(Esi)]);
    }

    method EmitIntoRd(op: AluOp)
      modifies this`s
      ensures s == old(s) + IntoRd(op, ctx)
    {
      if ctx.rn == ctx.rd {
        Emit([Alu(op, Loc.Arm(ctx.rn), Eax)]);
      } else {
        Emit([Alu(op, Eax, Loc.Arm(ctx.rn)), Op.Mov(Loc.Arm(ctx.rd), Eax)]);
      }
    }

    method EmitSubtractIntoRd(op: AluOp, src: Loc)
      modifies this`s
      ensures s == old(s) + SubtractIntoRd(op, src, ctx)
    {
      if ctx.rn == ctx.rd {
        Emit([Alu(op, Loc.Arm(ctx.rn), src)]);
      } else {
        Emit([Op.Mov(Edx, Loc.Arm(ctx.rn)), Alu(op, Edx, src), Op.Mov(Loc.Arm(ctx.rd), Edx)]);
      }
    }

    method EmitLogical(op: AluOp)
      modifies this`s
      ensures s == old(s) + (IntoRd(op, ctx) + [Rcr1(Esi)])
    {
      EmitIntoRd(op);
      Emit([Rcr1(Esi)]);
    }

    method EmitAdc()
      modifies this`s
      ensures s == old(s) + ([Push(Eax)] + LOAD_FLAGS + [Pop(Eax)] + IntoRd(Adc, ctx))
    {
      Emit([Push(Eax)]);
      LoadFlags();
      Emit([Pop(Eax)]);
      EmitIntoRd(Adc);
    }

    method EmitSbc(loaded: bool)
      modifies this`s
      ensures s == old(s) + ([Op.Mov(Ecx, Eax)] + (if loaded then [] else LOAD_FLAGS) + [Cmc]
                             + SubtractIntoRd(Sbb, Ecx, ctx) + (if ctx.s then [Cmc] else []))
    {
      Emit([Op.Mov(Ecx, Eax)]);
      if !loaded {
        LoadFlags();
      }
      Emit([Cmc]);
      EmitSubtractIntoRd(Sbb, Ecx);
      if ctx.s {
        Emit([Cmc]);
      }
    }

    method EmitOperation(loaded: bool)
      modifies this`s
      ensures s == old(s) + OperationCode(ctx, loaded)
    {
      hide IntoRd, SubtractIntoRd;
      match ctx.op
      case AND => EmitLogical(And);
      case EOR => EmitLogical(Xor);
      case BIC =>
        Emit([Not(Eax)]);
        EmitLogical(And);
        assert s == old(s) + ([Not(Eax)] + IntoRd(And, ctx) + [Rcr1(Esi)]);
      case ORR => Emit([Alu(Or, Eax, Loc.Arm(ctx.rn)), Op.Mov(Loc.Arm(ctx.rd), Eax), Rcr1(Esi)]);
      case MVN => Emit([Not(Eax), Op.Mov(Loc.Arm(ctx.rd), Eax), Rcr1(Esi)]);
      case TST => Emit([Alu(Test, Loc.Arm(ctx.rn), Eax)]);
      case TEQ => Emit([Alu(Xor, Eax, Loc.Arm(ctx.rn))]);
      case ADD => EmitIntoRd(Add);
      case ADC => EmitAdc();
      case CMP => Emit([Alu(Cmp, Loc.Arm(ctx.rn), Eax), Cmc]);
      case CMN => Emit([Alu(Add, Eax, Loc.Arm(ctx.rn))]);
      case SUB => EmitSubtractIntoRd(Sub, Eax);
      case RSB => Emit([Alu(Sub, Eax, Loc.Arm(ctx.rn)), Op.Mov(Loc.Arm(ctx.rd), Eax)]);
      case SBC => EmitSbc(loaded);
      case RSC =>
        if ctx.s {
          Emit([Alu(Sub, Eax, Ecx), Op.Mov(Loc.Arm(ctx.rd), Eax), Cmc]);
        } else {
          Emit([Alu(Sub, Eax, Ecx), Op.Mov(Loc.Arm(ctx.rd), Eax)]);
        }
    }

    method EmitPrefix(loaded: bool)
      modifies this`s
      ensures s == old(s) + PrefixCode(ctx, loaded)
    {
      if ctx.op == RSC {
        if !loaded {
          LoadFlags();
        }
        Emit([Cmc, Op.Mov(Ecx, Loc.Arm(ctx.rn)), AluImm(Adc, Ecx, 0)]);
      }
    }

    method EmitBody(loaded: bool)
      requires !flagsUpdated
      modifies this`s, this`flagsUpdated
      ensures s == old(s) + BodyCode(ctx, lookaheadS, loaded)
      ensures flagsUpdated == ctx.s
    {
      hide PrefixCode, ShifterCode, OperationCode, StoreFlagsCode;
      if ctx.op == MVN && ctx.rd == ctx.rm && ctx.shift == LSL && ctx.imm == 0 {
        Emit([Not(Loc.Arm(ctx.rd)), Rcr1(Esi)]);
      } else {
        EmitPrefix(loaded);
        LoadShifterImm();
        EmitOperation(loaded);
        assert s == old(s) + (PrefixCode(ctx, loaded) + ShifterCode(ctx) + OperationCode(ctx, loaded));
      }
      if ctx.s {
        StoreFlags();
      }
    }

    /** The skip jump is emitted with an empty offset; the result is its position. */
    method EmitGuard(loaded: bool) returns (jumpAt: nat)
      modifies this`s
      ensures jumpAt == |old(s)| + |GuardCode(ctx.cond, loaded)|
      ensures s == old(s) + GuardCode(ctx.cond, loaded) + [Jump(SkipJump(ctx.cond), 0)]
    {
      if !loaded {
        LoadFlags();
      }
      if ctx.cond == HI || ctx.cond == LS {
        Emit([Cmc]);
      }
      jumpAt := |s|;
      Emit([Jump(SkipJump(ctx.cond), 0)]);
    }

    /** The skip jump is patched once the body is there. */
    method CompileGuarded(loaded: bool)
      modifies this`s, this`flagsUpdated
      ensures s == old(s) + GuardedCode(ctx, lookaheadS, loaded)
      ensures flagsUpdated == ctx.s
    {
      hide BodyCode, GuardCode;
      var jumpAt := EmitGuard(loaded);
      flagsUpdated := false;
      EmitBody(true);
      ghost var body := BodyCode(ctx, lookaheadS, true);
      ghost var head := old(s) + GuardCode(ctx.cond, loaded);
      assert s == head + [Jump(SkipJump(ctx.cond), 0)] + body;
      Patch(head, SkipJump(ctx.cond), body);
      s := s[jumpAt := Jump(SkipJump(ctx.cond), |s| - jumpAt - 1)];
    }

    static lemma Patch(head: seq<Op>, cc: Cc, body: seq<Op>)
      ensures (head + [Jump(cc, 0)] + body)[|head| := Jump(cc, |body|)] == head + [Jump(cc, |body|)] + body
    {
    }

    /** Shift by a register. */
    method ShiftopEaxEcx()
      modifies this`s
      ensures s == old(s) + RegShiftCode(ctx.shift)
    {
      hide ClampCode, ShiftClCode;
      Emit([Op.Mov(Esi, Saved), Shift(Shr, Esi, 8)]);
      Emit([Alu(Or, Ecx, Ecx)]);
      var jumpAt := |s|;
      ghost var head := s;
      Emit([Jump(Jz, 0)]);
      EmitClamp();
      EmitShiftCl();
      Emit([Rcl1(Esi)]);
      ghost var rest := ClampCode(ctx.shift) + ShiftClCode(ctx.shift) + [Rcl1(Esi)];
      assert s == head + [Jump(Jz, 0)] + rest;
      Patch(head, Jz, rest);
      s := s[jumpAt := Jump(Jz, |s| - jumpAt - 1)];
    }

    method EmitClamp()
      modifies this`s
      ensures s == old(s) + ClampCode(ctx.shift)
    {
      match ctx.shift {
        case ROR => Emit([AluImm(And, Ecx, 31)]);
        case LSR => Emit([Dec(Ecx)]); Emit([PushImm(31), Pop(Esi), Alu(Cmp, Ecx, Esi), Cmova(Ecx, Esi)]);
        case ASR => Emit([Dec(Ecx)]); Emit([PushImm(31), Pop(Esi), Alu(Cmp, Ecx, Esi), Cmova(Ecx, Esi)]);
        case _ => Emit([PushImm(31), Pop(Esi), Alu(Cmp, Ecx, Esi), Cmova(Ecx, Esi)]);
      }
    }

    method EmitShiftCl()
      modifies this`s
      ensures s == old(s) + ShiftClCode(ctx.shift)
    {
      match ctx.shift {
        case LSL => Emit([ShiftCl(Shl, Eax)]);
        case LSR => Emit([ShiftCl(Shr, Eax), Shift(Shr, Eax, 1)]);
        case ASR => Emit([ShiftCl(Sar, Eax), Shift(Sar, Eax, 1)]);
        case ROR => Emit([ShiftCl(Ror, Eax)]);
        case RRX =>
      }
    }

    /** Drop the flag store when the next instruction sets the flags and, as far as this
        test goes, does not consume them. */
    method LookAhead(next: Inst)
      modifies this`lookaheadS
      ensures lookaheadS == Overwrites(next)
      ensures lookaheadS <==> next.s && next.op != ADC && next.op != SBC && next.shift != RRX
    {
      lookaheadS := next.s;
      if lookaheadS {
        if next.op == ADC || next.op == SBC {
          lookaheadS := false;
        }
        if next.shift == RRX {
          lookaheadS := false;
        }
      }
    }

    method CompileInstruction()
      modifies this`s, this`flagsUpdated
      ensures s == old(s) + InstCode(ctx, lookaheadS, old(flagsUpdated))
      ensures flagsUpdated == ctx.s
    {
      hide BodyCode, GuardedCode;
      var flagsActual := flagsUpdated;
      if lookaheadS {
        Emit([IncEbx]);
        flagsActual := false;
      } else {
        Emit([LeaEbx]);
      }
      if ctx.cond != AL && ctx.cond != NV {
        CompileGuarded(flagsActual);
      } else {
        flagsUpdated := false;
        EmitBody(flagsActual);
      }
    }
  }

  /** `code` is the code of the page, and entry `k` of `remap` cuts it into that before and that
      from instruction `k` on. */
  predicate IsPageCode(p: seq<Inst>, code: seq<Op>, remap: seq<nat>) {
    && code == CodeFrom(p, 0, true) && |remap| == |p|
    && forall k :: 0 <= k < |p| ==>
         remap[k] <= |code| && code[..remap[k]] == CodeUpTo(p, k, true) && code[remap[k]..] == CodeFrom(p, k, true)
  }

  /** The compile loop over one page: each instruction is compiled with a view of the next
      one; `remap[k]` is where the code of instruction `k` begins. */
  method CompilePage(p: seq<Inst>) returns (code: seq<Op>, remap: seq<nat>)
    requires |p| > 0
    ensures IsPageCode(p, code, remap)
  {
    hide InstCode, Overwrites, CodeUpTo;
    assert CodeUpTo(p, 0, true) == [] by { CodeUpToZero(p); }
    var c := new Emitter(p[0]);
    var next := p[0];
    remap := [];
    var i := 0;
    while i < |p| - 1
      invariant 0 <= i <= |p| - 1
      invariant next == p[i] && |remap| == i
      invariant c.s == CodeUpTo(p, i, true) && c.flagsUpdated == LiveAt(p, i)
      invariant forall k :: 0 <= k < i ==> remap[k] == |CodeUpTo(p, k, true)|
    {
      c.ctx := next;
      next := p[i + 1];
      remap := remap + [|c.s|];
      c.LookAhead(next);
      c.CompileInstruction();
      CodeUpToNext(p, i, true);
      i := i + 1;
    }
    c.ctx := next;
    c.lookaheadS := false;
    remap := remap + [|c.s|];
    c.CompileInstruction();
    CodeUpToNext(p, i, true);
    code := c.s;
    RemapSplits(p, code, remap);
  }

  lemma {:induction false} RemapSplits(p: seq<Inst>, code: seq<Op>, remap: seq<nat>)
    requires code == CodeUpTo(p, |p|, true)
    requires |remap| == |p| && forall k :: 0 <= k < |p| ==> remap[k] == |CodeUpTo(p, k, true)|
    ensures IsPageCode(p, code, remap)
  {
    hide InstCode;
    CodeSplit(p, |p|, true);
    assert CodeUpTo(p, |p|, true) + [] == code;
    forall k | 0 <= k < |p|
      ensures remap[k] <= |code| && code[..remap[k]] == CodeUpTo(p, k, true)
              && code[remap[k]..] == CodeFrom(p, k, true)
    {
      CodeSplit(p, k, true);
      Cut(CodeUpTo(p, k, true), CodeFrom(p, k, true));
    }
  }

  lemma Cut(a: seq<Op>, b: seq<Op>)
    ensures (a + b)[..|a|] == a && (a + b)[|a|..] == b
  {
  }
}
