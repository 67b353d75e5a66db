/**
 Shifts by a register: the code the JIT emits against the interpreter's `shifter`. They agree
 on value and carry for every operand exactly when the amount is in a range given here, for
 each kind of shift and every 32-bit amount.
 */
module RegisterShift {
  import opened X86
  import Arm
  import opened Compiler
  import opened CodeEffects

  type Kind = Arm.ShiftKind

  datatype Outcome = Outcome(value: bv32, carry: bool)

  // ----- the interpreter -----

  const FLAG_C: bv32 := 0x2000_0000

  /** The interpreter's `shifter`: the shifted value and the word it returns for the carry,
      of which only "zero or not" is used. */
  function Shifter(imm: bv32, amount32: bv32, op: Kind, cpsr: bv32): (r: (bv32, bv32)) {
    var amount := amount32 & 0xFF;
    if amount == 0 then (imm, cpsr & FLAG_C)
    else match op
      case LSL =>
        if amount < 32 then (imm << amount, imm & (1 << (32 - amount)))
        else if amount == 32 then (0, imm & 1)
        else (0, 0)
      case LSR =>
        if amount < 32 then (imm >> amount, imm & (1 << (amount - 1)))
        else if amount == 32 then (0, imm & 0x8000_0000)
        else (0, 0)
      case ASR =>
        if amount < 32 then (Asr(imm, amount), imm & (1 << (amount - 1)))
        else if imm & 0x8000_0000 != 0 then (0xFFFF_FFFF, 1)
        else (0, 0)
      case ROR =>
        var n := amount & 31;
        if n == 0 then (imm, imm & 0x8000_0000)
        else (Rotr(imm, n), imm & (1 << (n - 1)))
      case RRX =>
        ((imm >> 1) | ((cpsr << 2) & 0x8000_0000), imm & 1)
  }

  function Interpreted(kind: Kind, x: bv32, amount: bv32, c: bool): Outcome {
    var r := Shifter(x, amount, kind, if c then FLAG_C else 0);
    Outcome(r.0, r.1 != 0)
  }

  // ----- the generated code in closed form -----

  function Min31(n: bv32): bv32 { if n > 31 then 31 else n }

  function OutBit(op: ShiftOp, x: bv32, n: bv32, c: bool): bool
    requires n <= 31
  {
    if n == 0 then c else Bit(x, OutPosition(op, n))
  }

  /** What the emitted code leaves in EAX and in bit 0 of ESI. */
  function Generated(kind: Kind, x: bv32, amount: bv32, c: bool): Outcome
    requires kind != Arm.RRX
  {
    if amount == 0 then Outcome(x, c)
    else match kind
      case LSL =>
        var n := Min31(amount);
        Outcome(Closed(Shl, x, n), Bit(x, OutPosition(Shl, n)))
      case LSR =>
        var y := Closed(Shr, x, Min31(amount - 1));
        Outcome(Closed(Shr, y, 1), Bit(y, 0))
      case ASR =>
        var y := Closed(Sar, x, Min31(amount - 1));
        Outcome(Closed(Sar, y, 1), Bit(y, 0))
      case ROR =>
        var n := amount & 31;
        Outcome(Closed(Ror, x, n), OutBit(Ror, x, n, false))
  }

  // ----- the generated code computes the closed form -----

  lemma {:induction false} LoadCarryEffect(m: Host, noise: Noise)
    ensures var m' := Run(LOAD_CARRY, m, noise);
            && m'.eax == m.eax && m'.ecx == m.ecx && m'.saved == m.saved && m'.stack == m.stack
            && m'.esi == Closed(Shr, m.saved, 8)
  {
    hide Run, Step, Closed, Bit, OutPosition, ShiftBy, ShiftOut, Msb;
    RunTwo(Op.Mov(Esi, Saved), Shift(Shr, Esi, 8), m, noise);
    MovEsiSaved(m, noise);
    ShrEsi(Step(Op.Mov(Esi, Saved), m, noise), noise);
  }

  lemma MovEsiSaved(m: Host, noise: Noise)
    ensures Step(Op.Mov(Esi, Saved), m, noise) == m.(esi := m.saved, clock := m.clock + 1)
  {
  }

  lemma ShrEsi(m: Host, noise: Noise)
    ensures var m' := Step(Shift(Shr, Esi, 8), m, noise);
            && m'.eax == m.eax && m'.ecx == m.ecx && m'.saved == m.saved && m'.stack == m.stack
            && m'.esi == Closed(Shr, m.esi, 8)
  {
    hide Bit, Closed, OutPosition, ShiftBy, ShiftOut, Msb;
    ShiftByClosed(Shr, m.esi, 8);
    LowFive(8);
  }

  lemma SavedCarryBit(w: bv32)
    ensures (Closed(Shr, w, 8) & 1 != 0) == SavedC(w)
  {
  }

  lemma OrSelf(x: bv32)
    ensures Disj(x, x) == x
  {
  }

  lemma {:induction false} OrEcx(m: Host, noise: Noise)
    ensures var m' := Run([Alu(Or, Ecx, Ecx)], m, noise);
            && m'.eax == m.eax && m'.ecx == m.ecx && m'.esi == m.esi && m'.stack == m.stack
            && m'.zf == (m.ecx == 0)
  {
    hide Run, Disj, Msb;
    OrSelf(m.ecx);
    RunOne(Alu(Or, Ecx, Ecx), m, noise);
  }

  lemma {:induction false} AndEcx(m: Host, noise: Noise)
    ensures var m' := Run([AluImm(And, Ecx, 31)], m, noise);
            m'.eax == m.eax && m'.ecx == Conj(m.ecx, 31) && m'.cf == false
  {
    hide Run, Conj, Msb;
    RunOne(AluImm(And, Ecx, 31), m, noise);
  }

  lemma {:induction false} DecEcx(m: Host, noise: Noise)
    ensures var m' := Run([Dec(Ecx)], m, noise);
            m'.eax == m.eax && m'.ecx == Minus(m.ecx, 1) && m'.stack == m.stack
  {
    hide Run, Minus, Msb, OverflowSub;
    RunOne(Dec(Ecx), m, noise);
  }

  lemma {:induction false} PushPop(m: Host, noise: Noise)
    ensures Run([PushImm(31), Pop(Esi)], m, noise) == m.(esi := 31, clock := m.clock + 2)
  {
    hide Run, Step;
    RunTwo(PushImm(31), Pop(Esi), m, noise);
    PushStep(m, noise);
    PopStep(31, m.stack, Step(PushImm(31), m, noise), noise);
  }

  lemma PushStep(m: Host, noise: Noise)
    ensures Step(PushImm(31), m, noise) == m.(stack := [31] + m.stack, clock := m.clock + 1)
  {
  }

  lemma PopStep(x: bv32, rest: seq<bv32>, m: Host, noise: Noise)
    requires m.stack == [x] + rest
    ensures Step(Pop(Esi), m, noise) == m.(esi := x, stack := rest, clock := m.clock + 1)
  {
    assert m.stack[1..] == rest;
  }

  lemma CompareStep(m: Host, noise: Noise)
    ensures var m' := Step(Alu(Cmp, Ecx, Esi), m, noise);
            && m'.eax == m.eax && m'.ecx == m.ecx && m'.esi == m.esi
            && m'.cf == BorrowFrom(m.ecx, m.esi, false) && m'.zf == (Minus(m.ecx, m.esi) == 0)
  {
    hide Minus, BorrowFrom, OverflowSub, Msb;
  }

  lemma CmovaStep(m: Host, noise: Noise)
    ensures var m' := Step(Cmova(Ecx, Esi), m, noise);
            m'.eax == m.eax && m'.ecx == if !m.cf && !m.zf then m.esi else m.ecx
  {
  }

  lemma Above31(n: bv32)
    ensures (!BorrowFrom(n, 31, false) && Minus(n, 31) != 0) <==> n > 31
  {
  }

  lemma {:induction false} SaturateEffect(m: Host, noise: Noise)
    ensures var m' := Run([PushImm(31), Pop(Esi), Alu(Cmp, Ecx, Esi), Cmova(Ecx, Esi)], m, noise);
            m'.eax == m.eax && m'.ecx == Min31(m.ecx)
  {
    hide Run, Step, Minus, BorrowFrom;
    var a, b := [PushImm(31), Pop(Esi)], [Alu(Cmp, Ecx, Esi), Cmova(Ecx, Esi)];
    assert a + b == [PushImm(31), Pop(Esi), Alu(Cmp, Ecx, Esi), Cmova(Ecx, Esi)];
    RunAppend(a, b, m, noise);
    PushPop(m, noise);
    var m1 := Run(a, m, noise);
    RunTwo(Alu(Cmp, Ecx, Esi), Cmova(Ecx, Esi), m1, noise);
    CompareStep(m1, noise);
    CmovaStep(Step(Alu(Cmp, Ecx, Esi), m1, noise), noise);
    Above31(m.ecx);
  }

  /** The amount the host shift is given. */
  function Clamped(kind: Kind, amount: bv32): bv32 {
    match kind
    case LSL => Min31(amount)
    case ROR => Conj(amount, 31)
    case RRX => Min31(amount)
    case _ => Min31(Minus(amount, 1))
  }

  lemma {:induction false} ClampEffect(kind: Kind, m: Host, noise: Noise)
    ensures var m' := Run(ClampCode(kind), m, noise);
            && m'.eax == m.eax && m'.ecx == Clamped(kind, m.ecx)
            && (kind == Arm.ROR ==> !m'.cf)
  {
    hide Run, Minus, Conj, Min31;
    if kind == Arm.ROR {
      AndEcx(m, noise);
    } else {
      var dec := if kind in {Arm.LSR, Arm.ASR} then [Dec(Ecx)] else [];
      var sat := [PushImm(31), Pop(Esi), Alu(Cmp, Ecx, Esi), Cmova(Ecx, Esi)];
      RunAppend(dec, sat, m, noise);
      if kind in {Arm.LSR, Arm.ASR} { DecEcx(m, noise); } else { RunNothing(m, noise); }
      SaturateEffect(Run(dec, m, noise), noise);
    }
  }

  lemma ClIsImmediate(op: ShiftOp, m: Host, noise: Noise)
    ensures Step(ShiftCl(op, Eax), m, noise) == Step(Shift(op, Eax, m.ecx), m, noise)
  {
    hide ShiftStep;
  }

  lemma ShiftByZero(op: ShiftOp, m: Host, noise: Noise)
    ensures Step(Shift(op, Eax, 0), m, noise) == Tick(m)
  {
    hide ShiftBy, ShiftOut, Msb;
    LowFive(0);
  }

  /** A shift of EAX by CL, for amounts up to 31. */
  lemma ShiftClEffect(op: ShiftOp, m: Host, noise: Noise)
    requires m.ecx <= 31
    ensures var m' := Step(ShiftCl(op, Eax), m, noise);
            m'.eax == Closed(op, m.eax, m.ecx) && m'.cf == OutBit(op, m.eax, m.ecx, m.cf)
  {
    hide Bit, Closed, OutPosition, Step;
    ClIsImmediate(op, m, noise);
    if m.ecx == 0 {
      ShiftByZero(op, m, noise);
      ClosedZero(op, m.eax);
    } else {
      ShiftOp1(op, m.ecx, m, noise);
    }
  }

  lemma OneMore(op: ShiftOp, m: Host, noise: Noise)
    requires op in {Shr, Sar}
    ensures var m' := Step(Shift(op, Eax, 1), m, noise);
            m'.eax == Closed(op, m.eax, 1) && m'.cf == Bit(m.eax, 0)
  {
    hide Step, Closed, Bit;
    ShiftOp1(op, 1, m, noise);
  }

  /** What the shifts proper leave, given the clamped amount. */
  function Shifts(kind: Kind, x: bv32, n: bv32, c: bool): Outcome
    requires n <= 31 && kind != Arm.RRX
  {
    match kind
    case LSL => Outcome(Closed(Shl, x, n), OutBit(Shl, x, n, c))
    case LSR => Outcome(Closed(Shr, Closed(Shr, x, n), 1), Bit(Closed(Shr, x, n), 0))
    case ASR => Outcome(Closed(Sar, Closed(Sar, x, n), 1), Bit(Closed(Sar, x, n), 0))
    case ROR => Outcome(Closed(Ror, x, n), OutBit(Ror, x, n, c))
  }

  lemma {:induction false} ShiftsEffect(kind: Kind, m: Host, noise: Noise)
    requires kind != Arm.RRX && m.ecx <= 31
    ensures var m' := Run(ShiftClCode(kind), m, noise);
            Outcome(m'.eax, m'.cf) == Shifts(kind, m.eax, m.ecx, m.cf)
  {
    hide Run, Step, Closed, Bit, OutBit;
    match kind
    case LSL => ShiftClEffect(Shl, m, noise); RunOne(ShiftCl(Shl, Eax), m, noise);
    case ROR => ShiftClEffect(Ror, m, noise); RunOne(ShiftCl(Ror, Eax), m, noise);
    case LSR =>
      ShiftClEffect(Shr, m, noise);
      OneMore(Shr, Step(ShiftCl(Shr, Eax), m, noise), noise);
      RunTwo(ShiftCl(Shr, Eax), Shift(Shr, Eax, 1), m, noise);
    case ASR =>
      ShiftClEffect(Sar, m, noise);
      OneMore(Sar, Step(ShiftCl(Sar, Eax), m, noise), noise);
      RunTwo(ShiftCl(Sar, Eax), Shift(Sar, Eax, 1), m, noise);
  }

  lemma ConjBound(x: bv32)
    ensures Conj(x, 31) <= 31
  {
  }

  lemma MinBound(x: bv32)
    ensures Min31(x) <= 31
  {
  }

  lemma ClampedInRange(kind: Kind, amount: bv32)
    ensures Clamped(kind, amount) <= 31
  {
    hide Conj, Min31, Minus;
    ConjBound(amount);
    MinBound(amount);
    MinBound(Minus(amount, 1));
  }

  lemma RestStraight(kind: Kind)
    ensures JumpsInside(ClampCode(kind)) && JumpsInside(ClampCode(kind) + ShiftClCode(kind))
    ensures JumpsInside(LOAD_CARRY + [Alu(Or, Ecx, Ecx)])
  {
  }

  lemma LslAmount(amount: bv32)
    requires amount != 0
    ensures Min31(amount) != 0
  {
  }

  /** The code as a whole: EAX and bit 0 of ESI are the closed form of EAX shifted by ECX. */
  lemma {:induction false} GeneratedEffect(kind: Kind, m: Host, noise: Noise)
    requires kind != Arm.RRX
    ensures var m' := Run(RegShiftCode(kind), m, noise);
            Outcome(m'.eax, m'.esi & 1 != 0) == Generated(kind, m.eax, m.ecx, SavedC(m.saved))
  {
    hide Run, ClampCode, ShiftClCode, Clamped, Shifts, Generated, SavedC, Closed;
    var head := LOAD_CARRY + [Alu(Or, Ecx, Ecx)];
    var rest := ClampCode(kind) + ShiftClCode(kind) + [Rcl1(Esi)];
    RestStraight(kind);
    assert RegShiftCode(kind) == head + ([Jump(Jz, |rest|)] + rest);
    RunAppend(head, [Jump(Jz, |rest|)] + rest, m, noise);
    RunAppend(LOAD_CARRY, [Alu(Or, Ecx, Ecx)], m, noise);
    LoadCarryEffect(m, noise);
    var m1 := Run(LOAD_CARRY, m, noise);
    OrEcx(m1, noise);
    var m2 := Run([Alu(Or, Ecx, Ecx)], m1, noise);
    SavedCarryBit(m.saved);
    SkipZero(rest, m2, noise);
    if m.ecx != 0 {
      RestEffect(kind, Tick(m2), noise);
      ShiftsAreGenerated(kind, m.eax, m.ecx, Run(ClampCode(kind), Tick(m2), noise).cf, SavedC(m.saved));
    } else {
      GeneratedZero(kind, m.eax, SavedC(m.saved));
    }
  }

  lemma GeneratedZero(kind: Kind, x: bv32, c: bool)
    requires kind != Arm.RRX
    ensures Generated(kind, x, 0, c) == Outcome(x, c)
  {
  }

  lemma {:induction false} SkipZero(rest: seq<Op>, m: Host, noise: Noise)
    ensures Run([Jump(Jz, |rest|)] + rest, m, noise)
         == if m.zf then Tick(m) else Run(rest, Tick(m), noise)
  {
    hide Step, Tick;
    var code := [Jump(Jz, |rest|)] + rest;
    assert code[1 + |rest|..] == [] && code[1..] == rest && code[0] == Jump(Jz, |rest|);
    RunNothing(Tick(m), noise);
    JzTicks(|rest|, m, noise);
  }

  lemma JzTicks(n: nat, m: Host, noise: Noise)
    ensures Step(Jump(Jz, n), m, noise) == Tick(m)
  {
  }

  lemma {:induction false} RestEffect(kind: Kind, m: Host, noise: Noise)
    requires kind != Arm.RRX
    ensures Clamped(kind, m.ecx) <= 31
    ensures var m' := Run(ClampCode(kind) + ShiftClCode(kind) + [Rcl1(Esi)], m, noise);
            (Outcome(m'.eax, m'.esi & 1 != 0)
             == Shifts(kind, m.eax, Clamped(kind, m.ecx), Run(ClampCode(kind), m, noise).cf))
    ensures kind == Arm.ROR ==> !Run(ClampCode(kind), m, noise).cf
  {
    hide Run, ClampCode, ShiftClCode, Clamped, Shifts;
    RestStraight(kind);
    RunAppend(ClampCode(kind) + ShiftClCode(kind), [Rcl1(Esi)], m, noise);
    RunAppend(ClampCode(kind), ShiftClCode(kind), m, noise);
    ClampEffect(kind, m, noise);
    var m1 := Run(ClampCode(kind), m, noise);
    ClampedInRange(kind, m.ecx);
    ShiftsEffect(kind, m1, noise);
    RclEffect(Run(ShiftClCode(kind), m1, noise), noise);
  }

  lemma ShiftsAreGenerated(kind: Kind, x: bv32, amount: bv32, cf: bool, c: bool)
    requires kind != Arm.RRX && amount != 0 && Clamped(kind, amount) <= 31
    requires kind == Arm.ROR ==> !cf
    ensures Shifts(kind, x, Clamped(kind, amount), cf) == Generated(kind, x, amount, c)
  {
    hide Closed, Bit;
    LslAmount(amount);
  }

  // ----- the two compared -----

  /** The amounts for which the two agree whatever the operand. */
  predicate InRange(kind: Kind, amount: bv32) {
    match kind
    case LSL => amount <= 31 || amount & 0xFF == 31
    case LSR => amount <= 32 || amount & 0xFF == 32
    case ASR => amount <= 31 || amount & 0xFF >= 32
    case ROR => amount == 0 || amount & 31 != 0
    case RRX => false
  }

  predicate AgreeOn(kind: Kind, x: bv32, amount: bv32, c: bool)
    requires kind != Arm.RRX
  {
    Generated(kind, x, amount, c) == Interpreted(kind, x, amount, c)
  }

  lemma LslAgrees(x: bv32, amount: bv32, c: bool)
    requires InRange(Arm.LSL, amount)
    ensures AgreeOn(Arm.LSL, x, amount, c)
  {
  }

  lemma LsrAgrees(x: bv32, amount: bv32, c: bool)
    requires InRange(Arm.LSR, amount)
    ensures AgreeOn(Arm.LSR, x, amount, c)
  {
  }

  lemma BitAsMask(x: bv32, n: bv32)
    requires 1 <= n <= 31
    ensures (x & (1 << (n - 1)) != 0) == Bit(x, n - 1)
  {
  }

  lemma SarStep(x: bv32, n: bv32)
    requires 1 <= n <= 31
    ensures Closed(Sar, Closed(Sar, x, n - 1), 1) == Closed(Sar, x, n)
    ensures Bit(Closed(Sar, x, n - 1), 0) == Bit(x, n - 1)
  {
    hide Closed, Bit, ShiftOnce;
    var y := Closed(Sar, x, n - 1);
    ClosedNext(Sar, x, n);
    ClosedOut(Sar, x, n);
    ClosedZero(Sar, y);
    ClosedNext(Sar, y, 1);
    LowBit(y);
  }

  lemma LowBit(y: bv32)
    ensures BitOut(Sar, y) == Bit(y, 0)
  {
  }

  lemma SarAll(x: bv32)
    ensures Closed(Sar, x, 32) == (if x & 0x8000_0000 != 0 then 0xFFFF_FFFF else 0)
    ensures Bit(x, 31) == (x & 0x8000_0000 != 0)
  {
    if x & 0x8000_0000 != 0 {}
  }

  lemma AmountLow(amount: bv32)
    requires amount <= 31
    ensures amount & 0xFF == amount
  {
  }

  lemma AsrAgrees(x: bv32, amount: bv32, c: bool)
    requires InRange(Arm.ASR, amount)
    ensures AgreeOn(Arm.ASR, x, amount, c)
  {
    hide Asr, Bit;
    if amount == 0 {
    } else if amount <= 31 {
      AmountLow(amount);
      SarStep(x, amount);
      BitAsMask(x, amount);
    } else {
      TwiceSar(x);
      SarAll(x);
    }
  }

  lemma RorAgrees(x: bv32, amount: bv32, c: bool)
    requires InRange(Arm.ROR, amount)
    ensures AgreeOn(Arm.ROR, x, amount, c)
  {
  }

  lemma LslDiffers(amount: bv32)
    requires !InRange(Arm.LSL, amount)
    ensures !AgreeOn(Arm.LSL, 1, amount, false)
  {
  }

  lemma LsrDiffers(amount: bv32)
    requires !InRange(Arm.LSR, amount)
    ensures !AgreeOn(Arm.LSR, 0xFFFF_FFFF, amount, false)
  {
  }

  lemma AsrDiffers(amount: bv32)
    requires !InRange(Arm.ASR, amount)
    ensures !AgreeOn(Arm.ASR, 0x4000_0000, amount, false)
  {
  }

  lemma RorDiffers(amount: bv32)
    requires !InRange(Arm.ROR, amount)
    ensures !AgreeOn(Arm.ROR, 0x8000_0000, amount, amount & 0xFF == 0)
  {
  }

  /** For each kind and amount, the generated code and the interpreter agree on value and
      carry for every operand and carry in if and only if the amount is in range. */
  lemma AgreesExactlyInRange(kind: Kind, amount: bv32)
    requires kind != Arm.RRX
    ensures (forall x, c :: AgreeOn(kind, x, amount, c)) <==> InRange(kind, amount)
  {
    hide AgreeOn;
    if InRange(kind, amount) {
      forall x, c ensures AgreeOn(kind, x, amount, c) { Agrees(kind, x, amount, c); }
    } else {
      match kind
      case LSL => LslDiffers(amount);
      case LSR => LsrDiffers(amount);
      case ASR => AsrDiffers(amount);
      case ROR => RorDiffers(amount);
    }
  }

  lemma Agrees(kind: Kind, x: bv32, amount: bv32, c: bool)
    requires kind != Arm.RRX && InRange(kind, amount)
    ensures AgreeOn(kind, x, amount, c)
  {
    hide AgreeOn, InRange;
    match kind
    case LSL => LslAgrees(x, amount, c);
    case LSR => LsrAgrees(x, amount, c);
    case ASR => AsrAgrees(x, amount, c);
    case ROR => RorAgrees(x, amount, c);
  }

  /** Running the emitted code on an amount in range gives the interpreter's value in EAX and
      its carry in bit 0 of ESI. */
  lemma {:induction false} CodeMatchesInterpreter(kind: Kind, m: Host, noise: Noise)
    requires kind != Arm.RRX && InRange(kind, m.ecx)
    ensures var m' := Run(RegShiftCode(kind), m, noise);
            Outcome(m'.eax, m'.esi & 1 != 0) == Interpreted(kind, m.eax, m.ecx, SavedC(m.saved))
  {
    hide Run, RegShiftCode, InRange, Generated, Interpreted, SavedC;
    GeneratedEffect(kind, m, noise);
    Agrees(kind, m.eax, m.ecx, SavedC(m.saved));
  }
}
