/**
 What the pieces of generated code do to the host state, one piece at a time: flag loads and
 stores, the shifter operand, and the operation itself.
 */
module CodeEffects {
  import opened X86
  import Arm
  import opened Compiler

  type Inst = Arm.Inst

  /** The low byte of the saved flags is 0 or 1, which is what lets `ror al, 1` recover OF. */
  predicate LowByteOk(w: bv32) { w & 0xFE == 0 }

  // ----- loading and storing flags -----

  lemma RorKeepsFlags(w: bv32)
    ensures SavedC(RorAl(w)) == SavedC(w)
    ensures SavedZ(RorAl(w)) == SavedZ(w)
    ensures SavedS(RorAl(w)) == SavedS(w)
  {
  }

  lemma RorRecoversOf(w: bv32)
    requires w & 0xFE == 0
    ensures RorAlOf(w) == SavedO(w)
  {
  }

  lemma LoadFlagsSteps(m: Host, noise: Noise)
    requires LowByteOk(m.saved)
    ensures Step(Sahf, Step(RorAl1, Step(Op.Mov(Eax, Saved), m, noise), noise), noise)
         == m.(eax := RorAl(m.saved), clock := m.clock + 3)
             .Flags(SavedC(m.saved), SavedZ(m.saved), SavedS(m.saved), SavedO(m.saved))
  {
    hide RorAl, RorAlOf, SavedC, SavedZ, SavedS, SavedO;
    RorKeepsFlags(m.saved);
    RorRecoversOf(m.saved);
  }

  /** `mov eax, [x86_flags]; ror al, 1; sahf` puts the four saved flags into the host. */
  lemma {:induction false} LoadFlagsEffect(m: Host, noise: Noise)
    requires LowByteOk(m.saved)
    ensures Run(LOAD_FLAGS, m, noise)
         == m.(eax := RorAl(m.saved), clock := m.clock + 3)
             .Flags(SavedC(m.saved), SavedZ(m.saved), SavedS(m.saved), SavedO(m.saved))
  {
    hide Step, Run, RorAl, SavedC, SavedZ, SavedS, SavedO;
    LoadFlagsSteps(m, noise);
    RunThree(Op.Mov(Eax, Saved), RorAl1, Sahf, m, noise);
  }

  /** EAX after `seto al; lahf`. */
  function StoredWord(m: Host, noise: Noise): bv32 {
    WithAh(WithAl(m.eax, m.of), m.sf, m.zf, m.cf, noise(m.clock + 2))
  }

  lemma StoredBits(eax: bv32, junk: bv32, c: bool, z: bool, s: bool, o: bool)
    ensures var w := WithAh(WithAl(eax, o), s, z, c, junk);
            && w & 0xFE == 0
            && SavedC(w) == c && SavedZ(w) == z && SavedS(w) == s && SavedO(w) == o
  {
  }

  lemma StoreFlagsSteps(m: Host, noise: Noise)
    ensures Step(Op.Mov(Saved, Eax), Step(Lahf, Step(SetoAl, m, noise), noise), noise)
         == m.(eax := StoredWord(m, noise), saved := StoredWord(m, noise), clock := m.clock + 3)
  {
    hide WithAl, WithAh;
  }

  /** `seto al; lahf; mov [x86_flags], eax` saves the four host flags, whatever else is in EAX. */
  lemma {:induction false} StoreFlagsEffect(m: Host, noise: Noise)
    ensures var w := StoredWord(m, noise);
            && Run(StoreFlagsCode(false), m, noise) == m.(eax := w, saved := w, clock := m.clock + 3)
            && LowByteOk(w)
            && SavedC(w) == m.cf && SavedZ(w) == m.zf && SavedS(w) == m.sf && SavedO(w) == m.of
  {
    hide Step, Run, WithAl, WithAh, SavedC, SavedZ, SavedS, SavedO;
    StoreFlagsSteps(m, noise);
    RunThree(SetoAl, Lahf, Op.Mov(Saved, Eax), m, noise);
    StoredBits(m.eax, noise(m.clock + 2), m.cf, m.zf, m.sf, m.of);
  }

  // ----- the shifter operand -----

  /** Everything but EAX, ESI, the flags and the clock is the same. */
  ghost predicate Framed(m: Host, m': Host) {
    && m'.regs == m.regs && m'.saved == m.saved && m'.stack == m.stack
    && m'.ebx == m.ebx && m'.ecx == m.ecx && m'.edx == m.edx
  }

  /** One immediate shift of EAX by 1 to 31. */
  lemma ShiftOp1(op: ShiftOp, n: bv32, m: Host, noise: Noise)
    requires 1 <= n <= 31
    ensures var m' := Step(Shift(op, Eax, n), m, noise);
            && Framed(m, m') && m'.esi == m.esi
            && m'.eax == Closed(op, m.eax, n)
            && m'.cf == Bit(m.eax, OutPosition(op, n))
  {
    hide Bit, Closed, OutPosition, ShiftBy, ShiftOut;
    ShiftByClosed(op, m.eax, n);
    LowFive(n);
  }

  lemma LowFive(n: bv32)
    requires n <= 31
    ensures n & 31 == n
  {
  }

  lemma TwiceShr(x: bv32)
    ensures Closed(Shr, Closed(Shr, x, 31), 1) == Closed(Shr, x, 32)
    ensures Bit(Closed(Shr, x, 31), 0) == Bit(x, 31)
  {
  }

  lemma TwiceSar(x: bv32)
    ensures Closed(Sar, Closed(Sar, x, 31), 1) == Closed(Sar, x, 32)
    ensures Bit(Closed(Sar, x, 31), 0) == Bit(x, 31)
  {
    if x & 0x8000_0000 != 0 { TwiceSarNegative(x); } else { TwiceSarPositive(x); }
  }

  lemma TwiceSarNegative(x: bv32)
    requires x & 0x8000_0000 != 0
    ensures Closed(Sar, Closed(Sar, x, 31), 1) == Closed(Sar, x, 32)
    ensures Bit(Closed(Sar, x, 31), 0) == Bit(x, 31)
  {
  }

  lemma TwiceSarPositive(x: bv32)
    requires x & 0x8000_0000 == 0
    ensures Closed(Sar, Closed(Sar, x, 31), 1) == Closed(Sar, x, 32)
    ensures Bit(Closed(Sar, x, 31), 0) == Bit(x, 31)
  {
  }

  /** The host shift that implements an ARM shift. */
  function HostShift(kind: Arm.ShiftKind): ShiftOp {
    match kind
    case LSL => Shl
    case LSR => Shr
    case ASR => Sar
    case ROR => Ror
    case RRX => Ror
  }

  lemma OperandIsClosed(i: Inst, x: bv32, c: bool)
    requires i.Decoded() && i.shift != Arm.RRX
    ensures Arm.Operand(i, x, c) == Closed(HostShift(i.shift), x, i.imm)
  {
    hide Lsl, Lsr, Asr, Rotr;
  }

  lemma CarryOutIsBit(i: Inst, x: bv32, c: bool)
    requires i.Decoded() && i.shift != Arm.RRX && !Arm.KeepsCarry(i)
    ensures i.imm <= 31 ==> Arm.CarryOut(i, x, c) == Bit(x, OutPosition(HostShift(i.shift), i.imm))
    ensures i.imm == 32 ==> Arm.CarryOut(i, x, c) == Bit(x, 31)
  {
  }

  ghost predicate Shifted(i: Inst, m: Host, m': Host) {
    && Framed(m, m') && m'.esi == m.esi
    && i.Decoded()
    && (i.shift != Arm.RRX ==>
          && m'.eax == Closed(HostShift(i.shift), m.eax, i.imm)
          && (1 <= i.imm <= 31 ==> m'.cf == Bit(m.eax, OutPosition(HostShift(i.shift), i.imm)))
          && (i.imm == 32 ==> m'.cf == Bit(m.eax, 31)))
  }

  lemma {:induction false} ShiftCodeShort(i: Inst, m: Host, noise: Noise)
    requires i.Decoded() && i.shift != Arm.RRX && i.imm < 32
    ensures Shifted(i, m, Run(ShiftCode(i.shift, i.imm), m, noise))
  {
    hide Step, Run, Closed, Bit, OutPosition;
    var op := HostShift(i.shift);
    if i.imm == 0 {
      RunNothing(m, noise);
      ClosedZero(op, m.eax);
    } else {
      ShiftOp1(op, i.imm, m, noise);
      RunOne(Shift(op, Eax, i.imm), m, noise);
    }
  }

  lemma {:induction false} ShiftCodeFull(i: Inst, m: Host, noise: Noise)
    requires i.Decoded() && i.imm == 32 && i.shift in {Arm.LSR, Arm.ASR}
    ensures Shifted(i, m, Run(ShiftCode(i.shift, i.imm), m, noise))
  {
    hide Step, Run, Closed, Bit;
    var op := HostShift(i.shift);
    ShiftOp1(op, 31, m, noise);
    var m1 := Step(Shift(op, Eax, 31), m, noise);
    ShiftOp1(op, 1, m1, noise);
    RunTwo(Shift(op, Eax, 31), Shift(op, Eax, 1), m, noise);
    TwiceShr(m.eax);
    TwiceSar(m.eax);
  }

  /** The emitted shift computes ARM's shifter operand, and CF its carry out. */
  lemma {:induction false} ShiftCodeEffect(i: Inst, c: bool, m: Host, noise: Noise)
    requires i.Decoded() && i.shift != Arm.RRX
    ensures var m' := Run(ShiftCode(i.shift, i.imm), m, noise);
            && Framed(m, m') && m'.esi == m.esi
            && m'.eax == Arm.Operand(i, m.eax, c)
            && (!Arm.KeepsCarry(i) ==> m'.cf == Arm.CarryOut(i, m.eax, c))
  {
    hide Run, Closed, Bit, Arm.Operand, Arm.CarryOut, OutPosition;
    if i.imm < 32 { ShiftCodeShort(i, m, noise); } else { ShiftCodeFull(i, m, noise); }
    OperandIsClosed(i, m.eax, c);
    if !Arm.KeepsCarry(i) { CarryOutIsBit(i, m.eax, c); }
  }

  lemma {:induction false} RunNothing(m: Host, noise: Noise)
    ensures Run([], m, noise) == m
  {
  }

  lemma {:induction false} RrxEffect(i: Inst, m: Host, noise: Noise)
    requires i.Decoded() && i.shift == Arm.RRX
    ensures var m' := Run(ShiftCode(i.shift, i.imm), m, noise);
            && Framed(m, m') && m'.esi == m.esi
            && m'.eax == Arm.Operand(i, m.eax, m.cf)
            && m'.cf == Arm.CarryOut(i, m.eax, m.cf)
  {
    hide Run;
    RunOne(Rcr1(Eax), m, noise);
    OrCommutes(m.eax >> 1, B2w(m.cf) << 31);
  }

  lemma OrCommutes(x: bv32, y: bv32)
    ensures x | y == y | x
  {
  }

  lemma RclKeepsBit(x: bv32, c: bool)
    ensures (Rcl(x, c) & 1 != 0) == c
  {
  }

  lemma {:induction false} RclEffect(m: Host, noise: Noise)
    ensures var m' := Run([Rcl1(Esi)], m, noise);
            && Framed(m, m') && m'.eax == m.eax && (m'.esi & 1 != 0) == m.cf
  {
    hide Run, Rcl, Msb;
    RunOne(Rcl1(Esi), m, noise);
    RclKeepsBit(m.esi, m.cf);
  }

  lemma {:induction false} MovEaxEffect(r: Reg, m: Host, noise: Noise)
    ensures Run([Op.Mov(Eax, Loc.Arm(r))], m, noise) == m.(eax := m.regs[r], clock := m.clock + 1)
  {
    hide Run;
    RunOne(Op.Mov(Eax, Loc.Arm(r)), m, noise);
  }

  /** What is left by the code that computes the shifter operand. */
  ghost predicate ShifterDone(i: Inst, c: bool, m: Host, m': Host)
    requires i.Decoded()
  {
    && Framed(m, m')
    && m'.eax == Arm.Operand(i, m.regs[i.rm], c)
    && (!Arm.KeepsCarry(i) ==> (m'.esi & 1 != 0) == Arm.CarryOut(i, m.regs[i.rm], c))
  }

  lemma {:induction false} ShifterEffect(i: Inst, m: Host, noise: Noise)
    requires i.Decoded()
    requires i.shift == Arm.RRX ==> LowByteOk(m.saved)
    ensures ShifterDone(i, SavedC(m.saved), m, Run(ShifterCode(i), m, noise))
  {
    hide Run, ShiftCode, Arm.Operand, Arm.CarryOut, RorAl, SavedC, SavedO, SavedZ, SavedS;
    var load := if i.shift == Arm.RRX then LOAD_FLAGS else [];
    var mov := [Op.Mov(Eax, Loc.Arm(i.rm))];
    var shift := ShiftCode(i.shift, i.imm);
    RunFour(load, mov, shift, [Rcl1(Esi)], m, noise) by { ShiftCodeStraight(i.shift, i.imm); }
    var m1 := Run(load, m, noise);
    if i.shift == Arm.RRX { LoadFlagsEffect(m, noise); } else { RunNothing(m, noise); }
    MovEaxEffect(i.rm, m1, noise);
    var m2 := Run(mov, m1, noise);
    var m3 := Run(shift, m2, noise);
    if i.shift == Arm.RRX { RrxEffect(i, m2, noise); } else { ShiftCodeEffect(i, SavedC(m.saved), m2, noise); }
    RclEffect(m3, noise);
  }

  lemma ShiftCodeStraight(kind: Arm.ShiftKind, imm: bv32)
    ensures JumpsInside(ShiftCode(kind, imm))
  {
  }

  lemma {:induction false} RunFour(a: seq<Op>, b: seq<Op>, c: seq<Op>, d: seq<Op>, m: Host, noise: Noise)
    requires JumpsInside(a) && JumpsInside(b) && JumpsInside(c)
    ensures Run(a + b + c + d, m, noise)
         == Run(d, Run(c, Run(b, Run(a, m, noise), noise), noise), noise)
  {
    hide Run;
    JumpsInsideAppend(a, b);
    JumpsInsideAppend(a + b, c);
    RunAppend(a + b + c, d, m, noise);
    RunAppend(a + b, c, m, noise);
    RunAppend(a, b, m, noise);
  }
}
