/**
 The operation part of the generated code, opcode by opcode: from the shifter operand in EAX
 to ARM's result in Rd and whichever of ARM's flags the host flags end up holding.
 */
module OperationEffects {
  import opened X86
  import Arm
  import opened Compiler
  import opened CodeEffects
  import opened Tracking

  /** `v` was computed into the register file `regs`, with carry `c` and overflow `o`. */
  ghost predicate Computed(m: Host, m': Host, regs: RegFile, v: bv32, c: bool, o: bool) {
    && m'.regs == regs && m'.saved == m.saved && m'.esi == m.esi
    && m'.zf == (v == 0) && m'.sf == Msb(v) && m'.cf == c && m'.of == o
  }

  predicate Commutative(op: AluOp) { op in {Add, Adc, And, Or, Xor} }

  lemma CarryCommutes(a: bv32, b: bv32, c: bool)
    ensures CarryFrom(a, b, c) == CarryFrom(b, a, c)
  {
  }

  lemma OverflowCommutes(a: bv32, b: bv32, c: bool)
    ensures OverflowAdd(a, b, c) == OverflowAdd(b, a, c)
  {
  }

  lemma WordsCommute(a: bv32, b: bv32)
    ensures Plus(a, b) == Plus(b, a) && Conj(a, b) == Conj(b, a)
    ensures Disj(a, b) == Disj(b, a) && Excl(a, b) == Excl(b, a)
  {
  }

  lemma ValueCommutes(op: AluOp, a: bv32, b: bv32, c: bool)
    requires Commutative(op)
    ensures Value(op, a, b, c) == Value(op, b, a, c)
  {
    hide B2w, Plus, Minus, Conj, Disj, Excl;
    WordsCommute(a, b);
    match op
    case Add =>
    case Adc =>
    case And =>
    case Or =>
    case Xor =>
  }

  lemma FlagsCommute(op: AluOp, a: bv32, b: bv32, c: bool)
    requires Commutative(op)
    ensures CarryOf(op, a, b, c) == CarryOf(op, b, a, c)
    ensures OverflowOf(op, a, b, c) == OverflowOf(op, b, a, c)
  {
    hide CarryFrom, OverflowAdd, BorrowFrom, OverflowSub;
    CarryCommutes(a, b, false);
    CarryCommutes(a, b, c);
    OverflowCommutes(a, b, false);
    OverflowCommutes(a, b, c);
  }

  lemma Commutes(op: AluOp, a: bv32, b: bv32, c: bool)
    requires Commutative(op)
    ensures Value(op, a, b, c) == Value(op, b, a, c)
    ensures CarryOf(op, a, b, c) == CarryOf(op, b, a, c)
    ensures OverflowOf(op, a, b, c) == OverflowOf(op, b, a, c)
  {
    hide Value, CarryOf, OverflowOf;
    ValueCommutes(op, a, b, c);
    FlagsCommute(op, a, b, c);
  }

  lemma {:induction false} AluInPlace(op: AluOp, r: Reg, src: Loc, m: Host, noise: Noise)
    requires !Discards(op) && src in {Eax, Ecx}
    ensures var a, b := m.regs[r], m.Get(src);
            var v := Value(op, a, b, m.cf);
            Computed(m, Run([Alu(op, Loc.Arm(r), src)], m, noise), m.regs[r := v], v,
                     CarryOf(op, a, b, m.cf), OverflowOf(op, a, b, m.cf))
  {
    hide Run, Value, CarryOf, OverflowOf, Msb;
    RunOne(Alu(op, Loc.Arm(r), src), m, noise);
  }

  lemma {:induction false} AluThenMov(op: AluOp, src: Loc, rd: Reg, m: Host, noise: Noise)
    requires !Discards(op) && (src == Ecx || src.Arm?)
    ensures var a, b := m.eax, m.Get(src);
            var v := Value(op, a, b, m.cf);
            Computed(m, Run([Alu(op, Eax, src), Op.Mov(Loc.Arm(rd), Eax)], m, noise),
                     m.regs[rd := v], v, CarryOf(op, a, b, m.cf), OverflowOf(op, a, b, m.cf))
  {
    hide Run, Value, CarryOf, OverflowOf, Msb;
    RunTwo(Alu(op, Eax, src), Op.Mov(Loc.Arm(rd), Eax), m, noise);
  }

  lemma {:induction false} AluOnly(op: AluOp, dst: Loc, src: Loc, m: Host, noise: Noise)
    requires (dst == Eax && src.Arm?) || (Discards(op) && dst.Arm? && src == Eax)
    ensures var a, b := m.Get(dst), m.Get(src);
            var v := Value(op, a, b, m.cf);
            Computed(m, Run([Alu(op, dst, src)], m, noise), m.regs, v,
                     CarryOf(op, a, b, m.cf), OverflowOf(op, a, b, m.cf))
  {
    hide Run, Value, CarryOf, OverflowOf, Msb;
    RunOne(Alu(op, dst, src), m, noise);
  }

  lemma {:induction false} IntoRdEffect(op: AluOp, i: Inst, m: Host, noise: Noise)
    requires Commutative(op)
    ensures var a, b := m.regs[i.rn], m.eax;
            var v := Value(op, a, b, m.cf);
            Computed(m, Run(IntoRd(op, i), m, noise), m.regs[i.rd := v], v,
                     CarryOf(op, a, b, m.cf), OverflowOf(op, a, b, m.cf))
  {
    hide Run, Value, CarryOf, OverflowOf, Msb;
    if i.rn == i.rd {
      AluInPlace(op, i.rn, Eax, m, noise);
    } else {
      AluThenMov(op, Loc.Arm(i.rn), i.rd, m, noise);
      Commutes(op, m.eax, m.regs[i.rn], m.cf);
    }
  }

  lemma MovEdx(rn: Reg, m: Host, noise: Noise)
    ensures Step(Op.Mov(Edx, Loc.Arm(rn)), m, noise) == m.(edx := m.regs[rn], clock := m.clock + 1)
  {
  }

  lemma MovFromEdx(rd: Reg, m: Host, noise: Noise)
    ensures Step(Op.Mov(Loc.Arm(rd), Edx), m, noise)
         == m.(regs := m.regs[rd := m.edx], clock := m.clock + 1)
  {
  }

  lemma AluIntoEdx(op: AluOp, src: Loc, m: Host, noise: Noise)
    requires !Discards(op) && src in {Eax, Ecx}
    ensures var v := Value(op, m.edx, m.Get(src), m.cf);
            var m' := Step(Alu(op, Edx, src), m, noise);
            && m'.edx == v
            && Computed(m, m', m.regs, v, CarryOf(op, m.edx, m.Get(src), m.cf),
                        OverflowOf(op, m.edx, m.Get(src), m.cf))
  {
    hide Value, CarryOf, OverflowOf, Msb;
  }

  lemma {:induction false} SubtractEffect(op: AluOp, src: Loc, i: Inst, m: Host, noise: Noise)
    requires !Discards(op) && src in {Eax, Ecx}
    ensures var a, b := m.regs[i.rn], m.Get(src);
            var v := Value(op, a, b, m.cf);
            Computed(m, Run(SubtractIntoRd(op, src, i), m, noise), m.regs[i.rd := v], v,
                     CarryOf(op, a, b, m.cf), OverflowOf(op, a, b, m.cf))
  {
    hide Run, Step, Value, CarryOf, OverflowOf, Msb;
    if i.rn == i.rd {
      AluInPlace(op, i.rn, src, m, noise);
    } else {
      var m1 := Step(Op.Mov(Edx, Loc.Arm(i.rn)), m, noise);
      MovEdx(i.rn, m, noise);
      AluIntoEdx(op, src, m1, noise);
      MovFromEdx(i.rd, Step(Alu(op, Edx, src), m1, noise), noise);
      RunThree(Op.Mov(Edx, Loc.Arm(i.rn)), Alu(op, Edx, src), Op.Mov(Loc.Arm(i.rd), Edx), m, noise);
    }
  }

  // ----- single operations around it -----

  lemma {:induction false} RcrEsi(m: Host, noise: Noise)
    ensures var m' := Run([Rcr1(Esi)], m, noise);
            && m'.regs == m.regs && m'.saved == m.saved && m'.zf == m.zf && m'.sf == m.sf
            && m'.cf == (m.esi & 1 != 0)
  {
    hide Run, Rcr, Msb;
    RunOne(Rcr1(Esi), m, noise);
  }

  lemma {:induction false} CmcEffect(m: Host, noise: Noise)
    ensures Run([Cmc], m, noise) == m.(cf := !m.cf, clock := m.clock + 1)
  {
    hide Run;
    RunOne(Cmc, m, noise);
  }

  lemma {:induction false} NotEaxEffect(m: Host, noise: Noise)
    ensures Run([Not(Eax)], m, noise) == m.(eax := Compl(m.eax), clock := m.clock + 1)
  {
    hide Run;
    RunOne(Not(Eax), m, noise);
  }

  // ----- the operation computes ARM's result -----

  /** ARM's registers, and those of ARM's flags the code is known to leave in the host. */
  ghost predicate Done(i: Inst, st: State, m: Host, m': Host)
    requires i.Decoded()
  {
    && m'.regs == Arm.Execute(i, st).regs
    && m'.saved == m.saved
    && (i.s ==> HostAgrees(Writes(i), Arm.Execute(i, st), m'))
  }

  /** The state between the shifter operand and the operation. */
  ghost predicate Ready(i: Inst, st: State, m: Host)
    requires i.Decoded()
  {
    && m.regs == st.regs
    && m.eax == Arm.Operand(i, st.regs[i.rm], st.c)
    && (!Arm.KeepsCarry(i) ==> (m.esi & 1 != 0) == Arm.CarryOut(i, st.regs[i.rm], st.c))
    && LowByteOk(m.saved)
    && (i.op in {Arm.ADC, Arm.SBC} ==> SavedC(m.saved) == st.c)
    && (i.op == Arm.RSC ==> m.ecx == RnPlusBorrow(i, st))
  }

  /** Rn plus one when ARM's carry is clear, as RSC's prefix leaves it in ECX. */
  function RnPlusBorrow(i: Inst, st: State): bv32 {
    Value(Adc, st.regs[i.rn], 0, !st.c)
  }

  // ----- ARM's results in terms of the host's -----

  lemma LogicLink(a: bv32, b: bv32, c: bool)
    ensures forall x :: Arm.Result(Arm.AND, a, b, c) == Value(And, a, b, x)
    ensures forall x :: Arm.Result(Arm.EOR, a, b, c) == Value(Xor, a, b, x)
    ensures forall x :: Arm.Result(Arm.TST, a, b, c) == Value(Test, a, b, x)
    ensures forall x :: Arm.Result(Arm.TEQ, a, b, c) == Value(Xor, a, b, x)
    ensures forall x :: Arm.Result(Arm.ORR, a, b, c) == Value(Or, a, b, x)
    ensures forall x :: Arm.Result(Arm.BIC, a, b, c) == Value(And, a, Compl(b), x)
    ensures Arm.Result(Arm.MVN, a, b, c) == Compl(b)
  {
    hide Plus, Minus, Conj, Disj, Excl, Compl, B2w;
  }

  lemma LogicCarry(op: Arm.Opcode, a: bv32, b: bv32, c: bool, co: bool)
    requires Arm.Logical(op)
    ensures Arm.CarryFlag(op, a, b, c, co) == co
  {
    hide CarryFrom, BorrowFrom;
  }

  lemma AddLink(a: bv32, b: bv32, c: bool, co: bool, v: bool)
    ensures forall x :: Arm.Result(Arm.ADD, a, b, c) == Value(Add, a, b, x)
    ensures forall x :: Arm.CarryFlag(Arm.ADD, a, b, c, co) == CarryOf(Add, a, b, x)
    ensures forall x :: Arm.OverflowFlag(Arm.ADD, a, b, c, v) == OverflowOf(Add, a, b, x)
    ensures forall x :: Arm.Result(Arm.CMN, a, b, c) == Value(Add, a, b, x)
    ensures forall x :: Arm.CarryFlag(Arm.CMN, a, b, c, co) == CarryOf(Add, a, b, x)
    ensures forall x :: Arm.OverflowFlag(Arm.CMN, a, b, c, v) == OverflowOf(Add, a, b, x)
    ensures Arm.Result(Arm.ADC, a, b, c) == Value(Adc, a, b, c)
    ensures Arm.CarryFlag(Arm.ADC, a, b, c, co) == CarryOf(Adc, a, b, c)
    ensures Arm.OverflowFlag(Arm.ADC, a, b, c, v) == OverflowOf(Adc, a, b, c)
  {
    hide CarryFrom, OverflowAdd, BorrowFrom, OverflowSub, Plus, Minus, Conj, Disj, Excl, Compl, B2w;
  }

  lemma SubLink(a: bv32, b: bv32, c: bool, co: bool, v: bool)
    ensures forall x :: Arm.Result(Arm.SUB, a, b, c) == Value(Sub, a, b, x)
    ensures forall x :: Arm.CarryFlag(Arm.SUB, a, b, c, co) == !CarryOf(Sub, a, b, x)
    ensures forall x :: Arm.OverflowFlag(Arm.SUB, a, b, c, v) == OverflowOf(Sub, a, b, x)
    ensures forall x :: Arm.Result(Arm.RSB, a, b, c) == Value(Sub, b, a, x)
    ensures forall x :: Arm.CarryFlag(Arm.RSB, a, b, c, co) == !CarryOf(Sub, b, a, x)
    ensures forall x :: Arm.OverflowFlag(Arm.RSB, a, b, c, v) == OverflowOf(Sub, b, a, x)
    ensures forall x :: Arm.Result(Arm.CMP, a, b, c) == Value(Cmp, a, b, x)
    ensures forall x :: Arm.CarryFlag(Arm.CMP, a, b, c, co) == !CarryOf(Cmp, a, b, x)
    ensures forall x :: Arm.OverflowFlag(Arm.CMP, a, b, c, v) == OverflowOf(Cmp, a, b, x)
    ensures Arm.Result(Arm.SBC, a, b, c) == Value(Sbb, a, b, !c)
    ensures Arm.CarryFlag(Arm.SBC, a, b, c, co) == !CarryOf(Sbb, a, b, !c)
    ensures Arm.OverflowFlag(Arm.SBC, a, b, c, v) == OverflowOf(Sbb, a, b, !c)
  {
    hide CarryFrom, OverflowAdd, BorrowFrom, OverflowSub, Plus, Minus, Conj, Disj, Excl, Compl, B2w;
  }

  // ----- opcode by opcode -----

  lemma {:induction false} AndEor(i: Inst, st: State, m: Host, loaded: bool, noise: Noise)
    requires i.Decoded() && i.op in {Arm.AND, Arm.EOR} && Ready(i, st, m)
    ensures Done(i, st, m, Run(OperationCode(i, loaded), m, noise))
  {
    hide Run, Arm.Operand, Arm.CarryOut, Arm.Result, Arm.CarryFlag, Arm.OverflowFlag, Msb, Value, CarryOf,
         OverflowOf, IntoRd;
    var a, b, co := st.regs[i.rn], m.eax, Arm.CarryOut(i, st.regs[i.rm], st.c);
    LogicLink(a, b, st.c);
    LogicCarry(i.op, a, b, st.c, co);
    var op := if i.op == Arm.AND then And else Xor;
    RunAppend(IntoRd(op, i), [Rcr1(Esi)], m, noise) by { IntoRdStraight(op, i); }
    IntoRdEffect(op, i, m, noise);
    RcrEsi(Run(IntoRd(op, i), m, noise), noise);
  }

  lemma {:induction false} Bic(i: Inst, st: State, m: Host, loaded: bool, noise: Noise)
    requires i.Decoded() && i.op == Arm.BIC && Ready(i, st, m)
    ensures Done(i, st, m, Run(OperationCode(i, loaded), m, noise))
  {
    hide Run, Arm.Operand, Arm.CarryOut, Arm.Result, Arm.CarryFlag, Arm.OverflowFlag, Msb, Value, CarryOf,
         OverflowOf, IntoRd;
    var a, b, co := st.regs[i.rn], m.eax, Arm.CarryOut(i, st.regs[i.rm], st.c);
    LogicLink(a, b, st.c);
    LogicCarry(i.op, a, b, st.c, co);
    RunAppend([Not(Eax)] + IntoRd(And, i), [Rcr1(Esi)], m, noise) by {
      IntoRdStraight(And, i);
      JumpsInsideAppend([Not(Eax)], IntoRd(And, i));
    }
    RunAppend([Not(Eax)], IntoRd(And, i), m, noise);
    NotEaxEffect(m, noise);
    var m1 := Run([Not(Eax)], m, noise);
    IntoRdEffect(And, i, m1, noise);
    RcrEsi(Run(IntoRd(And, i), m1, noise), noise);
  }

  lemma {:induction false} Orr(i: Inst, st: State, m: Host, loaded: bool, noise: Noise)
    requires i.Decoded() && i.op == Arm.ORR && Ready(i, st, m)
    ensures Done(i, st, m, Run(OperationCode(i, loaded), m, noise))
  {
    hide Run, Arm.Operand, Arm.CarryOut, Arm.Result, Arm.CarryFlag, Arm.OverflowFlag, Msb, Value, CarryOf, OverflowOf;
    var a, b, co := st.regs[i.rn], m.eax, Arm.CarryOut(i, st.regs[i.rm], st.c);
    LogicLink(a, b, st.c);
    LogicCarry(i.op, a, b, st.c, co);
    var code := [Alu(Or, Eax, Loc.Arm(i.rn)), Op.Mov(Loc.Arm(i.rd), Eax)];
    assert OperationCode(i, loaded) == code + [Rcr1(Esi)];
    RunAppend(code, [Rcr1(Esi)], m, noise);
    AluThenMov(Or, Loc.Arm(i.rn), i.rd, m, noise);
    Commutes(Or, m.eax, m.regs[i.rn], m.cf);
    RcrEsi(Run(code, m, noise), noise);
  }

  lemma {:induction false} Mvn(i: Inst, st: State, m: Host, loaded: bool, noise: Noise)
    requires i.Decoded() && i.op == Arm.MVN && Ready(i, st, m)
    ensures Done(i, st, m, Run(OperationCode(i, loaded), m, noise))
  {
    hide Run, Arm.Operand, Arm.CarryOut, Arm.Result, Arm.CarryFlag, Arm.OverflowFlag, Msb, Value, CarryOf, OverflowOf;
    var a, b, co := st.regs[i.rn], m.eax, Arm.CarryOut(i, st.regs[i.rm], st.c);
    LogicLink(a, b, st.c);
    LogicCarry(i.op, a, b, st.c, co);
    RunAppend([Not(Eax)], [Op.Mov(Loc.Arm(i.rd), Eax), Rcr1(Esi)], m, noise);
    assert OperationCode(i, loaded) == [Not(Eax)] + [Op.Mov(Loc.Arm(i.rd), Eax), Rcr1(Esi)];
    NotEaxEffect(m, noise);
    var m1 := Run([Not(Eax)], m, noise);
    assert [Op.Mov(Loc.Arm(i.rd), Eax), Rcr1(Esi)] == [Op.Mov(Loc.Arm(i.rd), Eax)] + [Rcr1(Esi)];
    RunAppend([Op.Mov(Loc.Arm(i.rd), Eax)], [Rcr1(Esi)], m1, noise);
    StoreRd(i.rd, m1, noise);
    RcrEsi(Run([Op.Mov(Loc.Arm(i.rd), Eax)], m1, noise), noise);
  }

  lemma {:induction false} StoreRd(rd: Reg, m: Host, noise: Noise)
    ensures Run([Op.Mov(Loc.Arm(rd), Eax)], m, noise)
         == m.(regs := m.regs[rd := m.eax], clock := m.clock + 1)
  {
    hide Run;
    RunOne(Op.Mov(Loc.Arm(rd), Eax), m, noise);
  }

  lemma {:induction false} TstTeq(i: Inst, st: State, m: Host, loaded: bool, noise: Noise)
    requires i.Decoded() && i.op in {Arm.TST, Arm.TEQ} && Ready(i, st, m)
    ensures Done(i, st, m, Run(OperationCode(i, loaded), m, noise))
  {
    hide Run, Arm.Operand, Arm.CarryOut, Arm.Result, Arm.CarryFlag, Arm.OverflowFlag, Msb, Value, CarryOf, OverflowOf;
    var a, b, co := st.regs[i.rn], m.eax, Arm.CarryOut(i, st.regs[i.rm], st.c);
    LogicLink(a, b, st.c);
    LogicCarry(i.op, a, b, st.c, co);
    if i.op == Arm.TST {
      AluOnly(Test, Loc.Arm(i.rn), Eax, m, noise);
    } else {
      AluOnly(Xor, Eax, Loc.Arm(i.rn), m, noise);
      Commutes(Xor, m.eax, m.regs[i.rn], m.cf);
    }
  }

  lemma {:induction false} AddCmn(i: Inst, st: State, m: Host, loaded: bool, noise: Noise)
    requires i.Decoded() && i.op in {Arm.ADD, Arm.CMN} && Ready(i, st, m)
    ensures Done(i, st, m, Run(OperationCode(i, loaded), m, noise))
  {
    hide Run, Arm.Operand, Arm.CarryOut, Arm.Result, Arm.CarryFlag, Arm.OverflowFlag, Msb, Value, CarryOf,
         OverflowOf, IntoRd;
    var a, b, co := st.regs[i.rn], m.eax, Arm.CarryOut(i, st.regs[i.rm], st.c);
    AddLink(a, b, st.c, co, st.v);
    if i.op == Arm.ADD {
      IntoRdEffect(Add, i, m, noise);
    } else {
      AluOnly(Add, Eax, Loc.Arm(i.rn), m, noise);
      Commutes(Add, m.eax, m.regs[i.rn], m.cf);
    }
  }

  lemma {:induction false} Compare(i: Inst, st: State, m: Host, loaded: bool, noise: Noise)
    requires i.Decoded() && i.op == Arm.CMP && Ready(i, st, m)
    ensures Done(i, st, m, Run(OperationCode(i, loaded), m, noise))
  {
    hide Run, Arm.Operand, Arm.CarryOut, Arm.Result, Arm.CarryFlag, Arm.OverflowFlag, Msb, Value, CarryOf, OverflowOf;
    var a, b, co := st.regs[i.rn], m.eax, Arm.CarryOut(i, st.regs[i.rm], st.c);
    SubLink(a, b, st.c, co, st.v);
    var cmp := [Alu(Cmp, Loc.Arm(i.rn), Eax)];
    assert OperationCode(i, loaded) == cmp + [Cmc];
    RunAppend(cmp, [Cmc], m, noise);
    AluOnly(Cmp, Loc.Arm(i.rn), Eax, m, noise);
    CmcEffect(Run(cmp, m, noise), noise);
  }

  /** A subtraction that leaves the host's borrow flag as it is. */
  lemma SubtractedPlain(i: Inst, st: State, m: Host, m': Host)
    requires i.Decoded() && i.op in {Arm.SUB, Arm.RSB} && Ready(i, st, m)
    requires var a, b := st.regs[i.rn], m.eax;
             var x, y := if i.op == Arm.SUB then a else b, if i.op == Arm.SUB then b else a;
             Computed(m, m', m.regs[i.rd := Minus(x, y)], Minus(x, y), BorrowFrom(x, y, false),
                      OverflowSub(x, y, false))
    ensures Done(i, st, m, m') && (i.s ==> m'.cf == !Arm.Execute(i, st).c)
  {
    hide Arm.Operand, Arm.CarryOut, Msb, Minus, BorrowFrom, OverflowSub;
  }

  /** The carry of SUB and RSB is left inverted: only N, Z and V are ARM's. */
  lemma {:induction false} SubRsb(i: Inst, st: State, m: Host, loaded: bool, noise: Noise)
    requires i.Decoded() && i.op in {Arm.SUB, Arm.RSB} && Ready(i, st, m)
    ensures Done(i, st, m, Run(OperationCode(i, loaded), m, noise))
    ensures i.s ==> Run(OperationCode(i, loaded), m, noise).cf == !Arm.Execute(i, st).c
  {
    hide Run, Arm.Execute, Arm.Operand, Arm.CarryOut, Msb, Minus, BorrowFrom, OverflowSub, SubtractIntoRd;
    if i.op == Arm.SUB {
      SubtractEffect(Sub, Eax, i, m, noise);
    } else {
      AluThenMov(Sub, Loc.Arm(i.rn), i.rd, m, noise);
    }
    SubtractedPlain(i, st, m, Run(OperationCode(i, loaded), m, noise));
  }

  // ----- the instructions that read the carry -----

  lemma {:induction false} PushEax(m: Host, noise: Noise)
    ensures Run([Push(Eax)], m, noise) == m.(stack := [m.eax] + m.stack, clock := m.clock + 1)
  {
    hide Run;
    RunOne(Push(Eax), m, noise);
  }

  lemma {:induction false} PopEax(x: bv32, rest: seq<bv32>, m: Host, noise: Noise)
    requires m.stack == [x] + rest
    ensures Run([Pop(Eax)], m, noise) == m.(eax := x, stack := rest, clock := m.clock + 1)
  {
    hide Run;
    assert m.stack[1..] == rest;
    RunOne(Pop(Eax), m, noise);
  }

  /** EAX is kept on the host stack while the saved flags are loaded. */
  lemma {:induction false} LoadKeepingEax(m: Host, noise: Noise)
    requires LowByteOk(m.saved)
    ensures Run([Push(Eax)] + LOAD_FLAGS + [Pop(Eax)], m, noise)
         == m.(clock := m.clock + 5)
             .Flags(SavedC(m.saved), SavedZ(m.saved), SavedS(m.saved), SavedO(m.saved))
  {
    hide Run, RorAl, SavedC, SavedZ, SavedS, SavedO;
    RunAppend([Push(Eax)] + LOAD_FLAGS, [Pop(Eax)], m, noise);
    RunAppend([Push(Eax)], LOAD_FLAGS, m, noise);
    PushEax(m, noise);
    var m1 := Run([Push(Eax)], m, noise);
    LoadFlagsEffect(m1, noise);
    PopEax(m.eax, m.stack, Run(LOAD_FLAGS, m1, noise), noise);
  }

  lemma {:induction false} AddWithCarry(i: Inst, st: State, m: Host, loaded: bool, noise: Noise)
    requires i.Decoded() && i.op == Arm.ADC && Ready(i, st, m)
    ensures Done(i, st, m, Run(OperationCode(i, loaded), m, noise))
  {
    hide Run, Arm.Operand, Arm.CarryOut, Arm.Result, Arm.CarryFlag, Arm.OverflowFlag, Msb, Value, CarryOf,
         OverflowOf, IntoRd, SavedC, SavedZ, SavedS, SavedO;
    var a, b, co := st.regs[i.rn], m.eax, Arm.CarryOut(i, st.regs[i.rm], st.c);
    AddLink(a, b, st.c, co, st.v);
    var load := [Push(Eax)] + LOAD_FLAGS + [Pop(Eax)];
    RunAppend(load, IntoRd(Adc, i), m, noise);
    LoadKeepingEax(m, noise);
    IntoRdEffect(Adc, i, Run(load, m, noise), noise);
  }

  lemma {:induction false} MovEcxEax(m: Host, noise: Noise)
    ensures Run([Op.Mov(Ecx, Eax)], m, noise) == m.(ecx := m.eax, clock := m.clock + 1)
  {
    hide Run;
    RunOne(Op.Mov(Ecx, Eax), m, noise);
  }

  /** ECX := the shifter operand, host carry := the borrow ARM's carry stands for. */
  lemma {:induction false} LoadBorrow(m: Host, noise: Noise)
    requires LowByteOk(m.saved)
    ensures var m' := Run([Op.Mov(Ecx, Eax)] + LOAD_FLAGS + [Cmc], m, noise);
            m'.regs == m.regs && m'.saved == m.saved && m'.ecx == m.eax && m'.cf == !SavedC(m.saved)
            && m'.esi == m.esi
  {
    hide Run, RorAl, SavedC, SavedZ, SavedS, SavedO;
    RunAppend([Op.Mov(Ecx, Eax)] + LOAD_FLAGS, [Cmc], m, noise);
    RunAppend([Op.Mov(Ecx, Eax)], LOAD_FLAGS, m, noise);
    MovEcxEax(m, noise);
    var m1 := Run([Op.Mov(Ecx, Eax)], m, noise);
    LoadFlagsEffect(m1, noise);
    CmcEffect(Run(LOAD_FLAGS, m1, noise), noise);
  }

  lemma SubtractStraight(op: AluOp, src: Loc, i: Inst)
    ensures JumpsInside(SubtractIntoRd(op, src, i))
  {
  }

  /** SBC once the shifter operand is in ECX and a borrow in the host carry. */
  ghost predicate Subtracted(i: Inst, st: State, b: bv32, c: bool, m: Host, m': Host) {
    var a := st.regs[i.rn];
    var v := Arm.Result(Arm.SBC, a, b, c);
    && m'.regs == st.regs[i.rd := v] && m'.saved == m.saved
    && (i.s ==> m'.zf == (v == 0) && m'.sf == Msb(v) && m'.cf == Arm.CarryFlag(Arm.SBC, a, b, c, c)
                && m'.of == Arm.OverflowFlag(Arm.SBC, a, b, c, false))
  }

  lemma {:induction false} SubtractBorrow(i: Inst, st: State, c: bool, m: Host, noise: Noise)
    requires m.regs == st.regs && m.cf == !c
    ensures var code := SubtractIntoRd(Sbb, Ecx, i) + (if i.s then [Cmc] else []);
            Subtracted(i, st, m.ecx, c, m, Run(code, m, noise))
  {
    hide Run, Arm.Result, Arm.CarryFlag, Arm.OverflowFlag, Msb, Value, CarryOf, OverflowOf, SubtractIntoRd;
    SubLink(st.regs[i.rn], m.ecx, c, c, false);
    var sub, last := SubtractIntoRd(Sbb, Ecx, i), if i.s then [Cmc] else [];
    SubtractStraight(Sbb, Ecx, i);
    RunAppend(sub, last, m, noise);
    SubtractEffect(Sbb, Ecx, i, m, noise);
    var m1 := Run(sub, m, noise);
    if i.s { CmcEffect(m1, noise); } else { RunNothing(m1, noise); }
  }

  lemma SubtractedDone(i: Inst, st: State, m: Host, m1: Host, m': Host)
    requires i.Decoded() && i.op == Arm.SBC && m1.saved == m.saved
    requires Subtracted(i, st, Arm.Operand(i, st.regs[i.rm], st.c), st.c, m1, m')
    ensures Done(i, st, m, m')
  {
    hide Arm.Operand, Arm.CarryOut, Msb, Minus;
  }

  lemma {:induction false} SubtractWithCarry(i: Inst, st: State, m: Host, noise: Noise)
    requires i.Decoded() && i.op == Arm.SBC && Ready(i, st, m)
    ensures Done(i, st, m, Run(OperationCode(i, false), m, noise))
  {
    hide Run, Arm.Operand, Arm.CarryOut, SubtractIntoRd, SavedC, Subtracted, Done;
    var load := [Op.Mov(Ecx, Eax)] + LOAD_FLAGS + [Cmc];
    var code := SubtractIntoRd(Sbb, Ecx, i) + (if i.s then [Cmc] else []);
    assert OperationCode(i, false) == load + code;
    RunAppend(load, code, m, noise);
    LoadBorrow(m, noise);
    var m1 := Run(load, m, noise);
    SubtractBorrow(i, st, st.c, m1, noise);
    SubtractedDone(i, st, m, m1, Run(code, m1, noise));
  }

  lemma BorrowMatters(a: bv32, b: bv32, c: bool, c': bool)
    requires c != c'
    ensures Arm.Result(Arm.SBC, a, b, c) != Arm.Result(Arm.SBC, a, b, c')
  {
  }

  /** An SBC that is told the flags are loaded subtracts with whatever the host carry is where
      its own code starts. */
  lemma {:induction false} SubtractLoaded(i: Inst, st: State, m: Host, noise: Noise)
    requires i.op == Arm.SBC && m.regs == st.regs
    ensures Subtracted(i, st, m.eax, m.cf, m, Run(OperationCode(i, true), m, noise))
  {
    hide Run, SubtractIntoRd, Subtracted;
    var load := [Op.Mov(Ecx, Eax)] + [Cmc];
    var code := SubtractIntoRd(Sbb, Ecx, i) + (if i.s then [Cmc] else []);
    assert OperationCode(i, true) == load + code;
    RunAppend(load, code, m, noise);
    RunAppend([Op.Mov(Ecx, Eax)], [Cmc], m, noise);
    MovEcxEax(m, noise);
    CmcEffect(Run([Op.Mov(Ecx, Eax)], m, noise), noise);
    var m1 := Run(load, m, noise);
    SubtractBorrow(i, st, m.cf, m1, noise);
    SubtractedFrom(i, st, m1.ecx, m.cf, m1, m, Run(code, m1, noise));
  }

  lemma SubtractedFrom(i: Inst, st: State, b: bv32, c: bool, m1: Host, m: Host, m': Host)
    requires Subtracted(i, st, b, c, m1, m') && m1.saved == m.saved
    ensures Subtracted(i, st, b, c, m, m')
  {
    hide Arm.Result, Arm.CarryFlag, Arm.OverflowFlag, Msb;
  }

  /** The result is ARM's exactly if the carry was. */
  lemma SubtractedExactly(i: Inst, st: State, c: bool, m: Host, m': Host)
    requires i.Decoded() && i.op == Arm.SBC
    requires Subtracted(i, st, Arm.Operand(i, st.regs[i.rm], st.c), c, m, m')
    ensures Done(i, st, m, m') <==> c == st.c
    ensures m'.regs == Arm.Execute(i, st).regs <==> c == st.c
  {
    hide Arm.Operand, Arm.CarryOut, Arm.Result, Arm.CarryFlag, Arm.OverflowFlag, Msb;
    if c == st.c {
      SubtractedDone(i, st, m, m, m');
    } else {
      BorrowMatters(st.regs[i.rn], Arm.Operand(i, st.regs[i.rm], st.c), c, st.c);
      assert m'.regs[i.rd] != Arm.Execute(i, st).regs[i.rd];
    }
  }

  lemma PlusZero(a: bv32)
    ensures Plus(a, 0) == a
  {
  }

  lemma PlusIs(a: bv32, b: bv32)
    ensures Plus(a, b) == a + b
  {
  }

  lemma MinusIs(a: bv32, b: bv32)
    ensures Minus(a, b) == a - b
  {
  }

  lemma MinusShift(a: bv32, b: bv32, w: bv32)
    ensures Minus(b, a + w) == Minus(b - a, w)
  {
  }

  lemma MinusPlus(a: bv32, b: bv32, w: bv32)
    ensures Minus(b, Plus(a, w)) == Minus(Minus(b, a), w)
  {
    hide Plus, Minus;
    PlusIs(a, w);
    MinusIs(b, a);
    MinusShift(a, b, w);
  }

  lemma RscLink(a: bv32, b: bv32, c: bool, x: bool)
    ensures Arm.Result(Arm.RSC, a, b, c) == Value(Sub, b, Value(Adc, a, 0, !c), x)
  {
    hide B2w, Plus, Minus;
    PlusZero(a);
    MinusPlus(a, b, B2w(!c));
  }

  lemma {:induction false} ReverseSubtractWithCarry(i: Inst, st: State, m: Host, loaded: bool, noise: Noise)
    requires i.Decoded() && i.op == Arm.RSC && Ready(i, st, m)
    ensures Done(i, st, m, Run(OperationCode(i, loaded), m, noise))
  {
    hide Run, Arm.Operand, Arm.CarryOut, Arm.Result, Arm.CarryFlag, Arm.OverflowFlag, Msb, Value, CarryOf, OverflowOf;
    var a, b := st.regs[i.rn], m.eax;
    RscLink(a, b, st.c, m.cf);
    var sub := [Alu(Sub, Eax, Ecx), Op.Mov(Loc.Arm(i.rd), Eax)];
    var last := if i.s then [Cmc] else [];
    RunAppend(sub, last, m, noise);
    AluThenMov(Sub, Ecx, i.rd, m, noise);
    var m1 := Run(sub, m, noise);
    if i.s { CmcEffect(m1, noise); } else { RunNothing(m1, noise); }
  }

  /** Whatever the opcode, the operation computes ARM's registers and the flags `Writes` lists. */
  lemma {:induction false} OperationEffect(i: Inst, st: State, m: Host, loaded: bool, noise: Noise)
    requires i.Decoded() && Ready(i, st, m)
    requires i.op == Arm.SBC ==> !loaded
    ensures Done(i, st, m, Run(OperationCode(i, loaded), m, noise))
  {
    hide Run, OperationCode, Ready, Done;
    match i.op
    case AND => AndEor(i, st, m, loaded, noise);
    case EOR => AndEor(i, st, m, loaded, noise);
    case BIC => Bic(i, st, m, loaded, noise);
    case ORR => Orr(i, st, m, loaded, noise);
    case MVN => Mvn(i, st, m, loaded, noise);
    case TST => TstTeq(i, st, m, loaded, noise);
    case TEQ => TstTeq(i, st, m, loaded, noise);
    case ADD => AddCmn(i, st, m, loaded, noise);
    case CMN => AddCmn(i, st, m, loaded, noise);
    case CMP => Compare(i, st, m, loaded, noise);
    case SUB => SubRsb(i, st, m, loaded, noise);
    case RSB => SubRsb(i, st, m, loaded, noise);
    case ADC => AddWithCarry(i, st, m, loaded, noise);
    case SBC => SubtractWithCarry(i, st, m, noise);
    case RSC => ReverseSubtractWithCarry(i, st, m, loaded, noise);
  }

  lemma IntoRdStraight(op: AluOp, i: Inst)
    ensures JumpsInside(IntoRd(op, i))
  {
  }
}
