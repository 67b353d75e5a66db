/**
 The generated code does what the ARM program does: the static tracking of `Tracking` is sound
 for every program, every start state and both settings of the lookahead.
 */
module Lowering {
  import opened X86
  import Arm
  import opened Compiler
  import opened CodeEffects
  import opened Tracking
  import opened OperationEffects

  // ----- the body -----

  /** The host state a body may start from. */
  ghost predicate BodyReady(i: Inst, st: State, m: Host, loaded: bool) {
    && m.regs == st.regs
    && LowByteOk(m.saved)
    && (i.shift == Arm.RRX || i.op in {Arm.ADC, Arm.SBC} ==> SavedC(m.saved) == st.c)
    && (i.op == Arm.SBC ==> !loaded)
    && (i.op == Arm.RSC ==> if loaded then m.cf == st.c else SavedC(m.saved) == st.c)
  }

  lemma {:induction false} MovEcxRn(r: Reg, m: Host, noise: Noise)
    ensures Run([Op.Mov(Ecx, Loc.Arm(r)), AluImm(Adc, Ecx, 0)], m, noise).ecx
         == Value(Adc, m.regs[r], 0, m.cf)
    ensures var m' := Run([Op.Mov(Ecx, Loc.Arm(r)), AluImm(Adc, Ecx, 0)], m, noise);
            m'.regs == m.regs && m'.saved == m.saved
  {
    hide Run, Value, CarryOf, OverflowOf, Msb;
    RunTwo(Op.Mov(Ecx, Loc.Arm(r)), AluImm(Adc, Ecx, 0), m, noise);
  }

  lemma {:induction false} PrefixEffect(i: Inst, st: State, m: Host, loaded: bool, noise: Noise)
    requires BodyReady(i, st, m, loaded)
    ensures var m' := Run(PrefixCode(i, loaded), m, noise);
            && m'.regs == m.regs && m'.saved == m.saved
            && (i.op == Arm.RSC ==> m'.ecx == RnPlusBorrow(i, st))
  {
    hide Run, Value, RorAl, SavedC, SavedZ, SavedS, SavedO;
    if i.op == Arm.RSC {
      var load := if loaded then [] else LOAD_FLAGS;
      var add := [Op.Mov(Ecx, Loc.Arm(i.rn)), AluImm(Adc, Ecx, 0)];
      assert PrefixCode(i, loaded) == load + [Cmc] + add;
      RunAppend(load + [Cmc], add, m, noise);
      RunAppend(load, [Cmc], m, noise);
      if loaded { RunNothing(m, noise); } else { LoadFlagsEffect(m, noise); }
      var m1 := Run(load, m, noise);
      CmcEffect(m1, noise);
      MovEcxRn(i.rn, Run([Cmc], m1, noise), noise);
    } else {
      RunNothing(m, noise);
    }
  }

  lemma PrefixStraight(i: Inst, loaded: bool)
    ensures JumpsInside(PrefixCode(i, loaded))
  {
  }

  lemma ShifterStraight(i: Inst)
    ensures JumpsInside(ShifterCode(i))
  {
    hide ShiftCode;
    ShiftCodeStraight(i.shift, i.imm);
    var load := if i.shift == Arm.RRX then LOAD_FLAGS else [];
    JumpsInsideAppend(load, [Op.Mov(Eax, Loc.Arm(i.rm))]);
    JumpsInsideAppend(load + [Op.Mov(Eax, Loc.Arm(i.rm))], ShiftCode(i.shift, i.imm));
    JumpsInsideAppend(load + [Op.Mov(Eax, Loc.Arm(i.rm))] + ShiftCode(i.shift, i.imm), [Rcl1(Esi)]);
  }

  lemma SbcStraight(i: Inst, loaded: bool)
    requires i.op == Arm.SBC
    ensures JumpsInside(OperationCode(i, loaded))
  {
    hide SubtractIntoRd;
    var load := if loaded then [] else LOAD_FLAGS;
    var sub := SubtractIntoRd(Sbb, Ecx, i);
    SubtractStraight(Sbb, Ecx, i);
    JumpsInsideAppend([Op.Mov(Ecx, Eax)], load);
    JumpsInsideAppend([Op.Mov(Ecx, Eax)] + load, [Cmc]);
    JumpsInsideAppend([Op.Mov(Ecx, Eax)] + load + [Cmc], sub);
    JumpsInsideAppend([Op.Mov(Ecx, Eax)] + load + [Cmc] + sub, if i.s then [Cmc] else []);
  }

  lemma OperationStraight(i: Inst, loaded: bool)
    ensures JumpsInside(OperationCode(i, loaded))
  {
    hide IntoRd, SubtractIntoRd;
    match i.op {
      case AND => IntoRdStraight(And, i); JumpsInsideAppend(IntoRd(And, i), [Rcr1(Esi)]);
      case EOR => IntoRdStraight(Xor, i); JumpsInsideAppend(IntoRd(Xor, i), [Rcr1(Esi)]);
      case BIC =>
        IntoRdStraight(And, i);
        JumpsInsideAppend([Not(Eax)], IntoRd(And, i));
        JumpsInsideAppend([Not(Eax)] + IntoRd(And, i), [Rcr1(Esi)]);
      case ADD => IntoRdStraight(Add, i);
      case ADC =>
        IntoRdStraight(Adc, i);
        JumpsInsideAppend([Push(Eax)] + LOAD_FLAGS + [Pop(Eax)], IntoRd(Adc, i));
      case SUB => SubtractStraight(Sub, Eax, i);
      case SBC => SbcStraight(i, loaded);
      case _ =>
    }
  }

  lemma {:induction false} NotInPlace(r: Reg, m: Host, noise: Noise)
    ensures Run([Not(Loc.Arm(r))], m, noise)
         == m.(regs := m.regs[r := Compl(m.regs[r])], clock := m.clock + 1)
  {
    hide Run, Compl;
    RunOne(Not(Loc.Arm(r)), m, noise);
  }

  lemma {:induction false} MvnInPlaceEffect(i: Inst, st: State, m: Host, noise: Noise)
    requires i.Decoded() && MvnInPlace(i) && m.regs == st.regs
    ensures Done(i, st, m, Run([Not(Loc.Arm(i.rd)), Rcr1(Esi)], m, noise))
  {
    hide Run, Compl, Lsl, Msb;
    assert [Not(Loc.Arm(i.rd)), Rcr1(Esi)] == [Not(Loc.Arm(i.rd))] + [Rcr1(Esi)];
    RunAppend([Not(Loc.Arm(i.rd))], [Rcr1(Esi)], m, noise);
    NotInPlace(i.rd, m, noise);
    RcrEsi(Run([Not(Loc.Arm(i.rd))], m, noise), noise);
    LslZero(m.regs[i.rm]);
  }

  lemma LslZero(x: bv32)
    ensures Lsl(x, 0) == x
  {
  }

  function ComputeCode(i: Inst, loaded: bool): seq<Op> {
    if MvnInPlace(i) then [Not(Loc.Arm(i.rd)), Rcr1(Esi)]
    else PrefixCode(i, loaded) + ShifterCode(i) + OperationCode(i, loaded)
  }

  lemma ComputeStraight(i: Inst, loaded: bool)
    ensures JumpsInside(ComputeCode(i, loaded))
  {
    hide PrefixCode, ShifterCode, OperationCode;
    PrefixStraight(i, loaded);
    ShifterStraight(i);
    OperationStraight(i, loaded);
    JumpsInsideAppend(PrefixCode(i, loaded), ShifterCode(i));
    JumpsInsideAppend(PrefixCode(i, loaded) + ShifterCode(i), OperationCode(i, loaded));
  }

  /** Everything but the flag store. */
  lemma {:induction false} ComputeEffect(i: Inst, st: State, m: Host, loaded: bool, noise: Noise)
    requires i.Decoded() && BodyReady(i, st, m, loaded)
    ensures Done(i, st, m, Run(ComputeCode(i, loaded), m, noise))
  {
    hide Run, PrefixCode, ShifterCode, OperationCode, RnPlusBorrow, SavedC, LowByteOk, Arm.Operand, Arm.CarryOut;
    if MvnInPlace(i) {
      MvnInPlaceEffect(i, st, m, noise);
    } else {
      PrefixStraight(i, loaded);
      ShifterStraight(i);
      JumpsInsideAppend(PrefixCode(i, loaded), ShifterCode(i));
      RunAppend(PrefixCode(i, loaded) + ShifterCode(i), OperationCode(i, loaded), m, noise);
      RunAppend(PrefixCode(i, loaded), ShifterCode(i), m, noise);
      PrefixEffect(i, st, m, loaded, noise);
      var m1 := Run(PrefixCode(i, loaded), m, noise);
      ShifterEffect(i, m1, noise);
      var m2 := Run(ShifterCode(i), m1, noise);
      assert Ready(i, st, m2) by { OperandIgnoresCarry(i, st.regs[i.rm], SavedC(m.saved), st.c); }
      OperationEffect(i, st, m2, loaded, noise);
      Undone(i, st, m, m2, Run(OperationCode(i, loaded), m2, noise));
    }
  }

  lemma Undone(i: Inst, st: State, m: Host, m2: Host, m3: Host)
    requires i.Decoded() && m2.saved == m.saved && Done(i, st, m2, m3)
    ensures Done(i, st, m, m3)
  {
  }

  lemma OperandIgnoresCarry(i: Inst, x: bv32, c: bool, c': bool)
    requires i.Decoded() && (i.shift == Arm.RRX ==> c == c')
    ensures Arm.Operand(i, x, c) == Arm.Operand(i, x, c')
    ensures !Arm.KeepsCarry(i) ==> Arm.CarryOut(i, x, c) == Arm.CarryOut(i, x, c')
  {
    hide Lsl, Lsr, Asr, Rotr, Bit;
  }

  /** The registers are ARM's; the flags the code computes are in the host, and in memory
      unless the store was dropped. */
  ghost predicate BodyDone(i: Inst, st: State, lookahead: bool, m: Host, m': Host)
    requires i.Decoded()
  {
    var st' := Arm.Execute(i, st);
    && m'.regs == st'.regs
    && LowByteOk(m'.saved)
    && (if i.s then
          && HostAgrees(Writes(i), st', m')
          && (if lookahead then m'.saved == m.saved else MemAgrees(Writes(i), st', m'))
        else m'.saved == m.saved)
  }

  lemma {:induction false} BodyEffect(i: Inst, st: State, lookahead: bool, m: Host, loaded: bool, noise: Noise)
    requires i.Decoded() && BodyReady(i, st, m, loaded)
    ensures BodyDone(i, st, lookahead, m, Run(BodyCode(i, lookahead, loaded), m, noise))
  {
    hide Run, PrefixCode, ShifterCode, OperationCode, StoredWord, SavedC, SavedZ, SavedS, SavedO, LowByteOk,
         Arm.Execute;
    var store := if i.s then StoreFlagsCode(lookahead) else [];
    ComputeStraight(i, loaded);
    RunAppend(ComputeCode(i, loaded), store, m, noise);
    ComputeEffect(i, st, m, loaded, noise);
    var m1 := Run(ComputeCode(i, loaded), m, noise);
    if i.s && !lookahead { StoreFlagsEffect(m1, noise); } else { RunNothing(m1, noise); }
  }

  // ----- the guard -----

  /** After the guard the host flags hold what `AfterGuard` says, with the carry complemented
      for HI and LS; nothing else has changed. */
  ghost predicate GuardDone(i: Inst, t: Track, lookahead: bool, st: State, m: Host, m': Host) {
    var v := if LoadedAt(t, lookahead) then t.host else t.mem;
    && m'.regs == m.regs && m'.saved == m.saved
    && Agree(v, st, if Complements(i.cond) then !m'.cf else m'.cf, m'.zf, m'.sf, m'.of)
  }

  lemma {:induction false} GuardEffect(i: Inst, t: Track, lookahead: bool, st: State, m: Host, noise: Noise)
    requires LowByteOk(m.saved) && MemAgrees(t.mem, st, m)
    requires LoadedAt(t, lookahead) ==> HostAgrees(t.host, st, m)
    ensures GuardDone(i, t, lookahead, st, m,
                      Run(GuardCode(i.cond, LoadedAt(t, lookahead)), m, noise))
  {
    hide Run, RorAl, SavedC, SavedZ, SavedS, SavedO;
    var load := if LoadedAt(t, lookahead) then [] else LOAD_FLAGS;
    var cmc := if Complements(i.cond) then [Cmc] else [];
    RunAppend(load, cmc, m, noise);
    if LoadedAt(t, lookahead) { RunNothing(m, noise); } else { LoadFlagsEffect(m, noise); }
    var m1 := Run(load, m, noise);
    if Complements(i.cond) { CmcEffect(m1, noise); } else { RunNothing(m1, noise); }
  }

  lemma JumpDecides(cond: Arm.Cond, v: Valid, st: State, m: Host)
    requires Guarded(cond) && Covers(v, Reads(cond))
    requires Agree(v, st, if Complements(cond) then !m.cf else m.cf, m.zf, m.sf, m.of)
    ensures Taken(SkipJump(cond), m) <==> !Arm.Passed(cond, st)
  {
    match cond
    case EQ => case NE => case CS => case CC => case MI => case PL => case VS => case VC =>
    case HI => case LS => case GE => case LT => case GT => case LE =>
  }

  /** The skip jump is taken exactly when ARM's condition fails. */
  lemma SkipExactly(i: Inst, t: Track, lookahead: bool, st: State, m: Host, m': Host)
    requires Guarded(i.cond) && GuardDone(i, t, lookahead, st, m, m')
    requires Covers(if LoadedAt(t, lookahead) then t.host else t.mem, Reads(i.cond))
    ensures Taken(SkipJump(i.cond), m') <==> !Arm.Passed(i.cond, st)
  {
    hide Taken, Arm.Passed, SkipJump, Reads, Agree, Covers;
    JumpDecides(i.cond, if LoadedAt(t, lookahead) then t.host else t.mem, st, m');
  }

  // ----- one instruction -----

  lemma {:induction false} TickEffect(lookahead: bool, m: Host, noise: Noise)
    ensures var m' := Run(TickCode(lookahead), m, noise);
            && m'.regs == m.regs && m'.saved == m.saved && m'.ebx == Plus(m.ebx, 1)
            && (!lookahead ==> m'.cf == m.cf && m'.zf == m.zf && m'.sf == m.sf && m'.of == m.of)
  {
    hide Run, Plus, Msb, OverflowAdd;
    RunOne(if lookahead then IncEbx else LeaEbx, m, noise);
  }

  lemma JumpTicks(cc: Cc, n: nat, m: Host, noise: Noise)
    ensures Step(Jump(cc, n), m, noise) == Tick(m)
  {
  }

  lemma {:induction false} RunSkip(cc: Cc, body: seq<Op>, m: Host, noise: Noise)
    ensures Run([Jump(cc, |body|)] + body, m, noise)
         == if Taken(cc, m) then Tick(m) else Run(body, Tick(m), noise)
  {
    hide Taken, Step, Tick;
    var code := [Jump(cc, |body|)] + body;
    assert code[1 + |body|..] == [] && code[1..] == body && code[0] == Jump(cc, |body|);
    RunNothing(Tick(m), noise);
    JumpTicks(cc, |body|, m, noise);
  }

  lemma GuardStraight(cond: Arm.Cond, loaded: bool)
    ensures JumpsInside(GuardCode(cond, loaded))
  {
  }

  /** A skipped instruction. */
  lemma SkippedRefines(i: Inst, t: Track, lookahead: bool, st: State, m: Host, m': Host)
    requires Guarded(i.cond) && LowByteOk(m.saved) && m.regs == st.regs && MemAgrees(t.mem, st, m)
    requires GuardDone(i, t, lookahead, st, m, m')
    ensures Refines(Next(i, t, lookahead), st, m')
  {
    hide SavedC, SavedZ, SavedS, SavedO, LowByteOk, Writes, Keeps;
  }

  lemma ArmKeeps(i: Inst, st: State)
    requires i.Decoded() && i.s
    ensures var st' := Arm.Execute(i, st);
            !Keeps(i).nz && (Keeps(i).c ==> st'.c == st.c) && (Keeps(i).v ==> st'.v == st.v)
  {
    hide Arm.Result, Arm.Operand, CarryFrom, BorrowFrom, OverflowAdd, OverflowSub, Msb;
  }

  lemma ExecutedHolds(i: Inst, t: Track, lookahead: bool, st: State, m: Host, m': Host)
    requires i.Decoded() && MemAgrees(t.mem, st, m) && BodyDone(i, st, lookahead, m, m')
    ensures Refines(Executed(i, t, lookahead), Arm.Execute(i, st), m')
  {
    hide SavedC, SavedZ, SavedS, SavedO, LowByteOk, Writes, Keeps, Arm.Execute;
    if i.s { ArmKeeps(i, st); } else { NoFlags(i, st); }
  }

  /** Vouching for fewer flags is always right. */
  lemma Weaken(t: Track, host: Valid, mem: Valid, st: State, m: Host)
    requires Refines(t, st, m)
    ensures Refines(Track(t.live, Meet(t.host, host), Meet(t.mem, mem)), st, m)
  {
    hide SavedC, SavedZ, SavedS, SavedO, LowByteOk;
  }

  /** An executed instruction. */
  lemma ExecutedRefines(i: Inst, t: Track, lookahead: bool, st: State, m: Host, m': Host)
    requires i.Decoded() && MemAgrees(t.mem, st, m) && BodyDone(i, st, lookahead, m, m')
    ensures Refines(Next(i, t, lookahead), Arm.Execute(i, st), m')
  {
    hide Arm.Execute, AfterGuard, Refines, MemAgrees, BodyDone, Writes, Keeps;
    ExecutedHolds(i, t, lookahead, st, m, m');
    var k := Skipped(i, t, lookahead);
    Weaken(Executed(i, t, lookahead), k.host, k.mem, Arm.Execute(i, st), m');
  }

  lemma NoFlags(i: Inst, st: State)
    requires i.Decoded() && !i.s
    ensures var st' := Arm.Execute(i, st);
            st'.n == st.n && st'.z == st.z && st'.c == st.c && st'.v == st.v
  {
  }

  lemma BodyStraight(i: Inst, lookahead: bool, loaded: bool)
    ensures JumpsInside(BodyCode(i, lookahead, loaded))
  {
    hide PrefixCode, ShifterCode, OperationCode;
    ComputeStraight(i, loaded);
    JumpsInsideAppend(ComputeCode(i, loaded), if i.s then StoreFlagsCode(lookahead) else []);
  }

  lemma GuardedStraight(i: Inst, lookahead: bool, loaded: bool)
    ensures JumpsInside(GuardedCode(i, lookahead, loaded))
  {
    hide BodyCode;
    var body := BodyCode(i, lookahead, true);
    BodyStraight(i, lookahead, true);
    var guard := GuardCode(i.cond, loaded);
    var jump := [Jump(SkipJump(i.cond), |body|)] + body;
    forall k | 0 <= k < |jump| && jump[k].Jump?
      ensures k + 1 + jump[k].skip <= |jump|
    {
      if k > 0 { assert jump[k] == body[k - 1]; }
    }
    GuardStraight(i.cond, loaded);
    JumpsInsideAppend(guard, jump);
    assert guard + jump == GuardedCode(i, lookahead, loaded);
  }

  lemma InstStraight(i: Inst, lookahead: bool, live: bool)
    ensures JumpsInside(InstCode(i, lookahead, live))
  {
    hide GuardedCode, BodyCode;
    var loaded := live && !lookahead;
    GuardedStraight(i, lookahead, loaded);
    BodyStraight(i, lookahead, loaded);
    JumpsInsideAppend(TickCode(lookahead),
      if Guarded(i.cond) then GuardedCode(i, lookahead, loaded) else BodyCode(i, lookahead, loaded));
  }

  /** A conditional instruction, from the state after the cycle counter was advanced. */
  lemma {:induction false} GuardedEffect(i: Inst, t: Track, lookahead: bool, st: State, m: Host, noise: Noise)
    requires i.Decoded() && Guarded(i.cond) && Readable(i, t, lookahead)
    requires m.regs == st.regs && LowByteOk(m.saved) && MemAgrees(t.mem, st, m)
    requires LoadedAt(t, lookahead) ==> HostAgrees(t.host, st, m)
    ensures Refines(Next(i, t, lookahead), Arm.Step(i, st),
                    Run(GuardedCode(i, lookahead, LoadedAt(t, lookahead)), m, noise))
  {
    hide Run, GuardCode, BodyCode, SavedC, SavedZ, SavedS, SavedO, LowByteOk, Arm.Execute,
         Arm.Passed, Next, Reads, Taken;
    var loaded := LoadedAt(t, lookahead);
    var guard, body := GuardCode(i.cond, loaded), BodyCode(i, lookahead, true);
    var jump := [Jump(SkipJump(i.cond), |body|)] + body;
    assert guard + jump == GuardedCode(i, lookahead, loaded);
    GuardStraight(i.cond, loaded);
    RunAppend(guard, jump, m, noise);
    GuardEffect(i, t, lookahead, st, m, noise);
    var m1 := Run(guard, m, noise);
    RunSkip(SkipJump(i.cond), body, m1, noise);
    SkipExactly(i, t, lookahead, st, m, m1);
    if Arm.Passed(i.cond, st) {
      BodyEffect(i, st, lookahead, Tick(m1), true, noise);
      ExecutedRefines(i, t, lookahead, st, Tick(m1), Run(body, Tick(m1), noise));
    } else {
      SkippedRefines(i, t, lookahead, st, m, Tick(m1));
    }
  }

  /** One instruction: if it reads only flags that are vouched for, the generated code takes
      a host state that refines an ARM state to one that refines ARM's next state. */
  lemma {:induction false} InstRefines(i: Inst, t: Track, lookahead: bool, st: State, m: Host, noise: Noise)
    requires i.InFragment() && Readable(i, t, lookahead) && Refines(t, st, m)
    ensures Refines(Next(i, t, lookahead), Arm.Step(i, st),
                    Run(InstCode(i, lookahead, t.live), m, noise))
  {
    hide Run, GuardedCode, BodyCode, SavedC, SavedZ, SavedS, SavedO, LowByteOk, Arm.Execute, Next;
    var loaded := LoadedAt(t, lookahead);
    var rest := if Guarded(i.cond) then GuardedCode(i, lookahead, loaded)
                else BodyCode(i, lookahead, loaded);
    RunAppend(TickCode(lookahead), rest, m, noise);
    TickEffect(lookahead, m, noise);
    var m1 := Run(TickCode(lookahead), m, noise);
    if Guarded(i.cond) {
      GuardedEffect(i, t, lookahead, st, m1, noise);
    } else {
      BodyEffect(i, st, lookahead, m1, loaded, noise);
      ExecutedRefines(i, t, lookahead, st, m1, Run(rest, m1, noise));
    }
  }

  /** The main theorem. For every program, start state and setting of the lookahead: if no
      instruction reads a flag that is not vouched for, the generated code ends with ARM's
      registers, and with ARM's value in every flag the tracking vouches for. */
  lemma {:induction false} CodeRefines(p: seq<Inst>, k: nat, t: Track, enabled: bool,
                                       st: State, m: Host, noise: Noise)
    requires k <= |p| && Arm.AllInFragment(p) && t.live == LiveAt(p, k)
    requires Admissible(p, k, t, enabled) && Refines(t, st, m)
    ensures Arm.AllDecoded(p[k..])
    ensures Refines(TrackFrom(p, k, t, enabled), Arm.Run(p[k..], st),
                    Run(CodeFrom(p, k, enabled), m, noise))
    decreases |p| - k
  {
    hide Run, InstCode, Refines, Readable;
    assert forall j :: k <= j < |p| ==> p[j].InFragment();
    if k == |p| {
      RunNothing(m, noise);
    } else {
      var i, la := p[k], LookaheadAt(p, k, enabled);
      var code := InstCode(i, la, LiveAt(p, k));
      InstStraight(i, la, LiveAt(p, k));
      RunAppend(code, CodeFrom(p, k + 1, enabled), m, noise);
      InstRefines(i, t, la, st, m, noise);
      assert p[k..][1..] == p[k + 1..];
      CodeRefines(p, k + 1, Next(i, t, la), enabled, Arm.Step(i, st), Run(code, m, noise), noise);
    }
  }
}
