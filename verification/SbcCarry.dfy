/**
 SBC with loaded flags. Its code computes the shifter operand first, which ends by rotating ESI
 left through the carry: the carry it then subtracts with is bit 31 of ESI as the instruction
 found it. The result is ARM's exactly if that bit is ARM's carry.
 */
module SbcCarry {
  import opened X86
  import Arm
  import opened Compiler
  import opened CodeEffects
  import opened Tracking
  import opened OperationEffects
  import opened Lowering
  import opened DeadFlags
  import opened StoredFlags

  // ----- ESI -----

  lemma {:induction false} RclLeaves(m: Host, noise: Noise)
    ensures var m' := Run([Rcl1(Esi)], m, noise); m'.cf == Msb(m.esi) && m'.esi == Rcl(m.esi, m.cf)
  {
    hide Run, Rcl, Msb;
    RunOne(Rcl1(Esi), m, noise);
  }

  /** Before the last rotate ESI is as it was. */
  lemma {:induction false} ShifterKeepsEsi(i: Inst, m: Host, noise: Noise)
    requires i.Decoded() && (i.shift == Arm.RRX ==> LowByteOk(m.saved))
    ensures exists m3: Host ::
              m3.esi == m.esi && Run(ShifterCode(i), m, noise) == Run([Rcl1(Esi)], m3, noise)
  {
    hide Run, ShiftCode, Arm.Operand, Arm.CarryOut, RorAl, SavedC, SavedO, SavedZ, SavedS;
    var load := if i.shift == Arm.RRX then LOAD_FLAGS else [];
    var mov := [Op.Mov(Eax, Loc.Arm(i.rm))];
    var shift := ShiftCode(i.shift, i.imm);
    RunFour(load, mov, shift, [Rcl1(Esi)], m, noise) by { ShiftCodeStraight(i.shift, i.imm); }
    var m1 := Run(load, m, noise);
    if i.shift == Arm.RRX { LoadFlagsEffect(m, noise); } else { RunNothing(m, noise); }
    MovEaxEffect(i.rm, m1, noise);
    var m2 := Run(mov, m1, noise);
    var m3 := Run(shift, m2, noise);
    if i.shift == Arm.RRX { RrxEffect(i, m2, noise); } else { ShiftCodeEffect(i, SavedC(m.saved), m2, noise); }
    assert m3.esi == m.esi;
  }

  /** What the shifter's code leaves in the carry: bit 31 of the old ESI, whatever is shifted. */
  lemma {:induction false} ShifterLeaves(i: Inst, m: Host, noise: Noise)
    requires i.Decoded() && (i.shift == Arm.RRX ==> LowByteOk(m.saved))
    ensures Run(ShifterCode(i), m, noise).cf == Msb(m.esi)
    ensures Msb(Run(ShifterCode(i), m, noise).esi) == (m.esi & 0x4000_0000 != 0)
  {
    hide Run, ShifterCode, Rcl, Msb;
    ShifterKeepsEsi(i, m, noise);
    var m3: Host :| m3.esi == m.esi && Run(ShifterCode(i), m, noise) == Run([Rcl1(Esi)], m3, noise);
    RclLeaves(m3, noise);
    RclTop(m.esi, m3.cf);
  }

  lemma RclTop(x: bv32, c: bool)
    ensures Msb(Rcl(x, c)) == (x & 0x4000_0000 != 0)
  {
  }

  // ----- the body -----

  /** The state an SBC with loaded flags may start from; only RRX reads the saved carry. */
  ghost predicate SbcReady(i: Inst, st: State, m: Host) {
    && i.Decoded() && i.op == Arm.SBC && m.regs == st.regs && LowByteOk(m.saved)
    && (i.shift == Arm.RRX ==> SavedC(m.saved) == st.c)
  }

  lemma {:induction false} SbcComputes(i: Inst, st: State, m: Host, noise: Noise)
    requires SbcReady(i, st, m)
    ensures Subtracted(i, st, Arm.Operand(i, st.regs[i.rm], st.c), Msb(m.esi), m,
                       Run(ShifterCode(i) + OperationCode(i, true), m, noise))
  {
    hide Run, ShifterCode, OperationCode, SavedC, LowByteOk, Arm.Operand, Arm.CarryOut, Subtracted, Msb;
    ShifterStraight(i);
    RunAppend(ShifterCode(i), OperationCode(i, true), m, noise);
    ShifterEffect(i, m, noise);
    ShifterLeaves(i, m, noise);
    OperandIgnoresCarry(i, st.regs[i.rm], SavedC(m.saved), st.c);
    var m1 := Run(ShifterCode(i), m, noise);
    var m2 := Run(OperationCode(i, true), m1, noise);
    SubtractLoaded(i, st, m1, noise);
    SubtractedFrom(i, st, m1.eax, m1.cf, m1, m, m2);
  }

  /** Shifter operand and operation together. */
  lemma {:induction false} SbcLoadedExactly(i: Inst, st: State, m: Host, noise: Noise)
    requires SbcReady(i, st, m)
    ensures var m' := Run(ShifterCode(i) + OperationCode(i, true), m, noise);
            && (Done(i, st, m, m') <==> Msb(m.esi) == st.c)
            && (m'.regs == Arm.Execute(i, st).regs <==> Msb(m.esi) == st.c)
  {
    hide Run, ShifterCode, OperationCode, Arm.Operand, Subtracted, Done, Msb, LowByteOk, SavedC, Arm.Execute;
    SbcComputes(i, st, m, noise);
    SubtractedExactly(i, st, Msb(m.esi), m, Run(ShifterCode(i) + OperationCode(i, true), m, noise));
  }

  /** The body with the flag store. */
  lemma {:induction false} SbcBodyExactly(i: Inst, st: State, lookahead: bool, m: Host, noise: Noise)
    requires SbcReady(i, st, m)
    ensures var m' := Run(BodyCode(i, lookahead, true), m, noise);
            && (BodyDone(i, st, lookahead, m, m') <==> Msb(m.esi) == st.c)
            && (m'.regs == Arm.Execute(i, st).regs <==> Msb(m.esi) == st.c)
  {
    hide Run, ShifterCode, OperationCode, StoredWord, SavedC, SavedZ, SavedS, SavedO, LowByteOk, Arm.Execute, Msb;
    var store := if i.s then StoreFlagsCode(lookahead) else [];
    var code := ShifterCode(i) + OperationCode(i, true);
    ComputeStraight(i, true);
    assert ComputeCode(i, true) == code && BodyCode(i, lookahead, true) == code + store;
    RunAppend(code, store, m, noise);
    SbcLoadedExactly(i, st, m, noise);
    var m1 := Run(code, m, noise);
    if i.s && !lookahead { StoreFlagsEffect(m1, noise); } else { RunNothing(m1, noise); }
  }

  // ----- the instruction -----

  lemma {:induction false} TickKeepsEsi(lookahead: bool, m: Host, noise: Noise)
    ensures Run(TickCode(lookahead), m, noise).esi == m.esi
  {
    hide Run, Plus, Msb, OverflowAdd;
    RunOne(if lookahead then IncEbx else LeaEbx, m, noise);
  }

  lemma {:induction false} GuardKeepsEsi(cond: Arm.Cond, loaded: bool, m: Host, noise: Noise)
    requires LowByteOk(m.saved)
    ensures Run(GuardCode(cond, loaded), m, noise).esi == m.esi
  {
    hide Run, RorAl, SavedC, SavedZ, SavedS, SavedO;
    var load := if loaded then [] else LOAD_FLAGS;
    var cmc := if Complements(cond) then [Cmc] else [];
    RunAppend(load, cmc, m, noise);
    if loaded { RunNothing(m, noise); } else { LoadFlagsEffect(m, noise); }
    var m1 := Run(load, m, noise);
    if Complements(cond) { CmcEffect(m1, noise); } else { RunNothing(m1, noise); }
  }

  /** An SBC whose code takes the flags for loaded: after a flag writer, and under any condition.
      Everything else it reads is vouched for. */
  ghost predicate TakesLoaded(i: Inst, t: Track, lookahead: bool, st: State, m: Host) {
    && i.InFragment() && i.op == Arm.SBC && Refines(t, st, m) && BodyLoaded(i, t, lookahead)
    && (Guarded(i.cond) ==> Covers(if LoadedAt(t, lookahead) then t.host else t.mem, Reads(i.cond)))
    && (i.shift == Arm.RRX ==> t.mem.c)
  }

  ghost predicate SbcRight(i: Inst, st: State, m: Host) { Arm.Passed(i.cond, st) ==> Msb(m.esi) == st.c }

  /** Outcome of an instruction whose condition is true. */
  lemma SbcOutcome(i: Inst, t: Track, lookahead: bool, st: State, m: Host, m1: Host, m': Host)
    requires i.Decoded() && MemAgrees(t.mem, st, m1) && m1.esi == m.esi
    requires BodyDone(i, st, lookahead, m1, m') <==> Msb(m1.esi) == st.c
    requires m'.regs == Arm.Execute(i, st).regs <==> Msb(m1.esi) == st.c
    ensures Refines(Next(i, t, lookahead), Arm.Execute(i, st), m') <==> Msb(m.esi) == st.c
  {
    hide Arm.Execute, MemAgrees, BodyDone, Next, Msb, LowByteOk;
    if Msb(m.esi) == st.c { ExecutedRefines(i, t, lookahead, st, m1, m'); }
  }

  /** From the state after the cycle counter was advanced. */
  ghost predicate AfterTick(i: Inst, t: Track, lookahead: bool, st: State, m: Host) {
    && m.regs == st.regs && LowByteOk(m.saved) && MemAgrees(t.mem, st, m)
    && (LoadedAt(t, lookahead) ==> HostAgrees(t.host, st, m))
  }

  lemma SbcStarts(i: Inst, t: Track, st: State, m: Host)
    requires i.InFragment() && i.op == Arm.SBC && (i.shift == Arm.RRX ==> t.mem.c)
    requires m.regs == st.regs && LowByteOk(m.saved) && MemAgrees(t.mem, st, m)
    ensures SbcReady(i, st, m)
  {
    hide SavedC, SavedZ, SavedS, SavedO, LowByteOk;
  }

  /** At the skip jump. */
  lemma {:induction false} SbcAtJump(i: Inst, t: Track, lookahead: bool, st: State, m: Host, noise: Noise)
    requires i.InFragment() && i.op == Arm.SBC && Guarded(i.cond) && AfterTick(i, t, lookahead, st, m)
    requires Covers(if LoadedAt(t, lookahead) then t.host else t.mem, Reads(i.cond))
    requires i.shift == Arm.RRX ==> t.mem.c
    ensures var j := Run(GuardCode(i.cond, LoadedAt(t, lookahead)), m, noise);
            && SbcReady(i, st, Tick(j)) && MemAgrees(t.mem, st, Tick(j)) && j.esi == m.esi
            && GuardDone(i, t, lookahead, st, m, Tick(j))
            && (Taken(SkipJump(i.cond), j) <==> !Arm.Passed(i.cond, st))
  {
    hide Run, GuardCode, SavedC, SavedZ, SavedS, SavedO, LowByteOk, Arm.Passed, Taken, Reads, Covers;
    var guard := GuardCode(i.cond, LoadedAt(t, lookahead));
    GuardEffect(i, t, lookahead, st, m, noise);
    GuardKeepsEsi(i.cond, LoadedAt(t, lookahead), m, noise);
    var j := Run(guard, m, noise);
    SkipExactly(i, t, lookahead, st, m, j);
    SbcStarts(i, t, st, Tick(j));
  }

  lemma {:induction false} RunGuarded(i: Inst, t: Track, lookahead: bool, m: Host, noise: Noise)
    ensures var loaded := LoadedAt(t, lookahead);
            var m1 := Run(GuardCode(i.cond, loaded), m, noise);
            Run(GuardedCode(i, lookahead, loaded), m, noise)
            == if Taken(SkipJump(i.cond), m1) then Tick(m1) else Run(BodyCode(i, lookahead, true), Tick(m1), noise)
  {
    hide Run, GuardCode, BodyCode, Taken;
    var guard, body := GuardCode(i.cond, LoadedAt(t, lookahead)), BodyCode(i, lookahead, true);
    var jump := [Jump(SkipJump(i.cond), |body|)] + body;
    assert guard + jump == GuardedCode(i, lookahead, LoadedAt(t, lookahead));
    GuardStraight(i.cond, LoadedAt(t, lookahead));
    RunAppend(guard, jump, m, noise);
    RunSkip(SkipJump(i.cond), body, Run(guard, m, noise), noise);
  }

  lemma {:induction false} SbcGuarded(i: Inst, t: Track, lookahead: bool, st: State, m: Host, noise: Noise)
    requires i.InFragment() && i.op == Arm.SBC && Guarded(i.cond) && AfterTick(i, t, lookahead, st, m)
    requires Covers(if LoadedAt(t, lookahead) then t.host else t.mem, Reads(i.cond))
    requires i.shift == Arm.RRX ==> t.mem.c
    ensures var m' := Run(GuardedCode(i, lookahead, LoadedAt(t, lookahead)), m, noise);
            && (Refines(Next(i, t, lookahead), Arm.Step(i, st), m') <==> SbcRight(i, st, m))
            && (m'.regs == Arm.Step(i, st).regs <==> SbcRight(i, st, m))
  {
    hide Run, GuardCode, GuardedCode, BodyCode, SavedC, SavedZ, SavedS, SavedO, LowByteOk, Arm.Execute, Arm.Passed;
    hide Next, Reads, Covers, Taken, Msb, Refines, MemAgrees, HostAgrees, BodyDone, SbcReady, GuardDone;
    SbcAtJump(i, t, lookahead, st, m, noise);
    RunGuarded(i, t, lookahead, m, noise);
    var m1 := Tick(Run(GuardCode(i.cond, LoadedAt(t, lookahead)), m, noise));
    if Arm.Passed(i.cond, st) {
      SbcBodyExactly(i, st, lookahead, m1, noise);
      SbcOutcome(i, t, lookahead, st, m, m1, Run(BodyCode(i, lookahead, true), m1, noise));
    } else {
      SkippedSbc(i, t, lookahead, st, m, m1);
    }
  }

  lemma SkippedSbc(i: Inst, t: Track, lookahead: bool, st: State, m: Host, m': Host)
    requires Guarded(i.cond) && AfterTick(i, t, lookahead, st, m) && GuardDone(i, t, lookahead, st, m, m')
    ensures Refines(Next(i, t, lookahead), st, m') && m'.regs == st.regs
  {
    hide SavedC, SavedZ, SavedS, SavedO, LowByteOk, Next, MemAgrees, HostAgrees;
    SkippedRefines(i, t, lookahead, st, m, m');
  }

  /** The instruction: it does what ARM does if and only if it is skipped or bit 31 of ESI is
      ARM's carry, on the state in front of it. */
  lemma {:induction false} SbcExactly(i: Inst, t: Track, lookahead: bool, st: State, m: Host, noise: Noise)
    requires TakesLoaded(i, t, lookahead, st, m)
    ensures var m' := Run(InstCode(i, lookahead, t.live), m, noise);
            && (Refines(Next(i, t, lookahead), Arm.Step(i, st), m') <==> SbcRight(i, st, m))
            && (m'.regs == Arm.Step(i, st).regs <==> SbcRight(i, st, m))
  {
    hide Run, GuardedCode, BodyCode, SavedC, SavedZ, SavedS, SavedO, LowByteOk, Arm.Execute, Arm.Passed, Next, Msb;
    hide Reads, Covers, BodyDone;
    var loaded := LoadedAt(t, lookahead);
    var rest := if Guarded(i.cond) then GuardedCode(i, lookahead, loaded) else BodyCode(i, lookahead, loaded);
    RunAppend(TickCode(lookahead), rest, m, noise);
    TickEffect(lookahead, m, noise);
    TickKeepsEsi(lookahead, m, noise);
    var m1 := Run(TickCode(lookahead), m, noise);
    if Guarded(i.cond) {
      SbcGuarded(i, t, lookahead, st, m1, noise);
    } else {
      SbcStarts(i, t, st, m1);
      Unguarded(i, st);
      SbcBodyExactly(i, st, lookahead, m1, noise);
      SbcOutcome(i, t, lookahead, st, m, m1, Run(rest, m1, noise));
    }
  }

  // ----- a page on which it goes wrong -----

  /** SBC R1, R1, R0. */
  const SUB_CARRY := Arm.Inst(Arm.SBC, Arm.AL, false, 1, 1, 0, Arm.LSL, 0)

  lemma {:induction false} CompareOperation(m: Host, noise: Noise)
    ensures Run(OperationCode(COMPARE, false), m, noise).esi == m.esi
  {
    hide Run, Msb, Value, CarryOf, OverflowOf;
    var cmp := [Alu(Cmp, Loc.Arm(COMPARE.rn), Eax)];
    assert OperationCode(COMPARE, false) == cmp + [Cmc];
    RunAppend(cmp, [Cmc], m, noise);
    AluOnly(Cmp, Loc.Arm(COMPARE.rn), Eax, m, noise);
    CmcEffect(Run(cmp, m, noise), noise);
  }

  /** The comparison moves bit 30 of ESI to bit 31. */
  lemma {:induction false} CompareRotates(m: Host, noise: Noise)
    ensures Msb(Run(InstCode(COMPARE, false, false), m, noise).esi) == (m.esi & 0x4000_0000 != 0)
  {
    hide Run, ShifterCode, OperationCode, TickCode, Msb, StoredWord;
    var code := ShifterCode(COMPARE) + OperationCode(COMPARE, false);
    var body, store := code + StoreFlagsCode(false), StoreFlagsCode(false);
    ComputeStraight(COMPARE, false);
    assert ComputeCode(COMPARE, false) == code && InstCode(COMPARE, false, false) == TickCode(false) + body;
    ShifterStraight(COMPARE);
    TickStraight(false);
    RunAppend(TickCode(false), body, m, noise);
    TickKeepsEsi(false, m, noise);
    var m1 := Run(TickCode(false), m, noise);
    RunAppend(code, store, m1, noise);
    RunAppend(ShifterCode(COMPARE), OperationCode(COMPARE, false), m1, noise);
    ShifterLeaves(COMPARE, m1, noise);
    CompareOperation(Run(ShifterCode(COMPARE), m1, noise), noise);
    StoreFlagsEffect(Run(code, m1, noise), noise);
  }

  lemma {:induction false} CompareRefines(st: State, m: Host, noise: Noise)
    requires Matches(st, m)
    ensures Refines(Track(true, ALL, ALL), Arm.Execute(COMPARE, st), Run(InstCode(COMPARE, false, false), m, noise))
  {
    hide Run, InstCode, SavedC, SavedZ, SavedS, SavedO, LowByteOk, Arm.Execute;
    InstRefines(COMPARE, ENTRY, false, st, m, noise);
  }

  /** CMP R0, R0; SBC R1, R1, R0: right exactly if bit 30 of ESI was set where the page was
      entered, which nothing ARM does decides. */
  lemma {:induction false} TakesOldBit(enabled: bool, st: State, m: Host, noise: Noise)
    requires Matches(st, m)
    ensures var p := [COMPARE, SUB_CARRY];
            && Arm.AllDecoded(p)
            && (Run(CodeFrom(p, 0, enabled), m, noise).regs == Arm.Run(p, st).regs <==> m.esi & 0x4000_0000 != 0)
  {
    hide Run, CodeFrom, HostAt, InstCode, Arm.Execute, Arm.Run, SavedC, SavedZ, SavedS, SavedO, LowByteOk, Msb, Matches;
    var p, st1 := [COMPARE, SUB_CARRY], Arm.Execute(COMPARE, st);
    CompareSelf(st);
    CompareRefines(st, m, noise);
    CompareRotates(m, noise);
    var m1 := Run(InstCode(COMPARE, false, false), m, noise);
    SbcExactly(SUB_CARRY, Track(true, ALL, ALL), false, st1, m1, noise);
    ArmTwo(COMPARE, SUB_CARRY, st);
    HostZero(p, enabled, m, noise);
    HostNext(p, 0, enabled, m, noise);
    HostNext(p, 1, enabled, m, noise);
    HostAtEnd(p, enabled, m, noise);
  }

  lemma {:induction false} HostZero(p: seq<Inst>, enabled: bool, m: Host, noise: Noise)
    ensures HostAt(p, 0, enabled, m, noise) == m
  {
    RunNothing(m, noise);
  }
}
