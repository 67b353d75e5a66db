/**
 What the main theorem of `Lowering` means for the compile loop: dropping flag stores is
 invisible on straight-line arithmetic code, and compiling without it is right for conditional
 code as well except after a skipped HI or LS.
 */
module DeadFlags {
  import opened X86
  import Arm
  import opened Compiler
  import opened CodeEffects
  import opened Tracking
  import opened OperationEffects
  import opened Lowering

  /** ARM's flags are all in memory: the state in which a page is entered. */
  const ENTRY := Track(false, NONE, ALL)

  predicate Arithmetic(i: Inst) {
    i.InFragment() && i.op in {Arm.ADD, Arm.ADC, Arm.CMP, Arm.CMN}
  }

  predicate AllArithmetic(p: seq<Inst>) { forall k :: 0 <= k < |p| ==> Arithmetic(p[k]) }

  predicate Unconditional(p: seq<Inst>) { forall k :: 0 <= k < |p| ==> p[k].cond == Arm.AL }

  /** A host and an ARM state with the same registers and saved flags. */
  ghost predicate Matches(st: State, m: Host) {
    && m.regs == st.regs && LowByteOk(m.saved)
    && SavedS(m.saved) == st.n && SavedZ(m.saved) == st.z
    && SavedC(m.saved) == st.c && SavedO(m.saved) == st.v
  }

  // ----- dropping stores -----

  /** The saved flags are ARM's, or the instruction about to run overwrites all of them and
      reads none of them. */
  predicate StaleOnlyIfOverwritten(p: seq<Inst>, k: nat, t: Track)
    requires k <= |p|
  {
    t.mem == ALL || (k < |p| && Overwrites(p[k]))
  }

  lemma StaleStep(p: seq<Inst>, k: nat, t: Track, enabled: bool)
    requires AllArithmetic(p) && Unconditional(p) && k < |p|
    requires StaleOnlyIfOverwritten(p, k, t)
    ensures Readable(p[k], t, LookaheadAt(p, k, enabled))
    ensures StaleOnlyIfOverwritten(p, k + 1, Next(p[k], t, LookaheadAt(p, k, enabled)))
  {
  }

  /** On straight-line arithmetic the saved flags are stale only where the next instruction
      overwrites all of them without reading them, so nothing ever reads a stale flag. */
  lemma {:induction false} StraightLineAdmissible(p: seq<Inst>, k: nat, t: Track, enabled: bool)
    requires AllArithmetic(p) && Unconditional(p) && k <= |p|
    requires StaleOnlyIfOverwritten(p, k, t)
    ensures Admissible(p, k, t, enabled)
    ensures TrackFrom(p, k, t, enabled).mem == ALL
    decreases |p| - k
  {
    if k < |p| {
      StaleStep(p, k, t, enabled);
      StraightLineAdmissible(p, k + 1, Next(p[k], t, LookaheadAt(p, k, enabled)), enabled);
    }
  }

  /** Straight-line arithmetic, compiled with or without the lookahead, does what ARM does:
      registers and all four saved flags. */
  lemma {:induction false} StraightLineCorrect(p: seq<Inst>, enabled: bool, st: State, m: Host, noise: Noise)
    requires AllArithmetic(p) && Unconditional(p) && Matches(st, m)
    ensures Arm.AllDecoded(p)
    ensures Matches(Arm.Run(p, st), Run(CodeFrom(p, 0, enabled), m, noise))
  {
    StraightLineAdmissible(p, 0, ENTRY, enabled);
    CodeRefines(p, 0, ENTRY, enabled, st, m, noise);
    assert p[0..] == p;
  }

  /** Dead-flag elimination is sound: the code that drops stores ends with the same registers
      and saved flags as the code that always stores them. */
  lemma {:induction false} DeadFlagElimination(p: seq<Inst>, st: State, m: Host, noise: Noise, noise': Noise)
    requires AllArithmetic(p) && Unconditional(p) && Matches(st, m)
    ensures var fast := Run(CodeFrom(p, 0, true), m, noise);
            var slow := Run(CodeFrom(p, 0, false), m, noise');
            && fast.regs == slow.regs
            && SavedC(fast.saved) == SavedC(slow.saved) && SavedZ(fast.saved) == SavedZ(slow.saved)
            && SavedS(fast.saved) == SavedS(slow.saved) && SavedO(fast.saved) == SavedO(slow.saved)
  {
    hide CodeFrom, Run, Arm.Run, SavedC, SavedZ, SavedS, SavedO;
    StraightLineCorrect(p, true, st, m, noise);
    StraightLineCorrect(p, false, st, m, noise');
  }

  // ----- conditional code without the lookahead -----

  /** The live host carry may be complemented: an HI or LS writer may have been skipped, with
      only skippable writers since. */
  predicate Tainted(p: seq<Inst>, k: nat)
    requires k <= |p|
  {
    k > 0 && p[k - 1].s && Guarded(p[k - 1].cond)
    && (Complements(p[k - 1].cond) || Tainted(p, k - 1))
  }

  /** No condition reads a live carry that may be complemented. */
  predicate Clean(p: seq<Inst>) {
    forall k :: 0 <= k < |p| ==> !(Tainted(p, k) && Reads(p[k].cond).c)
  }

  /** The tracking of arithmetic code without the lookahead. */
  predicate ArithmeticTrack(p: seq<Inst>, k: nat, t: Track)
    requires k <= |p|
  {
    && t.live == LiveAt(p, k) && t.mem == ALL
    && (t.live ==> t.host == Valid(true, !Tainted(p, k), true))
  }

  lemma {:induction false} ArithmeticStep(p: seq<Inst>, k: nat, t: Track)
    requires AllArithmetic(p) && k < |p| && ArithmeticTrack(p, k, t)
    ensures Readable(p[k], t, false) <==> !(Tainted(p, k) && Reads(p[k].cond).c)
    ensures ArithmeticTrack(p, k + 1, Next(p[k], t, false))
  {
  }

  lemma {:induction false} ArithmeticAdmissible(p: seq<Inst>, k: nat, t: Track)
    requires AllArithmetic(p) && k <= |p| && ArithmeticTrack(p, k, t)
    ensures Admissible(p, k, t, false)
       <==> forall j :: k <= j < |p| ==> !(Tainted(p, j) && Reads(p[j].cond).c)
    ensures TrackFrom(p, k, t, false).mem == ALL
    decreases |p| - k
  {
    if k < |p| {
      ArithmeticStep(p, k, t);
      ArithmeticAdmissible(p, k + 1, Next(p[k], t, false));
    }
  }

  /** Arithmetic code under any conditions is vouched for exactly when it is clean. */
  lemma {:induction false} CleanIsAdmissible(p: seq<Inst>)
    requires AllArithmetic(p)
    ensures Admissible(p, 0, ENTRY, false) <==> Clean(p)
  {
    ArithmeticAdmissible(p, 0, ENTRY);
  }

  /** Clean conditional arithmetic, compiled without the lookahead, does what ARM does. */
  lemma {:induction false} ConditionalCorrect(p: seq<Inst>, st: State, m: Host, noise: Noise)
    requires AllArithmetic(p) && Clean(p) && Matches(st, m)
    ensures Arm.AllDecoded(p)
    ensures Matches(Arm.Run(p, st), Run(CodeFrom(p, 0, false), m, noise))
  {
    ArithmeticAdmissible(p, 0, ENTRY);
    CodeRefines(p, 0, ENTRY, false, st, m, noise);
    assert p[0..] == p;
  }
}
