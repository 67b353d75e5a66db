/**
 Conditional arithmetic compiled without the lookahead, exactly: what the live host carry is at
 every instruction, and which conditions are decided as ARM decides them.
 */
module CarryParity {
  import opened X86
  import Arm
  import opened Compiler
  import opened CodeEffects
  import opened Tracking
  import opened OperationEffects
  import opened Lowering
  import opened DeadFlags
  import opened StoredFlags

  /** How many flag writers under HI or LS were skipped since the flags were last stored or
      loaded: each of them complemented the live carry. */
  function Flips(p: seq<Inst>, k: nat, st: State): nat
    requires k <= |p| && Arm.AllDecoded(p)
    decreases k
  {
    if k == 0 || !p[k - 1].s || Arm.Passed(p[k - 1].cond, ArmAt(p, k - 1, st)) then 0
    else Flips(p, k - 1, st) + (if Complements(p[k - 1].cond) then 1 else 0)
  }

  predicate Odd(n: nat) { n % 2 == 1 }

  /** The condition comes out the same for either carry. */
  predicate OthersDecide(cond: Arm.Cond, st: State) {
    match cond
    case CS => false
    case CC => false
    case HI => st.z
    case LS => st.z
    case _ => true
  }

  /** Instruction `k` finds a live carry that is ARM's, or does not depend on it. */
  predicate Decided(p: seq<Inst>, k: nat, st: State)
    requires k < |p| && Arm.AllDecoded(p)
  {
    Odd(Flips(p, k, st)) ==> OthersDecide(p[k].cond, ArmAt(p, k, st))
  }

  /** The condition with the carry complemented. */
  lemma SeenDecides(cond: Arm.Cond, st: State, flip: bool)
    ensures Arm.Passed(cond, st.(c := st.c != flip)) == Arm.Passed(cond, st) <==> !flip || OthersDecide(cond, st)
  {
  }

  // ----- a list -----

  /** Without the lookahead nothing is dropped: the saved flags are ARM's, the live ones too but
      for the carry. */
  lemma {:induction false} HeldPlain(p: seq<Inst>, k: nat, st: State)
    requires k <= |p| && Arm.AllDecoded(p)
    ensures var s, h := ArmAt(p, k, st), HeldAt(p, k, false, st);
            && h.saved == FlagsOf(s)
            && (LiveAt(p, k) ==> h.host == FlagsOf(s).(c := s.c != Odd(Flips(p, k, st))))
            && (!LiveAt(p, k) ==> Flips(p, k, st) == 0)
    decreases k
  {
    hide Arm.Passed, Arm.Execute;
    if k > 0 {
      HeldPlain(p, k - 1, st);
      var i, s := p[k - 1], ArmAt(p, k - 1, st);
      if Arm.Passed(i.cond, s) && !i.s { NoFlags(i, s); }
    }
  }

  lemma {:induction false} RightIsDecided(p: seq<Inst>, k: nat, st: State)
    requires k < |p| && Arm.AllDecoded(p)
    ensures RightAt(p, k, false, st) <==> Decided(p, k, st)
  {
    hide Arm.Passed, HeldAt, ArmAt, Flips, OthersDecide;
    HeldPlain(p, k, st);
    var s := ArmAt(p, k, st);
    SeenDecides(p[k].cond, s, Odd(Flips(p, k, st)));
    assert With(s, SeenAt(p, k, false, st)) == s.(c := s.c != Odd(Flips(p, k, st)));
  }

  /** While all conditions so far were decided as ARM does, registers and saved flags are ARM's,
      and of the live flags so are all but the carry, which is complemented once for each HI or LS
      writer that was skipped since the last one that was executed. */
  lemma {:induction false} LiveCarry(p: seq<Inst>, k: nat, st: State, m: Host, noise: Noise)
    requires AllArithmetic(p) && k <= |p| && Matches(st, m)
    requires Arm.AllDecoded(p) && forall j :: 0 <= j < k ==> Decided(p, j, st)
    ensures var s, h := ArmAt(p, k, st), HostAt(p, k, false, m, noise);
            && Matches(s, h)
            && (LiveAt(p, k) ==> h.cf == (s.c != Odd(Flips(p, k, st))) && h.zf == s.z && h.sf == s.n && h.of == s.v)
  {
    hide HostAt, HeldAt, ArmAt, Flips, Decided, RightAt, SavedC, SavedZ, SavedS, SavedO, LowByteOk;
    forall j | 0 <= j < k ensures RightAt(p, j, false, st) {
      RightIsDecided(p, j, st);
    }
    FlagsHeld(p, k, false, st, m, noise);
    HeldPlain(p, k, st);
  }

  /** The next condition is decided as ARM does exactly when an even number of HI and LS writers
      was skipped since the last executed writer, or the other flags decide it. */
  lemma {:induction false} DecidedExactly(p: seq<Inst>, k: nat, st: State, m: Host, noise: Noise)
    requires AllArithmetic(p) && k < |p| && Matches(st, m) && Guarded(p[k].cond)
    requires Arm.AllDecoded(p) && forall j :: 0 <= j < k ==> Decided(p, j, st)
    ensures (HostSkips(p, k, false, m, noise) <==> !Arm.Passed(p[k].cond, ArmAt(p, k, st))) <==> Decided(p, k, st)
  {
    hide HostSkips, HeldAt, ArmAt, Flips, Matches, Arm.Passed, OthersDecide;
    forall j | 0 <= j < k ensures RightAt(p, j, false, st) {
      RightIsDecided(p, j, st);
    }
    NextExactly(p, k, false, st, m, noise);
    HeldPlain(p, k, st);
    var s := ArmAt(p, k, st);
    SeenDecides(p[k].cond, s, Odd(Flips(p, k, st)));
    assert With(s, SeenAt(p, k, false, st))
        == s.(c := s.c != Odd(Flips(p, k, st)));
  }

  /** The code skips the instructions that ARM skips. */
  ghost predicate SamePath(p: seq<Inst>, st: State, m: Host, noise: Noise)
    requires Arm.AllDecoded(p)
  {
    forall k :: 0 <= k < |p| && Guarded(p[k].cond) ==>
      (HostSkips(p, k, false, m, noise) <==> !Arm.Passed(p[k].cond, ArmAt(p, k, st)))
  }

  lemma {:induction false} PathDecides(p: seq<Inst>, k: nat, st: State, m: Host, noise: Noise)
    requires AllArithmetic(p) && k <= |p| && Matches(st, m) && Arm.AllDecoded(p) && SamePath(p, st, m, noise)
    ensures forall j :: 0 <= j < k ==> Decided(p, j, st)
    decreases k
  {
    hide HostSkips, Arm.Passed, Flips, Matches;
    if k > 0 {
      PathDecides(p, k - 1, st, m, noise);
      if Guarded(p[k - 1].cond) { DecidedExactly(p, k - 1, st, m, noise); }
    }
  }

  /** The code takes ARM's path exactly when every condition finds an even number of HI and LS
      writers skipped before it or is decided by the other flags. */
  lemma {:induction false} PathExactly(p: seq<Inst>, st: State, m: Host, noise: Noise)
    requires AllArithmetic(p) && Matches(st, m) && Arm.AllDecoded(p)
    ensures SamePath(p, st, m, noise) <==> forall k :: 0 <= k < |p| ==> Decided(p, k, st)
  {
    hide HostSkips, Arm.Passed, Decided, Matches;
    if SamePath(p, st, m, noise) { PathDecides(p, |p|, st, m, noise); }
    if forall k :: 0 <= k < |p| ==> Decided(p, k, st) {
      forall k | 0 <= k < |p| && Guarded(p[k].cond)
        ensures HostSkips(p, k, false, m, noise) <==> !Arm.Passed(p[k].cond, ArmAt(p, k, st))
      {
        DecidedExactly(p, k, st, m, noise);
      }
    }
  }

  /** If that is so for every condition, the code does what ARM does. */
  lemma {:induction false} DecidedCorrect(p: seq<Inst>, st: State, m: Host, noise: Noise)
    requires AllArithmetic(p) && Matches(st, m) && Arm.AllDecoded(p)
    requires forall j :: 0 <= j < |p| ==> Decided(p, j, st)
    ensures Matches(Arm.Run(p, st), Run(CodeFrom(p, 0, false), m, noise))
  {
    hide Run, CodeFrom, Arm.Run, Matches, Decided, HostAt;
    LiveCarry(p, |p|, st, m, noise);
    ArmAtEnd(p, st);
    HostAtEnd(p, false, m, noise);
  }

  lemma {:induction false} UntaintedEven(p: seq<Inst>, k: nat, st: State)
    requires k <= |p| && Arm.AllDecoded(p) && !Tainted(p, k)
    ensures Flips(p, k, st) == 0
    decreases k
  {
    hide Arm.Passed, Arm.Step;
    if k > 0 {
      if !Guarded(p[k - 1].cond) {
        Unguarded(p[k - 1], ArmAt(p, k - 1, st));
      } else if p[k - 1].s {
        UntaintedEven(p, k - 1, st);
      }
    }
  }

  /** In clean code every condition is decided as ARM does, from every state. */
  lemma {:induction false} CleanDecides(p: seq<Inst>, k: nat, st: State)
    requires k < |p| && Arm.AllDecoded(p) && Clean(p)
    ensures Decided(p, k, st)
  {
    hide Flips, Tainted;
    if !Tainted(p, k) { UntaintedEven(p, k, st); } else { assert !Reads(p[k].cond).c; }
  }

  /** The smallest case: a carry test right after an S-form instruction under HI or LS is decided
      correctly if that instruction was executed and the wrong way round if it was skipped. */
  lemma {:induction false} FlippedCarry(i1: Inst, i2: Inst, st: State, m: Host, noise: Noise)
    requires Arithmetic(i1) && i1.s && Complements(i1.cond) && Matches(st, m)
    requires Arithmetic(i2) && i2.cond in {Arm.CS, Arm.CC}
    ensures Run(CodeFrom([i1, i2], 0, false), m, noise).regs
         == var st1 := Arm.Step(i1, st);
            if Arm.Passed(i2.cond, st1) == Arm.Passed(i1.cond, st)
            then Arm.Execute(i2, st1).regs else st1.regs
  {
    hide Run, InstCode, CodeFrom, HostAt, HeldAt, SavedC, SavedZ, SavedS, SavedO, LowByteOk, Arm.Execute, Flips;
    var p := [i1, i2];
    FirstFlips(p, st);
    var st1, h, m1 := ArmAt(p, 1, st), HeldAt(p, 1, false, st), HostAt(p, 1, false, m, noise);
    forall j | 0 <= j < 1 ensures RightAt(p, j, false, st) {
      RightIsDecided(p, j, st);
    }
    FlagsHeld(p, 1, false, st, m, noise);
    HeldPlain(p, 1, st);
    HostNext(p, 1, false, m, noise);
    HostAtEnd(p, false, m, noise);
    if Arm.Passed(i2.cond, With(st1, h.host)) {
      TakenDone(i2, st1, h, true, false, m1, noise);
    } else {
      PassedOver(i2, st1, h, true, false, m1, noise);
    }
  }

  lemma {:induction false} FirstFlips(p: seq<Inst>, st: State)
    requires |p| == 2 && Arm.AllDecoded(p) && p[0].s && Complements(p[0].cond)
    ensures Decided(p, 0, st) && ArmAt(p, 1, st) == Arm.Step(p[0], st)
    ensures Odd(Flips(p, 1, st)) <==> !Arm.Passed(p[0].cond, st)
  {
    assert ArmAt(p, 0, st) == st && Flips(p, 0, st) == 0;
  }
}
