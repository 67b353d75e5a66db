/**
 Conditional arithmetic compiled with or without the lookahead, exactly: which flags the saved
 word and the host hold in front of every instruction, and when the code does what ARM does.

 The saved flags are those ARM had after the last executed flag writer whose store was not
 dropped. An instruction reads its condition from the host if the one before it wrote flags and
 its own store is kept, from the saved word otherwise; ADC and RRX read the saved carry.
 */
module StoredFlags {
  import opened X86
  import Arm
  import opened Compiler
  import opened CodeEffects
  import opened Tracking
  import opened OperationEffects
  import opened Lowering
  import opened DeadFlags

  // ----- the ARM side -----

  /** ARM's state before instruction `k`. */
  function ArmAt(p: seq<Inst>, k: nat, st: State): State
    requires k <= |p| && Arm.AllDecoded(p)
    decreases k
  {
    if k == 0 then st else Arm.Step(p[k - 1], ArmAt(p, k - 1, st))
  }

  lemma {:induction false} StepsFirst(p: seq<Inst>, k: nat, st: State)
    requires 0 < k <= |p| && Arm.AllDecoded(p)
    ensures ArmAt(p, k, st) == ArmAt(p[1..], k - 1, Arm.Step(p[0], st))
    decreases k
  {
    hide Arm.Step;
    if k > 1 { StepsFirst(p, k - 1, st); }
  }

  lemma {:induction false} ArmAtEnd(p: seq<Inst>, st: State)
    requires Arm.AllDecoded(p)
    ensures ArmAt(p, |p|, st) == Arm.Run(p, st)
    decreases |p|
  {
    hide Arm.Step;
    if |p| > 0 {
      StepsFirst(p, |p|, st);
      ArmAtEnd(p[1..], Arm.Step(p[0], st));
    }
  }

  datatype Flags = Flags(n: bool, z: bool, c: bool, v: bool)

  function FlagsOf(st: State): Flags { Flags(st.n, st.z, st.c, st.v) }

  /** The state with other flags. */
  function With(st: State, f: Flags): State { st.(n := f.n, z := f.z, c := f.c, v := f.v) }

  /** What the saved word and the host hold. */
  datatype Held = Held(saved: Flags, host: Flags)

  /** The flags the guard of an instruction sees. */
  function Seen(h: Held, live: bool, lookahead: bool): Flags { if live && !lookahead then h.host else h.saved }

  function Complemented(f: Flags, cond: Arm.Cond): Flags { f.(c := f.c != Complements(cond)) }

  function After(i: Inst, s: State, h: Held, live: bool, lookahead: bool): Held
    requires i.Decoded()
  {
    if !Arm.Passed(i.cond, s) then Held(h.saved, Complemented(Seen(h, live, lookahead), i.cond))
    else if !i.s then h
    else
      var f := FlagsOf(Arm.Execute(i, s));
      Held(if lookahead then h.saved else f, f)
  }

  /** In front of instruction `k`, from ARM's run alone. */
  function HeldAt(p: seq<Inst>, k: nat, enabled: bool, st: State): Held
    requires k <= |p| && Arm.AllDecoded(p)
    decreases k
  {
    if k == 0 then Held(FlagsOf(st), FlagsOf(st))
    else
      After(p[k - 1], ArmAt(p, k - 1, st), HeldAt(p, k - 1, enabled, st), LiveAt(p, k - 1),
            LookaheadAt(p, k - 1, enabled))
  }

  function SeenAt(p: seq<Inst>, k: nat, enabled: bool, st: State): Flags
    requires k <= |p| && Arm.AllDecoded(p)
  {
    Seen(HeldAt(p, k, enabled, st), LiveAt(p, k), LookaheadAt(p, k, enabled))
  }

  /** The body reads the saved carry. */
  predicate TakesCarry(i: Inst) { i.op == Arm.ADC || i.shift == Arm.RRX }

  /** The flags the instruction sees decide its condition as ARM's do, and if it is executed and
      takes the saved carry, that is ARM's. */
  predicate Right(i: Inst, s: State, h: Held, live: bool, lookahead: bool) {
    && (Arm.Passed(i.cond, With(s, Seen(h, live, lookahead))) <==> Arm.Passed(i.cond, s))
    && (Arm.Passed(i.cond, s) && TakesCarry(i) ==> h.saved.c == s.c)
  }

  predicate RightAt(p: seq<Inst>, k: nat, enabled: bool, st: State)
    requires k < |p| && Arm.AllDecoded(p)
  {
    Right(p[k], ArmAt(p, k, st), HeldAt(p, k, enabled, st), LiveAt(p, k), LookaheadAt(p, k, enabled))
  }

  // ----- one instruction -----

  /** The host has ARM's registers and holds those flags. */
  ghost predicate Holds(s: State, h: Held, live: bool, m: Host) {
    && m.regs == s.regs && LowByteOk(m.saved) && MemAgrees(ALL, With(s, h.saved), m)
    && (live ==> HostAgrees(ALL, With(s, h.host), m))
  }

  function TrackOf(loaded: bool): Track { if loaded then Track(true, ALL, NONE) else ENTRY }

  function PreludeCode(cond: Arm.Cond, live: bool, lookahead: bool): seq<Op> {
    TickCode(lookahead) + GuardCode(cond, live && !lookahead)
  }

  /** At the skip jump. */
  lemma {:induction false} AtJump(i: Inst, s: State, h: Held, live: bool, lookahead: bool, m: Host, noise: Noise)
    requires Guarded(i.cond) && Holds(s, h, live, m)
    ensures var j, seen := Run(PreludeCode(i.cond, live, lookahead), m, noise), Seen(h, live, lookahead);
            && j.regs == m.regs && j.saved == m.saved
            && (Taken(SkipJump(i.cond), j) <==> !Arm.Passed(i.cond, With(s, seen)))
            && HostAgrees(ALL, With(s, Complemented(seen, i.cond)), j)
  {
    hide Run, GuardCode, SavedC, SavedZ, SavedS, SavedO, LowByteOk, Taken, Arm.Passed;
    var loaded, st := live && !lookahead, With(s, Seen(h, live, lookahead));
    RunAppend(TickCode(lookahead), GuardCode(i.cond, loaded), m, noise);
    TickEffect(lookahead, m, noise);
    var m1 := Run(TickCode(lookahead), m, noise);
    GuardEffect(i, TrackOf(loaded), lookahead, st, m1, noise);
    SkipExactly(i, TrackOf(loaded), lookahead, st, m1, Run(GuardCode(i.cond, loaded), m1, noise));
  }

  lemma {:induction false} FromJump(i: Inst, live: bool, lookahead: bool, m: Host, noise: Noise)
    requires Guarded(i.cond)
    ensures var j, body := Run(PreludeCode(i.cond, live, lookahead), m, noise), BodyCode(i, lookahead, true);
            Run(InstCode(i, lookahead, live), m, noise)
            == if Taken(SkipJump(i.cond), j) then Tick(j) else Run(body, Tick(j), noise)
  {
    hide Run, GuardCode, BodyCode, Taken, TickCode;
    var loaded, body := live && !lookahead, BodyCode(i, lookahead, true);
    var jump := [Jump(SkipJump(i.cond), |body|)] + body;
    TickStraight(lookahead);
    GuardStraight(i.cond, loaded);
    JumpsInsideAppend(TickCode(lookahead), GuardCode(i.cond, loaded));
    assert InstCode(i, lookahead, live) == PreludeCode(i.cond, live, lookahead) + jump;
    RunAppend(PreludeCode(i.cond, live, lookahead), jump, m, noise);
    RunSkip(SkipJump(i.cond), body, Run(PreludeCode(i.cond, live, lookahead), m, noise), noise);
  }

  lemma TickStraight(lookahead: bool)
    ensures JumpsInside(TickCode(lookahead))
  {
  }

  /** After an instruction whose body ran. */
  lemma BodyHolds(i: Inst, s: State, h: Held, live: bool, lookahead: bool, m: Host, m': Host)
    requires Arithmetic(i) && Holds(s, h, false, m) && BodyDone(i, s, lookahead, m, m') && Arm.Passed(i.cond, s)
    ensures Holds(Arm.Execute(i, s), After(i, s, h, live, lookahead), i.s, m')
  {
    hide SavedC, SavedZ, SavedS, SavedO, LowByteOk, Arm.Execute, Arm.Passed, Seen;
  }

  lemma BodyStarts(i: Inst, s: State, h: Held, m: Host, loaded: bool)
    requires Arithmetic(i) && Holds(s, h, false, m) && (TakesCarry(i) ==> h.saved.c == s.c)
    ensures BodyReady(i, s, m, loaded)
  {
    hide SavedC, SavedZ, SavedS, SavedO, LowByteOk;
  }

  lemma {:induction false} PlainHolds(i: Inst, s: State, h: Held, live: bool, lookahead: bool, m: Host, noise: Noise)
    requires Arithmetic(i) && Holds(s, h, live, m) && !Guarded(i.cond) && (TakesCarry(i) ==> h.saved.c == s.c)
    ensures Holds(Arm.Execute(i, s), After(i, s, h, live, lookahead), i.s, Run(InstCode(i, lookahead, live), m, noise))
  {
    hide Run, BodyCode, SavedC, SavedZ, SavedS, SavedO, LowByteOk, Arm.Execute, After;
    var body := BodyCode(i, lookahead, live && !lookahead);
    RunAppend(TickCode(lookahead), body, m, noise);
    TickEffect(lookahead, m, noise);
    var m1 := Run(TickCode(lookahead), m, noise);
    BodyStarts(i, s, h, m1, live && !lookahead);
    BodyEffect(i, s, lookahead, m1, live && !lookahead, noise);
    BodyHolds(i, s, h, live, lookahead, m1, Run(body, m1, noise));
  }

  /** The code executes the instruction, as the flags it sees say. */
  lemma {:induction false} TakenDone(i: Inst, s: State, h: Held, live: bool, lookahead: bool, m: Host, noise: Noise)
    requires Arithmetic(i) && Holds(s, h, live, m) && Guarded(i.cond) && (TakesCarry(i) ==> h.saved.c == s.c)
    requires Arm.Passed(i.cond, With(s, Seen(h, live, lookahead)))
    ensures var m' := Run(InstCode(i, lookahead, live), m, noise);
            m'.regs == Arm.Execute(i, s).regs && BodyDone(i, s, lookahead, m, m')
  {
    hide Run, BodyCode, PreludeCode, InstCode, SavedC, SavedZ, SavedS, SavedO, LowByteOk, Arm.Execute, Arm.Passed;
    hide Taken, Complemented;
    AtJump(i, s, h, live, lookahead, m, noise);
    FromJump(i, live, lookahead, m, noise);
    var j := Run(PreludeCode(i.cond, live, lookahead), m, noise);
    BodyStarts(i, s, h, Tick(j), true);
    BodyEffect(i, s, lookahead, Tick(j), true, noise);
  }

  /** The code skips the instruction, as the flags it sees say. */
  lemma {:induction false} PassedOver(i: Inst, s: State, h: Held, live: bool, lookahead: bool, m: Host, noise: Noise)
    requires Arithmetic(i) && Holds(s, h, live, m) && Guarded(i.cond)
    requires !Arm.Passed(i.cond, With(s, Seen(h, live, lookahead)))
    ensures var h' := Held(h.saved, Complemented(Seen(h, live, lookahead), i.cond));
            Holds(s, h', i.s, Run(InstCode(i, lookahead, live), m, noise))
  {
    hide Run, PreludeCode, InstCode, SavedC, SavedZ, SavedS, SavedO, LowByteOk, Arm.Passed, Taken, Complemented;
    AtJump(i, s, h, live, lookahead, m, noise);
    FromJump(i, live, lookahead, m, noise);
  }

  /** One instruction that finds the right flags. */
  lemma {:induction false} StepHolds(i: Inst, s: State, h: Held, live: bool, lookahead: bool, m: Host, noise: Noise)
    requires Arithmetic(i) && Holds(s, h, live, m) && Right(i, s, h, live, lookahead)
    ensures Holds(Arm.Step(i, s), After(i, s, h, live, lookahead), i.s, Run(InstCode(i, lookahead, live), m, noise))
  {
    hide Run, InstCode, SavedC, SavedZ, SavedS, SavedO, LowByteOk, Arm.Execute, Arm.Passed, Seen, BodyDone;
    hide Complemented;
    if !Guarded(i.cond) {
      Unguarded(i, s);
      PlainHolds(i, s, h, live, lookahead, m, noise);
    } else if Arm.Passed(i.cond, s) {
      TakenDone(i, s, h, live, lookahead, m, noise);
      BodyHolds(i, s, h, live, lookahead, m, Run(InstCode(i, lookahead, live), m, noise));
    } else {
      PassedOver(i, s, h, live, lookahead, m, noise);
    }
  }

  lemma Unguarded(i: Inst, st: State)
    requires !Guarded(i.cond)
    ensures Arm.Passed(i.cond, st)
  {
  }

  // ----- a list -----

  /** The host before instruction `k`. */
  ghost function HostAt(p: seq<Inst>, k: nat, enabled: bool, m: Host, noise: Noise): Host
    requires k <= |p|
  {
    Run(CodeUpTo(p, k, enabled), m, noise)
  }

  lemma {:induction false} CodeStraight(p: seq<Inst>, k: nat, enabled: bool)
    requires k <= |p|
    ensures JumpsInside(CodeUpTo(p, k, enabled))
    decreases k
  {
    hide InstCode, JumpsInside, LookaheadAt, LiveAt;
    if k > 0 {
      var la, live := LookaheadAt(p, k - 1, enabled), LiveAt(p, k - 1);
      CodeStraight(p, k - 1, enabled);
      InstStraight(p[k - 1], la, live);
      JumpsInsideAppend(CodeUpTo(p, k - 1, enabled), InstCode(p[k - 1], la, live));
    } else {
      NoJumps();
    }
  }

  lemma NoJumps()
    ensures JumpsInside([])
  {
  }

  lemma {:induction false} HostNext(p: seq<Inst>, k: nat, enabled: bool, m: Host, noise: Noise)
    requires k < |p|
    ensures HostAt(p, k + 1, enabled, m, noise)
         == Run(InstCode(p[k], LookaheadAt(p, k, enabled), LiveAt(p, k)), HostAt(p, k, enabled, m, noise), noise)
  {
    hide Run, InstCode, CodeUpTo, LookaheadAt, LiveAt;
    CodeStraight(p, k, enabled);
    CodeUpToNext(p, k, enabled);
    RunAppend(CodeUpTo(p, k, enabled), InstCode(p[k], LookaheadAt(p, k, enabled), LiveAt(p, k)), m, noise);
  }

  lemma {:induction false} HostAtEnd(p: seq<Inst>, enabled: bool, m: Host, noise: Noise)
    ensures HostAt(p, |p|, enabled, m, noise) == Run(CodeFrom(p, 0, enabled), m, noise)
  {
    hide Run, CodeUpTo, CodeFrom;
    CodeSplit(p, |p|, enabled);
    NothingLeft(p, enabled);
  }

  lemma {:induction false} NothingLeft(p: seq<Inst>, enabled: bool)
    ensures CodeUpTo(p, |p|, enabled) + CodeFrom(p, |p|, enabled) == CodeUpTo(p, |p|, enabled)
  {
    assert CodeFrom(p, |p|, enabled) == [];
  }

  /** While every instruction so far found the right flags, registers are ARM's and the saved word
      and the host hold what `HeldAt` says. */
  lemma {:induction false} FlagsHeld(p: seq<Inst>, k: nat, enabled: bool, st: State, m: Host, noise: Noise)
    requires AllArithmetic(p) && k <= |p| && Matches(st, m) && Arm.AllDecoded(p)
    requires forall j :: 0 <= j < k ==> RightAt(p, j, enabled, st)
    ensures Holds(ArmAt(p, k, st), HeldAt(p, k, enabled, st), LiveAt(p, k), HostAt(p, k, enabled, m, noise))
    decreases k
  {
    hide Run, InstCode, Arm.Step, After, Right, SavedC, SavedZ, SavedS, SavedO, LowByteOk, LookaheadAt;
    if k == 0 {
      RunNothing(m, noise);
    } else {
      FlagsHeld(p, k - 1, enabled, st, m, noise);
      HostNext(p, k - 1, enabled, m, noise);
      assert RightAt(p, k - 1, enabled, st);
      StepHolds(p[k - 1], ArmAt(p, k - 1, st), HeldAt(p, k - 1, enabled, st), LiveAt(p, k - 1),
                LookaheadAt(p, k - 1, enabled), HostAt(p, k - 1, enabled, m, noise), noise);
    }
  }

  /** The code skips instruction `k`. */
  ghost predicate HostSkips(p: seq<Inst>, k: nat, enabled: bool, m: Host, noise: Noise)
    requires k < |p|
  {
    Taken(SkipJump(p[k].cond),
          Run(PreludeCode(p[k].cond, LiveAt(p, k), LookaheadAt(p, k, enabled)), HostAt(p, k, enabled, m, noise), noise))
  }

  /** The code skips instruction `k` if ARM does, and if ARM executes it, takes ARM's carry. */
  ghost predicate HostRight(p: seq<Inst>, k: nat, enabled: bool, st: State, m: Host, noise: Noise)
    requires k < |p| && Arm.AllDecoded(p)
  {
    var s := ArmAt(p, k, st);
    && (Guarded(p[k].cond) ==> (HostSkips(p, k, enabled, m, noise) <==> !Arm.Passed(p[k].cond, s)))
    && (Arm.Passed(p[k].cond, s) && TakesCarry(p[k]) ==> SavedC(HostAt(p, k, enabled, m, noise).saved) == s.c)
  }

  /** The next instruction is decided and fed as ARM does exactly when it finds the right flags. */
  lemma {:induction false} NextExactly(p: seq<Inst>, k: nat, enabled: bool, st: State, m: Host, noise: Noise)
    requires AllArithmetic(p) && k < |p| && Matches(st, m) && Arm.AllDecoded(p)
    requires forall j :: 0 <= j < k ==> RightAt(p, j, enabled, st)
    ensures HostRight(p, k, enabled, st, m, noise) <==> RightAt(p, k, enabled, st)
    ensures Guarded(p[k].cond) ==>
              (HostSkips(p, k, enabled, m, noise)
               <==> !Arm.Passed(p[k].cond, With(ArmAt(p, k, st), SeenAt(p, k, enabled, st))))
  {
    hide Run, PreludeCode, HostAt, Arm.Passed, Taken, HeldAt, ArmAt, LookaheadAt, Seen, Complemented, LowByteOk;
    hide SavedC, SavedZ, SavedS, SavedO;
    FlagsHeld(p, k, enabled, st, m, noise);
    var s, h, live, la := ArmAt(p, k, st), HeldAt(p, k, enabled, st), LiveAt(p, k), LookaheadAt(p, k, enabled);
    if Guarded(p[k].cond) {
      AtJump(p[k], s, h, live, la, HostAt(p, k, enabled, m, noise), noise);
    } else {
      Unguarded(p[k], s);
      Unguarded(p[k], With(s, Seen(h, live, la)));
    }
  }

  ghost predicate AllHostRight(p: seq<Inst>, enabled: bool, st: State, m: Host, noise: Noise)
    requires Arm.AllDecoded(p)
  {
    forall k :: 0 <= k < |p| ==> HostRight(p, k, enabled, st, m, noise)
  }

  predicate AllRight(p: seq<Inst>, enabled: bool, st: State)
    requires Arm.AllDecoded(p)
  {
    forall k :: 0 <= k < |p| ==> RightAt(p, k, enabled, st)
  }

  lemma {:induction false} RightUpTo(p: seq<Inst>, k: nat, enabled: bool, st: State, m: Host, noise: Noise)
    requires AllArithmetic(p) && k <= |p| && Matches(st, m) && Arm.AllDecoded(p)
    requires AllHostRight(p, enabled, st, m, noise)
    ensures forall j :: 0 <= j < k ==> RightAt(p, j, enabled, st)
    decreases k
  {
    hide HostRight, RightAt, Matches, HostSkips, Arm.Passed;
    if k > 0 {
      RightUpTo(p, k - 1, enabled, st, m, noise);
      NextExactly(p, k - 1, enabled, st, m, noise);
    }
  }

  /** The code does at every instruction what ARM does if and only if, on ARM's run, every
      instruction would find the right flags. */
  lemma {:induction false} RunExactly(p: seq<Inst>, enabled: bool, st: State, m: Host, noise: Noise)
    requires AllArithmetic(p) && Matches(st, m) && Arm.AllDecoded(p)
    ensures AllHostRight(p, enabled, st, m, noise) <==> AllRight(p, enabled, st)
  {
    hide HostRight, RightAt, Matches, HostSkips, Arm.Passed;
    if AllHostRight(p, enabled, st, m, noise) { RightUpTo(p, |p|, enabled, st, m, noise); }
    if AllRight(p, enabled, st) {
      forall k | 0 <= k < |p| ensures HostRight(p, k, enabled, st, m, noise) {
        NextExactly(p, k, enabled, st, m, noise);
      }
    }
  }

  /** Then it ends with ARM's registers, and with ARM's saved flags if and only if those of the
      last store that was not dropped are ARM's last. */
  lemma {:induction false} EndExactly(p: seq<Inst>, enabled: bool, st: State, m: Host, noise: Noise)
    requires AllArithmetic(p) && Matches(st, m) && Arm.AllDecoded(p) && AllRight(p, enabled, st)
    ensures var s, m' := Arm.Run(p, st), Run(CodeFrom(p, 0, enabled), m, noise);
            && m'.regs == s.regs
            && (Matches(s, m') <==> HeldAt(p, |p|, enabled, st).saved == FlagsOf(s))
  {
    hide Run, CodeFrom, HostAt, Arm.Run, HeldAt, RightAt, SavedC, SavedZ, SavedS, SavedO, LowByteOk;
    FlagsHeld(p, |p|, enabled, st, m, noise);
    ArmAtEnd(p, st);
    HostAtEnd(p, enabled, m, noise);
  }

  /** Both together. */
  lemma {:induction false} CorrectExactly(p: seq<Inst>, enabled: bool, st: State, m: Host, noise: Noise)
    requires AllArithmetic(p) && Matches(st, m) && Arm.AllDecoded(p)
    ensures AllHostRight(p, enabled, st, m, noise) && Matches(Arm.Run(p, st), Run(CodeFrom(p, 0, enabled), m, noise))
       <==> AllRight(p, enabled, st) && HeldAt(p, |p|, enabled, st).saved == FlagsOf(Arm.Run(p, st))
  {
    hide Run, CodeFrom, Arm.Run, HeldAt, AllHostRight, AllRight, Matches;
    RunExactly(p, enabled, st, m, noise);
    if AllRight(p, enabled, st) { EndExactly(p, enabled, st, m, noise); }
  }

  // ----- the smallest cases of a lost store -----

  predicate SameFlags(a: State, b: State) {
    a.n == b.n && a.z == b.z && a.c == b.c && a.v == b.v
  }

  lemma {:induction false} DroppedHeld(p: seq<Inst>, st: State)
    requires |p| >= 2 && AllArithmetic(p) && Arm.AllDecoded(p) && p[0].s && p[0].cond == Arm.AL && Overwrites(p[1])
    ensures var st1 := Arm.Execute(p[0], st);
            && ArmAt(p, 1, st) == st1 && HeldAt(p, 1, true, st) == Held(FlagsOf(st), FlagsOf(st1))
            && RightAt(p, 0, true, st)
  {
    hide Arm.Execute;
    assert ArmAt(p, 0, st) == st && HeldAt(p, 0, true, st) == Held(FlagsOf(st), FlagsOf(st));
  }

  lemma {:induction false} ThenHeld(p: seq<Inst>, st: State)
    requires |p| >= 2 && AllArithmetic(p) && Arm.AllDecoded(p) && p[0].s && p[0].cond == Arm.AL && Overwrites(p[1])
    requires !LookaheadAt(p, 1, true)
    ensures var st1 := Arm.Execute(p[0], st);
            && ArmAt(p, 2, st) == Arm.Step(p[1], st1) && RightAt(p, 1, true, st)
            && HeldAt(p, 2, true, st).saved
               == if Arm.Passed(p[1].cond, st1) then FlagsOf(Arm.Step(p[1], st1)) else FlagsOf(st)
  {
    hide Arm.Execute, Arm.Passed;
    DroppedHeld(p, st);
    var st1 := Arm.Execute(p[0], st);
    assert With(st1, FlagsOf(st1)) == st1;
  }

  /** The lookahead does not look at the condition of the next instruction: a store dropped in
      front of a conditional overwriter is lost exactly when that instruction is skipped and
      the lost flags differ from the ones saved before. */
  lemma {:induction false} LostStore(i1: Inst, i2: Inst, st: State, m: Host, noise: Noise)
    requires Arithmetic(i1) && i1.s && i1.cond == Arm.AL && Matches(st, m)
    requires Arithmetic(i2) && Overwrites(i2)
    ensures var st1 := Arm.Execute(i1, st);
            (Matches(Arm.Step(i2, st1), Run(CodeFrom([i1, i2], 0, true), m, noise))
             <==> Arm.Passed(i2.cond, st1) || SameFlags(st, st1))
  {
    hide Run, CodeFrom, Arm.Execute, Arm.Passed, Arm.Run, ArmAt, HeldAt, RightAt, Matches;
    var p := [i1, i2];
    DroppedHeld(p, st);
    ThenHeld(p, st);
    ArmAtEnd(p, st);
    EndExactly(p, true, st, m, noise);
  }

  /** CMP R0, R0; CMPNE R0, R0; ADC R1, R1, R1. */
  const COMPARE := Arm.Inst(Arm.CMP, Arm.AL, true, 0, 0, 0, Arm.LSL, 0)
  const COMPARE_NE := Arm.Inst(Arm.CMP, Arm.NE, true, 0, 0, 0, Arm.LSL, 0)
  const ADD_CARRY := Arm.Inst(Arm.ADC, Arm.AL, false, 1, 1, 1, Arm.LSL, 0)

  lemma CompareSelf(st: State)
    ensures Arm.Execute(COMPARE, st) == st.(n := false, z := true, c := true, v := false)
  {
    SelfCompared(st.regs[0]);
    assert Arm.Operand(COMPARE, st.regs[0], st.c) == st.regs[0];
  }

  lemma SelfCompared(x: bv32)
    ensures Lsl(x, 0) == x && Minus(x, x) == 0 && !Msb(0) && !BorrowFrom(x, x, false) && !OverflowSub(x, x, false)
  {
  }

  lemma AdcMatters(a: bv32)
    ensures Arm.Result(Arm.ADC, a, a, true) != Arm.Result(Arm.ADC, a, a, false)
  {
  }

  lemma {:induction false} ArmTwo(i1: Inst, i2: Inst, st: State)
    requires i1.Decoded() && i2.Decoded()
    ensures Arm.AllDecoded([i1, i2]) && Arm.Run([i1, i2], st) == Arm.Step(i2, Arm.Step(i1, st))
  {
    hide Arm.Step, Arm.Run;
    var p := [i1, i2];
    assert p[0] == i1 && p[1] == i2;
    assert ArmAt(p, 1, st) == Arm.Step(i1, ArmAt(p, 0, st));
    ArmAtEnd(p, st);
  }

  /** A lost store: the saved flags stay those the page was entered with, and are ARM's only if
      those were the comparison's already. */
  lemma {:induction false} LosesStore(st: State, m: Host, noise: Noise)
    requires Matches(st, m)
    ensures var p := [COMPARE, COMPARE_NE];
            && Arm.AllDecoded(p)
            && (Matches(Arm.Run(p, st), Run(CodeFrom(p, 0, true), m, noise))
                <==> FlagsOf(st) == Flags(false, true, true, false))
  {
    hide Run, CodeFrom, Arm.Execute, Matches, Arm.Run;
    CompareSelf(st);
    ArmTwo(COMPARE, COMPARE_NE, st);
    LostStore(COMPARE, COMPARE_NE, st, m, noise);
  }

  lemma CarryTaken(s: State, c: bool)
    ensures Arm.Execute(ADD_CARRY, s.(c := c)).regs == Arm.Execute(ADD_CARRY, s).regs <==> c == s.c
  {
    var a := s.regs[1];
    SelfCompared(a);
    assert Arm.Operand(ADD_CARRY, a, c) == a && Arm.Operand(ADD_CARRY, a, s.c) == a;
    hide Arm.Result, Arm.Operand;
    AdcMatters(a);
    assert Arm.Execute(ADD_CARRY, s.(c := c)).regs[1] == Arm.Result(Arm.ADC, a, a, c);
    assert Arm.Execute(ADD_CARRY, s).regs[1] == Arm.Result(Arm.ADC, a, a, s.c);
  }

  /** The ADC takes the saved carry. */
  lemma {:induction false} AdcFrom(s: State, h: Held, live: bool, m: Host, noise: Noise)
    requires Holds(s, h, live, m)
    ensures Run(InstCode(ADD_CARRY, false, live), m, noise).regs == Arm.Execute(ADD_CARRY, s).regs <==> h.saved.c == s.c
  {
    hide Run, InstCode, Arm.Execute, SavedC, SavedZ, SavedS, SavedO, LowByteOk;
    PlainHolds(ADD_CARRY, With(s, h.saved), h, live, false, m, noise);
    CarryTaken(s, h.saved.c);
    FlagsUnread(s, h.saved);
  }

  /** In front of the third instruction. */
  lemma {:induction false} AfterCompares(st: State)
    ensures var p, st1 := [COMPARE, COMPARE_NE, ADD_CARRY], Arm.Execute(COMPARE, st);
            && AllArithmetic(p) && Arm.AllDecoded(p) && RightAt(p, 0, true, st) && RightAt(p, 1, true, st)
            && ArmAt(p, 2, st) == st1 && HeldAt(p, 2, true, st).saved == FlagsOf(st)
            && st1.c && ArmAt(p, 3, st) == Arm.Execute(ADD_CARRY, st1)
  {
    hide Arm.Execute, RightAt, HeldAt;
    var p := [COMPARE, COMPARE_NE, ADD_CARRY];
    CompareSelf(st);
    DroppedHeld(p, st);
    ThenHeld(p, st);
    assert ArmAt(p, 3, st) == Arm.Step(p[2], ArmAt(p, 2, st));
  }

  /** An ADC after a lost store adds the carry the page was entered with. */
  lemma {:induction false} LosesCarry(st: State, m: Host, noise: Noise)
    requires Matches(st, m)
    ensures var p := [COMPARE, COMPARE_NE, ADD_CARRY];
            && Arm.AllDecoded(p)
            && (Run(CodeFrom(p, 0, true), m, noise).regs == Arm.Run(p, st).regs <==> st.c)
  {
    hide Run, CodeFrom, Arm.Execute, Arm.Run, ArmAt, HeldAt, RightAt, HostAt, InstCode, Matches, Holds;
    var p := [COMPARE, COMPARE_NE, ADD_CARRY];
    AfterCompares(st);
    FlagsHeld(p, 2, true, st, m, noise);
    AdcFrom(ArmAt(p, 2, st), HeldAt(p, 2, true, st), true, HostAt(p, 2, true, m, noise), noise);
    HostNext(p, 2, true, m, noise);
    HostAtEnd(p, true, m, noise);
    ArmAtEnd(p, st);
  }

  lemma FlagsUnread(s: State, f: Flags)
    ensures Arm.Execute(ADD_CARRY, With(s, f)).regs == Arm.Execute(ADD_CARRY, s.(c := f.c)).regs
  {
  }
}
