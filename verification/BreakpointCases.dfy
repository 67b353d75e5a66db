/**
 Two runs from the start in which no two used breakpoints are ever on one byte and the code can
 still not be restored, or a breakpoint not be found. Compiled code is one-byte instructions here.
 */
module BreakpointCases {
  import opened Types
  import opened Breakpoint
  import opened BreakpointProof
  import opened BreakpointRecompile
  import opened BreakpointRuns

  // ----- one-byte instructions -----

  function Ones(n: nat): seq<nat> { seq(n, _ => 1) }

  const Bytewise: Decoder := (bytes: seq<Byte>) => Some(Ones(|bytes|))

  lemma {:induction false} SumOfOnes(n: nat)
    ensures Sum(Ones(n)) == n
    decreases n
  {
    if n > 0 {
      SumOfOnes(n - 1);
      assert Ones(n)[..n - 1] == Ones(n - 1);
    }
  }

  lemma BytewiseOk()
    ensures DecoderOk(Bytewise)
  {
    forall bytes | Bytewise(bytes).Some?
      ensures var sizes := Bytewise(bytes).value; Sum(sizes) <= |bytes| && forall k :: 0 <= k < |sizes| ==> sizes[k] > 0
    {
      SumOfOnes(|bytes|);
    }
  }

  /** Every byte of the instruction is a spot, whatever is on it. */
  lemma BytewiseSpots(s: State, a: nat, k: nat)
    requires MemoryOk(s) && a / PAGE in s.blocks
    ensures var from, to := From(s.blocks[a / PAGE], s.width, a), To(s.blocks[a / PAGE], s.width, a);
            && |SpotsAt(Bytewise, s, a)| == Min(to - from, LINES)
            && (k < |SpotsAt(Bytewise, s, a)| ==> SpotsAt(Bytewise, s, a)[k] == from + k)
  {
    CodeInHost(s, a);
    hide MemoryOk, From, To;
    var from, to := From(s.blocks[a / PAGE], s.width, a), To(s.blocks[a / PAGE], s.width, a);
    if k < |SpotsAt(Bytewise, s, a)| {
      assert Ones(to - from)[..k] == Ones(k);
      SumOfOnes(k);
    }
  }

  // ----- a single step keeps the patch byte -----

  /** The instruction at `a` has at least two bytes, from `p`, and the first is not the patch
      byte. */
  ghost predicate Where(s: State, a: nat, p: nat) {
    && MemoryOk(s) && a / PAGE in s.blocks && p == From(s.blocks[a / PAGE], s.width, a)
    && p + 2 <= To(s.blocks[a / PAGE], s.width, a) && p in s.pristine && s.pristine[p] != DEBUG_BREAK
  }

  lemma WhereSame(s: State, r: State, a: nat, p: nat)
    requires Where(s, a, p) && SameMemory(s, r)
    ensures Where(r, a, p)
  {
    CodeSameBut(s, r);
  }

  lemma WhereSpots(s: State, a: nat, p: nat)
    requires Where(s, a, p)
    ensures var sp := SpotsAt(Bytewise, s, a); |sp| >= 2 && sp[0] == p && sp[1] == p + 1
  {
    BytewiseSpots(s, a, 0);
    BytewiseSpots(s, a, 1);
  }

  /** One breakpoint at `a`, on its first byte. */
  predicate OnlyFirst(s: State, a: nat, p: nat) {
    && Regular(a) in s.data && s.data[Regular(a)][0].used && s.data[Regular(a)][0].pos == p
    && (forall k :: 1 <= k < LINES ==> !s.data[Regular(a)][k].used)
  }

  lemma {:induction false} OffIdle(s: State, n: nat)
    requires Stepper(0) in s.data && Stepper(1) in s.data && n <= LINES
    requires Unused(s, Stepper(0)) && Unused(s, Stepper(1))
    ensures StepsOffTo(s, n) == s
    decreases n
  {
    hide Toggle, SameCode;
    if n > 0 { OffIdle(s, n - 1); }
  }

  lemma OffIsIdle(s: State)
    requires NoSteps(s)
    ensures StepsOff(s) == s
  {
    hide Good, MemoryOk, ShapeOk;
    OffIdle(s, |s.data[Stepper(0)]|);
  }

  /** A line that is enabled, spelled out. */
  lemma Enabled(u: State, id: Id, p: nat)
    requires Has(u, id) && !Get(u, id).used && !Get(u, id).patched && Get(u, id).pos == p && p in u.host && p != 0
    ensures var r, i := Toggle(u, id), Get(u, id).(used := true, patched := true);
            && r.dt == u.dt[p := id] && r.host == u.host[p := DEBUG_BREAK]
            && r.data[id.owner] == u.data[id.owner][id.sub := i]
            && (forall o :: o in u.data && o != id.owner ==> r.data[o] == u.data[o])
  {
  }

  lemma Disabled(u: State, id: Id, p: nat)
    requires Has(u, id) && Get(u, id).used && Get(u, id).patched && Get(u, id).pos == p && p != 0
    ensures var r, i := Toggle(u, id), Get(u, id).(used := false, patched := false);
            && r.dt == u.dt - {p} && r.data[id.owner] == u.data[id.owner][id.sub := i]
            && (forall o :: o in u.data && o != id.owner ==> r.data[o] == u.data[o])
  {
  }

  /** The first two lines of an owner that is decoded at `p`. */
  lemma Decoded(t: State, o: Owner, p: nat)
    requires o in t.data && Unused(t, o) && Where(t, AddrOf(t, o), p) && DecoderOk(Bytewise)
    ensures MemoryOk(t)
    ensures var u := Update(Bytewise, t, o);
            && u.data[o][0].(original := 0) == Info(false, false, p, 0)
            && u.data[o][1].(original := 0) == Info(false, false, p + 1, 0)
            && p != 0 && p in t.host && p + 1 in t.host && u.data[o][0].original == t.host[p]
            && Unused(u, o)
  {
    WhereSpots(t, AddrOf(t, o), p);
    KeysAgree(t);
    hide MemoryOk, DecoderOk, Update, Where, SpotsAt, SameCode;
    var u := Update(Bytewise, t, o);
    UpdateLine(Bytewise, t, o, 0);
    UpdateLine(Bytewise, t, o, 1);
    forall k | 0 <= k < LINES ensures !u.data[o][k].used {
      UpdateLine(Bytewise, t, o, k);
    }
  }

  lemma NothingMoved(t: State, o: Owner, p: nat)
    requires MemoryOk(t) && o in t.data && Unused(t, o) && Unpatched(t, o) && DecoderOk(Bytewise)
    ensures SameAt(t, Update(Bytewise, t, o), p)
  {
    hide MemoryOk, DecoderOk, Update, SpotsAt, SameCode;
    UpdateMiss(Bytewise, t, o, p);
  }

  lemma OthersKept(t: State, o: Owner, q: Owner)
    requires MemoryOk(t) && DecoderOk(Bytewise) && o in t.data && q in t.data && q != o
    ensures q in Update(Bytewise, t, o).data && Update(Bytewise, t, o).data[q] == t.data[q]
  {
    hide MemoryOk, DecoderOk, Update;
    var u := Update(Bytewise, t, o);
    forall k | 0 <= k < LINES ensures q in u.data && u.data[q][k] == t.data[q][k] {
      UpdateOther(Bytewise, t, o, Id(q, k));
    }
    assert u.data[q] == t.data[q];
  }

  lemma AddedUnpatched(s: State, a: nat, p: nat)
    requires Where(s, a, p)
    ensures var t := Added(s, a);
            && Regular(a) in t.data && Unpatched(t, Regular(a)) && Unused(t, Regular(a)) && Where(t, a, p)
            && MemoryOk(t) && t.dt == s.dt && t.host == s.host
  {
    WhereSame(s, Added(s, a), a, p);
  }

  /** The lines of a new owner before one is enabled. */
  ghost predicate Fresh(u: State, o: Owner, p: nat) {
    && o in u.data && Unused(u, o) && !u.data[o][0].patched && u.data[o][0].pos == p
    && p != 0 && p in u.host && p !in u.dt && p + 1 !in u.dt
  }

  lemma NewLines(t: State, o: Owner, p: nat)
    requires Where(t, AddrOf(t, o), p) && MemoryOk(t) && DecoderOk(Bytewise) && o in t.data
    requires Unused(t, o) && Unpatched(t, o) && p !in t.dt && p + 1 !in t.dt
    ensures Fresh(Update(Bytewise, t, o), o, p)
  {
    Decoded(t, o, p);
    hide MemoryOk, DecoderOk, Update, Where, SpotsAt, Unpatched, Unused;
    NothingMoved(t, o, p);
    NothingMoved(t, o, p + 1);
  }

  lemma NewOwner(s: State, a: nat, p: nat)
    requires NoSteps(s) && Where(s, a, p) && DecoderOk(Bytewise) && Regular(a) !in s.data
    requires p !in s.dt && p + 1 !in s.dt
    ensures MemoryOk(s) && MemoryOk(Added(s, a))
    ensures var u := Update(Bytewise, Added(s, a), Regular(a));
            Fresh(u, Regular(a), p) && Good(u) && CanEnable(u, Id(Regular(a), 0))
  {
    var t, o := Added(s, a), Regular(a);
    AddedUnpatched(s, a, p);
    WhereSpots(s, a, p);
    hide Good, MemoryOk, ShapeOk, DecoderOk, Update, Where, SpotsAt, CanEnable, ByteFree, Unpatched, Unused, Fresh;
    NewLines(t, o, p);
    hide Added;
    ToggleNew(Bytewise, s, a, 0);
  }

  /** `toggle(a, 0)`, the first breakpoint of its address. */
  lemma FirstToggle(s: State, a: nat, p: nat)
    requires NoSteps(s) && Where(s, a, p) && DecoderOk(Bytewise) && Regular(a) !in s.data
    requires p !in s.dt && p + 1 !in s.dt
    ensures var r := ToggleAt(Bytewise, s, a, 0);
            Good(r) && OnlyFirst(r, a, p) && p in r.dt && p in r.host && r.host[p] == DEBUG_BREAK && p + 1 !in r.dt
  {
    var o := Regular(a);
    NewOwner(s, a, p);
    hide Good, NoSteps, MemoryOk, DecoderOk, Update, Where, SameCode, Added;
    FirstEnabled(Update(Bytewise, Added(s, a), o), a, p);
  }

  lemma FirstEnabled(u: State, a: nat, p: nat)
    requires Fresh(u, Regular(a), p) && Good(u) && CanEnable(u, Id(Regular(a), 0))
    ensures var r := Toggle(u, Id(Regular(a), 0));
            Good(r) && OnlyFirst(r, a, p) && p in r.dt && p in r.host && r.host[p] == DEBUG_BREAK && p + 1 !in r.dt
  {
    var id := Id(Regular(a), 0);
    hide Good, CanEnable, Toggle;
    Enabled(u, id, p);
    ToggleGood(u, id);
  }

  lemma ToggleOthers(s: State, a: nat, o: Owner)
    requires MemoryOk(s) && DecoderOk(Bytewise) && o in s.data && o != Regular(a)
    ensures var r := ToggleAt(Bytewise, s, a, 0); o in r.data && r.data[o] == s.data[o]
  {
    hide MemoryOk, DecoderOk, Update, Toggle, SameCode, AnyUsed;
    if Regular(a) in s.data {
      ToggleOthersKept(s, Id(Regular(a), 0), o);
    } else {
      CodeSameBut(s, Added(s, a));
      OthersKept(Added(s, a), Regular(a), o);
      ToggleOthersKept(Update(Bytewise, Added(s, a), Regular(a)), Id(Regular(a), 0), o);
    }
  }

  lemma ToggleOthersKept(s: State, id: Id, o: Owner)
    requires Has(s, id) && o in s.data && o != id.owner
    ensures o in Toggle(s, id).data && Toggle(s, id).data[o] == s.data[o]
  {
  }

  lemma ToggleMemory(s: State, a: nat)
    requires MemoryOk(s) && DecoderOk(Bytewise)
    ensures SameMemory(s, ToggleAt(Bytewise, s, a, 0)) && ToggleAt(Bytewise, s, a, 0).steps == s.steps
  {
  }

  /** The first single-step line has kept the patch byte. */
  predicate HasKept(s: State, a: nat, p: nat) {
    && |s.steps| == 2 && s.steps[0] == a && Stepper(0) in s.data
    && var i := s.data[Stepper(0)][0]; !i.used && i.pos == p && i.original == DEBUG_BREAK
  }

  lemma SteppedAt(s: State, a: nat, p: nat)
    requires NoSteps(s) && Where(s, a, p) && DecoderOk(Bytewise) && s.steps[0] != a
    requires p in s.host && s.host[p] == DEBUG_BREAK
    ensures var u := FirstStep(Bytewise, s, a, 1); HasKept(u, a, p) && SameMemory(s, u)
  {
    var t, id := s.(steps := s.steps[0 := a]), Id(Stepper(0), 1);
    WhereSame(s, t, a, p);
    Decoded(t, Stepper(0), p);
    hide Good, MemoryOk, ShapeOk, DecoderOk, Update, Where, Toggle, Unused;
    var q := Update(Bytewise, t, Stepper(0));
    assert q == Aim(Bytewise, s, 0, a);
    ToggleFrame(q, id, Id(Stepper(0), 0));
    ToggleKeeps(q, id, Id(Stepper(0), 0));
    assert Get(q, Id(Stepper(0), 0)) == q.data[Stepper(0)][0];
  }

  lemma OneStep(s: State, a: nat, sub: nat)
    requires NoSteps(s) && DecoderOk(Bytewise) && sub < LINES
    ensures Onetime(Bytewise, s, a, sub, 0, 0, 1) == FirstStep(Bytewise, s, a, sub)
    ensures OnetimeAllowed(Bytewise, s, a, sub, 0, 0, 1) <==> CanStep(Bytewise, s, 0, a, sub)
  {
    hide Good, MemoryOk, ShapeOk, DecoderOk, StepsOff, FirstStep, CanStep, Unused;
    OffIsIdle(s);
    OnetimeCases(Bytewise, s, a, sub, 0, 0, 1);
  }

  /** `set_onetime(a, 1, ...)` while the first byte is patched. */
  lemma StepOverPatch(s: State, a: nat, p: nat)
    requires NoSteps(s) && Where(s, a, p) && DecoderOk(Bytewise) && s.steps[0] != a
    requires p in s.host && s.host[p] == DEBUG_BREAK && p + 1 !in s.dt
    ensures var r := Onetime(Bytewise, s, a, 1, 0, 0, 1); Good(r) && HasKept(r, a, p) && SameMemory(s, r)
  {
    SteppedAt(s, a, p);
    WhereSpots(s, a, p);
    OneStep(s, a, 1);
    hide Good, MemoryOk, ShapeOk, DecoderOk, FirstStep, Where, SpotsAt, OnetimeAllowed, Onetime, Unused;
    OnetimeExactly(Bytewise, s, a, 1, 0, 0, 1);
  }

  /** `unset_onetime`: what was kept stays. */
  lemma OffKeeps(s: State, a: nat, p: nat)
    requires Good(s) && HasKept(s, a, p) && Stepper(1) in s.data
    ensures var r := StepsOff(s); NoSteps(r) && HasKept(r, a, p) && SameMemory(s, r)
  {
    hide Good, StepsOffTo;
    StepsAreOff(s);
    StepsOffKeeps(s, |s.data[Stepper(0)]|, Id(Stepper(0), 0));
    StepsOffToGet(s, |s.data[Stepper(0)]|, Id(Stepper(0), 0));
  }

  lemma AimOthers(s: State, a: nat, o: Owner)
    requires MemoryOk(s) && DecoderOk(Bytewise) && |s.steps| == 2 && Stepper(0) in s.data
    requires o in s.data && o != Stepper(0)
    ensures o in Aim(Bytewise, s, 0, a).data && Aim(Bytewise, s, 0, a).data[o] == s.data[o]
  {
    hide MemoryOk, DecoderOk, Update;
    if s.steps[0] != a {
      CodeSameBut(s, s.(steps := s.steps[0 := a]));
      OthersKept(s.(steps := s.steps[0 := a]), Stepper(0), o);
    }
  }

  lemma StepOverOthers(s: State, a: nat, o: Owner)
    requires NoSteps(s) && DecoderOk(Bytewise) && o in s.data && o != Stepper(0)
    ensures var r := Onetime(Bytewise, s, a, 1, 0, 0, 1); o in r.data && r.data[o] == s.data[o]
  {
    OneStep(s, a, 1);
    AimOthers(s, a, o);
    hide Good, MemoryOk, ShapeOk, DecoderOk, Toggle, Aim, Onetime, Unused, StepsOff, TwoSteps;
    ToggleOthersKept(Aim(Bytewise, s, 0, a), Id(Stepper(0), 1), o);
  }

  lemma OffOthers(s: State, o: nat)
    requires Stepper(0) in s.data && Stepper(1) in s.data && Regular(o) in s.data
    ensures Regular(o) in StepsOff(s).data && StepsOff(s).data[Regular(o)] == s.data[Regular(o)]
  {
    hide StepsOffTo, SameCode;
    var r := StepsOff(s);
    forall k | 0 <= k < LINES ensures Regular(o) in r.data && r.data[Regular(o)][k] == s.data[Regular(o)][k] {
      StepsOffToGet(s, |s.data[Stepper(0)]|, Id(Regular(o), k));
    }
    assert r.data[Regular(o)] == s.data[Regular(o)];
  }

  /** `toggle(a, 0)` again: the breakpoint goes, and its byte is the compiler's. */
  lemma LastToggle(s: State, a: nat, p: nat)
    requires Good(s) && Where(s, a, p) && DecoderOk(Bytewise) && OnlyFirst(s, a, p)
    ensures var r := ToggleAt(Bytewise, s, a, 0);
            Good(r) && p !in r.dt && p in r.host && r.host[p] == r.pristine[p] && Regular(a) !in r.data
  {
    var id := Id(Regular(a), 0);
    var t, r := Toggle(s, id), ToggleAt(Bytewise, s, a, 0);
    KeysAgree(s);
    assert InfoOk(s, {}, id);
    hide Good, MemoryOk, ShapeOk, DecoderOk, Where, Toggle;
    assert Get(s, id).patched && p != 0;
    Disabled(s, id, p);
    assert !AnyUsed(t, Regular(a));
    UsedCanToggle(s, id);
    ToggleGood(s, id);
    ErasedGood(t, a);
    UnpatchedByte(r, p);
  }

  lemma UnpatchedByte(s: State, p: nat)
    requires Good(s) && p in s.host && p !in s.dt
    ensures p in s.pristine && s.host[p] == s.pristine[p]
  {
    assert ByteOk(s, {}, p);
  }

  /** `set_onetime(a, 0, ...)`: the line is enabled where it is, with the patch byte for its own. */
  lemma LastStep(s: State, a: nat, p: nat)
    requires NoSteps(s) && DecoderOk(Bytewise) && HasKept(s, a, p) && p != 0
    requires p !in s.dt && p in s.host && p in s.pristine && s.host[p] == s.pristine[p] != DEBUG_BREAK
    ensures var r := Onetime(Bytewise, s, a, 0, 0, 0, 1);
            NoShare(r) && !Claims(r) && p in r.host && Undone(r)[p] == DEBUG_BREAK != s.pristine[p]
  {
    var id := Id(Stepper(0), 0);
    OneStep(s, a, 0);
    assert !CanEnable(s, id) && ByteFree(s, id) && Get(s, id) == s.data[Stepper(0)][0];
    UnusedUnpatched(s, Stepper(0));
    hide Good, MemoryOk, ShapeOk, DecoderOk, Toggle, Claims, NoShare, Onetime, CanEnable, ByteFree;
    ToggleExactly(s, id);
    ToggleShares(s, id);
    Enabled(s, id, p);
  }

  lemma StillOff(s: State, r: State)
    requires NoSteps(s) && Good(r) && Stepper(0) in r.data && Stepper(1) in r.data
    requires r.data[Stepper(0)] == s.data[Stepper(0)] && r.data[Stepper(1)] == s.data[Stepper(1)]
    ensures NoSteps(r)
  {
    hide Good;
    GoodParts(r);
  }

  /** Nothing at `a` or on its first two bytes is in use. */
  ghost predicate Untouched(s: State, a: nat, p: nat) {
    && NoSteps(s) && Where(s, a, p) && s.steps[0] != a && Regular(a) !in s.data
    && p != 0 && p !in s.dt && p + 1 !in s.dt
  }

  lemma ToggledOn(s: State, a: nat, p: nat)
    requires Untouched(s, a, p) && DecoderOk(Bytewise)
    ensures var r := ToggleAt(Bytewise, s, a, 0);
            && NoSteps(r) && Where(r, a, p) && OnlyFirst(r, a, p) && r.steps[0] != a
            && p in r.host && r.host[p] == DEBUG_BREAK && p + 1 !in r.dt && r.pristine == s.pristine
  {
    var r := ToggleAt(Bytewise, s, a, 0);
    FirstToggle(s, a, p);
    hide Good, MemoryOk, ShapeOk, DecoderOk, Where, ToggleAt, OnlyFirst, Unused;
    ToggleMemory(s, a);
    ToggleOthers(s, a, Stepper(0));
    ToggleOthers(s, a, Stepper(1));
    StillOff(s, r);
    WhereSame(s, r, a, p);
  }

  lemma OnlySame(s: State, r: State, a: nat, p: nat)
    requires OnlyFirst(s, a, p) && Regular(a) in r.data && r.data[Regular(a)] == s.data[Regular(a)]
    ensures OnlyFirst(r, a, p)
  {
  }

  lemma SteppedOver(s: State, a: nat, p: nat)
    requires NoSteps(s) && Where(s, a, p) && DecoderOk(Bytewise) && OnlyFirst(s, a, p) && s.steps[0] != a
    requires p in s.host && s.host[p] == DEBUG_BREAK && p + 1 !in s.dt
    ensures var r := Onetime(Bytewise, s, a, 1, 0, 0, 1);
            && Good(r) && MemoryOk(r) && ShapeOk(r) && Stepper(0) in r.data && Stepper(1) in r.data
            && HasKept(r, a, p) && Where(r, a, p) && OnlyFirst(r, a, p) && r.pristine == s.pristine
  {
    var r := Onetime(Bytewise, s, a, 1, 0, 0, 1);
    StepOverPatch(s, a, p);
    StepOverOthers(s, a, Regular(a));
    hide Good, MemoryOk, ShapeOk, DecoderOk, Where, OnlyFirst, Unused, Onetime, HasKept;
    WhereSame(s, r, a, p);
    GoodParts(r);
    OnlySame(s, r, a, p);
  }

  lemma TurnedOff(s: State, a: nat, p: nat)
    requires Good(s) && HasKept(s, a, p) && Where(s, a, p) && OnlyFirst(s, a, p) && Stepper(0) in s.data
    requires Stepper(1) in s.data
    ensures var r := StepsOff(s);
            NoSteps(r) && HasKept(r, a, p) && Where(r, a, p) && OnlyFirst(r, a, p) && r.pristine == s.pristine
  {
    var r := StepsOff(s);
    hide Good, Where, OnlyFirst, StepsOff, HasKept, NoSteps;
    OffKeeps(s, a, p);
    WhereSame(s, r, a, p);
    OffOthers(s, a);
    OnlySame(s, r, a, p);
  }

  lemma ToggledOff(s: State, a: nat, p: nat)
    requires NoSteps(s) && Where(s, a, p) && DecoderOk(Bytewise) && OnlyFirst(s, a, p) && HasKept(s, a, p)
    ensures var r := ToggleAt(Bytewise, s, a, 0);
            && NoSteps(r) && HasKept(r, a, p) && r.pristine == s.pristine
            && p !in r.dt && p in r.host && p in r.pristine && r.host[p] == r.pristine[p] != DEBUG_BREAK
  {
    var r := ToggleAt(Bytewise, s, a, 0);
    LastToggle(s, a, p);
    hide Good, MemoryOk, ShapeOk, DecoderOk, ToggleAt, OnlyFirst, Unused;
    ToggleMemory(s, a);
    ToggleOthers(s, a, Stepper(0));
    ToggleOthers(s, a, Stepper(1));
    StillOff(s, r);
  }

  /** A breakpoint on the first byte, a single step set and unset on the second, the breakpoint
      removed: the single-step line of the first byte has kept the patch byte, and enabling it,
      which decodes nothing again, makes that the byte that is restored. */
  lemma KeepsPatchByte(s: State, a: nat, p: nat)
    requires Untouched(s, a, p) && DecoderOk(Bytewise) && MemoryOk(s) && ShapeOk(s)
    ensures var s1 := Step(Bytewise, s, ToggleBreak(a, 0));
            var s2 := Step(Bytewise, s1, SetOnetime(a, 1, 0, 0, 1));
            var s3 := Step(Bytewise, s2, UnsetOnetime);
            var s4 := Step(Bytewise, s3, ToggleBreak(a, 0));
            var s5 := Step(Bytewise, s4, SetOnetime(a, 0, 0, 0, 1));
            && Good(s1) && Good(s2) && Good(s3) && Good(s4)
            && NoShare(s5) && !Claims(s5) && p in s5.host && Undone(s5)[p] == DEBUG_BREAK
            && p in s5.pristine && s5.pristine[p] == s.pristine[p] != DEBUG_BREAK
  {
    hide Good, MemoryOk, ShapeOk, DecoderOk, ToggleAt, OnlyFirst, Unused, Onetime, HasKept, StepsOff, Claims, NoShare;
    hide Undone, Where;
    var s1 := Step(Bytewise, s, ToggleBreak(a, 0));
    ToggledOn(s, a, p);
    var s2 := Step(Bytewise, s1, SetOnetime(a, 1, 0, 0, 1));
    SteppedOver(s1, a, p);
    var s3 := Step(Bytewise, s2, UnsetOnetime);
    TurnedOff(s2, a, p);
    var s4 := Step(Bytewise, s3, ToggleBreak(a, 0));
    ToggledOff(s3, a, p);
    LastStep(s4, a, p);
    OnetimePristine(s4, a, 0);
  }

  lemma OnetimePristine(s: State, a: nat, sub: nat)
    requires NoSteps(s) && DecoderOk(Bytewise) && sub < LINES
    ensures Onetime(Bytewise, s, a, sub, 0, 0, 1).pristine == s.pristine
  {
    OneStep(s, a, sub);
    hide Good, MemoryOk, ShapeOk, DecoderOk, Unused, Onetime, StepsOff;
  }

  // ----- a recompile onto a patch that is still to be forgotten -----

  /** A new breakpoint changes no other entry of the table. */
  lemma ToggleElsewhere(s: State, a: nat, p: nat, q: nat)
    requires NoSteps(s) && Where(s, a, p) && DecoderOk(Bytewise) && Regular(a) !in s.data
    requires p !in s.dt && p + 1 !in s.dt && q != p
    ensures q in ToggleAt(Bytewise, s, a, 0).dt <==> q in s.dt
  {
    var t, o := Added(s, a), Regular(a);
    AddedUnpatched(s, a, p);
    NewOwner(s, a, p);
    var u := Update(Bytewise, t, o);
    hide Good, NoSteps, MemoryOk, DecoderOk, Update, Where, SameCode, Added, Toggle, Unused, Unpatched;
    NothingMoved(t, o, q);
    LineUnused(u, o, 0);
    Enabled(u, Id(o, 0), p);
  }

  /** While it is nobody's turn nothing changes. */
  lemma {:induction false} NobodysTurn(s: State, page: nat, n: nat)
    requires MemoryOk(s) && DecoderOk(Bytewise) && n <= PAGE + 2
    requires forall k :: 0 <= k < n ==> !Concerned(s, page, OwnerAt(page, k))
    ensures UpdatedTo(Bytewise, s, page, n) == s
    decreases n
  {
    hide MemoryOk, DecoderOk, UpdatedTo, OwnerAt, Concerned;
    if n == 0 {
      UpdatedToNone(Bytewise, s, page);
    } else {
      NobodysTurn(s, page, n - 1);
      UpdatedToNext(Bytewise, s, page, n - 1);
    }
  }

  /** Where an owner's turn puts its first line. */
  lemma {:induction false} TurnPlaces(t: State, page: nat, n: nat, a: nat, p: nat)
    requires MemoryOk(t) && DecoderOk(Bytewise) && Where(t, a, p) && n < PAGE + 2
    requires OwnerAt(page, n) == Regular(a) && Concerned(t, page, Regular(a))
    ensures var r := UpdatedTo(Bytewise, t, page, n + 1); Regular(a) in r.data && r.data[Regular(a)][0].pos == p
  {
    hide MemoryOk, DecoderOk, UpdatedTo, Update, OwnerAt, SpotsAt, Where;
    var u, o := UpdatedTo(Bytewise, t, page, n), Regular(a);
    UpdatedToSame(Bytewise, t, page, n);
    UpdatedToNext(Bytewise, t, page, n);
    WhereSame(t, u, a, p);
    WhereSpots(u, a, p);
    UpdateLine(Bytewise, u, o, 0);
  }

  lemma {:induction false} PlacedIn(t: State, page: nat, n: nat, a: nat, p: nat)
    requires MemoryOk(t) && ShapeOk(t) && DecoderOk(Bytewise) && Where(t, a, p) && n < PAGE
    requires OwnerAt(page, n) == Regular(a) && Concerned(t, page, Regular(a))
    ensures var r := UpdatedTo(Bytewise, t, page, PAGE + 2); Regular(a) in r.data && r.data[Regular(a)][0].pos == p
  {
    hide MemoryOk, ShapeOk, DecoderOk, UpdatedTo, OwnerAt, StaleOwners, Remaining, Where, Concerned;
    TurnOver(t, page, n);
    TurnPlaces(t, page, n, a, p);
    var id := Id(Regular(a), 0);
    assert Has(UpdatedTo(Bytewise, t, page, n + 1), id);
    LineStays(Bytewise, t, page, n + 1, PAGE + 2, id);
  }

  /** Where the first line of an owner is in the end. */
  lemma PlacedAt(t: State, a: nat, p: nat)
    requires ShapeOk(t) && DecoderOk(Bytewise) && Where(t, a, p) && Regular(a) in t.data
    ensures MemoryOk(t)
    ensures var r := UpdatedTo(Bytewise, t, a / PAGE, PAGE + 2); Regular(a) in r.data && r.data[Regular(a)][0].pos == p
  {
    RegularTurn(t, a);
    hide ShapeOk, DecoderOk, UpdatedTo, OwnerAt, Concerned;
    PlacedIn(t, a / PAGE, a % PAGE, a, p);
  }

  lemma RegularTurn(t: State, a: nat)
    requires Regular(a) in t.data
    ensures OwnerAt(a / PAGE, a % PAGE) == Regular(a) && Concerned(t, a / PAGE, Regular(a)) && a % PAGE < PAGE
  {
  }

  lemma TurnOver(t: State, page: nat, n: nat)
    ensures OwnerAt(page, n) !in Remaining(StaleOwners(t, page), n + 1)
  {
  }

  /** Two breakpoints `a` and `b` of one page, in the order of their turns. */
  ghost predicate Two(s: State, a: nat, p: nat, b: nat, q: nat) {
    && a < b && a / PAGE == b / PAGE && OnlyFirst(s, a, p) && OnlyFirst(s, b, q)
    && s.data.Keys == {Stepper(0), Stepper(1), Regular(a), Regular(b)}
    && Unused(s, Stepper(0)) && Unused(s, Stepper(1))
  }

  lemma TwoUsed(s: State, a: nat, p: nat, b: nat, q: nat, x: Id)
    requires Two(s, a, p, b, q) && Has(s, x) && Get(s, x).used
    ensures x == Id(Regular(a), 0) || x == Id(Regular(b), 0)
  {
  }

  /** Both are on bytes of their own afterwards. */
  lemma {:induction false} BothPlaced(t: State, a: nat, p: nat, b: nat, q: nat, p1: nat, q1: nat)
    requires ShapeOk(t) && DecoderOk(Bytewise) && Two(t, a, p, b, q) && Where(t, a, p1) && Where(t, b, q1) && p1 != q1
    ensures MemoryOk(t) && NoShare(UpdatedTo(Bytewise, t, a / PAGE, PAGE + 2))
  {
    PlacedAt(t, a, p1);
    PlacedAt(t, b, q1);
    hide MemoryOk, ShapeOk, DecoderOk, UpdatedTo, Where, Two;
    var r := UpdatedTo(Bytewise, t, a / PAGE, PAGE + 2);
    forall x, y | Has(r, x) && Has(r, y) && x != y && Get(r, x).used && Get(r, y).used && Get(r, x).pos != 0
      ensures Get(r, x).pos != Get(r, y).pos
    {
      UsedStays(Bytewise, t, a / PAGE, PAGE + 2, x);
      UsedStays(Bytewise, t, a / PAGE, PAGE + 2, y);
      TwoUsed(t, a, p, b, q, x);
      TwoUsed(t, a, p, b, q, y);
    }
  }

  /** The first one's turn puts its patch where the second one had its own. */
  lemma HitsOld(t: State, a: nat, p: nat, b: nat, q: nat)
    requires DecoderOk(Bytewise) && Two(t, a, p, b, q) && Where(t, a, q) && q in t.dt && t.dt[q] == Id(Regular(b), 0)
    ensures MemoryOk(t) && !AllMissOld(Bytewise, t, a / PAGE)
  {
    var o, page, n := Regular(a), a / PAGE, a % PAGE;
    var at := Planned(Bytewise, t, page, n);
    assert OwnerAt(page, n) == o && Concerned(t, page, o) && Regular(b) in Remaining(StaleOwners(t, page), n + 1);
    assert q in Pending(t, page, n + 1);
    var v := t.(host := WithBreaks(t.pristine, at));
    WhereSame(t, v, a, q);
    WhereSpots(v, a, q);
    hide MemoryOk, DecoderOk, Where, SpotsAt, Planned, Pending, OwnerAt;
    assert q in UsedSpots(Bytewise, t, o, at);
    assert !MissesOld(Bytewise, t, page, n);
  }

  lemma FirstTurn(t: State, a: nat, p: nat, b: nat, q: nat)
    requires Two(t, a, p, b, q)
    ensures forall k :: 0 <= k < a % PAGE ==> !Concerned(t, a / PAGE, OwnerAt(a / PAGE, k))
    ensures Regular(b) in Remaining(StaleOwners(t, a / PAGE), a % PAGE + 1)
  {
  }

  /** After the first one's turn. */
  lemma TurnedOnto(t: State, page: nat, n: nat, a: nat, b: nat, q: nat, rest: set<Owner>)
    requires MemoryOk(t) && DecoderOk(Bytewise) && Where(t, a, q) && n < PAGE && a != b
    requires OwnerAt(page, n) == Regular(a) && Concerned(t, page, Regular(a)) && t.data[Regular(a)][0].used
    requires UpdatedTo(Bytewise, t, page, n) == t && Regular(b) in rest && Regular(a) !in rest
    requires Has(t, Id(Regular(b), 0)) && Get(t, Id(Regular(b), 0)).patched && Get(t, Id(Regular(b), 0)).pos == q
    ensures var u, y := UpdatedTo(Bytewise, t, page, n + 1), Id(Regular(a), 0);
            && Doomed(u, rest, y, Id(Regular(b), 0))
            && q in t.host && Get(u, y) == Info(true, true, q, t.host[q])
  {
    hide MemoryOk, DecoderOk, UpdatedTo, Update, OwnerAt, SpotsAt, Where, Broken;
    UpdatedToNext(Bytewise, t, page, n);
    WhereSpots(t, a, q);
    UpdateLine(Bytewise, t, Regular(a), 0);
    UpdateOther(Bytewise, t, Regular(a), Id(Regular(b), 0));
  }

  lemma DoomEnds(v: State, w: Id, x: Id, p: nat)
    requires Doomed(v, {}, w, x) && Get(v, w).pos == p && p in v.pristine && Get(v, w).original == v.pristine[p]
    ensures !(p in v.dt && v.dt[p] == w)
  {
  }

  /** In the end the table does not lead to the first one from the byte it has patched. */
  lemma {:induction false} LosesEntry(t: State, page: nat, n: nat, a: nat, b: nat, q: nat)
    requires MemoryOk(t) && ShapeOk(t) && DecoderOk(Bytewise) && Where(t, a, q) && n < PAGE && a != b
    requires OwnerAt(page, n) == Regular(a) && Concerned(t, page, Regular(a)) && t.data[Regular(a)][0].used
    requires UpdatedTo(Bytewise, t, page, n) == t && Regular(b) in Remaining(StaleOwners(t, page), n + 1)
    requires Has(t, Id(Regular(b), 0)) && Get(t, Id(Regular(b), 0)).patched && Get(t, Id(Regular(b), 0)).pos == q
    requires q in t.host && q in t.pristine && t.host[q] == t.pristine[q]
    ensures var v, y := UpdatedTo(Bytewise, t, page, PAGE + 2), Id(Regular(a), 0);
            EntryLost(v, y, q)
  {
    hide MemoryOk, ShapeOk, DecoderOk, UpdatedTo, OwnerAt, StaleOwners, Remaining, Where, Concerned, Doomed, SameCode;
    var stale, y, x := StaleOwners(t, page), Id(Regular(a), 0), Id(Regular(b), 0);
    TurnOver(t, page, n);
    TurnedOnto(t, page, n, a, b, q, Remaining(stale, n + 1));
    DoomedHas(UpdatedTo(Bytewise, t, page, n + 1), Remaining(stale, n + 1), y, x);
    DoomedStays(Bytewise, t, page, n + 1, PAGE + 2, y, x);
    LineStays(Bytewise, t, page, n + 1, PAGE + 2, y);
    AllDone(t, page);
    PristineStays(t, page, PAGE + 2);
    DoomEnds(UpdatedTo(Bytewise, t, page, PAGE + 2), y, x, q);
  }

  lemma DoomedHas(u: State, rest: set<Owner>, w: Id, x: Id)
    requires Doomed(u, rest, w, x)
    ensures Has(u, w) && Get(u, w).patched
  {
  }

  lemma {:induction false} PristineStays(t: State, page: nat, n: nat)
    requires MemoryOk(t) && DecoderOk(Bytewise) && n <= PAGE + 2
    ensures UpdatedTo(Bytewise, t, page, n).pristine == t.pristine
  {
    hide UpdatedTo, MemoryOk;
    UpdatedToSame(Bytewise, t, page, n);
  }

  lemma EntryFacts(t: State, a: nat, p: nat, b: nat, q: nat)
    requires GoodBut(t, StaleOwners(t, a / PAGE)) && Two(t, a, p, b, q) && q in t.dt && t.dt[q] == Id(Regular(b), 0)
    requires q in t.host
    ensures var x := Id(Regular(b), 0); Has(t, x) && Get(t, x).patched && Get(t, x).pos == q
    ensures q in t.pristine && t.host[q] == t.pristine[q]
  {
    assert EntryOk(t, q) && ByteOk(t, StaleOwners(t, a / PAGE), q);
  }

  lemma {:induction false} FirstLoses(t: State, a: nat, p: nat, b: nat, q: nat)
    requires ShapeOk(t) && DecoderOk(Bytewise) && GoodBut(t, StaleOwners(t, a / PAGE))
    requires Two(t, a, p, b, q) && Where(t, a, q) && q in t.dt && t.dt[q] == Id(Regular(b), 0) && q in t.host
    ensures MemoryOk(t)
    ensures var v, y := UpdatedTo(Bytewise, t, a / PAGE, PAGE + 2), Id(Regular(a), 0);
            EntryLost(v, y, q)
  {
    EntryFacts(t, a, p, b, q);
    FirstTurn(t, a, p, b, q);
    RegularTurn(t, a);
    hide ShapeOk, DecoderOk, UpdatedTo, OwnerAt, StaleOwners, Remaining, Concerned, GoodBut;
    NobodysTurn(t, a / PAGE, a % PAGE);
    LosesEntry(t, a / PAGE, a % PAGE, a, b, q);
  }

  lemma OwnEntry(s: State, a: nat, p: nat)
    requires Good(s) && OnlyFirst(s, a, p) && p != 0
    ensures p in s.dt && s.dt[p] == Id(Regular(a), 0)
  {
    assert InfoOk(s, {}, Id(Regular(a), 0));
  }

  lemma TwoIn(s: State, t: State, a: nat, p: nat, b: nat, q: nat)
    requires Good(s) && Two(s, a, p, b, q) && q != 0 && t.data == s.data && t.dt == s.dt
    ensures Two(t, a, p, b, q) && q in t.dt && t.dt[q] == Id(Regular(b), 0)
  {
    hide Good;
    OwnEntry(s, b, q);
  }

  lemma {:induction false} SameTable(s: State, page: nat, code: Code, bytes: seq<Byte>)
    requires MemoryOk(s) && ShapeOk(s) && DecoderOk(Bytewise) && Fits(s, page, code, bytes)
    ensures MemoryOk(Replaced(s, page, code, bytes))
    ensures Recompiled(Bytewise, s, page, code, bytes)
         == UpdatedTo(Bytewise, Replaced(s, page, code, bytes), page, PAGE + 2)
  {
    hide UpdatedTo;
    ReplacedShape(s, page, code, bytes);
  }

  /** The line is patched at the byte and the table does not lead to it from there. */
  predicate EntryLost(s: State, y: Id, p: nat) {
    Has(s, y) && Get(s, y).patched && Get(s, y).pos == p && !(p in s.dt && s.dt[p] == y)
  }

  /** The page compiled again, so that the first one's instruction is where the second one's
      was: a used line of the first is put on a byte whose entry then goes. */
  lemma ReuseBreaks(s: State, a: nat, p: nat, b: nat, q: nat, q1: nat, code: Code, bytes: seq<Byte>)
    requires Good(s) && MemoryOk(s) && ShapeOk(s) && DecoderOk(Bytewise) && Two(s, a, p, b, q)
    requires Fits(s, a / PAGE, code, bytes) && q != 0 && q1 != q
    requires var t := Replaced(s, a / PAGE, code, bytes); Where(t, a, q) && Where(t, b, q1)
    ensures var r := Recompiled(Bytewise, s, a / PAGE, code, bytes);
            NoShare(r) && !Claims(r) && EntryLost(r, Id(Regular(a), 0), q)
  {
    var page := a / PAGE;
    var t := Replaced(s, page, code, bytes);
    TwoIn(s, t, a, p, b, q);
    ReplacedShape(s, page, code, bytes);
    SameTable(s, page, code, bytes);
    hide Good, MemoryOk, ShapeOk, DecoderOk, Where, Two, Fits, Claims, NoShare, AllMissOld, UpdatedTo, NoClashes;
    hide OnlyFirst;
    ReplacedGood(s, page, code, bytes);
    hide Recompiled, Replaced, GoodBut, StaleOwners;
    BothPlaced(t, a, p, b, q, q, q1);
    WhereSpots(t, a, q);
    SpotsAtOk(Bytewise, t, a);
    FirstLoses(t, a, p, b, q);
    HitsOld(t, a, p, b, q);
    RecompiledExactly(Bytewise, s, page, code, bytes);
  }

  // ----- from the start -----

  /** Four bytes of code at `base` for the second page: two for each of the instructions 516 and
      520. */
  function Block(base: nat): Code { Code(base, 4, seq(128, i => if i <= 1 then 0 else if i == 2 then 2 else 4)) }

  const CODE_BYTES: seq<Byte> := [0, 0, 0, 0]

  lemma BlockOk(base: nat)
    requires base > 0
    ensures var c := Block(base);
            && CodeOk(c, 4) && From(c, 4, 516) == base && To(c, 4, 516) == base + 2
            && From(c, 4, 520) == base + 2 && To(c, 4, 520) == base + 4
  {
    assert 516 % PAGE / 4 == 1 && 520 % PAGE / 4 == 2;
  }

  lemma FirstFits(base: nat)
    requires base > 0
    ensures Fits(Initial(4), 1, Block(base), CODE_BYTES)
  {
    BlockOk(base);
  }

  /** The state after the first block is compiled. */
  function Compiled(base: nat): State { Replaced(Initial(4), 1, Block(base), CODE_BYTES) }

  lemma FirstBlock(base: nat)
    requires base > 0 && DecoderOk(Bytewise)
    ensures MemoryOk(Initial(4)) && ShapeOk(Initial(4))
    ensures var s := Step(Bytewise, Initial(4), Recompile(1, Block(base), CODE_BYTES)); s == Compiled(base) && Good(s)
  {
    InitialGood(4);
    FirstFits(base);
    var t := Compiled(base);
    ReplacedShape(Initial(4), 1, Block(base), CODE_BYTES);
    ReplacedGood(Initial(4), 1, Block(base), CODE_BYTES);
    assert StaleOwners(t, 1) == {} && forall k :: 0 <= k < PAGE + 2 ==> !Concerned(t, 1, OwnerAt(1, k));
    hide MemoryOk, ShapeOk, DecoderOk, UpdatedTo, Replaced, Fits, Block, GoodBut;
    NobodysTurn(t, 1, PAGE + 2);
    NoneStale(t);
  }

  lemma CompiledWhere(base: nat)
    requires base > 0 && Good(Compiled(base))
    ensures Untouched(Compiled(base), 516, base) && Where(Compiled(base), 520, base + 2)
    ensures Compiled(base).dt == map[]
  {
    BlockOk(base);
    var s := Compiled(base);
    GoodParts(s);
    hide Good, MemoryOk, ShapeOk, From, To, Block;
    assert 516 / PAGE == 1 && 520 / PAGE == 1;
    assert s.blocks[1] == Block(base);
  }

  /** The run in which a patch byte is restored for the compiler's. */
  lemma RestoresPatchByte()
    ensures DecoderOk(Bytewise) && MemoryOk(Initial(4)) && ShapeOk(Initial(4))
    ensures var s0 := Step(Bytewise, Initial(4), Recompile(1, Block(1), CODE_BYTES));
            var s1 := Step(Bytewise, s0, ToggleBreak(516, 0));
            var s2 := Step(Bytewise, s1, SetOnetime(516, 1, 0, 0, 1));
            var s3 := Step(Bytewise, s2, UnsetOnetime);
            var s4 := Step(Bytewise, s3, ToggleBreak(516, 0));
            var s5 := Step(Bytewise, s4, SetOnetime(516, 0, 0, 0, 1));
            && Claims(s0) && Claims(s1) && Claims(s2) && Claims(s3) && Claims(s4)
            && NoShare(s5) && !Claims(s5)
            && 1 in s5.host && 1 in s5.pristine && Undone(s5)[1] == 0xCC && s5.pristine[1] == 0
  {
    BytewiseOk();
    FirstBlock(1);
    CompiledWhere(1);
    assert Compiled(1).pristine[1] == 0;
    hide Good, MemoryOk, ShapeOk, DecoderOk, Claims, NoShare, Step, Undone, Where, Compiled, NoSteps;
    var s0 := Step(Bytewise, Initial(4), Recompile(1, Block(1), CODE_BYTES));
    KeepsPatchByte(s0, 516, 1);
    var s1 := Step(Bytewise, s0, ToggleBreak(516, 0));
    var s2 := Step(Bytewise, s1, SetOnetime(516, 1, 0, 0, 1));
    var s3 := Step(Bytewise, s2, UnsetOnetime);
    GoodClaims(s0);
    GoodClaims(s1);
    GoodClaims(s2);
    GoodClaims(s3);
    GoodClaims(Step(Bytewise, s3, ToggleBreak(516, 0)));
  }

  /** A second breakpoint of the same page. */
  lemma SecondOn(s: State, a: nat, p: nat, b: nat)
    requires Untouched(s, b, p + 2) && Where(s, a, p) && OnlyFirst(s, a, p) && DecoderOk(Bytewise)
    requires a < b && a / PAGE == b / PAGE && s.data.Keys == {Stepper(0), Stepper(1), Regular(a)}
    ensures var r := ToggleAt(Bytewise, s, b, 0); Good(r) && Two(r, a, p, b, p + 2) && SameMemory(s, r)
  {
    hide Good, MemoryOk, ShapeOk, Where, DecoderOk, ToggleAt, OnlyFirst, Unused;
    ToggledOn(s, b, p + 2);
    hide NoSteps;
    ToggleKeys(s, b);
    ToggleMemory(s, b);
    ToggleOthers(s, b, Regular(a));
    OnlySame(s, ToggleAt(Bytewise, s, b, 0), a, p);
    OffOf(ToggleAt(Bytewise, s, b, 0));
  }

  lemma OffOf(s: State)
    requires NoSteps(s)
    ensures Good(s) && Stepper(0) in s.data && Stepper(1) in s.data && Unused(s, Stepper(0)) && Unused(s, Stepper(1))
  {
  }

  lemma CompiledData(base: nat)
    ensures Compiled(base).data.Keys == {Stepper(0), Stepper(1)} && Compiled(base).steps == [0, 0]
  {
  }

  lemma NextFree(s: State, a: nat, p: nat)
    requires Untouched(s, a, p) && DecoderOk(Bytewise) && s.dt == map[]
    ensures MemoryOk(s)
    ensures var r := ToggleAt(Bytewise, s, a, 0); p + 2 !in r.dt && p + 3 !in r.dt
  {
    hide Good, MemoryOk, ShapeOk, Where, DecoderOk, ToggleAt, Unused;
    ToggleElsewhere(s, a, p, p + 2);
    ToggleElsewhere(s, a, p, p + 3);
  }

  lemma NextUntouched(s: State, a: nat, p: nat, b: nat)
    requires Untouched(s, a, p) && Where(s, b, p + 2) && DecoderOk(Bytewise) && a != b && s.dt == map[]
    requires Regular(b) !in s.data && s.steps[0] != b
    ensures MemoryOk(s) && Untouched(ToggleAt(Bytewise, s, a, 0), b, p + 2)
  {
    hide Good, MemoryOk, ShapeOk, Where, DecoderOk, ToggleAt, OnlyFirst, NoSteps, SameMemory, Untouched;
    NextFree(s, a, p);
    var r := ToggleAt(Bytewise, s, a, 0);
    UntouchedParts(s, a, p);
    ToggledOn(s, a, p);
    ToggleMemory(s, a);
    ToggleKeys(s, a);
    WhereSame(s, r, b, p + 2);
    UntouchedFrom(r, b, p + 2);
  }

  lemma UntouchedParts(s: State, a: nat, p: nat)
    requires Untouched(s, a, p)
    ensures MemoryOk(s) && Regular(a) !in s.data && Where(s, a, p)
  {
  }

  lemma UntouchedFrom(s: State, a: nat, p: nat)
    requires NoSteps(s) && Where(s, a, p) && s.steps[0] != a && Regular(a) !in s.data
    requires p != 0 && p !in s.dt && p + 1 !in s.dt
    ensures Untouched(s, a, p)
  {
  }

  lemma FirstStands(s: State, a: nat, p: nat)
    requires Untouched(s, a, p) && DecoderOk(Bytewise)
    ensures MemoryOk(s)
    ensures var r := ToggleAt(Bytewise, s, a, 0); Good(r) && Where(r, a, p) && OnlyFirst(r, a, p)
  {
    hide Good, MemoryOk, ShapeOk, Where, DecoderOk, ToggleAt, OnlyFirst, Unused;
    ToggledOn(s, a, p);
  }

  lemma FirstOn(base: nat)
    requires base > 0 && DecoderOk(Bytewise) && Good(Compiled(base)) && MemoryOk(Compiled(base))
    ensures var s, r := Compiled(base), ToggleAt(Bytewise, Compiled(base), 516, 0);
            && Good(r) && Untouched(r, 520, base + 2) && Where(r, 516, base) && OnlyFirst(r, 516, base)
            && r.data.Keys == {Stepper(0), Stepper(1), Regular(516)} && SameMemory(s, r)
  {
    CompiledData(base);
    CompiledWhere(base);
    hide Good, MemoryOk, Where, Compiled, DecoderOk, ToggleAt, OnlyFirst, Untouched;
    NextUntouched(Compiled(base), 516, base, 520);
    ToggleKeys(Compiled(base), 516);
    ToggleMemory(Compiled(base), 516);
    FirstStands(Compiled(base), 516, base);
  }

  lemma BothOn(base: nat)
    requires base > 0 && DecoderOk(Bytewise) && Good(Compiled(base))
    ensures MemoryOk(Compiled(base)) && ShapeOk(Compiled(base))
    ensures var s1 := Step(Bytewise, Compiled(base), ToggleBreak(516, 0));
            var s2 := Step(Bytewise, s1, ToggleBreak(520, 0));
            Good(s1) && Good(s2) && Two(s2, 516, base, 520, base + 2) && SameMemory(Compiled(base), s2)
  {
    GoodParts(Compiled(base));
    hide Good, MemoryOk, ShapeOk, Where, Compiled, DecoderOk, ToggleAt, OnlyFirst, Untouched, Two;
    FirstOn(base);
    assert 516 / PAGE == 520 / PAGE;
    SecondOn(ToggleAt(Bytewise, Compiled(base), 516, 0), 516, base, 520);
  }

  lemma ToggleKeys(s: State, a: nat)
    requires MemoryOk(s) && DecoderOk(Bytewise) && Regular(a) !in s.data
    ensures ToggleAt(Bytewise, s, a, 0).data.Keys == s.data.Keys + {Regular(a)}
  {
    hide MemoryOk, DecoderOk, Update, Toggle;
    CodeSameBut(s, Added(s, a));
  }

  lemma SecondFits(s: State)
    requires SameMemory(Compiled(1), s)
    ensures Fits(s, 1, Block(3), CODE_BYTES)
  {
    BlockOk(3);
    assert forall p :: p in s.host ==> InCode(Block(1), p);
    hide CodeOk;
    assert s.blocks == map[1 := Block(1)];
  }

  lemma SecondWhere(s: State)
    requires SameMemory(Compiled(1), s) && MemoryOk(s)
    ensures var t := Replaced(s, 1, Block(3), CODE_BYTES); Where(t, 516, 3) && Where(t, 520, 5)
  {
    BlockOk(3);
    var t := Replaced(s, 1, Block(3), CODE_BYTES);
    SecondFits(s);
    ReplacedMemory(s, 1, Block(3), CODE_BYTES);
    assert 516 / PAGE == 1 && 520 / PAGE == 1 && t.blocks[1] == Block(3);
    assert InCode(Block(3), 3) && InCode(Block(3), 5) && t.pristine[3] == 0 && t.pristine[5] == 0;
  }

  lemma SecondBreaks(s: State)
    requires Good(s) && MemoryOk(s) && ShapeOk(s) && DecoderOk(Bytewise)
    requires Two(s, 516, 1, 520, 3) && SameMemory(Compiled(1), s)
    ensures var r := Step(Bytewise, s, Recompile(1, Block(3), CODE_BYTES));
            Fits(s, 1, Block(3), CODE_BYTES) && NoShare(r) && !Claims(r) && EntryLost(r, Id(Regular(516), 0), 3)
  {
    hide Good, MemoryOk, ShapeOk, DecoderOk, Claims, NoShare, Where, Compiled, Fits, Two, Recompiled, Replaced, Block;
    hide EntryLost;
    hide SameMemory;
    SecondFits(s);
    SecondWhere(s);
    assert 516 / PAGE == 1;
    ReuseBreaks(s, 516, 1, 520, 3, 5, Block(3), CODE_BYTES);
  }

  /** The run in which a breakpoint loses its entry to one that moved away. */
  lemma ReuseLosesEntry()
    ensures DecoderOk(Bytewise) && MemoryOk(Initial(4)) && ShapeOk(Initial(4))
    ensures var s0 := Step(Bytewise, Initial(4), Recompile(1, Block(1), CODE_BYTES));
            var s1 := Step(Bytewise, s0, ToggleBreak(516, 0));
            var s2 := Step(Bytewise, s1, ToggleBreak(520, 0));
            var s3 := Step(Bytewise, s2, Recompile(1, Block(3), CODE_BYTES));
            && Claims(s0) && Claims(s1) && Claims(s2) && Fits(s2, 1, Block(3), CODE_BYTES)
            && NoShare(s3) && !Claims(s3) && EntryLost(s3, Id(Regular(516), 0), 3)
  {
    BytewiseOk();
    FirstBlock(1);
    BothOn(1);
    hide EntryLost, Good, MemoryOk, ShapeOk, DecoderOk, Claims, NoShare, Compiled, Fits, Two, Step, SameMemory, Block;
    var s0 := Compiled(1);
    var s1 := Step(Bytewise, s0, ToggleBreak(516, 0));
    var s2 := Step(Bytewise, s1, ToggleBreak(520, 0));
    GoodClaims(s0);
    GoodClaims(s1);
    GoodClaims(s2);
    SecondBreaks(s2);
  }
}
