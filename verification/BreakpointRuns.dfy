/**
 Runs of toggles, single steps and recompiles. A run keeps the claims of the tables exactly when
 each of its steps may be taken, and each step may be taken exactly when it puts no two used
 breakpoints on one byte, enables no line that has kept a wrong byte, and recompiles nothing onto
 a patch that another breakpoint has yet to forget.
 */
module BreakpointRuns {
  import opened Types
  import opened Breakpoint
  import opened BreakpointProof
  import opened BreakpointRecompile

  // ----- two used lines on one byte -----

  ghost predicate Shares(s: State, x: Id, y: Id) {
    && Has(s, x) && Has(s, y) && x != y && Get(s, x).used && Get(s, y).used
    && Get(s, x).pos == Get(s, y).pos != 0
  }

  /** Enabling a line puts two used ones on a byte exactly when the byte is patched. */
  lemma ToggleShares(s: State, id: Id)
    requires Good(s) && Has(s, id)
    ensures NoShare(Toggle(s, id)) <==> ByteFree(s, id)
  {
    hide Toggle, Good, NoShare;
    if ByteFree(s, id) {
      ToggleApart(s, id);
    } else {
      var w := ToggleMeets(s, id);
      SharesMeans(Toggle(s, id), id, w);
    }
  }

  lemma SharesMeans(s: State, x: Id, y: Id)
    requires Shares(s, x, y)
    ensures !NoShare(s)
  {
  }

  lemma ToggleMeets(s: State, id: Id) returns (w: Id)
    requires Good(s) && Has(s, id) && !ByteFree(s, id)
    ensures Shares(Toggle(s, id), id, w) && Get(s, w).used
  {
    hide ShapeOk, MemoryOk, Toggle;
    w := s.dt[Get(s, id).pos];
    assert EntryOk(s, Get(s, id).pos) && InfoOk(s, {}, w);
    ToggleFrame(s, id, id);
    ToggleFrame(s, id, w);
  }

  lemma ToggleApart(s: State, id: Id)
    requires Good(s) && Has(s, id) && ByteFree(s, id)
    ensures NoShare(Toggle(s, id))
  {
    GoodClaims(s);
    ClaimsNoShare(s);
    hide Good, Claims, Toggle;
    var r := Toggle(s, id);
    ToggleFrame(s, id, id);
    forall x, y | Has(r, x) && Has(r, y) && x != y && Get(r, x).used && Get(r, y).used && Get(r, x).pos != 0
      ensures Get(r, x).pos != Get(r, y).pos
    {
      SameLines(s, id, x);
      SameLines(s, id, y);
      var z := if x == id then y else x;
      if Get(r, x).pos == Get(r, y).pos { UsedIsPatched(s, z); }
    }
  }

  lemma SameLines(s: State, id: Id, x: Id)
    requires Has(s, id) && Has(Toggle(s, id), x)
    ensures Has(s, x) && (x != id ==> Get(Toggle(s, id), x) == Get(s, x))
    ensures Get(Toggle(s, id), id).used == !Get(s, id).used && Get(Toggle(s, id), id).pos == Get(s, id).pos
  {
  }

  lemma UsedIsPatched(s: State, x: Id)
    requires Good(s) && Has(s, x) && Get(s, x).used && Get(s, x).pos != 0
    ensures Get(s, x).pos in s.dt
  {
    assert InfoOk(s, {}, x);
  }

  // ----- single steps -----

  lemma AimOther(decode: Decoder, s: State, i: nat, a: nat, x: Id)
    requires MemoryOk(s) && DecoderOk(decode) && Stepper(i) in s.data && i < |s.steps|
    requires Has(s, x) && x.owner != Stepper(i)
    ensures Has(Aim(decode, s, i, a), x) && Get(Aim(decode, s, i, a), x) == Get(s, x)
  {
    hide Update, MemoryOk, DecoderOk, SameCode;
    if s.steps[i] != a {
      CodeSameBut(s, s.(steps := s.steps[i := a]));
      UpdateOther(decode, s.(steps := s.steps[i := a]), Stepper(i), x);
    }
  }

  lemma AimBroken(decode: Decoder, s: State, i: nat, a: nat, w: Id)
    requires MemoryOk(s) && DecoderOk(decode) && Stepper(i) in s.data && i < |s.steps|
    requires w.owner != Stepper(i) && Broken(s, w)
    ensures Broken(Aim(decode, s, i, a), w)
  {
    hide Update, MemoryOk, DecoderOk, SameCode;
    if s.steps[i] != a {
      CodeSameBut(s, s.(steps := s.steps[i := a]));
      BrokenThroughUpdate(decode, s.(steps := s.steps[i := a]), Stepper(i), w);
    }
  }

  lemma AimUsed(decode: Decoder, s: State, i: nat, a: nat, k: nat)
    requires MemoryOk(s) && DecoderOk(decode) && Stepper(i) in s.data && i < |s.steps| && k < LINES
    ensures Aim(decode, s, i, a).data[Stepper(i)][k].used == s.data[Stepper(i)][k].used
  {
    hide Update, MemoryOk, DecoderOk, SameCode, SpotsAt;
    if s.steps[i] != a {
      CodeSameBut(s, s.(steps := s.steps[i := a]));
      UpdateLine(decode, s.(steps := s.steps[i := a]), Stepper(i), k);
    }
  }

  lemma SecondBroken(decode: Decoder, t: State, a1: nat, a2: nat, sub2: nat, w: Id)
    requires MemoryOk(t) && ShapeOk(t) && DecoderOk(decode) && sub2 < LINES && Broken(t, w) && Get(t, w).used
    requires Stepper(1) in t.data && Unused(t, Stepper(1)) && (a1 == a2 ==> !Get(t, Id(Stepper(0), sub2)).used)
    ensures Broken(SecondStep(decode, t, a1, a2, sub2), w)
  {
    StepperThere(t, 0);
    StepperThere(t, 1);
    hide Broken, MemoryOk, ShapeOk, DecoderOk, Toggle, Aim;
    BrokenHas(t, w);
    if a1 == a2 {
      BrokenThroughToggle(t, w, Id(Stepper(0), sub2));
    } else {
      var r := Aim(decode, t, 1, a2);
      AimBroken(decode, t, 1, a2, w);
      AimUsed(decode, t, 1, a2, sub2);
      BrokenThroughToggle(r, w, Id(Stepper(1), sub2));
    }
  }

  lemma BrokenHas(t: State, w: Id)
    requires Broken(t, w)
    ensures Has(t, w)
  {
  }

  lemma SecondShares(decode: Decoder, t: State, a1: nat, a2: nat, sub2: nat, x: Id, y: Id)
    requires MemoryOk(t) && ShapeOk(t) && DecoderOk(decode) && sub2 < LINES && Shares(t, x, y)
    requires Stepper(1) in t.data && Unused(t, Stepper(1)) && (a1 == a2 ==> !Get(t, Id(Stepper(0), sub2)).used)
    ensures Shares(SecondStep(decode, t, a1, a2, sub2), x, y)
  {
    StepperThere(t, 0);
    StepperThere(t, 1);
    hide MemoryOk, ShapeOk, DecoderOk, Toggle, Aim;
    if a1 == a2 {
      ToggleFrame(t, Id(Stepper(0), sub2), x);
      ToggleFrame(t, Id(Stepper(0), sub2), y);
    } else {
      var r := Aim(decode, t, 1, a2);
      AimOther(decode, t, 1, a2, x);
      AimOther(decode, t, 1, a2, y);
      ToggleFrame(r, Id(Stepper(1), sub2), x);
      ToggleFrame(r, Id(Stepper(1), sub2), y);
    }
  }

  /** What a single step finds once the earlier ones are off. */
  ghost predicate NoSteps(t: State) {
    && Good(t) && MemoryOk(t) && ShapeOk(t) && |t.steps| == 2 && Stepper(0) in t.data && Stepper(1) in t.data
    && Unused(t, Stepper(0)) && Unused(t, Stepper(1))
  }

  lemma StepsAreOff(s: State)
    requires Good(s)
    ensures Stepper(0) in s.data && Stepper(1) in s.data && NoSteps(StepsOff(s))
  {
    GoodParts(s);
    StepsOffGood(s);
    GoodParts(StepsOff(s));
  }

  /** The line of the first step, about to be enabled. */
  lemma FirstFacts(decode: Decoder, t: State, a: nat, sub: nat)
    requires NoSteps(t) && DecoderOk(decode) && sub < LINES
    ensures var q := Aim(decode, t, 0, a);
            && NoSteps(q) && (CanEnable(q, Id(Stepper(0), sub)) <==> CanStep(decode, t, 0, a, sub))
            && (t.steps[0] != a ==> (ByteFree(q, Id(Stepper(0), sub)) <==> CanStep(decode, t, 0, a, sub)))
  {
    hide Good, MemoryOk, ShapeOk, DecoderOk, Aim, CanEnable, ByteFree, SameCode, CanStep;
    var q := Aim(decode, t, 0, a);
    AimGood(decode, t, 0, a, sub);
    GoodParts(q);
    forall k | 0 <= k < LINES ensures !q.data[Stepper(1)][k].used {
      AimOther(decode, t, 0, a, Id(Stepper(1), k));
    }
  }

  lemma FirstUsed(q: State, sub: nat)
    requires NoSteps(q) && sub < LINES
    ensures var r := Toggle(q, Id(Stepper(0), sub));
            && Stepper(1) in r.data && Stepper(0) in r.data && Unused(r, Stepper(1))
            && (forall k :: 0 <= k < LINES && k != sub ==> !r.data[Stepper(0)][k].used)
  {
    hide Toggle, Good, MemoryOk, ShapeOk;
    var id := Id(Stepper(0), sub);
    var r := Toggle(q, id);
    forall k | 0 <= k < LINES
      ensures !r.data[Stepper(1)][k].used && (k != sub ==> !r.data[Stepper(0)][k].used)
    {
      ToggleFrame(q, id, Id(Stepper(1), k));
      ToggleFrame(q, id, Id(Stepper(0), k));
    }
  }

  /** Whether the second step may be taken, on the state after the first. */
  ghost predicate SecondAllowed(decode: Decoder, t: State, a1: nat, a2: nat, sub2: nat)
    requires MemoryOk(t) && ShapeOk(t) && sub2 < LINES
  {
    StepperThere(t, 0);
    if a1 == a2 then CanEnable(t, Id(Stepper(0), sub2)) else CanStep(decode, t, 1, a2, sub2)
  }

  lemma SecondExactly(decode: Decoder, t: State, a1: nat, a2: nat, sub2: nat)
    requires Good(t) && MemoryOk(t) && ShapeOk(t) && DecoderOk(decode) && sub2 < LINES
    requires Stepper(1) in t.data && Unused(t, Stepper(1))
    ensures var r := SecondStep(decode, t, a1, a2, sub2);
            && (Good(r) <==> SecondAllowed(decode, t, a1, a2, sub2))
            && (Claims(r) <==> SecondAllowed(decode, t, a1, a2, sub2))
  {
    StepperThere(t, 0);
    StepperThere(t, 1);
    hide Good, Claims, MemoryOk, ShapeOk, DecoderOk, Toggle, Aim, CanEnable, CanStep, ByteFree;
    if a1 == a2 {
      ToggleExactly(t, Id(Stepper(0), sub2));
    } else {
      AimGood(decode, t, 1, a2, sub2);
      ToggleExactly(Aim(decode, t, 1, a2), Id(Stepper(1), sub2));
    }
  }

  predicate TwoSteps(a1: nat, sub1: nat, a2: nat, sub2: nat, num: nat) { num > 1 && !(a1 == a2 && sub1 == sub2) }

  /** On the state after `unset_onetime`, and for the second breakpoint on the one after the first. */
  ghost predicate OnetimeAllowed(decode: Decoder, s: State, a1: nat, sub1: nat, a2: nat, sub2: nat, num: nat)
    requires MemoryOk(s) && ShapeOk(s) && DecoderOk(decode)
  {
    sub1 < LINES && (num > 1 ==> sub2 < LINES) ==>
      var t := StepsOff(s);
      CodeSame(s, t);
      && CanStep(decode, t, 0, a1, sub1)
      && (TwoSteps(a1, sub1, a2, sub2, num) ==> SecondAllowed(decode, FirstStep(decode, t, a1, sub1), a1, a2, sub2))
  }

  lemma OnetimeCases(decode: Decoder, s: State, a1: nat, sub1: nat, a2: nat, sub2: nat, num: nat)
    requires MemoryOk(s) && ShapeOk(s) && DecoderOk(decode)
    ensures var t, r := StepsOff(s), Onetime(decode, s, a1, sub1, a2, sub2, num);
            && MemoryOk(t) && ShapeOk(t)
            && (sub1 >= LINES || (num > 1 && sub2 >= LINES) ==> r == s)
            && (sub1 < LINES && (num > 1 ==> sub2 < LINES) ==>
                  var u := FirstStep(decode, t, a1, sub1);
                  r == if TwoSteps(a1, sub1, a2, sub2, num) then SecondStep(decode, u, a1, a2, sub2) else u)
  {
    hide StepsOff, FirstStep, SecondStep, DecoderOk, Aim;
    CodeSame(s, StepsOff(s));
  }

  /** Setting single-step breakpoints keeps the claims exactly when the lines they enable can
      be. */
  lemma OnetimeExactly(decode: Decoder, s: State, a1: nat, sub1: nat, a2: nat, sub2: nat, num: nat)
    requires Good(s) && MemoryOk(s) && ShapeOk(s) && DecoderOk(decode)
    ensures var r := Onetime(decode, s, a1, sub1, a2, sub2, num);
            && (Good(r) <==> OnetimeAllowed(decode, s, a1, sub1, a2, sub2, num))
            && (Claims(r) <==> OnetimeAllowed(decode, s, a1, sub1, a2, sub2, num))
  {
    OnetimeCases(decode, s, a1, sub1, a2, sub2, num);
    StepsAreOff(s);
    hide Good, Claims, MemoryOk, ShapeOk, DecoderOk, Toggle, Aim, CanEnable, CanStep, ByteFree, SecondAllowed, StepsOff;
    hide Onetime, SecondStep, Broken, Unused;
    var r := Onetime(decode, s, a1, sub1, a2, sub2, num);
    if sub1 < LINES && (num > 1 ==> sub2 < LINES) {
      var t := StepsOff(s);
      var q, id, u := Aim(decode, t, 0, a1), Id(Stepper(0), sub1), FirstStep(decode, t, a1, sub1);
      FirstFacts(decode, t, a1, sub1);
      FirstUsed(q, sub1);
      ToggleExactly(q, id);
      if CanStep(decode, t, 0, a1, sub1) {
        if TwoSteps(a1, sub1, a2, sub2, num) { SecondExactly(decode, u, a1, a2, sub2); }
      } else {
        var w := ToggleBreaks(q, id);
        if TwoSteps(a1, sub1, a2, sub2, num) {
          SecondBroken(decode, u, a1, a2, sub2, w);
          BrokenMeans(r, w);
          if Good(r) { GoodClaims(r); }
        }
      }
    } else {
      GoodClaims(s);
    }
  }

  // ----- what else must hold when no two used lines are on one byte -----

  lemma KeptSame(s: State, r: State, x: Id)
    requires Has(s, x) && Has(r, x) && r.pristine == s.pristine
    requires Get(r, x).pos == Get(s, x).pos && Get(r, x).original == Get(s, x).original
    ensures KeptRight(r, x) == KeptRight(s, x)
  {
  }

  lemma ToggleKeeps(s: State, id: Id, x: Id)
    requires Has(s, id) && Has(s, x)
    ensures var r := Toggle(s, id);
            Has(r, x) && Get(r, x).pos == Get(s, x).pos && Get(r, x).original == Get(s, x).original
  {
  }

  lemma ToggleGrows(s: State, id: Id, p: nat)
    requires Has(s, id) && !Get(s, id).used && p in s.dt
    ensures p in Toggle(s, id).dt
  {
  }

  lemma UsedOffKeeps(s: State, id: Id, x: Id)
    requires Has(s, id) && Has(s, x)
    ensures var r := ToggleIfUsed(s, id);
            Has(r, x) && Get(r, x).pos == Get(s, x).pos && Get(r, x).original == Get(s, x).original
  {
    hide Toggle;
    ToggleKeeps(s, id, x);
  }

  lemma {:induction false} StepsOffKeeps(s: State, n: nat, x: Id)
    requires Stepper(0) in s.data && Stepper(1) in s.data && n <= LINES && Has(s, x)
    ensures var r := StepsOffTo(s, n);
            Has(r, x) && Get(r, x).pos == Get(s, x).pos && Get(r, x).original == Get(s, x).original
    decreases n
  {
    hide ToggleIfUsed, SameCode, Get;
    if n > 0 {
      var q := StepsOffTo(s, n - 1);
      StepsOffKeeps(s, n - 1, x);
      UsedOffKeeps(q, Id(Stepper(0), n - 1), x);
      UsedOffKeeps(ToggleIfUsed(q, Id(Stepper(0), n - 1)), Id(Stepper(1), n - 1), x);
    }
  }

  lemma OffKeptSame(s: State, x: Id)
    requires Stepper(0) in s.data && Stepper(1) in s.data && Has(s, x)
    ensures Has(StepsOff(s), x) && KeptRight(StepsOff(s), x) == KeptRight(s, x)
  {
    hide StepsOffTo, KeptRight;
    StepsOffKeeps(s, |s.data[Stepper(0)]|, x);
    KeptSame(s, StepsOff(s), x);
  }

  /** Lines that a single step enables without decoding them again have kept the right byte. */
  predicate OnetimeKept(s: State, a1: nat, sub1: nat, a2: nat, sub2: nat, num: nat)
    requires |s.steps| == 2 && Stepper(0) in s.data && Stepper(1) in s.data
  {
    sub1 < LINES && (num > 1 ==> sub2 < LINES) ==>
      var two := TwoSteps(a1, sub1, a2, sub2, num);
      && (s.steps[0] == a1 ==> KeptRight(s, Id(Stepper(0), sub1)))
      && (two && a1 == a2 && s.steps[0] == a1 ==> KeptRight(s, Id(Stepper(0), sub2)))
      && (two && a1 != a2 && s.steps[1] == a2 ==> KeptRight(s, Id(Stepper(1), sub2)))
  }

  lemma OffSame(s: State, a1: nat, sub1: nat, a2: nat, sub2: nat, num: nat)
    requires Stepper(0) in s.data && Stepper(1) in s.data && |s.steps| == 2 && NoSteps(StepsOff(s))
    ensures OnetimeKept(StepsOff(s), a1, sub1, a2, sub2, num) == OnetimeKept(s, a1, sub1, a2, sub2, num)
  {
    hide StepsOff, KeptRight, NoSteps, Get;
    if sub1 < LINES && (num > 1 ==> sub2 < LINES) {
      OffKeptSame(s, Id(Stepper(0), sub1));
      if num > 1 {
        OffKeptSame(s, Id(Stepper(0), sub2));
        OffKeptSame(s, Id(Stepper(1), sub2));
      }
    }
  }

  lemma FirstSplit(decode: Decoder, t: State, a: nat, sub: nat)
    requires NoSteps(t) && DecoderOk(decode) && sub < LINES
    ensures var q, id := Aim(decode, t, 0, a), Id(Stepper(0), sub);
            && Has(q, id)
            && (CanStep(decode, t, 0, a, sub) <==> ByteFree(q, id) && (t.steps[0] == a ==> KeptRight(t, id)))
  {
    hide Good, MemoryOk, ShapeOk, DecoderOk, CanEnable, ByteFree, SameCode, KeptRight, SpotFree, Unused;
    FirstFacts(decode, t, a, sub);
    if t.steps[0] == a { EnableParts(t, Id(Stepper(0), sub)); }
  }

  /** A line of the first owner that was decoded just now and can be reached has kept the right
      byte. */
  lemma FreshKept(decode: Decoder, t: State, a: nat, sub1: nat, sub2: nat)
    requires NoSteps(t) && DecoderOk(decode) && sub1 < LINES && sub2 < LINES && sub1 != sub2 && t.steps[0] != a
    ensures var u, id := FirstStep(decode, t, a, sub1), Id(Stepper(0), sub2);
            Has(u, id) && (ByteFree(u, id) ==> KeptRight(u, id))
  {
    hide Good, MemoryOk, ShapeOk, DecoderOk, CanEnable, KeptRight, SpotFree, Unused, Aim, Toggle, CanStep;
    var q, u := Aim(decode, t, 0, a), FirstStep(decode, t, a, sub1);
    var id1, id := Id(Stepper(0), sub1), Id(Stepper(0), sub2);
    FirstFacts(decode, t, a, sub2);
    LineUnused(q, Stepper(0), sub1);
    LineUnused(q, Stepper(0), sub2);
    ToggleFrame(q, id1, id);
    if ByteFree(u, id) {
      if Get(q, id).pos in q.dt { ToggleGrows(q, id1, Get(q, id).pos); }
      assert ByteFree(q, id);
      EnableParts(q, id);
      KeptSame(q, u, id);
    }
  }

  lemma LineUnused(s: State, o: Owner, k: nat)
    requires o in s.data && Unused(s, o) && k < LINES
    ensures Has(s, Id(o, k)) && !Get(s, Id(o, k)).used
  {
  }

  lemma FirstKept(decode: Decoder, t: State, a: nat, sub: nat, x: Id)
    requires NoSteps(t) && DecoderOk(decode) && sub < LINES && Has(t, x) && x != Id(Stepper(0), sub)
    requires t.steps[0] == a || x.owner != Stepper(0)
    ensures var u := FirstStep(decode, t, a, sub);
            Has(u, x) && KeptRight(u, x) == KeptRight(t, x) && u.steps[1] == t.steps[1]
  {
    hide Good, MemoryOk, ShapeOk, DecoderOk, KeptRight, Unused, Toggle, Aim;
    var q, u, id := Aim(decode, t, 0, a), FirstStep(decode, t, a, sub), Id(Stepper(0), sub);
    AimKeeps(decode, t, a, x);
    ToggleFrame(q, id, x);
    KeptSame(t, u, x);
  }

  lemma AimKeeps(decode: Decoder, t: State, a: nat, x: Id)
    requires MemoryOk(t) && DecoderOk(decode) && Stepper(0) in t.data && |t.steps| == 2 && Has(t, x)
    requires t.steps[0] == a || x.owner != Stepper(0)
    ensures Has(Aim(decode, t, 0, a), x) && Get(Aim(decode, t, 0, a), x) == Get(t, x)
  {
    hide MemoryOk, DecoderOk, Update;
    if t.steps[0] != a { AimOther(decode, t, 0, a, x); }
  }

  lemma SecondSplit(decode: Decoder, u: State, a1: nat, a2: nat, sub2: nat)
    requires Good(u) && MemoryOk(u) && ShapeOk(u) && DecoderOk(decode) && sub2 < LINES && |u.steps| == 2
    requires Stepper(0) in u.data && Stepper(1) in u.data && Unused(u, Stepper(1))
    ensures var id0, id1 := Id(Stepper(0), sub2), Id(Stepper(1), sub2);
            var kept := (a1 == a2 ==> KeptRight(u, id0)) && (a1 != a2 && u.steps[1] == a2 ==> KeptRight(u, id1));
            && (SecondAllowed(decode, u, a1, a2, sub2) <==> NoShare(SecondStep(decode, u, a1, a2, sub2)) && kept)
            && (a1 == a2 ==> (NoShare(SecondStep(decode, u, a1, a2, sub2)) <==> ByteFree(u, id0)))
  {
    hide Good, MemoryOk, ShapeOk, DecoderOk, Toggle, CanEnable, SpotFree, ByteFree, KeptRight, NoShare, Unused;
    hide SameCode;
    if a1 == a2 {
      EnableParts(u, Id(Stepper(0), sub2));
      ToggleShares(u, Id(Stepper(0), sub2));
    } else {
      AimGood(decode, u, 1, a2, sub2);
      ToggleShares(Aim(decode, u, 1, a2), Id(Stepper(1), sub2));
      if u.steps[1] == a2 { EnableParts(u, Id(Stepper(1), sub2)); }
    }
  }

  /** A single step may be taken exactly when no two used lines end up on one byte and the lines
      enabled without being decoded again have kept the right byte. */
  lemma OnetimeSplit(decode: Decoder, s: State, a1: nat, sub1: nat, a2: nat, sub2: nat, num: nat)
    requires Good(s) && MemoryOk(s) && ShapeOk(s) && DecoderOk(decode)
    requires |s.steps| == 2 && Stepper(0) in s.data && Stepper(1) in s.data
    ensures OnetimeAllowed(decode, s, a1, sub1, a2, sub2, num)
       <==> NoShare(Onetime(decode, s, a1, sub1, a2, sub2, num)) && OnetimeKept(s, a1, sub1, a2, sub2, num)
  {
    OnetimeCases(decode, s, a1, sub1, a2, sub2, num);
    StepsAreOff(s);
    OffSame(s, a1, sub1, a2, sub2, num);
    hide Good, Claims, MemoryOk, ShapeOk, DecoderOk, CanStep, SecondAllowed, StepsOff, OnetimeKept, NoShare;
    hide Onetime, FirstStep, SecondStep, NoSteps;
    if sub1 < LINES && (num > 1 ==> sub2 < LINES) {
      StepSplit(decode, StepsOff(s), a1, sub1, a2, sub2, num);
    } else {
      GoodClaims(s);
      ClaimsNoShare(s);
      NoLines(s, a1, sub1, a2, sub2, num);
    }
  }

  lemma NoLines(s: State, a1: nat, sub1: nat, a2: nat, sub2: nat, num: nat)
    requires |s.steps| == 2 && Stepper(0) in s.data && Stepper(1) in s.data
    requires sub1 >= LINES || (num > 1 && sub2 >= LINES)
    ensures OnetimeKept(s, a1, sub1, a2, sub2, num)
  {
  }

  lemma StepSplit(decode: Decoder, t: State, a1: nat, sub1: nat, a2: nat, sub2: nat, num: nat)
    requires NoSteps(t) && DecoderOk(decode) && sub1 < LINES && (num > 1 ==> sub2 < LINES)
    ensures var u, two := FirstStep(decode, t, a1, sub1), TwoSteps(a1, sub1, a2, sub2, num);
            var r := if two then SecondStep(decode, u, a1, a2, sub2) else u;
            CanStep(decode, t, 0, a1, sub1) && (two ==> SecondAllowed(decode, u, a1, a2, sub2))
            <==> NoShare(r) && OnetimeKept(t, a1, sub1, a2, sub2, num)
  {
    var q, id, u := Aim(decode, t, 0, a1), Id(Stepper(0), sub1), FirstStep(decode, t, a1, sub1);
    FirstSplit(decode, t, a1, sub1);
    FirstFacts(decode, t, a1, sub1);
    FirstUsed(q, sub1);
    ToggleShares(q, id);
    ToggleExactly(q, id);
    hide Good, Claims, MemoryOk, ShapeOk, DecoderOk, Toggle, Aim, CanEnable, CanStep, ByteFree, SecondAllowed;
    hide KeptRight, SecondStep, Unused, NoShare, SameCode;
    if TwoSteps(a1, sub1, a2, sub2, num) {
      if ByteFree(q, id) {
        if CanStep(decode, t, 0, a1, sub1) {
          SecondSplit(decode, u, a1, a2, sub2);
          if a1 == a2 {
            if t.steps[0] == a1 {
              FirstKept(decode, t, a1, sub1, Id(Stepper(0), sub2));
            } else {
              FreshKept(decode, t, a1, sub1, sub2);
            }
          } else {
            FirstKept(decode, t, a1, sub1, Id(Stepper(1), sub2));
          }
        }
      } else {
        var w := ToggleMeets(q, id);
        SecondShares(decode, u, a1, a2, sub2, id, w);
        SharesMeans(SecondStep(decode, u, a1, a2, sub2), id, w);
      }
    }
  }

  predicate ToggleKept(s: State, a: nat, sub: nat) {
    sub < LINES && Regular(a) in s.data ==> KeptRight(s, Id(Regular(a), sub))
  }

  lemma ErasedShares(s: State, a: nat)
    requires Regular(a) in s.data && !AnyUsed(s, Regular(a)) && NoShare(s)
    ensures NoShare(Erased(s, a))
  {
    var r := Erased(s, a);
    forall x, y | Has(r, x) && Has(r, y) && x != y && Get(r, x).used && Get(r, y).used && Get(r, x).pos != 0
      ensures Get(r, x).pos != Get(r, y).pos
    {
      assert Has(s, x) && Has(s, y);
    }
  }

  /** A toggle from outside may be taken exactly when no two used lines end up on one byte and a
      line that was there has kept the right byte. */
  lemma ToggleAtSplit(decode: Decoder, s: State, a: nat, sub: nat)
    requires Good(s) && MemoryOk(s) && DecoderOk(decode)
    ensures ToggleAllowed(decode, s, a, sub) <==> NoShare(ToggleAt(decode, s, a, sub)) && ToggleKept(s, a, sub)
  {
    hide Good, Claims, Toggle, Update, SameCode, CanEnable, SpotFree, ByteFree, KeptRight, NoShare, MemoryOk, DecoderOk;
    hide Erased;
    var id := Id(Regular(a), sub);
    if sub >= LINES {
      GoodClaims(s);
      ClaimsNoShare(s);
    } else if Regular(a) in s.data {
      EnableParts(s, id);
      ToggleShares(s, id);
      ToggleFrame(s, id, id);
      var t := Toggle(s, id);
      if !AnyUsed(t, Regular(a)) {
        UsedCanToggle(s, id);
        ErasedShares(t, a);
      }
    } else {
      ToggleNew(decode, s, a, sub);
      ToggleShares(Update(decode, Added(s, a), Regular(a)), id);
    }
  }

  // ----- runs -----

  datatype Event =
    | ToggleBreak(a: nat, sub: nat)
    | SetOnetime(a1: nat, sub1: nat, a2: nat, sub2: nat, num: nat)
    | UnsetOnetime
    | Recompile(page: nat, code: Code, bytes: seq<Byte>)

  lemma SameSteps(s: State, r: State)
    requires MemoryOk(s) && ShapeOk(s) && r.steps == s.steps && SameMemory(s, r)
    requires forall o :: o in r.data && o !in s.data ==> o.Regular?
    requires Stepper(0) in r.data && Stepper(1) in r.data
    ensures MemoryOk(r) && ShapeOk(r)
  {
  }

  predicate SameMemory(s: State, r: State) {
    r.host.Keys == s.host.Keys && r.pristine == s.pristine && r.blocks == s.blocks && r.width == s.width
  }

  lemma ToggleAtShape(decode: Decoder, s: State, a: nat, sub: nat)
    requires MemoryOk(s) && ShapeOk(s) && DecoderOk(decode)
    ensures MemoryOk(ToggleAt(decode, s, a, sub)) && ShapeOk(ToggleAt(decode, s, a, sub))
  {
    hide Toggle, Update, DecoderOk, AnyUsed;
    SameSteps(s, ToggleAt(decode, s, a, sub));
  }

  lemma OnetimeShape(decode: Decoder, s: State, a1: nat, sub1: nat, a2: nat, sub2: nat, num: nat)
    requires MemoryOk(s) && ShapeOk(s) && DecoderOk(decode)
    ensures var r := Onetime(decode, s, a1, sub1, a2, sub2, num); MemoryOk(r) && ShapeOk(r)
  {
    hide MemoryOk, ShapeOk, DecoderOk, Onetime, SecondStep, FirstStep;
    OnetimeCases(decode, s, a1, sub1, a2, sub2, num);
  }

  lemma StepsOffShape(s: State)
    requires MemoryOk(s) && ShapeOk(s)
    ensures MemoryOk(StepsOff(s)) && ShapeOk(StepsOff(s))
  {
    hide StepsOff;
    SameShape(s, StepsOff(s));
  }

  lemma RecompiledShape(decode: Decoder, s: State, page: nat, code: Code, bytes: seq<Byte>)
    requires MemoryOk(s) && ShapeOk(s) && DecoderOk(decode) && Fits(s, page, code, bytes)
    ensures var r := Recompiled(decode, s, page, code, bytes); MemoryOk(r) && ShapeOk(r)
  {
    ReplacedShape(s, page, code, bytes);
    hide MemoryOk, ShapeOk, DecoderOk, Fits, Replaced, UpdatedTo;
    var t := Replaced(s, page, code, bytes);
    UpdatedToSame(decode, t, page, PAGE + 2);
    SameShape(t, UpdatedTo(decode, t, page, PAGE + 2));
  }

  /** Anything can be toggled or stepped; a block that does not fit is not recompiled. */
  ghost function Step(decode: Decoder, s: State, e: Event): (r: State)
    requires MemoryOk(s) && ShapeOk(s) && DecoderOk(decode)
    ensures MemoryOk(r) && ShapeOk(r)
  {
    match e
    case ToggleBreak(a, sub) =>
      ToggleAtShape(decode, s, a, sub);
      ToggleAt(decode, s, a, sub)
    case SetOnetime(a1, sub1, a2, sub2, num) =>
      OnetimeShape(decode, s, a1, sub1, a2, sub2, num);
      Onetime(decode, s, a1, sub1, a2, sub2, num)
    case UnsetOnetime =>
      StepsOffShape(s);
      StepsOff(s)
    case Recompile(page, code, bytes) =>
      if Fits(s, page, code, bytes) then
        RecompiledShape(decode, s, page, code, bytes);
        Recompiled(decode, s, page, code, bytes)
      else s
  }

  /** When a step may be taken, on the state before it. */
  ghost predicate Allowed(decode: Decoder, s: State, e: Event)
    requires MemoryOk(s) && ShapeOk(s) && DecoderOk(decode)
  {
    match e
    case ToggleBreak(a, sub) => ToggleAllowed(decode, s, a, sub)
    case SetOnetime(a1, sub1, a2, sub2, num) => OnetimeAllowed(decode, s, a1, sub1, a2, sub2, num)
    case UnsetOnetime => true
    case Recompile(page, code, bytes) =>
      Fits(s, page, code, bytes) ==>
        (ReplacedMemory(s, page, code, bytes); NoClashes(decode, Replaced(s, page, code, bytes), page))
  }

  /** What a step needs besides no two used breakpoints on one byte: a line enabled where it was
      placed before has kept the right byte, and no new patch is put where an owner still to come
      had an old one. */
  ghost predicate Kept(decode: Decoder, s: State, e: Event)
    requires MemoryOk(s) && ShapeOk(s) && DecoderOk(decode)
  {
    match e
    case ToggleBreak(a, sub) => ToggleKept(s, a, sub)
    case SetOnetime(a1, sub1, a2, sub2, num) => OnetimeKept(s, a1, sub1, a2, sub2, num)
    case UnsetOnetime => true
    case Recompile(page, code, bytes) =>
      Fits(s, page, code, bytes) ==>
        (ReplacedMemory(s, page, code, bytes); AllMissOld(decode, Replaced(s, page, code, bytes), page))
  }

  /** A step keeps the claims exactly when it may be taken. */
  lemma StepExactly(decode: Decoder, s: State, e: Event)
    requires Good(s) && MemoryOk(s) && ShapeOk(s) && DecoderOk(decode)
    ensures Good(Step(decode, s, e)) <==> Allowed(decode, s, e)
    ensures Claims(Step(decode, s, e)) <==> Allowed(decode, s, e)
  {
    hide Good, Claims, ToggleAt, ToggleAllowed, Onetime, OnetimeAllowed, StepsOff, Recompiled, MemoryOk, ShapeOk;
    hide DecoderOk, Fits, NoClashes, AllMissOld, NoShare, Replaced;
    match e {
      case ToggleBreak(a, sub) => ToggleAtExactly(decode, s, a, sub);
      case SetOnetime(a1, sub1, a2, sub2, num) => OnetimeExactly(decode, s, a1, sub1, a2, sub2, num);
      case UnsetOnetime =>
        StepsOffGood(s);
        GoodClaims(StepsOff(s));
      case Recompile(page, code, bytes) =>
        if Fits(s, page, code, bytes) { RecompiledExactly(decode, s, page, code, bytes); } else { GoodClaims(s); }
    }
  }

  /** A step may be taken exactly when no two used breakpoints end up on one byte and what else it
      needs holds. */
  lemma StepParts(decode: Decoder, s: State, e: Event)
    requires Good(s) && MemoryOk(s) && ShapeOk(s) && DecoderOk(decode)
    ensures Allowed(decode, s, e) <==> NoShare(Step(decode, s, e)) && Kept(decode, s, e)
  {
    StepExactly(decode, s, e);
    GoodParts(s);
    hide Good, Claims, ToggleAt, ToggleAllowed, Onetime, OnetimeAllowed, StepsOff, Recompiled, MemoryOk, ShapeOk;
    hide DecoderOk, Fits, NoClashes, AllMissOld, NoShare, Replaced, ToggleKept, OnetimeKept;
    match e {
      case ToggleBreak(a, sub) => ToggleAtSplit(decode, s, a, sub);
      case SetOnetime(a1, sub1, a2, sub2, num) => OnetimeSplit(decode, s, a1, sub1, a2, sub2, num);
      case UnsetOnetime => ClaimsNoShare(StepsOff(s));
      case Recompile(page, code, bytes) =>
        if Fits(s, page, code, bytes) { RecompiledExactly(decode, s, page, code, bytes); } else { ClaimsNoShare(s); }
    }
  }

  ghost function Run(decode: Decoder, s: State, events: seq<Event>): (r: State)
    requires MemoryOk(s) && ShapeOk(s) && DecoderOk(decode)
    ensures MemoryOk(r) && ShapeOk(r)
    decreases |events|
  {
    if events == [] then s
    else Step(decode, Run(decode, s, events[..|events| - 1]), events[|events| - 1])
  }

  /** Every step is one that may be taken. */
  ghost predicate AllAllowed(decode: Decoder, s: State, events: seq<Event>)
    requires MemoryOk(s) && ShapeOk(s) && DecoderOk(decode)
  {
    forall k :: 0 <= k < |events| ==> Allowed(decode, Run(decode, s, events[..k]), events[k])
  }

  /** The step puts no two used breakpoints on one byte and finds what else it needs. */
  ghost predicate ApartAt(decode: Decoder, s: State, events: seq<Event>, k: nat)
    requires MemoryOk(s) && ShapeOk(s) && DecoderOk(decode) && k < |events|
  {
    NoShare(Run(decode, s, events[..k + 1])) && Kept(decode, Run(decode, s, events[..k]), events[k])
  }

  ghost predicate AllApart(decode: Decoder, s: State, events: seq<Event>)
    requires MemoryOk(s) && ShapeOk(s) && DecoderOk(decode)
  {
    forall k :: 0 <= k < |events| ==> ApartAt(decode, s, events, k)
  }

  ghost predicate AlwaysClaims(decode: Decoder, s: State, events: seq<Event>)
    requires MemoryOk(s) && ShapeOk(s) && DecoderOk(decode)
  {
    forall k :: 0 <= k <= |events| ==> Claims(Run(decode, s, events[..k]))
  }

  lemma {:induction false} RunNext(decode: Decoder, s: State, events: seq<Event>, k: nat)
    requires MemoryOk(s) && ShapeOk(s) && DecoderOk(decode) && k < |events|
    ensures Run(decode, s, events[..k + 1]) == Step(decode, Run(decode, s, events[..k]), events[k])
  {
    hide Step, MemoryOk, ShapeOk, DecoderOk;
    assert events[..k + 1][..k] == events[..k] && events[..k + 1][k] == events[k];
  }

  lemma {:induction false} GoodAlong(decode: Decoder, s: State, events: seq<Event>, k: nat)
    requires Good(s) && MemoryOk(s) && ShapeOk(s) && DecoderOk(decode) && k <= |events|
    requires forall j :: 0 <= j < k ==> Allowed(decode, Run(decode, s, events[..j]), events[j])
    ensures Good(Run(decode, s, events[..k]))
    decreases k
  {
    hide Step, Good, MemoryOk, ShapeOk, DecoderOk, Allowed;
    if k > 0 {
      GoodAlong(decode, s, events, k - 1);
      RunNext(decode, s, events, k - 1);
      StepExactly(decode, Run(decode, s, events[..k - 1]), events[k - 1]);
    }
  }

  lemma {:induction false} AllowedAlong(decode: Decoder, s: State, events: seq<Event>, k: nat)
    requires Good(s) && MemoryOk(s) && ShapeOk(s) && DecoderOk(decode) && k < |events|
    requires AlwaysClaims(decode, s, events) || AllApart(decode, s, events)
    ensures forall j :: 0 <= j <= k ==> Allowed(decode, Run(decode, s, events[..j]), events[j])
    decreases k
  {
    hide Step, Run, Good, MemoryOk, ShapeOk, DecoderOk, Allowed, Kept, Claims, NoShare;
    if k > 0 { AllowedAlong(decode, s, events, k - 1); }
    GoodAlong(decode, s, events, k);
    RunNext(decode, s, events, k);
    if AllApart(decode, s, events) { assert ApartAt(decode, s, events, k); }
    StepExactly(decode, Run(decode, s, events[..k]), events[k]);
    StepParts(decode, Run(decode, s, events[..k]), events[k]);
  }

  /** A run keeps the claims throughout exactly when each of its steps may be taken, and that is
      so exactly when no two used breakpoints are ever on one byte and each step finds what else
      it needs. */
  lemma RunExactly(decode: Decoder, s: State, events: seq<Event>)
    requires Good(s) && MemoryOk(s) && ShapeOk(s) && DecoderOk(decode)
    ensures AlwaysClaims(decode, s, events) <==> AllAllowed(decode, s, events)
    ensures AllAllowed(decode, s, events) <==> AllApart(decode, s, events)
  {
    hide Step, Run, Good, MemoryOk, ShapeOk, DecoderOk, Allowed, Kept, Claims, NoShare;
    if |events| > 0 && (AlwaysClaims(decode, s, events) || AllApart(decode, s, events)) {
      AllowedAlong(decode, s, events, |events| - 1);
    }
    if AllAllowed(decode, s, events) {
      forall k | 0 <= k <= |events| ensures Claims(Run(decode, s, events[..k])) {
        GoodAlong(decode, s, events, k);
        GoodClaims(Run(decode, s, events[..k]));
      }
      forall k | 0 <= k < |events| ensures ApartAt(decode, s, events, k) {
        GoodAlong(decode, s, events, k);
        RunNext(decode, s, events, k);
        StepParts(decode, Run(decode, s, events[..k]), events[k]);
      }
    }
  }

  lemma InitialGood(width: nat)
    ensures Good(Initial(width)) && MemoryOk(Initial(width)) && ShapeOk(Initial(width))
  {
  }

  /** From the start: exactly as long as no two used breakpoints are on one byte and each step
      finds what else it needs, a breakpoint is patched just when it is used and placed, the table
      leads to it from its byte, and putting the kept bytes back gives the code as compiled. */
  lemma PatchingIsUndoable(decode: Decoder, width: nat, events: seq<Event>)
    requires DecoderOk(decode)
    ensures MemoryOk(Initial(width)) && ShapeOk(Initial(width))
    ensures AllApart(decode, Initial(width), events) <==> AlwaysClaims(decode, Initial(width), events)
  {
    hide AllApart, AlwaysClaims, AllAllowed, Good, MemoryOk, ShapeOk, DecoderOk;
    InitialGood(width);
    RunExactly(decode, Initial(width), events);
  }
}
