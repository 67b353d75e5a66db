/**
 What the code emitted for STM and LDM does, and that an LDM with writeback undoes the
 matching STM with writeback.
 */
module BlockTransferProof {
  import opened Memory
  import opened ArrayAccess
  import opened BlockTransfer

  /** The lowest address of a transfer of `n` registers. */
  function Start(mode: Mode, base: Word, n: nat): Word
    requires n >= 1
  {
    match mode
    case IA => base
    case IB => Plus(base, 4)
    case DA => Minus(base, 4 * (n - 1))
    case DB => Minus(base, 4 * n)
  }

  /** The base after writeback. */
  function Updated(mode: Mode, base: Word, n: nat): Word {
    if mode in {DA, DB} then Minus(base, 4 * n) else Plus(base, 4 * n)
  }

  function Opposite(mode: Mode): Mode {
    match mode case DA => IB case IB => DA case DB => IA case IA => DB
  }

  /** Registers, memory and success are untouched. */
  ghost predicate Kept(m: Machine, m': Machine) {
    m'.regs == m.regs && m'.blocks == m.blocks && m'.ok == m.ok
  }

  function Values(regs: Regs, s: seq<nat>): (v: seq<Word>)
    requires forall k :: 0 <= k < |s| ==> s[k] < 16
    ensures |v| == |s|
  {
    seq(|s|, k requires 0 <= k < |s| => regs[s[k]])
  }

  // ----- short pieces -----

  lemma {:induction false} RunOne(table: seq<nat>, a: Op, m: Machine)
    requires TableOk(table, m.blocks)
    ensures Run(table, [a], m) == Exec(table, a, m)
  {
    hide Exec;
    assert [a][1..] == [];
  }

  lemma {:induction false} RunTwo(table: seq<nat>, a: Op, b: Op, m: Machine)
    requires TableOk(table, m.blocks)
    ensures TableOk(table, Exec(table, a, m).blocks)
    ensures Run(table, [a, b], m) == Exec(table, b, Exec(table, a, m))
  {
    hide Exec;
    assert [a, b][1..] == [b];
    RunOne(table, b, Exec(table, a, m));
  }

  lemma {:induction false} RunThree(table: seq<nat>, a: Op, b: Op, c: Op, m: Machine)
    requires TableOk(table, m.blocks)
    ensures TableOk(table, Exec(table, a, m).blocks)
    ensures TableOk(table, Exec(table, b, Exec(table, a, m)).blocks)
    ensures Run(table, [a, b, c], m) == Exec(table, c, Exec(table, b, Exec(table, a, m)))
  {
    hide Exec;
    assert [a, b, c][1..] == [b, c];
    RunTwo(table, b, c, Exec(table, a, m));
  }

  lemma {:induction false} PushMultipleEffect(table: seq<nat>, mode: Mode, rn: nat, n: nat, m: Machine)
    requires TableOk(table, m.blocks) && rn < 16 && n >= 1
    ensures var m' := Run(table, PushMultiple(mode, rn, n), m);
            Kept(m, m') && m'.stack == [Val(Start(mode, m.regs[rn], n))] + m.stack
  {
    hide Run, StoreArray, LoadArray;
    match mode
    case IA => RunOne(table, PushReg(rn), m);
    case IB => RunThree(table, LoadEcx(rn), AddEcx(4), PushEcx, m);
    case DA => RunThree(table, LoadEcx(rn), SubEcx(4 * (n - 1)), PushEcx, m);
    case DB => RunThree(table, LoadEcx(rn), SubEcx(4 * n), PushEcx, m);
  }

  lemma {:induction false} SingleEffect(table: seq<nat>, mode: Mode, rn: nat, m: Machine)
    requires TableOk(table, m.blocks) && rn < 16
    ensures var m' := Run(table, LoadEcxSingle(mode, rn), m);
            Kept(m, m') && m'.stack == m.stack && m'.ecx == Start(mode, m.regs[rn], 1)
  {
    hide Run, StoreArray, LoadArray;
    match mode
    case IA => assert LoadEcxSingle(mode, rn) == [LoadEcx(rn)]; RunOne(table, LoadEcx(rn), m);
    case DA => assert LoadEcxSingle(mode, rn) == [LoadEcx(rn)]; RunOne(table, LoadEcx(rn), m);
    case IB => assert LoadEcxSingle(mode, rn) == [LoadEcx(rn), AddEcx(4)]; RunTwo(table, LoadEcx(rn), AddEcx(4), m);
    case DB => assert LoadEcxSingle(mode, rn) == [LoadEcx(rn), SubEcx(4)]; RunTwo(table, LoadEcx(rn), SubEcx(4), m);
  }

  lemma {:induction false} UpdateEffect(table: seq<nat>, mode: Mode, rn: nat, n: nat, m: Machine)
    requires TableOk(table, m.blocks) && rn < 16
    ensures Run(table, UpdateDest(mode, rn, n), m)
         == m.(regs := m.regs[rn := Updated(mode, m.regs[rn], n)])
  {
    hide Run, StoreArray, LoadArray;
    RunOne(table, if mode in {DA, DB} then SubReg(rn, 4 * n) else AddReg(rn, 4 * n), m);
  }

  lemma {:induction false} PushListEffect(table: seq<nat>, s: seq<nat>, m: Machine)
    requires TableOk(table, m.blocks) && forall k :: 0 <= k < |s| ==> s[k] < 16
    ensures Run(table, PushList(s), m) == m.(stack := Vals(Values(m.regs, s)) + m.stack)
    decreases |s|
  {
    hide Exec, Run;
    if |s| == 0 {
      RunNothing(table, m);
      assert Vals(Values(m.regs, s)) + m.stack == m.stack;
    } else {
      PushListEffect(table, s[1..], m);
      RunAppend(table, PushList(s[1..]), [PushReg(s[0])], m);
      var m1 := Run(table, PushList(s[1..]), m);
      RunOne(table, PushReg(s[0]), m1);
      PushRegEffect(table, s[0], m1);
      assert Vals(Values(m.regs, s)) == [Val(m.regs[s[0]])] + Vals(Values(m.regs, s[1..]));
      assert [Val(m.regs[s[0]])] + (Vals(Values(m.regs, s[1..])) + m.stack)
          == Vals(Values(m.regs, s)) + m.stack;
    }
  }

  lemma {:induction false} RunNothing(table: seq<nat>, m: Machine)
    requires TableOk(table, m.blocks)
    ensures Run(table, [], m) == m
  {
  }

  lemma PushRegEffect(table: seq<nat>, r: nat, m: Machine)
    requires TableOk(table, m.blocks) && r < 16
    ensures Exec(table, PushReg(r), m) == m.(stack := [Val(m.regs[r])] + m.stack)
  {
    hide StoreArray, LoadArray;
  }

  // ----- storing several registers -----

  /** The array argument on the stack stands for the listed registers. */
  ghost predicate ArgumentPushed(m: Machine, m': Machine, s: seq<nat>, extra: nat)
    requires forall k :: 0 <= k < |s| ==> s[k] < 16
  {
    && Kept(m, m')
    && |m'.stack| == 1 + extra + |m.stack| && m'.stack[1 + extra..] == m.stack
    && forall x, y :: DerefUnder(m', x, y, s) == (true, Values(m.regs, s))
  }

  /** The array as the callee sees it, with the count and the address on top. */
  function DerefUnder(m: Machine, x: Slot, y: Slot, s: seq<nat>): (bool, seq<Word>)
    requires |m.stack| > 0
  {
    Deref(m.(stack := [x, y] + m.stack), m.stack[0], |s|)
  }

  lemma {:induction false} RegionArgument(table: seq<nat>, s: seq<nat>, m: Machine)
    requires TableOk(table, m.blocks) && |s| > 0 && IsRegion(s)
    requires forall k :: 0 <= k < |s| ==> s[k] < 16
    ensures ArgumentPushed(m, Run(table, [PushRegAddr(s[0])], m), s, 0)
  {
    hide Run, StoreArray, LoadArray;
    RunOne(table, PushRegAddr(s[0]), m);
    var m' := Run(table, [PushRegAddr(s[0])], m);
    assert s[|s| - 1] == s[0] + (|s| - 1);
    assert m.regs[s[0]..s[0] + |s|] == Values(m.regs, s);
  }

  lemma {:induction false} ScatteredArgument(table: seq<nat>, s: seq<nat>, m: Machine)
    requires TableOk(table, m.blocks) && |s| > 0
    requires forall k :: 0 <= k < |s| ==> s[k] < 16
    ensures ArgumentPushed(m, Run(table, PushList(s) + [PushEsp], m), s, |s|)
  {
    hide Run, StoreArray, LoadArray;
    RunAppend(table, PushList(s), [PushEsp], m);
    PushListEffect(table, s, m);
    var m1 := Run(table, PushList(s), m);
    RunOne(table, PushEsp, m1);
    var m' := Run(table, PushList(s) + [PushEsp], m);
    assert m'.stack == [StackPtr(|m1.stack|)] + m1.stack;
    assert m'.stack[1 + |s|..] == m.stack;
    forall x, y ensures DerefUnder(m', x, y, s) == (true, Values(m.regs, s)) {
      ArrayOnStack(m1.stack, Values(m.regs, s), m.stack, x, y, StackPtr(|m1.stack|));
    }
  }

  /** An array that was on top of the stack, with three slots pushed over it. */
  lemma ArrayOnStack(s: seq<Slot>, w: seq<Word>, rest: seq<Slot>, x: Slot, y: Slot, z: Slot)
    requires s == Vals(w) + rest
    ensures var t := [x, y] + ([z] + s);
            |t| - |s| == 3 && AllVals(t, 3, |w|) && Words(t, 3, |w|) == w
  {
    var t := [x, y] + ([z] + s);
    forall k | 3 <= k < 3 + |w| ensures t[k] == Val(w[k - 3]) {
      assert t[k] == s[k - 3];
    }
  }

  lemma CallStoreEffect(table: seq<nat>, s: seq<nat>, start: Word, extra: nat, m0: Machine, m: Machine)
    requires TableOk(table, m.blocks) && forall k :: 0 <= k < |s| ==> s[k] < 16
    requires ArgumentPushed(m0, m, s, extra) && |s| <= 16
    ensures var m2 := m.(stack := [Val(start), Val(|s|)] + m.stack);
            var m3 := Exec(table, CallStoreArray, m2);
            && TableOk(table, m3.blocks)
            && var r := StoreArray(table, m.blocks, start, Values(m.regs, s));
               && m3.regs == m0.regs && m3.stack == m2.stack
               && (PageOk(table, m.blocks, start) ==> m3.blocks == r.blocks && m3.ok == (m.ok && r.ok))
  {
    hide StoreArray, LoadArray, Deref;
    assert DerefUnder(m, Val(start), Val(|s|), s) == (true, Values(m.regs, s));
  }

  lemma {:induction false} PushNumEffect(table: seq<nat>, n: nat, m: Machine)
    requires TableOk(table, m.blocks) && n < SPACE
    ensures Run(table, [PushNum(n)], m) == m.(stack := [Val(n)] + m.stack)
  {
    hide Run, StoreArray, LoadArray;
    RunOne(table, PushNum(n), m);
  }

  lemma AddEspEffect(table: seq<nat>, n: nat, m: Machine)
    requires TableOk(table, m.blocks) && n <= |m.stack|
    ensures Exec(table, AddEsp(n), m) == m.(stack := m.stack[n..])
  {
    hide StoreArray, LoadArray;
  }

  /** Count, address, call and clean-up, once the array argument is there. */
  lemma {:induction false} StoreCall(table: seq<nat>, mode: Mode, rn: nat, s: seq<nat>, extra: nat,
                                     m0: Machine, m: Machine)
    requires TableOk(table, m.blocks) && rn < 16 && 1 <= |s| <= 16
    requires forall k :: 0 <= k < |s| ==> s[k] < 16
    requires ArgumentPushed(m0, m, s, extra) && m0.ok
    requires PageOk(table, m.blocks, Start(mode, m.regs[rn], |s|))
    ensures var m' := Run(table, [PushNum(|s|)] + PushMultiple(mode, rn, |s|)
                                 + [CallStoreArray, AddEsp(extra + 3)], m);
            var r := StoreArray(table, m.blocks, Start(mode, m.regs[rn], |s|), Values(m.regs, s));
            m'.regs == m0.regs && m'.stack == m0.stack && m'.blocks == r.blocks && m'.ok == r.ok
  {
    hide Run, Exec, StoreArray, Start, ArgumentPushed, PageOk;
    var n := |s|;
    RunAppend(table, [PushNum(n)] + PushMultiple(mode, rn, n), [CallStoreArray, AddEsp(extra + 3)], m);
    RunAppend(table, [PushNum(n)], PushMultiple(mode, rn, n), m);
    PushNumEffect(table, n, m);
    var m1 := Run(table, [PushNum(n)], m);
    PushMultipleEffect(table, mode, rn, n, m1);
    var m2 := Run(table, PushMultiple(mode, rn, n), m1);
    var start := Start(mode, m.regs[rn], n);
    var m2' := m.(stack := [Val(start), Val(n)] + m.stack);
    assert m2.stack == [Val(start), Val(n)] + m.stack;
    RunTwo(table, CallStoreArray, AddEsp(extra + 3), m2);
    CallStoreSame(table, m2, m2');
    CallStoreEffect(table, s, start, extra, m0, m);
    var m3 := Exec(table, CallStoreArray, m2);
    ArgumentStack(m0, m, s, extra, [Val(start), Val(n)]);
    AddEspEffect(table, extra + 3, m3);
  }

  lemma ArgumentStack(m0: Machine, m: Machine, s: seq<nat>, extra: nat, top: seq<Slot>)
    requires forall k :: 0 <= k < |s| ==> s[k] < 16
    requires ArgumentPushed(m0, m, s, extra) && |top| == 2
    ensures |top + m.stack| >= extra + 3 && (top + m.stack)[extra + 3..] == m0.stack
    ensures Kept(m0, m)
  {
    assert (top + m.stack)[extra + 3..] == m.stack[1 + extra..];
  }

  /** A call does not look at ECX and EDX. */
  lemma CallStoreSame(table: seq<nat>, m: Machine, m': Machine)
    requires TableOk(table, m.blocks) && Kept(m, m') && m.stack == m'.stack
    ensures TableOk(table, Exec(table, CallStoreArray, m).blocks)
    ensures var a, b := Exec(table, CallStoreArray, m), Exec(table, CallStoreArray, m');
            Kept(a, b) && a.stack == b.stack
  {
    hide StoreArray, LoadArray;
  }

  // ----- STM -----

  /** What the memory looks like after a transfer of the listed registers to memory. */
  function StoredRegs(table: seq<nat>, blocks: Blocks, start: Word, v: seq<Word>): Stored
    requires TableOk(table, blocks)
  {
    if |v| == 1 then
      if blocks[BlockOf(table, start)].Writable() then
        CellFits(Align(start), 4);
        Stored(Dirty(Store(table, blocks, Align(start), ToBytes(v[0])), BlockOf(table, start)), true)
      else Stored(blocks, false)
    else StoreArray(table, blocks, start, v)
  }

  lemma {:induction false} ListedBound(imm: nat, i: nat)
    requires i <= 16
    ensures |Listed(imm, i)| <= 16 - i
    decreases 16 - i
  {
    if i < 16 { ListedBound(imm / 2, i + 1); }
  }

  lemma {:induction false} StmSingle(table: seq<nat>, mode: Mode, rn: nat, r: nat, m: Machine)
    requires TableOk(table, m.blocks) && rn < 16 && r < 16 && m.ok
    requires PageOk(table, m.blocks, Start(mode, m.regs[rn], 1))
    ensures var m' := Run(table, LoadEcxSingle(mode, rn) + [LoadEdx(r), CallStore32], m);
            var q := StoredRegs(table, m.blocks, Start(mode, m.regs[rn], 1), [m.regs[r]]);
            m'.regs == m.regs && m'.stack == m.stack && m'.blocks == q.blocks && m'.ok == q.ok
  {
    hide Run, StoreArray, LoadArray, Start, Store, ToBytes;
    RunAppend(table, LoadEcxSingle(mode, rn), [LoadEdx(r), CallStore32], m);
    SingleEffect(table, mode, rn, m);
    RunTwo(table, LoadEdx(r), CallStore32, Run(table, LoadEcxSingle(mode, rn), m));
  }

  function StmMain(mode: Mode, rn: nat, s: seq<nat>): seq<Op>
    requires |s| > 0
  {
    if |s| == 1 then LoadEcxSingle(mode, rn) + [LoadEdx(s[0]), CallStore32]
    else
      var region := IsRegion(s);
      (if region then [PushRegAddr(s[0])] else PushList(s) + [PushEsp])
        + ([PushNum(|s|)] + PushMultiple(mode, rn, |s|)
           + [CallStoreArray, AddEsp((if region then 0 else |s|) + 3)])
  }

  lemma {:induction false} StmMainEffect(table: seq<nat>, mode: Mode, rn: nat, s: seq<nat>, m: Machine)
    requires TableOk(table, m.blocks) && rn < 16 && m.ok && 1 <= |s| <= 16
    requires forall k :: 0 <= k < |s| ==> s[k] < 16
    requires PageOk(table, m.blocks, Start(mode, m.regs[rn], |s|))
    ensures var m' := Run(table, StmMain(mode, rn, s), m);
            var q := StoredRegs(table, m.blocks, Start(mode, m.regs[rn], |s|), Values(m.regs, s));
            m'.regs == m.regs && m'.stack == m.stack && m'.blocks == q.blocks && m'.ok == q.ok
  {
    hide Run, StoreArray, Start, Store, PageOk, PushMultiple, LoadEcxSingle, ArgumentPushed;
    if |s| == 1 {
      assert Values(m.regs, s) == [m.regs[s[0]]];
      StmSingle(table, mode, rn, s[0], m);
    } else {
      var region := IsRegion(s);
      var argument := if region then [PushRegAddr(s[0])] else PushList(s) + [PushEsp];
      var call := [PushNum(|s|)] + PushMultiple(mode, rn, |s|)
                  + [CallStoreArray, AddEsp((if region then 0 else |s|) + 3)];
      RunAppend(table, argument, call, m);
      if region { RegionArgument(table, s, m); } else { ScatteredArgument(table, s, m); }
      var m1 := Run(table, argument, m);
      ArgumentKept(m, m1, s, if region then 0 else |s|);
      StoreCall(table, mode, rn, s, if region then 0 else |s|, m, m1);
    }
  }

  lemma ArgumentKept(m: Machine, m': Machine, s: seq<nat>, extra: nat)
    requires forall k :: 0 <= k < |s| ==> s[k] < 16
    requires ArgumentPushed(m, m', s, extra)
    ensures Kept(m, m')
  {
  }

  lemma {:induction false} StmCodeSplit(wb: bool, mode: Mode, rn: nat, imm: nat)
    requires |Listed(imm, 0)| > 0
    ensures var s := Listed(imm, 0);
            StmCode(wb, mode, rn, imm)
            == StmMain(mode, rn, s) + (if wb then UpdateDest(mode, rn, |s|) else [])
  {
    hide Listed, PushMultiple, LoadEcxSingle, PushList, UpdateDest, IsRegion;
    var s := Listed(imm, 0);
    if |s| > 1 {
      var region := IsRegion(s);
      var x := if region then [PushRegAddr(s[0])] else PushList(s) + [PushEsp];
      var y := [PushNum(|s|)] + PushMultiple(mode, rn, |s|);
      var z := [CallStoreArray, AddEsp((if region then 0 else |s|) + 3)];
      assert x + [PushNum(|s|)] + PushMultiple(mode, rn, |s|) + z == x + (y + z);
    }
  }

  /** An STM stores the listed registers, lowest register at the lowest address, and updates
      the base; nothing else changes. */
  lemma {:induction false} StmEffect(table: seq<nat>, wb: bool, mode: Mode, rn: nat, imm: nat, m: Machine)
    requires TableOk(table, m.blocks) && rn < 16 && m.ok && |Listed(imm, 0)| > 0
    requires PageOk(table, m.blocks, Start(mode, m.regs[rn], |Listed(imm, 0)|))
    ensures var s := Listed(imm, 0);
            var m' := Run(table, StmCode(wb, mode, rn, imm), m);
            var q := StoredRegs(table, m.blocks, Start(mode, m.regs[rn], |s|), Values(m.regs, s));
            && m'.regs == (if wb then m.regs[rn := Updated(mode, m.regs[rn], |s|)] else m.regs)
            && m'.stack == m.stack && m'.blocks == q.blocks && m'.ok == q.ok
  {
    hide Run, StmMain, StmCode, StoredRegs, Start, Listed, PageOk, UpdateDest, Updated;
    var s := Listed(imm, 0);
    ListedBound(imm, 0);
    StmCodeSplit(wb, mode, rn, imm);
    var update := if wb then UpdateDest(mode, rn, |s|) else [];
    RunAppend(table, StmMain(mode, rn, s), update, m);
    StmMainEffect(table, mode, rn, s, m);
    var m1 := Run(table, StmMain(mode, rn, s), m);
    if wb { UpdateEffect(table, mode, rn, |s|, m1); } else { RunNothing(table, m1); }
  }

  // ----- LDM -----

  /** The listed registers hold the given words, all others what they held. */
  ghost predicate Restored(regs: Regs, regs': Regs, s: seq<nat>, w: seq<Word>) {
    && |w| == |s| && (forall k :: 0 <= k < |s| ==> s[k] < 16 && regs'[s[k]] == w[k])
    && (forall r :: 0 <= r < 16 && r !in s ==> regs'[r] == regs[r])
  }

  /** The words a transfer from memory loads, if the pages it comes to can be used. */
  function LoadedWords(table: seq<nat>, blocks: Blocks, start: Word, n: nat): Loaded
    requires TableOk(table, blocks)
  {
    if n == 1 then
      if blocks[BlockOf(table, start)].Readable() then
        CellFits(Align(start), 4);
        Loaded([FromBytes(RotateBytes(Load(table, blocks, Align(start), 4), start % 4))], true)
      else Loaded([], false)
    else LoadArray(table, blocks, start, n)
  }

  lemma {:induction false} PopListEffect(table: seq<nat>, s: seq<nat>, w: seq<Word>, rest: seq<Slot>, m: Machine)
    requires TableOk(table, m.blocks) && m.stack == Vals(w) + rest && |w| == |s|
    requires Ascending(s) && forall k :: 0 <= k < |s| ==> s[k] < 16
    ensures var m' := Run(table, PopList(s), m);
            && Restored(m.regs, m'.regs, s, w) && m'.stack == rest
            && m'.blocks == m.blocks && m'.ok == m.ok
    decreases |s|
  {
    hide Exec;
    if |s| == 0 {
      assert Vals(w) + rest == rest;
    } else {
      assert m.stack[0] == Val(w[0]);
      assert m.stack[1..] == Vals(w[1..]) + rest;
      PopRegEffect(table, s[0], w[0], m);
      var m1 := Exec(table, PopReg(s[0]), m);
      assert PopList(s)[1..] == PopList(s[1..]);
      PopListEffect(table, s[1..], w[1..], rest, m1);
      RestoredMore(m.regs, m1.regs, Run(table, PopList(s[1..]), m1).regs, s, w);
    }
  }

  lemma PopRegEffect(table: seq<nat>, r: nat, w: Word, m: Machine)
    requires TableOk(table, m.blocks) && r < 16 && |m.stack| > 0 && m.stack[0] == Val(w)
    ensures Exec(table, PopReg(r), m) == m.(regs := m.regs[r := w], stack := m.stack[1..])
  {
    hide StoreArray, LoadArray;
  }

  lemma RestoredMore(regs: Regs, regs1: Regs, regs': Regs, s: seq<nat>, w: seq<Word>)
    requires Ascending(s) && |s| == |w| > 0 && s[0] < 16 && regs1 == regs[s[0] := w[0]]
    requires Restored(regs1, regs', s[1..], w[1..])
    ensures Restored(regs, regs', s, w)
  {
    assert s[0] !in s[1..] by {
      forall k | 0 <= k < |s[1..]| ensures s[1..][k] != s[0] { assert s[1..][k] == s[k + 1]; }
    }
    forall k | 0 <= k < |s| ensures s[k] < 16 && regs'[s[k]] == w[k] {
      if k > 0 { assert s[k] == s[1..][k - 1] && w[k] == w[1..][k - 1]; }
    }
    forall r | 0 <= r < 16 && r !in s ensures regs'[r] == regs[r] {
      assert r !in s[1..];
      assert r != s[0];
    }
  }

  /** The array argument of a load is `extra` slots on the stack or in the registers. */
  ghost predicate TargetPushed(m: Machine, m': Machine, p: Slot, below: seq<Slot>) {
    Kept(m, m') && m'.stack == [p] + below
  }

  lemma {:induction false} LoadCall(table: seq<nat>, mode: Mode, rn: nat, n: nat, p: Slot, below: seq<Slot>,
                                    m0: Machine, m: Machine)
    requires TableOk(table, m.blocks) && rn < 16 && 1 <= n <= 16
    requires TargetPushed(m0, m, p, below)
    requires PageOk(table, m.blocks, Start(mode, m.regs[rn], n))
    ensures var m2 := m.(stack := [Val(Start(mode, m.regs[rn], n)), Val(n), p] + below);
            var r := LoadArray(table, m.blocks, Start(mode, m.regs[rn], n), n);
            var m3 := Assign(m2, p, r.words);
            var m' := Run(table, [PushNum(n)] + PushMultiple(mode, rn, n) + [CallLoadArray, AddEsp(3)], m);
            |m3.stack| >= 3 ==>
              m'.regs == m3.regs && m'.stack == m3.stack[3..] && m'.blocks == m0.blocks
              && m'.ok == (m3.ok && r.ok)
  {
    hide Run, Exec, LoadArray, Start, Assign, PageOk;
    RunAppend(table, [PushNum(n)] + PushMultiple(mode, rn, n), [CallLoadArray, AddEsp(3)], m);
    RunAppend(table, [PushNum(n)], PushMultiple(mode, rn, n), m);
    PushNumEffect(table, n, m);
    var m1 := Run(table, [PushNum(n)], m);
    PushMultipleEffect(table, mode, rn, n, m1);
    var m2 := Run(table, PushMultiple(mode, rn, n), m1);
    var start := Start(mode, m.regs[rn], n);
    assert m2.stack == [Val(start), Val(n), p] + below;
    RunTwo(table, CallLoadArray, AddEsp(3), m2);
    CallLoadEffect(table, start, n, p, below, m, m2);
    var m3 := Exec(table, CallLoadArray, m2);
    if |m3.stack| >= 3 { AddEspEffect(table, 3, m3); }
  }

  lemma CallLoadEffect(table: seq<nat>, start: Word, n: nat, p: Slot, below: seq<Slot>, m: Machine, m2: Machine)
    requires TableOk(table, m.blocks) && Kept(m, m2) && n < SPACE
    requires m2.stack == [Val(start), Val(n), p] + below && PageOk(table, m.blocks, start)
    ensures var r := LoadArray(table, m.blocks, start, n);
            var a := Assign(m.(stack := [Val(start), Val(n), p] + below), p, r.words);
            var m3 := Exec(table, CallLoadArray, m2);
            && TableOk(table, m3.blocks)
            && m3.regs == a.regs && m3.stack == a.stack && m3.blocks == m.blocks && m3.ok == (a.ok && r.ok)
  {
    hide StoreArray, LoadArray;
  }

  lemma {:induction false} LdmSingle(table: seq<nat>, mode: Mode, rn: nat, r: nat, m: Machine)
    requires TableOk(table, m.blocks) && rn < 16 && r < 16 && m.ok
    requires PageOk(table, m.blocks, Start(mode, m.regs[rn], 1))
    requires LoadedWords(table, m.blocks, Start(mode, m.regs[rn], 1), 1).ok
    ensures var m' := Run(table, LoadEcxSingle(mode, rn) + [CallLoad32, StoreEax(r)], m);
            var q := LoadedWords(table, m.blocks, Start(mode, m.regs[rn], 1), 1);
            m'.regs == m.regs[r := q.words[0]] && m'.stack == m.stack && m'.blocks == m.blocks && m'.ok
  {
    hide Run, StoreArray, LoadArray, Start, Store, FromBytes, Load, RotateBytes;
    RunAppend(table, LoadEcxSingle(mode, rn), [CallLoad32, StoreEax(r)], m);
    SingleEffect(table, mode, rn, m);
    RunTwo(table, CallLoad32, StoreEax(r), Run(table, LoadEcxSingle(mode, rn), m));
  }

  lemma {:induction false} LdmRegion(table: seq<nat>, mode: Mode, rn: nat, s: seq<nat>, m: Machine)
    requires TableOk(table, m.blocks) && rn < 16 && m.ok && 2 <= |s| <= 16 && IsRegion(s)
    requires forall k :: 0 <= k < |s| ==> s[k] < 16
    requires PageOk(table, m.blocks, Start(mode, m.regs[rn], |s|))
    requires LoadArray(table, m.blocks, Start(mode, m.regs[rn], |s|), |s|).ok
    ensures var q := LoadArray(table, m.blocks, Start(mode, m.regs[rn], |s|), |s|);
            var m' := Run(table, [PushRegAddr(s[0]), PushNum(|s|)] + PushMultiple(mode, rn, |s|)
                                 + [CallLoadArray, AddEsp(3)], m);
            Restored(m.regs, m'.regs, s, q.words) && m'.stack == m.stack && m'.blocks == m.blocks && m'.ok
  {
    hide Run, Exec, LoadArray, LoadFrom, Start, PageOk;
    var n := |s|;
    var q := LoadArray(table, m.blocks, Start(mode, m.regs[rn], n), n);
    LoadArrayLength(table, m.blocks, Start(mode, m.regs[rn], n), n);
    var rest := [PushNum(n)] + PushMultiple(mode, rn, n) + [CallLoadArray, AddEsp(3)];
    assert [PushRegAddr(s[0]), PushNum(n)] + PushMultiple(mode, rn, n) + [CallLoadArray, AddEsp(3)]
        == [PushRegAddr(s[0])] + rest;
    RunAppend(table, [PushRegAddr(s[0])], rest, m);
    RunOne(table, PushRegAddr(s[0]), m);
    PushAddrEffect(table, s[0], m);
    var m1 := Run(table, [PushRegAddr(s[0])], m);
    LoadCall(table, mode, rn, n, RegPtr(s[0]), m.stack, m, m1);
    assert s[n - 1] == s[0] + (n - 1);
    RegionRestored(m.regs, s, q.words);
    assert ([Val(Start(mode, m.regs[rn], n)), Val(n), RegPtr(s[0])] + m.stack)[3..] == m.stack;
  }

  lemma RegionRestored(regs: Regs, s: seq<nat>, w: seq<Word>)
    requires |s| == |w| > 0 && IsRegion(s) && s[|s| - 1] < 16
    ensures s[0] + |w| <= 16
    ensures Restored(regs, regs[..s[0]] + w + regs[s[0] + |w|..], s, w)
  {
    var regs' := regs[..s[0]] + w + regs[s[0] + |w|..];
    assert s[|s| - 1] == s[0] + (|s| - 1);
    forall k | 0 <= k < |s| ensures s[k] < 16 && regs'[s[k]] == w[k] { assert s[k] == s[0] + k; }
    forall r | s[0] <= r < s[0] + |s| ensures r in s { assert s[r - s[0]] == r; }
  }

  lemma PushAddrEffect(table: seq<nat>, r: nat, m: Machine)
    requires TableOk(table, m.blocks)
    ensures Exec(table, PushRegAddr(r), m) == m.(stack := [RegPtr(r)] + m.stack)
  {
    hide StoreArray, LoadArray;
  }

  lemma LoadArrayLength(table: seq<nat>, blocks: Blocks, a: Addr, n: nat)
    requires TableOk(table, blocks)
    ensures LoadArray(table, blocks, a, n).ok ==> |LoadArray(table, blocks, a, n).words| == n
  {
  }

  lemma {:induction false} ReserveEffect(table: seq<nat>, n: nat, m: Machine)
    requires TableOk(table, m.blocks)
    ensures var m' := Run(table, [SubEsp(n), PushEsp], m);
            && Kept(m, m') && m'.stack == [StackPtr(n + |m.stack|)] + (Vals(seq(n, _ => 0)) + m.stack)
  {
    hide Run, StoreArray, LoadArray;
    RunTwo(table, SubEsp(n), PushEsp, m);
  }

  lemma {:induction false} LdmScattered(table: seq<nat>, mode: Mode, rn: nat, s: seq<nat>, m: Machine)
    requires TableOk(table, m.blocks) && rn < 16 && m.ok && 2 <= |s| <= 16 && Ascending(s)
    requires forall k :: 0 <= k < |s| ==> s[k] < 16
    requires PageOk(table, m.blocks, Start(mode, m.regs[rn], |s|))
    requires LoadArray(table, m.blocks, Start(mode, m.regs[rn], |s|), |s|).ok
    ensures var q := LoadArray(table, m.blocks, Start(mode, m.regs[rn], |s|), |s|);
            var m' := Run(table, [SubEsp(|s|), PushEsp, PushNum(|s|)] + PushMultiple(mode, rn, |s|)
                                 + [CallLoadArray, AddEsp(3)] + PopList(s), m);
            Restored(m.regs, m'.regs, s, q.words) && m'.stack == m.stack && m'.blocks == m.blocks && m'.ok
  {
    hide Run, Exec, LoadArray, LoadFrom, Start, PageOk, Vals;
    var n := |s|;
    var start := Start(mode, m.regs[rn], n);
    var q := LoadArray(table, m.blocks, start, n);
    LoadArrayLength(table, m.blocks, start, n);
    var rest := [PushNum(n)] + PushMultiple(mode, rn, n) + [CallLoadArray, AddEsp(3)];
    assert [SubEsp(n), PushEsp, PushNum(n)] + PushMultiple(mode, rn, n) + [CallLoadArray, AddEsp(3)] + PopList(s)
        == [SubEsp(n), PushEsp] + rest + PopList(s);
    RunAppend(table, [SubEsp(n), PushEsp] + rest, PopList(s), m);
    RunAppend(table, [SubEsp(n), PushEsp], rest, m);
    ReserveEffect(table, n, m);
    var m1 := Run(table, [SubEsp(n), PushEsp], m);
    var room := Vals(seq(n, _ => 0));
    var p := StackPtr(n + |m.stack|);
    LoadCall(table, mode, rn, n, p, room + m.stack, m, m1);
    var t := [Val(start), Val(n), p] + (room + m.stack);
    assert |t| - (n + |m.stack|) == 3;
    FilledRoom(t, q.words, room, m.stack, Val(start), Val(n), p);
    var m2 := Run(table, rest, m1);
    PopListEffect(table, s, q.words, m.stack, m2);
  }

  lemma FilledRoom(t: seq<Slot>, w: seq<Word>, room: seq<Slot>, below: seq<Slot>, x: Slot, y: Slot, z: Slot)
    requires |room| == |w| && t == [x, y, z] + (room + below)
    ensures |t| == 3 + |w| + |below|
    ensures (t[..3] + Vals(w) + t[3 + |w|..])[3..] == Vals(w) + below
  {
  }

  /** The loads proper. */
  lemma {:induction false} LoadListEffect(table: seq<nat>, mode: Mode, rn: nat, imm: nat, m: Machine)
    requires TableOk(table, m.blocks) && rn < 16 && m.ok && |Listed(imm, 0)| > 0
    requires PageOk(table, m.blocks, Start(mode, m.regs[rn], |Listed(imm, 0)|))
    requires LoadedWords(table, m.blocks, Start(mode, m.regs[rn], |Listed(imm, 0)|), |Listed(imm, 0)|).ok
    ensures var s := Listed(imm, 0);
            var q := LoadedWords(table, m.blocks, Start(mode, m.regs[rn], |s|), |s|);
            var m' := Run(table, LoadListCode(mode, rn, imm), m);
            && Restored(m.regs, m'.regs, s, q.words)
            && m'.stack == m.stack && m'.blocks == m.blocks && m'.ok
  {
    hide Run, Exec, LoadArray, Start, Listed, PageOk, PushMultiple, LoadEcxSingle, PopList;
    var s := Listed(imm, 0);
    ListedBound(imm, 0);
    ListedAscends(imm, 0);
    if |s| == 1 {
      LdmSingle(table, mode, rn, s[0], m);
    } else if IsRegion(s) {
      LdmRegion(table, mode, rn, s, m);
    } else {
      LdmScattered(table, mode, rn, s, m);
    }
  }

  /** The base is written back over what was loaded into it: it is the first of the list. */
  predicate BaseFirst(wb: bool, rn: nat, s: seq<nat>) { wb && |s| > 0 && s[0] == rn }

  lemma {:induction false} LdmCodeSplit(wb: bool, mode: Mode, rn: nat, imm: nat)
    requires |Listed(imm, 0)| > 0
    ensures var s, l := Listed(imm, 0), LoadListCode(mode, rn, imm);
            LdmCode(wb, mode, rn, imm)
            == if BaseFirst(wb, rn, s) then [PushReg(rn)] + (l + ([PopReg(rn)] + UpdateDest(mode, rn, |s|)))
               else l + (if wb && rn !in s then UpdateDest(mode, rn, |s|) else [])
  {
    hide Listed, LoadListCode, UpdateDest;
  }

  lemma {:induction false} PushBase(table: seq<nat>, rn: nat, m: Machine)
    requires TableOk(table, m.blocks) && rn < 16
    ensures Run(table, [PushReg(rn)], m) == m.(stack := [Val(m.regs[rn])] + m.stack)
  {
    hide Run, StoreArray, LoadArray;
    RunOne(table, PushReg(rn), m);
  }

  lemma {:induction false} PopBase(table: seq<nat>, rn: nat, base: Word, below: seq<Slot>, m: Machine)
    requires TableOk(table, m.blocks) && rn < 16 && m.stack == [Val(base)] + below
    ensures Run(table, [PopReg(rn)], m) == m.(regs := m.regs[rn := base], stack := below)
  {
    hide Run, StoreArray, LoadArray;
    RunOne(table, PopReg(rn), m);
    assert m.stack[0] == Val(base) && m.stack[1..] == below;
  }

  /** The loads when the base is the first of the list. */
  lemma {:induction false} LdmBaseFirst(table: seq<nat>, mode: Mode, rn: nat, imm: nat, m: Machine)
    requires TableOk(table, m.blocks) && rn < 16 && m.ok
    requires |Listed(imm, 0)| > 0 && BaseFirst(true, rn, Listed(imm, 0))
    requires PageOk(table, m.blocks, Start(mode, m.regs[rn], |Listed(imm, 0)|))
    requires LoadedWords(table, m.blocks, Start(mode, m.regs[rn], |Listed(imm, 0)|), |Listed(imm, 0)|).ok
    ensures var s := Listed(imm, 0);
            var q := LoadedWords(table, m.blocks, Start(mode, m.regs[rn], |s|), |s|);
            var m' := Run(table, LdmCode(true, mode, rn, imm), m);
            && (forall k :: 1 <= k < |s| ==> k < |q.words| && m'.regs[s[k]] == q.words[k])
            && (forall r :: 0 <= r < 16 && r !in s ==> m'.regs[r] == m.regs[r])
            && m'.regs[rn] == Updated(mode, m.regs[rn], |s|)
            && m'.stack == m.stack && m'.blocks == m.blocks && m'.ok
  {
    hide Run, LoadListCode, LdmCode, LoadedWords, Start, Listed, PageOk, UpdateDest, Updated;
    var s, base := Listed(imm, 0), m.regs[rn];
    var load, update := LoadListCode(mode, rn, imm), UpdateDest(mode, rn, |s|);
    ListedAscends(imm, 0);
    LdmCodeSplit(true, mode, rn, imm);
    RunAppend(table, [PushReg(rn)], load + ([PopReg(rn)] + update), m);
    PushBase(table, rn, m);
    var m1 := Run(table, [PushReg(rn)], m);
    RunAppend(table, load, [PopReg(rn)] + update, m1);
    LoadListEffect(table, mode, rn, imm, m1);
    var m2 := Run(table, load, m1);
    RunAppend(table, [PopReg(rn)], update, m2);
    PopBase(table, rn, base, m.stack, m2);
    UpdateEffect(table, mode, rn, |s|, Run(table, [PopReg(rn)], m2));
  }

  /** The loads otherwise: the base is updated only if it is not in the list. */
  lemma {:induction false} LdmBaseElsewhere(table: seq<nat>, wb: bool, mode: Mode, rn: nat, imm: nat, m: Machine)
    requires TableOk(table, m.blocks) && rn < 16 && m.ok
    requires |Listed(imm, 0)| > 0 && !BaseFirst(wb, rn, Listed(imm, 0))
    requires PageOk(table, m.blocks, Start(mode, m.regs[rn], |Listed(imm, 0)|))
    requires LoadedWords(table, m.blocks, Start(mode, m.regs[rn], |Listed(imm, 0)|), |Listed(imm, 0)|).ok
    ensures var s := Listed(imm, 0);
            var q := LoadedWords(table, m.blocks, Start(mode, m.regs[rn], |s|), |s|);
            var m' := Run(table, LdmCode(wb, mode, rn, imm), m);
            && (forall k :: 0 <= k < |s| ==> k < |q.words| && m'.regs[s[k]] == q.words[k])
            && (forall r :: 0 <= r < 16 && r !in s && r != rn ==> m'.regs[r] == m.regs[r])
            && (rn !in s ==> m'.regs[rn] == (if wb then Updated(mode, m.regs[rn], |s|) else m.regs[rn]))
            && m'.stack == m.stack && m'.blocks == m.blocks && m'.ok
  {
    hide Run, LoadListCode, LdmCode, LoadedWords, Start, Listed, PageOk, UpdateDest, Updated;
    var s := Listed(imm, 0);
    var update := if wb && rn !in s then UpdateDest(mode, rn, |s|) else [];
    LdmCodeSplit(wb, mode, rn, imm);
    RunAppend(table, LoadListCode(mode, rn, imm), update, m);
    LoadListEffect(table, mode, rn, imm, m);
    var m1 := Run(table, LoadListCode(mode, rn, imm), m);
    if wb && rn !in s { UpdateEffect(table, mode, rn, |s|, m1); } else { RunNothing(table, m1); }
  }

  /** An LDM whose pages can be used loads the listed registers, lowest register from the lowest
      address. With writeback the base is updated if it is not in the list, or is the first of it
      and then not loaded; elsewhere in the list it is loaded like the others. */
  lemma {:induction false} LdmEffect(table: seq<nat>, wb: bool, mode: Mode, rn: nat, imm: nat, m: Machine)
    requires TableOk(table, m.blocks) && rn < 16 && m.ok && |Listed(imm, 0)| > 0
    requires PageOk(table, m.blocks, Start(mode, m.regs[rn], |Listed(imm, 0)|))
    requires LoadedWords(table, m.blocks, Start(mode, m.regs[rn], |Listed(imm, 0)|), |Listed(imm, 0)|).ok
    ensures var s := Listed(imm, 0);
            var q := LoadedWords(table, m.blocks, Start(mode, m.regs[rn], |s|), |s|);
            var first := BaseFirst(wb, rn, s);
            var m' := Run(table, LdmCode(wb, mode, rn, imm), m);
            && (forall k :: 0 <= k < |s| && (k > 0 || !first) ==> k < |q.words| && m'.regs[s[k]] == q.words[k])
            && (forall r :: 0 <= r < 16 && r !in s && r != rn ==> m'.regs[r] == m.regs[r])
            && (first || rn !in s ==> m'.regs[rn] == (if wb then Updated(mode, m.regs[rn], |s|) else m.regs[rn]))
            && m'.stack == m.stack && m'.blocks == m.blocks && m'.ok
  {
    hide Run, LdmCode, Start, Listed, PageOk, Updated;
    if BaseFirst(wb, rn, Listed(imm, 0)) {
      LdmBaseFirst(table, mode, rn, imm, m);
    } else {
      LdmBaseElsewhere(table, wb, mode, rn, imm, m);
    }
  }

  // ----- STM with writeback, then LDM with writeback -----

  lemma Wrap(a: Word, n: nat)
    requires n <= 64
    ensures Plus(a, n) == if a + n < SPACE then a + n else a + n - SPACE
    ensures Minus(a, n) == if a >= n then a - n else a - n + SPACE
  {
  }

  /** The opposite transfer starts where the first one did and returns the base. */
  lemma SameStart(mode: Mode, base: Word, n: nat)
    requires 1 <= n <= 16
    ensures Start(Opposite(mode), Updated(mode, base, n), n) == Start(mode, base, n)
    ensures Updated(Opposite(mode), Updated(mode, base, n), n) == base
  {
    hide Plus, Minus;
    Wrap(base, 4 * n);
    Wrap(base, 4 * (n - 1));
    Wrap(base, 4);
    var up := Updated(mode, base, n);
    Wrap(up, 4 * n);
    Wrap(up, 4 * (n - 1));
    Wrap(up, 4);
  }

  lemma StartAligned(mode: Mode, base: Word, n: nat)
    requires 1 <= n <= 16 && base % 4 == 0
    ensures Start(mode, base, n) % 4 == 0
  {
    hide Plus, Minus;
    Wrap(base, 4 * n);
    Wrap(base, 4 * (n - 1));
    Wrap(base, 4);
  }

  /** The pages a transfer of `n` words from `start` comes to; the array forms also look at the
      page after the last word. */
  function PagesUsed(n: nat): nat { if n == 1 then 0 else n }

  /** The words of the window hold the same in both memories. */
  ghost predicate SameMemory(table: seq<nat>, blocks: Blocks, blocks': Blocks, a: Addr, n: nat)
    requires TableOk(table, blocks) && |blocks'| == |blocks|
  {
    forall k :: 0 <= k < n ==> SameWord(table, blocks, blocks', WordAt(a, k))
  }

  lemma SingleRoundTrip(table: seq<nat>, blocks: Blocks, blocks': Blocks, start: Word, v: Word)
    requires TableOk(table, blocks) && |blocks'| == |blocks| && start % 4 == 0
    requires PagesWritable(table, blocks, start, 0) && PagesReadable(table, blocks', start, 0)
    requires SameMemory(table, StoredRegs(table, blocks, start, [v]).blocks, blocks', start, 1)
    ensures StoredRegs(table, blocks, start, [v]).ok
    ensures LoadedWords(table, blocks', start, 1) == Loaded([v], true)
  {
    hide FromBytes, ToBytes, Store, Load;
    WordAtZero(start);
    CellFits(start, 4);
    assert WordAt(start, 0) == start;
    assert blocks[BlockOf(table, WordAt(start, 0))].Writable() && blocks'[BlockOf(table, WordAt(start, 0))].Readable();
    var r := StoredRegs(table, blocks, start, [v]).blocks;
    OneWord(table, blocks, start, v, true);
    assert WordIs(table, r, start, v);
    assert SameWord(table, r, blocks', WordAt(start, 0));
    WordRoundTrip(v);
    var b := Load(table, blocks', start, 4);
    assert RotateBytes(b, 0) == b;
  }

  lemma WindowRoundTrip(table: seq<nat>, blocks: Blocks, blocks': Blocks, start: Word, v: seq<Word>)
    requires TableOk(table, blocks) && |blocks'| == |blocks| && start % 4 == 0 && |v| > 0
    requires PagesWritable(table, blocks, start, PagesUsed(|v|)) && NoAlias(table, start, |v|)
    requires PagesReadable(table, blocks', start, PagesUsed(|v|))
    requires SameMemory(table, StoredRegs(table, blocks, start, v).blocks, blocks', start, |v|)
    ensures StoredRegs(table, blocks, start, v).ok
    ensures LoadedWords(table, blocks', start, |v|) == Loaded(v, true)
  {
    hide StoreArray, LoadArray, SameWord;
    if |v| == 1 {
      assert v == [v[0]];
      SingleRoundTrip(table, blocks, blocks', start, v[0]);
    } else {
      StoreThenLoad(table, blocks, blocks', start, v);
    }
  }

  /** The round trip. After an STM with writeback, whatever happens to the other registers, the
      stack and memory outside the window, the matching LDM with writeback brings back every
      listed register and the base. The base is word-aligned and not in the list; the pages
      are plain and no two words of the window are one physical word. */
  lemma {:induction false} StmThenLdm(table: seq<nat>, mode: Mode, rn: nat, imm: nat, m: Machine, m2: Machine)
    requires TableOk(table, m.blocks) && |m2.blocks| == |m.blocks| && rn < 16 && m.ok && m2.ok
    requires |Listed(imm, 0)| > 0 && rn !in Listed(imm, 0) && m.regs[rn] % 4 == 0
    requires var n, start := |Listed(imm, 0)|, Start(mode, m.regs[rn], |Listed(imm, 0)|);
             && PageOk(table, m.blocks, start) && PageOk(table, m2.blocks, start)
             && PagesWritable(table, m.blocks, start, PagesUsed(n)) && NoAlias(table, start, n)
             && PagesReadable(table, m2.blocks, start, PagesUsed(n))
             && var m1 := Run(table, StmCode(true, mode, rn, imm), m);
                m2.regs[rn] == m1.regs[rn] && SameMemory(table, m1.blocks, m2.blocks, start, n)
    ensures var s := Listed(imm, 0);
            var m3 := Run(table, LdmCode(true, Opposite(mode), rn, imm), m2);
            && (forall k :: 0 <= k < |s| ==> m3.regs[s[k]] == m.regs[s[k]])
            && m3.regs[rn] == m.regs[rn]
            && (forall r :: 0 <= r < 16 && r !in s && r != rn ==> m3.regs[r] == m2.regs[r])
            && m3.stack == m2.stack && m3.blocks == m2.blocks && m3.ok
  {
    hide Run, Exec, StmCode, LdmCode, Listed, Start, Updated, StoredRegs, LoadedWords, PageOk,
         PagesWritable, PagesReadable, NoAlias, SameMemory;
    var s := Listed(imm, 0);
    ListedBound(imm, 0);
    var n, start := |s|, Start(mode, m.regs[rn], |s|);
    StmEffect(table, true, mode, rn, imm, m);
    SameStart(mode, m.regs[rn], n);
    StartAligned(mode, m.regs[rn], n);
    var v := Values(m.regs, s);
    WindowRoundTrip(table, m.blocks, m2.blocks, start, v);
    LdmEffect(table, true, Opposite(mode), rn, imm, m2);
  }
}
