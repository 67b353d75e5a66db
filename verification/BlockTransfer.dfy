/**
 LDM and STM: the code emitted for them on the single, contiguous and scattered paths, the
 emitter that puts it together from the register mask, and a machine that runs it.
 */
module BlockTransfer {
  import opened Types
  import opened Memory
  import opened ArrayAccess

  datatype Mode = DA | IA | DB | IB

  type Reg = r: nat | r < 16

  type Regs = s: seq<Word> | |s| == 16
    witness [0, 0, 0, 0, 0, 0, 0, 0, 0, 0, 0, 0, 0, 0, 0, 0]

  // ----- register lists -----

  /** The registers of a bit mask, from number `i` on, lowest first. */
  function Listed(imm: nat, i: nat): (s: seq<nat>)
    requires i <= 16
    ensures forall k :: 0 <= k < |s| ==> i <= s[k] < 16
    decreases 16 - i
  {
    if i == 16 then [] else (if imm % 2 == 1 then [i] else []) + Listed(imm / 2, i + 1)
  }

  predicate Ascending(s: seq<nat>) { forall j, k :: 0 <= j < k < |s| ==> s[j] < s[k] }

  /** The list is a run of neighbouring registers. */
  predicate IsRegion(s: seq<nat>) { forall k :: 0 <= k < |s| ==> s[k] == s[0] + k }

  lemma {:induction false} ListedAscends(imm: nat, i: nat)
    requires i <= 16
    ensures Ascending(Listed(imm, i))
    decreases 16 - i
  {
    if i < 16 {
      ListedAscends(imm / 2, i + 1);
      var tail := Listed(imm / 2, i + 1);
      if imm % 2 == 1 {
        assert Listed(imm, i) == [i] + tail;
      } else {
        assert Listed(imm, i) == tail;
      }
    }
  }

  /** In an ascending list, as many registers as numbers between the ends means no gaps. */
  lemma RegionByCount(s: seq<nat>)
    requires Ascending(s) && |s| > 0
    ensures s[0] <= s[|s| - 1]
    ensures s[|s| - 1] - s[0] + 1 == |s| <==> IsRegion(s)
  {
    AtLeast(s, |s| - 1);
    if s[|s| - 1] - s[0] + 1 == |s| {
      forall k | 0 <= k < |s| ensures s[k] == s[0] + k {
        AtLeast(s, k);
        AtMost(s, k);
      }
    }
  }

  lemma {:induction false} AtLeast(s: seq<nat>, k: nat)
    requires Ascending(s) && k < |s|
    ensures s[k] >= s[0] + k
  {
    if k > 0 { AtLeast(s, k - 1); }
  }

  lemma {:induction false} AtMost(s: seq<nat>, k: nat)
    requires Ascending(s) && k < |s|
    ensures s[k] + (|s| - 1 - k) <= s[|s| - 1]
    decreases |s| - k
  {
    if k < |s| - 1 { AtMost(s, k + 1); }
  }

  lemma ListedStep(m: nat, i: nat)
    requires i < 16
    ensures Listed(m, i) == if m % 2 == 1 then [i] + Listed(m / 2, i + 1) else Listed(m / 2, i + 1)
  {
  }

  lemma {:induction false} ListedEnd(m: nat)
    ensures Listed(m, 16) == []
  {
  }

  /** `count`: how many registers, the first and the last, and whether they are neighbours.
      Without any register nothing is said about the other results. */
  method Count(imm: nat) returns (num: nat, lowest: nat, highest: nat, region: bool)
    ensures num == |Listed(imm, 0)|
    ensures num > 0 ==>
              && lowest == Listed(imm, 0)[0] && highest == Listed(imm, 0)[num - 1]
              && (region <==> IsRegion(Listed(imm, 0)))
  {
    hide Listed, Ascending;
    ghost var all := Listed(imm, 0);
    num, lowest, highest := 0, 0, 0;
    var m, i := imm, 0;
    while i < 16
      invariant 0 <= i <= 16 && num == 0 && Listed(m, i) == all
    {
      ListedStep(m, i);
      var b := m % 2;
      m := m / 2;
      if b == 1 {
        num, lowest, highest := 1, i, i;
        break;
      }
      i := i + 1;
    }
    ListedEnd(m);
    ghost var seen: seq<nat> := if num == 0 then [] else [lowest];
    i := i + 1;
    while i < 16
      invariant 0 <= i <= 17 && |seen| == num && (num == 0 ==> i == 17 && all == [])
      invariant num > 0 ==> i <= 16 && seen + Listed(m, i) == all
      invariant num > 0 ==> seen[0] == lowest && seen[num - 1] == highest
    {
      ListedStep(m, i);
      assert seen + ([i] + Listed(m / 2, i + 1)) == seen + [i] + Listed(m / 2, i + 1);
      var b := m % 2;
      m := m / 2;
      if b == 1 {
        num, highest, seen := num + 1, i, seen + [i];
      }
      i := i + 1;
    }
    region := highest - lowest + 1 == num;
    if num > 0 {
      ListedEnd(m);
      assert seen + [] == seen == all;
      ListedAscends(imm, 0);
      RegionByCount(seen);
    }
  }

  // ----- the machine the emitted code runs on -----

  /** A host stack slot: a word, or the address of a register or of a stack slot. Stack slots
      are named by their height, the number of slots from the bottom up to and including them. */
  datatype Slot = Val(w: Word) | RegPtr(r: nat) | StackPtr(h: nat)

  datatype Op =
    | LoadEcx(r: nat) | AddEcx(n: nat) | SubEcx(n: nat) | LoadEdx(r: nat) | StoreEax(r: nat)
    | PushReg(r: nat) | PopReg(r: nat) | PushRegAddr(r: nat) | PushEsp | PushNum(n: nat) | PushEcx
    | AddEsp(n: nat) | SubEsp(n: nat) | AddReg(r: nat, n: nat) | SubReg(r: nat, n: nat)
    | CallStore32 | CallLoad32 | CallStoreArray | CallLoadArray | Break

  /** `ok` is lost at a debug break, on a page that cannot be used, and on code that makes no
      sense to this machine. */
  datatype Machine = Machine(
    regs: Regs, eax: Word, ecx: Word, edx: Word, stack: seq<Slot>, blocks: Blocks, ok: bool)

  function Fail(m: Machine): Machine { m.(ok := false) }

  function Plus(a: Word, n: nat): Word { (a + n) % SPACE }

  function Minus(a: Word, n: nat): Word { (a - n) % SPACE }

  /** The `n` words an array argument stands for, if it is one. */
  function Deref(m: Machine, p: Slot, n: nat): (r: (bool, seq<Word>))
    ensures r.0 ==> |r.1| == n
  {
    match p
    case Val(_) => (false, [])
    case RegPtr(r) => if r + n <= 16 then (true, m.regs[r..r + n]) else (false, [])
    case StackPtr(h) =>
      if n <= h <= |m.stack| && AllVals(m.stack, |m.stack| - h, n)
      then (true, Words(m.stack, |m.stack| - h, n)) else (false, [])
  }

  predicate AllVals(s: seq<Slot>, from: nat, n: nat)
    requires from + n <= |s|
  {
    forall k :: from <= k < from + n ==> s[k].Val?
  }

  function Words(s: seq<Slot>, from: nat, n: nat): (w: seq<Word>)
    requires from + n <= |s| && AllVals(s, from, n)
    ensures |w| == n
  {
    seq(n, k requires 0 <= k < n => s[from + k].w)
  }

  function Vals(w: seq<Word>): (s: seq<Slot>)
    ensures |s| == |w|
  {
    seq(|w|, k requires 0 <= k < |w| => Val(w[k]))
  }

  /** The same words written where the array argument points. */
  function Assign(m: Machine, p: Slot, w: seq<Word>): Machine {
    match p
    case Val(_) => Fail(m)
    case RegPtr(r) =>
      if r + |w| <= 16 then m.(regs := m.regs[..r] + w + m.regs[r + |w|..]) else Fail(m)
    case StackPtr(h) =>
      if |w| <= h <= |m.stack| then
        var from := |m.stack| - h;
        m.(stack := m.stack[..from] + Vals(w) + m.stack[from + |w|..])
      else Fail(m)
  }

  predicate PageOk(table: seq<nat>, blocks: Blocks, a: Word)
    requires |table| == TOTAL_PAGES
  {
    BlockOf(table, a) < |blocks| && AccessHandler !in blocks[BlockOf(table, a)].flags
  }

  function Push(m: Machine, s: Slot): Machine { m.(stack := [s] + m.stack) }

  /** A word rotated right by whole bytes. */
  function RotateBytes(s: seq<Byte>, k: nat): seq<Byte>
    requires |s| == 4 && k < 4
    ensures |RotateBytes(s, k)| == 4
  {
    s[k..] + s[..k]
  }

  function Exec(table: seq<nat>, op: Op, m: Machine): (m': Machine)
    requires TableOk(table, m.blocks)
    ensures |m'.blocks| == |m.blocks|
  {
    match op
    case LoadEcx(r) => if r < 16 then m.(ecx := m.regs[r]) else Fail(m)
    case AddEcx(n) => m.(ecx := Plus(m.ecx, n))
    case SubEcx(n) => m.(ecx := Minus(m.ecx, n))
    case LoadEdx(r) => if r < 16 then m.(edx := m.regs[r]) else Fail(m)
    case StoreEax(r) => if r < 16 then m.(regs := m.regs[r := m.eax]) else Fail(m)
    case PushReg(r) => if r < 16 then Push(m, Val(m.regs[r])) else Fail(m)
    case PopReg(r) =>
      if r < 16 && |m.stack| > 0 && m.stack[0].Val?
      then m.(regs := m.regs[r := m.stack[0].w], stack := m.stack[1..]) else Fail(m)
    case PushRegAddr(r) => Push(m, RegPtr(r))
    case PushEsp => Push(m, StackPtr(|m.stack|))
    case PushNum(n) => if n < SPACE then Push(m, Val(n)) else Fail(m)
    case PushEcx => Push(m, Val(m.ecx))
    case AddEsp(n) => if n <= |m.stack| then m.(stack := m.stack[n..]) else Fail(m)
    case SubEsp(n) => m.(stack := Vals(seq(n, _ => 0)) + m.stack)
    case AddReg(r, n) => if r < 16 then m.(regs := m.regs[r := Plus(m.regs[r], n)]) else Fail(m)
    case SubReg(r, n) => if r < 16 then m.(regs := m.regs[r := Minus(m.regs[r], n)]) else Fail(m)
    case CallStore32 =>
      var a := m.ecx;
      if !PageOk(table, m.blocks, a) || !m.blocks[BlockOf(table, a)].Writable() then Fail(m)
      else
        CellFits(Align(a), 4);
        var b1 := Store(table, m.blocks, Align(a), ToBytes(m.edx));
        m.(blocks := Dirty(b1, BlockOf(table, a)))
    case CallLoad32 =>
      var a := m.ecx;
      if !PageOk(table, m.blocks, a) || !m.blocks[BlockOf(table, a)].Readable() then Fail(m)
      else
        CellFits(Align(a), 4);
        m.(eax := FromBytes(RotateBytes(Load(table, m.blocks, Align(a), 4), a % 4)))
    case CallStoreArray =>
      if |m.stack| < 3 || !m.stack[0].Val? || !m.stack[1].Val?
         || !PageOk(table, m.blocks, m.stack[0].w) then Fail(m)
      else
        var data := Deref(m, m.stack[2], m.stack[1].w);
        if !data.0 then Fail(m)
        else
          var r := StoreArray(table, m.blocks, m.stack[0].w, data.1);
          m.(blocks := r.blocks, ok := m.ok && r.ok)
    case CallLoadArray =>
      if |m.stack| < 3 || !m.stack[0].Val? || !m.stack[1].Val?
         || !PageOk(table, m.blocks, m.stack[0].w) then Fail(m)
      else
        var r := LoadArray(table, m.blocks, m.stack[0].w, m.stack[1].w);
        var m' := Assign(m, m.stack[2], r.words);
        m'.(ok := m'.ok && r.ok)
    case Break => Fail(m)
  }

  function Run(table: seq<nat>, code: seq<Op>, m: Machine): (m': Machine)
    requires TableOk(table, m.blocks)
    ensures |m'.blocks| == |m.blocks|
    decreases |code|
  {
    if |code| == 0 then m else Run(table, code[1..], Exec(table, code[0], m))
  }

  lemma {:induction false} RunAppend(table: seq<nat>, a: seq<Op>, b: seq<Op>, m: Machine)
    requires TableOk(table, m.blocks)
    ensures Run(table, a + b, m) == Run(table, b, Run(table, a, m))
    decreases |a|
  {
    hide Exec;
    if |a| == 0 {
      assert a + b == b;
    } else {
      assert (a + b)[1..] == a[1..] + b;
      RunAppend(table, a[1..], b, Exec(table, a[0], m));
    }
  }

  // ----- the emitted code -----

  /** ECX := the address when there is one register. */
  function LoadEcxSingle(mode: Mode, rn: nat): seq<Op> {
    [LoadEcx(rn)] + match mode
                    case DB => [SubEcx(4)]
                    case IB => [AddEcx(4)]
                    case DA => []
                    case IA => []
  }

  /** Push the lowest address when there are several. */
  function PushMultiple(mode: Mode, rn: nat, num: nat): seq<Op>
    requires num >= 1
  {
    match mode
    case IA => [PushReg(rn)]
    case IB => [LoadEcx(rn), AddEcx(4), PushEcx]
    case DA => [LoadEcx(rn), SubEcx(4 * (num - 1)), PushEcx]
    case DB => [LoadEcx(rn), SubEcx(4 * num), PushEcx]
  }

  function UpdateDest(mode: Mode, rn: nat, num: nat): seq<Op> {
    if mode in {DA, DB} then [SubReg(rn, 4 * num)] else [AddReg(rn, 4 * num)]
  }

  /** The registers of the list pushed from the highest down. */
  function PushList(s: seq<nat>): seq<Op>
    decreases |s|
  {
    if |s| == 0 then [] else PushList(s[1..]) + [PushReg(s[0])]
  }

  function PopList(s: seq<nat>): seq<Op>
    decreases |s|
  {
    if |s| == 0 then [] else [PopReg(s[0])] + PopList(s[1..])
  }

  function StmCode(wb: bool, mode: Mode, rn: nat, imm: nat): seq<Op> {
    var s := Listed(imm, 0);
    (if |s| == 0 then [Break]
     else if |s| == 1 then LoadEcxSingle(mode, rn) + [LoadEdx(s[0]), CallStore32]
     else
       var region := IsRegion(s);
       (if region then [PushRegAddr(s[0])] else PushList(s) + [PushEsp])
         + [PushNum(|s|)] + PushMultiple(mode, rn, |s|)
         + [CallStoreArray, AddEsp((if region then 0 else |s|) + 3)])
      + (if wb then UpdateDest(mode, rn, |s|) else [])
  }

  /** The loads proper; `imm` has no R15 and the register bank is not switched. */
  function LoadListCode(mode: Mode, rn: nat, imm: nat): seq<Op> {
    var s := Listed(imm, 0);
    if |s| == 0 then [Break]
    else if |s| == 1 then LoadEcxSingle(mode, rn) + [CallLoad32, StoreEax(s[0])]
    else if IsRegion(s) then
      [PushRegAddr(s[0]), PushNum(|s|)] + PushMultiple(mode, rn, |s|) + [CallLoadArray, AddEsp(3)]
    else
      [SubEsp(|s|), PushEsp, PushNum(|s|)] + PushMultiple(mode, rn, |s|)
        + [CallLoadArray, AddEsp(3)] + PopList(s)
  }

  /** With writeback, a base that is the first of the list is kept on the stack and written
      back over what was loaded; elsewhere in the list it keeps what was loaded. */
  function LdmCode(wb: bool, mode: Mode, rn: nat, imm: nat): seq<Op> {
    var s := Listed(imm, 0);
    var special := wb && |s| > 0 && s[0] == rn;
    var update := wb && (special || rn !in s);
    (if special then [PushReg(rn)] else []) + LoadListCode(mode, rn, imm)
      + (if special then [PopReg(rn)] else [])
      + (if update then UpdateDest(mode, rn, |s|) else [])
  }

  // ----- the emitter -----

  /** `imm >> i`. */
  function Shr(imm: nat, i: nat): nat { if i == 0 then imm else Shr(imm, i - 1) / 2 }

  lemma {:induction false} PopListAppend(x: nat, rest: seq<nat>)
    ensures PopList([x] + rest) == [PopReg(x)] + PopList(rest)
  {
    assert ([x] + rest)[1..] == rest;
  }

  lemma {:induction false} PushListAppend(x: nat, rest: seq<nat>)
    ensures PushList([x] + rest) == PushList(rest) + [PushReg(x)]
  {
    assert ([x] + rest)[1..] == rest;
  }

  lemma PushListEmpty()
    ensures PushList([]) == []
  {
  }

  class TransferEmitter {
    var s: seq<Op>

    constructor ()
      ensures s == []
    {
      s := [];
    }

    method EmitLoadEcxSingle(mode: Mode, rn: nat)
      modifies this
      ensures s == old(s) + LoadEcxSingle(mode, rn)
    {
      s := s + [LoadEcx(rn)];
      match mode
      case DB => s := s + [SubEcx(4)];
      case IB => s := s + [AddEcx(4)];
      case DA =>
      case IA =>
    }

    method EmitPushMultiple(mode: Mode, rn: nat, num: nat)
      requires num >= 1
      modifies this
      ensures s == old(s) + PushMultiple(mode, rn, num)
    {
      match mode
      case IA => s := s + [PushReg(rn)];
      case IB => s := s + [LoadEcx(rn), AddEcx(4), PushEcx];
      case DA => s := s + [LoadEcx(rn), SubEcx(4 * (num - 1)), PushEcx];
      case DB => s := s + [LoadEcx(rn), SubEcx(4 * num), PushEcx];
    }

    method EmitUpdateDest(mode: Mode, rn: nat, num: nat)
      modifies this
      ensures s == old(s) + UpdateDest(mode, rn, num)
    {
      match mode
      case DA => s := s + [SubReg(rn, 4 * num)];
      case DB => s := s + [SubReg(rn, 4 * num)];
      case IA => s := s + [AddReg(rn, 4 * num)];
      case IB => s := s + [AddReg(rn, 4 * num)];
    }

    /** The listed registers, from R14 down. */
    method EmitPushList(imm: nat)
      requires Shr(imm, 15) % 2 == 0
      modifies this
      ensures s == old(s) + PushList(Listed(imm, 0))
    {
      hide Listed, PushList;
      PushListEmpty();
      ListedStep(Shr(imm, 15), 15);
      ListedEnd(Shr(imm, 15) / 2);
      var i := 14;
      while i >= 0
        invariant -1 <= i <= 14
        invariant s == old(s) + PushList(Listed(Shr(imm, i + 1), i + 1))
      {
        ListedStep(Shr(imm, i), i);
        if Shr(imm, i) % 2 == 1 {
          PushListAppend(i, Listed(Shr(imm, i + 1), i + 1));
          s := s + [PushReg(i)];
        }
        i := i - 1;
      }
    }

    method EmitPopList(imm: nat)
      modifies this
      ensures s == old(s) + PopList(Listed(imm, 0))
    {
      var mask, i := imm, 0;
      while i < 16
        invariant 0 <= i <= 16
        invariant s + PopList(Listed(mask, i)) == old(s) + PopList(Listed(imm, 0))
      {
        ListedStep(mask, i);
        if mask % 2 == 1 {
          PopListAppend(i, Listed(mask / 2, i + 1));
          s := s + [PopReg(i)];
        }
        mask := mask / 2;
        i := i + 1;
      }
      ListedEnd(mask);
    }

    /** The several-register store: array argument, count, address, call. */
    method EmitStoreArray(mode: Mode, rn: nat, imm: nat, num: nat, lowest: nat, region: bool)
      requires num == |Listed(imm, 0)| && num > 1 && Shr(imm, 15) % 2 == 0
      requires lowest == Listed(imm, 0)[0] && (region <==> IsRegion(Listed(imm, 0)))
      modifies this
      ensures s == old(s) + ((if region then [PushRegAddr(lowest)] else PushList(Listed(imm, 0)) + [PushEsp])
                             + [PushNum(num)] + PushMultiple(mode, rn, num)
                             + [CallStoreArray, AddEsp((if region then 0 else num) + 3)])
    {
      hide PushMultiple, PushList, Listed;
      var pop := 0;
      if region {
        s := s + [PushRegAddr(lowest)];
      } else {
        pop := num;
        EmitPushList(imm);
        s := s + [PushEsp];
      }
      s := s + [PushNum(num)];
      EmitPushMultiple(mode, rn, num);
      s := s + [CallStoreArray, AddEsp(pop + 3)];
    }

    method CompileStm(wb: bool, mode: Mode, rn: nat, imm: nat)
      requires Shr(imm, 15) % 2 == 0
      modifies this
      ensures s == old(s) + StmCode(wb, mode, rn, imm)
    {
      hide PushMultiple, PushList, Listed, UpdateDest, LoadEcxSingle;
      var num, lowest, highest, region := Count(imm);
      if num == 0 {
        s := s + [Break];
      } else if num == 1 {
        EmitLoadEcxSingle(mode, rn);
        s := s + [LoadEdx(highest), CallStore32];
      } else {
        EmitStoreArray(mode, rn, imm, num, lowest, region);
      }
      if wb {
        EmitUpdateDest(mode, rn, num);
      }
    }

    method EmitLoadList(mode: Mode, rn: nat, imm: nat, num: nat, lowest: nat, highest: nat, region: bool)
      requires num == |Listed(imm, 0)|
      requires num > 0 ==> lowest == Listed(imm, 0)[0] && highest == Listed(imm, 0)[num - 1]
                           && (region <==> IsRegion(Listed(imm, 0)))
      modifies this
      ensures s == old(s) + LoadListCode(mode, rn, imm)
    {
      hide PushMultiple, PopList, Listed, LoadEcxSingle;
      if num == 0 {
        s := s + [Break];
      } else if num == 1 {
        EmitLoadEcxSingle(mode, rn);
        s := s + [CallLoad32, StoreEax(highest)];
      } else if region {
        s := s + [PushRegAddr(lowest), PushNum(num)];
        EmitPushMultiple(mode, rn, num);
        s := s + [CallLoadArray, AddEsp(3)];
      } else {
        s := s + [SubEsp(num), PushEsp, PushNum(num)];
        EmitPushMultiple(mode, rn, num);
        s := s + [CallLoadArray, AddEsp(3)];
        EmitPopList(imm);
      }
    }

    /** Whether the base is on the list, and is its first register, is read off the mask. */
    method CompileLdm(wb: bool, mode: Mode, rn: nat, imm: nat)
      requires rn < 16
      modifies this
      ensures s == old(s) + LdmCode(wb, mode, rn, imm)
    {
      hide Listed, LoadListCode, UpdateDest;
      var num, lowest, highest, region := Count(imm);
      var special, update := false, wb;
      MaskBits(imm, rn);
      if wb && Shr(imm, rn) % 2 == 1 {
        if LowBits(imm, rn) == 0 {
          special := true;
        } else {
          update := false;
        }
      }
      if special {
        s := s + [PushReg(rn)];
      }
      EmitLoadList(mode, rn, imm, num, lowest, highest, region);
      if special {
        s := s + [PopReg(rn)];
      }
      if update {
        EmitUpdateDest(mode, rn, num);
      }
    }
  }

  /** How many of the lowest `i` bits of the mask are set. */
  function LowBits(imm: nat, i: nat): nat {
    if i == 0 then 0 else imm % 2 + LowBits(imm / 2, i - 1)
  }

  lemma {:induction false} ShrHalf(imm: nat, i: nat)
    ensures Shr(imm, i + 1) == Shr(imm / 2, i)
  {
    if i > 0 { ShrHalf(imm, i - 1); }
  }

  /** A bit of the mask is a register of the list; no bits below it make it the first. */
  lemma {:induction false} MaskBits(imm: nat, r: nat)
    requires r < 16
    ensures r in Listed(imm, 0) <==> Shr(imm, r) % 2 == 1
    ensures Shr(imm, r) % 2 == 1 ==>
              (LowBits(imm, r) == 0 <==> |Listed(imm, 0)| > 0 && Listed(imm, 0)[0] == r)
    ensures |Listed(imm, 0)| > 0 && Listed(imm, 0)[0] == r ==> Shr(imm, r) % 2 == 1
  {
    MaskBitsFrom(imm, 0, r);
  }

  lemma {:induction false} MaskBitsFrom(imm: nat, i: nat, k: nat)
    requires i + k < 16
    ensures i + k in Listed(imm, i) <==> Shr(imm, k) % 2 == 1
    ensures Shr(imm, k) % 2 == 1 ==>
              (LowBits(imm, k) == 0 <==> |Listed(imm, i)| > 0 && Listed(imm, i)[0] == i + k)
    ensures |Listed(imm, i)| > 0 && Listed(imm, i)[0] == i + k ==> Shr(imm, k) % 2 == 1
    decreases k
  {
    hide Listed;
    ListedStep(imm, i);
    var rest := Listed(imm / 2, i + 1);
    assert forall x :: x in rest ==> i < x;
    if k > 0 {
      MaskBitsFrom(imm / 2, i + 1, k - 1);
      ShrHalf(imm, k - 1);
      assert Shr(imm, k) == Shr(imm / 2, k - 1);
      assert LowBits(imm, k) == imm % 2 + LowBits(imm / 2, k - 1);
      if imm % 2 == 1 {
        assert i + k in [i] + rest <==> i + k in rest;
      }
    }
  }
}
