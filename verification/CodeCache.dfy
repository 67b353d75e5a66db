/**
 The cache of compiled pages. Each CPU has a dirty bit per page and a compiled block per page
 and instruction set; writers set the dirty bits, branches and flushes clear them.
 Compilation is an arbitrary function of the page's bytes.
 */
module CodeCache {
  import opened Types
  import opened Memory
  import ArrayAccess
  import Dma
  import Arm
  import Compiler
  import X86

  datatype Isa = ArmCode | ThumbCode

  function DirtyBit(cpu: Cpu): Flag { if cpu.Arm7? then DirtyJ7 else DirtyJ9 }

  /** `compiler::compile` for one CPU and instruction set. */
  type Compile<Code> = (Cpu, Isa, Bytes) -> Code

  /** A page with the code compiled from it. */
  datatype Page<Code> = Page(block: Block, jit: map<(Cpu, Isa), Code>)

  // ----- operations on one page -----

  function Recompiled<Code>(compile: Compile<Code>, p: Page<Code>, cpu: Cpu, isa: Isa): Page<Code> {
    p.(jit := p.jit[(cpu, isa) := compile(cpu, isa, p.block.mem)])
  }

  function RecompiledIfThere<Code>(compile: Compile<Code>, p: Page<Code>, cpu: Cpu, isa: Isa): Page<Code> {
    if (cpu, isa) in p.jit then Recompiled(compile, p, cpu, isa) else p
  }

  function Clean<Code>(p: Page<Code>, cpu: Cpu): Page<Code> {
    p.(block := p.block.(flags := p.block.flags - {DirtyBit(cpu)}))
  }

  /** What is there for a dirty CPU is compiled again. */
  function Refreshed<Code>(compile: Compile<Code>, p: Page<Code>, cpu: Cpu): Page<Code> {
    if DirtyBit(cpu) in p.block.flags then
      RecompiledIfThere(compile, RecompiledIfThere(compile, Clean(p, cpu), cpu, ArmCode), cpu, ThumbCode)
    else p
  }

  function Flushed<Code>(compile: Compile<Code>, p: Page<Code>): Page<Code> {
    Refreshed(compile, Refreshed(compile, p, Arm7), Arm9)
  }

  /** What a plugin that watches the page leaves. */
  function Reacted<Code>(p: Page<Code>): Page<Code> {
    p.(block := p.block.(flags := p.block.flags - {DirtyReactor}))
  }

  /** A branch into the page. */
  function Entered<Code>(compile: Compile<Code>, p: Page<Code>, cpu: Cpu, isa: Isa): (r: Page<Code>)
    ensures (cpu, isa) in r.jit
  {
    var q := Refreshed(compile, p, cpu);
    if (cpu, isa) in q.jit then q else Recompiled(compile, q, cpu, isa)
  }

  /** Bit 0 of a branch target selects the instruction set. */
  function IsaOf(a: Addr): Isa { if a % 2 == 1 then ThumbCode else ArmCode }

  function InstOf(a: Addr): nat { if a % 2 == 1 then a % SIZE / 2 else a % SIZE / 4 }

  /** Where a store of `n` bytes goes: the address is rounded down. */
  function Rounded(a: Addr, n: nat): Addr
    requires n in {1, 2, 4}
  {
    a - a % n
  }

  predicate StoreAllowed(b: Block, n: nat) { b.Writable() && (n == 1 ==> WriteProt8 !in b.flags) }

  function Stored(b: Block, off: nat, data: seq<Byte>): Block
    requires off + |data| <= SIZE
  {
    if StoreAllowed(b, |data|) then b.(mem := Put(b.mem, off, data)).Dirtied() else b
  }

  // ----- both CPUs and all pages -----

  datatype State<Code> = State(pages: seq<Page<Code>>, table7: seq<nat>, table9: seq<nat>)

  function TableOf<Code>(s: State<Code>, cpu: Cpu): seq<nat> { if cpu.Arm7? then s.table7 else s.table9 }

  function BlocksOf<Code>(pages: seq<Page<Code>>): (r: Blocks)
    ensures |r| == |pages| && forall i :: 0 <= i < |pages| ==> r[i] == pages[i].block
  {
    seq(|pages|, i requires 0 <= i < |pages| => pages[i].block)
  }

  function WithBlocks<Code>(pages: seq<Page<Code>>, blocks: Blocks): (r: seq<Page<Code>>)
    requires |blocks| == |pages|
    ensures |r| == |pages|
    ensures forall i :: 0 <= i < |pages| ==> r[i] == pages[i].(block := blocks[i])
  {
    seq(|pages|, i requires 0 <= i < |pages| => pages[i].(block := blocks[i]))
  }

  ghost predicate Ok<Code>(s: State<Code>) {
    TableOk(s.table7, BlocksOf(s.pages)) && TableOk(s.table9, BlocksOf(s.pages))
  }

  /** The atomic steps. `Branch` is the jump proper: the interrupt poll in front of it is the
      events it causes. */
  datatype Event =
    | Store(cpu: Cpu, addr: Addr, data: seq<Byte>)
    | StoreArray(cpu: Cpu, addr: Addr, words: seq<Word>)
    | Transfer(src: Addr, dst: Addr, ctrl: Word)
    | Flush(page: nat)
    | React(page: nat)
    | Branch(cpu: Cpu, addr: Addr)
    | Remap(cpu: Cpu, table: seq<nat>)

  function ChannelOf<Code>(s: State<Code>, e: Event): Dma.Channel
    requires e.Transfer?
  {
    Dma.Channel(e.src, e.dst, e.ctrl, BlocksOf(s.pages))
  }

  /** Events in range that are not served by access handlers. */
  ghost predicate Possible<Code>(s: State<Code>, e: Event)
    requires Ok(s)
  {
    match e
    case Store(cpu, a, data) =>
      |data| in {1, 2, 4} && AccessHandler !in s.pages[BlockOf(TableOf(s, cpu), a)].block.flags
    case StoreArray(cpu, a, words) => AccessHandler !in s.pages[BlockOf(TableOf(s, cpu), a)].block.flags
    case Transfer(_, _, _) => Dma.NoHandlers(s.table9, ChannelOf(s, e))
    case Flush(i) => i < |s.pages|
    case React(i) => i < |s.pages|
    case Branch(_, _) => true
    case Remap(_, t) => TableOk(t, BlocksOf(s.pages))
  }

  ghost function Step<Code>(compile: Compile<Code>, s: State<Code>, e: Event): (r: State<Code>)
    requires Ok(s) && Possible(s, e)
    ensures |r.pages| == |s.pages|
  {
    match e
    case Store(cpu, a, data) =>
      var i := BlockOf(TableOf(s, cpu), a);
      RoundedFits(a, |data|);
      s.(pages := s.pages[i := s.pages[i].(block := Stored(s.pages[i].block, Rounded(a, |data|) % SIZE, data))])
    case StoreArray(cpu, a, words) =>
      s.(pages := WithBlocks(s.pages, ArrayAccess.StoreArray(TableOf(s, cpu), BlocksOf(s.pages), a, words).blocks))
    case Transfer(_, _, _) =>
      s.(pages := WithBlocks(s.pages, Dma.Transfer(s.table9, ChannelOf(s, e)).blocks))
    case Flush(i) => s.(pages := s.pages[i := Flushed(compile, s.pages[i])])
    case React(i) =>
      s.(pages := s.pages[i := Reacted(s.pages[i])])
    case Branch(cpu, a) =>
      var i := BlockOf(TableOf(s, cpu), a);
      s.(pages := s.pages[i := Entered(compile, s.pages[i], cpu, IsaOf(a))])
    case Remap(cpu, t) => if cpu.Arm7? then s.(table7 := t) else s.(table9 := t)
  }

  lemma RoundedFits(a: Addr, n: nat)
    requires n in {1, 2, 4}
    ensures Rounded(a, n) % SIZE + n <= SIZE && BlockStays(a, Rounded(a, n))
  {
  }

  predicate BlockStays(a: Addr, a': Addr) { a / SIZE == a' / SIZE }

  /** A store of one, two or four bytes goes to the multiple of its size at or below the address, in
      the storing CPU's page, if that page can be written that way; every other byte stays. */
  lemma StorePlaces<Code>(compile: Compile<Code>, s: State<Code>, cpu: Cpu, a: Addr, data: seq<Byte>, i: nat, x: nat)
    requires Ok(s) && Possible(s, Event.Store(cpu, a, data)) && i < |s.pages| && x < 512
    ensures var n, table := |data|, if cpu == Arm7 then s.table7 else s.table9;
            var p, q := s.pages[i].block, Step(compile, s, Event.Store(cpu, a, data)).pages[i].block;
            var first := a % 512 / n * n;
            var written := i == table[a / 512] && WriteProt !in p.flags && Invalid !in p.flags
                           && (n == 1 ==> WriteProt8 !in p.flags);
            && q.mem[x] == (if written && first <= x < first + n then data[x - first] else p.mem[x])
            && q.flags == p.flags + if written then {DirtyJ7, DirtyJ9, DirtyReactor, DirtyVram, DirtySram} else {}
  {
    RoundedFits(a, |data|);
    FirstByte(a, |data|);
  }

  lemma FirstByte(a: Addr, n: nat)
    requires n in {1, 2, 4}
    ensures Rounded(a, n) % SIZE == a % 512 / n * n
  {
    if n == 4 { WordStart(a); } else if n == 2 { HalfStart(a); }
  }

  lemma WordStart(a: nat)
    ensures (a - a % 4) % 512 == a % 512 / 4 * 4
  {
    assert a == 512 * (a / 512) + a % 512;
    assert a % 4 == a % 512 % 4;
  }

  lemma HalfStart(a: nat)
    ensures (a - a % 2) % 512 == a % 512 / 2 * 2
  {
    assert a == 512 * (a / 512) + a % 512;
    assert a % 2 == a % 512 % 2;
  }

  lemma InstOfIs(a: Addr)
    ensures a % 2 == 1 ==> 2 * InstOf(a) == a % 512 - 1
    ensures a % 2 == 0 ==> 4 * InstOf(a) <= a % 512 < 4 * InstOf(a) + 4
  {
    if a % 2 == 1 { OddOffset(a); }
  }

  lemma OddOffset(a: nat)
    requires a % 2 == 1
    ensures 2 * (a % 512 / 2) == a % 512 - 1
  {
    assert a == 512 * (a / 512) + a % 512;
    assert a % 512 % 2 == 1;
  }

  /** The index a branch computes from an ARM target is that of the instruction the target lies in:
      entered at that entry of the page's remap table, the code is the page's from there on. */
  lemma {:induction false} EntersInstruction(p: seq<Arm.Inst>, code: seq<X86.Op>, remap: seq<nat>, a: Addr, k: nat)
    requires |p| == 128 && Compiler.IsPageCode(p, code, remap) && a % 2 == 0 && 4 * k <= a % 512 < 4 * k + 4
    ensures InstOf(a) < |remap| && remap[InstOf(a)] <= |code|
    ensures k < |p| && code[remap[InstOf(a)]..] == Compiler.CodeFrom(p, k, true)
  {
    hide Compiler.CodeFrom;
    assert InstOf(a) == k;
  }

  lemma StepOk<Code>(compile: Compile<Code>, s: State<Code>, e: Event)
    requires Ok(s) && Possible(s, e)
    ensures Ok(Step(compile, s, e))
  {
  }

  // ----- coherence -----

  /** A compiled block of a CPU that is not dirty was compiled from the bytes there now. */
  ghost predicate Fresh<Code(!new)>(compile: Compile<Code>, p: Page<Code>) {
    forall cpu, isa :: (cpu, isa) in p.jit && DirtyBit(cpu) !in p.block.flags ==>
      p.jit[(cpu, isa)] == compile(cpu, isa, p.block.mem)
  }

  ghost predicate Coherent<Code(!new)>(compile: Compile<Code>, s: State<Code>) {
    forall i :: 0 <= i < |s.pages| ==> Fresh(compile, s.pages[i])
  }

  /** A write that keeps the rule: what changed is dirty, and no dirty bit was cleared. */
  ghost predicate MarksChanges(b: Block, b': Block) {
    && (DIRTY <= b'.flags || b'.mem == b.mem)
    && (forall f :: f in b.flags ==> f in b'.flags)
  }

  ghost predicate AllMarked(blocks: Blocks, blocks': Blocks) {
    |blocks'| == |blocks| && forall i :: 0 <= i < |blocks| ==> MarksChanges(blocks[i], blocks'[i])
  }

  lemma MarkedStaysFresh<Code(!new)>(compile: Compile<Code>, p: Page<Code>, b: Block)
    requires Fresh(compile, p) && MarksChanges(p.block, b)
    ensures Fresh(compile, p.(block := b))
  {
    assert DirtyJ7 in DIRTY && DirtyJ9 in DIRTY;
  }

  lemma MarkedTwice(a: Blocks, b: Blocks, c: Blocks)
    requires AllMarked(a, b) && AllMarked(b, c)
    ensures AllMarked(a, c)
  {
  }

  lemma {:induction false} StoreFromMarks(table: seq<nat>, blocks: Blocks, a: Addr, words: seq<Word>)
    requires TableOk(table, blocks) && a % 4 == 0
    ensures var r := ArrayAccess.StoreFrom(table, blocks, a, words).blocks;
            AllMarked(blocks, r) && DIRTY <= r[BlockOf(table, a)].flags
    decreases |words|
  {
    hide ToBytes, ArrayAccess.NextAddr;
    if |words| > 0 {
      CellFits(a, 4);
      var i := BlockOf(table, a);
      var b1 := Memory.Store(table, blocks, a, ToBytes(words[0]));
      var a1 := ArrayAccess.NextAddr(a);
      NextInPage(a);
      if a1 % SIZE == 0 {
        var b2 := Dirty(b1, i);
        if b2[BlockOf(table, a1)].Writable() {
          StoreFromMarks(table, b2, a1, words[1..]);
        }
      } else {
        StoreFromMarks(table, b1, a1, words[1..]);
      }
    }
  }

  lemma NextInPage(a: Addr)
    requires a % 4 == 0
    ensures ArrayAccess.NextAddr(a) % SIZE != 0 ==> ArrayAccess.NextAddr(a) / SIZE == a / SIZE
  {
  }

  lemma {:induction false} TransferMarks(table: seq<nat>, c: Dma.Channel)
    requires TableOk(table, c.blocks)
    ensures AllMarked(c.blocks, Dma.Transfer(table, c).blocks)
    decreases c.ctrl % Dma.COUNT
  {
    hide Dma.Width, Dma.SrcStep, Dma.DstStep, Dma.CopyElement, Dma.Move;
    if Dma.Active(c.ctrl) {
      var t := Dma.Turn(table, c);
      Dma.CountsDown(c.ctrl);
      Dma.StepSizes(c.ctrl);
      ElementMarks(table, c.blocks, c.src, c.dst, Dma.Width(c.ctrl));
      TransferMarks(table, t);
      MarkedTwice(c.blocks, t.blocks, Dma.Transfer(table, c).blocks);
    }
  }

  lemma ElementMarks(table: seq<nat>, blocks: Blocks, src: Addr, dst: Addr, w: nat)
    requires TableOk(table, blocks) && w in {2, 4}
    ensures AllMarked(blocks, Dma.CopyElement(table, blocks, src, dst, w))
  {
  }

  lemma RefreshedFresh<Code(!new)>(compile: Compile<Code>, p: Page<Code>, cpu: Cpu)
    requires Fresh(compile, p)
    ensures Fresh(compile, Refreshed(compile, p, cpu))
    ensures DirtyBit(cpu) !in Refreshed(compile, p, cpu).block.flags
  {
    var q := Refreshed(compile, p, cpu);
    forall c, isa | (c, isa) in q.jit && DirtyBit(c) !in q.block.flags
      ensures q.jit[(c, isa)] == compile(c, isa, q.block.mem)
    {
      if DirtyBit(cpu) in p.block.flags && c == cpu {
        assert isa == ArmCode || isa == ThumbCode;
      } else {
        assert DirtyBit(c) !in p.block.flags && (c, isa) in p.jit;
      }
    }
  }

  lemma EnteredFresh<Code(!new)>(compile: Compile<Code>, p: Page<Code>, cpu: Cpu, isa: Isa)
    requires Fresh(compile, p)
    ensures var r := Entered(compile, p, cpu, isa);
            Fresh(compile, r) && r.jit[(cpu, isa)] == compile(cpu, isa, p.block.mem) && r.block.mem == p.block.mem
  {
    hide Refreshed;
    RefreshedFresh(compile, p, cpu);
    RefreshedKeeps(compile, p, cpu);
  }

  lemma RefreshedKeeps<Code>(compile: Compile<Code>, p: Page<Code>, cpu: Cpu)
    ensures Refreshed(compile, p, cpu).block.mem == p.block.mem
  {
  }

  /** Every step of either CPU keeps the cache coherent. */
  lemma StepCoherent<Code(!new)>(compile: Compile<Code>, s: State<Code>, e: Event)
    requires Ok(s) && Possible(s, e) && Coherent(compile, s)
    ensures Coherent(compile, Step(compile, s, e))
  {
    hide Fresh, Entered, Flushed, Stored, Rounded, Dma.NoHandlers;
    match e {
      case Store(cpu, a, data) =>
        var i := BlockOf(TableOf(s, cpu), a);
        RoundedFits(a, |data|);
        StoredMarks(s.pages[i].block, Rounded(a, |data|) % SIZE, data);
        MarkedStaysFresh(compile, s.pages[i], Stored(s.pages[i].block, Rounded(a, |data|) % SIZE, data));
      case StoreArray(cpu, a, words) =>
        if BlocksOf(s.pages)[BlockOf(TableOf(s, cpu), a)].Writable() {
          StoreFromMarks(TableOf(s, cpu), BlocksOf(s.pages), ArrayAccess.Align(a), words);
        }
        AllMarkedFresh(compile, s, ArrayAccess.StoreArray(TableOf(s, cpu), BlocksOf(s.pages), a, words).blocks);
      case Transfer(_, _, _) =>
        TransferMarks(s.table9, ChannelOf(s, e));
        AllMarkedFresh(compile, s, Dma.Transfer(s.table9, ChannelOf(s, e)).blocks);
      case Flush(i) => FlushedFresh(compile, s.pages[i]);
      case React(i) => ReactFresh(compile, s.pages[i]);
      case Branch(cpu, a) => EnteredFresh(compile, s.pages[BlockOf(TableOf(s, cpu), a)], cpu, IsaOf(a));
      case Remap(_, _) =>
    }
  }

  lemma AllMarkedFresh<Code(!new)>(compile: Compile<Code>, s: State<Code>, blocks: Blocks)
    requires Coherent(compile, s) && AllMarked(BlocksOf(s.pages), blocks)
    ensures Coherent(compile, s.(pages := WithBlocks(s.pages, blocks)))
  {
    hide Fresh;
    forall i | 0 <= i < |s.pages|
      ensures Fresh(compile, WithBlocks(s.pages, blocks)[i])
    {
      assert MarksChanges(BlocksOf(s.pages)[i], blocks[i]);
      MarkedStaysFresh(compile, s.pages[i], blocks[i]);
    }
  }

  lemma StoredMarks(b: Block, off: nat, data: seq<Byte>)
    requires off + |data| <= SIZE
    ensures MarksChanges(b, Stored(b, off, data))
  {
  }

  lemma FlushedFresh<Code(!new)>(compile: Compile<Code>, p: Page<Code>)
    requires Fresh(compile, p)
    ensures Fresh(compile, Flushed(compile, p))
  {
    hide Refreshed, Fresh;
    RefreshedFresh(compile, p, Arm7);
    RefreshedFresh(compile, Refreshed(compile, p, Arm7), Arm9);
  }

  /** A flush leaves no dirty bit of either CPU and no other flag different; the bytes stay, and of
      each CPU that was dirty exactly the code that was there is compiled again. */
  lemma FlushRecompiles<Code(!new)>(compile: Compile<Code>, p: Page<Code>, cpu: Cpu, isa: Isa)
    ensures var r, dirty := Flushed(compile, p), (if cpu == Arm7 then DirtyJ7 else DirtyJ9) in p.block.flags;
            && r.block.mem == p.block.mem && r.block.flags == p.block.flags - {DirtyJ7, DirtyJ9}
            && ((cpu, isa) in r.jit <==> (cpu, isa) in p.jit)
            && ((cpu, isa) in p.jit ==>
                  r.jit[(cpu, isa)] == if dirty then compile(cpu, isa, p.block.mem) else p.jit[(cpu, isa)])
  {
  }

  lemma ReactFresh<Code(!new)>(compile: Compile<Code>, p: Page<Code>)
    requires Fresh(compile, p)
    ensures Fresh(compile, Reacted(p))
  {
  }

  // ----- runs -----

  ghost predicate AllPossible<Code(!new)>(compile: Compile<Code>, s: State<Code>, events: seq<Event>)
    requires Ok(s)
    decreases |events|
  {
    events != [] ==>
      && Possible(s, events[0])
      && (StepOk(compile, s, events[0]); AllPossible(compile, Step(compile, s, events[0]), events[1..]))
  }

  ghost function Run<Code(!new)>(compile: Compile<Code>, s: State<Code>, events: seq<Event>): (r: State<Code>)
    requires Ok(s) && AllPossible(compile, s, events)
    ensures Ok(r) && |r.pages| == |s.pages|
    decreases |events|
  {
    if events == [] then s
    else
      StepOk(compile, s, events[0]);
      Run(compile, Step(compile, s, events[0]), events[1..])
  }

  lemma {:induction false} RunCoherent<Code(!new)>(compile: Compile<Code>, s: State<Code>, events: seq<Event>)
    requires Ok(s) && AllPossible(compile, s, events) && Coherent(compile, s)
    ensures Coherent(compile, Run(compile, s, events))
    decreases |events|
  {
    hide Step, Possible, Coherent;
    if events != [] {
      StepOk(compile, s, events[0]);
      StepCoherent(compile, s, events[0]);
      RunCoherent(compile, Step(compile, s, events[0]), events[1..]);
    }
  }

  /** Nothing compiled yet; the flags can be anything. */
  ghost predicate Cold<Code>(s: State<Code>) {
    Ok(s) && forall i :: 0 <= i < |s.pages| ==> s.pages[i].jit == map[]
  }

  /** After any run of both CPUs, a branch finds code that was compiled from the bytes its page
      has at that moment: as Thumb code if bit 0 of the target is set, as ARM code if not. */
  lemma {:induction false} BranchReturnsFreshCode<Code(!new)>(compile: Compile<Code>, s: State<Code>,
        events: seq<Event>,
                                           cpu: Cpu, a: Addr)
    requires Cold(s) && AllPossible(compile, s, events)
    ensures var t := Run(compile, s, events);
            var table := if cpu.Arm7? then t.table7 else t.table9;
            var i := table[a / 512];
            var u := Step(compile, t, Branch(cpu, a));
            && i < |t.pages| && u.pages[i].block.mem == t.pages[i].block.mem
            && (a % 2 == 1 ==>
                  (cpu, ThumbCode) in u.pages[i].jit
                  && u.pages[i].jit[(cpu, ThumbCode)] == compile(cpu, ThumbCode, t.pages[i].block.mem))
            && (a % 2 == 0 ==>
                  (cpu, ArmCode) in u.pages[i].jit
                  && u.pages[i].jit[(cpu, ArmCode)] == compile(cpu, ArmCode, t.pages[i].block.mem))
  {
    hide Run, AllPossible, Entered, Refreshed;
    RunCoherent(compile, s, events);
    var t := Run(compile, s, events);
    EnteredFresh(compile, t.pages[BlockOf(TableOf(t, cpu), a)], cpu, IsaOf(a));
  }

  /** It brings nothing into the cache but the code of that instruction set and CPU. */
  lemma BranchCompilesOnly<Code(!new)>(compile: Compile<Code>, s: State<Code>, cpu: Cpu, a: Addr, i: nat,
                                       c: Cpu, isa: Isa)
    requires Ok(s) && i < |s.pages|
    ensures var table := if cpu.Arm7? then s.table7 else s.table9;
            var p, q := s.pages[i], Step(compile, s, Branch(cpu, a)).pages[i];
            var wanted := i == table[a / 512] && c == cpu && (isa == ThumbCode <==> a % 2 == 1);
            && ((c, isa) in q.jit <==> (c, isa) in p.jit || wanted)
            && (i != table[a / 512] ==> q == p)
  {
  }

  /** A new page table is the one CPU's, and everything that CPU does then goes through it; DMA
      goes through the ARM9's. */
  lemma RemapIsOwn<Code(!new)>(compile: Compile<Code>, s: State<Code>, cpu: Cpu, t: seq<nat>)
    requires Ok(s) && Possible(s, Remap(cpu, t))
    ensures var r := Step(compile, s, Remap(cpu, t));
            && r.pages == s.pages
            && r.table7 == (if cpu == Arm7 then t else s.table7) && r.table9 == (if cpu == Arm9 then t else s.table9)
            && TableOf(r, Arm7) == r.table7 && TableOf(r, Arm9) == r.table9
  {
  }

  function Other(cpu: Cpu): Cpu { if cpu.Arm7? then Arm9 else Arm7 }

  /** A branch of one CPU leaves the other's dirty bits and compiled blocks, and all memory. */
  lemma BranchLeavesOther<Code(!new)>(compile: Compile<Code>, s: State<Code>, cpu: Cpu, a: Addr, i: nat, isa: Isa)
    requires Ok(s) && i < |s.pages|
    ensures var p, q := s.pages[i], Step(compile, s, Branch(cpu, a)).pages[i];
            && q.block.mem == p.block.mem
            && (forall f :: f != (if cpu == Arm7 then DirtyJ7 else DirtyJ9) ==>
                  (f in q.block.flags <==> f in p.block.flags))
            && ((Other(cpu), isa) in q.jit <==> (Other(cpu), isa) in p.jit)
            && ((Other(cpu), isa) in p.jit ==> q.jit[(Other(cpu), isa)] == p.jit[(Other(cpu), isa)])
  {
  }

  /** A second branch into the page finds the code there and compiles nothing. */
  lemma SecondBranchCompilesNothing<Code(!new)>(compile: Compile<Code>, s: State<Code>, cpu: Cpu, a: Addr)
    requires Ok(s)
    ensures var t := Step(compile, s, Branch(cpu, a));
            Ok(t) && Step(compile, t, Branch(cpu, a)) == t
  {
    StepOk(compile, s, Branch(cpu, a));
    var i := BlockOf(TableOf(s, cpu), a);
    var t := Step(compile, s, Branch(cpu, a));
    assert Entered(compile, t.pages[i], cpu, IsaOf(a)) == t.pages[i];
    assert t.pages[i := t.pages[i]] == t.pages;
  }

  // ----- the page object -----

  class MemoryBlock<Code(!new)> {
    var flags: set<Flag>
    var mem: Bytes
    var jit: map<(Cpu, Isa), Code>
    const compile: Compile<Code>

    ghost function Value(): Page<Code>
      reads this
    {
      Page(Block(mem, flags), jit)
    }

    constructor (compile: Compile<Code>, mem: Bytes)
      ensures Value() == Page(Block(mem, {}), map[]) && this.compile == compile
    {
      flags, this.mem, jit, this.compile := {}, mem, map[], compile;
    }

    method MarkDirty()
      modifies this`flags
      ensures Value() == old(Value()).(block := old(Value()).block.Dirtied())
    {
      flags := flags + DIRTY;
    }

    method Recompile(cpu: Cpu, isa: Isa)
      modifies this`jit
      ensures Value() == Recompiled(compile, old(Value()), cpu, isa)
    {
      jit := jit[(cpu, isa) := compile(cpu, isa, mem)];
    }

    /** The part of `flush` for one CPU, which a branch of that CPU does as well. */
    method Refresh(cpu: Cpu)
      modifies this`flags, this`jit
      ensures Value() == Refreshed(compile, old(Value()), cpu)
    {
      if DirtyBit(cpu) in flags {
        flags := flags - {DirtyBit(cpu)};
        if (cpu, ArmCode) in jit { Recompile(cpu, ArmCode); }
        if (cpu, ThumbCode) in jit { Recompile(cpu, ThumbCode); }
      }
    }

    /** `memory_block::flush` */
    method Flush()
      modifies this`flags, this`jit
      ensures Value() == Flushed(compile, old(Value()))
    {
      Refresh(Arm7);
      Refresh(Arm9);
    }

    /** `memory_block::react` */
    method React() returns (dirty: bool)
      modifies this`flags
      ensures dirty == (DirtyReactor in old(flags))
      ensures Value() == Reacted(old(Value())) && flags == old(flags) - {DirtyReactor}
    {
      dirty := DirtyReactor in flags;
      if dirty {
        flags := flags - {DirtyReactor};
      }
    }

    /** `store8`, `store16` and `store32` on this page: false for an invalid write. */
    method Store(addr: Addr, data: seq<Byte>) returns (ok: bool)
      requires |data| in {1, 2, 4} && AccessHandler !in flags
      requires Rounded(addr, |data|) % SIZE + |data| <= SIZE
      modifies this`mem, this`flags
      ensures ok == StoreAllowed(Block(old(mem), old(flags)), |data|)
      ensures Value() == old(Value()).(block := Stored(old(Value()).block, Rounded(addr, |data|) % SIZE, data))
    {
      if Invalid in flags || WriteProt in flags || (|data| == 1 && WriteProt8 in flags) {
        return false;
      }
      mem := Put(mem, Rounded(addr, |data|) % SIZE, data);
      MarkDirty();
      return true;
    }

    /** The branch routine once the page is found: the code and the index into its remap table,
        Thumb code and halfwords if bit 0 of the target is set, ARM code and words if not. */
    method Enter(cpu: Cpu, addr: Addr) returns (code: Code, inst: nat)
      modifies this`flags, this`jit
      ensures Value() == Entered(compile, old(Value()), cpu, IsaOf(addr)) && mem == old(mem)
      ensures addr % 2 == 1 ==> (cpu, ThumbCode) in jit && code == jit[(cpu, ThumbCode)]
      ensures addr % 2 == 0 ==> (cpu, ArmCode) in jit && code == jit[(cpu, ArmCode)]
      ensures addr % 2 == 1 ==> inst == InstOf(addr) && 2 * inst == addr % 512 - 1
      ensures addr % 2 == 0 ==> inst == InstOf(addr) && 4 * inst <= addr % 512 < 4 * inst + 4
      ensures Fresh(compile, old(Value())) && addr % 2 == 1 ==> code == compile(cpu, ThumbCode, mem)
      ensures Fresh(compile, old(Value())) && addr % 2 == 0 ==> code == compile(cpu, ArmCode, mem)
    {
      hide InstOf;
      EnteredIsFresh(cpu, IsaOf(addr));
      InstOfIs(addr);
      IndexIs(addr);
      Refresh(cpu);
      if addr % 2 == 1 {
        if (cpu, ThumbCode) !in jit { Recompile(cpu, ThumbCode); }
        code, inst := jit[(cpu, ThumbCode)], addr % SIZE / 2;
      } else {
        if (cpu, ArmCode) !in jit { Recompile(cpu, ArmCode); }
        code, inst := jit[(cpu, ArmCode)], addr % SIZE / 4;
      }
    }

    lemma IndexIs(addr: Addr)
      ensures InstOf(addr) == if addr % 2 == 1 then addr % SIZE / 2 else addr % SIZE / 4
    {
    }

    lemma EnteredIsFresh(cpu: Cpu, isa: Isa)
      ensures Fresh(compile, Value()) ==> Entered(compile, Value(), cpu, isa).jit[(cpu, isa)] == compile(cpu, isa, mem)
    {
      if Fresh(compile, Value()) { EnteredFresh(compile, Value(), cpu, isa); }
    }
  }
}
