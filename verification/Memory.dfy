/**
 Paged physical memory: blocks of 512 bytes reached through a page table, with the flags the
 source keeps per block.

 Blocks are values in a sequence and the page table holds their indices, so two pages that
 map to one block are two equal entries: writing through one is seen through the other.
 */
module Memory {
  import opened Types

  const SIZE := 512
  const TOTAL_PAGES := 0x80_0000
  const SPACE := 0x1_0000_0000

  /** A 32-bit address. */
  type Addr = a: nat | a < 0x1_0000_0000

  datatype Flag =
    | ReadProt | WriteProt | ExecProt | Invalid
    | DirtyJ7 | DirtyJ9 | DirtyReactor | DirtyVram | DirtySram
    | AccessHandler | WriteProt8

  const DIRTY := {DirtyJ7, DirtyJ9, DirtyReactor, DirtyVram, DirtySram}

  type Bytes = s: seq<Byte> | |s| == 512 witness seq(512, _ => 0)

  datatype Block = Block(mem: Bytes, flags: set<Flag>) {
    function Dirtied(): Block { this.(flags := flags + DIRTY) }
    predicate Readable() { ReadProt !in flags && Invalid !in flags }
    predicate Writable() { WriteProt !in flags && Invalid !in flags }
  }

  type Blocks = seq<Block>

  /** A page table whose entries are blocks. */
  ghost predicate TableOk(table: seq<nat>, blocks: Blocks) {
    |table| == TOTAL_PAGES && forall p :: 0 <= p < |table| ==> table[p] < |blocks|
  }

  /** The block an address is in. */
  function BlockOf(table: seq<nat>, a: Addr): nat
    requires |table| == TOTAL_PAGES
  {
    table[a / SIZE]
  }

  /** Where an address is physically: block and offset. */
  function Loc(table: seq<nat>, a: Addr): (nat, nat)
    requires |table| == TOTAL_PAGES
  {
    (BlockOf(table, a), a % SIZE)
  }

  /** Address arithmetic wraps at 32 bits. */
  function Advance(a: Addr, n: nat): Addr
    requires n < SPACE
  {
    if a + n < SPACE then a + n else a + n - SPACE
  }

  // ----- slices of a block -----

  function Get(mem: Bytes, off: nat, n: nat): (s: seq<Byte>)
    requires off + n <= SIZE
    ensures |s| == n
  {
    mem[off..off + n]
  }

  function Put(mem: Bytes, off: nat, s: seq<Byte>): Bytes
    requires off + |s| <= SIZE
  {
    mem[..off] + s + mem[off + |s|..]
  }

  lemma GetPut(mem: Bytes, off: nat, s: seq<Byte>)
    requires off + |s| <= SIZE
    ensures Get(Put(mem, off, s), off, |s|) == s
  {
  }

  lemma GetPutApart(mem: Bytes, off: nat, s: seq<Byte>, off': nat, n: nat)
    requires off + |s| <= SIZE && off' + n <= SIZE
    requires off + |s| <= off' || off' + n <= off
    ensures Get(Put(mem, off, s), off', n) == Get(mem, off', n)
  {
  }

  // ----- little-endian words -----

  /** A 32-bit word as a number. */
  type Word = w: nat | w < 0x1_0000_0000

  function ToBytes(w: Word): (s: seq<Byte>)
    ensures |s| == 4
  {
    [w % 256, w / 256 % 256, w / 65536 % 256, w / 16777216]
  }

  function FromBytes(s: seq<Byte>): Word
    requires |s| == 4
  {
    (s[0] as nat) + (s[1] as nat) * 256 + (s[2] as nat) * 65536 + (s[3] as nat) * 16777216
  }

  lemma WordRoundTrip(w: Word)
    ensures FromBytes(ToBytes(w)) == w
  {
  }

  /** The lowest byte first. */
  lemma LittleEndian(w: Word, s: seq<Byte>)
    requires |s| == 4
    ensures s == ToBytes(w) <==> w == s[0] as nat + 256 * (s[1] as nat + 256 * (s[2] as nat + 256 * s[3] as nat))
    ensures s == ToBytes(w) <==> w == FromBytes(s)
  {
    WordRoundTrip(w);
    BytesRoundTrip(s);
  }

  lemma BytesRoundTrip(s: seq<Byte>)
    requires |s| == 4
    ensures ToBytes(FromBytes(s)) == s
  {
    var w := FromBytes(s);
    assert w / 256 == s[1] as nat + 256 * (s[2] as nat + 256 * s[3] as nat);
    assert w / 65536 == s[2] as nat + 256 * s[3] as nat;
  }

  // ----- memory as seen through the page table -----

  /** The `n` bytes at address `a`, which must not leave its page. */
  function Load(table: seq<nat>, blocks: Blocks, a: Addr, n: nat): (s: seq<Byte>)
    requires TableOk(table, blocks) && a % SIZE + n <= SIZE
    ensures |s| == n
  {
    Get(blocks[BlockOf(table, a)].mem, a % SIZE, n)
  }

  function Store(table: seq<nat>, blocks: Blocks, a: Addr, s: seq<Byte>): (r: Blocks)
    requires TableOk(table, blocks) && a % SIZE + |s| <= SIZE
    ensures |r| == |blocks|
  {
    var i := BlockOf(table, a);
    blocks[i := blocks[i].(mem := Put(blocks[i].mem, a % SIZE, s))]
  }

  function Dirty(blocks: Blocks, i: nat): (r: Blocks)
    requires i < |blocks|
    ensures |r| == |blocks|
  {
    blocks[i := blocks[i].Dirtied()]
  }

  predicate FlagsGrow(f: set<Flag>, f': set<Flag>) { f <= f' <= f + DIRTY }

  lemma LoadStored(table: seq<nat>, blocks: Blocks, a: Addr, s: seq<Byte>)
    requires TableOk(table, blocks) && a % SIZE + |s| <= SIZE
    ensures Load(table, Store(table, blocks, a, s), a, |s|) == s
  {
    GetPut(blocks[BlockOf(table, a)].mem, a % SIZE, s);
  }

  /** Two `n`-byte cells at multiples of `n` are the same cell or do not overlap. */
  lemma LoadElsewhere(table: seq<nat>, blocks: Blocks, a: Addr, s: seq<Byte>, a': Addr)
    requires TableOk(table, blocks) && |s| in {1, 2, 4} && a % |s| == 0 && a' % |s| == 0
    requires Loc(table, a) != Loc(table, a')
    ensures a % SIZE + |s| <= SIZE && a' % SIZE + |s| <= SIZE
    ensures Load(table, Store(table, blocks, a, s), a', |s|) == Load(table, blocks, a', |s|)
  {
    CellFits(a, |s|);
    CellFits(a', |s|);
    if BlockOf(table, a) == BlockOf(table, a') {
      GetPutApart(blocks[BlockOf(table, a)].mem, a % SIZE, s, a' % SIZE, |s|);
    }
  }

  lemma CellFits4(a: Addr)
    requires a % 4 == 0
    ensures a % SIZE + 4 <= SIZE && (a % SIZE) % 4 == 0
  {
  }

  lemma CellFits2(a: Addr)
    requires a % 2 == 0
    ensures a % SIZE + 2 <= SIZE && (a % SIZE) % 2 == 0
  {
  }

  lemma CellFits(a: Addr, n: nat)
    requires n in {1, 2, 4} && a % n == 0
    ensures a % SIZE + n <= SIZE && (a % SIZE) % n == 0
  {
    if n == 4 { CellFits4(a); } else if n == 2 { CellFits2(a); }
  }

  /** Byte `x` of physical block `i` after a store, and byte `k` of what a load gets. */
  lemma BytesInPlace(table: seq<nat>, blocks: Blocks, a: Addr, s: seq<Byte>, i: nat, x: nat, n: nat, k: nat)
    requires TableOk(table, blocks) && a % 512 + |s| <= 512 && a % 512 + n <= 512
    requires i < |blocks| && x < 512 && k < n
    ensures var b := Store(table, blocks, a, s)[i];
            && b.flags == blocks[i].flags
            && b.mem[x] == if i == table[a / 512] && a % 512 <= x < a % 512 + |s| then s[x - a % 512]
                           else blocks[i].mem[x]
    ensures Load(table, blocks, a, n)[k] == blocks[table[a / 512]].mem[a % 512 + k]
  {
  }
}
