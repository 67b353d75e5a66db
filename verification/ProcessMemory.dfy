/**
 Walking a range of memory page by page, and the BIOS CRC over such a range.
 */
module ProcessMemory {
  import opened Types
  import opened Memory
  import Crc16

  /** A call of the functor: bytes `from .. from + size` of one block. */
  datatype Chunk = Chunk(block: nat, from: nat, size: nat)

  predicate Inside(c: Chunk, blocks: Blocks) { c.block < |blocks| && c.from + c.size <= SIZE }

  function Slice(blocks: Blocks, c: Chunk): (s: seq<Byte>)
    requires Inside(c, blocks)
    ensures |s| == c.size
  {
    Get(blocks[c.block].mem, c.from, c.size)
  }

  /** Bytes to the end of the page. */
  function Left(a: Addr): (r: nat)
    ensures 1 <= r <= SIZE
  {
    SIZE - a % SIZE
  }

  /** The calls made for a range, in order. */
  function Chunks(table: seq<nat>, addr: Addr, len: nat): seq<Chunk>
    requires |table| == TOTAL_PAGES
    decreases len
  {
    if len <= Left(addr) then [Chunk(BlockOf(table, addr), addr % SIZE, len)]
    else [Chunk(BlockOf(table, addr), addr % SIZE, Left(addr))]
         + Chunks(table, Advance(addr, Left(addr)), len - Left(addr))
  }

  predicate AllInside(chunks: seq<Chunk>, blocks: Blocks) {
    forall i :: 0 <= i < |chunks| ==> Inside(chunks[i], blocks)
  }

  lemma {:induction false} ChunksInside(table: seq<nat>, blocks: Blocks, addr: Addr, len: nat)
    requires TableOk(table, blocks)
    ensures AllInside(Chunks(table, addr, len), blocks)
    decreases len
  {
    if len > Left(addr) {
      ChunksInside(table, blocks, Advance(addr, Left(addr)), len - Left(addr));
    }
  }

  /** What the functor makes of the chunks. */
  function Fold<C>(process: (C, Block, seq<Byte>) -> C, blocks: Blocks, ctx: C, chunks: seq<Chunk>): C
    requires AllInside(chunks, blocks)
    decreases |chunks|
  {
    if chunks == [] then ctx
    else
      var c := chunks[0];
      Fold(process, blocks, process(ctx, blocks[c.block], Slice(blocks, c)), chunks[1..])
  }

  /** `process_memory`, with the functor as a function on its context. */
  method ProcessMemory<C>(table: seq<nat>, blocks: Blocks, addr: Addr, len: nat,
                          process: (C, Block, seq<Byte>) -> C, ctx: C)
    returns (r: C)
    requires TableOk(table, blocks)
    ensures AllInside(Chunks(table, addr, len), blocks)
    ensures r == Fold(process, blocks, ctx, Chunks(table, addr, len))
  {
    ChunksInside(table, blocks, addr, len);
    var b := BlockOf(table, addr);
    var subaddr := addr % SIZE;
    var todo := if len > SIZE - subaddr then SIZE - subaddr else len;
    r := process(ctx, blocks[b], Get(blocks[b].mem, subaddr, todo));
    var n: nat := len - todo;
    var a: Addr := Advance(addr, todo);
    PageStart(addr);
    assert n > 0 ==> Chunks(table, addr, len)[1..] == Chunks(table, a, n);
    while n > 0
      invariant 0 <= n <= len && (n > 0 ==> a % SIZE == 0)
      invariant n > 0 ==> AllInside(Chunks(table, a, n), blocks)
      invariant Fold(process, blocks, ctx, Chunks(table, addr, len))
             == if n > 0 then Fold(process, blocks, r, Chunks(table, a, n)) else r
      decreases n
    {
      todo := if n > SIZE then SIZE else n;
      b := BlockOf(table, a);
      r := process(r, blocks[b], Get(blocks[b].mem, 0, todo));
      PageStart(a);
      assert n > SIZE ==> Chunks(table, a, n)[1..] == Chunks(table, Advance(a, SIZE), n - SIZE);
      n, a := n - todo, Advance(a, todo);
      if n > 0 { ChunksInside(table, blocks, a, n); }
    }
  }

  lemma PageStart(a: Addr)
    ensures Advance(a, Left(a)) % SIZE == 0
  {
  }

  // ----- the chunks partition the range -----

  /** The `k`-th byte from an address, wrapping at 32 bits. */
  function ByteAt(table: seq<nat>, blocks: Blocks, addr: Addr, k: nat): Byte
    requires TableOk(table, blocks)
  {
    var a: Addr := (addr + k) % SPACE;
    blocks[BlockOf(table, a)].mem[a % SIZE]
  }

  function Flat(table: seq<nat>, blocks: Blocks, addr: Addr, len: nat): (s: seq<Byte>)
    requires TableOk(table, blocks)
    ensures |s| == len
  {
    seq(len, k requires 0 <= k < len => ByteAt(table, blocks, addr, k))
  }

  function Concat(blocks: Blocks, chunks: seq<Chunk>): seq<Byte>
    requires AllInside(chunks, blocks)
    decreases |chunks|
  {
    if chunks == [] then [] else Slice(blocks, chunks[0]) + Concat(blocks, chunks[1..])
  }

  lemma SamePage(a: Addr, k: nat)
    requires k < Left(a)
    ensures (a + k) % SPACE == a + k && (a + k) / SIZE == a / SIZE && (a + k) % SIZE == a % SIZE + k
  {
  }

  lemma NextPage(a: Addr, n: nat, k: nat)
    requires n <= SIZE
    ensures (Advance(a, n) + k) % SPACE == (a + n + k) % SPACE
  {
    if a + n >= SPACE {
      var x := a + n + k - SPACE;
      assert (x + SPACE) % SPACE == x % SPACE;
    }
  }

  /** The chunks, put together, are the range as seen through the page table: every byte
      once, in order, also across the top of the address space. */
  lemma {:induction false} ChunksAreRange(table: seq<nat>, blocks: Blocks, addr: Addr, len: nat)
    requires TableOk(table, blocks)
    ensures AllInside(Chunks(table, addr, len), blocks)
    ensures Concat(blocks, Chunks(table, addr, len)) == Flat(table, blocks, addr, len)
    decreases len
  {
    ChunksInside(table, blocks, addr, len);
    var chunks := Chunks(table, addr, len);
    var n := Left(addr);
    FirstSlice(table, blocks, addr, chunks[0]);
    if len <= n {
      assert chunks[1..] == [];
      assert Concat(blocks, chunks) == Slice(blocks, chunks[0]) + [];
    } else {
      var next := Advance(addr, n);
      assert chunks[1..] == Chunks(table, next, len - n);
      ChunksAreRange(table, blocks, next, len - n);
      FlatSplit(table, blocks, addr, n, len);
    }
  }

  lemma FirstSlice(table: seq<nat>, blocks: Blocks, addr: Addr, c: Chunk)
    requires TableOk(table, blocks)
    requires c.block == BlockOf(table, addr) && c.from == addr % SIZE && c.size <= Left(addr)
    ensures Slice(blocks, c) == Flat(table, blocks, addr, c.size)
  {
    forall k | 0 <= k < c.size
      ensures Slice(blocks, c)[k] == Flat(table, blocks, addr, c.size)[k]
    {
      SamePage(addr, k);
    }
  }

  lemma FlatSplit(table: seq<nat>, blocks: Blocks, addr: Addr, n: nat, len: nat)
    requires TableOk(table, blocks) && n <= SIZE && n <= len
    ensures Flat(table, blocks, addr, len)
         == Flat(table, blocks, addr, n) + Flat(table, blocks, Advance(addr, n), len - n)
  {
    var whole, rest := Flat(table, blocks, addr, len), Flat(table, blocks, Advance(addr, n), len - n);
    forall k | n <= k < len
      ensures whole[k] == rest[k - n]
    {
      NextPage(addr, n, k - n);
    }
  }

  /** Only the first chunk can start inside a page or be empty, only the last can end inside
      one, and there are no more chunks than pages the range touches. */
  lemma {:induction false} ChunkShape(table: seq<nat>, addr: Addr, len: nat)
    requires |table| == TOTAL_PAGES
    ensures var cs := Chunks(table, addr, len);
            && |cs| == (if len <= Left(addr) then 1 else 1 + (len - Left(addr) + SIZE - 1) / SIZE)
            && (forall i :: 0 < i < |cs| ==> cs[i].from == 0 && cs[i].size > 0)
            && (forall i :: 0 <= i < |cs| - 1 ==> cs[i].from + cs[i].size == SIZE)
    decreases len
  {
    if len > Left(addr) {
      var n, next := len - Left(addr), Advance(addr, Left(addr));
      PageStart(addr);
      var rest := Chunks(table, next, n);
      ChunkShape(table, next, n);
      assert Left(next) == SIZE;
      CeilStep(n);
      assert rest[0].from == 0 && rest[0].size > 0;
    }
  }

  lemma CeilStep(n: nat)
    requires n > 0
    ensures (n + SIZE - 1) / SIZE == if n <= SIZE then 1 else 1 + (n - SIZE + SIZE - 1) / SIZE
  {
  }

  // ----- the CRC of a range -----

  function Octets(s: seq<Byte>): (r: seq<bv8>)
    ensures |r| == |s|
  {
    seq(|s|, k requires 0 <= k < |s| => s[k] as bv8)
  }

  /** `stream_crc16::process` */
  function StreamCrc(crc: bv16, b: Block, mem: seq<Byte>): bv16 { Crc16.Crc(crc, Octets(mem)) }

  lemma {:induction false} FoldIsCrc(blocks: Blocks, crc: bv16, chunks: seq<Chunk>)
    requires AllInside(chunks, blocks)
    ensures Fold(StreamCrc, blocks, crc, chunks) == Crc16.Crc(crc, Octets(Concat(blocks, chunks)))
    decreases |chunks|
  {
    hide Crc16.Crc;
    if chunks == [] {
      assert Octets([]) == [];
      EmptyCrc(crc);
    } else {
      var s, rest := Slice(blocks, chunks[0]), Concat(blocks, chunks[1..]);
      assert Octets(s + rest) == Octets(s) + Octets(rest);
      Crc16.CrcAppend(crc, Octets(s), Octets(rest));
      FoldIsCrc(blocks, Crc16.Crc(crc, Octets(s)), chunks[1..]);
    }
  }

  lemma {:induction false} EmptyCrc(crc: bv16)
    ensures Crc16.Crc(crc, []) == crc
  {
  }

  /** `crc16_direct`: the CRC of the flat byte sequence seen through the page table. */
  method Crc16Direct(table: seq<nat>, blocks: Blocks, crc: bv16, addr: Addr, len: nat) returns (r: bv16)
    requires TableOk(table, blocks)
    ensures r == Crc16.Crc(crc, Octets(Flat(table, blocks, addr, len)))
  {
    r := ProcessMemory(table, blocks, addr, len, StreamCrc, crc);
    FoldIsCrc(blocks, crc, Chunks(table, addr, len));
    ChunksAreRange(table, blocks, addr, len);
  }
}
