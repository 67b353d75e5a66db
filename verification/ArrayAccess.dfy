/**
 The array forms of the loads and stores: they translate the address once per page and walk a
 pointer inside it. They are shown to be the word-by-word accesses they stand for, across page
 boundaries and at the top of the address space.
 */
module ArrayAccess {
  import opened Memory

  /** The word an address is in. */
  function Align(a: Addr): (r: Addr)
    ensures r % 4 == 0 && r / SIZE == a / SIZE && r % SIZE == a % SIZE - a % 4
  {
    a - a % 4
  }

  /** The aligned address of the next word. */
  function NextAddr(a: Addr): (r: Addr)
    requires a % 4 == 0
    ensures r % 4 == 0
  {
    Advance(a, 4)
  }

  /** The aligned address of the `k`-th word from `a`. */
  function WordAt(a: Addr, k: nat): Addr { (Align(a) + 4 * k) % SPACE }

  /** Blocks after an access, and whether every page it came to could be used. */
  datatype Stored = Stored(blocks: Blocks, ok: bool)

  datatype Loaded = Loaded(words: seq<Word>, ok: bool)

  // ----- word by word -----

  /** Words stored one after the other from the aligned address `a`, whose page is writable.
      Leaving a page dirties it and looks at the next one, also after the last word. */
  function StoreFrom(table: seq<nat>, blocks: Blocks, a: Addr, data: seq<Word>): (r: Stored)
    requires TableOk(table, blocks) && a % 4 == 0
    ensures |r.blocks| == |blocks|
    decreases |data|
  {
    if |data| == 0 then Stored(Dirty(blocks, BlockOf(table, a)), true)
    else
      CellFits(a, 4);
      var b1 := Store(table, blocks, a, ToBytes(data[0]));
      var a1 := NextAddr(a);
      if a1 % SIZE == 0 then
        var b2 := Dirty(b1, BlockOf(table, a));
        if b2[BlockOf(table, a1)].Writable() then StoreFrom(table, b2, a1, data[1..])
        else Stored(b2, false)
      else StoreFrom(table, b1, a1, data[1..])
  }

  function StoreArray(table: seq<nat>, blocks: Blocks, a: Addr, data: seq<Word>): (r: Stored)
    requires TableOk(table, blocks)
    ensures |r.blocks| == |blocks|
  {
    if blocks[BlockOf(table, a)].Writable() then StoreFrom(table, blocks, Align(a), data)
    else Stored(blocks, false)
  }

  function LoadFrom(table: seq<nat>, blocks: Blocks, a: Addr, n: nat): (r: Loaded)
    requires TableOk(table, blocks) && a % 4 == 0
    ensures r.ok ==> |r.words| == n
    ensures |r.words| <= n
    decreases n
  {
    if n == 0 then Loaded([], true)
    else
      CellFits(a, 4);
      var w := FromBytes(Load(table, blocks, a, 4));
      var a1 := NextAddr(a);
      if a1 % SIZE == 0 && !blocks[BlockOf(table, a1)].Readable() then Loaded([w], false)
      else
        var rest := LoadFrom(table, blocks, a1, n - 1);
        Loaded([w] + rest.words, rest.ok)
  }

  function LoadArray(table: seq<nat>, blocks: Blocks, a: Addr, n: nat): Loaded
    requires TableOk(table, blocks)
  {
    if blocks[BlockOf(table, a)].Readable() then LoadFrom(table, blocks, Align(a), n)
    else Loaded([], false)
  }

  // ----- the accesses as the source makes them -----

  class Bus {
    const table: seq<nat>
    var blocks: Blocks

    ghost predicate Valid()
      reads this
    {
      TableOk(table, blocks)
    }

    constructor (table: seq<nat>, blocks: Blocks)
      requires TableOk(table, blocks)
      ensures Valid() && this.table == table && this.blocks == blocks
    {
      this.table, this.blocks := table, blocks;
    }

    /** `store32_array`; the first page must not be served by an access handler. */
    method Store32Array(addr: Addr, data: seq<Word>) returns (ok: bool)
      requires Valid() && AccessHandler !in blocks[BlockOf(table, addr)].flags
      modifies this`blocks
      ensures Valid()
      ensures Stored(blocks, ok) == StoreArray(table, old(blocks), addr, data)
    {
      var a: Addr := addr;
      var b := BlockOf(table, a);
      if !blocks[b].Writable() {
        return false;
      }
      var subaddr := (a % SIZE) - a % 4;
      ghost var cur: Addr := Align(addr);
      var i := 0;
      while i < |data|
        invariant 0 <= i <= |data| && Valid() && |blocks| == |old(blocks)|
        invariant cur % 4 == 0 && a / SIZE == cur / SIZE && subaddr == cur % SIZE && b == BlockOf(table, a)
        invariant StoreFrom(table, blocks, cur, data[i..]) == StoreFrom(table, old(blocks), Align(addr), data)
      {
        assert data[i..][0] == data[i] && data[i..][1..] == data[i + 1..];
        CellFits(cur, 4);
        NextWord(a, cur);
        blocks := blocks[b := blocks[b].(mem := Put(blocks[b].mem, subaddr, ToBytes(data[i])))];
        i := i + 1;
        subaddr := subaddr + 4;
        cur := Advance(cur, 4);
        if subaddr == SIZE {
          blocks := Dirty(blocks, b);
          a := Advance(a, SIZE);
          b := BlockOf(table, a);
          if !blocks[b].Writable() {
            return false;
          }
          subaddr := 0;
        }
      }
      blocks := Dirty(blocks, b);
      return true;
    }

    /** `load32_array`: the words it could read, in order. */
    method Load32Array(addr: Addr, num: nat) returns (words: seq<Word>, ok: bool)
      requires Valid() && AccessHandler !in blocks[BlockOf(table, addr)].flags
      ensures Loaded(words, ok) == LoadArray(table, blocks, addr, num)
    {
      hide FromBytes, WordAt;
      var a: Addr := Align(addr);
      var b := BlockOf(table, a);
      if !blocks[b].Readable() {
        return [], false;
      }
      var subaddr := a % SIZE;
      ghost var cur: Addr := a;
      ghost var whole := LoadFrom(table, blocks, a, num);
      words, ok := [], true;
      assert words + whole.words == whole.words;
      while |words| < num
        invariant |words| <= num
        invariant cur % 4 == 0 && a / SIZE == cur / SIZE && subaddr == cur % SIZE && b == BlockOf(table, a)
        invariant words + LoadFrom(table, blocks, cur, num - |words|).words == whole.words
        invariant LoadFrom(table, blocks, cur, num - |words|).ok == whole.ok
      {
        CellFits(cur, 4);
        NextWord(a, cur);
        var w := FromBytes(Get(blocks[b].mem, subaddr, 4));
        assert forall rest :: words + ([w] + rest) == words + [w] + rest;
        words := words + [w];
        subaddr := subaddr + 4;
        cur := Advance(cur, 4);
        if subaddr == SIZE {
          a := Advance(a, SIZE);
          b := BlockOf(table, a);
          if !blocks[b].Readable() {
            return words, false;
          }
          subaddr := 0;
        }
      }
    }
  }

  lemma WordAtZero(a: Addr)
    ensures WordAt(a, 0) == Align(a)
  {
  }


  /** The next word is in the same page, or at the start of the next. */
  lemma NextWord(a: Addr, cur: Addr)
    requires cur % 4 == 0 && a / SIZE == cur / SIZE
    ensures Advance(cur, 4) % 4 == 0
    ensures cur % SIZE + 4 == SIZE ==> Advance(cur, 4) % SIZE == 0 && Advance(cur, 4) / SIZE == Advance(a, SIZE) / SIZE
    ensures cur % SIZE + 4 < SIZE ==>
              Advance(cur, 4) % SIZE == cur % SIZE + 4 && Advance(cur, 4) / SIZE == cur / SIZE
    ensures cur % SIZE + 4 <= SIZE
  {
  }

  // ----- what the word-by-word accesses mean -----

  /** Every page the access comes to, the one after its last word included, is writable. */
  ghost predicate PagesWritable(table: seq<nat>, blocks: Blocks, a: Addr, n: nat)
    requires TableOk(table, blocks)
  {
    forall k :: 0 <= k <= n ==> blocks[BlockOf(table, WordAt(a, k))].Writable()
  }

  ghost predicate PagesReadable(table: seq<nat>, blocks: Blocks, a: Addr, n: nat)
    requires TableOk(table, blocks)
  {
    forall k :: 0 <= k <= n ==> blocks[BlockOf(table, WordAt(a, k))].Readable()
  }

  /** No two of the `n` words are the same physical word. */
  ghost predicate NoAlias(table: seq<nat>, a: Addr, n: nat)
    requires |table| == TOTAL_PAGES
  {
    forall i, j :: 0 <= i < j < n ==> Loc(table, WordAt(a, i)) != Loc(table, WordAt(a, j))
  }

  lemma DropTurn(x: nat)
    requires x >= SPACE
    ensures (x - SPACE) % SPACE == x % SPACE
  {
  }

  lemma AlignAligned(a: Addr)
    requires a % 4 == 0
    ensures Align(a) == a
  {
  }

  lemma WordAtNext(a: Addr, k: nat)
    requires a % 4 == 0
    ensures WordAt(Advance(a, 4), k) == WordAt(a, k + 1)
    ensures Advance(a, 4) % 4 == 0 && WordAt(a, 0) == a
  {
    hide Align;
    assert NextAddr(a) % 4 == 0;
    AlignAligned(a);
    AlignAligned(Advance(a, 4));
    if a + 4 >= SPACE { DropTurn(a + 4 + 4 * k); }
  }

  /** The words are where they were stored, everything else is unchanged, and the blocks of the
      first `pages` word addresses are dirty. */
  ghost predicate WindowStored(table: seq<nat>, blocks: Blocks, blocks': Blocks, a: Addr, data: seq<Word>, pages: nat)
    requires TableOk(table, blocks)
  {
    && |blocks'| == |blocks|
    && (forall k :: 0 <= k < |data| ==> WordIs(table, blocks', WordAt(a, k), data[k]))
    && (forall x: Addr :: x % 4 == 0 && Outside(table, x, a, |data|) ==> SameWord(table, blocks, blocks', x))
    && (forall k :: 0 <= k < pages ==> DIRTY <= blocks'[BlockOf(table, WordAt(a, k))].flags)
    && (forall i :: 0 <= i < |blocks| ==> FlagsGrow(blocks[i].flags, blocks'[i].flags))
  }

  ghost predicate WordIs(table: seq<nat>, blocks: Blocks, x: Addr, w: Word)
    requires TableOk(table, blocks)
  {
    x % 4 == 0 && x % SIZE + 4 <= SIZE && Load(table, blocks, x, 4) == ToBytes(w)
  }

  ghost predicate SameWord(table: seq<nat>, blocks: Blocks, blocks': Blocks, x: Addr)
    requires TableOk(table, blocks) && |blocks'| == |blocks|
  {
    x % SIZE + 4 <= SIZE && Load(table, blocks', x, 4) == Load(table, blocks, x, 4)
  }

  ghost predicate Outside(table: seq<nat>, x: Addr, a: Addr, n: nat)
    requires |table| == TOTAL_PAGES
  {
    forall k :: 0 <= k < n ==> Loc(table, WordAt(a, k)) != Loc(table, x)
  }

  /** Storing one word and perhaps dirtying the block it is in. */
  lemma OneWord(table: seq<nat>, blocks: Blocks, a: Addr, w: Word, dirty: bool)
    requires TableOk(table, blocks) && a % 4 == 0
    ensures a % SIZE + 4 <= SIZE
    ensures var b1 := Store(table, blocks, a, ToBytes(w));
            var b2 := if dirty then Dirty(b1, BlockOf(table, a)) else b1;
            && WordIs(table, b2, a, w)
            && (forall x: Addr :: x % 4 == 0 && Loc(table, x) != Loc(table, a) ==> SameWord(table, blocks, b2, x))
            && (forall i :: 0 <= i < |blocks| ==> FlagsGrow(blocks[i].flags, b2[i].flags))
            && (dirty ==> DIRTY <= b2[BlockOf(table, a)].flags)
  {
    CellFits(a, 4);
    var b1 := Store(table, blocks, a, ToBytes(w));
    var b2 := if dirty then Dirty(b1, BlockOf(table, a)) else b1;
    LoadStored(table, blocks, a, ToBytes(w));
    forall x: Addr | x % 4 == 0 && Loc(table, x) != Loc(table, a) ensures SameWord(table, blocks, b2, x) {
      LoadElsewhere(table, blocks, a, ToBytes(w), x);
    }
  }

  /** The pages still to come after the first word. */
  lemma RestWritable(table: seq<nat>, blocks: Blocks, b: Blocks, a: Addr, n: nat)
    requires TableOk(table, blocks) && TableOk(table, b) && |b| == |blocks| && a % 4 == 0 && n > 0
    requires PagesWritable(table, blocks, a, n)
    requires forall i :: 0 <= i < |blocks| ==> FlagsGrow(blocks[i].flags, b[i].flags)
    ensures Advance(a, 4) % 4 == 0 && PagesWritable(table, b, Advance(a, 4), n - 1)
  {
    hide WordAt, Loc;
    var a1 := Advance(a, 4);
    WordAtNext(a, 0);
    forall k | 0 <= k <= n - 1 ensures b[BlockOf(table, WordAt(a1, k))].Writable() {
      WordAtNext(a, k);
      assert blocks[BlockOf(table, WordAt(a, k + 1))].Writable();
    }
  }

  /** The first word against the others. */
  lemma RestOfWindow(table: seq<nat>, a: Addr, n: nat)
    requires |table| == TOTAL_PAGES && a % 4 == 0 && n > 0 && NoAlias(table, a, n)
    ensures Advance(a, 4) % 4 == 0
    ensures NoAlias(table, Advance(a, 4), n - 1) && Outside(table, a, Advance(a, 4), n - 1)
    ensures forall x: Addr :: Outside(table, x, a, n) ==>
              Outside(table, x, Advance(a, 4), n - 1) && Loc(table, x) != Loc(table, a)
  {
    hide WordAt, Loc;
    var a1 := Advance(a, 4);
    WordAtNext(a, 0);
    forall i, j | 0 <= i < j < n - 1 ensures Loc(table, WordAt(a1, i)) != Loc(table, WordAt(a1, j)) {
      WordAtNext(a, i);
      WordAtNext(a, j);
      assert Loc(table, WordAt(a, i + 1)) != Loc(table, WordAt(a, j + 1));
    }
    forall k | 0 <= k < n - 1 ensures Loc(table, WordAt(a1, k)) != Loc(table, a) {
      WordAtNext(a, k);
      assert Loc(table, WordAt(a, 0)) != Loc(table, WordAt(a, k + 1));
    }
    forall x: Addr | Outside(table, x, a, n)
      ensures Outside(table, x, a1, n - 1) && Loc(table, x) != Loc(table, a)
    {
      assert Loc(table, WordAt(a, 0)) != Loc(table, x);
      forall k | 0 <= k < n - 1 ensures Loc(table, WordAt(a1, k)) != Loc(table, x) {
        WordAtNext(a, k);
        assert Loc(table, WordAt(a, k + 1)) != Loc(table, x);
      }
    }
  }

  lemma {:induction false} StoreFromCorrect(table: seq<nat>, blocks: Blocks, a: Addr, data: seq<Word>)
    requires TableOk(table, blocks) && a % 4 == 0
    requires PagesWritable(table, blocks, a, |data|) && NoAlias(table, a, |data|)
    ensures StoreFrom(table, blocks, a, data).ok
    ensures WindowStored(table, blocks, StoreFrom(table, blocks, a, data).blocks, a, data, |data| + 1)
    decreases |data|
  {
    hide WordAt, Store, Outside, SameWord, WordIs, FlagsGrow;
    var r := StoreFrom(table, blocks, a, data).blocks;
    if |data| == 0 {
      WordAtNext(a, 0);
      DirtyOnly(table, blocks, a);
    } else {
      var a1 := Advance(a, 4);
      var cross := a1 % SIZE == 0;
      OneWord(table, blocks, a, data[0], cross);
      var b1 := Store(table, blocks, a, ToBytes(data[0]));
      var b2 := if cross then Dirty(b1, BlockOf(table, a)) else b1;
      RestWritable(table, blocks, b2, a, |data|);
      RestOfWindow(table, a, |data|);
      assert b2[BlockOf(table, a1)].Writable() by {
        assert PagesWritable(table, b2, a1, |data| - 1);
        WordAtNext(a1, 0);
        assert b2[BlockOf(table, WordAt(a1, 0))].Writable();
      }
      StoreFromCorrect(table, b2, a1, data[1..]);
      assert r == StoreFrom(table, b2, a1, data[1..]).blocks;
      Combine(table, blocks, b2, r, a, data, |data| + 1, cross);
    }
  }

  lemma DirtyOnly(table: seq<nat>, blocks: Blocks, a: Addr)
    requires TableOk(table, blocks) && a % 4 == 0
    ensures WindowStored(table, blocks, Dirty(blocks, BlockOf(table, a)), a, [], 1)
  {
    var r := Dirty(blocks, BlockOf(table, a));
    WordAtNext(a, 0);
    forall x: Addr | x % 4 == 0 ensures SameWord(table, blocks, r, x) { CellFits(x, 4); }
  }

  /** The first word and the rest together. */
  lemma Combine(table: seq<nat>, blocks: Blocks, b: Blocks, r: Blocks, a: Addr, data: seq<Word>, pages: nat,
                cross: bool)
    requires TableOk(table, blocks) && TableOk(table, b) && |b| == |blocks| && a % 4 == 0 && |data| > 0
    requires NoAlias(table, a, |data|)
    requires cross == (Advance(a, 4) % SIZE == 0)
    requires WordIs(table, b, a, data[0])
    requires forall x: Addr :: x % 4 == 0 && Loc(table, x) != Loc(table, a) ==> SameWord(table, blocks, b, x)
    requires forall i :: 0 <= i < |blocks| ==> FlagsGrow(blocks[i].flags, b[i].flags)
    requires cross ==> DIRTY <= b[BlockOf(table, a)].flags
    requires Advance(a, 4) % 4 == 0
    requires pages > 1 && WindowStored(table, b, r, Advance(a, 4), data[1..], pages - 1)
    requires Outside(table, a, Advance(a, 4), |data| - 1)
    requires forall x: Addr :: Outside(table, x, a, |data|) ==>
               Outside(table, x, Advance(a, 4), |data| - 1) && Loc(table, x) != Loc(table, a)
    ensures WindowStored(table, blocks, r, a, data, pages)
  {
    hide WordAt, Outside, Loc, Advance;
    var a1 := Advance(a, 4);
    WordAtNext(a, 0);
    forall k | 0 <= k < |data| ensures WordIs(table, r, WordAt(a, k), data[k]) {
      if k == 0 {
        assert SameWord(table, b, r, a);
      } else {
        WordAtNext(a, k - 1);
        assert WordIs(table, r, WordAt(a1, k - 1), data[1..][k - 1]);
      }
    }
    CombineDirty(table, b, r, a, pages, cross);
    forall x: Addr | x % 4 == 0 && Outside(table, x, a, |data|) ensures SameWord(table, blocks, r, x) {
      assert SameWord(table, b, r, x) && SameWord(table, blocks, b, x);
    }
  }

  lemma CombineDirty(table: seq<nat>, b: Blocks, r: Blocks, a: Addr, pages: nat, cross: bool)
    requires TableOk(table, b) && |r| == |b| && a % 4 == 0 && pages > 1
    requires cross == (Advance(a, 4) % SIZE == 0) && Advance(a, 4) % 4 == 0
    requires cross ==> DIRTY <= b[BlockOf(table, a)].flags
    requires forall k :: 0 <= k < pages - 1 ==> DIRTY <= r[BlockOf(table, WordAt(Advance(a, 4), k))].flags
    requires forall i :: 0 <= i < |b| ==> FlagsGrow(b[i].flags, r[i].flags)
    ensures forall k :: 0 <= k < pages ==> DIRTY <= r[BlockOf(table, WordAt(a, k))].flags
  {
    hide WordAt, Advance;
    var a1 := Advance(a, 4);
    WordAtNext(a, 0);
    forall k | 0 <= k < pages ensures DIRTY <= r[BlockOf(table, WordAt(a, k))].flags {
      if k > 0 {
        WordAtNext(a, k - 1);
        assert DIRTY <= r[BlockOf(table, WordAt(a1, k - 1))].flags;
      } else if cross {
        assert FlagsGrow(b[BlockOf(table, a)].flags, r[BlockOf(table, a)].flags);
      } else {
        SamePage(table, a);
        WordAtNext(a, 0);
        assert DIRTY <= r[BlockOf(table, WordAt(a1, 0))].flags;
        WordAtNext(a1, 0);
      }
    }
  }

  /** A store that comes to a page it cannot write stops there: the words in front of that page are
      in place and their blocks dirty, everything else is unchanged. */
  lemma {:induction false} StoreStops(table: seq<nat>, blocks: Blocks, a: Addr, data: seq<Word>, n: nat)
    requires TableOk(table, blocks) && a % 4 == 0 && 0 < n <= |data|
    requires PagesWritable(table, blocks, a, n - 1) && NoAlias(table, a, n)
    requires var f := blocks[BlockOf(table, WordAt(a, n))].flags; WriteProt in f || Invalid in f
    ensures !StoreFrom(table, blocks, a, data).ok
    ensures WindowStored(table, blocks, StoreFrom(table, blocks, a, data).blocks, a, data[..n], n)
    decreases n
  {
    hide WordAt, Store, Outside, SameWord, WordIs, FlagsGrow;
    var r := StoreFrom(table, blocks, a, data).blocks;
    var a1 := Advance(a, 4);
    var cross := a1 % SIZE == 0;
    WordAtNext(a, 0);
    assert blocks[BlockOf(table, WordAt(a, 0))].Writable();
    OneWord(table, blocks, a, data[0], cross);
    var b1 := Store(table, blocks, a, ToBytes(data[0]));
    var b2 := if cross then Dirty(b1, BlockOf(table, a)) else b1;
    RestOfWindow(table, a, n);
    StopSoon(table, blocks, b2, a, n);
    if n == 1 {
      StopHere(table, blocks, a, data);
    } else {
      RestWritable(table, blocks, b2, a, n - 1);
      assert b2[BlockOf(table, a1)].Writable() by {
        WordAtNext(a1, 0);
        assert b2[BlockOf(table, WordAt(a1, 0))].Writable();
      }
      StoreStops(table, b2, a1, data[1..], n - 1);
      assert data[..n][1..] == data[1..][..n - 1];
      Combine(table, blocks, b2, r, a, data[..n], n, cross);
    }
  }

  lemma StopSoon(table: seq<nat>, blocks: Blocks, b: Blocks, a: Addr, n: nat)
    requires TableOk(table, blocks) && |b| == |blocks| && a % 4 == 0 && n > 0
    requires var f := blocks[BlockOf(table, WordAt(a, n))].flags; WriteProt in f || Invalid in f
    requires forall i :: 0 <= i < |blocks| ==> FlagsGrow(blocks[i].flags, b[i].flags)
    ensures BlockOf(table, WordAt(Advance(a, 4), n - 1)) == BlockOf(table, WordAt(a, n))
    ensures WriteProt in b[BlockOf(table, WordAt(a, n))].flags || Invalid in b[BlockOf(table, WordAt(a, n))].flags
  {
    hide WordAt;
    WordAtNext(a, n - 1);
  }

  /** The first word is the last of its page. */
  lemma {:induction false} StopHere(table: seq<nat>, blocks: Blocks, a: Addr, data: seq<Word>)
    requires TableOk(table, blocks) && a % 4 == 0 && |data| > 0 && blocks[BlockOf(table, a)].Writable()
    requires !blocks[BlockOf(table, WordAt(a, 1))].Writable()
    ensures !StoreFrom(table, blocks, a, data).ok
    ensures WindowStored(table, blocks, StoreFrom(table, blocks, a, data).blocks, a, data[..1], 1)
  {
    hide WordAt, Store, SameWord, WordIs, FlagsGrow, Loc;
    WordAtNext(a, 0);
    WordAtNext(Advance(a, 4), 0);
    if Advance(a, 4) % SIZE != 0 { SamePage(table, a); }
    var b2 := Dirty(Store(table, blocks, a, ToBytes(data[0])), BlockOf(table, a));
    OneWord(table, blocks, a, data[0], true);
    forall i | 0 <= i < |blocks| ensures b2[i].Writable() == blocks[i].Writable() {
      WritableKept(blocks[i].flags, b2[i].flags);
    }
    assert StoreFrom(table, blocks, a, data) == Stored(b2, false);
    forall x: Addr | x % 4 == 0 && Outside(table, x, a, 1) ensures SameWord(table, blocks, b2, x) {
      assert Loc(table, WordAt(a, 0)) != Loc(table, x);
    }
  }

  lemma WritableKept(f: set<Flag>, f': set<Flag>)
    requires FlagsGrow(f, f')
    ensures WriteProt in f' <==> WriteProt in f
    ensures Invalid in f' <==> Invalid in f
  {
  }

  /** A load stops likewise, with the words in front of the page. */
  lemma {:induction false} LoadStops(table: seq<nat>, blocks: Blocks, a: Addr, n: nat, k: nat)
    requires TableOk(table, blocks) && a % 4 == 0 && 0 < k <= n && PagesReadable(table, blocks, a, k - 1)
    requires var f := blocks[BlockOf(table, WordAt(a, k))].flags; ReadProt in f || Invalid in f
    ensures var r := LoadFrom(table, blocks, a, n);
            && !r.ok && |r.words| == k
            && forall j :: 0 <= j < k ==>
                 WordAt(a, j) % SIZE + 4 <= SIZE && r.words[j] == FromBytes(Load(table, blocks, WordAt(a, j), 4))
    decreases k
  {
    hide WordAt, Load, FromBytes;
    var a1 := Advance(a, 4);
    WordAtNext(a, 0);
    WordAtNext(a, k - 1);
    WordAtNext(a1, 0);
    CellFits(a, 4);
    if a1 % SIZE != 0 { SamePage(table, a); }
    assert blocks[BlockOf(table, WordAt(a, 0))].Readable();
    if k > 1 {
      forall j | 0 <= j <= k - 2 ensures blocks[BlockOf(table, WordAt(a1, j))].Readable() {
        WordAtNext(a, j);
        assert blocks[BlockOf(table, WordAt(a, j + 1))].Readable();
      }
      assert blocks[BlockOf(table, WordAt(a1, 0))].Readable();
      LoadStops(table, blocks, a1, n - 1, k - 1);
      forall j | 0 <= j < k
        ensures WordAt(a, j) % SIZE + 4 <= SIZE
        ensures LoadFrom(table, blocks, a, n).words[j] == FromBytes(Load(table, blocks, WordAt(a, j), 4))
      {
        if j > 0 { WordAtNext(a, j - 1); }
      }
    }
  }

  lemma SamePage(table: seq<nat>, a: Addr)
    requires |table| == TOTAL_PAGES && a % 4 == 0 && Advance(a, 4) % SIZE != 0
    ensures BlockOf(table, Advance(a, 4)) == BlockOf(table, a)
  {
  }

  /** Loading is the words one by one. */
  lemma {:induction false} LoadFromCorrect(table: seq<nat>, blocks: Blocks, a: Addr, n: nat)
    requires TableOk(table, blocks) && a % 4 == 0 && PagesReadable(table, blocks, a, n)
    ensures LoadFrom(table, blocks, a, n).ok
    ensures forall k :: 0 <= k < n ==>
              WordAt(a, k) % SIZE + 4 <= SIZE &&
              LoadFrom(table, blocks, a, n).words[k] == FromBytes(Load(table, blocks, WordAt(a, k), 4))
    decreases n
  {
    hide WordAt, Load, FromBytes;
    if n > 0 {
      var a1 := Advance(a, 4);
      WordAtNext(a, 0);
      forall k | 0 <= k <= n - 1 ensures blocks[BlockOf(table, WordAt(a1, k))].Readable() {
        WordAtNext(a, k);
        assert blocks[BlockOf(table, WordAt(a, k + 1))].Readable();
      }
      WordAtNext(a1, 0);
      assert blocks[BlockOf(table, WordAt(a1, 0))].Readable();
      LoadFromCorrect(table, blocks, a1, n - 1);
      CellFits(a, 4);
      forall k | 0 <= k < n
        ensures WordAt(a, k) % SIZE + 4 <= SIZE
        ensures LoadFrom(table, blocks, a, n).words[k] == FromBytes(Load(table, blocks, WordAt(a, k), 4))
      {
        if k > 0 { WordAtNext(a, k - 1); }
      }
    }
  }

  /** What a multi-word store puts into a window without aliases, a multi-word load gets back,
      as long as the memory of the window is not touched in between. */
  lemma StoreThenLoad(table: seq<nat>, blocks: Blocks, blocks': Blocks, a: Addr, data: seq<Word>)
    requires TableOk(table, blocks) && TableOk(table, blocks') && |blocks'| == |blocks|
    requires PagesWritable(table, blocks, a, |data|) && NoAlias(table, a, |data|)
    requires PagesReadable(table, blocks', a, |data|)
    requires var r := StoreArray(table, blocks, a, data).blocks;
             forall k :: 0 <= k < |data| ==> SameWord(table, r, blocks', WordAt(a, k))
    ensures StoreArray(table, blocks, a, data).ok
    ensures LoadArray(table, blocks', a, |data|) == Loaded(data, true)
  {
    hide WordAt, Load, FromBytes, ToBytes, StoreFrom, LoadFrom, Outside, Loc;
    var base := Align(a);
    WordAtZero(a);
    FirstPage(table, a);
    WordAtBase(a, |data|);
    assert blocks[BlockOf(table, WordAt(a, 0))].Writable() && blocks'[BlockOf(table, WordAt(a, 0))].Readable();
    SameWindow(table, blocks, blocks', a, |data|);
    StoreFromCorrect(table, blocks, base, data);
    LoadFromCorrect(table, blocks', base, |data|);
    var r := StoreFrom(table, blocks, base, data).blocks;
    var got := LoadFrom(table, blocks', base, |data|);
    forall k | 0 <= k < |data| ensures got.words[k] == data[k] {
      WordAtBase(a, k);
      assert WordIs(table, r, WordAt(base, k), data[k]) && SameWord(table, r, blocks', WordAt(a, k));
      WordRoundTrip(data[k]);
    }
  }

  lemma FirstPage(table: seq<nat>, a: Addr)
    requires |table| == TOTAL_PAGES
    ensures BlockOf(table, WordAt(a, 0)) == BlockOf(table, a)
  {
  }

  lemma WordAtBase(a: Addr, k: nat)
    ensures WordAt(Align(a), k) == WordAt(a, k)
  {
  }

  lemma SameWindow(table: seq<nat>, blocks: Blocks, blocks': Blocks, a: Addr, n: nat)
    requires TableOk(table, blocks) && TableOk(table, blocks')
    requires PagesWritable(table, blocks, a, n) && NoAlias(table, a, n) && PagesReadable(table, blocks', a, n)
    ensures PagesWritable(table, blocks, Align(a), n) && NoAlias(table, Align(a), n)
    ensures PagesReadable(table, blocks', Align(a), n)
  {
    hide WordAt, Loc;
    var base := Align(a);
    forall k | 0 <= k <= n
      ensures blocks[BlockOf(table, WordAt(base, k))].Writable() && blocks'[BlockOf(table, WordAt(base, k))].Readable()
    {
      WordAtBase(a, k);
      assert blocks[BlockOf(table, WordAt(a, k))].Writable() && blocks'[BlockOf(table, WordAt(a, k))].Readable();
    }
    forall i, j | 0 <= i < j < n ensures Loc(table, WordAt(base, i)) != Loc(table, WordAt(base, j)) {
      WordAtBase(a, i);
      WordAtBase(a, j);
      assert Loc(table, WordAt(a, i)) != Loc(table, WordAt(a, j));
    }
  }
}
