/**
 The DMA engine: one loop that copies an element, moves the two addresses and counts the
 control word down. It is shown to be the sequential copy of the elements its registers name.
 */
module Dma {
  import opened Types
  import opened Memory
  import opened ArrayAccess

  const COUNT := 0x20_0000

  /** The three registers of a channel and the memory. */
  datatype Channel = Channel(src: Addr, dst: Addr, ctrl: Word, blocks: Blocks)

  function Bits(w: Word, from: nat, n: nat): nat
    requires from > 0 && n > 0
  {
    (w / from) % n
  }

  /** Element size: bit 26 of the control word. */
  function Width(ctrl: Word): nat { if Bits(ctrl, 0x400_0000, 2) == 1 then 4 else 2 }

  /** Address steps: bits 21-22 for the destination, 23-24 for the source. */
  function DstStep(ctrl: Word): int {
    match Bits(ctrl, 0x20_0000, 4)
    case 1 => 0 - Width(ctrl) as int
    case 2 => 0
    case _ => Width(ctrl)
  }

  function SrcStep(ctrl: Word): int {
    match Bits(ctrl, 0x80_0000, 4)
    case 0 => Width(ctrl)
    case 1 => 0 - Width(ctrl) as int
    case _ => 0
  }

  /** The channel is enabled and elements are left: what the loop tests. */
  predicate Active(ctrl: Word) { ctrl >= 0x8000_0000 && ctrl % COUNT > 0 }

  function Move(a: Addr, d: int): Addr { (a + d) % SPACE }

  /** One element, if both pages can be used and both addresses are aligned. */
  function CopyElement(table: seq<nat>, blocks: Blocks, src: Addr, dst: Addr, w: nat): (r: Blocks)
    requires TableOk(table, blocks) && w in {2, 4}
    ensures |r| == |blocks|
  {
    if !blocks[BlockOf(table, src)].Readable() || !blocks[BlockOf(table, dst)].Writable()
       || src % w != 0 || dst % w != 0
    then blocks
    else
      CellFits(src, w);
      CellFits(dst, w);
      Dirty(Store(table, blocks, dst, Load(table, blocks, src, w)), BlockOf(table, dst))
  }

  /** One turn of the loop. */
  function Turn(table: seq<nat>, c: Channel): (r: Channel)
    requires TableOk(table, c.blocks) && Active(c.ctrl)
    ensures |r.blocks| == |c.blocks|
  {
    Channel(Move(c.src, SrcStep(c.ctrl)), Move(c.dst, DstStep(c.ctrl)), c.ctrl - 1,
            CopyElement(table, c.blocks, c.src, c.dst, Width(c.ctrl)))
  }

  /** The loop, with the low 21 control bits as its measure. */
  function Transfer(table: seq<nat>, c: Channel): (r: Channel)
    requires TableOk(table, c.blocks)
    ensures |r.blocks| == |c.blocks|
    decreases c.ctrl % COUNT
  {
    if !Active(c.ctrl) then c
    else
      CountsDown(c.ctrl);
      Transfer(table, Turn(table, c))
  }

  /** Counting down changes nothing above the low 21 bits. */
  lemma CountsDown(ctrl: Word)
    requires Active(ctrl)
    ensures (ctrl - 1) % COUNT == ctrl % COUNT - 1
    ensures (ctrl - 1) / COUNT == ctrl / COUNT
    ensures ctrl - 1 >= 0x8000_0000
  {
  }

  lemma SameFields(ctrl: Word, ctrl': Word)
    requires ctrl / COUNT == ctrl' / COUNT
    ensures Width(ctrl) == Width(ctrl') && SrcStep(ctrl) == SrcStep(ctrl') && DstStep(ctrl) == DstStep(ctrl')
  {
    FieldsAbove(ctrl);
    FieldsAbove(ctrl');
  }

  /** The fields are functions of the bits above the count. */
  lemma FieldsAbove(ctrl: Word)
    ensures var h := ctrl / COUNT;
            && Bits(ctrl, 0x400_0000, 2) == (h / 32) % 2
            && Bits(ctrl, 0x20_0000, 4) == h % 4
            && Bits(ctrl, 0x80_0000, 4) == (h / 4) % 4
  {
  }

  // ----- the sequential copy -----

  /** The `k`-th address of a run that starts at `a` and moves by `d`. */
  function ElementAt(a: Addr, d: int, k: nat): Addr { (a + k * d) % SPACE }

  function CopyRun(table: seq<nat>, blocks: Blocks, src: Addr, ds: int, dst: Addr, dd: int, w: nat,
                   n: nat): (r: Blocks)
    requires TableOk(table, blocks) && w in {2, 4}
    ensures |r| == |blocks|
    decreases n
  {
    if n == 0 then blocks
    else CopyRun(table, CopyElement(table, blocks, src, dst, w), Move(src, ds), ds, Move(dst, dd), dd, w, n - 1)
  }

  /** How many elements a control word asks for. */
  function Elements(ctrl: Word): nat { if ctrl >= 0x8000_0000 then ctrl % COUNT else 0 }

  lemma ElementNext(a: Addr, d: int, k: nat)
    requires d in {-4, -2, 0, 2, 4}
    ensures ElementAt(Move(a, d), d, k) == ElementAt(a, d, k + 1)
    ensures ElementAt(a, d, 0) == a
  {
    Turns(a + d, k * d);
    assert a + d + k * d == a + (k + 1) * d;
  }

  lemma Turns(x: int, y: int)
    ensures (x % SPACE + y) % SPACE == (x + y) % SPACE
  {
    var q := x / SPACE;
    assert x == SPACE * q + x % SPACE;
    MoreTurns(x % SPACE + y, q);
  }

  lemma MoreTurns(x: int, q: int)
    ensures (x + SPACE * q) % SPACE == x % SPACE
  {
  }

  /** The transfer is the sequential copy of exactly as many elements as the control word
      asks for; the addresses end past the last element and the count at zero. */
  lemma {:induction false} TransferIsRun(table: seq<nat>, c: Channel)
    requires TableOk(table, c.blocks)
    ensures var n, r := Elements(c.ctrl), Transfer(table, c);
            && r.blocks == CopyRun(table, c.blocks, c.src, SrcStep(c.ctrl), c.dst, DstStep(c.ctrl), Width(c.ctrl), n)
            && r.src == ElementAt(c.src, SrcStep(c.ctrl), n) && r.dst == ElementAt(c.dst, DstStep(c.ctrl), n)
            && r.ctrl == c.ctrl - n && r.ctrl / COUNT == c.ctrl / COUNT
            && (c.ctrl >= 0x8000_0000 ==> r.ctrl % COUNT == 0)
    decreases c.ctrl % COUNT
  {
    hide Width, SrcStep, DstStep, CopyElement, Move, ElementAt;
    var ds, dd := SrcStep(c.ctrl), DstStep(c.ctrl);
    StepSizes(c.ctrl);
    if Active(c.ctrl) {
      var t := Turn(table, c);
      CountsDown(c.ctrl);
      SameFields(c.ctrl, t.ctrl);
      TransferIsRun(table, t);
      ElementNext(c.src, ds, Elements(t.ctrl));
      ElementNext(c.dst, dd, Elements(t.ctrl));
    } else {
      ElementNext(c.src, ds, 0);
      ElementNext(c.dst, dd, 0);
    }
  }

  lemma StepSizes(ctrl: Word)
    ensures SrcStep(ctrl) in {-4, -2, 0, 2, 4} && DstStep(ctrl) in {-4, -2, 0, 2, 4}
    ensures Width(ctrl) in {2, 4}
    ensures Width(ctrl) == 4 ==> SrcStep(ctrl) in {-4, 0, 4} && DstStep(ctrl) in {-4, 0, 4}
  {
  }

  // ----- the control word, field by field -----

  /** Bits 27-31, 26, 25, 23-24, 21-22 and 0-20 of a control word. */
  datatype Fields = Fields(top: nat, wide: bool, bit25: nat, src: nat, dst: nat, count: nat) {
    predicate Ok() { top < 32 && bit25 < 2 && src < 4 && dst < 4 && count < 0x20_0000 }

    function Word(): nat {
      count + 0x20_0000 * (dst + 4 * (src + 4 * (bit25 + 2 * ((if wide then 1 else 0) + 2 * top))))
    }
  }

  lemma ControlFields(ctrl: Word, f: Fields)
    requires f.Ok() && ctrl == f.Word()
    ensures Width(ctrl) == (if f.wide then 4 else 2) && ctrl % COUNT == f.count
    ensures ctrl >= 0x8000_0000 <==> f.top >= 16
    ensures DstStep(ctrl) == if f.dst == 2 then 0 else if f.dst == 1 then 0 - Width(ctrl) else Width(ctrl)
    ensures SrcStep(ctrl) == if f.src >= 2 then 0 else if f.src == 1 then 0 - Width(ctrl) else Width(ctrl)
  {
    FieldsAbove(ctrl);
    AboveCount(f);
    hide Fields.Word;
    var h := ctrl / COUNT;
    assert h % 4 == f.dst && (h / 4) % 4 == f.src && (h / 32) % 2 == (if f.wide then 1 else 0);
  }

  lemma AboveCount(f: Fields)
    requires f.Ok()
    ensures var h := f.dst + 4 * (f.src + 4 * (f.bit25 + 2 * ((if f.wide then 1 else 0) + 2 * f.top)));
            && f.Word() / COUNT == h && f.Word() % COUNT == f.count && (f.Word() >= 0x8000_0000 <==> f.top >= 16)
            && h % 4 == f.dst && (h / 4) % 4 == f.src && (h / 32) % 2 == (if f.wide then 1 else 0)
  {
  }

  /** A transfer by the fields: enabled by bit 31, it copies the counted elements, words with bit 26
      set and halfwords without, counting an address down where its field is 1, leaving it alone
      for 2 (and for 3 at the source), and up otherwise. */
  lemma {:induction false} TransferByFields(table: seq<nat>, c: Channel, f: Fields)
    requires TableOk(table, c.blocks) && f.Ok() && c.ctrl == f.Word()
    ensures var w := if f.wide then 4 else 2;
            var ds := if f.src == 0 then w else if f.src == 1 then 0 - w else 0;
            var dd := if f.dst == 1 then 0 - w else if f.dst == 2 then 0 else w;
            var n := if f.top >= 16 then f.count else 0;
            var r := Transfer(table, c);
            && r.blocks == CopyRun(table, c.blocks, c.src, ds, c.dst, dd, w, n)
            && r.src == (c.src + n * ds) % 0x1_0000_0000 && r.dst == (c.dst + n * dd) % 0x1_0000_0000
  {
    hide Transfer, CopyRun, Fields.Word, Width, SrcStep, DstStep;
    ControlFields(c.ctrl, f);
    TransferIsRun(table, c);
  }

  /** The source page cannot be read or the destination page not be written. */
  predicate NoAccess(table: seq<nat>, blocks: Blocks, src: Addr, dst: Addr)
    requires TableOk(table, blocks)
  {
    var s, d := blocks[BlockOf(table, src)].flags, blocks[BlockOf(table, dst)].flags;
    ReadProt in s || Invalid in s || WriteProt in d || Invalid in d
  }

  /** Elements with a page that cannot be used are passed over. */
  lemma {:induction false} PassedOver(table: seq<nat>, blocks: Blocks, src: Addr, ds: int, dst: Addr, dd: int,
                                      w: nat, n: nat)
    requires TableOk(table, blocks) && w in {2, 4} && ds in {-4, -2, 0, 2, 4} && dd in {-4, -2, 0, 2, 4}
    requires forall k :: 0 <= k < n ==> NoAccess(table, blocks, ElementAt(src, ds, k), ElementAt(dst, dd, k))
    ensures CopyRun(table, blocks, src, ds, dst, dd, w, n) == blocks
    decreases n
  {
    hide Move, ElementAt;
    if n > 0 {
      ElementNext(src, ds, 0);
      ElementNext(dst, dd, 0);
      forall k | 0 <= k < n - 1
        ensures NoAccess(table, blocks, ElementAt(Move(src, ds), ds, k), ElementAt(Move(dst, dd), dd, k))
      {
        ElementNext(src, ds, k);
        ElementNext(dst, dd, k);
      }
      PassedOver(table, blocks, Move(src, ds), ds, Move(dst, dd), dd, w, n - 1);
    }
  }

  // ----- what the sequential copy means -----

  /** Alignment is all or nothing: every element is as aligned as the first one. */
  lemma AlignedThroughout(a: Addr, d: int, w: nat, k: nat)
    requires w in {2, 4} && d in {-4, -2, 0, 2, 4} && (w == 4 ==> d in {-4, 0, 4})
    ensures ElementAt(a, d, k) % w == 0 <==> a % w == 0
  {
    KeepsRemainder(a + k * d, w);
    var q := d / w;
    assert d == w * q;
    Regroup(k, w, q);
    if w == 4 { WordsAway(a, k * q); } else { HalvesAway(a, k * q); }
  }

  lemma Regroup(k: nat, w: nat, q: int)
    ensures k * (w * q) == w * (k * q)
  {
  }

  lemma WordsAway(a: int, q: int)
    ensures (a + 4 * q) % 4 == a % 4
  {
  }

  lemma HalvesAway(a: int, q: int)
    ensures (a + 2 * q) % 2 == a % 2
  {
  }

  lemma KeepsRemainder(x: int, w: nat)
    requires w in {2, 4}
    ensures (x % SPACE) % w == x % w
  {
    var q, r := x / SPACE, x % SPACE;
    assert x == SPACE * q + r;
    if w == 2 { EvenTurn(r, q); } else { WordTurn(r, q); }
  }

  lemma EvenTurn(r: int, q: int)
    ensures (0x1_0000_0000 * q + r) % 2 == r % 2
  {
    assert 0x1_0000_0000 * q == 2 * (0x8000_0000 * q);
  }

  lemma WordTurn(r: int, q: int)
    ensures (0x1_0000_0000 * q + r) % 4 == r % 4
  {
    assert 0x1_0000_0000 * q == 4 * (0x4000_0000 * q);
  }

  lemma {:induction false} Unaligned(table: seq<nat>, blocks: Blocks, src: Addr, ds: int, dst: Addr, dd: int,
                                     w: nat, n: nat)
    requires TableOk(table, blocks) && w in {2, 4}
    requires ds in {-4, -2, 0, 2, 4} && dd in {-4, -2, 0, 2, 4}
    requires w == 4 ==> ds in {-4, 0, 4} && dd in {-4, 0, 4}
    requires src % w != 0 || dst % w != 0
    ensures CopyRun(table, blocks, src, ds, dst, dd, w, n) == blocks
    decreases n
  {
    hide Move, ElementAt;
    if n > 0 {
      ElementNext(src, ds, 0);
      ElementNext(dst, dd, 0);
      AlignedThroughout(src, ds, w, 1);
      AlignedThroughout(dst, dd, w, 1);
      MoveIsElement(src, ds);
      MoveIsElement(dst, dd);
      Unaligned(table, blocks, Move(src, ds), ds, Move(dst, dd), dd, w, n - 1);
    }
  }

  lemma MoveIsElement(a: Addr, d: int)
    ensures Move(a, d) == ElementAt(a, d, 1)
  {
  }

  /** Every element page is plain enough for the copy, from the start. */
  ghost predicate Usable(table: seq<nat>, blocks: Blocks, src: Addr, ds: int, dst: Addr, dd: int, n: nat)
    requires TableOk(table, blocks)
  {
    forall k :: 0 <= k < n ==>
      blocks[BlockOf(table, ElementAt(src, ds, k))].Readable()
      && blocks[BlockOf(table, ElementAt(dst, dd, k))].Writable()
  }

  /** No destination element is physically a source element. */
  ghost predicate Disjoint(table: seq<nat>, src: Addr, ds: int, dst: Addr, dd: int, n: nat)
    requires |table| == TOTAL_PAGES
  {
    forall j, k :: 0 <= j < n && 0 <= k < n ==>
      Loc(table, ElementAt(src, ds, j)) != Loc(table, ElementAt(dst, dd, k))
  }

  /** No two destination elements are physically the same. */
  ghost predicate Injective(table: seq<nat>, dst: Addr, dd: int, n: nat)
    requires |table| == TOTAL_PAGES
  {
    forall j, k :: 0 <= j < k < n ==> Loc(table, ElementAt(dst, dd, j)) != Loc(table, ElementAt(dst, dd, k))
  }

  predicate Aligned(a: Addr, w: nat)
    requires w > 0
  {
    a % w == 0
  }

  /** The `w` bytes at an aligned address. */
  function Cell(table: seq<nat>, blocks: Blocks, a: Addr, w: nat): seq<Byte>
    requires TableOk(table, blocks) && w in {2, 4} && Aligned(a, w)
  {
    CellFits(a, w);
    Load(table, blocks, a, w)
  }

  lemma CopyElementEffect(table: seq<nat>, blocks: Blocks, src: Addr, dst: Addr, w: nat)
    requires TableOk(table, blocks) && w in {2, 4} && Aligned(src, w) && Aligned(dst, w)
    requires blocks[BlockOf(table, src)].Readable() && blocks[BlockOf(table, dst)].Writable()
    ensures var r := CopyElement(table, blocks, src, dst, w);
            && Cell(table, r, dst, w) == Cell(table, blocks, src, w)
            && (forall x: Addr :: Aligned(x, w) && Loc(table, x) != Loc(table, dst) ==>
                  Cell(table, r, x, w) == Cell(table, blocks, x, w))
            && DIRTY <= r[BlockOf(table, dst)].flags
            && (forall i :: 0 <= i < |blocks| ==> FlagsGrow(blocks[i].flags, r[i].flags))
  {
    CellFits(src, w);
    CellFits(dst, w);
    var v := Load(table, blocks, src, w);
    LoadStored(table, blocks, dst, v);
    var r := CopyElement(table, blocks, src, dst, w);
    forall x: Addr | Aligned(x, w) && Loc(table, x) != Loc(table, dst)
      ensures Cell(table, r, x, w) == Cell(table, blocks, x, w)
    {
      LoadElsewhere(table, blocks, dst, v, x);
    }
  }

  /** What an exact copy leaves: each destination element holds what the source element held
      at the start, everything else is as it was, and what was written to is dirty. */
  ghost predicate Copied(table: seq<nat>, blocks: Blocks, r: Blocks, src: Addr, ds: int, dst: Addr, dd: int,
                         w: nat, n: nat)
    requires TableOk(table, blocks) && w in {2, 4} && |r| == |blocks|
  {
    && Moved(table, blocks, r, src, ds, dst, dd, w, n)
    && Kept(table, blocks, r, dst, dd, w, n)
    && (forall i :: 0 <= i < |blocks| ==> FlagsGrow(blocks[i].flags, r[i].flags))
  }

  ghost predicate Moved(table: seq<nat>, blocks: Blocks, r: Blocks, src: Addr, ds: int, dst: Addr, dd: int,
                        w: nat, n: nat)
    requires TableOk(table, blocks) && w in {2, 4} && |r| == |blocks|
  {
    forall k :: 0 <= k < n ==>
      && Aligned(ElementAt(src, ds, k), w) && Aligned(ElementAt(dst, dd, k), w)
      && Cell(table, r, ElementAt(dst, dd, k), w) == Cell(table, blocks, ElementAt(src, ds, k), w)
      && DIRTY <= r[BlockOf(table, ElementAt(dst, dd, k))].flags
  }

  /** Cells that are no destination element hold what they held. */
  ghost predicate Kept(table: seq<nat>, blocks: Blocks, r: Blocks, dst: Addr, dd: int, w: nat, n: nat)
    requires TableOk(table, blocks) && w in {2, 4} && |r| == |blocks|
  {
    forall x: Addr :: Aligned(x, w) && Untouched(table, x, dst, dd, n) ==>
      Cell(table, r, x, w) == Cell(table, blocks, x, w)
  }

  ghost predicate Untouched(table: seq<nat>, x: Addr, dst: Addr, dd: int, n: nat)
    requires |table| == TOTAL_PAGES
  {
    forall k :: 0 <= k < n ==> Loc(table, ElementAt(dst, dd, k)) != Loc(table, x)
  }

  lemma UsableLater(table: seq<nat>, blocks: Blocks, b1: Blocks, src: Addr, ds: int, dst: Addr, dd: int, n: nat)
    requires TableOk(table, blocks) && n > 0 && Usable(table, blocks, src, ds, dst, dd, n)
    requires ds in {-4, -2, 0, 2, 4} && dd in {-4, -2, 0, 2, 4}
    requires |b1| == |blocks| && forall i :: 0 <= i < |blocks| ==> FlagsGrow(blocks[i].flags, b1[i].flags)
    ensures Usable(table, b1, Move(src, ds), ds, Move(dst, dd), dd, n - 1)
  {
    hide Aligned, Move, ElementAt;
    forall k | 0 <= k < n - 1
      ensures b1[BlockOf(table, ElementAt(Move(src, ds), ds, k))].Readable()
              && b1[BlockOf(table, ElementAt(Move(dst, dd), dd, k))].Writable()
    {
      ElementNext(src, ds, k);
      ElementNext(dst, dd, k);
    }
  }

  /** Disjoint ranges, no destination written twice: an exact copy, or a fill when the source
      address stays. */
  lemma {:induction false} CopyIsExact(table: seq<nat>, blocks: Blocks, src: Addr, ds: int, dst: Addr, dd: int,
                                       w: nat, n: nat)
    requires TableOk(table, blocks) && w in {2, 4} && Aligned(src, w) && Aligned(dst, w)
    requires ds in {-4, -2, 0, 2, 4} && dd in {-4, -2, 0, 2, 4}
    requires w == 4 ==> ds in {-4, 0, 4} && dd in {-4, 0, 4}
    requires Usable(table, blocks, src, ds, dst, dd, n)
    requires Disjoint(table, src, ds, dst, dd, n) && Injective(table, dst, dd, n)
    ensures Copied(table, blocks, CopyRun(table, blocks, src, ds, dst, dd, w, n), src, ds, dst, dd, w, n)
    decreases n
  {
    hide Move, ElementAt, Cell, CopyElement, BlockOf;
    if n > 0 {
      var b1 := CopyElement(table, blocks, src, dst, w);
      var src1, dst1 := Move(src, ds), Move(dst, dd);
      ElementNext(src, ds, 0);
      ElementNext(dst, dd, 0);
      MoveIsElement(src, ds);
      MoveIsElement(dst, dd);
      AlignedThroughout(src, ds, w, 1);
      AlignedThroughout(dst, dd, w, 1);
      CopyElementEffect(table, blocks, src, dst, w);
      UsableLater(table, blocks, b1, src, ds, dst, dd, n);
      ApartLater(table, src, ds, dst, dd, n);
      CopyIsExact(table, b1, src1, ds, dst1, dd, w, n - 1);
      CopyExtends(table, blocks, b1, CopyRun(table, b1, src1, ds, dst1, dd, w, n - 1), src, ds, dst, dd, w, n);
    }
  }

  lemma ApartLater(table: seq<nat>, src: Addr, ds: int, dst: Addr, dd: int, n: nat)
    requires |table| == TOTAL_PAGES && n > 0
    requires ds in {-4, -2, 0, 2, 4} && dd in {-4, -2, 0, 2, 4}
    requires Disjoint(table, src, ds, dst, dd, n) && Injective(table, dst, dd, n)
    ensures Disjoint(table, Move(src, ds), ds, Move(dst, dd), dd, n - 1)
    ensures Injective(table, Move(dst, dd), dd, n - 1)
  {
    hide Aligned, Move, ElementAt, Loc;
    forall j, k | 0 <= j < n - 1 && 0 <= k < n - 1
      ensures Loc(table, ElementAt(Move(src, ds), ds, j)) != Loc(table, ElementAt(Move(dst, dd), dd, k))
    {
      ElementNext(src, ds, j);
      ElementNext(dst, dd, k);
    }
    forall j, k | 0 <= j < k < n - 1
      ensures Loc(table, ElementAt(Move(dst, dd), dd, j)) != Loc(table, ElementAt(Move(dst, dd), dd, k))
    {
      ElementNext(dst, dd, j);
      ElementNext(dst, dd, k);
    }
  }

  /** The element copied first survives the rest of an exact copy. */
  lemma CopyExtends(table: seq<nat>, blocks: Blocks, b1: Blocks, r: Blocks, src: Addr, ds: int,
                    dst: Addr, dd: int, w: nat, n: nat)
    requires TableOk(table, blocks) && w in {2, 4} && Aligned(src, w) && Aligned(dst, w) && n > 0
    requires ds in {-4, -2, 0, 2, 4} && dd in {-4, -2, 0, 2, 4}
    requires Disjoint(table, src, ds, dst, dd, n) && Injective(table, dst, dd, n)
    requires |b1| == |blocks| == |r|
    requires Cell(table, b1, dst, w) == Cell(table, blocks, src, w)
    requires forall x: Addr :: Aligned(x, w) && Loc(table, x) != Loc(table, dst) ==>
               Cell(table, b1, x, w) == Cell(table, blocks, x, w)
    requires DIRTY <= b1[BlockOf(table, dst)].flags
    requires forall i :: 0 <= i < |blocks| ==> FlagsGrow(blocks[i].flags, b1[i].flags)
    requires Copied(table, b1, r, Move(src, ds), ds, Move(dst, dd), dd, w, n - 1)
    ensures Copied(table, blocks, r, src, ds, dst, dd, w, n)
  {
    hide Move, Cell, Loc, Kept, Moved, Disjoint, Injective, FlagsGrow;
    assert Moved(table, blocks, r, src, ds, dst, dd, w, n) by {
      MovedExtends(table, blocks, b1, r, src, ds, dst, dd, w, n);
    }
    KeptExtends(table, blocks, b1, r, dst, dd, w, n);
    FlagsGrowTwice(blocks, b1, r);
  }

  lemma MovedExtends(table: seq<nat>, blocks: Blocks, b1: Blocks, r: Blocks, src: Addr, ds: int,
                     dst: Addr, dd: int, w: nat, n: nat)
    requires TableOk(table, blocks) && w in {2, 4} && Aligned(src, w) && Aligned(dst, w) && n > 0
    requires ds in {-4, -2, 0, 2, 4} && dd in {-4, -2, 0, 2, 4}
    requires Disjoint(table, src, ds, dst, dd, n) && Injective(table, dst, dd, n)
    requires |b1| == |blocks| == |r|
    requires Cell(table, b1, dst, w) == Cell(table, blocks, src, w)
    requires forall x: Addr :: Aligned(x, w) && Loc(table, x) != Loc(table, dst) ==>
               Cell(table, b1, x, w) == Cell(table, blocks, x, w)
    requires DIRTY <= b1[BlockOf(table, dst)].flags
    requires forall i :: 0 <= i < |blocks| ==> FlagsGrow(blocks[i].flags, b1[i].flags)
    requires Copied(table, b1, r, Move(src, ds), ds, Move(dst, dd), dd, w, n - 1)
    ensures Moved(table, blocks, r, src, ds, dst, dd, w, n)
  {
    hide Aligned, Move, ElementAt, Cell, Loc, Kept, Disjoint, Injective, Copied;
    forall k | 0 <= k < n
      ensures Aligned(ElementAt(src, ds, k), w) && Aligned(ElementAt(dst, dd, k), w)
      ensures Cell(table, r, ElementAt(dst, dd, k), w) == Cell(table, blocks, ElementAt(src, ds, k), w)
      ensures DIRTY <= r[BlockOf(table, ElementAt(dst, dd, k))].flags
    {
      ElementSurvives(table, blocks, b1, r, src, ds, dst, dd, w, n, k);
    }
  }

  lemma KeptExtends(table: seq<nat>, blocks: Blocks, b1: Blocks, r: Blocks, dst: Addr, dd: int, w: nat, n: nat)
    requires TableOk(table, blocks) && w in {2, 4} && n > 0 && dd in {-4, -2, 0, 2, 4}
    requires |b1| == |blocks| == |r|
    requires forall x: Addr :: Aligned(x, w) && Loc(table, x) != Loc(table, dst) ==>
               Cell(table, b1, x, w) == Cell(table, blocks, x, w)
    requires Kept(table, b1, r, Move(dst, dd), dd, w, n - 1)
    ensures Kept(table, blocks, r, dst, dd, w, n)
  {
    hide Aligned, Move, ElementAt, Cell, Loc, Untouched;
    forall x: Addr | Aligned(x, w) && Untouched(table, x, dst, dd, n)
      ensures Cell(table, r, x, w) == Cell(table, blocks, x, w)
    {
      RestUntouched(table, x, dst, dd, n);
    }
  }

  lemma FlagsGrowTwice(b: Blocks, b1: Blocks, r: Blocks)
    requires |b| == |b1| == |r|
    requires forall i :: 0 <= i < |b| ==> FlagsGrow(b[i].flags, b1[i].flags)
    requires forall i :: 0 <= i < |b| ==> FlagsGrow(b1[i].flags, r[i].flags)
    ensures forall i :: 0 <= i < |b| ==> FlagsGrow(b[i].flags, r[i].flags)
  {
  }

  lemma ElementSurvives(table: seq<nat>, blocks: Blocks, b1: Blocks, r: Blocks, src: Addr, ds: int,
                        dst: Addr, dd: int, w: nat, n: nat, k: nat)
    requires TableOk(table, blocks) && w in {2, 4} && Aligned(src, w) && Aligned(dst, w) && k < n
    requires ds in {-4, -2, 0, 2, 4} && dd in {-4, -2, 0, 2, 4}
    requires Disjoint(table, src, ds, dst, dd, n) && Injective(table, dst, dd, n)
    requires |b1| == |blocks| == |r|
    requires Cell(table, b1, dst, w) == Cell(table, blocks, src, w)
    requires forall x: Addr :: Aligned(x, w) && Loc(table, x) != Loc(table, dst) ==>
               Cell(table, b1, x, w) == Cell(table, blocks, x, w)
    requires DIRTY <= b1[BlockOf(table, dst)].flags
    requires Copied(table, b1, r, Move(src, ds), ds, Move(dst, dd), dd, w, n - 1)
    ensures Aligned(ElementAt(src, ds, k), w) && Aligned(ElementAt(dst, dd, k), w)
    ensures Cell(table, r, ElementAt(dst, dd, k), w) == Cell(table, blocks, ElementAt(src, ds, k), w)
    ensures DIRTY <= r[BlockOf(table, ElementAt(dst, dd, k))].flags
  {
    hide Aligned, Move, ElementAt, Cell, Loc, Untouched;
    ElementNext(src, ds, 0);
    ElementNext(dst, dd, 0);
    if k > 0 {
      ElementNext(src, ds, k - 1);
      ElementNext(dst, dd, k - 1);
      assert Loc(table, ElementAt(src, ds, k)) != Loc(table, ElementAt(dst, dd, 0));
    } else {
      RestApart(table, dst, dst, dd, n);
      assert FlagsGrow(b1[BlockOf(table, dst)].flags, r[BlockOf(table, dst)].flags);
    }
  }

  lemma RestUntouched(table: seq<nat>, x: Addr, dst: Addr, dd: int, n: nat)
    requires |table| == TOTAL_PAGES && dd in {-4, -2, 0, 2, 4} && n > 0 && Untouched(table, x, dst, dd, n)
    ensures Loc(table, x) != Loc(table, dst) && Untouched(table, x, Move(dst, dd), dd, n - 1)
  {
    hide ElementAt, Loc;
    ElementNext(dst, dd, 0);
    assert Loc(table, ElementAt(dst, dd, 0)) != Loc(table, x);
    RestApart(table, x, dst, dd, n);
  }

  /** What the later destinations do not touch. */
  lemma RestApart(table: seq<nat>, x: Addr, dst: Addr, dd: int, n: nat)
    requires |table| == TOTAL_PAGES && dd in {-4, -2, 0, 2, 4} && n > 0
    requires forall k :: 0 < k < n ==> Loc(table, ElementAt(dst, dd, k)) != Loc(table, x)
    ensures Untouched(table, x, Move(dst, dd), dd, n - 1)
  {
    hide Aligned, Move, ElementAt, Loc;
    forall k | 0 <= k < n - 1
      ensures Loc(table, ElementAt(Move(dst, dd), dd, k)) != Loc(table, x)
    {
      ElementNext(dst, dd, k);
    }
  }

  /** A destination that stays ends up with the last source element. */
  lemma {:induction false} FixedDestination(table: seq<nat>, blocks: Blocks, src: Addr, ds: int, dst: Addr,
                                            w: nat, n: nat)
    requires TableOk(table, blocks) && w in {2, 4} && Aligned(src, w) && Aligned(dst, w) && n > 0
    requires ds in {-4, -2, 0, 2, 4} && (w == 4 ==> ds in {-4, 0, 4})
    requires Usable(table, blocks, src, ds, dst, 0, n) && Disjoint(table, src, ds, dst, 0, n)
    ensures Aligned(ElementAt(src, ds, n - 1), w)
    ensures var r := CopyRun(table, blocks, src, ds, dst, 0, w, n);
            && Cell(table, r, dst, w) == Cell(table, blocks, ElementAt(src, ds, n - 1), w)
            && (forall x: Addr :: Aligned(x, w) && Loc(table, x) != Loc(table, dst) ==>
                  Cell(table, r, x, w) == Cell(table, blocks, x, w))
            && DIRTY <= r[BlockOf(table, dst)].flags
            && (forall i :: 0 <= i < |blocks| ==> FlagsGrow(blocks[i].flags, r[i].flags))
    decreases n
  {
    hide ElementAt, Move, Cell, CopyElement, BlockOf, Loc;
    var b1 := CopyElement(table, blocks, src, dst, w);
    var src1 := Move(src, ds);
    ElementNext(src, ds, 0);
    ElementNext(dst, 0, 0);
    MoveStays(dst, n - 1);
    CopyElementEffect(table, blocks, src, dst, w);
    if n > 1 {
      MoveIsElement(src, ds);
      AlignedThroughout(src, ds, w, 1);
      UsableLater(table, blocks, b1, src, ds, dst, 0, n);
      forall j, k | 0 <= j < n - 1 && 0 <= k < n - 1
        ensures Loc(table, ElementAt(src1, ds, j)) != Loc(table, ElementAt(dst, 0, k))
      {
        ElementNext(src, ds, j);
        assert Loc(table, ElementAt(src, ds, j + 1)) != Loc(table, ElementAt(dst, 0, k));
      }
      FixedDestination(table, b1, src1, ds, dst, w, n - 1);
      ElementNext(src, ds, n - 2);
      assert Loc(table, ElementAt(src, ds, n - 1)) != Loc(table, ElementAt(dst, 0, 0));
    } else {
      assert CopyRun(table, b1, src1, ds, Move(dst, 0), 0, w, 0) == b1;
    }
  }

  lemma MoveStays(a: Addr, k: nat)
    ensures Move(a, 0) == a && ElementAt(a, 0, k) == a
  {
  }

  // ----- the loop as the source runs it -----

  /** No element is served by an access handler. */
  ghost predicate NoHandlers(table: seq<nat>, c: Channel)
    requires TableOk(table, c.blocks)
  {
    forall k :: 0 <= k < Elements(c.ctrl) ==>
      AccessHandler !in c.blocks[BlockOf(table, ElementAt(c.src, SrcStep(c.ctrl), k))].flags
      && AccessHandler !in c.blocks[BlockOf(table, ElementAt(c.dst, DstStep(c.ctrl), k))].flags
  }

  class Engine {
    const table: seq<nat>
    var src: Addr
    var dst: Addr
    var ctrl: Word
    var blocks: Blocks

    ghost predicate Valid()
      reads this
    {
      TableOk(table, blocks)
    }

    ghost function State(): Channel
      reads this
    {
      Channel(src, dst, ctrl, blocks)
    }

    constructor (table: seq<nat>, c: Channel)
      requires TableOk(table, c.blocks)
      ensures Valid() && this.table == table && State() == c
    {
      this.table := table;
      src, dst, ctrl, blocks := c.src, c.dst, c.ctrl, c.blocks;
    }

    /** One element. */
    method CopyOne(w: nat)
      requires Valid() && w in {2, 4}
      modifies this`blocks
      ensures Valid() && blocks == CopyElement(table, old(blocks), src, dst, w)
    {
      var bs, bd := BlockOf(table, src), BlockOf(table, dst);
      if blocks[bs].Readable() && blocks[bd].Writable() && src % w == 0 && dst % w == 0 {
        CellFits(src, w);
        CellFits(dst, w);
        var value := Get(blocks[bs].mem, src % SIZE, w);
        blocks := blocks[bd := blocks[bd].(mem := Put(blocks[bd].mem, dst % SIZE, value))];
        blocks := Dirty(blocks, bd);
      }
    }

    /** The addresses after an element, and the count. */
    method Step(w: nat)
      requires Active(ctrl) && w == Width(ctrl)
      modifies this`src, this`dst, this`ctrl
      ensures src == Move(old(src), SrcStep(old(ctrl))) && dst == Move(old(dst), DstStep(old(ctrl)))
      ensures ctrl == old(ctrl) - 1
    {
      hide Width;
      match Bits(ctrl, 0x20_0000, 4) {
        case 0 => dst := (dst + w) % SPACE;
        case 1 => dst := (dst - w) % SPACE;
        case 3 => dst := (dst + w) % SPACE;
        case _ =>
      }
      match Bits(ctrl, 0x80_0000, 4) {
        case 0 => src := (src + w) % SPACE;
        case 1 => src := (src - w) % SPACE;
        case _ =>
      }
      ctrl := ctrl - 1;
    }

    /** `start_dma` */
    method Start()
      requires Valid() && NoHandlers(table, State())
      modifies this
      ensures Valid() && ctrl == 0
      ensures var c := old(State()); var n := Elements(c.ctrl);
              && blocks == CopyRun(table, c.blocks, c.src, SrcStep(c.ctrl), c.dst, DstStep(c.ctrl), Width(c.ctrl), n)
              && src == ElementAt(c.src, SrcStep(c.ctrl), n)
              && dst == ElementAt(c.dst, DstStep(c.ctrl), n)
    {
      hide ElementAt, CopyRun, Elements, Move, SrcStep, DstStep, CopyElement, Bits, NoHandlers;
      while Active(ctrl)
        invariant Valid() && Transfer(table, State()) == Transfer(table, old(State()))
        decreases ctrl % COUNT
      {
        CountsDown(ctrl);
        ghost var before := State();
        var w := if Bits(ctrl, 0x400_0000, 2) == 1 then 4 else 2;
        CopyOne(w);
        Step(w);
        assert State() == Turn(table, before);
      }
      TransferIsRun(table, old(State()));
      ctrl := 0;
    }
  }
}
