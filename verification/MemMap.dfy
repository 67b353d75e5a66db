/**
 The page table: a flat array that caches, for every page, a block of the region on top of
 the overlay there.
 */
module MemMap {
  import opened Types
  import opened Arith
  import opened Overlay

  /** A physical block: the `index`-th page of a region. */
  datatype BlockRef = BlockRef(region: Region, index: nat)

  type Table = seq<BlockRef>

  datatype Map = Map(table: Table, ovl: Overlay)

  // ----- painting segments into the table -----

  /** The entry of page `p` when a run of pages that starts at `lo` is given to `region`. */
  function Entry(region: Region, lo: nat, p: nat): BlockRef
    requires lo <= p
  {
    BlockRef(region, (p - lo) % region.pages)
  }

  function Paint(t: Table, region: Region, lo: nat, hi: nat): (t': Table) {
    seq(|t|, p requires 0 <= p < |t| => if lo <= p < hi then Entry(region, lo, p) else t[p])
  }

  function PaintAll(t: Table, segs: Overlay): Table
    decreases |segs|
  {
    if |segs| == 0 then t
    else PaintAll(Paint(t, segs[0].prio, segs[0].lo, segs[0].hi), segs[1..])
  }

  // ----- the operations, as functions -----

  function InitNull(n: nat, nil: Region): Map {
    Map(seq(n, i => BlockRef(nil, 0)), if n == 0 then [] else [WithSections(0, n, [nil])])
  }

  /** Region `r` over the pages `[a, b)`; every segment of the window is repainted. */
  function MapRegion(m: Map, r: Region, a: nat, b: nat): Map {
    var ovl := Add(m.ovl, a, b, r);
    Map(PaintAll(m.table, Clip(ovl, a, b)), ovl)
  }

  /** Region `r` off all pages; the segments it was on top of are repainted. */
  function Unmap(m: Map, r: Region): Map {
    var ovl := Subtract(m.ovl, r);
    Map(PaintAll(m.table, ClipAll(ovl, Intervals(m.ovl, r))), ovl)
  }

  // ----- what painting does to a page -----

  lemma {:induction false} PaintAllConcat(t: Table, x: Overlay, y: Overlay)
    ensures PaintAll(t, x + y) == PaintAll(PaintAll(t, x), y)
    decreases |x|
  {
    if |x| == 0 {
      assert x + y == y;
    } else {
      assert (x + y)[1..] == x[1..] + y;
      PaintAllConcat(Paint(t, x[0].prio, x[0].lo, x[0].hi), x[1..], y);
    }
  }

  /** Painting the overlay clipped to a window: each page of the window gets an entry counted
      from where its segment, or the window, begins. */
  lemma {:induction false} PaintClip(t: Table, o: Overlay, lo: nat, hi: nat, a: nat, b: nat)
    requires Partition(o, lo, hi)
    ensures |PaintAll(t, Clip(o, a, b))| == |t|
    ensures forall p :: 0 <= p < |t| ==>
              PaintAll(t, Clip(o, a, b))[p] == Clipped(t, o, lo, hi, a, b, p)
    decreases |o|
  {
    PartitionBounds(o, lo, hi);
    if |o| > 0 {
      var x, y := Max(o[0].lo, a), Min(o[0].hi, b);
      var first := if x < y then [o[0].(lo := x, hi := y)] else [];
      PaintAllConcat(t, first, Clip(o[1..], a, b));
      var t1 := PaintAll(t, first);
      assert PaintAll(Paint(t, o[0].prio, x, y), []) == Paint(t, o[0].prio, x, y);
      PaintClip(t1, o[1..], o[0].hi, hi, a, b);
    }
  }

  function Clipped(t: Table, o: Overlay, lo: nat, hi: nat, a: nat, b: nat, p: nat): BlockRef
    requires Partition(o, lo, hi) && p < |t|
  {
    if a <= p < b && lo <= p < hi then
      var s := SegAt(o, lo, hi, p);
      Entry(s.prio, Max(s.lo, a), p)
    else t[p]
  }

  /** Painting whole segments: the pages of the intervals get entries counted from the start
      of their segment, all others keep theirs. */
  lemma {:induction false} PaintIntervals(t: Table, o: Overlay, n: nat, ivs: seq<(nat, nat)>)
    requires Partition(o, 0, n) && |t| == n
    requires forall k :: 0 <= k < |ivs| ==>
               ivs[k].1 <= n && forall p :: ivs[k].0 <= p < ivs[k].1 ==> SegAt(o, 0, n, p).lo == ivs[k].0
    ensures |PaintAll(t, ClipAll(o, ivs))| == n
    ensures forall p :: 0 <= p < n ==>
              PaintAll(t, ClipAll(o, ivs))[p]
              == (if InSome(ivs, p) then Entry(SegAt(o, 0, n, p).prio, SegAt(o, 0, n, p).lo, p) else t[p])
    decreases |ivs|
  {
    if |ivs| > 0 {
      var iv := ivs[0];
      PaintAllConcat(t, Clip(o, iv.0, iv.1), ClipAll(o, ivs[1..]));
      PaintClip(t, o, 0, n, iv.0, iv.1);
      PaintIntervals(PaintAll(t, Clip(o, iv.0, iv.1)), o, n, ivs[1..]);
      forall p | 0 <= p < n
        ensures InSome(ivs, p) <==> iv.0 <= p < iv.1 || InSome(ivs[1..], p)
      {
        assert ivs == [iv] + ivs[1..];
        InSomeConcat([iv], ivs[1..], p);
        assert InSome([iv], p) <==> iv.0 <= p < iv.1 by { assert [iv][0] == iv; }
      }
    }
  }

  // ----- the invariant -----

  /** A region is known by its place in memory. */
  ghost predicate Identified(cat: set<Region>) {
    forall x, y :: x in cat && y in cat && x.id == y.id ==> x == y
  }

  /** The regions mapped over a page. */
  function Cover(m: Map, n: nat, p: nat): set<Region>
    requires Partition(m.ovl, 0, n) && p < n
  {
    SetOf(SegAt(m.ovl, 0, n, p).sections)
  }

  ghost predicate PageGood(m: Map, n: nat, cat: set<Region>, p: nat)
    requires Partition(m.ovl, 0, n) && p < n && |m.table| == n
  {
    var s := SegAt(m.ovl, 0, n, p);
    && SegOk(s)
    && Cover(m, n, p) <= cat
    && m.table[p].region == s.prio
    && m.table[p].index < s.prio.pages
  }

  /** The table caches the overlay: every entry is a block of the region on top. */
  ghost predicate Good(m: Map, n: nat, cat: set<Region>) {
    && Identified(cat)
    && |m.table| == n
    && Partition(m.ovl, 0, n)
    && forall p :: 0 <= p < n ==> PageGood(m, n, cat, p)
  }

  /** A page whose entry belongs to the region of highest priority that covers it. */
  lemma OwnerIsTop(m: Map, n: nat, cat: set<Region>, p: nat)
    requires Good(m, n, cat) && p < n
    ensures IsTop(m.table[p].region, Cover(m, n, p))
    ensures forall q :: q in Cover(m, n, p) && q != m.table[p].region ==>
              q.priority < m.table[p].region.priority
  {
    assert PageGood(m, n, cat, p);
    var s := SegAt(m.ovl, 0, n, p);
    TopIsTop(s.sections);
    forall q | q in s.sections && q != s.prio ensures q.priority != s.prio.priority {
      var i :| 0 <= i < |s.sections| && s.sections[i] == q;
      var j :| 0 <= j < |s.sections| && s.sections[j] == s.prio;
    }
  }

  lemma InitNullGood(n: nat, nil: Region, cat: set<Region>)
    requires Identified(cat) && nil in cat
    ensures Good(InitNull(n, nil), n, cat)
    ensures forall p :: 0 <= p < n ==> Cover(InitNull(n, nil), n, p) == {nil}
  {
    var m := InitNull(n, nil);
    if n > 0 {
      assert m.ovl[1..] == [];
      forall p | 0 <= p < n ensures PageGood(m, n, cat, p) && Cover(m, n, p) == {nil} {
        assert SegAt(m.ovl, 0, n, p) == m.ovl[0];
      }
    }
  }

  /** No region over the window has the priority of `r` (so `r` itself is not there either). */
  ghost predicate Fits(m: Map, n: nat, r: Region, a: nat, b: nat)
    requires Partition(m.ovl, 0, n)
  {
    a <= b <= n && forall p, q :: a <= p < b && q in Cover(m, n, p) ==> q.priority != r.priority
  }

  /** Mapping a region keeps the table a cache of the overlay, and adds the region to the
      cover of exactly the pages of its window. The pages it is repainted on hold blocks
      counted from the start of the segment they are in. */
  lemma {:induction false} MapRegionGood(m: Map, n: nat, cat: set<Region>, r: Region, a: nat, b: nat)
    requires Good(m, n, cat) && r in cat && Fits(m, n, r, a, b)
    ensures Good(MapRegion(m, r, a, b), n, cat)
    ensures forall p :: 0 <= p < n ==>
              Cover(MapRegion(m, r, a, b), n, p) == Cover(m, n, p) + (if a <= p < b then {r} else {})
    ensures forall p :: 0 <= p < n ==>
              var e := MapRegion(m, r, a, b).table[p];
              if a <= p < b then
                && IsTop(e.region, Cover(m, n, p) + {r})
                && e.index == (p - Max(SegAt(m.ovl, 0, n, p).lo, a)) % e.region.pages
              else e == m.table[p]
  {
    var m' := MapRegion(m, r, a, b);
    AddAt(m.ovl, 0, n, a, b, r);
    PaintClip(m.table, m'.ovl, 0, n, a, b);
    forall p | 0 <= p < n
      ensures PageGood(m', n, cat, p)
      ensures Cover(m', n, p) == Cover(m, n, p) + (if a <= p < b then {r} else {})
      ensures var e := m'.table[p];
              if a <= p < b then
                && IsTop(e.region, Cover(m, n, p) + {r})
                && e.index == (p - Max(SegAt(m.ovl, 0, n, p).lo, a)) % e.region.pages
              else e == m.table[p]
    {
      MapPage(m, n, cat, r, a, b, p);
    }
  }

  lemma {:induction false} MapPage(m: Map, n: nat, cat: set<Region>, r: Region, a: nat, b: nat, p: nat)
    requires Good(m, n, cat) && r in cat && Fits(m, n, r, a, b) && p < n
    requires var m' := MapRegion(m, r, a, b);
             && Partition(m'.ovl, 0, n) && |m'.table| == n
             && Added(SegAt(m.ovl, 0, n, p), SegAt(m'.ovl, 0, n, p), p, a, b, r)
             && m'.table[p] == Clipped(m.table, m'.ovl, 0, n, a, b, p)
    ensures var m' := MapRegion(m, r, a, b);
            && PageGood(m', n, cat, p)
            && Cover(m', n, p) == Cover(m, n, p) + (if a <= p < b then {r} else {})
            && var e := m'.table[p];
               if a <= p < b then
                 && IsTop(e.region, Cover(m, n, p) + {r})
                 && e.index == (p - Max(SegAt(m.ovl, 0, n, p).lo, a)) % e.region.pages
               else e == m.table[p]
  {
    hide Add, Clip, PaintAll, Merge, Sorted, Distinct;
    assert PageGood(m, n, cat, p);
    var s := SegAt(m.ovl, 0, n, p);
    if a <= p < b {
      MergedOk(m, n, cat, r, a, b, p);
    }
  }

  /** The list of a page of the window after the region was merged in. */
  lemma {:induction false} MergedOk(m: Map, n: nat, cat: set<Region>, r: Region, a: nat, b: nat, p: nat)
    requires Good(m, n, cat) && r in cat && Fits(m, n, r, a, b) && a <= p < b
    ensures var l := Merge(SegAt(m.ovl, 0, n, p).sections, [r]);
            Sorted(l) && Distinct(l) && |l| > 0 && SetOf(l) == Cover(m, n, p) + {r}
            && Top(l) in SetOf(l) && IsTop(Top(l), SetOf(l))
  {
    hide Merge, Sorted, Distinct;
    assert PageGood(m, n, cat, p);
    var s := SegAt(m.ovl, 0, n, p).sections;
    assert forall x :: x in s ==> x in Cover(m, n, p);
    MergeMembers(s, r);
    MergeSorted(s, r);
    MergeDistinct(s, r);
    TopIsTop(Merge(s, [r]));
  }

  /** Unmapping a region that is nowhere alone keeps the cache right too, and takes the region
      out of every cover. Pages it was not on top of keep their entry; the others show the top of
      what is left, in blocks counted from the start of the segment they are in. */
  lemma {:induction false} UnmapGood(m: Map, n: nat, cat: set<Region>, r: Region)
    requires Good(m, n, cat) && r in cat
    requires forall p :: 0 <= p < n ==> Cover(m, n, p) != {r}
    ensures Good(Unmap(m, r), n, cat)
    ensures forall p :: 0 <= p < n ==> Cover(Unmap(m, r), n, p) == Cover(m, n, p) - {r}
    ensures forall p :: 0 <= p < n ==>
              var e := Unmap(m, r).table[p];
              if m.table[p].region == r then
                && IsTop(e.region, Cover(m, n, p) - {r})
                && e.index == (p - SegAt(m.ovl, 0, n, p).lo) % e.region.pages
              else e == m.table[p]
  {
    hide Subtract, ClipAll, PaintAll, Intervals, Unmap, SegOk, SetOf, IsTop;
    var m' := Unmap(m, r);
    UnmapSegments(m, n, cat, r);
    forall p | 0 <= p < n
      ensures PageGood(m', n, cat, p)
      ensures Cover(m', n, p) == Cover(m, n, p) - {r}
      ensures var e := m'.table[p];
              if m.table[p].region == r then
                && IsTop(e.region, Cover(m, n, p) - {r})
                && e.index == (p - SegAt(m.ovl, 0, n, p).lo) % e.region.pages
              else e == m.table[p]
    {
      UnmapPage(m, n, cat, r, p);
    }
  }

  /** Segments keep their ends; what the region was on top of is painted again. */
  lemma {:induction false} UnmapSegments(m: Map, n: nat, cat: set<Region>, r: Region)
    requires Good(m, n, cat)
    ensures var m' := Unmap(m, r);
            && Partition(m'.ovl, 0, n) && |m'.table| == n
            && forall p :: 0 <= p < n ==>
                 && SegAt(m'.ovl, 0, n, p) == Without(SegAt(m.ovl, 0, n, p), r)
                 && m'.table[p] == (if SegAt(m.ovl, 0, n, p).prio == r
                                    then Entry(SegAt(m'.ovl, 0, n, p).prio, SegAt(m'.ovl, 0, n, p).lo, p)
                                    else m.table[p])
  {
    hide PageGood, SegOk;
    SubtractAt(m.ovl, 0, n, r);
    IntervalsAt(m.ovl, 0, n, r);
    PaintIntervals(m.table, Unmap(m, r).ovl, n, Intervals(m.ovl, r));
  }

  lemma {:induction false} UnmapPage(m: Map, n: nat, cat: set<Region>, r: Region, p: nat)
    requires Good(m, n, cat) && r in cat && p < n && Cover(m, n, p) != {r}
    requires var m' := Unmap(m, r);
             && Partition(m'.ovl, 0, n) && |m'.table| == n
             && SegAt(m'.ovl, 0, n, p) == Without(SegAt(m.ovl, 0, n, p), r)
             && m'.table[p] == (if SegAt(m.ovl, 0, n, p).prio == r
                                then Entry(SegAt(m'.ovl, 0, n, p).prio, SegAt(m'.ovl, 0, n, p).lo, p)
                                else m.table[p])
    ensures var m' := Unmap(m, r);
            && PageGood(m', n, cat, p)
            && Cover(m', n, p) == Cover(m, n, p) - {r}
            && var e := m'.table[p];
               if m.table[p].region == r then
                 && IsTop(e.region, Cover(m, n, p) - {r})
                 && e.index == (p - SegAt(m.ovl, 0, n, p).lo) % e.region.pages
               else e == m.table[p]
  {
    hide Subtract, ClipAll, PaintAll, Intervals, Sorted, Distinct, Difference;
    assert PageGood(m, n, cat, p);
    LeftOk(m, n, cat, r, p);
  }

  /** The list of a page after the region was taken out. */
  lemma {:induction false} LeftOk(m: Map, n: nat, cat: set<Region>, r: Region, p: nat)
    requires Good(m, n, cat) && r in cat && p < n && Cover(m, n, p) != {r}
    ensures var s := SegAt(m.ovl, 0, n, p);
            var left := Difference(s.sections, [r]);
            && Sorted(left) && Distinct(left) && |left| > 0 && SetOf(left) == Cover(m, n, p) - {r}
            && IsTop(Top(left), SetOf(left)) && (s.prio != r ==> Top(left) == s.prio)
  {
    hide Subtract, ClipAll, PaintAll, Intervals;
    assert PageGood(m, n, cat, p);
    var s := SegAt(m.ovl, 0, n, p);
    assert forall x :: x in s.sections ==> x in Cover(m, n, p);
    DifferenceOne(s.sections, r);
    DifferenceDistinct(s.sections, r);
    var left := Difference(s.sections, [r]);
    TopIsTop(s.sections);
    assert |left| > 0;
    TopIsTop(left);
    if s.prio != r {
      TopStays(s.sections, left, r);
    }
  }

  /** Removing a region that is not on top leaves the top where it is. */
  lemma TopStays(s: Sections, left: Sections, r: Region)
    requires |s| > 0 && |left| > 0 && Distinct(s) && Top(s) != r
    requires forall x :: x in left <==> x in s && x != r
    ensures Top(left) == Top(s)
  {
    TopIsTop(s);
    TopIsTop(left);
    var x, y := Top(s), Top(left);
    assert x in SetOf(left) && y in SetOf(s);
    SamePriority(s, x, y);
  }

  lemma SamePriority(s: Sections, x: Region, y: Region)
    requires Distinct(s) && x in s && y in s && x.priority == y.priority
    ensures x == y
  {
    var i :| 0 <= i < |s| && s[i] == x;
    var j :| 0 <= j < |s| && s[j] == y;
  }

  // ----- whole runs -----

  datatype Cmd = MapCmd(r: Region, a: nat, b: nat) | UnmapCmd(r: Region)

  function Do(c: Cmd, m: Map): Map {
    match c
    case MapCmd(r, a, b) => MapRegion(m, r, a, b)
    case UnmapCmd(r) => Unmap(m, r)
  }

  function DoAll(cmds: seq<Cmd>, m: Map): Map
    decreases |cmds|
  {
    if |cmds| == 0 then m else DoAll(cmds[1..], Do(cmds[0], m))
  }

  /** The regions over a page after one command, from those over it before. */
  function CoverAfter(c: Cmd, p: nat, s: set<Region>): set<Region> {
    match c
    case MapCmd(r, a, b) => if a <= p < b then s + {r} else s
    case UnmapCmd(r) => s - {r}
  }

  /** The regions over a page after a run: nothing but the windows and removals count. */
  function SpecCover(cmds: seq<Cmd>, p: nat, s: set<Region>): set<Region>
    decreases |cmds|
  {
    if |cmds| == 0 then s else SpecCover(cmds[1..], p, CoverAfter(cmds[0], p, s))
  }

  /** What the source asks of a caller: windows inside the page table, no two regions of one
      priority over a page, the null region never removed. */
  ghost predicate Allowed(c: Cmd, n: nat, cat: set<Region>, nil: Region, cover: nat -> set<Region>) {
    match c
    case MapCmd(r, a, b) =>
      r in cat && a <= b <= n
      && forall p, q :: a <= p < b && q in cover(p) ==> q.priority != r.priority
    case UnmapCmd(r) => r in cat && r != nil
  }

  ghost predicate AllAllowed(cmds: seq<Cmd>, n: nat, cat: set<Region>, nil: Region,
                             cover: nat -> set<Region>)
    decreases |cmds|
  {
    |cmds| == 0 ||
    (Allowed(cmds[0], n, cat, nil, cover)
     && AllAllowed(cmds[1..], n, cat, nil, (p: nat) => CoverAfter(cmds[0], p, cover(p))))
  }

  /** The invariant of whole runs: the table is a cache, the covers are the given ones, and
      the null region is under every page. */
  ghost predicate Tracks(m: Map, n: nat, cat: set<Region>, nil: Region, cover: nat -> set<Region>) {
    && Good(m, n, cat)
    && forall p :: 0 <= p < n ==> Cover(m, n, p) == cover(p) && nil in cover(p)
  }

  lemma DoTracks(c: Cmd, m: Map, n: nat, cat: set<Region>, nil: Region, cover: nat -> set<Region>)
    requires Tracks(m, n, cat, nil, cover) && Allowed(c, n, cat, nil, cover)
    ensures Tracks(Do(c, m), n, cat, nil, (p: nat) => CoverAfter(c, p, cover(p)))
  {
    hide Add, Clip, PaintAll, Subtract, ClipAll, Intervals, SegOk;
    match c
    case MapCmd(r, a, b) => MapRegionGood(m, n, cat, r, a, b);
    case UnmapCmd(r) => UnmapGood(m, n, cat, r);
  }

  lemma {:induction false} RunTracks(cmds: seq<Cmd>, m: Map, n: nat, cat: set<Region>, nil: Region,
                                     cover: nat -> set<Region>, end: nat -> set<Region>)
    requires Tracks(m, n, cat, nil, cover) && AllAllowed(cmds, n, cat, nil, cover)
    requires forall p: nat :: end(p) == SpecCover(cmds, p, cover(p))
    ensures Tracks(DoAll(cmds, m), n, cat, nil, end)
    decreases |cmds|
  {
    hide Good, Cover;
    if |cmds| > 0 {
      DoTracks(cmds[0], m, n, cat, nil, cover);
      RunTracks(cmds[1..], Do(cmds[0], m), n, cat, nil, (p: nat) => CoverAfter(cmds[0], p, cover(p)), end);
    }
  }

  /** Over every run from the initial mapping, the entry of every page is a block of the
      region of highest priority among those the run has put over that page. */
  lemma {:induction false} RunOwner(cmds: seq<Cmd>, n: nat, cat: set<Region>, nil: Region, p: nat)
    requires Identified(cat) && nil in cat && p < n
    requires AllAllowed(cmds, n, cat, nil, (_: nat) => {nil})
    ensures var m := DoAll(cmds, InitNull(n, nil));
            && Good(m, n, cat)
            && IsTop(m.table[p].region, SpecCover(cmds, p, {nil}))
            && m.table[p].index < m.table[p].region.pages
  {
    InitNullGood(n, nil, cat);
    RunTracks(cmds, InitNull(n, nil), n, cat, nil, (_: nat) => {nil}, (p: nat) => SpecCover(cmds, p, {nil}));
    var m := DoAll(cmds, InitNull(n, nil));
    OwnerIsTop(m, n, cat, p);
    assert PageGood(m, n, cat, p);
    assert Cover(m, n, p) == SpecCover(cmds, p, {nil});
  }

  // ----- order does not matter -----

  /** The regions a list of map commands puts over a page. */
  predicate MapsOver(cmds: seq<Cmd>, p: nat, r: Region) {
    exists k :: 0 <= k < |cmds| && cmds[k].MapCmd? && cmds[k].r == r && cmds[k].a <= p < cmds[k].b
  }

  lemma {:induction false} CoverOfMaps(cmds: seq<Cmd>, p: nat, s: set<Region>)
    requires forall c :: c in cmds ==> c.MapCmd?
    ensures forall r :: r in SpecCover(cmds, p, s) <==> r in s || MapsOver(cmds, p, r)
    decreases |cmds|
  {
    if |cmds| > 0 {
      var c := cmds[0];
      CoverOfMaps(cmds[1..], p, CoverAfter(c, p, s));
      forall r
        ensures MapsOver(cmds, p, r) <==> (c.r == r && c.a <= p < c.b) || MapsOver(cmds[1..], p, r)
      {
        if MapsOver(cmds[1..], p, r) {
          var k :| 0 <= k < |cmds[1..]| && cmds[1..][k].MapCmd? && cmds[1..][k].r == r
                   && cmds[1..][k].a <= p < cmds[1..][k].b;
          assert cmds[k + 1] == cmds[1..][k];
        }
        if MapsOver(cmds, p, r) {
          var k :| 0 <= k < |cmds| && cmds[k].MapCmd? && cmds[k].r == r && cmds[k].a <= p < cmds[k].b;
          if k > 0 { assert cmds[1..][k - 1] == cmds[k]; }
        }
      }
    }
  }

  /** Two runs of the same map commands, in any order and with any repetitions the source
      allows, give every page the same owner. */
  lemma {:induction false} OrderIndependent(cmds: seq<Cmd>, cmds': seq<Cmd>, n: nat, cat: set<Region>,
                                            nil: Region, p: nat)
    requires Identified(cat) && nil in cat && p < n
    requires forall c :: c in cmds <==> c in cmds'
    requires forall c :: c in cmds ==> c.MapCmd?
    requires AllAllowed(cmds, n, cat, nil, (_: nat) => {nil}) && AllAllowed(cmds', n, cat, nil, (_: nat) => {nil})
    ensures Good(DoAll(cmds, InitNull(n, nil)), n, cat) && Good(DoAll(cmds', InitNull(n, nil)), n, cat)
    ensures DoAll(cmds, InitNull(n, nil)).table[p].region == DoAll(cmds', InitNull(n, nil)).table[p].region
  {
    var m, m' := DoAll(cmds, InitNull(n, nil)), DoAll(cmds', InitNull(n, nil));
    InitNullGood(n, nil, cat);
    RunTracks(cmds, InitNull(n, nil), n, cat, nil, (_: nat) => {nil}, (p: nat) => SpecCover(cmds, p, {nil}));
    RunTracks(cmds', InitNull(n, nil), n, cat, nil, (_: nat) => {nil}, (p: nat) => SpecCover(cmds', p, {nil}));
    OwnerIsTop(m, n, cat, p);
    OwnerIsTop(m', n, cat, p);
    CoverOfMaps(cmds, p, {nil});
    CoverOfMaps(cmds', p, {nil});
    forall r ensures MapsOver(cmds, p, r) <==> MapsOver(cmds', p, r) {
      SameMaps(cmds, cmds', p, r);
      SameMaps(cmds', cmds, p, r);
    }
    assert Cover(m, n, p) == SpecCover(cmds, p, {nil}) == SpecCover(cmds', p, {nil}) == Cover(m', n, p);
  }

  lemma SameMaps(cmds: seq<Cmd>, cmds': seq<Cmd>, p: nat, r: Region)
    requires forall c :: c in cmds ==> c in cmds'
    ensures MapsOver(cmds, p, r) ==> MapsOver(cmds', p, r)
  {
    if MapsOver(cmds, p, r) {
      var k :| 0 <= k < |cmds| && cmds[k].MapCmd? && cmds[k].r == r && cmds[k].a <= p < cmds[k].b;
      assert cmds[k] in cmds;
      var j :| 0 <= j < |cmds'| && cmds'[j] == cmds[k];
    }
  }

  /** Mapping a region that is nowhere yet and unmapping it again gives every page back to its
      owner. It shows the block it showed before exactly if that was numbered from the start of
      its segment or of the window, whichever is later; outside the window nothing changes. */
  lemma {:induction false} MapThenUnmap(m: Map, n: nat, cat: set<Region>, r: Region, a: nat, b: nat, p: nat)
    requires Good(m, n, cat) && r in cat && a <= b <= n && p < n
    requires forall q :: 0 <= q < n ==> r !in Cover(m, n, q) && Cover(m, n, q) != {}
    requires Fits(m, n, r, a, b)
    ensures var m' := Unmap(MapRegion(m, r, a, b), r);
            && Good(m', n, cat) && m'.table[p].region == m.table[p].region
            && (m'.table[p] == m.table[p] <==>
                  (a <= p < b ==>
                     m.table[p].index == (p - Max(SegAt(m.ovl, 0, n, p).lo, a)) % m.table[p].region.pages))
  {
    hide Add, Clip, PaintAll, Subtract, ClipAll, Intervals, SegOk, Merge;
    MapRegionGood(m, n, cat, r, a, b);
    var m1 := MapRegion(m, r, a, b);
    UnmapGood(m1, n, cat, r);
    OwnerIsTop(m, n, cat, p);
    OwnerIsTop(m1, n, cat, p);
    OwnerIsTop(Unmap(m1, r), n, cat, p);
    assert Cover(Unmap(m1, r), n, p) == Cover(m, n, p);
    assert m.table[p].region in Cover(m, n, p);
    AddAt(m.ovl, 0, n, a, b, r);
    assert Added(SegAt(m.ovl, 0, n, p), SegAt(m1.ovl, 0, n, p), p, a, b, r);
  }

  // ----- block numbers -----

  /** The numbering that a window of a region should have: page `a + k` holds block `k`,
      modulo the size of the region. */
  predicate NumberedFrom(m: Map, r: Region, a: nat, b: nat) {
    forall p :: a <= p < b && p < |m.table| && m.table[p].region == r ==>
      m.table[p].index == (p - a) % r.pages
  }

  /** After mapping, the pages the region won hold the blocks 0, 1, 2, ... of the region in
      order exactly when every segment it won on begins a whole number of region sizes into
      the window: numbering restarts with each segment. */
  lemma {:induction false} NumberingExact(m: Map, n: nat, cat: set<Region>, r: Region, a: nat, b: nat)
    requires Good(m, n, cat) && r in cat && Fits(m, n, r, a, b)
    ensures var m' := MapRegion(m, r, a, b);
            Good(m', n, cat) &&
            (NumberedFrom(m', r, a, b) <==>
             forall p :: a <= p < b && m'.table[p].region == r ==>
               (Max(SegAt(m.ovl, 0, n, p).lo, a) - a) % r.pages == 0)
  {
    hide Add, Clip, PaintAll, SegOk, Merge;
    var m' := MapRegion(m, r, a, b);
    MapRegionGood(m, n, cat, r, a, b);
    forall p | a <= p < b && m'.table[p].region == r
      ensures m'.table[p].index == (p - a) % r.pages
         <==> (Max(SegAt(m.ovl, 0, n, p).lo, a) - a) % r.pages == 0
    {
      ModShift(p - Max(SegAt(m.ovl, 0, n, p).lo, a), Max(SegAt(m.ovl, 0, n, p).lo, a) - a, r.pages);
    }
  }

  /** A window inside a single segment is numbered in order wherever the region won it. */
  lemma {:induction false} SingleSegment(m: Map, n: nat, cat: set<Region>, r: Region, a: nat, b: nat)
    requires Good(m, n, cat) && r in cat && Fits(m, n, r, a, b) && a < b
    requires SegAt(m.ovl, 0, n, a).hi >= b
    ensures NumberedFrom(MapRegion(m, r, a, b), r, a, b)
  {
    hide Add, Clip, PaintAll, SegOk, Merge;
    NumberingExact(m, n, cat, r, a, b);
    forall p | a <= p < b ensures SegAt(m.ovl, 0, n, p) == SegAt(m.ovl, 0, n, a) {
      SameSegment(m.ovl, 0, n, a, p);
    }
  }

  lemma {:induction false} SameSegment(o: Overlay, lo: nat, hi: nat, a: nat, p: nat)
    requires Partition(o, lo, hi) && lo <= a <= p < hi && p < SegAt(o, lo, hi, a).hi
    ensures SegAt(o, lo, hi, p) == SegAt(o, lo, hi, a)
    decreases |o|
  {
    if a >= o[0].hi { SameSegment(o[1..], o[0].hi, hi, a, p); }
  }

  // ----- the page table itself -----

  class PageTable {
    const pages: nat
    var table: array<BlockRef>
    var ovl: Overlay

    ghost predicate Valid()
      reads this
    {
      table.Length == pages && Partition(ovl, 0, pages)
    }

    ghost function State(): Map
      reads this, table
    {
      Map(table[..], ovl)
    }

    constructor (n: nat, nil: Region)
      requires n > 0
      ensures Valid() && pages == n && fresh(table) && State() == InitNull(n, nil)
    {
      pages := n;
      table := new BlockRef[n](_ => BlockRef(nil, 0));
      ovl := [WithSections(0, n, [nil])];
      new;
      assert ovl[1..] == [];
      assert table[..] == seq(n, i => BlockRef(nil, 0));
    }

    method ApplyMapping(region: Region, lo: nat, hi: nat)
      requires lo <= hi <= table.Length
      modifies table
      ensures table[..] == Paint(old(table[..]), region, lo, hi)
    {
      var i, p := 0, lo;
      while p != hi
        invariant lo <= p <= hi && i == p - lo
        invariant table[..] == Paint(old(table[..]), region, lo, p)
        decreases hi - p
      {
        table[p] := BlockRef(region, i % region.pages);
        i := i + 1;
        p := p + 1;
      }
    }

    method ApplyMappingInternal(segs: Overlay)
      requires forall k :: 0 <= k < |segs| ==> segs[k].lo <= segs[k].hi <= table.Length
      modifies table
      ensures table[..] == PaintAll(old(table[..]), segs)
    {
      var k := 0;
      while k < |segs|
        invariant 0 <= k <= |segs|
        invariant PaintAll(table[..], segs[k..]) == PaintAll(old(table[..]), segs)
      {
        assert segs[k..][0] == segs[k] && segs[k..][1..] == segs[k + 1..];
        ApplyMapping(segs[k].prio, segs[k].lo, segs[k].hi);
        k := k + 1;
      }
      assert segs[k..] == [];
    }

    /** `map_region`: put the window into the overlay, then repaint its segments. */
    method MapWindow(region: Region, a: nat, b: nat)
      requires Valid() && a <= b <= pages
      modifies this`ovl, table
      ensures Valid() && table == old(table)
      ensures State() == MapRegion(old(State()), region, a, b)
    {
      AddAt(ovl, 0, pages, a, b, region);
      ovl := Add(ovl, a, b, region);
      var intersect := Clip(ovl, a, b);
      ClipBounds(ovl, 0, pages, a, b);
      ApplyMappingInternal(intersect);
    }

    /** The pages of the segments `region` is on top of: they will need to be repainted. */
    method CollectTop(region: Region) returns (s: seq<(nat, nat)>)
      ensures s == Intervals(ovl, region)
    {
      s := [];
      var k := 0;
      while k < |ovl|
        invariant 0 <= k <= |ovl|
        invariant s + Intervals(ovl[k..], region) == Intervals(ovl, region)
      {
        assert ovl[k..][0] == ovl[k] && ovl[k..][1..] == ovl[k + 1..];
        if ovl[k].prio == region {
          s := s + [(ovl[k].lo, ovl[k].hi)];
        }
        k := k + 1;
      }
      assert ovl[k..] == [] && s + [] == s;
    }

    method UnmapRegion(region: Region)
      requires Valid()
      modifies this`ovl, table
      ensures Valid() && table == old(table)
      ensures State() == Unmap(old(State()), region)
    {
      var s := CollectTop(region);
      SubtractAt(ovl, 0, pages, region);
      ovl := Subtract(ovl, region);
      ClipAllBounds(ovl, pages, s);
      ApplyMappingInternal(ClipAll(ovl, s));
    }

    method GetPage(page: nat) returns (block: BlockRef)
      requires page < table.Length
      ensures block == table[page]
    {
      block := table[page];
    }
  }

  lemma {:induction false} ClipBounds(o: Overlay, lo: nat, hi: nat, a: nat, b: nat)
    requires Partition(o, lo, hi)
    ensures forall k :: 0 <= k < |Clip(o, a, b)| ==> Clip(o, a, b)[k].lo <= Clip(o, a, b)[k].hi <= hi
    decreases |o|
  {
    if |o| > 0 { ClipBounds(o[1..], o[0].hi, hi, a, b); }
  }

  lemma {:induction false} ClipAllBounds(o: Overlay, n: nat, ivs: seq<(nat, nat)>)
    requires Partition(o, 0, n)
    ensures forall k :: 0 <= k < |ClipAll(o, ivs)| ==>
              ClipAll(o, ivs)[k].lo <= ClipAll(o, ivs)[k].hi <= n
    decreases |ivs|
  {
    if |ivs| > 0 {
      ClipBounds(o, 0, n, ivs[0].0, ivs[0].1);
      ClipAllBounds(o, n, ivs[1..]);
    }
  }
}
