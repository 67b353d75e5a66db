/**
 The prioritised overlay behind the page table: an ordered partition of the pages into
 segments, each listing (sorted) the regions mapped over it.

 The interval container itself is a library of its own; what is kept here is its meaning:
 adding a window splits the segments it cuts, subtracting a region leaves the cuts alone.
 */
module Overlay {
  import opened Types

  /** A physical region, identified by its place in memory; pages and priority are fixed. */
  datatype Region = Region(id: nat, pages: Pages, priority: nat)

  type Pages = n: nat | n > 0 witness 1

  datatype Segment = Segment(lo: nat, hi: nat, sections: seq<Region>, prio: Region)

  type Sections = seq<Region>

  // ----- section lists -----

  predicate Sorted(s: Sections) {
    forall i, j :: 0 <= i < j < |s| ==> s[i].id < s[j].id
  }

  /** No two regions on the list have the same priority. */
  predicate Distinct(s: Sections) {
    forall i, j :: 0 <= i < j < |s| ==> s[i].priority != s[j].priority
  }

  /** The merge of two sorted lists; on a tie the element of the first list comes first. */
  function Merge(a: Sections, b: Sections): (r: Sections)
    ensures |r| == |a| + |b|
    decreases |a| + |b|
  {
    if |a| == 0 then b
    else if |b| == 0 then a
    else if b[0].id < a[0].id then [b[0]] + Merge(a, b[1..])
    else [a[0]] + Merge(a[1..], b)
  }

  /** The elements of a sorted list that are not on another one, removed occurrence by
      occurrence. */
  function Difference(a: Sections, b: Sections): Sections
    decreases |a| + |b|
  {
    if |a| == 0 || |b| == 0 then a
    else if a[0].id < b[0].id then [a[0]] + Difference(a[1..], b)
    else if b[0].id < a[0].id then Difference(a, b[1..])
    else Difference(a[1..], b[1..])
  }

  /** The highest-priority region of a list that starts with `best`. */
  function TopFrom(best: Region, rest: Sections): Region
    decreases |rest|
  {
    if |rest| == 0 then best
    else TopFrom(if rest[0].priority > best.priority then rest[0] else best, rest[1..])
  }

  function Top(s: Sections): Region
    requires |s| > 0
  {
    TopFrom(s[0], s[1..])
  }

  /** Two occurrences of the running maximum's priority: the mapping clash the source stops at. */
  predicate ClashFrom(best: Region, rest: Sections)
    decreases |rest|
  {
    |rest| > 0 &&
    (rest[0].priority == best.priority
     || ClashFrom(if rest[0].priority > best.priority then rest[0] else best, rest[1..]))
  }

  method RecalcPrio(s: Sections) returns (prio: Region, clash: bool)
    requires |s| > 0
    ensures prio == Top(s)
    ensures clash <==> ClashFrom(s[0], s[1..])
  {
    prio, clash := s[0], false;
    var i := 1;
    while i < |s|
      invariant 1 <= i <= |s|
      invariant TopFrom(prio, s[i..]) == Top(s)
      invariant clash || ClashFrom(prio, s[i..]) <==> ClashFrom(s[0], s[1..])
    {
      assert s[i..][0] == s[i] && s[i..][1..] == s[i + 1..];
      if s[i].priority == prio.priority {
        clash := true;
      }
      if s[i].priority > prio.priority {
        prio := s[i];
      }
      i := i + 1;
    }
    assert s[i..] == [];
  }

  function SetOf(s: Sections): set<Region> { set x | x in s }

  ghost predicate IsTop(r: Region, s: set<Region>) {
    r in s && forall q :: q in s ==> q.priority <= r.priority
  }

  lemma {:induction false} TopFromIsTop(best: Region, rest: Sections)
    ensures IsTop(TopFrom(best, rest), {best} + SetOf(rest))
    decreases |rest|
  {
    if |rest| > 0 {
      var b := if rest[0].priority > best.priority then rest[0] else best;
      TopFromIsTop(b, rest[1..]);
      var t := TopFrom(b, rest[1..]);
      forall q | q in {best} + SetOf(rest) ensures q.priority <= t.priority {
        assert b in {b} + SetOf(rest[1..]);
        if q in rest {
          var k :| 0 <= k < |rest| && rest[k] == q;
          if k > 0 { assert rest[1..][k - 1] == q; }
        }
      }
      assert t == b || t in rest[1..];
    }
  }

  /** `Top` is the region of highest priority on the list. */
  lemma TopIsTop(s: Sections)
    requires |s| > 0
    ensures IsTop(Top(s), SetOf(s))
  {
    TopFromIsTop(s[0], s[1..]);
    assert s == [s[0]] + s[1..];
    assert SetOf(s) == {s[0]} + SetOf(s[1..]);
  }

  /** Distinct priorities never clash. */
  lemma {:induction false} NoClash(best: Region, rest: Sections)
    requires Distinct(rest) && forall q :: q in rest ==> q.priority != best.priority
    ensures !ClashFrom(best, rest)
    decreases |rest|
  {
    if |rest| > 0 {
      assert forall i, j :: 0 <= i < j < |rest[1..]| ==> rest[1..][i] == rest[i + 1] && rest[1..][j] == rest[j + 1];
      NoClash(if rest[0].priority > best.priority then rest[0] else best, rest[1..]);
    }
  }

  // ----- one region merged in or taken out -----

  /** A region merged into a list is on it, with everything that was. */
  lemma {:induction false} MergeMembers(a: Sections, r: Region)
    ensures forall x :: x in Merge(a, [r]) <==> x in a || x == r
    decreases |a|
  {
    if |a| > 0 {
      if r.id < a[0].id {
        assert Merge(a, []) == a;
        assert Merge(a, [r]) == [r] + a;
      } else {
        MergeMembers(a[1..], r);
        assert a == [a[0]] + a[1..];
      }
    }
  }

  lemma {:induction false} MergeSorted(a: Sections, r: Region)
    requires Sorted(a) && forall x :: x in a ==> x.id != r.id
    ensures Sorted(Merge(a, [r]))
    decreases |a|
  {
    if |a| > 0 {
      TailSorted(a);
      if r.id < a[0].id {
        assert Merge(a, []) == a;
        assert Merge(a, [r]) == [r] + a;
        PrependSorted(r, a);
      } else {
        MergeMembers(a[1..], r);
        MergeSorted(a[1..], r);
        PrependSorted(a[0], Merge(a[1..], [r]));
      }
    }
  }

  lemma TailSorted(a: Sections)
    requires |a| > 0 && Sorted(a)
    ensures Sorted(a[1..]) && forall x :: x in a[1..] ==> a[0].id < x.id
    ensures forall x :: x in a ==> a[0].id <= x.id
  {
    forall i, j | 0 <= i < j < |a[1..]| ensures a[1..][i].id < a[1..][j].id {
      assert a[1..][i] == a[i + 1] && a[1..][j] == a[j + 1];
    }
  }

  lemma {:induction false} MergeDistinct(a: Sections, r: Region)
    requires Distinct(a) && forall x :: x in a ==> x.priority != r.priority
    ensures Distinct(Merge(a, [r]))
    decreases |a|
  {
    if |a| > 0 {
      TailDistinct(a);
      if r.id < a[0].id {
        assert Merge(a, []) == a;
        assert Merge(a, [r]) == [r] + a;
        PrependDistinct(r, a);
      } else {
        MergeMembers(a[1..], r);
        MergeDistinct(a[1..], r);
        PrependDistinct(a[0], Merge(a[1..], [r]));
      }
    }
  }

  lemma TailDistinct(a: Sections)
    requires |a| > 0 && Distinct(a)
    ensures Distinct(a[1..]) && forall x :: x in a[1..] ==> x.priority != a[0].priority
  {
    forall i, j | 0 <= i < j < |a[1..]| ensures a[1..][i].priority != a[1..][j].priority {
      assert a[1..][i] == a[i + 1] && a[1..][j] == a[j + 1];
    }
  }

  lemma PrependDistinct(x: Region, s: Sections)
    requires Distinct(s) && forall y :: y in s ==> x.priority != y.priority
    ensures Distinct([x] + s)
  {
  }

  lemma {:induction false} DifferenceOne(a: Sections, r: Region)
    requires Sorted(a) && forall x :: x in a && x.id == r.id ==> x == r
    ensures Sorted(Difference(a, [r]))
    ensures forall x :: x in Difference(a, [r]) <==> x in a && x != r
    decreases |a|
  {
    if |a| > 0 {
      assert a == [a[0]] + a[1..];
      TailSorted(a);
      if a[0].id < r.id {
        DifferenceOne(a[1..], r);
        PrependSorted(a[0], Difference(a[1..], [r]));
      } else {
        assert Difference(a, []) == a && Difference(a[1..], []) == a[1..];
      }
    }
  }

  lemma {:induction false} DifferenceDistinct(a: Sections, r: Region)
    requires Sorted(a) && Distinct(a) && forall x :: x in a && x.id == r.id ==> x == r
    ensures Distinct(Difference(a, [r]))
    decreases |a|
  {
    if |a| > 0 {
      TailDistinct(a);
      TailSorted(a);
      if a[0].id < r.id {
        DifferenceOne(a[1..], r);
        DifferenceDistinct(a[1..], r);
        PrependDistinct(a[0], Difference(a[1..], [r]));
      } else {
        assert Difference(a, []) == a && Difference(a[1..], []) == a[1..];
      }
    }
  }

  lemma PrependSorted(x: Region, s: Sections)
    requires Sorted(s) && forall y :: y in s ==> x.id < y.id
    ensures Sorted([x] + s)
  {
  }

  // ----- the overlay -----

  type Overlay = seq<Segment>

  /** `o` cuts the pages from `lo` to `hi` into consecutive non-empty segments. */
  predicate Partition(o: Overlay, lo: nat, hi: nat)
    decreases |o|
  {
    if |o| == 0 then lo == hi
    else o[0].lo == lo && lo < o[0].hi <= hi && Partition(o[1..], o[0].hi, hi)
  }

  /** The segment that holds page `p`. */
  function SegAt(o: Overlay, lo: nat, hi: nat, p: nat): (s: Segment)
    requires Partition(o, lo, hi) && lo <= p < hi
    ensures s in o && s.lo <= p < s.hi
    decreases |o|
  {
    if p < o[0].hi then o[0] else SegAt(o[1..], o[0].hi, hi, p)
  }

  /** A segment as the operations keep it: sorted, non-empty, no clash, `prio` on top. */
  predicate SegOk(s: Segment) {
    Sorted(s.sections) && Distinct(s.sections) && |s.sections| > 0 && s.prio == Top(s.sections)
  }

  function WithSections(lo: nat, hi: nat, s: Sections): Segment
    requires |s| > 0
  {
    Segment(lo, hi, s, Top(s))
  }

  /** One segment with region `r` added over the pages `[a, b)`: up to three pieces. */
  function Split(s: Segment, a: nat, b: nat, r: Region): Overlay {
    var lo, hi := Max(s.lo, a), Min(s.hi, b);
    if lo >= hi then [s]
    else
      (if s.lo < lo then [s.(hi := lo)] else [])
        + [WithSections(lo, hi, Merge(s.sections, [r]))]
        + (if hi < s.hi then [s.(lo := hi)] else [])
  }

  function Add(o: Overlay, a: nat, b: nat, r: Region): Overlay
    decreases |o|
  {
    if |o| == 0 then [] else Split(o[0], a, b, r) + Add(o[1..], a, b, r)
  }

  /** `prio` is null when nothing is left; the source never lets that happen. */
  function Without(s: Segment, r: Region): Segment {
    var left := Difference(s.sections, [r]);
    s.(sections := left, prio := if |left| > 0 then Top(left) else s.prio)
  }

  /** Region `r` taken off every segment; the cuts stay. */
  function Subtract(o: Overlay, r: Region): Overlay
    decreases |o|
  {
    if |o| == 0 then [] else [Without(o[0], r)] + Subtract(o[1..], r)
  }

  /** The segments of the overlay clipped to the pages `[a, b)`. */
  function Clip(o: Overlay, a: nat, b: nat): Overlay
    decreases |o|
  {
    if |o| == 0 then []
    else
      var lo, hi := Max(o[0].lo, a), Min(o[0].hi, b);
      (if lo < hi then [o[0].(lo := lo, hi := hi)] else []) + Clip(o[1..], a, b)
  }

  // ----- what the operations do to the segment of a page -----

  lemma {:induction false} PartitionConcat(x: Overlay, y: Overlay, lo: nat, mid: nat, hi: nat)
    requires Partition(x, lo, mid) && Partition(y, mid, hi)
    ensures lo <= mid <= hi
    ensures Partition(x + y, lo, hi)
    ensures forall p :: lo <= p < hi ==>
              SegAt(x + y, lo, hi, p) == if p < mid then SegAt(x, lo, mid, p) else SegAt(y, mid, hi, p)
    decreases |x|
  {
    PartitionBounds(y, mid, hi);
    if |x| == 0 {
      assert x + y == y;
    } else {
      assert (x + y)[1..] == x[1..] + y;
      PartitionConcat(x[1..], y, x[0].hi, mid, hi);
    }
  }

  lemma {:induction false} PartitionBounds(o: Overlay, lo: nat, hi: nat)
    requires Partition(o, lo, hi)
    ensures lo <= hi
    decreases |o|
  {
    if |o| > 0 { PartitionBounds(o[1..], o[0].hi, hi); }
  }

  /** What adding `r` over `[a, b)` makes of segment `s` at page `p`: the ends of the window are
      the only new cuts. */
  ghost predicate Added(s: Segment, s': Segment, p: nat, a: nat, b: nat, r: Region) {
    if a <= p < b then
      && s'.sections == Merge(s.sections, [r]) && s'.prio == Top(s'.sections)
      && s'.lo == Max(s.lo, a) && s'.hi == Min(s.hi, b)
    else
      && s'.sections == s.sections && s'.prio == s.prio
      && s'.lo == (if a < b && s.lo < b <= p then b else s.lo)
      && s'.hi == (if a < b && p < a < s.hi then a else s.hi)
  }

  lemma SplitAt(s: Segment, a: nat, b: nat, r: Region)
    requires s.lo < s.hi
    ensures Partition(Split(s, a, b, r), s.lo, s.hi)
    ensures forall p :: s.lo <= p < s.hi ==>
              Added(s, SegAt(Split(s, a, b, r), s.lo, s.hi, p), p, a, b, r)
  {
    var lo, hi := Max(s.lo, a), Min(s.hi, b);
    if lo < hi {
      var x := if s.lo < lo then [s.(hi := lo)] else [];
      var y := [WithSections(lo, hi, Merge(s.sections, [r]))];
      var z := if hi < s.hi then [s.(lo := hi)] else [];
      assert Partition(x, s.lo, lo) && Partition(y, lo, hi) && Partition(z, hi, s.hi);
      PartitionConcat(x, y, s.lo, lo, hi);
      PartitionConcat(x + y, z, s.lo, hi, s.hi);
    }
  }

  lemma {:induction false} AddAt(o: Overlay, lo: nat, hi: nat, a: nat, b: nat, r: Region)
    requires Partition(o, lo, hi)
    ensures Partition(Add(o, a, b, r), lo, hi)
    ensures forall p :: lo <= p < hi ==>
              Added(SegAt(o, lo, hi, p), SegAt(Add(o, a, b, r), lo, hi, p), p, a, b, r)
    decreases |o|
  {
    if |o| > 0 {
      SplitAt(o[0], a, b, r);
      AddAt(o[1..], o[0].hi, hi, a, b, r);
      PartitionConcat(Split(o[0], a, b, r), Add(o[1..], a, b, r), lo, o[0].hi, hi);
    }
  }

  lemma {:induction false} SubtractAt(o: Overlay, lo: nat, hi: nat, r: Region)
    requires Partition(o, lo, hi)
    ensures Partition(Subtract(o, r), lo, hi)
    ensures forall p :: lo <= p < hi ==>
              SegAt(Subtract(o, r), lo, hi, p) == Without(SegAt(o, lo, hi, p), r)
    decreases |o|
  {
    if |o| > 0 {
      SubtractAt(o[1..], o[0].hi, hi, r);
      assert Subtract(o, r)[1..] == Subtract(o[1..], r);
    }
  }

  /** The pages of the segments whose top region is `r`. */
  function Intervals(o: Overlay, r: Region): seq<(nat, nat)>
    decreases |o|
  {
    if |o| == 0 then []
    else (if o[0].prio == r then [(o[0].lo, o[0].hi)] else []) + Intervals(o[1..], r)
  }

  function ClipAll(o: Overlay, ivs: seq<(nat, nat)>): Overlay
    decreases |ivs|
  {
    if |ivs| == 0 then [] else Clip(o, ivs[0].0, ivs[0].1) + ClipAll(o, ivs[1..])
  }

  predicate InSome(ivs: seq<(nat, nat)>, p: nat) {
    exists k :: 0 <= k < |ivs| && ivs[k].0 <= p < ivs[k].1
  }

  /** Exactly the pages `r` is on top of, and each interval starts where its segment does. */
  lemma {:induction false} IntervalsAt(o: Overlay, lo: nat, hi: nat, r: Region)
    requires Partition(o, lo, hi)
    ensures forall p :: lo <= p < hi ==> (InSome(Intervals(o, r), p) <==> SegAt(o, lo, hi, p).prio == r)
    ensures forall k :: 0 <= k < |Intervals(o, r)| ==>
              var iv := Intervals(o, r)[k];
              lo <= iv.0 < iv.1 <= hi
              && forall p :: iv.0 <= p < iv.1 ==> SegAt(o, lo, hi, p).lo == iv.0
    decreases |o|
  {
    if |o| > 0 {
      IntervalsAt(o[1..], o[0].hi, hi, r);
      PartitionBounds(o[1..], o[0].hi, hi);
      var x, y := if o[0].prio == r then [(o[0].lo, o[0].hi)] else [], Intervals(o[1..], r);
      forall p | lo <= p < hi
        ensures InSome(x + y, p) <==> SegAt(o, lo, hi, p).prio == r
      {
        InSomeConcat(x, y, p);
        if o[0].prio == r { assert x[0] == (o[0].lo, o[0].hi); }
      }
    }
  }

  lemma InSomeConcat(x: seq<(nat, nat)>, y: seq<(nat, nat)>, p: nat)
    ensures InSome(x + y, p) <==> InSome(x, p) || InSome(y, p)
  {
    if InSome(x, p) {
      var k :| 0 <= k < |x| && x[k].0 <= p < x[k].1;
      assert (x + y)[k] == x[k];
    }
    if InSome(y, p) {
      var k :| 0 <= k < |y| && y[k].0 <= p < y[k].1;
      assert (x + y)[|x| + k] == y[k];
    }
  }
}
