// Nested-table resolution of the table detector: which detected table region lies
// inside which other one on the same page, and how deep each region is nested.
module Nesting {
  import opened Wrappers
  import Collections

  /** A bounding box `(x1, y1, x2, y2)` in page coordinates. */
  datatype BBox = BBox(x1: real, y1: real, x2: real, y2: real)

  /** One detected table region; `parentId` and `nestingLevel` are filled in here. */
  datatype TableRegion = TableRegion(
    tableId: string,
    page: int,
    bbox: BBox,
    parentId: Option<string>,
    nestingLevel: int)

  /** Share of the inner box that the overlap must exceed. */
  const ContainedThreshold: real := 0.85
  /** Inner area over outer area must stay below this, so near-duplicates are not nested. */
  const AreaRatioLimit: real := 0.9

  function Area(b: BBox): real {
    (b.x2 - b.x1) * (b.y2 - b.y1)
  }

  function Max(a: real, b: real): real { if a >= b then a else b }
  function Min(a: real, b: real): real { if a <= b then a else b }

  /** The intersection rectangle of two boxes; it is empty when inverted. */
  function Intersection(a: BBox, b: BBox): BBox {
    BBox(Max(a.x1, b.x1), Max(a.y1, b.y1), Min(a.x2, b.x2), Min(a.y2, b.y2))
  }

  predicate Overlap(a: BBox, b: BBox) {
    var i := Intersection(a, b);
    i.x1 < i.x2 && i.y1 < i.y2
  }

  lemma MulPos(a: real, b: real)
    requires a > 0.0 && b > 0.0
    ensures a * b > 0.0
  {
  }

  lemma DivCompare(a: real, b: real, t: real)
    requires b > 0.0
    ensures a / b > t <==> a > t * b
    ensures a / b < t <==> a < t * b
  {
    assert a == (a / b) * b;
  }

  lemma AreaPositive(b: BBox)
    requires b.x1 < b.x2 && b.y1 < b.y2
    ensures Area(b) > 0.0
  {
    MulPos(b.x2 - b.x1, b.y2 - b.y1);
  }

  /** If two boxes overlap, both have positive area. */
  lemma OverlapAreas(a: BBox, b: BBox)
    requires Overlap(a, b)
    ensures Area(a) > 0.0 && Area(b) > 0.0 && Area(Intersection(a, b)) > 0.0
  {
    var i := Intersection(a, b);
    assert a.x1 <= i.x1 < i.x2 <= a.x2 && a.y1 <= i.y1 < i.y2 <= a.y2;
    assert b.x1 <= i.x1 < i.x2 <= b.x2 && b.y1 <= i.y1 < i.y2 <= b.y2;
    AreaPositive(a);
    AreaPositive(b);
    AreaPositive(i);
  }

  /** `inner` counts as nested in `outer` when they overlap, the overlap covers more than
      85% of `inner`, and `inner` is smaller than 90% of `outer`. The two divisions of the
      detector never divide by zero, since an overlap forces both areas positive. */
  function IsContained(inner: BBox, outer: BBox): (r: bool)
    ensures r ==> Area(inner) < Area(outer)
  {
    var i := Intersection(inner, outer);
    if i.x1 >= i.x2 || i.y1 >= i.y2 then false
    else
      var intersectionArea := Area(i);
      var innerArea := Area(inner);
      OverlapAreas(inner, outer);
      var containedRatio := intersectionArea / innerArea;
      var areaRatio := innerArea / Area(outer);
      DivCompare(intersectionArea, innerArea, ContainedThreshold);
      DivCompare(innerArea, Area(outer), AreaRatioLimit);
      containedRatio > ContainedThreshold && areaRatio < AreaRatioLimit
  }

  /** The nesting test without divisions. */
  lemma IsContainedIff(inner: BBox, outer: BBox)
    ensures IsContained(inner, outer) <==>
              && Overlap(inner, outer)
              && Area(Intersection(inner, outer)) > ContainedThreshold * Area(inner)
              && Area(inner) < AreaRatioLimit * Area(outer)
  {
    if Overlap(inner, outer) {
      OverlapAreas(inner, outer);
      DivCompare(Area(Intersection(inner, outer)), Area(inner), ContainedThreshold);
      DivCompare(Area(inner), Area(outer), AreaRatioLimit);
    }
  }

  /** A box is never nested in itself, nor in a box of the same size. */
  lemma {:induction false} NotContainedInEqualArea(a: BBox, b: BBox)
    requires Area(a) == Area(b)
    ensures !IsContained(a, b)
  {
  }

  /** A box lying wholly inside another whose area is more than 1/0.9 times larger is nested. */
  lemma {:induction false} InsideIsContained(inner: BBox, outer: BBox)
    requires outer.x1 <= inner.x1 < inner.x2 <= outer.x2
    requires outer.y1 <= inner.y1 < inner.y2 <= outer.y2
    requires Area(inner) < AreaRatioLimit * Area(outer)
    ensures IsContained(inner, outer)
  {
    assert Intersection(inner, outer) == inner;
    OverlapAreas(inner, outer);
    IsContainedIff(inner, outer);
  }

  /** Disjoint boxes are never nested. */
  lemma {:induction false} DisjointNotContained(a: BBox, b: BBox)
    requires a.x2 <= b.x1
    ensures !IsContained(a, b)
  {
    assert !Overlap(a, b);
    IsContainedIff(a, b);
  }

  // ---- grouping by page and ordering by area ----

  /** Indices `< n` of the tables on page `p`, in list order. */
  function PageMembersBelow(ts: seq<TableRegion>, p: int, n: nat): seq<nat>
    requires n <= |ts|
  {
    if n == 0 then [] else PageMembersBelow(ts, p, n - 1) + (if ts[n - 1].page == p then [n - 1] else [])
  }

  /** The first `n` tables of page `p`, each once, in increasing order. */
  lemma {:induction false} PageMembersBelowFacts(ts: seq<TableRegion>, p: int, n: nat)
    requires n <= |ts|
    ensures forall k: nat :: k in PageMembersBelow(ts, p, n) <==> k < n && ts[k].page == p
    ensures Collections.Distinct(PageMembersBelow(ts, p, n))
  {
    if n > 0 {
      PageMembersBelowFacts(ts, p, n - 1);
      var init := PageMembersBelow(ts, p, n - 1);
      assert n - 1 !in init;
    }
  }

  lemma {:induction false} NoPageMembers(ts: seq<TableRegion>, p: int, n: nat)
    requires n <= |ts| && forall k :: 0 <= k < n ==> ts[k].page != p
    ensures PageMembersBelow(ts, p, n) == []
  {
    if n > 0 {
      NoPageMembers(ts, p, n - 1);
    }
  }

  function PageMembers(ts: seq<TableRegion>, p: int): seq<nat> {
    PageMembersBelow(ts, p, |ts|)
  }

  function Boxes(ts: seq<TableRegion>): (r: seq<BBox>)
    ensures |r| == |ts| && forall k :: 0 <= k < |ts| ==> r[k] == ts[k].bbox
  {
    seq(|ts|, k requires 0 <= k < |ts| => ts[k].bbox)
  }

  /** The sort key: the area of the table at an index. */
  function AreaKey(boxes: seq<BBox>): nat -> real {
    (k: nat) => if k < |boxes| then Area(boxes[k]) else 0.0
  }

  /** The tables of page `p`, largest area first, equal areas in list order. */
  function PageOrder(ts: seq<TableRegion>, p: int): seq<nat> {
    Collections.SortDesc(PageMembers(ts, p), AreaKey(Boxes(ts)))
  }

  lemma {:induction false} PageOrderFacts(ts: seq<TableRegion>, p: int)
    ensures forall k: nat :: k in PageOrder(ts, p) <==> k < |ts| && ts[k].page == p
    ensures Collections.Distinct(PageOrder(ts, p))
  {
    var m := PageMembers(ts, p);
    PageMembersBelowFacts(ts, p, |ts|);
    Collections.SortDescPerm(m, AreaKey(Boxes(ts)));
    forall k: nat ensures k in PageOrder(ts, p) <==> k in m {
      assert k in PageOrder(ts, p) <==> k in multiset(PageOrder(ts, p));
      assert k in m <==> k in multiset(m);
    }
    Collections.SortDescDistinct(m, AreaKey(Boxes(ts)));
  }

  /** The table index of the last entry among the first `n` of `order` whose box contains
      table `k`, scanning the way the detector's double loop overwrites the parent. */
  function LastOuter(ts: seq<TableRegion>, order: seq<nat>, k: nat, n: nat): (r: Option<nat>)
    requires k < |ts| && n <= |order| && forall q :: 0 <= q < |order| ==> order[q] < |ts|
    ensures r.Some? ==> r.value < |ts| && IsContained(ts[k].bbox, ts[r.value].bbox)
    ensures r.None? <==> forall q :: 0 <= q < n ==> !IsContained(ts[k].bbox, ts[order[q]].bbox)
    ensures r.Some? ==> exists q :: 0 <= q < n && order[q] == r.value
                                    && IsContained(ts[k].bbox, ts[r.value].bbox)
                                    && forall q' :: q < q' < n ==> !IsContained(ts[k].bbox, ts[order[q']].bbox)
  {
    if n == 0 then None
    else if IsContained(ts[k].bbox, ts[order[n - 1]].bbox) then Some(order[n - 1])
    else LastOuter(ts, order, k, n - 1)
  }

  /** The parent after the first `n` outer passes over `order`. */
  function ParentAfter(ts: seq<TableRegion>, order: seq<nat>, k: nat, n: nat): Option<string>
    requires k < |ts| && n <= |order| && forall q :: 0 <= q < |order| ==> order[q] < |ts|
  {
    match LastOuter(ts, order, k, n)
    case Some(o) => Some(ts[o].tableId)
    case None => ts[k].parentId
  }

  lemma PageOrderBounded(ts: seq<TableRegion>, p: int)
    ensures forall q :: 0 <= q < |PageOrder(ts, p)| ==> PageOrder(ts, p)[q] < |ts|
  {
    PageOrderFacts(ts, p);
    forall q | 0 <= q < |PageOrder(ts, p)| ensures PageOrder(ts, p)[q] < |ts| {
      assert PageOrder(ts, p)[q] in PageOrder(ts, p);
    }
  }

  /** The table whose box encloses table `k` and comes last in its page's largest-first
      order, if any: the one the detector's double loop writes last. */
  function Enclosing(ts: seq<TableRegion>, k: nat): Option<nat>
    requires k < |ts|
  {
    PageOrderBounded(ts, ts[k].page);
    var order := PageOrder(ts, ts[k].page);
    LastOuter(ts, order, k, |order|)
  }

  /** The parent the detector gives table `k`: its enclosing table, or the parent it
      already had if none encloses it. */
  function ExpectedParent(ts: seq<TableRegion>, k: nat): Option<string>
    requires k < |ts|
  {
    match Enclosing(ts, k)
    case Some(o) => Some(ts[o].tableId)
    case None => ts[k].parentId
  }

  function WithParents(ts: seq<TableRegion>): (r: seq<TableRegion>)
    ensures |r| == |ts|
    ensures forall k :: 0 <= k < |ts| ==> r[k] == ts[k].(parentId := ExpectedParent(ts, k))
  {
    seq(|ts|, k requires 0 <= k < |ts| => ts[k].(parentId := ExpectedParent(ts, k)))
  }

  /** No enclosing table exactly when no table of the same page contains table `k`;
      otherwise the enclosing table is on the page, contains `k`, and is the smallest
      such table: sorting largest first makes the tightest box the last to be written. */
  lemma {:induction false} EnclosingSpec(ts: seq<TableRegion>, k: nat)
    requires k < |ts|
    ensures Enclosing(ts, k).None? <==>
      forall j :: 0 <= j < |ts| && ts[j].page == ts[k].page ==> !IsContained(ts[k].bbox, ts[j].bbox)
    ensures Enclosing(ts, k).Some? ==>
      var o := Enclosing(ts, k).value;
      && o < |ts| && ts[o].page == ts[k].page && IsContained(ts[k].bbox, ts[o].bbox)
      && Area(ts[o].bbox) > Area(ts[k].bbox)
      && forall j :: 0 <= j < |ts| && ts[j].page == ts[k].page && IsContained(ts[k].bbox, ts[j].bbox)
                     ==> Area(ts[o].bbox) <= Area(ts[j].bbox)
  {
    var p := ts[k].page;
    PageOrderFacts(ts, p);
    PageOrderBounded(ts, p);
    var order := PageOrder(ts, p);
    var r := LastOuter(ts, order, k, |order|);
    if r.Some? {
      var o := r.value;
      var q :| 0 <= q < |order| && order[q] == o && IsContained(ts[k].bbox, ts[o].bbox)
               && forall q' :: q < q' < |order| ==> !IsContained(ts[k].bbox, ts[order[q']].bbox);
      assert o in order;
      forall j | 0 <= j < |ts| && ts[j].page == p && IsContained(ts[k].bbox, ts[j].bbox)
        ensures Area(ts[o].bbox) <= Area(ts[j].bbox)
      {
        var jn: nat := j;
        assert jn in order;
        var q'' :| 0 <= q'' < |order| && order[q''] == jn;
        assert q'' <= q;
        if q'' < q {
          assert AreaKey(Boxes(ts))(order[q'']) >= AreaKey(Boxes(ts))(order[q]);
        }
      }
    } else {
      forall j | 0 <= j < |ts| && ts[j].page == p
        ensures !IsContained(ts[k].bbox, ts[j].bbox)
      {
        var jn: nat := j;
        assert jn in order;
      }
    }
  }

  /** The page index after the first `n` tables: each page seen so far maps to its
      tables in list order. */
  function PageIndex(ts: seq<TableRegion>, n: nat): map<int, seq<nat>>
    requires n <= |ts|
  {
    if n == 0 then map[]
    else
      var m := PageIndex(ts, n - 1);
      var p := ts[n - 1].page;
      var m' := if p !in m then m[p := []] else m;
      m'[p := m'[p] + [n - 1]]
  }

  /** The pages seen among the first `n` tables, in the order the index's keys were added. */
  function PagesSeen(ts: seq<TableRegion>, n: nat): seq<int>
    requires n <= |ts|
  {
    if n == 0 then []
    else if ts[n - 1].page !in PageIndex(ts, n - 1) then PagesSeen(ts, n - 1) + [ts[n - 1].page]
    else PagesSeen(ts, n - 1)
  }

  lemma {:induction false} PageIndexKeys(ts: seq<TableRegion>, n: nat, p: int)
    requires n <= |ts|
    ensures p in PageIndex(ts, n) <==> p in PagesSeen(ts, n)
  {
    if n > 0 {
      PageIndexKeys(ts, n - 1, p);
    }
  }

  /** The index lists every table of the first `n` under its page. */
  lemma {:induction false} PageIndexCovers(ts: seq<TableRegion>, n: nat, k: nat)
    requires k < n <= |ts|
    ensures ts[k].page in PageIndex(ts, n)
  {
    if k < n - 1 {
      PageIndexCovers(ts, n - 1, k);
    }
  }

  /** A page's list is exactly that page's tables among the first `n`, in order. */
  lemma {:induction false} PageIndexMembers(ts: seq<TableRegion>, n: nat, p: int)
    requires n <= |ts| && p in PageIndex(ts, n)
    ensures PageIndex(ts, n)[p] == PageMembersBelow(ts, p, n)
  {
    var q := ts[n - 1].page;
    if p in PageIndex(ts, n - 1) {
      PageIndexMembers(ts, n - 1, p);
    } else {
      NoPageMembersOutside(ts, n - 1, p);
    }
    if p == q {
      assert PageMembersBelow(ts, p, n) == PageMembersBelow(ts, p, n - 1) + [n - 1];
    } else {
      assert PageMembersBelow(ts, p, n) == PageMembersBelow(ts, p, n - 1) + [];
    }
  }

  /** A page not yet in the index has no tables among the first `n`. */
  lemma {:induction false} NoPageMembersOutside(ts: seq<TableRegion>, n: nat, p: int)
    requires n <= |ts| && p !in PageIndex(ts, n)
    ensures PageMembersBelow(ts, p, n) == []
  {
    forall k | 0 <= k < n ensures ts[k].page != p {
      PageIndexCovers(ts, n, k);
    }
    NoPageMembers(ts, p, n);
  }

  /** Each page appears once in the order of first appearance. */
  lemma {:induction false} PagesSeenDistinct(ts: seq<TableRegion>, n: nat)
    requires n <= |ts|
    ensures Collections.Distinct(PagesSeen(ts, n))
  {
    if n > 0 {
      PagesSeenDistinct(ts, n - 1);
      var p := ts[n - 1].page;
      if p !in PageIndex(ts, n - 1) {
        PageIndexKeys(ts, n - 1, p);
      }
    }
  }

  /** The page index the detector builds: each page's tables in list order, and the
      pages in the order they first appear. */
  method GroupByPage(tables: array<TableRegion>) returns (byPage: map<int, seq<nat>>, pages: seq<int>)
    ensures byPage == PageIndex(tables[..], tables.Length)
    ensures pages == PagesSeen(tables[..], tables.Length)
  {
    ghost var ts := tables[..];
    byPage := map[];
    pages := [];
    for t := 0 to tables.Length
      invariant byPage == PageIndex(ts, t)
      invariant pages == PagesSeen(ts, t)
    {
      var p := tables[t].page;
      if p !in byPage {
        byPage := byPage[p := []];
        pages := pages + [p];
      }
      byPage := byPage[p := byPage[p] + [t]];
    }
  }

  lemma ParentAfterStep(ts: seq<TableRegion>, order: seq<nat>, k: nat, i: nat)
    requires k < |ts| && i < |order| && forall q :: 0 <= q < |order| ==> order[q] < |ts|
    ensures ParentAfter(ts, order, k, i + 1) ==
      if IsContained(ts[k].bbox, ts[order[i]].bbox) then Some(ts[order[i]].tableId) else ParentAfter(ts, order, k, i)
  {
  }

  /** Every table of `order` carries the parent it has after `n` outer positions. */
  ghost predicate ParentsAfter(cur: seq<TableRegion>, orig: seq<TableRegion>, order: seq<nat>, n: nat)
    requires |cur| == |orig| && n <= |order| && forall q :: 0 <= q < |order| ==> order[q] < |orig|
  {
    forall q :: 0 <= q < |order| ==>
      cur[order[q]] == orig[order[q]].(parentId := ParentAfter(orig, order, order[q], n))
  }

  /** Mid-way through outer position `i`: the tables of `order` before inner position `j`
      carry the parent after `i + 1` outer positions, the others the parent after `i`. */
  ghost predicate InnerDone(cur: seq<TableRegion>, orig: seq<TableRegion>, order: seq<nat>, i: nat, j: nat)
    requires |cur| == |orig| && i < |order| && forall q :: 0 <= q < |order| ==> order[q] < |orig|
  {
    forall q :: 0 <= q < |order| ==>
      cur[order[q]] == orig[order[q]].(parentId := ParentAfter(orig, order, order[q], if q < j then i + 1 else i))
  }

  /** Only tables of `order` differ between the two states. */
  ghost predicate SameOutside(cur: seq<TableRegion>, prev: seq<TableRegion>, order: seq<nat>)
    requires |cur| == |prev|
  {
    forall k :: 0 <= k < |cur| && k !in order ==> cur[k] == prev[k]
  }

  lemma InnerStart(cur: seq<TableRegion>, orig: seq<TableRegion>, order: seq<nat>, i: nat)
    requires |cur| == |orig| && i < |order| && forall q :: 0 <= q < |order| ==> order[q] < |orig|
    requires ParentsAfter(cur, orig, order, i)
    ensures InnerDone(cur, orig, order, i, 0)
  {
  }

  lemma InnerEnd(cur: seq<TableRegion>, orig: seq<TableRegion>, order: seq<nat>, i: nat)
    requires |cur| == |orig| && i < |order| && forall q :: 0 <= q < |order| ==> order[q] < |orig|
    requires InnerDone(cur, orig, order, i, |order|)
    ensures ParentsAfter(cur, orig, order, i + 1)
  {
  }

  /** Writing one table of `order` keeps the tables outside `order` as they were. */
  lemma SameOutsideWrite(pre: seq<TableRegion>, prev: seq<TableRegion>, order: seq<nat>, j: nat, v: TableRegion)
    requires |pre| == |prev| && j < |order| && order[j] < |pre|
    requires SameOutside(pre, prev, order)
    ensures SameOutside(pre[order[j] := v], prev, order)
  {
  }

  lemma SameOutsideTrans(a: seq<TableRegion>, b: seq<TableRegion>, c: seq<TableRegion>, order: seq<nat>)
    requires |a| == |b| == |c| && SameOutside(a, b, order) && SameOutside(b, c, order)
    ensures SameOutside(a, c, order)
  {
  }

  /** One outer position `i` of a page's order: every other table of the page whose box
      lies in `order[i]`'s box takes it as parent. */
  method AssignFromOuter(tables: array<TableRegion>, order: seq<nat>, i: nat, ghost orig: seq<TableRegion>)
    requires |orig| == tables.Length && i < |order|
    requires forall q :: 0 <= q < |order| ==> order[q] < |orig|
    requires Collections.Distinct(order)
    requires ParentsAfter(tables[..], orig, order, i)
    modifies tables
    ensures ParentsAfter(tables[..], orig, order, i + 1)
    ensures SameOutside(tables[..], old(tables[..]), order)
  {
    InnerStart(tables[..], orig, order, i);
    for j := 0 to |order|
      invariant InnerDone(tables[..], orig, order, i, j)
      invariant SameOutside(tables[..], old(tables[..]), order)
    {
      ghost var pre := tables[..];
      AssignInner(tables, order, i, j, orig);
      SameOutsideWrite(pre, old(tables[..]), order, j, tables[order[j]]);
    }
    InnerEnd(tables[..], orig, order, i);
  }

  /** The inner position `j` for outer position `i`: the table at `order[j]` takes
      `order[i]` as parent when it is another table whose box lies in `order[i]`'s box. */
  method AssignInner(tables: array<TableRegion>, order: seq<nat>, i: nat, j: nat, ghost orig: seq<TableRegion>)
    requires |orig| == tables.Length && i < |order| && j < |order|
    requires forall q :: 0 <= q < |order| ==> order[q] < |orig|
    requires Collections.Distinct(order)
    requires InnerDone(tables[..], orig, order, i, j)
    modifies tables
    ensures InnerDone(tables[..], orig, order, i, j + 1)
    ensures tables[..] == old(tables[..])[order[j] := tables[order[j]]]
  {
    ghost var pre := tables[..];
    var inner := tables[order[j]];
    if i != j && IsContained(inner.bbox, tables[order[i]].bbox) {
      inner := inner.(parentId := Some(tables[order[i]].tableId));
    }
    tables[order[j]] := inner;
    assert tables[..] == pre[order[j] := inner];
    OuterStep(orig, order, i, j, pre, inner);
  }

  /** The inner step at position `j`: only `order[j]` changes, and it moves from the
      parent after `i` outer positions to the parent after `i + 1`. */
  lemma OuterStep(orig: seq<TableRegion>, order: seq<nat>, i: nat, j: nat, pre: seq<TableRegion>, inner: TableRegion)
    requires |pre| == |orig| && i < |order| && j < |order|
    requires forall q :: 0 <= q < |order| ==> order[q] < |orig|
    requires Collections.Distinct(order)
    requires InnerDone(pre, orig, order, i, j)
    requires inner ==
      if i != j && IsContained(pre[order[j]].bbox, pre[order[i]].bbox)
      then pre[order[j]].(parentId := Some(pre[order[i]].tableId)) else pre[order[j]]
    ensures InnerDone(pre[order[j] := inner], orig, order, i, j + 1)
  {
    ParentAfterStep(orig, order, order[j], i);
    var post := pre[order[j] := inner];
    forall q | 0 <= q < |order|
      ensures post[order[q]] == orig[order[q]].(parentId := ParentAfter(orig, order, order[q], if q < j + 1 then i + 1 else i))
    {
      if q != j {
        assert order[q] != order[j];
      }
    }
  }

  /** The double loop over one page, outer positions in the page's largest-first order. */
  method AssignPage(tables: array<TableRegion>, order: seq<nat>, ghost orig: seq<TableRegion>)
    requires |orig| == tables.Length
    requires forall q :: 0 <= q < |order| ==> order[q] < |orig|
    requires Collections.Distinct(order)
    requires ParentsAfter(tables[..], orig, order, 0)
    modifies tables
    ensures ParentsAfter(tables[..], orig, order, |order|)
    ensures SameOutside(tables[..], old(tables[..]), order)
  {
    for i := 0 to |order|
      invariant ParentsAfter(tables[..], orig, order, i)
      invariant SameOutside(tables[..], old(tables[..]), order)
    {
      ghost var pre := tables[..];
      AssignFromOuter(tables, order, i, orig);
      SameOutsideTrans(tables[..], pre, old(tables[..]), order);
    }
  }

  /** The parent-assignment half of the detector: group the tables by page, sort each page
      largest area first, and for every ordered pair of distinct positions set the inner
      table's parent to the outer one when it is contained. */
  method AssignParents(tables: array<TableRegion>)
    modifies tables
    ensures tables[..] == WithParents(old(tables[..]))
  {
    ghost var orig := tables[..];
    var boxes := Boxes(tables[..]);
    var byPage, pages := GroupByPage(tables);
    PagesSeenDistinct(orig, |orig|);
    for pi := 0 to |pages|
      invariant PagesDone(tables[..], orig, pages, pi)
    {
      var p := pages[pi];
      PageIndexKeys(orig, |orig|, p);
      PageIndexMembers(orig, |orig|, p);
      var order := Collections.SortDesc(byPage[p], AreaKey(boxes));
      assert order == PageOrder(orig, p);
      PageOrderFacts(orig, p);
      PageOrderBounded(orig, p);
      Collections.DistinctPrefix(pages, pi);
      ghost var pre := tables[..];
      PageStart(orig, pre, pages, pi, order);
      AssignPage(tables, order, orig);
      PageDone(orig, pre, tables[..], pages, pi, order);
    }
    forall k | 0 <= k < |orig| ensures orig[k].page in pages[..|pages|] {
      PageIndexCovers(orig, |orig|, k);
      PageIndexKeys(orig, |orig|, orig[k].page);
      assert pages[..|pages|] == pages;
    }
  }

  /** The tables of the first `n` pages of `pages` carry their final parent, the others
      their original one. */
  ghost predicate PagesDone(cur: seq<TableRegion>, orig: seq<TableRegion>, pages: seq<int>, n: nat)
    requires n <= |pages|
  {
    |cur| == |orig| &&
    forall k :: 0 <= k < |cur| ==>
      cur[k] == if orig[k].page in pages[..n] then orig[k].(parentId := ExpectedParent(orig, k)) else orig[k]
  }

  /** Before page `pages[n]` is processed its tables are untouched. */
  lemma PageStart(orig: seq<TableRegion>, pre: seq<TableRegion>, pages: seq<int>, n: nat, order: seq<nat>)
    requires n < |pages| && PagesDone(pre, orig, pages, n) && pages[n] !in pages[..n]
    requires order == PageOrder(orig, pages[n]) && forall q :: 0 <= q < |order| ==> order[q] < |orig|
    ensures ParentsAfter(pre, orig, order, 0)
  {
    PageOrderFacts(orig, pages[n]);
    forall q | 0 <= q < |order|
      ensures pre[order[q]] == orig[order[q]].(parentId := ParentAfter(orig, order, order[q], 0))
    {
      assert order[q] in order;
    }
  }

  /** Once page `pages[n]` is processed its tables carry their final parent. */
  lemma PageDone(orig: seq<TableRegion>, pre: seq<TableRegion>, post: seq<TableRegion>, pages: seq<int>, n: nat, order: seq<nat>)
    requires n < |pages| && PagesDone(pre, orig, pages, n) && pages[n] !in pages[..n] && |post| == |pre|
    requires order == PageOrder(orig, pages[n]) && forall q :: 0 <= q < |order| ==> order[q] < |orig|
    requires ParentsAfter(post, orig, order, |order|) && SameOutside(post, pre, order)
    ensures PagesDone(post, orig, pages, n + 1)
  {
    PageOrderFacts(orig, pages[n]);
    forall k | 0 <= k < |post|
      ensures post[k] == if orig[k].page in pages[..n + 1] then orig[k].(parentId := ExpectedParent(orig, k)) else orig[k]
    {
      Collections.PrefixGrow(pages, n, orig[k].page);
      if k in order {
        var q :| 0 <= q < |order| && order[q] == k;
      }
    }
  }

  // ---- nesting levels ----

  function TableIdOf(t: TableRegion): string { t.tableId }

  /** `{table_id: i for i, table in enumerate(tables)}`. */
  function IdIndex(ts: seq<TableRegion>): map<string, nat> {
    Collections.LastIndexMap(ts, TableIdOf)
  }

  predicate UniqueIds(ts: seq<TableRegion>) {
    forall i, j :: 0 <= i < j < |ts| ==> ts[i].tableId != ts[j].tableId
  }

  /** Every parent id names a table of the list, and that table has a strictly larger
      area. The detector's tables start parentless, and parent assignment keeps this. */
  predicate ParentsLarger(ts: seq<TableRegion>) {
    forall i :: 0 <= i < |ts| && ts[i].parentId.Some? ==>
      ts[i].parentId.value in IdIndex(ts)
      && Area(ts[IdIndex(ts)[ts[i].parentId.value]].bbox) > Area(ts[i].bbox)
  }

  function ParentIndex(ts: seq<TableRegion>, i: nat): (p: nat)
    requires i < |ts| && ParentsLarger(ts) && ts[i].parentId.Some?
    ensures p < |ts| && Area(ts[p].bbox) > Area(ts[i].bbox)
  {
    IdIndex(ts)[ts[i].parentId.value]
  }

  /** How many of the first `n` tables have an area strictly larger than `a`. */
  function CountLarger(ts: seq<TableRegion>, a: real, n: nat): (c: nat)
    requires n <= |ts|
    ensures c <= n
  {
    if n == 0 then 0 else CountLarger(ts, a, n - 1) + (if Area(ts[n - 1].bbox) > a then 1 else 0)
  }

  lemma {:induction false} CountLargerMono(ts: seq<TableRegion>, a: real, b: real, n: nat)
    requires n <= |ts| && a >= b
    ensures CountLarger(ts, a, n) <= CountLarger(ts, b, n)
  {
    if n > 0 {
      CountLargerMono(ts, a, b, n - 1);
    }
  }

  lemma {:induction false} CountLargerStrict(ts: seq<TableRegion>, a: real, b: real, p: nat, n: nat)
    requires p < n <= |ts| && b < Area(ts[p].bbox) <= a
    ensures CountLarger(ts, a, n) < CountLarger(ts, b, n)
  {
    if p == n - 1 {
      CountLargerMono(ts, a, b, n - 1);
    } else {
      CountLargerStrict(ts, a, b, p, n - 1);
    }
  }

  lemma {:induction false} CountLargerExcludesSelf(ts: seq<TableRegion>, i: nat, n: nat)
    requires i < n <= |ts|
    ensures CountLarger(ts, Area(ts[i].bbox), n) <= n - 1
  {
    if i < n - 1 {
      CountLargerExcludesSelf(ts, i, n - 1);
    }
  }

  /** The number of tables with a strictly larger area; a parent's is strictly less. */
  function Rank(ts: seq<TableRegion>, i: nat): nat
    requires i < |ts|
  {
    CountLarger(ts, Area(ts[i].bbox), |ts|)
  }

  lemma RankDecreases(ts: seq<TableRegion>, i: nat, p: nat)
    requires i < |ts| && p < |ts| && Area(ts[p].bbox) > Area(ts[i].bbox)
    ensures Rank(ts, p) < Rank(ts, i)
  {
    CountLargerStrict(ts, Area(ts[p].bbox), Area(ts[i].bbox), p, |ts|);
  }

  /** The length of the parent chain above table `i`. */
  function Depth(ts: seq<TableRegion>, i: nat): nat
    requires i < |ts| && ParentsLarger(ts)
    decreases Rank(ts, i)
  {
    if ts[i].parentId.None? then 0
    else
      var p := ParentIndex(ts, i);
      RankDecreases(ts, i, p);
      1 + Depth(ts, p)
  }

  /** A nesting level never exceeds the number of larger tables, hence never the number
      of tables minus one. */
  lemma {:induction false} DepthBound(ts: seq<TableRegion>, i: nat)
    requires i < |ts| && ParentsLarger(ts)
    ensures Depth(ts, i) <= Rank(ts, i) <= |ts| - 1
    decreases Rank(ts, i)
  {
    CountLargerExcludesSelf(ts, i, |ts|);
    if ts[i].parentId.Some? {
      var p := ParentIndex(ts, i);
      RankDecreases(ts, i, p);
      DepthBound(ts, p);
    }
  }

  function Levels(ts: seq<TableRegion>): (r: seq<int>)
    ensures |r| == |ts| && forall k :: 0 <= k < |ts| ==> r[k] == ts[k].nestingLevel
  {
    seq(|ts|, k requires 0 <= k < |ts| => ts[k].nestingLevel)
  }

  function Depths(ts: seq<TableRegion>): (r: seq<nat>)
    requires ParentsLarger(ts)
    ensures |r| == |ts| && forall k :: 0 <= k < |ts| ==> r[k] == Depth(ts, k)
  {
    seq(|ts|, k requires 0 <= k < |ts| => Depth(ts, k))
  }

  /** Total distance of the levels below their final values; it bounds the work left. */
  function Gap(ds: seq<nat>, ls: seq<int>): int
    requires |ds| == |ls|
  {
    if |ds| == 0 then 0 else Gap(ds[..|ds| - 1], ls[..|ls| - 1]) + (ds[|ds| - 1] - ls[|ls| - 1])
  }

  lemma {:induction false} GapNonNegative(ds: seq<nat>, ls: seq<int>)
    requires |ds| == |ls| && forall k :: 0 <= k < |ls| ==> ls[k] <= ds[k]
    ensures Gap(ds, ls) >= 0
  {
    if |ds| > 0 {
      GapNonNegative(ds[..|ds| - 1], ls[..|ls| - 1]);
    }
  }

  lemma {:induction false} GapRaise(ds: seq<nat>, ls: seq<int>, k: nat, v: int)
    requires |ds| == |ls| && k < |ls| && v > ls[k]
    ensures Gap(ds, ls[k := v]) < Gap(ds, ls)
  {
    var n := |ls|;
    if k < n - 1 {
      assert ls[k := v][..n - 1] == ls[..n - 1][k := v];
      GapRaise(ds[..n - 1], ls[..n - 1], k, v);
    } else {
      assert ls[k := v][..n - 1] == ls[..n - 1];
    }
  }

  /** Levels that are at most the depths, non-negative, and strictly above every parent's
      level are exactly the depths. */
  lemma {:induction false} FixpointIsDepth(ts: seq<TableRegion>, cur: seq<TableRegion>, i: nat)
    requires ParentsLarger(ts) && |cur| == |ts| && i < |ts|
    requires WithinDepth(ts, cur) && AboveParents(ts, cur, |ts|)
    ensures cur[i].nestingLevel == Depth(ts, i)
    decreases Rank(ts, i)
  {
    if ts[i].parentId.Some? {
      var p := ParentIndex(ts, i);
      RankDecreases(ts, i, p);
      FixpointIsDepth(ts, cur, p);
    }
  }

  /** Only the nesting levels differ between `orig` and `cur`. */
  predicate LevelsOnly(orig: seq<TableRegion>, cur: seq<TableRegion>) {
    |cur| == |orig| && forall k :: 0 <= k < |cur| ==> cur[k] == orig[k].(nestingLevel := cur[k].nestingLevel)
  }

  predicate WithinDepth(orig: seq<TableRegion>, cur: seq<TableRegion>)
    requires ParentsLarger(orig) && |cur| == |orig|
  {
    forall k :: 0 <= k < |cur| ==> 0 <= cur[k].nestingLevel <= Depth(orig, k)
  }

  /** Each of the first `n` tables with a parent sits strictly deeper than its parent. */
  predicate AboveParents(orig: seq<TableRegion>, cur: seq<TableRegion>, n: nat)
    requires ParentsLarger(orig) && |cur| == |orig| && n <= |cur|
  {
    forall k :: 0 <= k < n && orig[k].parentId.Some? ==>
      cur[k].nestingLevel > cur[ParentIndex(orig, k)].nestingLevel
  }

  lemma SetLevelKeeps(orig: seq<TableRegion>, cur: seq<TableRegion>, k: nat, v: int)
    requires ParentsLarger(orig) && LevelsOnly(orig, cur) && WithinDepth(orig, cur)
    requires k < |cur| && 0 <= v <= Depth(orig, k)
    ensures LevelsOnly(orig, cur[k := cur[k].(nestingLevel := v)])
    ensures WithinDepth(orig, cur[k := cur[k].(nestingLevel := v)])
    ensures Levels(cur[k := cur[k].(nestingLevel := v)]) == Levels(cur)[k := v]
  {
  }

  /** The state of the level loop: only levels changed, each between 0 and its depth. */
  ghost predicate Raising(orig: seq<TableRegion>, cur: seq<TableRegion>) {
    ParentsLarger(orig) && LevelsOnly(orig, cur) && WithinDepth(orig, cur)
  }

  /** The loop's measure: how far the levels still are below the depths. */
  ghost function GapOf(orig: seq<TableRegion>, cur: seq<TableRegion>): int
    requires Raising(orig, cur)
  {
    Gap(Depths(orig), Levels(cur))
  }

  lemma AboveParentsStep(orig: seq<TableRegion>, cur: seq<TableRegion>, k: nat)
    requires ParentsLarger(orig) && |cur| == |orig| && k < |cur| && AboveParents(orig, cur, k)
    requires orig[k].parentId.Some? ==> cur[k].nestingLevel > cur[ParentIndex(orig, k)].nestingLevel
    ensures AboveParents(orig, cur, k + 1)
  {
  }

  /** Raising table `k`'s level to at most its depth keeps the loop state and shrinks
      the measure. */
  lemma RaiseStep(orig: seq<TableRegion>, cur: seq<TableRegion>, k: nat, v: int)
    requires Raising(orig, cur) && k < |cur| && cur[k].nestingLevel < v <= Depth(orig, k)
    ensures Raising(orig, cur[k := cur[k].(nestingLevel := v)])
    ensures GapOf(orig, cur[k := cur[k].(nestingLevel := v)]) < GapOf(orig, cur)
  {
    SetLevelKeeps(orig, cur, k, v);
    GapRaise(Depths(orig), Levels(cur), k, v);
  }

  /** One pass of the `while changed` loop. */
  method RaisePass(tables: array<TableRegion>, index: map<string, nat>, ghost orig: seq<TableRegion>)
    returns (changed: bool)
    requires index == IdIndex(orig) && Raising(orig, tables[..])
    modifies tables
    ensures Raising(orig, tables[..])
    ensures changed ==> GapOf(orig, tables[..]) < GapOf(orig, old(tables[..]))
    ensures !changed ==> tables[..] == old(tables[..]) && AboveParents(orig, tables[..], |orig|)
  {
    ghost var before := tables[..];
    changed := false;
    for k := 0 to tables.Length
      invariant Raising(orig, tables[..])
      invariant !changed ==> tables[..] == before && AboveParents(orig, tables[..], k)
      invariant changed ==> GapOf(orig, tables[..]) < GapOf(orig, before)
    {
      if tables[k].parentId.Some? {
        var p := index[tables[k].parentId.value];
        assert p == ParentIndex(orig, k);
        if tables[k].nestingLevel <= tables[p].nestingLevel {
          ghost var cur := tables[..];
          var level := tables[p].nestingLevel + 1;
          DepthAboveParent(orig, cur, k);
          RaiseStep(orig, cur, k, level);
          tables[k] := tables[k].(nestingLevel := level);
          assert tables[..] == cur[k := cur[k].(nestingLevel := level)];
          changed := true;
        } else {
          if !changed { AboveParentsStep(orig, tables[..], k); }
        }
      } else {
        if !changed { AboveParentsStep(orig, tables[..], k); }
      }
    }
  }

  /** A child's depth exceeds its parent's current level. */
  lemma DepthAboveParent(orig: seq<TableRegion>, cur: seq<TableRegion>, k: nat)
    requires Raising(orig, cur) && k < |cur| && orig[k].parentId.Some?
    ensures cur[ParentIndex(orig, k)].nestingLevel + 1 <= Depth(orig, k)
  {
  }

  lemma WithinDepthGap(orig: seq<TableRegion>, cur: seq<TableRegion>)
    requires Raising(orig, cur)
    ensures GapOf(orig, cur) >= 0
  {
    GapNonNegative(Depths(orig), Levels(cur));
  }

  method ResetLevels(tables: array<TableRegion>)
    modifies tables
    ensures LevelsOnly(old(tables[..]), tables[..])
    ensures forall k :: 0 <= k < tables.Length ==> tables[k].nestingLevel == 0
  {
    for t := 0 to tables.Length
      invariant forall k :: 0 <= k < tables.Length ==>
        tables[k] == old(tables[k]).(nestingLevel := if k < t then 0 else old(tables[k]).nestingLevel)
    {
      tables[t] := tables[t].(nestingLevel := 0);
    }
  }

  lemma ResetIsRaising(orig: seq<TableRegion>, cur: seq<TableRegion>)
    requires ParentsLarger(orig) && LevelsOnly(orig, cur)
    requires forall k :: 0 <= k < |cur| ==> cur[k].nestingLevel == 0
    ensures Raising(orig, cur)
  {
  }

  /** The `while changed` loop: passes until one changes nothing. */
  method RaiseUntilStable(tables: array<TableRegion>, index: map<string, nat>, ghost orig: seq<TableRegion>)
    requires index == IdIndex(orig) && Raising(orig, tables[..])
    modifies tables
    ensures Raising(orig, tables[..]) && AboveParents(orig, tables[..], |orig|)
  {
    var changed := true;
    WithinDepthGap(orig, tables[..]);
    while changed
      invariant Raising(orig, tables[..])
      invariant !changed ==> AboveParents(orig, tables[..], |orig|)
      invariant GapOf(orig, tables[..]) >= 0
      decreases GapOf(orig, tables[..]), changed
    {
      changed := RaisePass(tables, index, orig);
      WithinDepthGap(orig, tables[..]);
    }
  }

  /** The nesting-level half of the detector: reset every level to 0, then repeat passes
      over the list raising a level to its parent's plus one while any level changes. The
      result is each table's parent-chain length. */
  method CalculateNestingLevels(tables: array<TableRegion>)
    requires ParentsLarger(tables[..])
    modifies tables
    ensures tables[..] == NestedLevels(old(tables[..]))
  {
    ghost var orig := tables[..];
    var index := IdIndex(tables[..]);
    ResetLevels(tables);
    ResetIsRaising(orig, tables[..]);
    RaiseUntilStable(tables, index, orig);
    FixpointIsNested(orig, tables[..]);
  }

  /** When no pass changes anything the levels are the depths. */
  lemma FixpointIsNested(orig: seq<TableRegion>, cur: seq<TableRegion>)
    requires Raising(orig, cur)
    requires AboveParents(orig, cur, |orig|)
    ensures cur == NestedLevels(orig)
  {
    forall k | 0 <= k < |cur| ensures cur[k] == NestedLevels(orig)[k] {
      FixpointIsDepth(orig, cur, k);
    }
  }

  function NestedLevels(ts: seq<TableRegion>): (r: seq<TableRegion>)
    requires ParentsLarger(ts)
    ensures |r| == |ts| && forall k :: 0 <= k < |ts| ==> r[k] == ts[k].(nestingLevel := Depth(ts, k))
  {
    seq(|ts|, k requires 0 <= k < |ts| => ts[k].(nestingLevel := Depth(ts, k)))
  }

  lemma NewParentLarger(ts: seq<TableRegion>, i: nat)
    requires UniqueIds(ts) && ParentsLarger(ts) && i < |ts| && ExpectedParent(ts, i).Some?
    ensures ExpectedParent(ts, i).value in IdIndex(ts)
    ensures Area(ts[IdIndex(ts)[ExpectedParent(ts, i).value]].bbox) > Area(ts[i].bbox)
  {
    EnclosingSpec(ts, i);
    match Enclosing(ts, i)
    case Some(o) =>
      Collections.LastIndexMapDistinct(ts, TableIdOf, o);
    case None =>
  }

  /** The parent assignment keeps parents resolvable and strictly larger, so the level
      computation that follows terminates. */
  lemma {:induction false} WithParentsLarger(ts: seq<TableRegion>)
    requires UniqueIds(ts) && ParentsLarger(ts)
    ensures ParentsLarger(WithParents(ts))
  {
    var ws := WithParents(ts);
    Collections.LastIndexMapSameKeys(ws, ts, TableIdOf);
    assert IdIndex(ws) == IdIndex(ts);
    forall i | 0 <= i < |ws| && ws[i].parentId.Some?
      ensures ws[i].parentId.value in IdIndex(ws)
              && Area(ws[IdIndex(ws)[ws[i].parentId.value]].bbox) > Area(ws[i].bbox)
    {
      NewParentLarger(ts, i);
      var j := IdIndex(ts)[ws[i].parentId.value];
      assert ws[j].bbox == ts[j].bbox;
    }
  }

  /** `_detect_nested_relationships`: parents first, then levels. */
  method DetectNestedRelationships(tables: array<TableRegion>)
    requires UniqueIds(tables[..]) && ParentsLarger(tables[..])
    modifies tables
    ensures ParentsLarger(WithParents(old(tables[..])))
    ensures tables[..] == NestedLevels(WithParents(old(tables[..])))
  {
    ghost var orig := tables[..];
    AssignParents(tables);
    WithParentsLarger(orig);
    CalculateNestingLevels(tables);
  }

  /** After detection every table without a parent is at level 0, and every other table is
      exactly one level below its parent. */
  lemma {:induction false} LevelsFollowParents(ts: seq<TableRegion>, k: nat)
    requires ParentsLarger(ts) && k < |ts|
    ensures ts[k].parentId.None? ==> NestedLevels(ts)[k].nestingLevel == 0
    ensures ts[k].parentId.Some? ==>
      NestedLevels(ts)[k].nestingLevel == NestedLevels(ts)[ParentIndex(ts, k)].nestingLevel + 1
    ensures 0 <= NestedLevels(ts)[k].nestingLevel <= |ts| - 1
  {
    DepthBound(ts, k);
  }
}
