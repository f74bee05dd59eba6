/** The share of a page that its images cover: a sweep over vertical slabs computes exactly the number of unit
    cells that lie in at least one box, however the boxes overlap. */
module UnionArea {
  datatype Box = Box(x0: int, y0: int, x1: int, y1: int)

  predicate Empty(b: Box) { b.x1 <= b.x0 || b.y1 <= b.y0 }

  predicate Inside(b: Box, x: int, y: int) { b.x0 <= x < b.x1 && b.y0 <= y < b.y1 }

  function Min(a: int, b: int): int { if a < b then a else b }
  function Max(a: int, b: int): int { if a < b then b else a }

  function Clip(b: Box, page: Box): Box {
    Box(Max(b.x0, page.x0), Max(b.y0, page.y0), Min(b.x1, page.x1), Min(b.y1, page.y1))
  }

  /** The meaning of the result: every unit cell under some box. */
  ghost function Cells(boxes: seq<Box>): set<(int, int)> {
    set b, x, y | b in boxes && b.x0 <= x < b.x1 && b.y0 <= y < b.y1 :: (x, y)
  }

  lemma CellsMean(boxes: seq<Box>, x: int, y: int)
    ensures (x, y) in Cells(boxes) <==> exists b :: b in boxes && Inside(b, x, y)
  {
  }

  // --------------------------------------------------------------------- counting

  ghost function Interval(a: int, b: int): (s: set<int>)
    ensures forall y :: y in s <==> a <= y < b
    decreases b - a
  {
    if a < b then Interval(a, b - 1) + {b - 1} else {}
  }

  lemma {:induction false} IntervalSize(a: int, b: int)
    ensures |Interval(a, b)| == Max(0, b - a)
    decreases b - a
  {
    if a < b {
      IntervalSize(a, b - 1);
    }
  }

  ghost function Product(a: int, b: int, ys: set<int>): set<(int, int)> { set x, y | a <= x < b && y in ys :: (x, y) }

  lemma {:induction false} ColumnSize(x: int, ys: set<int>)
    ensures |Product(x, x + 1, ys)| == |ys|
    decreases |ys|
  {
    if ys == {} {
      assert Product(x, x + 1, ys) == {};
    } else {
      var y := ElementOf(ys);
      ColumnSize(x, ys - {y});
      assert Product(x, x + 1, ys) == Product(x, x + 1, ys - {y}) + {(x, y)};
    }
  }

  lemma {:induction false} ProductSize(a: int, b: int, ys: set<int>)
    requires a <= b
    ensures |Product(a, b, ys)| == (b - a) * |ys|
    decreases b - a
  {
    if a == b {
      assert Product(a, b, ys) == {};
    } else {
      ProductSize(a, b - 1, ys);
      ColumnSize(b - 1, ys);
      assert Product(a, b, ys) == Product(a, b - 1, ys) + Product(b - 1, b, ys);
      assert (b - a) * |ys| == (b - 1 - a) * |ys| + |ys|;
    }
  }

  lemma SubsetSize<T>(a: set<T>, b: set<T>)
    requires a <= b
    ensures |a| <= |b|
  {
    assert b == a + (b - a);
  }

  // ---------------------------------------------------------------------- sorting

  predicate Increasing(q: seq<int>) { forall i, k :: 0 <= i < k < |q| ==> q[i] < q[k] }

  /** The distinct elements of a set in increasing order. */
  method SortedSet(s: set<int>) returns (q: seq<int>)
    ensures Increasing(q) && forall v :: v in q <==> v in s
  {
    q := [];
    var left := s;
    while left != {}
      invariant Increasing(q) && left <= s && forall v :: v in q <==> v in s && v !in left
      invariant forall v, u :: v in q && u in left ==> v < u
      decreases |left|
    {
      var least := LeastOf(left);
      assert least in left && forall i :: 0 <= i < |q| ==> q[i] in q;
      q := q + [least];
      left := left - {least};
    }
  }

  /** Some element of a set that has one. */
  lemma ElementOf<T>(s: set<T>) returns (v: T)
    requires s != {}
    ensures v in s
  {
    v :| v in s;
  }

  method LeastOf(s: set<int>) returns (least: int)
    requires s != {}
    ensures least in s && forall v :: v in s ==> least <= v
  {
    ghost var some := ElementOf(s);
    least :| least in s;
    var rest := s - {least};
    while rest != {}
      invariant rest < s && least in s && forall v :: v in s && v !in rest ==> least <= v
      decreases |rest|
    {
      ghost var one := ElementOf(rest);
      var v :| v in rest;
      if v < least { least := v; }
      rest := rest - {v};
    }
  }

  predicate Before(a: (int, int), b: (int, int)) { a.0 < b.0 || (a.0 == b.0 && a.1 <= b.1) }

  predicate Sorted(spans: seq<(int, int)>) { forall i, k :: 0 <= i < k < |spans| ==> Before(spans[i], spans[k]) }

  lemma InsertedInOrder(q: seq<(int, int)>, at: nat, x: (int, int))
    requires Sorted(q) && at <= |q| && (forall k :: at <= k < |q| ==> !Before(q[k], x))
             && (at > 0 ==> Before(q[at - 1], x))
    ensures Sorted(q[..at] + [x] + q[at..])
    ensures multiset(q[..at] + [x] + q[at..]) == multiset(q) + multiset{x}
  {
    var p := q[..at] + [x] + q[at..];
    assert q == q[..at] + q[at..];
    forall i, k | 0 <= i < k < |p| ensures Before(p[i], p[k]) {
      if i < at {
        assert Before(q[i], x);
      }
      assert k < at ==> Before(q[i], q[k]);
      assert i > at ==> Before(q[i - 1], q[k - 1]);
      assert k > at ==> !Before(q[k - 1], x);
    }
  }

  method SortedSpans(spans: seq<(int, int)>) returns (q: seq<(int, int)>)
    ensures Sorted(q) && multiset(q) == multiset(spans)
  {
    q := [];
    for n := 0 to |spans|
      invariant Sorted(q) && multiset(q) == multiset(spans[..n])
    {
      var at := |q|;
      while at > 0 && !Before(q[at - 1], spans[n])
        invariant 0 <= at <= |q| && forall k :: at <= k < |q| ==> !Before(q[k], spans[n])
      {
        at := at - 1;
      }
      assert spans[..n + 1] == spans[..n] + [spans[n]];
      InsertedInOrder(q, at, spans[n]);
      q := q[..at] + [spans[n]] + q[at..];
    }
    assert spans[..|spans|] == spans;
  }

  // -------------------------------------------------------------- one slab's spans

  ghost function Rows(spans: seq<(int, int)>): set<int> {
    if spans == [] then {} else Rows(spans[..|spans| - 1]) + Interval(spans[|spans| - 1].0, spans[|spans| - 1].1)
  }

  lemma {:induction false} RowsMean(spans: seq<(int, int)>, y: int)
    ensures y in Rows(spans) <==> exists s :: s in spans && s.0 <= y < s.1
  {
    if spans != [] {
      var last := |spans| - 1;
      RowsMean(spans[..last], y);
      assert spans == spans[..last] + [spans[last]];
    }
  }

  lemma RowsGrow(spans: seq<(int, int)>, k: nat)
    requires k < |spans|
    ensures Rows(spans[..k + 1]) == Rows(spans[..k]) + Interval(spans[k].0, spans[k].1)
  {
    assert spans[..k + 1][..k] == spans[..k];
  }

  lemma {:induction false} RowsBelow(spans: seq<(int, int)>, top: int)
    requires forall i :: 0 <= i < |spans| ==> spans[i].1 <= top
    ensures forall y :: y in Rows(spans) ==> y < top
  {
    if spans != [] { RowsBelow(spans[..|spans| - 1], top); }
  }

  lemma {:induction false} RowsContain(spans: seq<(int, int)>, i: nat)
    requires i < |spans|
    ensures Interval(spans[i].0, spans[i].1) <= Rows(spans)
  {
    if i < |spans| - 1 { RowsContain(spans[..|spans| - 1], i); }
  }

  /** `top` is how far the first k spans reach. */
  predicate Reach(spans: seq<(int, int)>, k: nat, top: int)
    requires k <= |spans|
  {
    (forall i :: 0 <= i < k ==> spans[i].1 <= top) && exists i :: 0 <= i < k && spans[i].1 == top
  }

  /** The new rows of the next span are those beyond everything already covered. */
  lemma NextSpan(spans: seq<(int, int)>, k: nat, top: int)
    requires Sorted(spans) && 0 < k < |spans| && (forall i :: 0 <= i < |spans| ==> spans[i].0 < spans[i].1)
    requires Reach(spans, k, top)
    ensures |Rows(spans[..k + 1])|
              == |Rows(spans[..k])| + if spans[k].0 > top then spans[k].1 - spans[k].0 else Max(0, spans[k].1 - top)
  {
    var i :| 0 <= i < k && spans[i].1 == top;
    assert Before(spans[i], spans[k]);
    RowsGrow(spans, k);
    RowsBelow(spans[..k], top);
    RowsContain(spans[..k], i);
    BeyondTop(Rows(spans[..k]), spans[i], spans[k], top);
  }

  lemma BeyondTop(rows: set<int>, highest: (int, int), next: (int, int), top: int)
    requires highest.0 <= next.0 < next.1 && highest.1 == top && (forall y :: y in rows ==> y < top)
    requires Interval(highest.0, highest.1) <= rows
    ensures |rows + Interval(next.0, next.1)| == |rows| + if next.0 > top then next.1 - next.0 else Max(0, next.1 - top)
  {
    var beyond := Interval(Max(next.0, top), next.1);
    assert rows + Interval(next.0, next.1) == rows + beyond && rows !! beyond;
    IntervalSize(Max(next.0, top), next.1);
  }

  lemma ReachGrows(spans: seq<(int, int)>, k: nat, top: int)
    requires k < |spans| && (k > 0 ==> Reach(spans, k, top))
    ensures Reach(spans, k + 1, if k == 0 then spans[0].1 else Max(spans[k].1, top))
  {
    var next := if k == 0 then spans[0].1 else Max(spans[k].1, top);
    if next == spans[k].1 {
      assert spans[k].1 == next;
    } else {
      var i :| 0 <= i < k && spans[i].1 == top;
      assert spans[i].1 == next;
    }
  }

  /** What one more span adds to the covered length. */
  lemma SpanAdds(spans: seq<(int, int)>, k: nat, top: int)
    requires Sorted(spans) && k < |spans| && (forall i :: 0 <= i < |spans| ==> spans[i].0 < spans[i].1)
             && (k > 0 ==> Reach(spans, k, top))
    ensures |Rows(spans[..k + 1])|
              == |Rows(spans[..k])|
                 + if k == 0 || spans[k].0 > top then spans[k].1 - spans[k].0 else Max(0, spans[k].1 - top)
  {
    if k == 0 {
      RowsGrow(spans, 0);
      IntervalSize(spans[0].0, spans[0].1);
    } else {
      NextSpan(spans, k, top);
    }
  }

  /** Total length of the union of a slab's spans. */
  method Covered(spans: seq<(int, int)>) returns (covered: nat)
    requires Sorted(spans) && forall i :: 0 <= i < |spans| ==> spans[i].0 < spans[i].1
    ensures covered == |Rows(spans)|
  {
    covered := 0;
    var end: int := 0;
    for k := 0 to |spans|
      invariant covered == |Rows(spans[..k])| && (k > 0 ==> Reach(spans, k, end))
    {
      var (start, stop) := spans[k];
      SpanAdds(spans, k, end);
      ReachGrows(spans, k, end);
      if k == 0 || start > end {
        covered := covered + (stop - start);
        } else { covered := covered + Max(0, stop - end);
      }
      end := if k == 0 then stop else Max(stop, end);
    }
    assert spans[..|spans|] == spans;
  }

  // --------------------------------------------------------------------- the sweep

  ghost function CellsUpTo(boxes: seq<Box>, x: int): set<(int, int)> { set c | c in Cells(boxes) && c.0 < x }

  function SpansOf(boxes: seq<Box>, left: int, right: int): (spans: seq<(int, int)>)
    ensures forall s :: s in spans <==> exists b :: b in boxes && b.x0 < right && b.x1 > left && s == (b.y0, b.y1)
  {
    if boxes == [] then [] else
    var rest := SpansOf(boxes[1..], left, right);
    assert boxes == [boxes[0]] + boxes[1..];
    if boxes[0].x0 < right && boxes[0].x1 > left then [(boxes[0].y0, boxes[0].y1)] + rest else rest
  }

  predicate RowUnder(boxes: seq<Box>, left: int, right: int, y: int) {
    exists b :: b in boxes && b.x0 < right && b.x1 > left && b.y0 <= y < b.y1
  }

  /** No box begins or ends strictly between two consecutive edges, so a slab is a full product. */
  lemma SlabIsProduct(boxes: seq<Box>, left: int, right: int, ys: set<int>)
    requires left < right
    requires forall b :: b in boxes ==> (b.x0 <= left || right <= b.x0) && (b.x1 <= left || right <= b.x1)
    requires forall y :: y in ys <==> RowUnder(boxes, left, right, y)
    ensures CellsUpTo(boxes, right) == CellsUpTo(boxes, left) + Product(left, right, ys)
    ensures |CellsUpTo(boxes, right)| == |CellsUpTo(boxes, left)| + |Product(left, right, ys)|
  {
    forall x, y
      ensures (x, y) in CellsUpTo(boxes, right)
              <==> (x, y) in CellsUpTo(boxes, left) || (x, y) in Product(left, right, ys)
    {
      CellsMean(boxes, x, y);
      if left <= x < right {
        if y in ys {
          var b :| b in boxes && b.x0 < right && b.x1 > left && b.y0 <= y < b.y1;
          assert Inside(b, x, y);
        }
        if b :| b in boxes && Inside(b, x, y) {
          assert RowUnder(boxes, left, right, y);
        }
      }
    }
    assert CellsUpTo(boxes, left) !! Product(left, right, ys);
  }

  lemma RowsOfSpans(boxes: seq<Box>, left: int, right: int, spans: seq<(int, int)>)
    requires multiset(spans) == multiset(SpansOf(boxes, left, right))
    ensures forall y :: y in Rows(spans) <==> RowUnder(boxes, left, right, y)
  {
    forall s ensures s in spans <==> s in SpansOf(boxes, left, right) {
      assert s in multiset(spans) <==> s in multiset(SpansOf(boxes, left, right));
    }
    forall y ensures y in Rows(spans) <==> RowUnder(boxes, left, right, y) {
      RowsMean(spans, y);
      if y in Rows(spans) {
        var s :| s in spans && s.0 <= y < s.1;
        assert s in SpansOf(boxes, left, right);
      }
      if RowUnder(boxes, left, right, y) {
        var b :| b in boxes && b.x0 < right && b.x1 > left && b.y0 <= y < b.y1;
        assert (b.y0, b.y1) in SpansOf(boxes, left, right);
      }
    }
  }

  /** The slab sweep computes the area of the union. */
  method UnionOf(boxes: seq<Box>) returns (area: nat)
    requires forall b :: b in boxes ==> !Empty(b)
    ensures area == |Cells(boxes)|
  {
    area := 0;
    var edges := SortedSet((set b | b in boxes :: b.x0) + (set b | b in boxes :: b.x1));
    assert EdgesOf(boxes, edges);
    if edges == [] {
      NothingUnderNoBox(boxes);
      return;
    }
    EdgesBound(boxes, edges);
    for i := 0 to |edges| - 1
      invariant area == |CellsUpTo(boxes, edges[i])|
    {
      var covered := Slab(boxes, edges, i);
      area := area + (edges[i + 1] - edges[i]) * covered;
    }
  }

  /** One slab: the rows its boxes cover, and what they add to the area. */
  method Slab(boxes: seq<Box>, edges: seq<int>, i: nat) returns (covered: nat)
    requires (forall b :: b in boxes ==> !Empty(b)) && Increasing(edges) && i + 1 < |edges| && EdgesOf(boxes, edges)
    ensures |CellsUpTo(boxes, edges[i + 1])| == |CellsUpTo(boxes, edges[i])| + (edges[i + 1] - edges[i]) * covered
  {
    var left, right := edges[i], edges[i + 1];
    var spans := SortedSpans(SpansOf(boxes, left, right));
    SpansAreProper(boxes, left, right, spans);
    covered := Covered(spans);
    SlabCounts(boxes, edges, i, spans);
    ProductSize(left, right, Rows(spans));
  }

  lemma SpansAreProper(boxes: seq<Box>, left: int, right: int, spans: seq<(int, int)>)
    requires (forall b :: b in boxes ==> !Empty(b)) && multiset(spans) == multiset(SpansOf(boxes, left, right))
    ensures forall k :: 0 <= k < |spans| ==> spans[k].0 < spans[k].1
  {
    forall k | 0 <= k < |spans| ensures spans[k].0 < spans[k].1 {
      assert spans[k] in multiset(spans) && spans[k] in SpansOf(boxes, left, right);
      var b :| b in boxes && spans[k] == (b.y0, b.y1);
      assert !Empty(b);
    }
  }

  lemma SlabCounts(boxes: seq<Box>, edges: seq<int>, i: nat, spans: seq<(int, int)>)
    requires Increasing(edges) && i + 1 < |edges| && EdgesOf(boxes, edges)
    requires multiset(spans) == multiset(SpansOf(boxes, edges[i], edges[i + 1]))
    ensures |CellsUpTo(boxes, edges[i + 1])|
              == |CellsUpTo(boxes, edges[i])| + |Product(edges[i], edges[i + 1], Rows(spans))|
  {
    RowsOfSpans(boxes, edges[i], edges[i + 1], spans);
    NoEdgeBetween(boxes, edges, i);
    SlabIsProduct(boxes, edges[i], edges[i + 1], Rows(spans));
  }

  predicate EdgesOf(boxes: seq<Box>, edges: seq<int>) {
    forall b :: b in boxes ==> b.x0 in edges && b.x1 in edges
  }

  lemma NothingUnderNoBox(boxes: seq<Box>)
    requires forall b :: b !in boxes
    ensures Cells(boxes) == {}
  {
  }

  lemma EdgesBound(boxes: seq<Box>, edges: seq<int>)
    requires Increasing(edges) && edges != [] && EdgesOf(boxes, edges)
    ensures CellsUpTo(boxes, edges[0]) == {} && CellsUpTo(boxes, edges[|edges| - 1]) == Cells(boxes)
  {
  }

  lemma NoEdgeBetween(boxes: seq<Box>, edges: seq<int>, i: nat)
    requires Increasing(edges) && i + 1 < |edges| && EdgesOf(boxes, edges)
    ensures forall b ::
              b in boxes ==> (b.x0 <= edges[i] || edges[i + 1] <= b.x0) && (b.x1 <= edges[i] || edges[i + 1] <= b.x1)
  {
  }

  // ---------------------------------------------------------------------- the page

  /** Clip every image to the page, drop what is left empty, and divide the covered area by the page's. */
  method ImageCoverage(images: seq<Box>, page: Box) returns (ratio: real)
    requires !Empty(page)
    ensures 0.0 <= ratio <= 1.0
    ensures ratio * |Cells([page])| as real == |Cells(images) * Cells([page])| as real
  {
    var boxes := [];
    for n := 0 to |images|
      invariant forall b :: b in boxes <==> !Empty(b) && exists k :: 0 <= k < n && b == Clip(images[k], page)
    {
      var box := Clip(images[n], page);
      if !Empty(box) { boxes := boxes + [box]; }
    }
    var area := UnionOf(boxes);
    PageSize(page);
    ClippedCells(images, page, boxes);
    SubsetSize(Cells(boxes), Cells([page]));
    ratio := area as real / ((page.x1 - page.x0) * (page.y1 - page.y0)) as real;
  }

  lemma PageSize(page: Box)
    requires !Empty(page)
    ensures |Cells([page])| == (page.x1 - page.x0) * (page.y1 - page.y0) > 0
  {
    IntervalSize(page.y0, page.y1);
    ProductSize(page.x0, page.x1, Interval(page.y0, page.y1));
    assert Cells([page]) == Product(page.x0, page.x1, Interval(page.y0, page.y1)) by {
      assert page in [page];
    }
    assert page in [page] && (page.x0, page.y0) in Cells([page]);
  }

  lemma ClippedCells(images: seq<Box>, page: Box, boxes: seq<Box>)
    requires forall b :: b in boxes <==> !Empty(b) && exists k :: 0 <= k < |images| && b == Clip(images[k], page)
    ensures Cells(boxes) == Cells(images) * Cells([page]) && Cells(boxes) <= Cells([page])
  {
    forall x, y ensures (x, y) in Cells(boxes) <==> (x, y) in Cells(images) && (x, y) in Cells([page]) {
      CellsMean(boxes, x, y);
      CellsMean(images, x, y);
      CellsMean([page], x, y);
      assert page in [page];
      if b :| b in images && Inside(b, x, y) && Inside(page, x, y) {
        var k :| 0 <= k < |images| && images[k] == b;
        assert Inside(Clip(images[k], page), x, y);
      }
    }
  }

  /** Adding an image never lowers the covered area, and order and repetition do not matter. */
  lemma MoreImagesCoverMore(images: seq<Box>, more: seq<Box>, page: Box)
    requires forall b :: b in images ==> b in more
    ensures |Cells(images) * Cells([page])| <= |Cells(more) * Cells([page])|
    ensures (forall b :: b in more ==> b in images) ==> Cells(more) == Cells(images)
  {
    SubsetSize(Cells(images) * Cells([page]), Cells(more) * Cells([page]));
  }
}
