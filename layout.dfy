/**
 The layout planner of the image merger as pure functions: the canvas size and
 the top-left point of every image for the three layouts, and the lemmas that
 say where each image lands (inside the canvas, in input order, never on top of
 another image).
 */
module Layout {

  /** Natural pixel size of one decoded image (`naturalWidth`, `naturalHeight`). */
  datatype Size = Size(w: nat, h: nat)

  /** The three values of the layout selector. */
  datatype Mode = Horizontal | Vertical | Grid2

  /** One `drawImage` call: which image, drawn with its top-left corner at (x, y). */
  datatype Draw = Draw(index: nat, x: nat, y: nat)

  /** Canvas size and the sequence of draw calls, in the order they are made. */
  datatype Plan = Plan(width: nat, height: nat, draws: seq<Draw>)

  /** The smallest and the largest gap the gap field may yield. */
  const MinGap: int := 0
  const MaxGap: int := 100

  // ---------------------------------------------------------------------------
  // clamp

  /** `Math.max(lo, Math.min(hi, n))`. */
  function Clamp(n: int, lo: int, hi: int): (r: int)
    ensures lo <= r
    ensures lo <= hi ==> r <= hi
    ensures lo <= n <= hi ==> r == n
    ensures n < lo ==> r == lo
    ensures lo <= hi < n ==> r == hi
  {
    var m := if hi < n then hi else n;
    if lo < m then m else lo
  }

  // ---------------------------------------------------------------------------
  // sums and maxima

  /** Sum of a sequence, accumulated left to right as `reduce` does. */
  function Sum(xs: seq<nat>): nat
  {
    if xs == [] then 0 else Sum(xs[..|xs| - 1]) + xs[|xs| - 1]
  }

  /** `Math.max(...xs)` of a non-empty sequence. */
  function Max(xs: seq<nat>): (m: nat)
    requires xs != []
    ensures m in xs
    ensures forall i :: 0 <= i < |xs| ==> xs[i] <= m
  {
    if |xs| == 1 then xs[0]
    else
      var m0 := Max(xs[..|xs| - 1]);
      if m0 < xs[|xs| - 1] then xs[|xs| - 1] else m0
  }

  function Widths(sizes: seq<Size>): seq<nat>
  {
    seq(|sizes|, i requires 0 <= i < |sizes| => sizes[i].w)
  }

  function Heights(sizes: seq<Size>): seq<nat>
  {
    seq(|sizes|, i requires 0 <= i < |sizes| => sizes[i].h)
  }

  /**
   Where the i-th item of a strip of extents `xs` starts when `gap` pixels are
   left between neighbours: the extents before it plus one gap per item before it.
   */
  function Offset(xs: seq<nat>, gap: nat, i: nat): nat
    requires i <= |xs|
  {
    Sum(xs[..i]) + gap * i
  }

  /** Total length of a non-empty strip: all extents and a gap between each neighbour pair. */
  function Span(xs: seq<nat>, gap: nat): nat
    requires xs != []
  {
    Sum(xs) + gap * (|xs| - 1)
  }

  // ---------------------------------------------------------------------------
  // the grid's rows and cell extents

  /** `Math.ceil(n / 2)`. */
  function Rows(n: nat): (rows: nat)
    ensures n <= 2 * rows <= n + 1
  {
    (n + 1) / 2
  }

  /**
   `colW[c]` after the sizing loop: the widest image of column c (those with
   index % 2 == c), or 0 when the column holds no image.
   */
  function ColMax(sizes: seq<Size>, c: nat): nat
  {
    if sizes == [] then 0
    else
      var k := |sizes| - 1;
      var m0 := ColMax(sizes[..k], c);
      if k % 2 == c && m0 < sizes[k].w then sizes[k].w else m0
  }

  /**
   `rowH[r]` after the sizing loop: the tallest image of row r (those with
   floor(index / 2) == r), or 0 when the row holds no image.
   */
  function RowMax(sizes: seq<Size>, r: nat): nat
  {
    if sizes == [] then 0
    else
      var k := |sizes| - 1;
      var m0 := RowMax(sizes[..k], r);
      if k / 2 == r && m0 < sizes[k].h then sizes[k].h else m0
  }

  /** ColMax is the maximum of {0} and the widths of column c. */
  lemma {:induction false} ColMaxIsMax(sizes: seq<Size>, c: nat)
    ensures forall i :: 0 <= i < |sizes| && i % 2 == c ==> sizes[i].w <= ColMax(sizes, c)
    ensures ColMax(sizes, c) == 0 || exists i :: 0 <= i < |sizes| && i % 2 == c && sizes[i].w == ColMax(sizes, c)
  {
    if sizes != [] {
      var k := |sizes| - 1;
      ColMaxIsMax(sizes[..k], c);
      assert forall i :: 0 <= i < k ==> sizes[..k][i] == sizes[i];
    }
  }

  /** RowMax is the maximum of {0} and the heights of row r. */
  lemma {:induction false} RowMaxIsMax(sizes: seq<Size>, r: nat)
    ensures forall i :: 0 <= i < |sizes| && i / 2 == r ==> sizes[i].h <= RowMax(sizes, r)
    ensures RowMax(sizes, r) == 0 || exists i :: 0 <= i < |sizes| && i / 2 == r && sizes[i].h == RowMax(sizes, r)
  {
    if sizes != [] {
      var k := |sizes| - 1;
      RowMaxIsMax(sizes[..k], r);
      assert forall i :: 0 <= i < k ==> sizes[..k][i] == sizes[i];
    }
  }

  function ColWidths(sizes: seq<Size>): seq<nat>
  {
    seq(2, c requires 0 <= c < 2 => ColMax(sizes, c))
  }

  function RowHeights(sizes: seq<Size>): seq<nat>
  {
    seq(Rows(|sizes|), r requires 0 <= r < Rows(|sizes|) => RowMax(sizes, r))
  }

  // ---------------------------------------------------------------------------
  // the plan

  /** Canvas width for a non-empty image list. */
  function CanvasWidth(sizes: seq<Size>, mode: Mode, gap: nat): nat
    requires sizes != []
  {
    match mode
    case Horizontal => Span(Widths(sizes), gap)
    case Vertical => Max(Widths(sizes))
    case Grid2 => Span(ColWidths(sizes), gap)
  }

  /** Canvas height for a non-empty image list. */
  function CanvasHeight(sizes: seq<Size>, mode: Mode, gap: nat): nat
    requires sizes != []
  {
    match mode
    case Horizontal => Max(Heights(sizes))
    case Vertical => Span(Heights(sizes), gap)
    case Grid2 => Span(RowHeights(sizes), gap)
  }

  /** The draw call for image i: horizontal strip, vertical strip, or the top-left corner of its grid cell. */
  function DrawAt(sizes: seq<Size>, mode: Mode, gap: nat, i: nat): Draw
    requires i < |sizes|
  {
    match mode
    case Horizontal => Draw(i, Offset(Widths(sizes), gap, i), 0)
    case Vertical => Draw(i, 0, Offset(Heights(sizes), gap, i))
    case Grid2 => Draw(i, Offset(ColWidths(sizes), gap, i % 2), Offset(RowHeights(sizes), gap, i / 2))
  }

  function Placements(sizes: seq<Size>, mode: Mode, gap: nat): seq<Draw>
  {
    seq(|sizes|, i requires 0 <= i < |sizes| => DrawAt(sizes, mode, gap, i))
  }

  /** What one merge of `sizes` computes, with the gap already clamped. */
  function PlanOf(sizes: seq<Size>, mode: Mode, gap: nat): Plan
    requires sizes != []
  {
    Plan(CanvasWidth(sizes, mode, gap), CanvasHeight(sizes, mode, gap), Placements(sizes, mode, gap))
  }

  /** Image i drawn by d lies inside a width x height canvas. */
  predicate Inside(d: Draw, s: Size, width: nat, height: nat)
  {
    d.x + s.w <= width && d.y + s.h <= height
  }

  /** Two drawn images do not share a pixel. */
  predicate Disjoint(a: Draw, sa: Size, b: Draw, sb: Size)
  {
    a.x + sa.w <= b.x || b.x + sb.w <= a.x || a.y + sa.h <= b.y || b.y + sb.h <= a.y
  }

  // ---------------------------------------------------------------------------
  // lemmas about strips

  lemma SumSnoc(xs: seq<nat>, i: nat)
    requires i < |xs|
    ensures Sum(xs[..i + 1]) == Sum(xs[..i]) + xs[i]
  {
    assert xs[..i + 1][..i] == xs[..i];
  }

  lemma {:induction false} SumPrefixLe(xs: seq<nat>, i: nat)
    requires i <= |xs|
    ensures Sum(xs[..i]) <= Sum(xs)
    decreases |xs| - i
  {
    if i < |xs| {
      SumSnoc(xs, i);
      SumPrefixLe(xs, i + 1);
    } else {
      assert xs[..i] == xs;
    }
  }

  /** The running accumulator of the placement loops: the next item starts one extent and one gap later. */
  lemma OffsetStep(xs: seq<nat>, gap: nat, i: nat)
    requires i < |xs|
    ensures Offset(xs, gap, i + 1) == Offset(xs, gap, i) + xs[i] + gap
  {
    SumSnoc(xs, i);
  }

  /** Item i, with the gap after it, ends no later than any later item starts. */
  lemma {:induction false} OffsetBefore(xs: seq<nat>, gap: nat, i: nat, j: nat)
    requires i < j <= |xs|
    ensures Offset(xs, gap, i) + xs[i] + gap <= Offset(xs, gap, j)
    decreases j - i
  {
    OffsetStep(xs, gap, i);
    if i + 1 < j {
      OffsetBefore(xs, gap, i + 1, j);
    }
  }

  /** Every item of a strip ends inside the strip's span. */
  lemma StripFits(xs: seq<nat>, gap: nat, i: nat)
    requires i < |xs|
    ensures Offset(xs, gap, i) + xs[i] <= Span(xs, gap)
  {
    SumSnoc(xs, i);
    SumPrefixLe(xs, i + 1);
  }

  /** The first item of a strip starts at 0. */
  lemma OffsetZero(xs: seq<nat>, gap: nat)
    ensures Offset(xs, gap, 0) == 0
  {
    assert xs[..0] == [];
  }

  // ---------------------------------------------------------------------------
  // lemmas about the three layouts

  /**
   Horizontal layout, placement: n draws in input order along y = 0, the first at
   x = 0, each one `w + gap` past its predecessor, so neighbours abut
   exactly when the gap is 0.
   */
  lemma HorizontalPlacement(sizes: seq<Size>, gap: nat)
    requires sizes != []
    ensures var p := PlanOf(sizes, Horizontal, gap);
      && |p.draws| == |sizes|
      && p.draws[0] == Draw(0, 0, 0)
      && (forall i :: 0 <= i < |sizes| ==> p.draws[i] == Draw(i, Sum(Widths(sizes)[..i]) + gap * i, 0))
      && (forall i :: 0 <= i < |sizes| - 1 ==> p.draws[i + 1].x == p.draws[i].x + sizes[i].w + gap)
      && (gap == 0 ==> forall i :: 0 <= i < |sizes| - 1 ==> p.draws[i + 1].x == p.draws[i].x + sizes[i].w)
  {
    var p := PlanOf(sizes, Horizontal, gap);
    var xs := Widths(sizes);
    OffsetZero(xs, gap);
    forall i | 0 <= i < |sizes| - 1
      ensures p.draws[i + 1].x == p.draws[i].x + sizes[i].w + gap
    {
      OffsetStep(xs, gap, i);
    }
  }

  /**
   Horizontal layout, extent: the canvas is width = sum + gap * (n - 1) by
   height = max, every image ends (with its gap) before any later one begins,
   and every image lies inside the canvas.
   */
  lemma HorizontalFits(sizes: seq<Size>, gap: nat)
    requires sizes != []
    ensures var p := PlanOf(sizes, Horizontal, gap);
      && |p.draws| == |sizes|
      && p.width == Sum(Widths(sizes)) + gap * (|sizes| - 1)
      && p.height == Max(Heights(sizes))
      && (forall i, j :: 0 <= i < j < |sizes| ==> p.draws[i].x + sizes[i].w + gap <= p.draws[j].x)
      && (forall i :: 0 <= i < |sizes| ==> Inside(p.draws[i], sizes[i], p.width, p.height))
  {
    var p := PlanOf(sizes, Horizontal, gap);
    var xs := Widths(sizes);
    assert forall i :: 0 <= i < |sizes| ==> p.draws[i] == Draw(i, Offset(xs, gap, i), 0);
    assert p.width == Span(xs, gap);
    forall i, j | 0 <= i < j < |sizes|
      ensures p.draws[i].x + sizes[i].w + gap <= p.draws[j].x
    {
      OffsetBefore(xs, gap, i, j);
    }
    forall i | 0 <= i < |sizes|
      ensures Inside(p.draws[i], sizes[i], p.width, p.height)
    {
      StripFits(xs, gap, i);
      assert sizes[i].h == Heights(sizes)[i];
    }
  }

  /** Horizontal layout: x strictly increases along the input order (when widths or the gap are positive). */
  lemma HorizontalIncreasing(sizes: seq<Size>, gap: nat, i: nat, j: nat)
    requires i < j < |sizes|
    requires sizes[i].w > 0 || gap > 0
    ensures PlanOf(sizes, Horizontal, gap).draws[i].x < PlanOf(sizes, Horizontal, gap).draws[j].x
  {
    OffsetBefore(Widths(sizes), gap, i, j);
  }

  /**
   Vertical layout, placement: n draws in input order along x = 0, the first at
   y = 0, each one `h + gap` past its predecessor, so neighbours abut
   exactly when the gap is 0.
   */
  lemma VerticalPlacement(sizes: seq<Size>, gap: nat)
    requires sizes != []
    ensures var p := PlanOf(sizes, Vertical, gap);
      && |p.draws| == |sizes|
      && p.draws[0] == Draw(0, 0, 0)
      && (forall i :: 0 <= i < |sizes| ==> p.draws[i] == Draw(i, 0, Sum(Heights(sizes)[..i]) + gap * i))
      && (forall i :: 0 <= i < |sizes| - 1 ==> p.draws[i + 1].y == p.draws[i].y + sizes[i].h + gap)
      && (gap == 0 ==> forall i :: 0 <= i < |sizes| - 1 ==> p.draws[i + 1].y == p.draws[i].y + sizes[i].h)
  {
    var p := PlanOf(sizes, Vertical, gap);
    var xs := Heights(sizes);
    OffsetZero(xs, gap);
    forall i | 0 <= i < |sizes| - 1
      ensures p.draws[i + 1].y == p.draws[i].y + sizes[i].h + gap
    {
      OffsetStep(xs, gap, i);
    }
  }

  /**
   Vertical layout, extent, the mirror image: the canvas is width = max by
   height = sum + gap * (n - 1), every image ends (with its gap) before any
   later one begins, and every image lies inside the canvas.
   */
  lemma VerticalFits(sizes: seq<Size>, gap: nat)
    requires sizes != []
    ensures var p := PlanOf(sizes, Vertical, gap);
      && |p.draws| == |sizes|
      && p.height == Sum(Heights(sizes)) + gap * (|sizes| - 1)
      && p.width == Max(Widths(sizes))
      && (forall i, j :: 0 <= i < j < |sizes| ==> p.draws[i].y + sizes[i].h + gap <= p.draws[j].y)
      && (forall i :: 0 <= i < |sizes| ==> Inside(p.draws[i], sizes[i], p.width, p.height))
  {
    var p := PlanOf(sizes, Vertical, gap);
    var xs := Heights(sizes);
    assert forall i :: 0 <= i < |sizes| ==> p.draws[i] == Draw(i, 0, Offset(xs, gap, i));
    assert p.height == Span(xs, gap);
    forall i, j | 0 <= i < j < |sizes|
      ensures p.draws[i].y + sizes[i].h + gap <= p.draws[j].y
    {
      OffsetBefore(xs, gap, i, j);
    }
    forall i | 0 <= i < |sizes|
      ensures Inside(p.draws[i], sizes[i], p.width, p.height)
    {
      StripFits(xs, gap, i);
      assert sizes[i].w == Widths(sizes)[i];
    }
  }

  /**
   Grid layout: ceil(n/2) rows; image i is drawn at the top-left corner of cell
   (i % 2, i / 2), which is as wide as its column's widest image and as tall as
   its row's tallest, so the image fits its cell and the cell fits the canvas.
   */
  lemma GridLayout(sizes: seq<Size>, gap: nat)
    requires sizes != []
    ensures var p := PlanOf(sizes, Grid2, gap);
      var colW := ColWidths(sizes);
      var rowH := RowHeights(sizes);
      && |p.draws| == |sizes|
      && |colW| == 2 && |rowH| == Rows(|sizes|)
      && p.width == colW[0] + colW[1] + gap
      && p.height == Sum(rowH) + gap * (|rowH| - 1)
      && (forall i :: 0 <= i < |sizes| ==>
            && p.draws[i].index == i
            && p.draws[i].x == (if i % 2 == 0 then 0 else colW[0] + gap)
            && p.draws[i].y == Sum(rowH[..i / 2]) + gap * (i / 2)
            && sizes[i].w <= colW[i % 2] && sizes[i].h <= rowH[i / 2]
            && p.draws[i].x + colW[i % 2] <= p.width && p.draws[i].y + rowH[i / 2] <= p.height
            && Inside(p.draws[i], sizes[i], p.width, p.height))
  {
    var p := PlanOf(sizes, Grid2, gap);
    var colW := ColWidths(sizes);
    var rowH := RowHeights(sizes);
    SumSnoc(colW, 0);
    SumSnoc(colW, 1);
    OffsetZero(colW, gap);
    ColMaxIsMax(sizes, 0);
    ColMaxIsMax(sizes, 1);
    forall i | 0 <= i < |sizes|
      ensures p.draws[i].x == (if i % 2 == 0 then 0 else colW[0] + gap)
      ensures sizes[i].w <= colW[i % 2] && sizes[i].h <= rowH[i / 2]
      ensures p.draws[i].x + colW[i % 2] <= p.width && p.draws[i].y + rowH[i / 2] <= p.height
      ensures Inside(p.draws[i], sizes[i], p.width, p.height)
    {
      if i % 2 == 1 {
        OffsetStep(colW, gap, 0);
      }
      RowMaxIsMax(sizes, i / 2);
      StripFits(colW, gap, i % 2);
      StripFits(rowH, gap, i / 2);
    }
  }

  // ---------------------------------------------------------------------------
  // the layout invariants common to all modes

  /** For every mode: one draw per image, in input order, each image inside the canvas. */
  lemma PlanInside(sizes: seq<Size>, mode: Mode, gap: nat)
    requires sizes != []
    ensures var p := PlanOf(sizes, mode, gap);
      && |p.draws| == |sizes|
      && (forall i :: 0 <= i < |sizes| ==> p.draws[i].index == i)
      && (forall i :: 0 <= i < |sizes| ==> Inside(p.draws[i], sizes[i], p.width, p.height))
  {
    match mode
    case Horizontal =>
      HorizontalFits(sizes, gap);
    case Vertical =>
      VerticalFits(sizes, gap);
    case Grid2 =>
      GridLayout(sizes, gap);
  }

  /** For every mode: no two drawn images overlap. */
  lemma PlanDisjoint(sizes: seq<Size>, mode: Mode, gap: nat)
    requires sizes != []
    ensures var p := PlanOf(sizes, mode, gap);
      forall i, j :: 0 <= i < j < |sizes| ==> Disjoint(p.draws[i], sizes[i], p.draws[j], sizes[j])
  {
    var p := PlanOf(sizes, mode, gap);
    match mode
    case Horizontal =>
      HorizontalFits(sizes, gap);
    case Vertical =>
      VerticalFits(sizes, gap);
    case Grid2 =>
      forall i, j | 0 <= i < j < |sizes|
        ensures Disjoint(p.draws[i], sizes[i], p.draws[j], sizes[j])
      {
        GridCellsDisjoint(sizes, gap, i, j);
      }
  }

  /** Two distinct grid images lie in different columns or in different rows, hence apart. */
  lemma GridCellsDisjoint(sizes: seq<Size>, gap: nat, i: nat, j: nat)
    requires i < j < |sizes|
    ensures Disjoint(PlanOf(sizes, Grid2, gap).draws[i], sizes[i], PlanOf(sizes, Grid2, gap).draws[j], sizes[j])
  {
    var colW := ColWidths(sizes);
    var rowH := RowHeights(sizes);
    GridLayout(sizes, gap);
    if i / 2 < j / 2 {
      OffsetBefore(rowH, gap, i / 2, j / 2);
    } else {
      assert i % 2 == 0 && j % 2 == 1;
      OffsetZero(colW, gap);
      OffsetStep(colW, gap, 0);
    }
  }

  /** A grid example's cell extents: widths 10,20,30,40 and heights 5,15,25,35. */
  lemma GridExampleExtents(s: seq<Size>)
    requires s == [Size(10, 5), Size(20, 15), Size(30, 25), Size(40, 35)]
    ensures ColWidths(s) == [30, 40] && RowHeights(s) == [15, 35]
  {
    assert s[0].w == 10 && s[1].w == 20 && s[2].w == 30 && s[3].w == 40;
    assert s[0].h == 5 && s[1].h == 15 && s[2].h == 25 && s[3].h == 35;
    ColMaxIsMax(s, 0);
    ColMaxIsMax(s, 1);
    RowMaxIsMax(s, 0);
    RowMaxIsMax(s, 1);
    var c0, c1, r0, r1 := ColMax(s, 0), ColMax(s, 1), RowMax(s, 0), RowMax(s, 1);
    assert c0 == 30 && c1 == 40 && r0 == 15 && r1 == 35;
  }

  /** A grid example with gap 2: a 72 x 52 canvas, the second column at x = 32, the second row at y = 17. */
  lemma GridExample(s: seq<Size>)
    requires s == [Size(10, 5), Size(20, 15), Size(30, 25), Size(40, 35)]
    ensures PlanOf(s, Grid2, 2) == Plan(72, 52, [Draw(0, 0, 0), Draw(1, 32, 0), Draw(2, 0, 17), Draw(3, 32, 17)])
  {
    GridExampleExtents(s);
    var colW, rowH := ColWidths(s), RowHeights(s);
    SumSnoc(colW, 0);
    SumSnoc(colW, 1);
    SumSnoc(rowH, 0);
    SumSnoc(rowH, 1);
    assert colW[..0] == [] && rowH[..0] == [] && colW[..2] == colW && rowH[..2] == rowH;
    assert Offset(colW, 2, 0) == 0 && Offset(colW, 2, 1) == 32;
    assert Offset(rowH, 2, 0) == 0 && Offset(rowH, 2, 1) == 17;
    assert CanvasWidth(s, Grid2, 2) == 72 && CanvasHeight(s, Grid2, 2) == 52;
    assert DrawAt(s, Grid2, 2, 0) == Draw(0, 0, 0);
    assert DrawAt(s, Grid2, 2, 1) == Draw(1, 32, 0);
    assert DrawAt(s, Grid2, 2, 2) == Draw(2, 0, 17);
    assert DrawAt(s, Grid2, 2, 3) == Draw(3, 32, 17);
  }
}
