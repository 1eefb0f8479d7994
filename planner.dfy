/**
 `mergeImages` as the loops it is written with: the grid's per-column widths
 and per-row heights filled in place, and the placement loops that advance a
 running x or y and record every `drawImage` call. Each method is proved to
 compute the closed forms of module Layout.
 */
module Planner {
  import opened Layout

  /**
   Two zero-filled arrays, of length 2 and `rows`, followed by the `forEach`
   that raises `colW[i % 2]` and `rowH[floor(i / 2)]` to each image's
   width and height. The source runs this loop once for sizing and once more
   before drawing; both runs are this method.
   */
  method CellExtents(sizes: seq<Size>) returns (colW: array<nat>, rowH: array<nat>)
    ensures fresh(colW) && fresh(rowH)
    ensures colW[..] == ColWidths(sizes)
    ensures rowH[..] == RowHeights(sizes)
  {
    var rows := Rows(|sizes|);
    colW := new nat[2](_ => 0);
    rowH := new nat[rows](_ => 0);
    for i := 0 to |sizes|
      invariant forall c :: 0 <= c < 2 ==> colW[c] == ColMax(sizes[..i], c)
      invariant forall r :: 0 <= r < rows ==> rowH[r] == RowMax(sizes[..i], r)
    {
      assert sizes[..i + 1][..i] == sizes[..i];
      var c, r := i % 2, i / 2;
      colW[c] := if colW[c] < sizes[i].w then sizes[i].w else colW[c];
      rowH[r] := if rowH[r] < sizes[i].h then sizes[i].h else rowH[r];
    }
    assert sizes[..|sizes|] == sizes;
  }

  /** The grid's sizing block: two columns, `ceil(n / 2)` rows, each as wide or tall as its largest image. */
  method SizeGrid(sizes: seq<Size>, gap: nat) returns (outW: nat, outH: nat)
    requires sizes != []
    ensures outW == CanvasWidth(sizes, Grid2, gap) && outH == CanvasHeight(sizes, Grid2, gap)
  {
    var rows := Rows(|sizes|);
    var colW, rowH := CellExtents(sizes);
    outW := Sum(colW[..]) + gap * (2 - 1);
    var rowGaps: nat := gap * (rows - 1);
    outH := Sum(rowH[..]) + rowGaps;
  }

  /** The canvas size `mergeImages` sets for a non-empty image list and a clamped gap. */
  method SizeCanvas(sizes: seq<Size>, mode: Mode, gap: nat) returns (outW: nat, outH: nat)
    requires sizes != []
    ensures outW == CanvasWidth(sizes, mode, gap) && outH == CanvasHeight(sizes, mode, gap)
  {
    var n := |sizes|;
    var gaps: nat := gap * (n - 1);
    match mode {
      case Horizontal =>
        outW := Sum(Widths(sizes)) + gaps;
        outH := Max(Heights(sizes));
      case Vertical =>
        outW := Max(Widths(sizes));
        outH := Sum(Heights(sizes)) + gaps;
      case Grid2 =>
        outW, outH := SizeGrid(sizes, gap);
    }
  }

  /** The horizontal draw loop: `x` starts at 0 and advances by each width plus the gap; y stays 0. */
  method DrawHorizontal(sizes: seq<Size>, gap: nat) returns (draws: seq<Draw>)
    ensures draws == Placements(sizes, Horizontal, gap)
  {
    ghost var expected := Placements(sizes, Horizontal, gap);
    draws := [];
    var x: nat := 0;
    for i := 0 to |sizes|
      invariant draws == expected[..i]
      invariant x == Offset(Widths(sizes), gap, i)
    {
      draws := draws + [Draw(i, x, 0)];
      OffsetStep(Widths(sizes), gap, i);
      x := x + sizes[i].w + gap;
    }
  }

  /** The vertical draw loop: `y` starts at 0 and advances by each height plus the gap; x stays 0. */
  method DrawVertical(sizes: seq<Size>, gap: nat) returns (draws: seq<Draw>)
    ensures draws == Placements(sizes, Vertical, gap)
  {
    ghost var expected := Placements(sizes, Vertical, gap);
    draws := [];
    var y: nat := 0;
    for i := 0 to |sizes|
      invariant draws == expected[..i]
      invariant y == Offset(Heights(sizes), gap, i)
    {
      draws := draws + [Draw(i, 0, y)];
      OffsetStep(Heights(sizes), gap, i);
      y := y + sizes[i].h + gap;
    }
  }

  /**
   The grid draw loops: row by row, `y` advances by the row's height plus the
   gap; within a row, `x` advances by the column's width plus the gap; the
   inner loop stops at the first index past the end (an odd final row).
   */
  method DrawGrid(sizes: seq<Size>, gap: nat) returns (draws: seq<Draw>)
    ensures draws == Placements(sizes, Grid2, gap)
  {
    ghost var expected := Placements(sizes, Grid2, gap);
    var n := |sizes|;
    var rows := Rows(n);
    var colW, rowH := CellExtents(sizes);
    ghost var cw, rh := colW[..], rowH[..];
    draws := [];
    var y: nat := 0;
    for r := 0 to rows
      invariant colW[..] == cw && rowH[..] == rh
      invariant draws == expected[..if 2 * r <= n then 2 * r else n]
      invariant y == Offset(rh, gap, r)
    {
      var x: nat := 0;
      for c := 0 to 2
        invariant colW[..] == cw && rowH[..] == rh
        invariant 2 * r + c <= n
        invariant draws == expected[..2 * r + c]
        invariant x == Offset(cw, gap, c)
      {
        var i := r * 2 + c;
        if i >= n {
          break;
        }
        assert i % 2 == c && i / 2 == r;
        assert expected[i] == DrawAt(sizes, Grid2, gap, i) == Draw(i, x, y);
        draws := draws + [Draw(i, x, y)];
        OffsetStep(cw, gap, c);
        x := x + colW[c] + gap;
      }
      OffsetStep(rh, gap, r);
      y := y + rowH[r] + gap;
    }
    assert draws == expected;
  }

  /**
   One call of `mergeImages` on a non-empty image list (the merge button only
   calls it with two images or more), with the gap field already parsed to
   `gapInput`: clamps the gap, sizes the canvas, then draws every image.
   */
  method MergeImages(sizes: seq<Size>, mode: Mode, gapInput: int) returns (plan: Plan)
    requires sizes != []
    ensures plan == PlanOf(sizes, mode, Clamp(gapInput, MinGap, MaxGap))
  {
    var gap: nat := Clamp(gapInput, MinGap, MaxGap);
    var outW, outH := SizeCanvas(sizes, mode, gap);
    var draws: seq<Draw>;
    match mode {
      case Horizontal =>
        draws := DrawHorizontal(sizes, gap);
      case Vertical =>
        draws := DrawVertical(sizes, gap);
      case Grid2 =>
        draws := DrawGrid(sizes, gap);
    }
    plan := Plan(outW, outH, draws);
  }
}
