/** What the plan draws: the icon a cell value selects, and the sequence of
    canvas calls a single-cell redraw and a full render issue. Canvas calls
    are abstract log entries; no pixels are modelled. */
module Render {
  import opened Grid
  import opened Geometry

  datatype Icon = FreeSeat | FilledSeat

  /** One call on the canvas or its 2D context. */
  datatype CanvasOp =
    | SetSize(width: int, height: int)  // canvas.width/height reassigned: the backing store is reallocated
    | Clear(area: Rect)                 // ctx.clearRect
    | Draw(icon: Icon, area: Rect)      // ctx.drawImage

  /** The icon for a cell value: value 1 draws the filled seat, every other
      value the free seat. */
  function IconFor(v: u8): (i: Icon)
    ensures i == FilledSeat <==> v == 1
  {
    if v == 1 then FilledSeat else FreeSeat
  }

  /** The one drawImage that paints cell (row, col) of state `s`. */
  function CellFillOp(s: seq<u8>, box: Box, row: int, col: int): (op: CanvasOp)
    requires |s| == TOTAL_CELLS && InGrid(row, col)
    ensures op.Draw? && op.area == CellRect(box, row, col)
    ensures op.icon == FilledSeat <==> s[CellIndex(row, col)] == 1
  {
    Draw(IconFor(s[CellIndex(row, col)]), CellRect(box, row, col))
  }

  /** A rectangle grown by one pixel on every side. */
  function Grown(r: Rect): Rect {
    Rect(r.x - 1.0, r.y - 1.0, r.w + 2.0, r.h + 2.0)
  }

  /** A single-cell redraw: clear the cell's rectangle with a 1px margin,
      then paint the cell. */
  function CellRedrawOps(s: seq<u8>, box: Box, row: int, col: int): (ops: seq<CanvasOp>)
    requires |s| == TOTAL_CELLS && InGrid(row, col)
    ensures |ops| == 2 && ops[0].Clear? && ops[1] == CellFillOp(s, box, row, col)
  {
    [Clear(Grown(CellRect(box, row, col))), CellFillOp(s, box, row, col)]
  }

  /** The draws for one row, left to right. */
  function RowOps(s: seq<u8>, box: Box, row: int): seq<CanvasOp>
    requires |s| == TOTAL_CELLS && 0 <= row < GRID
  {
    seq(GRID, col requires 0 <= col < GRID => CellFillOp(s, box, row, col))
  }

  /** The draws for the first `n` rows, top to bottom. */
  function RowsOps(s: seq<u8>, box: Box, n: int): seq<CanvasOp>
    requires |s| == TOTAL_CELLS && 0 <= n <= GRID
  {
    if n == 0 then [] else RowsOps(s, box, n - 1) + RowOps(s, box, n - 1)
  }

  /** The whole canvas in CSS pixels. */
  function WholeCanvas(box: Box): Rect {
    Rect(0.0, 0.0, box.width, box.height)
  }

  /** A full render: one clear of the whole canvas, then every row. */
  function FullRenderOps(s: seq<u8>, box: Box): (ops: seq<CanvasOp>)
    requires |s| == TOTAL_CELLS
    ensures |ops| == 1 + TOTAL_CELLS && ops[0] == Clear(WholeCanvas(box))
    ensures forall k :: 1 <= k < |ops| ==> ops[k].Draw?
  {
    RowsOpsAt(s, box, GRID);
    assert forall k :: 0 <= k < TOTAL_CELLS ==> RowsOps(s, box, GRID)[k].Draw? by {
      forall k | 0 <= k < TOTAL_CELLS ensures RowsOps(s, box, GRID)[k].Draw? {
        CellIndexOnto(k);
      }
    }
    [Clear(WholeCanvas(box))] + RowsOps(s, box, GRID)
  }

  /** The first n rows hold n*GRID draws, and draw number row*GRID+col
      paints cell (row, col). */
  lemma {:induction false} RowsOpsAt(s: seq<u8>, box: Box, n: int)
    requires |s| == TOTAL_CELLS && 0 <= n <= GRID
    ensures |RowsOps(s, box, n)| == n * GRID
    ensures forall row, col :: 0 <= row < n && 0 <= col < GRID ==>
              RowsOps(s, box, n)[CellIndex(row, col)] == CellFillOp(s, box, row, col)
  {
    if n > 0 {
      RowsOpsAt(s, box, n - 1);
      var prev := RowsOps(s, box, n - 1);
      forall row, col | 0 <= row < n && 0 <= col < GRID
        ensures RowsOps(s, box, n)[CellIndex(row, col)] == CellFillOp(s, box, row, col)
      {
        if row < n - 1 {
          assert RowsOps(s, box, n)[CellIndex(row, col)] == prev[CellIndex(row, col)];
        } else {
          assert CellIndex(row, col) == |prev| + col;
        }
      }
    }
  }

  /** A full render is one clear of the whole canvas followed by exactly
      GRID*GRID draws, in row-major order: draw number CellIndex(row, col)
      paints cell (row, col), with the filled icon exactly when its value
      is 1. */
  lemma FullRenderDrawsEveryCell(s: seq<u8>, box: Box)
    requires |s| == TOTAL_CELLS
    ensures |FullRenderOps(s, box)| == 1 + TOTAL_CELLS
    ensures FullRenderOps(s, box)[0] == Clear(WholeCanvas(box))
    ensures forall row, col :: InGrid(row, col) ==>
              var op := FullRenderOps(s, box)[1 + CellIndex(row, col)];
              op.Draw? && op.area == CellRect(box, row, col)
              && (op.icon == FilledSeat <==> s[CellIndex(row, col)] == 1)
  {
    RowsOpsAt(s, box, GRID);
  }

  /** A single-cell redraw clears a rectangle that contains the cell with a
      one-pixel margin on every side, then paints exactly what a full render
      would paint for that cell. */
  lemma CellRedrawMatchesFullRender(s: seq<u8>, box: Box, row: int, col: int)
    requires |s| == TOTAL_CELLS && InGrid(row, col)
    ensures |CellRedrawOps(s, box, row, col)| == 2
    ensures CellRedrawOps(s, box, row, col)[0].Clear?
    ensures var cleared := CellRedrawOps(s, box, row, col)[0].area;
            var cell := CellRect(box, row, col);
            cleared.x + 1.0 == cell.x && cleared.y + 1.0 == cell.y
            && cleared.x + cleared.w == cell.x + cell.w + 1.0
            && cleared.y + cleared.h == cell.y + cell.h + 1.0
    ensures |FullRenderOps(s, box)| == 1 + TOTAL_CELLS
    ensures CellRedrawOps(s, box, row, col)[1] == FullRenderOps(s, box)[1 + CellIndex(row, col)]
  {
    RowsOpsAt(s, box, GRID);
  }

  /** After a toggle, a full render's list of canvas calls changes only in
      that cell's draw. */
  lemma ToggleAffectsOnlyItsDraw(s: seq<u8>, box: Box, row: int, col: int)
    requires |s| == TOTAL_CELLS && InGrid(row, col)
    ensures var t := Toggled(s, CellIndex(row, col));
            |FullRenderOps(t, box)| == |FullRenderOps(s, box)|
            && forall k :: 0 <= k < |FullRenderOps(s, box)| && k != 1 + CellIndex(row, col) ==>
                 FullRenderOps(t, box)[k] == FullRenderOps(s, box)[k]
  {
    var t := Toggled(s, CellIndex(row, col));
    RowsOpsAt(s, box, GRID);
    RowsOpsAt(t, box, GRID);
    forall k | 0 <= k < |FullRenderOps(s, box)| && k != 1 + CellIndex(row, col)
      ensures FullRenderOps(t, box)[k] == FullRenderOps(s, box)[k]
    {
      if k > 0 {
        CellIndexOnto(k - 1);
        var r, c := (k - 1) / GRID, (k - 1) % GRID;
        assert FullRenderOps(t, box)[k] == CellFillOp(t, box, r, c);
        assert FullRenderOps(s, box)[k] == CellFillOp(s, box, r, c);
        CellIndexInjective(r, c, row, col);
      }
    }
  }

  /** Rectangles that share some interior area. */
  predicate Overlap(a: Rect, b: Rect) {
    a.x < b.x + b.w && b.x < a.x + a.w && a.y < b.y + b.h && b.y < a.y + a.h
  }

  /** The one-pixel margin of a single-cell redraw reaches into every
      neighbouring cell's rectangle, and the redraw paints only its own
      cell, so a band along each neighbour's edge stays cleared until the
      next full render. */
  lemma MarginClearOverlapsNeighbours(s: seq<u8>, box: Box, row: int, col: int)
    requires |s| == TOTAL_CELLS && HasArea(box) && InGrid(row, col)
    ensures var cleared := CellRedrawOps(s, box, row, col)[0].area;
            (col < GRID - 1 ==> Overlap(cleared, CellRect(box, row, col + 1)))
            && (col > 0 ==> Overlap(cleared, CellRect(box, row, col - 1)))
            && (row < GRID - 1 ==> Overlap(cleared, CellRect(box, row + 1, col)))
            && (row > 0 ==> Overlap(cleared, CellRect(box, row - 1, col)))
    ensures forall k :: 0 <= k < |CellRedrawOps(s, box, row, col)| ==>
              CellRedrawOps(s, box, row, col)[k].Clear?
              || CellRedrawOps(s, box, row, col)[k].area == CellRect(box, row, col)
  {
  }

  /** The sizing state of the canvas: its backing store in device pixels,
      the device pixel ratio in use, the context's uniform scale and its
      line width. */
  datatype Surface = Surface(width: int, height: int, dpr: real, scale: real, lineWidth: real)

  /** The surface onResize leaves behind for a box and a reported ratio. */
  function Configure(box: Box, reported: real): (c: Surface)
    ensures c.dpr >= 1.0 && c.scale == c.dpr && c.lineWidth * c.dpr == 1.0
  {
    var d := EffectiveDpr(reported);
    Surface(Round(box.width * d), Round(box.height * d), d, d, 1.0 / d)
  }

  /** The backing store is reassigned only when its size changes. */
  function ReallocOps(cur: Surface, box: Box, reported: real): (ops: seq<CanvasOp>)
    ensures |ops| <= 1 && forall k :: 0 <= k < |ops| ==> ops[k].SetSize?
  {
    var next := Configure(box, reported);
    if cur.width != next.width || cur.height != next.height then [SetSize(next.width, next.height)] else []
  }

  /** The canvas calls of one onResize: a reallocation when the size
      changed, then a full render. */
  function ResizeOps(cur: Surface, s: seq<u8>, box: Box, reported: real): (ops: seq<CanvasOp>)
    requires |s| == TOTAL_CELLS
    ensures var n := |ReallocOps(cur, box, reported)|;
            |ops| == n + 1 + TOTAL_CELLS && ops[n] == Clear(WholeCanvas(box))
  {
    ReallocOps(cur, box, reported) + FullRenderOps(s, box)
  }

  /** After onResize the ratio is at least 1, the transform scales by it,
      strokes are one device pixel wide, and the backing store is the CSS
      size times the ratio, rounded. */
  lemma ConfigureSizesBackingStore(box: Box, reported: real)
    requires WellFormed(box)
    ensures var c := Configure(box, reported);
            c.dpr >= 1.0 && c.dpr >= reported && (c.dpr == 1.0 || c.dpr == reported)
            && c.scale == c.dpr
            && c.lineWidth * c.dpr == 1.0 && 0.0 < c.lineWidth <= 1.0
            && 0 <= c.width && box.width * c.dpr - 0.5 < c.width as real <= box.width * c.dpr + 0.5
            && 0 <= c.height && box.height * c.dpr - 0.5 < c.height as real <= box.height * c.dpr + 0.5
  {
    var d := EffectiveDpr(reported);
    assert box.width * d >= 0.0 && box.height * d >= 0.0;
  }

  /** A reallocation happens exactly when the computed size differs from
      the current one; a second resize with the same geometry therefore
      never reallocates. */
  lemma ReallocOnlyOnChange(cur: Surface, box: Box, reported: real)
    ensures |ReallocOps(cur, box, reported)| <= 1
    ensures ReallocOps(cur, box, reported) == [] <==>
              cur.width == Configure(box, reported).width && cur.height == Configure(box, reported).height
    ensures ReallocOps(Configure(box, reported), box, reported) == []
  {
  }
}
