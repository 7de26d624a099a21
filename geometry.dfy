/** Geometry of the plan canvas in CSS (logical) pixels: the pointer-to-cell
    mapping, the cell rectangles, and the device-pixel sizing helpers.
    Pixel values are exact reals, not IEEE doubles. */
module Geometry {
  import opened Grid

  /** The canvas' bounding client rectangle (getBoundingClientRect). */
  datatype Box = Box(left: real, top: real, width: real, height: real)

  /** A rectangle as clearRect and drawImage take it: origin and size. */
  datatype Rect = Rect(x: real, y: real, w: real, h: real)

  /** A grid cell by row and column. */
  datatype Cell = Cell(row: int, col: int)

  /** A box a browser can report: its size is never negative. */
  predicate WellFormed(box: Box) {
    box.width >= 0.0 && box.height >= 0.0
  }

  /** A box the pointer mapping can divide by. */
  predicate HasArea(box: Box) {
    box.width > 0.0 && box.height > 0.0
  }

  /** Size of one cell along an axis of length `extent`. */
  function CellSize(extent: real): real {
    extent / GRID as real
  }

  /** Start of cell `j` along an axis: `j * (extent / GRID)`. */
  function CellStart(j: int, extent: real): real {
    j as real * CellSize(extent)
  }

  /** Clamping of a computed row or column into [0, GRID-1]. */
  function ClampToGrid(k: int): (c: int)
    ensures 0 <= c < GRID
    ensures 0 <= k < GRID ==> c == k
    ensures k < 0 ==> c == 0
    ensures k >= GRID ==> c == GRID - 1
  {
    if k < 0 then 0 else if k >= GRID then GRID - 1 else k
  }

  /** One axis of the pointer mapping: `offset` is the pointer's distance
      from the box's left (or top) edge, `extent` the box's width (or
      height). Floor of offset over cell size, then clamped. */
  function AxisCell(offset: real, extent: real): (k: int)
    requires extent > 0.0
    ensures 0 <= k < GRID
  {
    ClampToGrid((offset / CellSize(extent)).Floor)
  }

  /** The cell a pointer at client position (px, py) selects. */
  function PointerToCell(px: real, py: real, box: Box): (c: Cell)
    requires HasArea(box)
    ensures InGrid(c.row, c.col)
  {
    Cell(AxisCell(py - box.top, box.height), AxisCell(px - box.left, box.width))
  }

  /** Rectangle of cell (row, col) in CSS pixels. */
  function CellRect(box: Box, row: int, col: int): (r: Rect)
    ensures r.x + r.w == CellStart(col + 1, box.width)
    ensures r.y + r.h == CellStart(row + 1, box.height)
    ensures HasArea(box) ==> r.w > 0.0 && r.h > 0.0
  {
    Rect(CellStart(col, box.width), CellStart(row, box.height), CellSize(box.width), CellSize(box.height))
  }

  /** Math.round: the nearest integer, halves rounded up. */
  function Round(x: real): (n: int)
    ensures x - 0.5 < n as real <= x + 0.5
  {
    (x + 0.5).Floor
  }

  /** `Math.max(1, window.devicePixelRatio || 1)`: the reported ratio, but
      never below 1 (a missing or zero ratio reads as 1). */
  function EffectiveDpr(reported: real): (d: real)
    ensures d >= 1.0 && d >= reported
    ensures d == 1.0 || d == reported
  {
    if reported > 1.0 then reported else 1.0
  }

  /** Comparing an integer with the scaled offset is comparing the offset
      with that integer's cell start. */
  lemma FloorOfScaled(offset: real, extent: real, j: int)
    requires extent > 0.0
    ensures j <= (offset / CellSize(extent)).Floor <==> CellStart(j, extent) <= offset
  {
    var c := CellSize(extent);
    var q := offset / c;
    assert c > 0.0;
    assert q * c == offset;
    assert j <= q.Floor <==> j as real <= q;
    if j as real <= q {
      assert j as real * c <= q * c;
    } else {
      assert q * c < j as real * c;
    }
  }

  /** Exactly the offsets in the half-open span of cell k map to k; the
      first cell also takes everything before the box and the last cell
      everything at or past its far edge. */
  lemma AxisCellIs(offset: real, extent: real, k: int)
    requires extent > 0.0
    ensures AxisCell(offset, extent) == k <==>
              0 <= k < GRID
              && (k == 0 || CellStart(k, extent) <= offset)
              && (k == GRID - 1 || offset < CellStart(k + 1, extent))
  {
    FloorOfScaled(offset, extent, k);
    FloorOfScaled(offset, extent, k + 1);
  }

  /** Pointers left of (or above) the box give 0; pointers at or past the
      right (or bottom) edge give GRID-1. */
  lemma AxisCellClamps(offset: real, extent: real)
    requires extent > 0.0
    ensures offset < 0.0 ==> AxisCell(offset, extent) == 0
    ensures offset >= extent ==> AxisCell(offset, extent) == GRID - 1
  {
    FloorOfScaled(offset, extent, 0);
    FloorOfScaled(offset, extent, GRID);
    assert CellStart(GRID, extent) == extent;
  }

  /** A pointer inside the rectangle of cell (row, col) selects exactly
      that cell. */
  lemma PointerInCellRect(px: real, py: real, box: Box, row: int, col: int)
    requires HasArea(box) && InGrid(row, col)
    requires CellRect(box, row, col).x <= px - box.left < CellRect(box, row, col).x + CellRect(box, row, col).w
    requires CellRect(box, row, col).y <= py - box.top < CellRect(box, row, col).y + CellRect(box, row, col).h
    ensures PointerToCell(px, py, box) == Cell(row, col)
  {
    assert CellStart(col + 1, box.width) == CellStart(col, box.width) + CellSize(box.width);
    assert CellStart(row + 1, box.height) == CellStart(row, box.height) + CellSize(box.height);
    AxisCellIs(px - box.left, box.width, col);
    AxisCellIs(py - box.top, box.height, row);
  }

  /** Pointers outside the box resolve to the nearest edge cell. */
  lemma PointerOutsideClamps(px: real, py: real, box: Box)
    requires HasArea(box)
    ensures px < box.left ==> PointerToCell(px, py, box).col == 0
    ensures py < box.top ==> PointerToCell(px, py, box).row == 0
    ensures px >= box.left + box.width ==> PointerToCell(px, py, box).col == GRID - 1
    ensures py >= box.top + box.height ==> PointerToCell(px, py, box).row == GRID - 1
  {
    AxisCellClamps(px - box.left, box.width);
    AxisCellClamps(py - box.top, box.height);
  }

  /** The cell rectangles tile the box: the first starts at its origin, each
      ends where the next starts, and the last ends at its far edge. */
  lemma CellRectsTileBox(box: Box, row: int, col: int)
    requires InGrid(row, col)
    ensures CellRect(box, 0, 0).x == 0.0 && CellRect(box, 0, 0).y == 0.0
    ensures col < GRID - 1 ==> CellRect(box, row, col).x + CellRect(box, row, col).w == CellRect(box, row, col + 1).x
    ensures row < GRID - 1 ==> CellRect(box, row, col).y + CellRect(box, row, col).h == CellRect(box, row + 1, col).y
    ensures CellRect(box, row, GRID - 1).x + CellRect(box, row, GRID - 1).w == box.width
    ensures CellRect(box, GRID - 1, col).y + CellRect(box, GRID - 1, col).h == box.height
  {
    assert CellStart(col + 1, box.width) == CellStart(col, box.width) + CellSize(box.width);
    assert CellStart(row + 1, box.height) == CellStart(row, box.height) + CellSize(box.height);
  }
}
