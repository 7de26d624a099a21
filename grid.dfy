/** The seat state of the plan: a flat byte array of GRID*GRID cells, indexed
    row-major, each cell 0 (free) or 1 (reserved). */
module Grid {

  /** Rows and columns of the plan (15x15). */
  const GRID: int := 15
  const TOTAL_CELLS: int := GRID * GRID

  /** An element of a Uint8Array. */
  newtype u8 = x: int | 0 <= x < 256

  /** The two values a seat takes: 0 = free, 1 = reserved. */
  predicate IsSeatValue(v: u8) {
    v == 0 || v == 1
  }

  predicate AllSeatValues(s: seq<u8>) {
    forall j :: 0 <= j < |s| ==> IsSeatValue(s[j])
  }

  predicate InGrid(row: int, col: int) {
    0 <= row < GRID && 0 <= col < GRID
  }

  /** The flat index of a cell; its row and column are recovered by
      division and remainder, so the index is a bijection onto the array. */
  function CellIndex(row: int, col: int): (idx: int)
    requires InGrid(row, col)
    ensures 0 <= idx < TOTAL_CELLS
    ensures idx / GRID == row && idx % GRID == col
  {
    row * GRID + col
  }

  /** Distinct cells never share an index. */
  lemma CellIndexInjective(r1: int, c1: int, r2: int, c2: int)
    requires InGrid(r1, c1) && InGrid(r2, c2)
    ensures CellIndex(r1, c1) == CellIndex(r2, c2) <==> r1 == r2 && c1 == c2
  {
  }

  /** Every index of the array belongs to exactly the cell its quotient and
      remainder name. */
  lemma CellIndexOnto(idx: int)
    requires 0 <= idx < TOTAL_CELLS
    ensures InGrid(idx / GRID, idx % GRID)
    ensures CellIndex(idx / GRID, idx % GRID) == idx
  {
  }

  /** `state[idx] ? 0 : 1`: a zero byte becomes 1, any non-zero byte becomes 0. */
  function Flip(v: u8): (w: u8)
    ensures IsSeatValue(w)
    ensures w == 1 <==> v == 0
  {
    if v != 0 then 0 else 1
  }

  /** The state after the pointer toggles the cell at `idx`. */
  function Toggled(s: seq<u8>, idx: int): (t: seq<u8>)
    requires 0 <= idx < |s|
    ensures |t| == |s| && t[idx] == Flip(s[idx])
    ensures forall j :: 0 <= j < |s| && j != idx ==> t[j] == s[j]
  {
    s[idx := Flip(s[idx])]
  }

  /** A toggle flips exactly one cell between free and reserved and leaves
      every other cell as it was. */
  lemma ToggleChangesOnlyThatCell(s: seq<u8>, idx: int)
    requires 0 <= idx < |s| && AllSeatValues(s)
    ensures |Toggled(s, idx)| == |s|
    ensures Toggled(s, idx)[idx] == 1 - s[idx]
    ensures forall j :: 0 <= j < |s| && j != idx ==> Toggled(s, idx)[j] == s[j]
    ensures AllSeatValues(Toggled(s, idx))
  {
  }

  /** Toggling the same cell twice restores the original state. */
  lemma ToggleTwiceRestores(s: seq<u8>, idx: int)
    requires 0 <= idx < |s| && IsSeatValue(s[idx])
    ensures Toggled(Toggled(s, idx), idx) == s
  {
  }

  /** Toggles of different cells commute. */
  lemma TogglesCommute(s: seq<u8>, i: int, j: int)
    requires 0 <= i < |s| && 0 <= j < |s|
    ensures Toggled(Toggled(s, i), j) == Toggled(Toggled(s, j), i)
  {
  }
}
