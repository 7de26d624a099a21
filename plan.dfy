/** The plan component: the seat array it toggles in place, the resize
    batching flags, the canvas sizing fields and the canvas calls it issues.
    Browser inputs (the canvas' bounding box, window.devicePixelRatio,
    whether a 2D context exists, pointer events and animation frames) are
    method parameters or calls made by the environment. */
module Plan {
  import opened Grid
  import opened Geometry
  import opened Render
  import opened Batching

  datatype MountError = ContextUnsupported
  datatype Mount = Mounted | Failed(error: MountError)

  class PlanComponent {
    /** `new Uint8Array(TOTAL_CELLS)`: 0 = free, 1 = reserved. */
    const state: array<u8>
    var dpr: real
    var pendingFullRender: bool
    var destroyed: bool
    /** Animation-frame callbacks scheduled and not yet run. */
    var queuedFrames: nat
    /** Whether the 2D context was obtained (the listeners exist only then). */
    var hasContext: bool
    /** canvas.width and canvas.height: the backing store in device pixels. */
    var canvasWidth: int
    var canvasHeight: int
    /** The context's uniform transform scale and its lineWidth. */
    var scale: real
    var lineWidth: real
    /** Every clearRect, drawImage and backing-store reallocation, oldest first. */
    var log: seq<CanvasOp>

    ghost predicate Valid()
      reads this`pendingFullRender, this`destroyed, this`queuedFrames, this`dpr, this`scale
      reads this`lineWidth, this`canvasWidth, this`canvasHeight, state
    {
      state.Length == TOTAL_CELLS && AllSeatValues(state[..])
      && Consistent(BatchState())
      && dpr >= 1.0 && scale == dpr && lineWidth == 1.0 / dpr
      && canvasWidth >= 0 && canvasHeight >= 0
    }

    function BatchState(): Batch
      reads this`pendingFullRender, this`destroyed, this`queuedFrames
    {
      Batch(pendingFullRender, destroyed, queuedFrames)
    }

    function SurfaceState(): Surface
      reads this
    {
      Surface(canvasWidth, canvasHeight, dpr, scale, lineWidth)
    }

    /** A fresh component: every seat free, nothing pending, ratio 1, and the
        canvas element's initial backing store with an identity transform. */
    constructor (initialWidth: nat, initialHeight: nat)
      ensures Valid() && fresh(state)
      ensures forall j :: 0 <= j < TOTAL_CELLS ==> state[j] == 0
      ensures BatchState() == Batch(false, false, 0) && !hasContext
      ensures SurfaceState() == Surface(initialWidth, initialHeight, 1.0, 1.0, 1.0)
      ensures log == []
    {
      state := new u8[TOTAL_CELLS](_ => 0);
      dpr := 1.0;
      pendingFullRender, destroyed, queuedFrames := false, false, 0;
      hasContext := false;
      canvasWidth, canvasHeight := initialWidth, initialHeight;
      scale, lineWidth := 1.0, 1.0;
      log := [];
    }

    /** ngAfterViewInit: without a 2D context mounting fails and nothing
        changes; otherwise the listeners are attached and the first resize
        and full render run. */
    method AfterViewInit(contextAvailable: bool, box: Box, reportedDpr: real) returns (r: Mount)
      requires Valid() && !hasContext && WellFormed(box)
      modifies this
      ensures Valid() && BatchState() == old(BatchState())
      ensures !contextAvailable ==>
                r == Failed(ContextUnsupported) && !hasContext
                && SurfaceState() == old(SurfaceState()) && log == old(log)
      ensures contextAvailable ==>
                r == Mounted && hasContext
                && SurfaceState() == Configure(box, reportedDpr)
                && log == old(log) + ResizeOps(old(SurfaceState()), state[..], box, reportedDpr)
    {
      if !contextAvailable {
        return Failed(ContextUnsupported);
      }
      hasContext := true;
      OnResize(box, reportedDpr);
      r := Mounted;
    }

    /** The pointerdown listener: only the primary pointer toggles a seat. */
    method OnPointerDown(isPrimary: bool, clientX: real, clientY: real, box: Box)
      requires Valid() && hasContext && HasArea(box)
      modifies this`log, state
      ensures Valid()
      ensures !isPrimary ==> state[..] == old(state[..]) && log == old(log)
      ensures isPrimary ==>
                var c := PointerToCell(clientX, clientY, box);
                state[..] == Toggled(old(state[..]), CellIndex(c.row, c.col))
                && log == old(log) + CellRedrawOps(state[..], box, c.row, c.col)
    {
      if !isPrimary {
        return;
      }
      HandlePointer(clientX, clientY, box);
    }

    /** handlePointer: the pointer's cell is toggled in place and only that
        cell is redrawn. */
    method HandlePointer(clientX: real, clientY: real, box: Box)
      requires Valid() && hasContext && HasArea(box)
      modifies this`log, state
      ensures Valid()
      ensures var c := PointerToCell(clientX, clientY, box);
              state[..] == Toggled(old(state[..]), CellIndex(c.row, c.col))
              && log == old(log) + CellRedrawOps(state[..], box, c.row, c.col)
    {
      var c := PointerToCell(clientX, clientY, box);
      var idx := CellIndex(c.row, c.col);
      ToggleChangesOnlyThatCell(state[..], idx);
      state[idx] := Flip(state[idx]);
      DrawCell(c.row, c.col, box);
    }

    /** requestFullRender, called by the resize observer and the window
        resize listener: at most one animation frame is ever outstanding. */
    method RequestFullRender()
      requires Valid() && hasContext
      modifies this`pendingFullRender, this`queuedFrames
      ensures Valid()
      ensures BatchState() == AfterRequest(old(BatchState()))
    {
      if destroyed {
        return;
      }
      if pendingFullRender {
        return;
      }
      pendingFullRender := true;
      queuedFrames := queuedFrames + 1;
    }

    /** The scheduled animation-frame callback: clears the pending flag and
        resizes and re-renders with the geometry current at that frame. */
    method RunAnimationFrame(box: Box, reportedDpr: real)
      requires Valid() && hasContext && queuedFrames > 0 && WellFormed(box)
      modifies this
      ensures Valid() && hasContext
      ensures BatchState() == AfterFrame(old(BatchState()))
      ensures SurfaceState() == Configure(box, reportedDpr)
      ensures log == old(log) + ResizeOps(old(SurfaceState()), state[..], box, reportedDpr)
    {
      queuedFrames := queuedFrames - 1;
      pendingFullRender := false;
      OnResize(box, reportedDpr);
    }

    /** onResize, also run once per icon when it finishes loading: sizes the
        surface for the current ratio, then renders everything. */
    method OnResize(box: Box, reportedDpr: real)
      requires Valid() && hasContext && WellFormed(box)
      modifies this
      ensures Valid() && hasContext && BatchState() == old(BatchState())
      ensures SurfaceState() == Configure(box, reportedDpr)
      ensures log == old(log) + ResizeOps(old(SurfaceState()), state[..], box, reportedDpr)
    {
      ConfigureSurface(box, reportedDpr);
      FullRender(box);
    }

    /** The sizing half of onResize: clamps the ratio to at least 1, resizes
        the backing store only when its rounded device-pixel size changes,
        and sets the transform and the hairline width. */
    method ConfigureSurface(box: Box, reportedDpr: real)
      requires Valid() && WellFormed(box)
      modifies this`dpr, this`canvasWidth, this`canvasHeight, this`scale, this`lineWidth, this`log
      ensures Valid()
      ensures SurfaceState() == Configure(box, reportedDpr)
      ensures log == old(log) + ReallocOps(old(SurfaceState()), box, reportedDpr)
    {
      ghost var next := Configure(box, reportedDpr);
      var ratio := EffectiveDpr(reportedDpr);
      dpr := ratio;
      var newWidth := Round(box.width * ratio);
      var newHeight := Round(box.height * ratio);
      assert newWidth == next.width && newHeight == next.height;
      if canvasWidth != newWidth || canvasHeight != newHeight {
        canvasWidth := newWidth;
        canvasHeight := newHeight;
        log := log + [SetSize(newWidth, newHeight)];
      }
      scale := ratio;
      lineWidth := 1.0 / ratio;
      assert box.width * ratio >= 0.0 && box.height * ratio >= 0.0;
    }

    /** fullRender: one clear of the whole canvas, then every cell row by
        row, column by column. */
    method FullRender(box: Box)
      requires Valid()
      modifies this`log
      ensures log == old(log) + FullRenderOps(state[..], box)
    {
      log := log + [Clear(WholeCanvas(box))];
      var row := 0;
      while row < GRID
        invariant 0 <= row <= GRID
        invariant log == old(log) + [Clear(WholeCanvas(box))] + RowsOps(state[..], box, row)
      {
        var col := 0;
        while col < GRID
          invariant 0 <= col <= GRID
          invariant log == old(log) + [Clear(WholeCanvas(box))] + RowsOps(state[..], box, row)
                           + RowOps(state[..], box, row)[..col]
        {
          DrawCellFill(row, col, box);
          assert RowOps(state[..], box, row)[..col + 1]
              == RowOps(state[..], box, row)[..col] + [CellFillOp(state[..], box, row, col)];
          col := col + 1;
        }
        assert RowOps(state[..], box, row)[..GRID] == RowOps(state[..], box, row);
        row := row + 1;
      }
    }

    /** drawCell: clear the cell with a one-pixel margin, then paint it. */
    method DrawCell(row: int, col: int, box: Box)
      requires Valid() && InGrid(row, col)
      modifies this`log
      ensures log == old(log) + CellRedrawOps(state[..], box, row, col)
    {
      var cellW := box.width / GRID as real;
      var cellH := box.height / GRID as real;
      var x := col as real * cellW;
      var y := row as real * cellH;
      assert Rect(x - 1.0, y - 1.0, cellW + 2.0, cellH + 2.0) == Grown(CellRect(box, row, col));
      log := log + [Clear(Rect(x - 1.0, y - 1.0, cellW + 2.0, cellH + 2.0))];
      DrawCellFill(row, col, box);
    }

    /** drawCellFill: one drawImage of the icon for the cell's value over
        the cell's rectangle. */
    method DrawCellFill(row: int, col: int, box: Box)
      requires Valid() && InGrid(row, col)
      modifies this`log
      ensures log == old(log) + [CellFillOp(state[..], box, row, col)]
    {
      var cellW := box.width / GRID as real;
      var cellH := box.height / GRID as real;
      var x := col as real * cellW;
      var y := row as real * cellH;
      var idx := row * GRID + col;
      var img := if state[idx] == 1 then FilledSeat else FreeSeat;
      assert idx == CellIndex(row, col);
      assert img == IconFor(state[..][idx]);
      assert Rect(x, y, cellW, cellH) == CellRect(box, row, col);
      log := log + [Draw(img, Rect(x, y, cellW, cellH))];
    }
  }
}
