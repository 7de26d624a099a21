# Seating plan canvas: a Dafny model

This project models the plan component of a cinema ticketing front end. The
component draws a 15x15 seating plan on a canvas. A click toggles one seat
between free and reserved and redraws only that seat. Resize notifications are
batched into a single animation-frame re-render that sizes the canvas' backing
store for the display's device pixel ratio.

The model is split by concern:

- `grid.dfy` (module `Grid`): the grid size, the `Uint8Array` seat state as a
  sequence of bytes, the row-major cell index and the toggle.
- `geometry.dfy` (module `Geometry`): the pointer-to-cell mapping (offset from
  the bounding box, divided by the cell size, floored, clamped), cell
  rectangles, `Math.round` and the device pixel ratio clamp. Pixels are exact
  reals.
- `render.dfy` (module `Render`): the icon a cell value selects. It also holds
  the canvas calls a full render and a single-cell redraw issue, as abstract log
  entries (`Clear`, `Draw`, and `SetSize` for a backing-store reallocation), and
  the surface sizing of `onResize`.
- `batching.dfy` (module `Batching`): the `pendingFullRender` / `destroyed` flags
  and the queue of animation-frame callbacks, kept as a count.
- `plan.dfy` (module `Plan`): the class `PlanComponent`. Its fields are updated
  in place: the seat array, the flags, `dpr`, the canvas size, the transform
  scale, `lineWidth` and the log of canvas calls. Each method is proved against
  the pure definitions above. `FullRender` keeps the source's nested row and
  column loops.
- `scenario.dfy` (module `Scenario`): two client methods. One proves that a click
  at the centre of cell (7, 7) reserves only that seat. The other proves that a
  burst of resize notifications yields one frame, rendered at 1200x1200 device
  pixels for a 600x600 box at ratio 2.

Browser inputs are method parameters: the canvas' bounding client rectangle,
`window.devicePixelRatio`, whether a 2D context exists, the pointer event's
position and primary flag. The browser's calls into the component (pointer
events, resize notifications, animation frames, image loads) are the
environment calling the class's methods.

## Behaviour worth noting

- Each icon's `onload` handler calls `onResize`
  (ticket-challenge/src/app/plan/plan.component.ts:54-55). Once both icons have
  loaded, two full renders have run.
- The animation-frame callback clears `pendingFullRender` before it calls
  `onResize`, and it does not look at `destroyed` (plan.component.ts:130-133).
  Nothing in the component ever sets `destroyed`. Only the guard in
  `requestFullRender` (line 126) reads it.
- A toggle turns any non-zero byte into 0 and turns 0 into 1 (line 101).
  Drawing picks the filled icon only for value 1 (lines 219-222). The two rules
  agree on 0 and 1, the only values the state ever holds (`Valid` keeps this).
  The local name `isFree` at line 219 is true for value 1, and value 1 draws
  the filled icon.
- The seat array has no bounds check of its own. Its indices always come from
  the clamped pointer mapping (lines 94-99), so the model requires in-range cells.
- A single-cell redraw clears the cell's rectangle grown by one pixel on every
  side (line 200), then repaints only that cell (line 203). The one-pixel band
  reaches into each neighbouring cell's rectangle. Nothing on the pointer path
  repaints it; it stays cleared until the next full render (lines 171-178)
  redraws every cell.
  `Render.MarginClearOverlapsNeighbours` states the overlap.

## Model

| member | source | states |
|---|---|---|
| `Grid.CellIndex` | ticket-challenge/src/app/plan/plan.component.ts:99 | the index of an in-range cell lies in [0, TOTAL_CELLS), and division and remainder by GRID give back its row and column |
| `Grid.CellIndexInjective` | ticket-challenge/src/app/plan/plan.component.ts:10-11 | two cells share an index iff they are the same cell |
| `Grid.CellIndexOnto` | ticket-challenge/src/app/plan/plan.component.ts:10-11 | every array index is the index of exactly one in-range cell |
| `Grid.Flip` | ticket-challenge/src/app/plan/plan.component.ts:101 | the new value is always 0 or 1, and it is 1 iff the old byte was 0 |
| `Grid.Toggled` | ticket-challenge/src/app/plan/plan.component.ts:101 | the toggled state has the same length, flips the chosen byte as `Flip` does, and keeps every other byte; characterised further by `ToggleChangesOnlyThatCell` and `ToggleTwiceRestores` |
| `Grid.ToggleChangesOnlyThatCell` | ticket-challenge/src/app/plan/plan.component.ts:99-101 | a toggle flips the chosen cell between 0 and 1, keeps every other cell, and keeps all values in {0, 1} |
| `Grid.ToggleTwiceRestores` | ticket-challenge/src/app/plan/plan.component.ts:101 | toggling the same seat twice restores the original state |
| `Grid.TogglesCommute` | ticket-challenge/src/app/plan/plan.component.ts:101 | toggles of two cells give the same state in either order |
| `Geometry.ClampToGrid` | ticket-challenge/src/app/plan/plan.component.ts:94-97 | the result is in [0, GRID-1]; in-range values are kept, negatives become 0, values at or past GRID become GRID-1 |
| `Geometry.AxisCell` | ticket-challenge/src/app/plan/plan.component.ts:88-97 | for a positive extent, the row or column is in [0, GRID-1] for every pointer offset |
| `Geometry.PointerToCell` | ticket-challenge/src/app/plan/plan.component.ts:84-97 | for any pointer position and any box of positive size, the selected cell is in the grid |
| `Geometry.CellRect` | ticket-challenge/src/app/plan/plan.component.ts:192-196 | the rectangle of (row, col) at (col*cellW, row*cellH) ends where the next cell starts, and has positive size for a box with area; characterised by `CellRectsTileBox` and `PointerInCellRect` |
| `Geometry.Round` | ticket-challenge/src/app/plan/plan.component.ts:144-145 | the result is the nearest integer, with halves rounded up |
| `Geometry.EffectiveDpr` | ticket-challenge/src/app/plan/plan.component.ts:141 | the ratio is the maximum of 1 and the reported ratio |
| `Geometry.FloorOfScaled` | ticket-challenge/src/app/plan/plan.component.ts:92-93 | an integer is at most the floored offset/cell-size iff its cell starts at or before the offset |
| `Geometry.AxisCellIs` | ticket-challenge/src/app/plan/plan.component.ts:84-97 | an offset maps to cell k iff it lies in k's half-open span; cell 0 also takes everything before the box, the last cell everything at or past its far edge |
| `Geometry.AxisCellClamps` | ticket-challenge/src/app/plan/plan.component.ts:91-97 | negative offsets give 0; offsets at or past the extent give GRID-1 |
| `Geometry.PointerInCellRect` | ticket-challenge/src/app/plan/plan.component.ts:84-97 | a pointer inside the rectangle of cell (row, col), with the rectangle as drawCell computes it, selects exactly (row, col) |
| `Geometry.PointerOutsideClamps` | ticket-challenge/src/app/plan/plan.component.ts:94-97 | pointers left of or above the box give column or row 0; at or past the right or bottom edge they give GRID-1 |
| `Geometry.CellRectsTileBox` | ticket-challenge/src/app/plan/plan.component.ts:192-196 | cell rectangles start at the box origin, each ends where its neighbour starts, and the last ends at the box's width and height |
| `Render.IconFor` | ticket-challenge/src/app/plan/plan.component.ts:218-222 | the filled seat icon is drawn iff the cell value is 1 |
| `Render.CellFillOp` | ticket-challenge/src/app/plan/plan.component.ts:206-223 | the cell's one draw is over its rectangle, with the filled icon iff its value is 1 |
| `Render.CellRedrawOps` | ticket-challenge/src/app/plan/plan.component.ts:185-204 | a cell redraw is exactly two calls, a clear and then the cell's draw; characterised by `CellRedrawMatchesFullRender` |
| `Render.FullRenderOps` | ticket-challenge/src/app/plan/plan.component.ts:164-178 | a full render is 1 + GRID*GRID calls, a whole-canvas clear and then draws only; characterised by `FullRenderDrawsEveryCell` |
| `Render.RowsOpsAt` | ticket-challenge/src/app/plan/plan.component.ts:174-178 | the first n rows of the nested loop issue n*GRID draws, and draw number row*GRID+col paints cell (row, col) |
| `Render.FullRenderDrawsEveryCell` | ticket-challenge/src/app/plan/plan.component.ts:164-178 | a full render is one clear of the whole canvas and then exactly GRID*GRID draws in row-major order, each over its cell's rectangle, filled iff the value is 1 |
| `Render.CellRedrawMatchesFullRender` | ticket-challenge/src/app/plan/plan.component.ts:185-204 | a cell redraw clears the cell grown by 1px on each side, then issues the same draw a full render issues for that cell |
| `Render.ToggleAffectsOnlyItsDraw` | ticket-challenge/src/app/plan/plan.component.ts:99-104 | after a toggle, a full render's list of canvas calls changes only in that cell's draw |
| `Render.MarginClearOverlapsNeighbours` | ticket-challenge/src/app/plan/plan.component.ts:198-203 | the 1px-margin clear of a cell redraw overlaps every neighbouring cell's rectangle, while the redraw's only draw covers its own cell |
| `Render.Configure` | ticket-challenge/src/app/plan/plan.component.ts:141-158 | the surface after sizing has dpr >= 1, scale == dpr and lineWidth * dpr == 1; characterised by `ConfigureSizesBackingStore` |
| `Render.ReallocOps` | ticket-challenge/src/app/plan/plan.component.ts:147-151 | at most one `SetSize` call; characterised by `ReallocOnlyOnChange` |
| `Render.ResizeOps` | ticket-challenge/src/app/plan/plan.component.ts:147-159 | the calls of one onResize: the optional reallocation, then the full render's clear and GRID*GRID draws |
| `Render.ConfigureSizesBackingStore` | ticket-challenge/src/app/plan/plan.component.ts:141-158 | after sizing, dpr >= 1 (the max of 1 and the reported ratio), scale == dpr, lineWidth == 1/dpr in (0, 1], and the backing store is CSS size times dpr, rounded |
| `Render.ReallocOnlyOnChange` | ticket-challenge/src/app/plan/plan.component.ts:147-151 | the backing store is reassigned iff the rounded size differs, and a second resize with the same geometry never reassigns it |
| `Batching.AfterRequest` | ticket-challenge/src/app/plan/plan.component.ts:125-129 | a request keeps `destroyed`, queues at most one more callback, and keeps "pending iff one queued"; characterised by `RequestSchedulesAtMostOne` |
| `Batching.AfterFrame` | ticket-challenge/src/app/plan/plan.component.ts:130-131 | the callback leaves nothing pending, dequeues one callback and keeps `destroyed`; characterised by `FrameLeavesIdle` |
| `Batching.RequestSchedulesAtMostOne` | ticket-challenge/src/app/plan/plan.component.ts:125-129 | a request schedules one callback iff neither destroyed nor pending, otherwise changes nothing, and keeps "pending iff one callback queued" |
| `Batching.FrameLeavesIdle` | ticket-challenge/src/app/plan/plan.component.ts:130-133 | the callback clears the flag and the queue, without looking at `destroyed` |
| `Batching.BurstSchedulesOnce` | ticket-challenge/src/app/plan/plan.component.ts:125-134 | any burst of one or more requests on a live component leaves exactly one callback queued |
| `Batching.DestroyedIgnoresRequests` | ticket-challenge/src/app/plan/plan.component.ts:126 | once destroyed, any number of requests changes nothing |
| `Plan.PlanComponent.constructor` | ticket-challenge/src/app/plan/plan.component.ts:24-33 | every seat starts free, nothing is pending or queued, dpr is 1, and the log is empty |
| `Plan.PlanComponent.AfterViewInit` | ticket-challenge/src/app/plan/plan.component.ts:37-58 | without a 2D context mounting fails and nothing changes; otherwise the first resize and full render run |
| `Plan.PlanComponent.OnPointerDown` | ticket-challenge/src/app/plan/plan.component.ts:62-67 | a non-primary pointer changes nothing; a primary one toggles its cell and redraws it |
| `Plan.PlanComponent.HandlePointer` | ticket-challenge/src/app/plan/plan.component.ts:77-105 | the state becomes the old state with the pointer's cell toggled, and the log gains exactly that cell's redraw |
| `Plan.PlanComponent.RequestFullRender` | ticket-challenge/src/app/plan/plan.component.ts:125-134 | flags and queue change as `Batching.AfterRequest` says, and at most one frame is ever outstanding |
| `Plan.PlanComponent.RunAnimationFrame` | ticket-challenge/src/app/plan/plan.component.ts:130-133 | the pending flag is cleared, one callback leaves the queue, and one resize with a full render runs for the geometry at that frame |
| `Plan.PlanComponent.OnResize` | ticket-challenge/src/app/plan/plan.component.ts:136-160 | the surface becomes `Configure(box, ratio)`; the log gains a reallocation if the size changed, then a full render |
| `Plan.PlanComponent.ConfigureSurface` | ticket-challenge/src/app/plan/plan.component.ts:141-158 | dpr, backing store, scale and lineWidth become `Configure(box, ratio)`; `SetSize` is logged only when the size changed |
| `Plan.PlanComponent.FullRender` | ticket-challenge/src/app/plan/plan.component.ts:164-182 | the nested loops append exactly `FullRenderOps` of the current state to the log |
| `Plan.PlanComponent.DrawCell` | ticket-challenge/src/app/plan/plan.component.ts:185-204 | the log gains the margin clear and the cell's draw |
| `Plan.PlanComponent.DrawCellFill` | ticket-challenge/src/app/plan/plan.component.ts:206-224 | the log gains one draw of the icon for the cell's value over the cell's rectangle |

## Left out

- Angular plumbing: decorators, `ViewChild`, `NgZone.runOutsideAngular` and change detection. These are framework glue.
- Listener registration (`addEventListener`, `ResizeObserver.observe`) is not modelled. The registered handlers are methods the environment may call once the component is mounted (`hasContext`). The resize observer and the window resize listener both call `RequestFullRender`.
- Icon loading (`src`, `onload`) is not modelled, and neither is drawing an image that has not finished loading. Icons are two abstract values. Each image's `onload` is a call to `OnResize`.
- Raster output is not modelled. `clearRect` and `drawImage` are log entries, and the `setTransform` scale and `lineWidth` are fields. The context reset that a canvas size reassignment causes is not modelled, because `onResize` sets the transform and line width again straight after it.
- IEEE floating point: geometry uses exact reals, so rounding at cell boundaries is idealised.
- `Geometry.PointerToCell`: a box of zero width or height is excluded. There the source divides by a zero cell size. A non-zero offset gives plus or minus Infinity, which lines 94-97 clamp to 0 or GRID-1. An offset of exactly 0 gives NaN.
- One bounding box per event: the source calls `getBoundingClientRect` again in `onResize`, `fullRender`, `drawCell` and every `drawCellFill` (lines 138, 166, 187, 208). The model reads the box once per handler. So `OnResize` renders in the same box that sized the backing store. This assumes that the canvas' CSS size does not depend on `canvas.width` and `canvas.height`, which lines 149-150 reassign between the reads.
- Raster state is not modelled, so the model does not capture neighbouring icons left partly erased by a cell redraw's margin clear until the next full render. `Render.MarginClearOverlapsNeighbours` states only the overlap.
- `Geometry.EffectiveDpr`: a NaN or missing `devicePixelRatio` is not modelled. A zero or negative ratio gives 1, as in the source.
- Teardown: the component has no destroy hook and never sets `destroyed` or removes listeners. Only the guard in `requestFullRender` is modelled.
- The commented-out grid-line drawing in `fullRender` is not part of the code.
- `seat-map.service.ts` (random map generation) and the module and routing files are not part of this model.
