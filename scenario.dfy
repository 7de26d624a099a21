/** A client of the plan component: what a caller can prove from the
    component's contracts alone. A 300x300 canvas
    is mounted, the centre of cell (7, 7) is clicked, and a burst of resize
    notifications is followed by one animation frame at 600x600 and ratio 2. */
module Scenario {
  import opened Grid
  import opened Geometry
  import opened Render
  import opened Plan

  method ClickReservesOneSeat()
  {
    var p := new PlanComponent(300, 150);
    var small := Box(0.0, 0.0, 300.0, 300.0);
    var mounted := p.AfterViewInit(true, small, 1.0);
    assert mounted == Mounted;
    assert p.canvasWidth == 300 && p.canvasHeight == 300;

    // The centre of cell (7, 7) is (150, 150); the click reserves that seat only.
    ghost var before := p.state[..];
    PointerInCellRect(150.0, 150.0, small, 7, 7);
    p.OnPointerDown(true, 150.0, 150.0, small);
    assert p.state[CellIndex(7, 7)] == 1;
    assert forall j :: 0 <= j < TOTAL_CELLS && j != CellIndex(7, 7) ==> p.state[j] == before[j] == 0;
  }

  method ResizeBurstRendersOnce()
  {
    var p := new PlanComponent(300, 150);
    var small := Box(0.0, 0.0, 300.0, 300.0);
    var mounted := p.AfterViewInit(true, small, 1.0);

    // A burst of three notifications queues one frame.
    p.RequestFullRender();
    p.RequestFullRender();
    p.RequestFullRender();
    assert p.queuedFrames == 1 && p.pendingFullRender;

    // The frame renders the final geometry once, at 1200x1200 device pixels.
    var large := Box(0.0, 0.0, 600.0, 600.0);
    ghost var mark := p.log;
    p.RunAnimationFrame(large, 2.0);
    assert p.canvasWidth == 1200 && p.canvasHeight == 1200 && p.lineWidth == 0.5;
    assert p.log == mark + [SetSize(1200, 1200)] + FullRenderOps(p.state[..], large);
    assert p.queuedFrames == 0 && !p.pendingFullRender;

    // Another resize at the same geometry does not reallocate.
    ghost var mark2 := p.log;
    p.OnResize(large, 2.0);
    assert p.log == mark2 + FullRenderOps(p.state[..], large);
  }
}
