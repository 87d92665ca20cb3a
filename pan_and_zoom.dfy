/** The canvas hook: the current view box, the middle-button pan gesture
    (an armed flag and the last pointer position) and the drag-start
    reference that the drawing and moving gestures read. */
module PanAndZoom {
  import opened Types
  import opened Viewport

  /** Fraction by which one wheel step changes the box size. */
  const ScaleFactor: real := 0.1

  /** The factor a wheel step scales the box by: smaller when zooming in. */
  function ZoomAmount(zoomIn: bool): (amount: real)
    ensures 0.0 < amount
    ensures zoomIn <==> amount < 1.0
    ensures amount == if zoomIn then 0.9 else 1.1
  {
    if zoomIn then 1.0 - ScaleFactor else 1.0 + ScaleFactor
  }

  class Canvas {
    /** The canvas element's size in pixels. */
    const canvasWidth: real
    const canvasHeight: real

    var viewBox: ViewBox
    /** Whether the middle button is held down over the canvas. */
    var mouseButtonDown: bool
    /** The client position of the pointer at the last pan step. */
    var initialMousePosition: Coord
    /** The drag-start reference: the content coordinate where the current
        drawing or moving gesture began, if any. */
    var dragStart: Option<Coord>

    /** The box is positive and keeps the canvas's aspect ratio. */
    ghost predicate Valid()
      reads this
    {
      ValidCanvas(canvasWidth, canvasHeight) &&
      0.0 < viewBox.width && 0.0 < viewBox.height &&
      viewBox.width * canvasHeight == viewBox.height * canvasWidth
    }

    constructor (width: real, height: real)
      requires ValidCanvas(width, height)
      ensures Valid()
      ensures canvasWidth == width && canvasHeight == height
      ensures viewBox == InitialViewBox(width, height)
      ensures !mouseButtonDown && initialMousePosition == Coord(0.0, 0.0) && dragStart == None
    {
      canvasWidth, canvasHeight := width, height;
      viewBox := ViewBox(0.0, 0.0, width, height);
      mouseButtonDown := false;
      initialMousePosition := Coord(0.0, 0.0);
      dragStart := None;
    }

    /** Canvas pixels per content unit. */
    function ZoomLevel(): (level: real)
      reads this
      requires Valid()
      ensures 0.0 < level
      ensures level * viewBox.width == canvasWidth
    {
      canvasWidth / viewBox.width
    }

    /** The content coordinate under canvas pixel `coord`. */
    function TakeZoomIntoAccount(coord: Coord): (c: Coord)
      reads this
      requires Valid()
      ensures c == ContentAt(viewBox, canvasWidth, canvasHeight, coord)
      ensures (c.x - viewBox.minX) * ZoomLevel() == coord.x
      ensures (c.y - viewBox.minY) * ZoomLevel() == coord.y
    {
      PixelToContentIsContentAt(viewBox, canvasWidth, canvasHeight, coord);
      PixelToContentRoundTrip(viewBox, canvasWidth, coord);
      PixelToContent(viewBox, canvasWidth, coord)
    }

    /** Only the middle button (button 1) arms panning and records the pointer. */
    method HandleMouseDown(button: int, client: Coord)
      modifies this
      ensures button == 1 ==> mouseButtonDown && initialMousePosition == client
      ensures button != 1 ==> mouseButtonDown == old(mouseButtonDown) &&
                              initialMousePosition == old(initialMousePosition)
      ensures viewBox == old(viewBox) && dragStart == old(dragStart)
    {
      if button != 1 {
        return;
      }
      mouseButtonDown := true;
      initialMousePosition := client;
    }

    /** Releasing any button (or leaving the canvas) disarms panning. */
    method HandleMouseUp()
      modifies this
      ensures !mouseButtonDown
      ensures viewBox == old(viewBox) && initialMousePosition == old(initialMousePosition)
      ensures dragStart == old(dragStart)
    {
      mouseButtonDown := false;
    }

    /** While armed, a move pans by the pointer's delta since the last step and
        re-anchors at the pointer; while disarmed it changes nothing. */
    method HandleMouseMove(client: Coord)
      requires Valid()
      modifies this
      ensures Valid()
      ensures old(mouseButtonDown) ==>
        viewBox == DragPan(old(viewBox), old(initialMousePosition), client, canvasWidth, canvasHeight) &&
        initialMousePosition == client
      ensures !old(mouseButtonDown) ==>
        viewBox == old(viewBox) && initialMousePosition == old(initialMousePosition)
      ensures mouseButtonDown == old(mouseButtonDown) && dragStart == old(dragStart)
    {
      if mouseButtonDown {
        var dx := client.x - initialMousePosition.x;
        var dy := client.y - initialMousePosition.y;
        var svgDx := dx * (viewBox.width / canvasWidth);
        var svgDy := dy * (viewBox.height / canvasHeight);
        HandlePan(-svgDx, -svgDy);
        initialMousePosition := client;
      }
    }

    /** A wheel step zooms about the pointer by 0.9 (in) or 1.1 (out). */
    method HandleZoom(zoomIn: bool, mouseX: real, mouseY: real)
      requires Valid()
      modifies this
      ensures Valid()
      ensures viewBox == ZoomAt(old(viewBox), ZoomAmount(zoomIn), Coord(mouseX, mouseY), canvasWidth, canvasHeight)
      ensures mouseButtonDown == old(mouseButtonDown) && initialMousePosition == old(initialMousePosition)
      ensures dragStart == old(dragStart)
    {
      var zoomAmount := ZoomAmount(zoomIn);
      ZoomKeepsAspect(viewBox, zoomAmount, Coord(mouseX, mouseY), canvasWidth, canvasHeight);
      ZoomKeepsPositive(viewBox, zoomAmount, Coord(mouseX, mouseY), canvasWidth, canvasHeight);
      viewBox := ZoomAt(viewBox, zoomAmount, Coord(mouseX, mouseY), canvasWidth, canvasHeight);
    }

    /** Translate the origin by (dx, dy) content units. */
    method HandlePan(dx: real, dy: real)
      requires Valid()
      modifies this
      ensures Valid()
      ensures viewBox == Pan(old(viewBox), dx, dy)
      ensures mouseButtonDown == old(mouseButtonDown) && initialMousePosition == old(initialMousePosition)
      ensures dragStart == old(dragStart)
    {
      viewBox := Pan(viewBox, dx, dy);
    }

    /** Back to the initial box, whatever happened before. */
    method Reset()
      requires Valid()
      modifies this
      ensures Valid()
      ensures viewBox == InitialViewBox(canvasWidth, canvasHeight)
      ensures mouseButtonDown == old(mouseButtonDown) && initialMousePosition == old(initialMousePosition)
      ensures dragStart == old(dragStart)
    {
      viewBox := InitialViewBox(canvasWidth, canvasHeight);
    }

    /** Record where a gesture starts, converted to content coordinates, and
        return it. */
    method SetStartPos(startFrom: Coord) returns (start: Coord)
      requires Valid()
      modifies this
      ensures Valid()
      ensures start == old(TakeZoomIntoAccount(startFrom)) && dragStart == Some(start)
      ensures viewBox == old(viewBox) && mouseButtonDown == old(mouseButtonDown)
      ensures initialMousePosition == old(initialMousePosition)
    {
      dragStart := Some(TakeZoomIntoAccount(startFrom));
      start := dragStart.value;
    }

    /** Forget the gesture's start. */
    method ResetDrag()
      modifies this
      ensures dragStart == None
      ensures viewBox == old(viewBox) && mouseButtonDown == old(mouseButtonDown)
      ensures initialMousePosition == old(initialMousePosition)
    {
      dragStart := None;
    }
  }
}
