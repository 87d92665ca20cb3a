/** The application store: the active tool and the view box, replaced
    wholesale by its four update operations. */
module Store {
  import opened Types
  import opened Viewport

  /** The tools the store knows; `None` is "no tool". */
  datatype StoreTool = RectangleTool | CircleTool | PolygonTool | GrabTool | ScaleTool

  class AppStore {
    /** The canvas element's size in pixels. */
    const canvasWidth: real
    const canvasHeight: real

    var activeTool: Option<StoreTool>
    var viewBox: ViewBox

    /** The canvas size the store was created with is positive. */
    ghost predicate Valid()
      reads this
    {
      ValidCanvas(canvasWidth, canvasHeight)
    }

    constructor (width: real, height: real)
      requires ValidCanvas(width, height)
      ensures Valid()
      ensures canvasWidth == width && canvasHeight == height
      ensures activeTool == None && viewBox == InitialViewBox(width, height)
    {
      canvasWidth, canvasHeight := width, height;
      activeTool := None;
      viewBox := ViewBox(0.0, 0.0, width, height);
    }

    /** Choose the active tool; the view box is untouched. */
    method SetActiveTool(tool: Option<StoreTool>)
      requires Valid()
      modifies this
      ensures Valid()
      ensures activeTool == tool && viewBox == old(viewBox)
    {
      activeTool := tool;
    }

    /** Move the origin to the absolute position (newX, newY); the size and
        the tool are untouched. */
    method PanCanvas(newX: real, newY: real)
      requires Valid()
      modifies this
      ensures Valid()
      ensures viewBox.minX == newX && viewBox.minY == newY
      ensures viewBox.width == old(viewBox.width) && viewBox.height == old(viewBox.height)
      ensures activeTool == old(activeTool)
    {
      var current := viewBox;
      viewBox := current.(minX := newX, minY := newY);
    }

    /** Scale the box by `zoomAmount` about the pointer `mouse`; the tool is untouched. */
    method ZoomCanvas(zoomAmount: real, mouse: Coord)
      requires Valid()
      modifies this
      ensures Valid()
      ensures viewBox == ZoomAt(old(viewBox), zoomAmount, mouse, canvasWidth, canvasHeight)
      ensures activeTool == old(activeTool)
    {
      var prevViewBox := viewBox;
      var svgPointBeforeZoom := ContentAt(prevViewBox, canvasWidth, canvasHeight, mouse);
      var newWidth := prevViewBox.width * zoomAmount;
      var newHeight := prevViewBox.height * zoomAmount;
      var dx := (svgPointBeforeZoom.x - prevViewBox.minX) * (1.0 - zoomAmount);
      var dy := (svgPointBeforeZoom.y - prevViewBox.minY) * (1.0 - zoomAmount);
      ghost var expected := ZoomAt(prevViewBox, zoomAmount, mouse, canvasWidth, canvasHeight);
      assert expected == ViewBox(prevViewBox.minX + dx, prevViewBox.minY + dy, newWidth, newHeight);
      viewBox := prevViewBox.(minX := prevViewBox.minX + dx, minY := prevViewBox.minY + dy,
                              width := newWidth, height := newHeight);
    }

    /** Back to the initial box; the tool is untouched. */
    method ResetPanZoom()
      requires Valid()
      modifies this
      ensures Valid()
      ensures viewBox == InitialViewBox(canvasWidth, canvasHeight)
      ensures activeTool == old(activeTool)
    {
      viewBox := InitialViewBox(canvasWidth, canvasHeight);
    }
  }

  /** Zooming the store twice about the same pointer, by `a` and then `b`,
      leaves it where one zoom by `a * b` would, and zooming by 1 changes nothing. */
  method ZoomTwice(store: AppStore, a: real, b: real, mouse: Coord)
    requires store.Valid()
    modifies store
    ensures store.Valid()
    ensures store.viewBox == ZoomAt(old(store.viewBox), a * b, mouse, store.canvasWidth, store.canvasHeight)
    ensures store.activeTool == old(store.activeTool)
  {
    store.ZoomCanvas(a, mouse);
    store.ZoomCanvas(b, mouse);
    ZoomComposes(old(store.viewBox), a, b, mouse, store.canvasWidth, store.canvasHeight);
  }
}
