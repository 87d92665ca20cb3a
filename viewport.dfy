/** The viewport transform shared by the canvas hook and the application store:
    the visible region of content space, the mapping from canvas pixels to
    content coordinates, zooming about a pixel, and panning. */
module Viewport {
  import opened Types

  /** The visible region of content space (an SVG `viewBox`). */
  datatype ViewBox = ViewBox(minX: real, minY: real, width: real, height: real)

  /** The canvas element's size in pixels; every caller uses a positive constant. */
  predicate ValidCanvas(canvasWidth: real, canvasHeight: real) {
    0.0 < canvasWidth && 0.0 < canvasHeight
  }

  /** The box the editor starts with and returns to on reset: the origin, one
      content unit per pixel. */
  function InitialViewBox(canvasWidth: real, canvasHeight: real): (vb: ViewBox)
    requires ValidCanvas(canvasWidth, canvasHeight)
    ensures vb.minX == 0.0 && vb.minY == 0.0
    ensures vb.width == canvasWidth && vb.height == canvasHeight
  {
    ViewBox(0.0, 0.0, canvasWidth, canvasHeight)
  }

  /** The content point shown at canvas pixel `m`: each axis maps the pixel's
      fraction of the canvas onto the box, `(m / canvas) * size + origin`. */
  function ContentAt(vb: ViewBox, canvasWidth: real, canvasHeight: real, m: Coord): (c: Coord)
    requires ValidCanvas(canvasWidth, canvasHeight)
    ensures (c.x - vb.minX) * canvasWidth == m.x * vb.width
    ensures (c.y - vb.minY) * canvasHeight == m.y * vb.height
  {
    Coord(m.x / canvasWidth * vb.width + vb.minX, m.y / canvasHeight * vb.height + vb.minY)
  }

  /** Zoom about pixel `m` by `zoomAmount`: the box is scaled by the amount and
      its origin is shifted so that the content point under `m` stays under `m`. */
  function ZoomAt(vb: ViewBox, zoomAmount: real, m: Coord, canvasWidth: real, canvasHeight: real): (r: ViewBox)
    requires ValidCanvas(canvasWidth, canvasHeight)
    ensures r.width == vb.width * zoomAmount && r.height == vb.height * zoomAmount
    ensures ContentAt(r, canvasWidth, canvasHeight, m) == ContentAt(vb, canvasWidth, canvasHeight, m)
  {
    var p := ContentAt(vb, canvasWidth, canvasHeight, m);
    var dx := (p.x - vb.minX) * (1.0 - zoomAmount);
    var dy := (p.y - vb.minY) * (1.0 - zoomAmount);
    var r := vb.(minX := vb.minX + dx, minY := vb.minY + dy,
                 width := vb.width * zoomAmount, height := vb.height * zoomAmount);
    ZoomFixesAxis(m.x / canvasWidth, vb.width, vb.minX, zoomAmount);
    ZoomFixesAxis(m.y / canvasHeight, vb.height, vb.minY, zoomAmount);
    r
  }

  /** One axis of the zoom: with `k` the pixel's fraction of the canvas, the
      scaled extent and the shifted origin show the same content point. */
  lemma ZoomFixesAxis(k: real, size: real, origin: real, zoomAmount: real)
    ensures k * (size * zoomAmount) + (origin + (k * size + origin - origin) * (1.0 - zoomAmount))
         == k * size + origin
  {
  }

  /** Zooming by 1 leaves the box as it was. */
  lemma ZoomByOneIsIdentity(vb: ViewBox, m: Coord, canvasWidth: real, canvasHeight: real)
    requires ValidCanvas(canvasWidth, canvasHeight)
    ensures ZoomAt(vb, 1.0, m, canvasWidth, canvasHeight) == vb
  {
  }

  /** Two zooms about the same pixel, by `a` and then by `b`, are one zoom by `a * b`. */
  lemma ZoomComposes(vb: ViewBox, a: real, b: real, m: Coord, canvasWidth: real, canvasHeight: real)
    requires ValidCanvas(canvasWidth, canvasHeight)
    ensures ZoomAt(ZoomAt(vb, a, m, canvasWidth, canvasHeight), b, m, canvasWidth, canvasHeight)
         == ZoomAt(vb, a * b, m, canvasWidth, canvasHeight)
  {
    var once := ZoomAt(vb, a, m, canvasWidth, canvasHeight);
    var twice := ZoomAt(once, b, m, canvasWidth, canvasHeight);
    var direct := ZoomAt(vb, a * b, m, canvasWidth, canvasHeight);
    ComposeAxis(m.x / canvasWidth, vb.width, vb.minX, a, b);
    ComposeAxis(m.y / canvasHeight, vb.height, vb.minY, a, b);
    assert twice.minX == direct.minX && twice.minY == direct.minY;
    assert twice.width == direct.width && twice.height == direct.height;
  }

  /** One axis of two successive zooms about the same point. */
  lemma ComposeAxis(k: real, size: real, origin: real, a: real, b: real)
    ensures (origin + (k * size + origin - origin) * (1.0 - a))
          + (k * (size * a) + (origin + (k * size + origin - origin) * (1.0 - a))
             - (origin + (k * size + origin - origin) * (1.0 - a))) * (1.0 - b)
         == origin + (k * size + origin - origin) * (1.0 - a * b)
    ensures size * a * b == size * (a * b)
  {
  }

  /** A zoom keeps the box's aspect ratio, and so keeps it equal to the canvas's. */
  lemma ZoomKeepsAspect(vb: ViewBox, zoomAmount: real, m: Coord, canvasWidth: real, canvasHeight: real)
    requires ValidCanvas(canvasWidth, canvasHeight)
    requires vb.width * canvasHeight == vb.height * canvasWidth
    ensures var r := ZoomAt(vb, zoomAmount, m, canvasWidth, canvasHeight);
      r.width * canvasHeight == r.height * canvasWidth
  {
    calc {
      vb.width * zoomAmount * canvasHeight;
    ==
      (vb.width * canvasHeight) * zoomAmount;
    ==
      (vb.height * canvasWidth) * zoomAmount;
    ==
      vb.height * zoomAmount * canvasWidth;
    }
  }

  /** A positive zoom amount keeps a positive box positive. */
  lemma ZoomKeepsPositive(vb: ViewBox, zoomAmount: real, m: Coord, canvasWidth: real, canvasHeight: real)
    requires ValidCanvas(canvasWidth, canvasHeight)
    requires 0.0 < vb.width && 0.0 < vb.height && 0.0 < zoomAmount
    ensures var r := ZoomAt(vb, zoomAmount, m, canvasWidth, canvasHeight);
      0.0 < r.width && 0.0 < r.height
  {
    PositiveProduct(vb.width, zoomAmount);
    PositiveProduct(vb.height, zoomAmount);
  }

  /** The product of two positive reals is positive. */
  lemma PositiveProduct(a: real, b: real)
    requires 0.0 < a && 0.0 < b
    ensures 0.0 < a * b
  {
  }

  /** Translate the origin by (dx, dy); the size is unchanged. */
  function Pan(vb: ViewBox, dx: real, dy: real): (r: ViewBox)
    ensures r.width == vb.width && r.height == vb.height
    ensures r.minX - vb.minX == dx && r.minY - vb.minY == dy
  {
    vb.(minX := vb.minX + dx, minY := vb.minY + dy)
  }

  /** One armed pointer move from pixel `from` to pixel `to`: the pixel delta,
      converted to content units by `size / canvas`, is subtracted from the
      origin, so the content under the pointer follows the pointer. */
  function DragPan(vb: ViewBox, from: Coord, to: Coord, canvasWidth: real, canvasHeight: real): (r: ViewBox)
    requires ValidCanvas(canvasWidth, canvasHeight)
    ensures r.width == vb.width && r.height == vb.height
  {
    var svgDx := (to.x - from.x) * (vb.width / canvasWidth);
    var svgDy := (to.y - from.y) * (vb.height / canvasHeight);
    Pan(vb, -svgDx, -svgDy)
  }

  /** A sequence of armed pointer moves starting at pixel `anchor`; after each
      move the pointer's position becomes the new anchor. */
  function FollowPointer(vb: ViewBox, anchor: Coord, moves: seq<Coord>, canvasWidth: real, canvasHeight: real): (r: ViewBox)
    requires ValidCanvas(canvasWidth, canvasHeight)
    ensures r.width == vb.width && r.height == vb.height
    decreases |moves|
  {
    if moves == [] then vb
    else FollowPointer(DragPan(vb, anchor, moves[0], canvasWidth, canvasHeight), moves[0], moves[1..],
                       canvasWidth, canvasHeight)
  }

  /** Two consecutive armed moves equal one move over the combined delta. */
  lemma DragPanComposes(vb: ViewBox, a: Coord, b: Coord, c: Coord, canvasWidth: real, canvasHeight: real)
    requires ValidCanvas(canvasWidth, canvasHeight)
    ensures DragPan(DragPan(vb, a, b, canvasWidth, canvasHeight), b, c, canvasWidth, canvasHeight)
         == DragPan(vb, a, c, canvasWidth, canvasHeight)
  {
    var kx, ky := vb.width / canvasWidth, vb.height / canvasHeight;
    assert -((b.x - a.x) * kx) + -((c.x - b.x) * kx) == -((c.x - a.x) * kx);
    assert -((b.y - a.y) * ky) + -((c.y - b.y) * ky) == -((c.y - a.y) * ky);
  }

  /** However the pointer travels, the origin moves by minus the total pixel
      delta from the first anchor to the last position, in content units. */
  lemma {:induction false} FollowPointerSums(vb: ViewBox, anchor: Coord, moves: seq<Coord>, canvasWidth: real, canvasHeight: real)
    requires ValidCanvas(canvasWidth, canvasHeight)
    requires moves != []
    ensures FollowPointer(vb, anchor, moves, canvasWidth, canvasHeight)
         == DragPan(vb, anchor, moves[|moves| - 1], canvasWidth, canvasHeight)
    decreases |moves|
  {
    var first := DragPan(vb, anchor, moves[0], canvasWidth, canvasHeight);
    if |moves| > 1 {
      FollowPointerSums(first, moves[0], moves[1..], canvasWidth, canvasHeight);
      DragPanComposes(vb, anchor, moves[0], moves[|moves| - 1], canvasWidth, canvasHeight);
    }
  }

  /** The content point under pixel `m`, written as the canvas hook writes it:
      `m / zoomLevel + origin` with `zoomLevel = canvasWidth / width`, on both axes. */
  function PixelToContent(vb: ViewBox, canvasWidth: real, m: Coord): (c: Coord)
    requires 0.0 < canvasWidth && vb.width != 0.0
    ensures (c.x - vb.minX) * canvasWidth == m.x * vb.width
    ensures (c.y - vb.minY) * canvasWidth == m.y * vb.width
  {
    var zoomLevel := canvasWidth / vb.width;
    Coord(m.x / zoomLevel + vb.minX, m.y / zoomLevel + vb.minY)
  }

  /** The hook's pixel-to-content mapping is the one the zoom uses; on the
      vertical axis this needs the box to have the canvas's aspect ratio. */
  lemma PixelToContentIsContentAt(vb: ViewBox, canvasWidth: real, canvasHeight: real, m: Coord)
    requires ValidCanvas(canvasWidth, canvasHeight) && 0.0 < vb.width
    ensures PixelToContent(vb, canvasWidth, m).x == ContentAt(vb, canvasWidth, canvasHeight, m).x
    ensures vb.width * canvasHeight == vb.height * canvasWidth ==>
      PixelToContent(vb, canvasWidth, m) == ContentAt(vb, canvasWidth, canvasHeight, m)
  {
    var zoomLevel := canvasWidth / vb.width;
    assert m.x / zoomLevel == m.x / canvasWidth * vb.width;
    if vb.width * canvasHeight == vb.height * canvasWidth {
      assert vb.height == vb.width * canvasHeight / canvasWidth;
      assert m.y / zoomLevel == m.y / canvasHeight * vb.height;
    }
  }

  /** `(c - origin) * zoomLevel` recovers the pixel a content point came from. */
  lemma PixelToContentRoundTrip(vb: ViewBox, canvasWidth: real, m: Coord)
    requires 0.0 < canvasWidth && vb.width != 0.0
    ensures var c := PixelToContent(vb, canvasWidth, m);
      (c.x - vb.minX) * (canvasWidth / vb.width) == m.x &&
      (c.y - vb.minY) * (canvasWidth / vb.width) == m.y
  {
    var zoomLevel := canvasWidth / vb.width;
    assert zoomLevel != 0.0;
    assert m.x / zoomLevel * zoomLevel == m.x;
    assert m.y / zoomLevel * zoomLevel == m.y;
  }
}
