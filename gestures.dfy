/** What the editor's tools do to one item: the cursor each tool shows, the
    zero-sized item a drawing tool starts with, and the attribute patches a
    pointer move applies while drawing or moving an item. */
module Gestures {
  import opened Types
  import opened ShapeUtils
  import opened ShapeList
  import opened ShapeFactory

  /** The editor's tools; `None` is "no tool" (selection). */
  datatype Tool = RectangleTool | CircleTool | PolygonTool | GrabTool

  /** The cursor shown over the canvas. */
  function GetCursor(tool: Option<Tool>): (c: string)
    ensures c == "default" <==> tool.None?
    ensures c == "grab" <==> tool == Some(GrabTool)
    ensures c == "crosshair" <==> tool.Some? && tool.value != GrabTool
  {
    match tool
    case None => "default"
    case Some(GrabTool) => "grab"
    case Some(_) => "crosshair"
  }

  /** The drawing tool `tool` makes items of the kind of `s`. */
  predicate Draws(tool: Tool, s: Shape) {
    match tool
    case RectangleTool => s.Rect?
    case CircleTool => s.Circle?
    case PolygonTool => s.Polygon?
    case GrabTool => false
  }

  /** The item a mouse-down with `tool` appends, with id `id`, at the drag
      start `start`: a rectangle of size 0, a circle of radius 0 or a
      pentagon of radius 0, all in the default style; the grab tool appends
      nothing. */
  function NewShapeFor(tool: Tool, id: int, start: Coord): (r: Option<Shape>)
    ensures r.None? <==> tool == GrabTool
    ensures r.Some? ==> Draws(tool, r.value) && r.value.id == id && GetCoords(r.value) == start
    ensures r.Some? && r.value.Rect? ==> r.value.width == 0.0 && r.value.height == 0.0
    ensures r.Some? && !r.value.Rect? ==> r.value.r == 0.0
    ensures r.Some? && r.value.Polygon? ==> r.value.sides == 5
    ensures r.Some? ==> r.value.fill == DefaultFill && r.value.fillOpacity == DefaultFillOpacity &&
                        r.value.stroke == DefaultStroke && r.value.strokeWidth == DefaultStrokeWidth
  {
    match tool
    case RectangleTool => Some(Build(id, RectGeometry(start.x, start.y, 0.0, 0.0), NoStyle))
    case CircleTool => Some(Build(id, CircleGeometry(start.x, start.y, 0.0), NoStyle))
    case PolygonTool => Some(Build(id, PolygonGeometry(start.x, start.y, 0.0, 5), NoStyle))
    case GrabTool => None
  }

  function Min(a: real, b: real): real {
    if a <= b then a else b
  }

  function Abs(a: real): real {
    if a < 0.0 then -a else a
  }

  /** The patch a rectangle drag applies: the corner nearest the origin of
      the start and the pointer, and the absolute deltas as the size. */
  function RectPatch(start: Coord, pos: Coord): (p: Patch)
    ensures p == EmptyPatch.(x := p.x, y := p.y, width := p.width, height := p.height)
    ensures p.x.Some? && p.y.Some? && p.width.Some? && p.height.Some?
    ensures 0.0 <= p.width.value && {p.x.value, p.x.value + p.width.value} == {start.x, pos.x}
    ensures 0.0 <= p.height.value && {p.y.value, p.y.value + p.height.value} == {start.y, pos.y}
  {
    EmptyPatch.(x := Some(Min(pos.x, start.x)), y := Some(Min(pos.y, start.y)),
                width := Some(Abs(pos.x - start.x)), height := Some(Abs(pos.y - start.y)))
  }

  /** A rectangle dragged from `start` to `pos` spans exactly the two points
      on each axis, whichever way the pointer went; the id and the style are
      kept. */
  function RectSpan(last: Shape, start: Coord, pos: Coord): (r: Shape)
    requires last.Rect?
    ensures r.Rect? && r.id == last.id && SameStyle(r, last)
    ensures 0.0 <= r.width && {r.x, r.x + r.width} == {start.x, pos.x}
    ensures 0.0 <= r.height && {r.y, r.y + r.height} == {start.y, pos.y}
  {
    Merge(last, RectPatch(start, pos))
  }

  /** Dragging from (50, 50) to (10, 80) gives the rectangle at (10, 50) of
      size 40 by 30. */
  lemma RectSpanExample(last: Shape)
    requires last.Rect?
    ensures var r := RectSpan(last, Coord(50.0, 50.0), Coord(10.0, 80.0));
      r.x == 10.0 && r.y == 50.0 && r.width == 40.0 && r.height == 30.0
  {
  }

  /** A circle or polygon drag sets the radius to the distance from the
      item's centre to the pointer and changes nothing else; with an exact
      square root that radius is the non-negative root of the squared
      distance. */
  function RadiusTo(last: Shape, pos: Coord, sqrt: real -> real): (r: Shape)
    requires !last.Rect?
    ensures r == last.(r := CalculateDistance(GetCoords(last), pos, sqrt))
    ensures IsSqrt(sqrt) ==> 0.0 <= r.r && r.r * r.r == SquaredDistance(Coord(last.cx, last.cy), pos)
  {
    Merge(last, EmptyPatch.(r := Some(CalculateDistance(GetCoords(last), pos, sqrt))))
  }

  /** Releasing a radius drag on the centre itself gives radius zero. */
  lemma RadiusAtCentreIsZero(last: Shape, sqrt: real -> real)
    requires !last.Rect? && IsSqrt(sqrt)
    ensures RadiusTo(last, GetCoords(last), sqrt).r == 0.0
  {
    DistanceToSelfIsZero(GetCoords(last), sqrt);
  }

  /** The patch a grab drag applies: the anchor becomes
      `start + (pos - start)` on each axis. */
  function GrabPatch(sel: Shape, start: Coord, pos: Coord): (p: Patch)
    ensures sel.Rect? ==> p == EmptyPatch.(x := Some(pos.x), y := Some(pos.y))
    ensures !sel.Rect? ==> p == EmptyPatch.(cx := Some(pos.x), cy := Some(pos.y))
  {
    var x := start.x + (pos.x - start.x);
    var y := start.y + (pos.y - start.y);
    if sel.Rect? then EmptyPatch.(x := Some(x), y := Some(y))
    else EmptyPatch.(cx := Some(x), cy := Some(y))
  }

  /** Moving an item puts its anchor exactly at the pointer, wherever on the
      item the drag started; the kind, the size and the style are kept. */
  function GrabTo(sel: Shape, start: Coord, pos: Coord): (r: Shape)
    ensures GetCoords(r) == pos
    ensures r.id == sel.id && SameKind(r, sel) && SameStyle(r, sel)
    ensures r.Rect? ==> r.width == sel.width && r.height == sel.height
    ensures !r.Rect? ==> r.r == sel.r
    ensures r.Polygon? ==> r.sides == sel.sides
  {
    Merge(sel, GrabPatch(sel, start, pos))
  }

  /** The move does not depend on the drag start at all: two drags that end
      at the same pointer position leave the item in the same place. */
  lemma GrabIgnoresStart(sel: Shape, start1: Coord, start2: Coord, pos: Coord)
    ensures GrabTo(sel, start1, pos) == GrabTo(sel, start2, pos)
  {
  }
}
