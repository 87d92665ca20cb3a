/** Creating new items: each gets the next number from a counter that is
    shared by all kinds, and every style field the caller leaves out takes
    its default. */
module ShapeFactory {
  import opened Types

  const DefaultFill: string := "#000000"
  const DefaultFillOpacity: real := 0.0
  const DefaultStroke: string := "#000000"
  const DefaultStrokeWidth: real := 2.0

  /** The optional style part of a creation request (`Partial<Shared>`). */
  datatype StyleInput = StyleInput(fill: Option<string>, fillOpacity: Option<real>,
                                   stroke: Option<string>, strokeWidth: Option<real>)

  /** A request that supplies no style field. */
  const NoStyle: StyleInput := StyleInput(None, None, None, None)

  /** The geometry part of a creation request: the attributes of one kind
      other than the style fields. */
  datatype Geometry =
    | RectGeometry(x: real, y: real, width: real, height: real)
    | CircleGeometry(cx: real, cy: real, r: real)
    | PolygonGeometry(cx: real, cy: real, r: real, sides: int)

  /** The geometry an item carries. */
  function GeometryOf(s: Shape): Geometry {
    match s
    case Rect(_, x, y, w, h, _, _, _, _) => RectGeometry(x, y, w, h)
    case Circle(_, cx, cy, r, _, _, _, _) => CircleGeometry(cx, cy, r)
    case Polygon(_, cx, cy, r, n, _, _, _, _) => PolygonGeometry(cx, cy, r, n)
  }

  /** The item `{ id, type, attr: { ...defaults, ...input } }`: the kind and
      geometry requested, a supplied style field as given, a missing one at
      its default. */
  function Build(id: int, g: Geometry, style: StyleInput): (r: Shape)
    ensures r.id == id && GeometryOf(r) == g
    ensures style.fill.Some? ==> r.fill == style.fill.value
    ensures style.fill.None? ==> r.fill == DefaultFill
    ensures style.fillOpacity.Some? ==> r.fillOpacity == style.fillOpacity.value
    ensures style.fillOpacity.None? ==> r.fillOpacity == DefaultFillOpacity
    ensures style.stroke.Some? ==> r.stroke == style.stroke.value
    ensures style.stroke.None? ==> r.stroke == DefaultStroke
    ensures style.strokeWidth.Some? ==> r.strokeWidth == style.strokeWidth.value
    ensures style.strokeWidth.None? ==> r.strokeWidth == DefaultStrokeWidth
  {
    var fill := style.fill.GetOr(DefaultFill);
    var fillOpacity := style.fillOpacity.GetOr(DefaultFillOpacity);
    var stroke := style.stroke.GetOr(DefaultStroke);
    var strokeWidth := style.strokeWidth.GetOr(DefaultStrokeWidth);
    match g
    case RectGeometry(x, y, w, h) => Rect(id, x, y, w, h, fill, fillOpacity, stroke, strokeWidth)
    case CircleGeometry(cx, cy, r) => Circle(id, cx, cy, r, fill, fillOpacity, stroke, strokeWidth)
    case PolygonGeometry(cx, cy, r, n) => Polygon(id, cx, cy, r, n, fill, fillOpacity, stroke, strokeWidth)
  }

  /** An item is determined by its id, its geometry and its style fields, so
      building from an item's own parts with every style field supplied gives
      the item back. */
  lemma BuildFromParts(s: Shape)
    ensures Build(s.id, GeometryOf(s),
                  StyleInput(Some(s.fill), Some(s.fillOpacity), Some(s.stroke), Some(s.strokeWidth))) == s
  {
  }

  /** The module-level id counter together with the three creation functions. */
  class Factory {
    /** The id the next created item receives. */
    var idCounter: nat

    constructor ()
      ensures idCounter == 0
    {
      idCounter := 0;
    }

    /** A rectangle with the next id; the counter advances by one. */
    method CreateRect(x: real, y: real, width: real, height: real, style: StyleInput) returns (s: Shape)
      modifies this
      ensures s == Build(old(idCounter), RectGeometry(x, y, width, height), style)
      ensures s.Rect? && s.id == old(idCounter)
      ensures idCounter == old(idCounter) + 1
    {
      s := Build(idCounter, RectGeometry(x, y, width, height), style);
      idCounter := idCounter + 1;
    }

    /** A circle with the next id; the counter advances by one. */
    method CreateCircle(cx: real, cy: real, r: real, style: StyleInput) returns (s: Shape)
      modifies this
      ensures s == Build(old(idCounter), CircleGeometry(cx, cy, r), style)
      ensures s.Circle? && s.id == old(idCounter)
      ensures idCounter == old(idCounter) + 1
    {
      s := Build(idCounter, CircleGeometry(cx, cy, r), style);
      idCounter := idCounter + 1;
    }

    /** A polygon with the next id; the counter advances by one. */
    method CreatePolygon(cx: real, cy: real, r: real, sides: int, style: StyleInput) returns (s: Shape)
      modifies this
      ensures s == Build(old(idCounter), PolygonGeometry(cx, cy, r, sides), style)
      ensures s.Polygon? && s.id == old(idCounter)
      ensures idCounter == old(idCounter) + 1
    {
      s := Build(idCounter, PolygonGeometry(cx, cy, r, sides), style);
      idCounter := idCounter + 1;
    }
  }
}
