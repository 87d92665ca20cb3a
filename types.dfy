/** Values shared by the editor's components: optional values, points, and the
    tagged shape items that are drawn on the canvas. */
module Types {

  /** A value that may be absent (`null` / `undefined` in the editor). */
  datatype Option<T> = None | Some(value: T) {
    /** The value when present, otherwise `default`. */
    function GetOr(default: T): T {
      if Some? then value else default
    }
  }

  /** A point: canvas pixels or content-space units, depending on where it is used. */
  datatype Coord = Coord(x: real, y: real)

  /** One drawn item. The constructor is the item's `type` tag ("rect", "circle",
      "polygon"); `id` is its identifier; the remaining fields are its `attr` record:
      the geometry of its kind followed by the style fields every kind shares. */
  datatype Shape =
    | Rect(id: int, x: real, y: real, width: real, height: real,
           fill: string, fillOpacity: real, stroke: string, strokeWidth: real)
    | Circle(id: int, cx: real, cy: real, r: real,
             fill: string, fillOpacity: real, stroke: string, strokeWidth: real)
    | Polygon(id: int, cx: real, cy: real, r: real, sides: int,
              fill: string, fillOpacity: real, stroke: string, strokeWidth: real)

  /** Both items carry the same type tag. */
  predicate SameKind(a: Shape, b: Shape) {
    (a.Rect? && b.Rect?) || (a.Circle? && b.Circle?) || (a.Polygon? && b.Polygon?)
  }

  /** Both items have the same style fields. */
  predicate SameStyle(a: Shape, b: Shape) {
    a.fill == b.fill && a.fillOpacity == b.fillOpacity &&
    a.stroke == b.stroke && a.strokeWidth == b.strokeWidth
  }

  /** A partial attribute record (`Partial<attr>`): a field that is `Some`
      is supplied, a field that is `None` is left out of the object. */
  datatype Patch = Patch(
    x: Option<real>, y: Option<real>, width: Option<real>, height: Option<real>,
    cx: Option<real>, cy: Option<real>, r: Option<real>, sides: Option<int>,
    fill: Option<string>, fillOpacity: Option<real>,
    stroke: Option<string>, strokeWidth: Option<real>)

  /** The patch `{}` that supplies no field. */
  const EmptyPatch: Patch :=
    Patch(None, None, None, None, None, None, None, None, None, None, None, None)
}
