/** Geometry helpers: the anchor point of an item, the distance between two
    points, and the number of vertices a polygon's outline is drawn with. */
module ShapeUtils {
  import opened Types

  /** The item's anchor: the top-left corner of a rectangle, the centre of a
      circle or polygon. The match covers every kind, so the unhandled-case
      branch of the source cannot be reached. */
  function GetCoords(shape: Shape): (c: Coord)
    ensures shape.Rect? ==> c == Coord(shape.x, shape.y)
    ensures !shape.Rect? ==> c == Coord(shape.cx, shape.cy)
  {
    match shape
    case Rect(_, x, y, _, _, _, _, _, _) => Coord(x, y)
    case Circle(_, cx, cy, _, _, _, _, _) => Coord(cx, cy)
    case Polygon(_, cx, cy, _, _, _, _, _, _) => Coord(cx, cy)
  }

  /** `(p1.x - p2.x)^2 + (p1.y - p2.y)^2`, never negative; zero when the points coincide. */
  function SquaredDistance(p1: Coord, p2: Coord): (d2: real)
    ensures 0.0 <= d2
    ensures p1 == p2 ==> d2 == 0.0
  {
    SumOfSquaresNonNegative(p1.x - p2.x, p1.y - p2.y);
    (p1.x - p2.x) * (p1.x - p2.x) + (p1.y - p2.y) * (p1.y - p2.y)
  }

  /** A sum of two squares is never negative. */
  lemma SumOfSquaresNonNegative(a: real, b: real)
    ensures 0.0 <= a * a + b * b
  {
    assert 0.0 <= a * a;
    assert 0.0 <= b * b;
  }

  /** `sqrt` returns the non-negative square root of every non-negative real. */
  ghost predicate IsSqrt(sqrt: real -> real) {
    forall v: real :: 0.0 <= v ==> 0.0 <= sqrt(v) && sqrt(v) * sqrt(v) == v
  }

  /** Euclidean distance; the platform square root is the parameter `sqrt`.
      With an exact square root the result is the non-negative number whose
      square is the squared distance. */
  function CalculateDistance(p1: Coord, p2: Coord, sqrt: real -> real): (d: real)
    ensures IsSqrt(sqrt) ==> 0.0 <= d && d * d == SquaredDistance(p1, p2)
  {
    sqrt(SquaredDistance(p1, p2))
  }

  /** The distance does not depend on the order of its arguments. */
  lemma DistanceSymmetric(p1: Coord, p2: Coord, sqrt: real -> real)
    ensures CalculateDistance(p1, p2, sqrt) == CalculateDistance(p2, p1, sqrt)
  {
    assert (p1.x - p2.x) * (p1.x - p2.x) == (p2.x - p1.x) * (p2.x - p1.x);
    assert (p1.y - p2.y) * (p1.y - p2.y) == (p2.y - p1.y) * (p2.y - p1.y);
    assert SquaredDistance(p1, p2) == SquaredDistance(p2, p1);
  }

  /** With an exact square root, a point is at distance zero from itself. */
  lemma DistanceToSelfIsZero(p: Coord, sqrt: real -> real)
    requires IsSqrt(sqrt)
    ensures CalculateDistance(p, p, sqrt) == 0.0
  {
    var d := CalculateDistance(p, p, sqrt);
    assert d * d == 0.0;
    ZeroProduct(d, d);
  }

  /** A zero product has a zero factor. */
  lemma ZeroProduct(a: real, b: real)
    requires a * b == 0.0
    ensures a == 0.0 || b == 0.0
  {
  }

  /** From the centre (100, 100) to the pointer (130, 140) the squared distance
      is 30^2 + 40^2 = 2500 and the distance is 50. */
  lemma DistanceExample(sqrt: real -> real)
    requires IsSqrt(sqrt)
    ensures SquaredDistance(Coord(100.0, 100.0), Coord(130.0, 140.0)) == 2500.0
    ensures CalculateDistance(Coord(100.0, 100.0), Coord(130.0, 140.0), sqrt) == 50.0
  {
    var d := CalculateDistance(Coord(100.0, 100.0), Coord(130.0, 140.0), sqrt);
    assert d * d == 2500.0 && 0.0 <= d;
    calc {
      (d - 50.0) * (d + 50.0);
    ==
      d * d - 2500.0;
    ==
      0.0;
    }
    ZeroProduct(d - 50.0, d + 50.0);
  }

  /** The vertices of a regular polygon's outline, by step number: the loop
      runs i = 0 .. sides inclusive and pushes one vertex per step, so the
      first vertex is repeated at the end. Vertex i lies at angle
      `i * 2pi / sides + shift` from the centre; that trigonometry is not part
      of this model, so each vertex is represented by its step number i. */
  method GetPolygonPath(sides: int) returns (points: seq<int>)
    ensures |points| == if sides < 0 then 0 else sides + 1
    ensures forall k :: 0 <= k < |points| ==> points[k] == k
  {
    points := [];
    var i := 0;
    while i <= sides
      invariant 0 <= i
      invariant if sides < 0 then i == 0 else i <= sides + 1
      invariant |points| == i
      invariant forall k :: 0 <= k < i ==> points[k] == k
    {
      points := points + [i];
      i := i + 1;
    }
  }
}
