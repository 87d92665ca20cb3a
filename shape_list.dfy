/** The editor's ordered list of items and the pure operations on it:
    lookup by id, attribute patching, removal by id, and the splice-based
    move of one item to another index. */
module ShapeList {
  import opened Types

  /** No two items of the list share an id. */
  predicate UniqueIds(items: seq<Shape>) {
    forall i, j :: 0 <= i < |items| && 0 <= j < |items| && i != j ==> items[i].id != items[j].id
  }

  /** `after` is what a partial record's field leaves: the supplied value
      when there is one, otherwise the value `before`. */
  predicate Takes<T(==)>(supplied: Option<T>, before: T, after: T) {
    (supplied.Some? ==> after == supplied.value) && (supplied.None? ==> after == before)
  }

  /** `{ ...attr, ...patch }` on one item: every field the patch supplies and
      the item's kind has is replaced, every other field is kept; the id and
      the kind never change. */
  function Merge(s: Shape, p: Patch): (r: Shape)
    ensures r.id == s.id && SameKind(r, s)
    ensures Takes(p.fill, s.fill, r.fill) && Takes(p.fillOpacity, s.fillOpacity, r.fillOpacity)
    ensures Takes(p.stroke, s.stroke, r.stroke) && Takes(p.strokeWidth, s.strokeWidth, r.strokeWidth)
    ensures s.Rect? ==> Takes(p.x, s.x, r.x) && Takes(p.y, s.y, r.y) &&
                        Takes(p.width, s.width, r.width) && Takes(p.height, s.height, r.height)
    ensures !s.Rect? ==> Takes(p.cx, s.cx, r.cx) && Takes(p.cy, s.cy, r.cy) && Takes(p.r, s.r, r.r)
    ensures s.Polygon? ==> Takes(p.sides, s.sides, r.sides)
  {
    match s
    case Rect(id, x, y, w, h, f, fo, st, sw) =>
      Rect(id, p.x.GetOr(x), p.y.GetOr(y), p.width.GetOr(w), p.height.GetOr(h),
           p.fill.GetOr(f), p.fillOpacity.GetOr(fo), p.stroke.GetOr(st), p.strokeWidth.GetOr(sw))
    case Circle(id, cx, cy, r, f, fo, st, sw) =>
      Circle(id, p.cx.GetOr(cx), p.cy.GetOr(cy), p.r.GetOr(r),
             p.fill.GetOr(f), p.fillOpacity.GetOr(fo), p.stroke.GetOr(st), p.strokeWidth.GetOr(sw))
    case Polygon(id, cx, cy, r, n, f, fo, st, sw) =>
      Polygon(id, p.cx.GetOr(cx), p.cy.GetOr(cy), p.r.GetOr(r), p.sides.GetOr(n),
              p.fill.GetOr(f), p.fillOpacity.GetOr(fo), p.stroke.GetOr(st), p.strokeWidth.GetOr(sw))
  }

  /** The patch whose fields are those of `q` where `q` supplies them and
      those of `p` elsewhere: one spread of `{ ...p, ...q }`. */
  function Combine(p: Patch, q: Patch): Patch {
    Patch(
      if q.x.Some? then q.x else p.x, if q.y.Some? then q.y else p.y,
      if q.width.Some? then q.width else p.width, if q.height.Some? then q.height else p.height,
      if q.cx.Some? then q.cx else p.cx, if q.cy.Some? then q.cy else p.cy,
      if q.r.Some? then q.r else p.r, if q.sides.Some? then q.sides else p.sides,
      if q.fill.Some? then q.fill else p.fill,
      if q.fillOpacity.Some? then q.fillOpacity else p.fillOpacity,
      if q.stroke.Some? then q.stroke else p.stroke,
      if q.strokeWidth.Some? then q.strokeWidth else p.strokeWidth)
  }

  /** The empty patch changes nothing. */
  lemma MergeEmpty(s: Shape)
    ensures Merge(s, EmptyPatch) == s
  {
  }

  /** Applying one patch and then another is applying their combination, so
      the later patch wins where both supply a field. */
  lemma MergeTwice(s: Shape, p: Patch, q: Patch)
    ensures Merge(Merge(s, p), q) == Merge(s, Combine(p, q))
  {
  }

  /** Applying the same patch twice is applying it once. */
  lemma MergeIdempotent(s: Shape, p: Patch)
    ensures Merge(Merge(s, p), p) == Merge(s, p)
  {
    MergeTwice(s, p, p);
    assert Combine(p, p) == p;
  }

  /** setAttributes: every item whose id is `id` gets the patch, every other
      item is kept; the length, the order, the ids and the kinds are kept. */
  function SetAttributes(items: seq<Shape>, id: int, p: Patch): (r: seq<Shape>)
    ensures |r| == |items|
    ensures forall i :: 0 <= i < |r| ==> r[i].id == items[i].id && SameKind(r[i], items[i])
    ensures forall i :: 0 <= i < |r| && items[i].id != id ==> r[i] == items[i]
    ensures forall i :: 0 <= i < |r| && items[i].id == id ==> r[i] == Merge(items[i], p)
  {
    seq(|items|, i requires 0 <= i < |items| => if items[i].id == id then Merge(items[i], p) else items[i])
  }

  /** With unique ids, patching the id of the item at `k` rewrites that one
      position and no other. */
  lemma SetAttributesAt(items: seq<Shape>, k: int, p: Patch)
    requires UniqueIds(items) && 0 <= k < |items|
    ensures SetAttributes(items, items[k].id, p) == items[k := Merge(items[k], p)]
  {
    var r := SetAttributes(items, items[k].id, p);
    forall i | 0 <= i < |items|
      ensures r[i] == items[k := Merge(items[k], p)][i]
    {
      if i != k {
        assert items[i].id != items[k].id;
      }
    }
  }

  /** Patching an id that no item has changes nothing. */
  lemma SetAttributesAbsent(items: seq<Shape>, id: int, p: Patch)
    requires forall s :: s in items ==> s.id != id
    ensures SetAttributes(items, id, p) == items
  {
    var r := SetAttributes(items, id, p);
    forall i | 0 <= i < |items|
      ensures r[i] == items[i]
    {
      assert items[i] in items;
    }
  }

  /** Patching keeps the ids unique. */
  lemma SetAttributesKeepsUnique(items: seq<Shape>, id: int, p: Patch)
    requires UniqueIds(items)
    ensures UniqueIds(SetAttributes(items, id, p))
  {
  }

  /** removeElement: the items whose id is not `id`, in their order. */
  function RemoveById(items: seq<Shape>, id: int): (r: seq<Shape>)
    ensures forall s :: s in r <==> s in items && s.id != id
    ensures |r| <= |items|
    ensures (forall s :: s in items ==> s.id != id) ==> r == items
  {
    if items == [] then []
    else if items[0].id == id then RemoveById(items[1..], id)
    else [items[0]] + RemoveById(items[1..], id)
  }

  /** A list has unique ids exactly when its tail does and its head's id is
      not among the tail's. */
  lemma UniqueIdsCons(x: Shape, t: seq<Shape>)
    ensures UniqueIds([x] + t) <==> UniqueIds(t) && forall s :: s in t ==> s.id != x.id
  {
    var l := [x] + t;
    if UniqueIds(l) {
      forall s | s in t
        ensures s.id != x.id
      {
        var j :| 0 <= j < |t| && t[j] == s;
        assert l[0] == x && l[j + 1] == s;
      }
      forall i, j | 0 <= i < |t| && 0 <= j < |t| && i != j
        ensures t[i].id != t[j].id
      {
        assert l[i + 1] == t[i] && l[j + 1] == t[j];
      }
    }
    if UniqueIds(t) && forall s :: s in t ==> s.id != x.id {
      forall i, j | 0 <= i < |l| && 0 <= j < |l| && i != j
        ensures l[i].id != l[j].id
      {
        if i > 0 { assert l[i] == t[i - 1] && l[i] in t; }
        if j > 0 { assert l[j] == t[j - 1] && l[j] in t; }
      }
    }
  }

  /** Removal keeps the ids unique. */
  lemma {:induction false} RemoveByIdKeepsUnique(items: seq<Shape>, id: int)
    requires UniqueIds(items)
    ensures UniqueIds(RemoveById(items, id))
    decreases |items|
  {
    if items != [] {
      assert items == [items[0]] + items[1..];
      UniqueIdsCons(items[0], items[1..]);
      RemoveByIdKeepsUnique(items[1..], id);
      if items[0].id != id {
        UniqueIdsCons(items[0], RemoveById(items[1..], id));
      }
    }
  }

  /** With unique ids, removing the id of the item at `k` removes exactly
      that position. */
  lemma {:induction false} RemoveByIdAt(items: seq<Shape>, k: int)
    requires UniqueIds(items) && 0 <= k < |items|
    ensures RemoveById(items, items[k].id) == items[..k] + items[k + 1..]
    decreases |items|
  {
    var id := items[k].id;
    var tail := items[1..];
    assert items == [items[0]] + tail;
    UniqueIdsCons(items[0], tail);
    if k == 0 {
      assert RemoveById(items, id) == RemoveById(tail, id);
    } else {
      RemoveByIdAtTail(items, k);
    }
  }

  /** The step of `RemoveByIdAt` for a position past the head. */
  lemma {:induction false} RemoveByIdAtTail(items: seq<Shape>, k: int)
    requires UniqueIds(items) && 0 < k < |items|
    ensures RemoveById(items, items[k].id) == items[..k] + items[k + 1..]
    decreases |items|, 0
  {
    var id := items[k].id;
    var tail := items[1..];
    assert items[0].id != id;
    assert UniqueIds(tail) by {
      assert items == [items[0]] + tail;
      UniqueIdsCons(items[0], tail);
    }
    assert tail[k - 1] == items[k];
    RemoveByIdAt(tail, k - 1);
    calc {
      RemoveById(items, id);
      [items[0]] + RemoveById(tail, id);
      [items[0]] + (tail[..k - 1] + tail[k..]);
      { assert tail[..k - 1] == items[1..k] && tail[k..] == items[k + 1..]; }
      [items[0]] + items[1..k] + items[k + 1..];
      { assert items[..k] == [items[0]] + items[1..k]; }
      items[..k] + items[k + 1..];
    }
  }

  /** `findIndex`: the first position whose id is `id`, or -1 when none is. */
  function IndexOf(items: seq<Shape>, id: int): (i: int)
    ensures -1 <= i < |items|
    ensures 0 <= i ==> items[i].id == id && forall j :: 0 <= j < i ==> items[j].id != id
    ensures i == -1 <==> forall s :: s in items ==> s.id != id
  {
    if items == [] then -1
    else if items[0].id == id then 0
    else
      var k := IndexOf(items[1..], id);
      assert forall s :: s in items[1..] ==> s in items;
      assert forall s :: s in items && s != items[0] ==> s in items[1..];
      if k == -1 then -1 else k + 1
  }

  /** `find(el => el.id === id) ?? null`. */
  function FindById(items: seq<Shape>, id: int): (r: Option<Shape>)
    ensures r.Some? ==> r.value in items && r.value.id == id
    ensures r.None? <==> forall s :: s in items ==> s.id != id
  {
    var i := IndexOf(items, id);
    if i == -1 then None else Some(items[i])
  }

  /** The selected item: none without a selected id, otherwise the lookup. */
  function Selected(items: seq<Shape>, selectedId: Option<int>): (r: Option<Shape>)
    ensures selectedId.None? ==> r.None?
    ensures selectedId.Some? ==> r == FindById(items, selectedId.value)
  {
    if selectedId.None? then None else FindById(items, selectedId.value)
  }

  /** The sequence without position `i`: `splice(i, 1)` on an index in range. */
  function Removed<T>(s: seq<T>, i: int): (r: seq<T>)
    requires 0 <= i < |s|
    ensures |r| == |s| - 1
    ensures forall j :: 0 <= j < i ==> r[j] == s[j]
    ensures forall j :: i <= j < |r| ==> r[j] == s[j + 1]
  {
    s[..i] + s[i + 1..]
  }

  /** Where `splice(start, ...)` acts on an array of length `len`: a negative
      start counts from the end (and stops at 0), a start past the end is the
      end. */
  function SpliceStart(start: int, len: nat): (k: nat)
    ensures k <= len
    ensures 0 <= start <= len ==> k == start
    ensures len < start ==> k == len
    ensures start < 0 && 0 <= len + start ==> k == len + start
    ensures len + start < 0 ==> k == 0
  {
    if start < 0 then (if len + start < 0 then 0 else len + start)
    else if len < start then len
    else start
  }

  /** reorderElement: take the item at `from` out, then insert it at
      `to` of what remains. */
  function Reordered<T>(s: seq<T>, from: int, to: int): (r: seq<T>)
    requires 0 <= from < |s|
    ensures |r| == |s| && r[SpliceStart(to, |s| - 1)] == s[from]
  {
    var rest := Removed(s, from);
    var k := SpliceStart(to, |rest|);
    rest[..k] + [s[from]] + rest[k..]
  }

  /** A reorder is a permutation: same length, same items with the same
      multiplicities. */
  lemma ReorderPermutes<T>(s: seq<T>, from: int, to: int)
    requires 0 <= from < |s|
    ensures |Reordered(s, from, to)| == |s|
    ensures multiset(Reordered(s, from, to)) == multiset(s)
  {
    var rest := Removed(s, from);
    var k := SpliceStart(to, |rest|);
    assert s == s[..from] + [s[from]] + s[from + 1..];
    assert rest == rest[..k] + rest[k..];
    calc {
      multiset(Reordered(s, from, to));
      multiset(rest[..k]) + multiset([s[from]]) + multiset(rest[k..]);
      multiset(rest) + multiset([s[from]]);
      multiset(s[..from]) + multiset(s[from + 1..]) + multiset([s[from]]);
      multiset(s);
    }
  }

  /** For a target index in range, the moved item lands exactly there, and
      taking it out again leaves the other items in their original order. */
  lemma ReorderMovesOne<T>(s: seq<T>, from: int, to: int)
    requires 0 <= from < |s| && 0 <= to < |s|
    ensures Reordered(s, from, to)[to] == s[from]
    ensures Removed(Reordered(s, from, to), to) == Removed(s, from)
  {
    var rest := Removed(s, from);
    var r := Reordered(s, from, to);
    assert SpliceStart(to, |rest|) == to;
    assert r[..to] == rest[..to];
    assert r[to + 1..] == rest[to..];
  }

  /** Moving an item from `from` to `to` and back again restores the list. */
  lemma ReorderRoundTrip<T>(s: seq<T>, from: int, to: int)
    requires 0 <= from < |s| && 0 <= to < |s|
    ensures Reordered(Reordered(s, from, to), to, from) == s
  {
    var r := Reordered(s, from, to);
    ReorderPermutes(s, from, to);
    ReorderMovesOne(s, from, to);
    var rest := Removed(s, from);
    assert Removed(r, to) == rest;
    assert SpliceStart(from, |rest|) == from;
    assert Reordered(r, to, from) == rest[..from] + [s[from]] + rest[from..];
    assert rest[..from] == s[..from];
    assert rest[from..] == s[from + 1..];
    assert s == s[..from] + [s[from]] + s[from + 1..];
  }

  /** Moving an item one step towards the end swaps it with its neighbour. */
  lemma ReorderAdjacentSwaps<T>(s: seq<T>, i: int)
    requires 0 <= i && i + 1 < |s|
    ensures Reordered(s, i, i + 1) == s[i := s[i + 1]][i + 1 := s[i]]
  {
    var rest := Removed(s, i);
    assert SpliceStart(i + 1, |rest|) == i + 1;
    var r := Reordered(s, i, i + 1);
    assert |r| == |s|;
    forall j | 0 <= j < |s|
      ensures r[j] == s[i := s[i + 1]][i + 1 := s[i]][j]
    {
      if j < i + 1 {
        assert r[j] == rest[j];
      } else if j > i + 1 {
        assert r[j] == rest[j - 1];
      }
    }
  }

  /** Moving an item one step towards the start swaps it with its neighbour. */
  lemma ReorderAdjacentSwapsBack<T>(s: seq<T>, i: int)
    requires 0 <= i && i + 1 < |s|
    ensures Reordered(s, i + 1, i) == s[i := s[i + 1]][i + 1 := s[i]]
  {
    var rest := Removed(s, i + 1);
    assert SpliceStart(i, |rest|) == i;
    var r := Reordered(s, i + 1, i);
    assert |r| == |s|;
    forall j | 0 <= j < |s|
      ensures r[j] == s[i := s[i + 1]][i + 1 := s[i]][j]
    {
      if j < i {
        assert r[j] == rest[j];
      } else if j > i {
        assert r[j] == rest[j - 1];
      }
    }
  }

  /** Moving the first of three items to the last index: [A, B, C] becomes
      [B, C, A]. */
  lemma ReorderExample<T>(a: T, b: T, c: T)
    ensures Reordered([a, b, c], 0, 2) == [b, c, a]
  {
    assert Removed([a, b, c], 0) == [b, c];
  }

  /** A negative target counts from the end of the shortened list: moving
      the first of three items to -1 inserts it before the last remaining
      item, [A, B, C] becomes [B, A, C]. */
  lemma ReorderNegativeTarget<T>(a: T, b: T, c: T)
    ensures Reordered([a, b, c], 0, -1) == [b, a, c]
  {
    assert Removed([a, b, c], 0) == [b, c];
    assert SpliceStart(-1, 2) == 1;
  }

  /** Dropping one position keeps the ids unique, and the dropped item's id
      no longer occurs. */
  lemma RemovedKeepsUnique(items: seq<Shape>, k: int)
    requires UniqueIds(items) && 0 <= k < |items|
    ensures UniqueIds(Removed(items, k))
    ensures forall s :: s in Removed(items, k) ==> s.id != items[k].id
  {
    var rest := Removed(items, k);
    forall i, j | 0 <= i < |rest| && 0 <= j < |rest| && i != j
      ensures rest[i].id != rest[j].id
    {
      var oi := if i < k then i else i + 1;
      var oj := if j < k then j else j + 1;
      assert rest[i] == items[oi] && rest[j] == items[oj];
    }
    forall s | s in rest
      ensures s.id != items[k].id
    {
      var i :| 0 <= i < |rest| && rest[i] == s;
      var oi := if i < k then i else i + 1;
      assert rest[i] == items[oi];
    }
  }

  /** Inserting an item whose id does not occur keeps the ids unique. */
  lemma InsertKeepsUnique(rest: seq<Shape>, k: int, x: Shape)
    requires UniqueIds(rest) && 0 <= k <= |rest|
    requires forall s :: s in rest ==> s.id != x.id
    ensures UniqueIds(rest[..k] + [x] + rest[k..])
  {
    var r := rest[..k] + [x] + rest[k..];
    forall i, j | 0 <= i < |r| && 0 <= j < |r| && i != j
      ensures r[i].id != r[j].id
    {
      if i != k && j != k {
        var oi := if i < k then i else i - 1;
        var oj := if j < k then j else j - 1;
        assert r[i] == rest[oi] && r[j] == rest[oj];
      } else if i == k {
        var oj := if j < k then j else j - 1;
        assert r[j] == rest[oj] && rest[oj] in rest;
      } else {
        var oi := if i < k then i else i - 1;
        assert r[i] == rest[oi] && rest[oi] in rest;
      }
    }
  }

  /** A reorder keeps the ids unique and the set of items. */
  lemma ReorderKeepsUnique(items: seq<Shape>, from: int, to: int)
    requires UniqueIds(items) && 0 <= from < |items|
    ensures UniqueIds(Reordered(items, from, to))
    ensures forall s :: s in Reordered(items, from, to) <==> s in items
  {
    var rest := Removed(items, from);
    RemovedKeepsUnique(items, from);
    InsertKeepsUnique(rest, SpliceStart(to, |rest|), items[from]);
    ReorderPermutes(items, from, to);
    var r := Reordered(items, from, to);
    forall s
      ensures s in r <==> s in items
    {
      assert s in r <==> s in multiset(r);
      assert s in items <==> s in multiset(items);
    }
  }
}
