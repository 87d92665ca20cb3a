/** The editor component: the list of items, the selected id, the active
    tool, the canvas hook and the shape factory, and the handlers the canvas,
    the items and the keyboard call. Every update takes effect at once, in
    the order the handler makes it. */
module App {
  import opened Types
  import opened Viewport
  import opened ShapeUtils
  import opened ShapeList
  import opened ShapeFactory
  import opened PanAndZoom
  import opened Gestures

  /** The parts of a mouse event the handlers read: the button, the
      position in the window and the position on the canvas element. */
  datatype MouseEvent = MouseEvent(button: int, client: Coord, offset: Coord)

  /** The last item of a non-empty list. */
  function Last(items: seq<Shape>): Shape
    requires items != []
  {
    items[|items| - 1]
  }

  /** The keys that delete the selected item. */
  predicate IsDeleteKey(key: string) {
    key == "Delete" || key == "x"
  }

  /** The keys that move the selected item one place in the list. */
  predicate IsMoveKey(key: string) {
    key == "f" || key == "b"
  }

  /** "b" moves towards the end of the list, any other key towards the start. */
  function KeyDelta(key: string): int {
    if key == "b" then 1 else -1
  }

  /** Moving an item to a neighbouring index swaps the two. */
  lemma ReorderNeighbourSwaps<T>(s: seq<T>, k: int, n: int)
    requires 0 <= k < |s| && 0 <= n < |s| && (n == k + 1 || n == k - 1)
    ensures Reordered(s, k, n) == s[k := s[n]][n := s[k]]
  {
    if n == k + 1 {
      ReorderAdjacentSwaps(s, k);
    } else {
      ReorderAdjacentSwapsBack(s, n);
      assert s[n := s[k]][k := s[n]] == s[k := s[n]][n := s[k]];
    }
  }

  /** What handleMouseMove does to the list `before`, given the tool, the
      selected id and the drag start it reads, the pointer `pos` in content
      coordinates, and whether the source's assertion held (`ok`). Nothing
      changes with no tool, an empty list or no drag start. A drawing tool
      reshapes the last item, which must be of the tool's kind: a rectangle
      spans the drag start and the pointer, a circle or polygon gets the
      radius from its centre to the pointer. The grab tool moves the
      selected item's anchor to the pointer. */
  ghost predicate MoveOutcome(tool: Option<Tool>, before: seq<Shape>, selectedId: Option<int>,
                              dragStart: Option<Coord>, pos: Coord, sqrt: real -> real,
                              ok: bool, after: seq<Shape>)
  {
    (!ok ==> after == before) &&
    (tool.None? || before == [] || dragStart.None? ==> ok && after == before) &&
    (tool.Some? && tool.value != GrabTool && before != [] && dragStart.Some? ==>
      var last := Last(before);
      var start := dragStart.value;
      (ok <==> Draws(tool.value, last)) &&
      (ok && last.Rect? ==> after == before[|before| - 1 := RectSpan(last, start, pos)]) &&
      (ok && !last.Rect? ==> after == before[|before| - 1 := RadiusTo(last, pos, sqrt)])) &&
    (tool == Some(GrabTool) && before != [] && dragStart.Some? ==>
      var sel := Selected(before, selectedId);
      var start := dragStart.value;
      ok &&
      (sel.None? ==> after == before) &&
      (sel.Some? ==>
        var k := IndexOf(before, sel.value.id);
        after == before[k := GrabTo(before[k], start, pos)]))
  }

  /** What a mouse-down with `tool` does to the list `before` when the
      factory's next id is `id` and the drag start is `start`: a drawing tool
      appends its zero-sized item and advances the counter to `counter`,
      the grab tool appends nothing and leaves the counter. */
  ghost predicate StartsItem(tool: Tool, id: int, start: Coord, before: seq<Shape>, after: seq<Shape>, counter: int)
  {
    var shape := NewShapeFor(tool, id, start);
    (shape.Some? ==> after == before + [shape.value] && counter == id + 1) &&
    (shape.None? ==> after == before && counter == id)
  }

  class Editor {
    var items: seq<Shape>
    var selectedId: Option<int>
    var activeTool: Option<Tool>
    const canvas: Canvas
    const factory: Factory

    /** The canvas is consistent, the ids are unique, and every id is one the
        factory has already handed out, so the next one is new. */
    ghost predicate Valid()
      reads this, canvas, factory
    {
      canvas.Valid() &&
      UniqueIds(items) &&
      forall s :: s in items ==> 0 <= s.id < factory.idCounter
    }

    /** The editor opens with a hexagon, a circle and a rectangle, made by the
        factory in that order (ids 0, 1, 2), with the circle selected and no
        tool. */
    constructor (canvasWidth: real, canvasHeight: real)
      requires ValidCanvas(canvasWidth, canvasHeight)
      ensures Valid() && fresh(canvas) && fresh(factory)
      ensures items == [
        Build(0, PolygonGeometry(150.0, 150.0, 30.0, 6), StyleInput(Some("#00dd00"), Some(1.0), Some("#800080"), None)),
        Build(1, CircleGeometry(150.0, 150.0, 50.0), StyleInput(Some("#FF0000"), Some(1.0), None, None)),
        Build(2, RectGeometry(50.0, 50.0, 200.0, 100.0), StyleInput(Some("#BBC42A"), Some(1.0), None, Some(0.0)))]
      ensures selectedId == Some(1) && activeTool == None && factory.idCounter == 3
      ensures canvas.viewBox == InitialViewBox(canvasWidth, canvasHeight) && canvas.dragStart == None
      ensures canvas.canvasWidth == canvasWidth && canvas.canvasHeight == canvasHeight
    {
      var f := new Factory();
      var polygon := f.CreatePolygon(150.0, 150.0, 30.0, 6, StyleInput(Some("#00dd00"), Some(1.0), Some("#800080"), None));
      var circle := f.CreateCircle(150.0, 150.0, 50.0, StyleInput(Some("#FF0000"), Some(1.0), None, None));
      var rect := f.CreateRect(50.0, 50.0, 200.0, 100.0, StyleInput(Some("#BBC42A"), Some(1.0), None, Some(0.0)));
      items := [polygon, circle, rect];
      selectedId := Some(1);
      activeTool := None;
      canvas := new Canvas(canvasWidth, canvasHeight);
      factory := f;
    }

    /** addElement: the item goes to the end of the list. */
    method AddElement(elem: Shape)
      modifies this
      ensures items == old(items) + [elem]
      ensures selectedId == old(selectedId) && activeTool == old(activeTool)
    {
      items := items + [elem];
    }

    /** removeElement: every item with the id leaves the list. */
    method RemoveElement(id: int)
      requires Valid()
      modifies this
      ensures Valid()
      ensures items == RemoveById(old(items), id)
      ensures selectedId == old(selectedId) && activeTool == old(activeTool)
    {
      RemoveByIdKeepsUnique(items, id);
      items := RemoveById(items, id);
    }

    /** setAttributes: the patch goes to every item with the id; with unique
        ids that is at most one position. */
    method SetAttributes(id: int, p: Patch)
      requires Valid()
      modifies this
      ensures Valid()
      ensures items == ShapeList.SetAttributes(old(items), id, p)
      ensures selectedId == old(selectedId) && activeTool == old(activeTool)
    {
      SetAttributesKeepsUnique(items, id, p);
      items := ShapeList.SetAttributes(items, id, p);
      assert forall s :: s in items ==> 0 <= s.id < factory.idCounter by {
        forall s | s in items
          ensures 0 <= s.id < factory.idCounter
        {
          var i :| 0 <= i < |items| && items[i] == s;
          assert old(items)[i] in old(items);
        }
      }
    }

    /** reorderElement: copy the list, take the item at `currentIndex` out,
        and put it back at `newIndex` of what remains. */
    method ReorderElement(currentIndex: int, newIndex: int)
      requires Valid() && 0 <= currentIndex < |items|
      modifies this
      ensures Valid()
      ensures items == Reordered(old(items), currentIndex, newIndex)
      ensures selectedId == old(selectedId) && activeTool == old(activeTool)
    {
      ReorderKeepsUnique(items, currentIndex, newIndex);
      var result := items;
      var removed := result[currentIndex];
      result := result[..currentIndex] + result[currentIndex + 1..];
      var at := SpliceStart(newIndex, |result|);
      result := result[..at] + [removed] + result[at..];
      items := result;
    }

    /** A toolbar button chooses the tool. */
    method SetActiveTool(tool: Option<Tool>)
      modifies this
      ensures activeTool == tool
      ensures items == old(items) && selectedId == old(selectedId)
    {
      activeTool := tool;
    }

    /** stopDrawing: releasing the button ends the gesture by clearing the
        tool; the drag start stays recorded. */
    method StopDrawing()
      modifies this
      ensures activeTool == None
      ensures items == old(items) && selectedId == old(selectedId)
    {
      activeTool := None;
    }

    /** The list's row click selects an item. */
    method Select(id: int)
      modifies this
      ensures selectedId == Some(id)
      ensures items == old(items) && activeTool == old(activeTool)
    {
      selectedId := Some(id);
    }

    /** handleMouseDown: with no tool nothing happens. With a tool the drag
        start is recorded in content coordinates, and a drawing tool appends
        the zero-sized item of its kind there with the factory's next id. */
    method HandleMouseDown(offset: Coord)
      requires Valid()
      modifies this, canvas, factory
      ensures Valid()
      ensures old(activeTool).None? ==>
        items == old(items) && canvas.dragStart == old(canvas.dragStart) &&
        factory.idCounter == old(factory.idCounter)
      ensures old(activeTool).Some? ==>
        var start := old(canvas.TakeZoomIntoAccount(offset));
        canvas.dragStart == Some(start) &&
        StartsItem(old(activeTool).value, old(factory.idCounter), start, old(items), items, factory.idCounter)
      ensures selectedId == old(selectedId) && activeTool == old(activeTool)
      ensures canvas.viewBox == old(canvas.viewBox) && canvas.mouseButtonDown == old(canvas.mouseButtonDown)
      ensures canvas.initialMousePosition == old(canvas.initialMousePosition)
    {
      if activeTool.None? {
        return;
      }
      var start := canvas.SetStartPos(offset);
      var id := factory.idCounter;
      match activeTool.value
      case RectangleTool =>
        var s := factory.CreateRect(start.x, start.y, 0.0, 0.0, NoStyle);
        AppendFreshKeepsUnique(items, s, id);
        AddElement(s);
      case CircleTool =>
        var s := factory.CreateCircle(start.x, start.y, 0.0, NoStyle);
        AppendFreshKeepsUnique(items, s, id);
        AddElement(s);
      case PolygonTool =>
        var s := factory.CreatePolygon(start.x, start.y, 0.0, 5, NoStyle);
        AppendFreshKeepsUnique(items, s, id);
        AddElement(s);
      case GrabTool =>
    }

    /** handleMouseMove: the list changes as `MoveOutcome` says, reading the
        recorded drag start and the pointer in content coordinates. When the
        last item is not of the drawing tool's kind the source's assertion
        fails, reported here as `ok == false` with nothing changed. */
    method HandleMouseMove(offset: Coord, sqrt: real -> real) returns (ok: bool)
      requires Valid()
      modifies this
      ensures Valid()
      ensures selectedId == old(selectedId) && activeTool == old(activeTool)
      ensures MoveOutcome(old(activeTool), old(items), old(selectedId), canvas.dragStart,
                          canvas.TakeZoomIntoAccount(offset), sqrt, ok, items)
    {
      ok := true;
      if activeTool.None? || |items| == 0 || canvas.dragStart.None? {
        return;
      }
      var start := canvas.dragStart.value;
      var newPos := canvas.TakeZoomIntoAccount(offset);
      var latestSvgItem := items[|items| - 1];
      var lastIndex := |items| - 1;
      match activeTool.value
      case RectangleTool =>
        if !latestSvgItem.Rect? {
          return false;
        }
        SetAttributesAt(items, lastIndex, RectPatch(start, newPos));
        SetAttributes(latestSvgItem.id, RectPatch(start, newPos));
      case CircleTool =>
        if !latestSvgItem.Circle? {
          return false;
        }
        var newRadius := CalculateDistance(GetCoords(latestSvgItem), newPos, sqrt);
        SetAttributesAt(items, lastIndex, EmptyPatch.(r := Some(newRadius)));
        SetAttributes(latestSvgItem.id, EmptyPatch.(r := Some(newRadius)));
      case PolygonTool =>
        if !latestSvgItem.Polygon? {
          return false;
        }
        var newRadius := CalculateDistance(GetCoords(latestSvgItem), newPos, sqrt);
        SetAttributesAt(items, lastIndex, EmptyPatch.(r := Some(newRadius)));
        SetAttributes(latestSvgItem.id, EmptyPatch.(r := Some(newRadius)));
      case GrabTool =>
        var selectedElement := Selected(items, selectedId);
        if selectedElement.Some? {
          var k := IndexOf(items, selectedElement.value.id);
          var patch := GrabPatch(selectedElement.value, start, newPos);
          SetAttributesAt(items, k, patch);
          SetAttributes(selectedElement.value.id, patch);
        }
    }

    /** handleKeyPress: without a selected item nothing happens. "Delete" or
        "x" removes the selected item and clears the selection; "b" swaps it
        with the next item and "f" with the previous one, unless that index
        is outside the list. Other keys do nothing. */
    method HandleKeyPress(key: string)
      requires Valid()
      modifies this
      ensures Valid()
      ensures activeTool == old(activeTool)
      ensures Selected(old(items), old(selectedId)).None? ==>
        items == old(items) && selectedId == old(selectedId)
      ensures Selected(old(items), old(selectedId)).Some? && IsDeleteKey(key) ==>
        var k := IndexOf(old(items), old(selectedId).value);
        items == RemoveById(old(items), old(selectedId).value) &&
        items == old(items)[..k] + old(items)[k + 1..] &&
        selectedId == None
      ensures Selected(old(items), old(selectedId)).Some? && IsMoveKey(key) ==>
        var k := IndexOf(old(items), old(selectedId).value);
        var n := k + KeyDelta(key);
        selectedId == old(selectedId) &&
        (0 <= n < |old(items)| ==> items == old(items)[k := old(items)[n]][n := old(items)[k]]) &&
        (!(0 <= n < |old(items)|) ==> items == old(items))
      ensures !IsDeleteKey(key) && !IsMoveKey(key) ==>
        items == old(items) && selectedId == old(selectedId)
    {
      var selectedElement := Selected(items, selectedId);
      if selectedElement.None? {
        return;
      }
      var id := selectedElement.value.id;
      var currentIndex := IndexOf(items, id);
      if IsDeleteKey(key) {
        DeleteAt(currentIndex);
        return;
      }
      if IsMoveKey(key) {
        var newIndex := currentIndex + KeyDelta(key);
        if newIndex < 0 || newIndex >= |items| {
          return;
        }
        SwapNeighbours(currentIndex, newIndex);
      }
    }

    /** The delete keys' step: the item at `k` leaves the list (by its id)
        and the selection is cleared. */
    method DeleteAt(k: int)
      requires Valid() && 0 <= k < |items|
      modifies this
      ensures Valid()
      ensures items == RemoveById(old(items), old(items)[k].id)
      ensures items == old(items)[..k] + old(items)[k + 1..]
      ensures selectedId == None && activeTool == old(activeTool)
    {
      RemoveByIdAt(items, k);
      RemoveElement(items[k].id);
      selectedId := None;
    }

    /** The move keys' step: reorderElement to a neighbouring index, which
        swaps the two items. */
    method SwapNeighbours(k: int, n: int)
      requires Valid() && 0 <= k < |items| && 0 <= n < |items| && (n == k + 1 || n == k - 1)
      modifies this
      ensures Valid()
      ensures items == old(items)[k := old(items)[n]][n := old(items)[k]]
      ensures selectedId == old(selectedId) && activeTool == old(activeTool)
    {
      ReorderNeighbourSwaps(items, k, n);
      ReorderElement(k, n);
    }

    /** An item's mouse-down with the primary button and no tool selects the
        item, records the drag start and picks the grab tool. */
    method ShapeMouseDown(id: int, e: MouseEvent)
      requires Valid()
      modifies this, canvas
      ensures Valid()
      ensures e.button != 0 || old(activeTool).Some? ==>
        selectedId == old(selectedId) && activeTool == old(activeTool) && canvas.dragStart == old(canvas.dragStart)
      ensures e.button == 0 && old(activeTool).None? ==>
        selectedId == Some(id) && activeTool == Some(GrabTool) &&
        canvas.dragStart == Some(old(canvas.TakeZoomIntoAccount(e.offset)))
      ensures items == old(items) && canvas.viewBox == old(canvas.viewBox)
      ensures canvas.mouseButtonDown == old(canvas.mouseButtonDown)
      ensures canvas.initialMousePosition == old(canvas.initialMousePosition)
    {
      if e.button != 0 {
        return;
      }
      if activeTool.Some? {
        return;
      }
      selectedId := Some(id);
      var _ := canvas.SetStartPos(e.offset);
      activeTool := Some(GrabTool);
    }

    /** An item's mouse-up with the primary button clears the tool. */
    method ShapeMouseUp(e: MouseEvent)
      modifies this
      ensures e.button == 0 ==> activeTool == None
      ensures e.button != 0 ==> activeTool == old(activeTool)
      ensures items == old(items) && selectedId == old(selectedId)
    {
      if e.button != 0 {
        return;
      }
      activeTool := None;
    }

    /** The canvas's mouse-down: the editor's handler with a tool, the
        panning handler without one. */
    method CanvasMouseDown(e: MouseEvent)
      requires Valid()
      modifies this, canvas, factory
      ensures Valid()
      ensures old(activeTool).None? ==>
        items == old(items) && factory.idCounter == old(factory.idCounter) &&
        canvas.dragStart == old(canvas.dragStart) &&
        (e.button == 1 ==> canvas.mouseButtonDown && canvas.initialMousePosition == e.client) &&
        (e.button != 1 ==> canvas.mouseButtonDown == old(canvas.mouseButtonDown) &&
                           canvas.initialMousePosition == old(canvas.initialMousePosition))
      ensures old(activeTool).Some? ==>
        var start := old(canvas.TakeZoomIntoAccount(e.offset));
        canvas.dragStart == Some(start) &&
        StartsItem(old(activeTool).value, old(factory.idCounter), start, old(items), items, factory.idCounter) &&
        canvas.mouseButtonDown == old(canvas.mouseButtonDown) &&
        canvas.initialMousePosition == old(canvas.initialMousePosition)
      ensures canvas.viewBox == old(canvas.viewBox)
      ensures selectedId == old(selectedId) && activeTool == old(activeTool)
    {
      if activeTool.Some? {
        HandleMouseDown(e.offset);
      } else {
        canvas.HandleMouseDown(e.button, e.client);
      }
    }

    /** The canvas's mouse-move: the editor's handler with a tool, the
        panning handler without one. */
    method CanvasMouseMove(e: MouseEvent, sqrt: real -> real) returns (ok: bool)
      requires Valid()
      modifies this, canvas
      ensures Valid()
      ensures old(activeTool).None? ==>
        ok && items == old(items) &&
        canvas.mouseButtonDown == old(canvas.mouseButtonDown) && canvas.dragStart == old(canvas.dragStart) &&
        (old(canvas.mouseButtonDown) ==>
          canvas.viewBox == DragPan(old(canvas.viewBox), old(canvas.initialMousePosition), e.client,
                                    canvas.canvasWidth, canvas.canvasHeight) &&
          canvas.initialMousePosition == e.client) &&
        (!old(canvas.mouseButtonDown) ==>
          canvas.viewBox == old(canvas.viewBox) && canvas.initialMousePosition == old(canvas.initialMousePosition))
      ensures old(activeTool).Some? ==>
        MoveOutcome(old(activeTool), old(items), old(selectedId), old(canvas.dragStart),
                    old(canvas.TakeZoomIntoAccount(e.offset)), sqrt, ok, items) &&
        canvas.viewBox == old(canvas.viewBox) && canvas.mouseButtonDown == old(canvas.mouseButtonDown) &&
        canvas.initialMousePosition == old(canvas.initialMousePosition) && canvas.dragStart == old(canvas.dragStart)
      ensures !ok ==> items == old(items)
      ensures selectedId == old(selectedId) && activeTool == old(activeTool)
    {
      if activeTool.Some? {
        ok := HandleMouseMove(e.offset, sqrt);
      } else {
        canvas.HandleMouseMove(e.client);
        ok := true;
      }
    }

    /** The canvas's mouse-up: ends the drawing or moving gesture with a tool,
        disarms panning without one. */
    method CanvasMouseUp()
      modifies this, canvas
      ensures old(activeTool).Some? ==> activeTool == None && canvas.mouseButtonDown == old(canvas.mouseButtonDown)
      ensures old(activeTool).None? ==> activeTool == None && !canvas.mouseButtonDown
      ensures items == old(items) && selectedId == old(selectedId)
      ensures canvas.viewBox == old(canvas.viewBox) && canvas.dragStart == old(canvas.dragStart)
      ensures canvas.initialMousePosition == old(canvas.initialMousePosition)
    {
      if activeTool.Some? {
        StopDrawing();
      } else {
        canvas.HandleMouseUp();
      }
    }

    /** Leaving the canvas disarms panning and nothing else. */
    method CanvasMouseLeave()
      modifies canvas
      ensures !canvas.mouseButtonDown
      ensures canvas.viewBox == old(canvas.viewBox) && canvas.dragStart == old(canvas.dragStart)
      ensures canvas.initialMousePosition == old(canvas.initialMousePosition)
    {
      canvas.HandleMouseUp();
    }

    /** A wheel step zooms in when scrolling up (negative delta), out
        otherwise, about the pointer. */
    method CanvasWheel(deltaY: real, offset: Coord)
      requires Valid()
      modifies canvas
      ensures Valid()
      ensures canvas.viewBox == ZoomAt(old(canvas.viewBox), ZoomAmount(deltaY < 0.0), offset,
                                       canvas.canvasWidth, canvas.canvasHeight)
      ensures canvas.mouseButtonDown == old(canvas.mouseButtonDown)
      ensures canvas.initialMousePosition == old(canvas.initialMousePosition)
      ensures canvas.dragStart == old(canvas.dragStart)
    {
      canvas.HandleZoom(deltaY < 0.0, offset.x, offset.y);
    }

    /** A click on the canvas background clears the selection. */
    method CanvasClick()
      modifies this
      ensures selectedId == None
      ensures items == old(items) && activeTool == old(activeTool)
    {
      selectedId := None;
    }
  }

  /** Appending an item whose id is the factory's counter to a list of
      unique ids below that counter keeps the ids unique, and all of them are
      below the advanced counter. */
  lemma AppendFreshKeepsUnique(items: seq<Shape>, s: Shape, counter: int)
    requires UniqueIds(items) && forall t :: t in items ==> 0 <= t.id < counter
    requires 0 <= counter && s.id == counter
    ensures UniqueIds(items + [s])
    ensures forall t :: t in items + [s] ==> 0 <= t.id < counter + 1
  {
    var r := items + [s];
    forall i, j | 0 <= i < |r| && 0 <= j < |r| && i != j
      ensures r[i].id != r[j].id
    {
      if i < |items| { assert r[i] in items; }
      if j < |items| { assert r[j] in items; }
    }
    forall t | t in r
      ensures 0 <= t.id < counter + 1
    {
      assert t in items || t == s;
    }
  }
}
