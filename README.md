# SVG-tide editor core in Dafny

This project models the core of SVG-tide, an in-browser SVG editor. It covers two parts and proves properties of both.

The **viewport transform** is the visible region of content space, a view box `(minX, minY, width, height)`. The operations on it are:
- zooming about the pointer;
- panning, including middle-button drag panning;
- resetting;
- mapping canvas pixels to content coordinates.

The canvas hook (`src/hooks/pan-and-zoom.ts`) holds this state, and so does a second, separate application store (`src/state/store.ts`).

The **editor** (`src/App.tsx`) holds:
- the ordered list of items (rectangles, circles and polygons);
- the selected id;
- the active tool;
- the drag-start reference.

It reacts to mouse and keyboard events:
- A mouse-down with a drawing tool appends a zero-sized item made by the shape factory (`src/utils/shape-factory.ts`).
- A pointer move reshapes that item. A rectangle spans the drag start and the pointer; a circle or polygon gets the distance from its centre to the pointer as its radius (`src/utils/shape-utils.ts`).
- The grab tool moves the selected item.
- Keys delete the selection or move it one place in the list.

All JavaScript numbers are exact reals. The canvas size is a pair of positive constructor arguments. `Math.sqrt` is a function parameter. Lemmas that need its meaning require `IsSqrt`: the parameter returns the non-negative root of every non-negative real.

Layout:
- `types.dfy`: options, points, items, partial attribute records.
- `viewport.dfy`: the view-box mathematics that the hook and the store share.
- `pan_and_zoom.dfy`: the canvas hook.
- `store.dfy`: the application store.
- `shape_factory.dfy`: the id counter and the defaults.
- `shape_utils.dfy`: anchor, distance and polygon outline.
- `shape_list.dfy`: the list operations.
- `gestures.dfy`: the per-tool updates.
- `app.dfy`: the editor component and its handlers.

## Model

| member | source | states |
|---|---|---|
| Viewport.InitialViewBox | src/hooks/pan-and-zoom.ts:5-10 | the initial box has origin (0, 0) and the canvas's width and height |
| Viewport.ContentAt | src/hooks/pan-and-zoom.ts:63-66 | the content point under a pixel sits at the pixel's fraction of the canvas along the box: (c - min)·canvas = pixel·size on each axis |
| Viewport.ZoomAt | src/hooks/pan-and-zoom.ts:61-83 | width and height are multiplied by the zoom amount, and the content point under the pointer (`mouse / canvas * size + min`) is the same before and after |
| Viewport.ZoomByOneIsIdentity | src/state/store.ts:51-56 | zooming by 1 leaves the box unchanged |
| Viewport.ZoomComposes | src/state/store.ts:37-67 | zooming about the same pointer by a and then by b equals one zoom by a·b |
| Viewport.ZoomKeepsAspect | src/hooks/pan-and-zoom.ts:69-70 | a zoom keeps width·canvasHeight = height·canvasWidth |
| Viewport.ZoomKeepsPositive | src/hooks/pan-and-zoom.ts:69-70 | a positive box zoomed by a positive amount stays positive |
| Viewport.Pan | src/hooks/pan-and-zoom.ts:87-93 | the origin moves by exactly (dx, dy), and width and height are unchanged |
| Viewport.DragPan | src/hooks/pan-and-zoom.ts:42-49 | an armed move keeps the box size |
| Viewport.DragPanComposes | src/hooks/pan-and-zoom.ts:40-54 | two consecutive armed moves equal one move over the combined pointer delta |
| Viewport.FollowPointer | src/hooks/pan-and-zoom.ts:40-54 | a run of armed moves, each re-anchored at the pointer, keeps the box size; FollowPointerSums says where the origin ends up |
| Viewport.FollowPointerSums | src/hooks/pan-and-zoom.ts:40-54 | any sequence of armed moves, each re-anchored at the pointer, equals one move from the first anchor to the last position |
| Viewport.PixelToContent | src/hooks/pan-and-zoom.ts:98-103 | `pixel / zoomLevel + min` with zoomLevel = canvasWidth / width: (c - min)·canvasWidth = pixel·width on both axes |
| Viewport.PixelToContentIsContentAt | src/hooks/pan-and-zoom.ts:98-103 | `x / zoomLevel + minX` equals the zoom's mapping `x / canvasWidth * width + minX`; on the vertical axis this holds when the box has the canvas's aspect ratio |
| Viewport.PixelToContentRoundTrip | src/hooks/pan-and-zoom.ts:98-103 | `(c - min) * zoomLevel` recovers the pixel on both axes |
| PanAndZoom.ZoomAmount | src/hooks/pan-and-zoom.ts:58-59 | the amount is positive and is below 1 exactly when zooming in (0.9 in, 1.1 out) |
| PanAndZoom.Canvas.constructor | src/hooks/pan-and-zoom.ts:13-24 | starts with the initial box, disarmed, pointer (0, 0), no drag start |
| PanAndZoom.Canvas.ZoomLevel | src/hooks/pan-and-zoom.ts:98 | the zoom level is positive, and zoomLevel·width = canvasWidth |
| PanAndZoom.Canvas.TakeZoomIntoAccount | src/hooks/pan-and-zoom.ts:100-103 | the result is the zoom's content mapping, and `(c - min) * zoomLevel` gives the pixel back |
| PanAndZoom.Canvas.HandleMouseDown | src/hooks/pan-and-zoom.ts:27-32 | only button 1 arms panning and records the client position; other buttons change nothing |
| PanAndZoom.Canvas.HandleMouseUp | src/hooks/pan-and-zoom.ts:35-37 | disarms panning; nothing else changes |
| PanAndZoom.Canvas.HandleMouseMove | src/hooks/pan-and-zoom.ts:40-54 | armed: the box becomes DragPan from the recorded position and the pointer is re-anchored; disarmed: nothing changes; the aspect invariant is kept |
| PanAndZoom.Canvas.HandleZoom | src/hooks/pan-and-zoom.ts:57-84 | the box becomes ZoomAt by 0.9 or 1.1 about the pointer; the invariant is kept |
| PanAndZoom.Canvas.HandlePan | src/hooks/pan-and-zoom.ts:87-93 | the box becomes Pan(dx, dy); the pointer state is unchanged |
| PanAndZoom.Canvas.Reset | src/hooks/pan-and-zoom.ts:96 | the box becomes the initial box whatever came before |
| PanAndZoom.Canvas.SetStartPos | src/hooks/pan-and-zoom.ts:107-110 | stores the converted coordinate as the drag start and returns it |
| PanAndZoom.Canvas.ResetDrag | src/hooks/pan-and-zoom.ts:111-113 | clears the drag start |
| Store.AppStore.constructor | src/state/store.ts:21-23 | no tool, and the initial box; establishes the positive canvas size every update relies on |
| Store.AppStore.SetActiveTool | src/state/store.ts:24 | changes only the tool |
| Store.AppStore.PanCanvas | src/state/store.ts:25-36 | sets minX and minY to the given absolute values; width, height and tool are unchanged |
| Store.AppStore.ZoomCanvas | src/state/store.ts:37-67 | the box becomes ZoomAt(amount, mouse); the tool is unchanged |
| Store.AppStore.ResetPanZoom | src/state/store.ts:68 | restores the initial box and leaves the tool unchanged |
| Store.ZoomTwice | src/state/store.ts:37-67 | two zoomCanvas calls about one pointer leave the store as a single zoom by the product |
| ShapeFactory.Build | src/utils/shape-factory.ts:11 | the kind and geometry are the requested ones; each style field is the supplied value or else the default ("#000000", 0, "#000000", 2) |
| ShapeFactory.BuildFromParts | src/utils/shape-factory.ts:11 | supplying every field reproduces an item exactly: supplied fields override every default |
| ShapeFactory.Factory.constructor | src/utils/shape-factory.ts:3 | the counter starts at 0 |
| ShapeFactory.Factory.CreateRect | src/utils/shape-factory.ts:5-13 | a rect whose id is the counter before the call, built from the input; the counter goes up by exactly 1 |
| ShapeFactory.Factory.CreateCircle | src/utils/shape-factory.ts:15-23 | a circle whose id is the counter before the call; the counter goes up by exactly 1 |
| ShapeFactory.Factory.CreatePolygon | src/utils/shape-factory.ts:25-33 | a polygon whose id is the counter before the call; the counter goes up by exactly 1 |
| ShapeUtils.GetCoords | src/utils/shape-utils.ts:31-51 | (x, y) for a rect and (cx, cy) for a circle or polygon; total, so the fallback branch cannot be reached |
| ShapeUtils.SquaredDistance | src/utils/shape-utils.ts:53-54 | the squared distance is never negative, and is zero for identical points |
| ShapeUtils.CalculateDistance | src/utils/shape-utils.ts:53-54 | with an exact square root, the distance is non-negative and its square is the squared distance |
| ShapeUtils.DistanceSymmetric | src/utils/shape-utils.ts:53-54 | the distance does not depend on the argument order |
| ShapeUtils.DistanceToSelfIsZero | src/utils/shape-utils.ts:53-54 | a point is at distance 0 from itself |
| ShapeUtils.DistanceExample | src/utils/shape-utils.ts:53-54 | (100,100) to (130,140) has squared distance 2500 and distance 50 |
| ShapeUtils.GetPolygonPath | src/utils/shape-utils.ts:18-28 | the loop over i = 0..sides inclusive yields exactly sides + 1 points, the i-th from step i |
| ShapeList.Merge | src/App.tsx:272-274 | id and kind are kept; each field of the item's kind takes the patch's value when supplied, and otherwise keeps its own |
| ShapeList.MergeEmpty | src/App.tsx:273 | the empty patch changes nothing |
| ShapeList.MergeTwice | src/App.tsx:273 | two patches in a row equal their combination, the later winning |
| ShapeList.MergeIdempotent | src/App.tsx:273 | a patch applied twice equals the patch applied once |
| ShapeList.SetAttributes | src/App.tsx:262-280 | length, order, ids and kinds are kept; items with another id are unchanged, and items with the id are merged with the patch |
| ShapeList.SetAttributesAt | src/App.tsx:269-279 | with unique ids, patching the id at k rewrites position k and no other |
| ShapeList.SetAttributesAbsent | src/App.tsx:269-279 | patching an id that is not present changes nothing |
| ShapeList.SetAttributesKeepsUnique | src/App.tsx:269-279 | patching keeps ids unique |
| ShapeList.RemoveById | src/App.tsx:258-260 | an item remains exactly when it was present and has another id; nothing is removed when the id is absent |
| ShapeList.RemoveByIdKeepsUnique | src/App.tsx:258-260 | removal keeps ids unique |
| ShapeList.RemoveByIdAt | src/App.tsx:258-260 | with unique ids, removing the id at k removes exactly position k |
| ShapeList.IndexOf | src/App.tsx:229-231 | findIndex gives the first position with the id, or -1 exactly when no item has it |
| ShapeList.FindById | src/App.tsx:61-64 | the found item is in the list and has the id; nothing is found exactly when no item has it |
| ShapeList.Selected | src/App.tsx:61-64 | no selected id means no selected item; otherwise it is the lookup |
| ShapeList.Removed | src/App.tsx:284 | `splice(i, 1)` on an index in range: one shorter, the items before i kept in place and the items after it shifted down by one |
| ShapeList.SpliceStart | src/App.tsx:285 | splice's insertion index: an index in range is kept, a negative index counts from the end (at least 0), and an index past the end becomes the end |
| ShapeList.Reordered | src/App.tsx:282-288 | the copy-and-splice of reorderElement keeps the length and puts the moved item at splice's insertion index; ReorderPermutes, ReorderMovesOne and ReorderRoundTrip carry the rest of its meaning |
| ShapeList.ReorderPermutes | src/App.tsx:282-288 | a reorder keeps the length and the multiset of items |
| ShapeList.ReorderMovesOne | src/App.tsx:282-288 | the moved item lands at newIndex, and removing it again gives the original without it: the others keep their relative order |
| ShapeList.ReorderRoundTrip | src/App.tsx:282-288 | moving from i to j and back from j to i restores the list |
| ShapeList.ReorderAdjacentSwaps | src/App.tsx:227-236 | moving one place towards the end swaps with the neighbour |
| ShapeList.ReorderAdjacentSwapsBack | src/App.tsx:227-236 | moving one place towards the start swaps with the neighbour |
| ShapeList.ReorderExample | src/App.tsx:282-288 | [A,B,C] moved 0 to 2 gives [B,C,A] |
| ShapeList.ReorderNegativeTarget | src/App.tsx:284-285 | a negative target counts from the end: [A,B,C] moved 0 to -1 gives [B,A,C] |
| ShapeList.ReorderKeepsUnique | src/App.tsx:282-288 | a reorder keeps ids unique and keeps the same items |
| Gestures.GetCursor | src/App.tsx:504-517 | "default" exactly when there is no tool, "grab" exactly for grab, and "crosshair" exactly for a drawing tool |
| Gestures.NewShapeFor | src/App.tsx:80-117 | grab makes nothing. A drawing tool makes an item of its kind with the given id, anchored at the drag start and in the default style: a rect of size 0×0, a circle of radius 0, or a polygon of radius 0 with 5 sides |
| Gestures.RectPatch | src/App.tsx:139-153 | the rectangle drag supplies x, y, width and height and nothing else, with non-negative size, and on each axis the corners are exactly {start, pointer} |
| Gestures.RectSpan | src/App.tsx:136-153 | the rectangle's corners on each axis are exactly {start, pointer}, with non-negative width and height; id and style are kept |
| Gestures.RectSpanExample | src/App.tsx:136-153 | start (50,50) dragged to (10,80) gives x 10, y 50, width 40, height 30 |
| Gestures.RadiusTo | src/App.tsx:158-181 | only r changes, to the distance from getCoords to the pointer; with an exact root, r is non-negative and r² is the squared distance |
| Gestures.RadiusAtCentreIsZero | src/App.tsx:158-181 | a pointer at the centre gives radius 0 |
| Gestures.GrabPatch | src/App.tsx:189-203 | the grab drag supplies only the anchor fields of the item's kind (x/y for a rect, cx/cy otherwise), and they are exactly the pointer |
| Gestures.GrabTo | src/App.tsx:183-207 | the anchor becomes `start + (pointer - start)`, which is exactly the pointer; kind, size and style are kept |
| Gestures.GrabIgnoresStart | src/App.tsx:189-203 | where a moved item lands does not depend on the drag start |
| App.Editor.constructor | src/App.tsx:35-58 | the three initial items, ids 0, 1 and 2, with their attributes; the circle (id 1) selected; no tool; counter at 3 |
| App.Editor.AddElement | src/App.tsx:253-256 | appends the item at the end |
| App.Editor.RemoveElement | src/App.tsx:258-260 | the list becomes RemoveById; the invariant (unique ids below the counter) is kept |
| App.Editor.SetAttributes | src/App.tsx:262-280 | the list becomes SetAttributes(id, patch); the invariant is kept |
| App.Editor.ReorderElement | src/App.tsx:282-288 | the copy-and-splice steps give Reordered(currentIndex, newIndex); the invariant is kept |
| App.Editor.SetActiveTool | src/App.tsx:332-358 | a toolbar button sets only the tool |
| App.Editor.StopDrawing | src/App.tsx:214-216 | clears the tool and leaves the drag start |
| App.Editor.Select | src/App.tsx:469 | selecting from the list sets the selected id |
| App.Editor.HandleMouseDown | src/App.tsx:74-118 | with no tool, nothing changes. With a tool, the drag start becomes the converted pointer, and the list gains exactly NewShapeFor(tool, next id, start), with the counter advanced, or nothing for grab |
| App.Editor.HandleMouseMove | src/App.tsx:120-212 | no tool, an empty list or no drag start: nothing changes. Drawing: ok exactly when the last item has the tool's kind, and then only the last item changes, to RectSpan or RadiusTo. Grab: only the selected item changes, to GrabTo; with no selection nothing changes |
| App.Editor.HandleKeyPress | src/App.tsx:218-238 | no selection: nothing changes. "Delete"/"x" removes exactly the selected position and clears the selection. "b"/"f" swap the selection with the next/previous item, or do nothing outside [0, len). Other keys: nothing |
| App.Editor.DeleteAt | src/App.tsx:221-225 | the item at k leaves the list by its id, which removes exactly position k; the selection is cleared and the invariant kept |
| App.Editor.SwapNeighbours | src/App.tsx:227-236 | reordering to a neighbouring index swaps the two items; selection, tool and invariant are kept |
| App.Editor.ShapeMouseDown | src/App.tsx:427-433 | primary button with no tool: selects the item, records the drag start and picks grab; otherwise nothing changes; the list, the box and the pan state are never touched |
| App.Editor.ShapeMouseUp | src/App.tsx:434-437 | the primary button clears the tool; other buttons change nothing |
| App.Editor.CanvasMouseDown | src/App.tsx:376-378 | with a tool: exactly HandleMouseDown (drag start recorded, the tool's new item appended with the counter advanced, or nothing for grab) and the pan state kept. Without one: exactly the canvas hook's handleMouseDown (button 1 arms and records the client position, other buttons change nothing), with the list, counter and drag start kept |
| App.Editor.CanvasMouseMove | src/App.tsx:379-381 | with a tool: the list changes exactly as HandleMouseMove (MoveOutcome) and the canvas is untouched. Without one: an armed move pans by DragPan and re-anchors at the pointer, a disarmed one changes nothing; the list, armed flag and drag start are kept |
| App.Editor.CanvasMouseUp | src/App.tsx:382-384 | with a tool, clears it; without one, disarms panning; the box, the last pointer position and the drag start are never changed |
| App.Editor.CanvasMouseLeave | src/App.tsx:385 | disarms panning; the box, the last pointer position and the drag start are kept |
| App.Editor.CanvasWheel | src/App.tsx:386-392 | a negative deltaY zooms in, otherwise out, about the pointer; the pan state and the drag start are kept |
| App.Editor.CanvasClick | src/App.tsx:393-395 | clears the selection |
| App.ReorderNeighbourSwaps | src/App.tsx:227-236 | moving an item to an adjacent index (newIndex = currentIndex ± 1) swaps the two |
| App.AppendFreshKeepsUnique | src/utils/shape-factory.ts:3-33 | appending an item with the counter's id to unique ids below the counter keeps ids unique and below the next counter: factory ids never collide |

## Left out

- Floating point: numbers are exact reals, so rounding in the zoom, pan and distance arithmetic is not modelled.
- `Math.sqrt` is a parameter of the distance. Its facts are stated for an exact square root (`IsSqrt`).
- ShapeUtils.GetPolygonPath: `Math.cos`, `Math.sin` and `Math.PI` are not modelled. Each vertex is represented by its step number, and the coordinates `cx + r·cos(...)`, `cy + r·sin(...)` are left out; only the point count and order are proved.
- The polygon's `points` attribute is dropped from the item. It is an empty placeholder that rendering overwrites.
- `src/canvasSize.ts` is not part of this model. The canvas width and height are positive constructor arguments.
- Render snapshots: `dragInteraction.startPos` in the source is the ref's value at the last render (src/hooks/pan-and-zoom.ts:106). The editor's handlers read that copy, which can be older than the value `setStartPos` just wrote.
- App.Editor.HandleMouseDown: it places the new item at the drag start just written, which is the pointer position just converted. The source reads the render-time copy (src/App.tsx:84-85, 96-97, 105-106). Before any gesture that copy is null and `assertOk` fails. After one, the new item is created at the previous gesture's start. The next move then rewrites a rectangle's x and y, so the rectangle recovers. A circle or polygon only gets a new `r`, so it stays centred on the old point.
- React and zustand batching: every state update takes effect immediately and in order. The functional updaters of `setSvgItems`/`setViewBox` are not distinguished from direct sets.
- Event propagation is not modelled:
  - an item's mouse-down bubbling to the canvas's mouse-down;
  - `stopPropagation` on item clicks (src/App.tsx:424-426).
  Each handler is a separate method.
- Assertions (src/utils/assert.ts):
  - a failing `assertOk` in the mouse-move handler is the result `ok == false` with no state change;
  - `assertNever` branches cannot be reached, because the datatypes are closed.
- ShapeList.Merge: a patch field that the item's kind does not have (for example `x` on a circle) is ignored. The source's spread would add it to the attribute record, but the editor's callers never pass one.
- App.Editor.ReorderElement: requires `currentIndex` inside the list, because every caller passes a found index. Outside the list, JavaScript's `splice` behaves differently from the model. A `currentIndex` at or past the end removes nothing, and `undefined` is inserted at `newIndex`. A negative `currentIndex` counts from the end: `splice(-1, 1)` takes out the last item and re-inserts it at `newIndex`, by the same rule `SpliceStart` models for the insertion.
- Ids are unbounded integers, and the factory counter is a `nat`. Exhaustion of JavaScript's 2^53 safe integers is not modelled.
- `sides` is an integer. A fractional count cannot be expressed.
- The application store's "scale" tool exists only in its type, and no handler uses it.
- Not modelled, because they are DOM or UI with no state logic:
  - the selection bounding box (`getBBox`, src/App.tsx:243-251);
  - the element ref map;
  - the `viewBox` string;
  - `toSvgElementAttr` and JSX rendering with its reversed draw order;
  - the UI components under `src/components/`;
  - browser-zoom prevention;
  - `console.log`.
- `getCoordFromEvent` becomes the `offset` and `client` fields of `MouseEvent`.
- `src/types/index.ts` is not part of this model. The item type is the `Shape` datatype, which follows the item shape used in `src/App.tsx`.
