# SpaceShapes in Dafny

A model of the shape world of SpaceShapes (`src/spaceshapes`): shapes that
move with integer velocities and bounce off the walls of their world,
carriers that hold other shapes and move and paint them inside their own
box, the `paint` template (label first, then the kind's own drawing), the
recording `MockPainter` whose log the repository's tests compare exactly,
the hexagon outline of `GraphicsPainter`, and the tree-view adapter
(`Task1`/`Task2`) that presents a shape hierarchy as a Swing tree model.

Files and modules:

- `Util.dfy` (`Util`): Option/Result, `List.indexOf` and `List.remove(Object)`
  on sequences, Java's truncating `n / 2`, Java's decimal rendering of an `int`.
- `Motion.dfy` (`Motion`): one call of `move` as a function on values
  (`BounceAxis`, `Step`) and DynamicShape's fill rule (`NextFill`), with the
  bounce properties.
- `Ancestry.dfy` (`Ancestry`): parent chains over a parent map; `Path` is
  what `Shape.path()` returns; lemmas on attaching and detaching a node.
- `MockPainter.dfy` (`Painting`): colours, log entries and their text,
  the hexagon vertex rules, and the `MockPainter` class (`log`, `color`).
- `GraphicsPainter.dfy` (`Graphics`): `GraphicsPainter.drawHexagon` as a
  chain of `drawLine` calls.
- `Shapes.dfy` (`Shapes`): the `Shape` class for CarrierShape, HexagonShape
  and DynamicShape (told apart by `kind`), the hierarchy invariant, `move`,
  `paint`/`doPaint`, `path`, `add`, `remove` and the child queries.
- `Views.dfy` (`Views`): the `TreeAdapter` class (Task1 and Task2).
- `Scenarios.dfy` (`Scenarios`): the traces of the repository's tests,
  replayed against the model, and the two findings below on concrete shapes.

How the model is built:

- Java classes `CarrierShape`, `HexagonShape` and `DynamicShape` are one
  class `Shape` with a constant `kind` (`Carrier`, `Hexagon`,
  `Dynamic(color)`); `move` and `doPaint` dispatch on it. `paint` is the
  one entry point for all kinds, so the label-first order is fixed in one place.
- The containment hierarchy is stated over a ghost set `W` of shapes and
  the predicate `Hierarchy(W)`: a child's parent lists it, every listed child
  points back, no child is listed twice, only carriers have children, a child
  fits in its carrier, and every parent chain ends at a root (no cycles).
  `Move`, `Paint`, `Add`, `Remove`, their helpers and the corrected
  `AddChecked`/`RemoveChecked` take `W` and require `Hierarchy(W)` as the
  class invariant; `PathOf` takes `W` but needs only a parent chain that
  ends. `AddText`, `BaseMove` and the child queries (`ShapeAt`,
  `ShapeCount`, `IndexOf`, `Contains`) work on the one shape and take no `W`. `Move` and `Paint` recurse down the hierarchy; they terminate
  because a child's path is one longer than its carrier's, and no path is longer than `|W|`.
- `Move` is proved against `Motion.Step`: the shape it is called on bounces
  inside the given bounds, each shape below it bounces inside its own
  carrier's width and height, and nothing else changes.
- `Paint` is proved against the ghost function `Trace`: the exact list of
  entries the painter's log grows by. The painter's colour and (ghost)
  translation origin are the same after `Paint` as before.
- The MockPainter's `StringBuffer` is the sequence `log` of entries; its
  text is `Concat(log)`, the concatenation of each entry's `Render`; the
  numbers in it are `Util.IntToString`, which reads back as the number. A
  `translate` call is recorded as an entry that renders as the empty
  string, so the text is exactly the source's and a trace can still show
  where the translations happen. The text entry keeps the box it is centred
  in, which MockPainter does not print either.
- `Task2.update` returns the notifications it sends, one `Notification`
  record per listener call, instead of calling listener objects.

Where the documentation and the code disagree, the model follows the code:
`CarrierShape.remove` clears the `_parent` of any shape it is given, also
one that is not its child, though its comment says the call then has no
effect (`Shapes.Shape.Remove`; the documented behaviour is
`Shapes.Shape.RemoveChecked`, see Findings).

## Model

| member | source | states |
|---|---|---|
| `Shapes.Shape.Default` | src/spaceshapes/Shape.java:17-53 | the default shape is at (0,0), moves by (5,5), is 25 wide and 35 high, has no text, no parent and no children, and (as a DynamicShape) starts unfilled |
| `Shapes.Shape.At` | src/spaceshapes/Shape.java:58-60 | position as given, the other attributes default |
| `Shapes.Shape.Moving` | src/spaceshapes/Shape.java:66-68 | position and velocity as given, default 25x35 size |
| `Shapes.Shape.constructor` | src/spaceshapes/Shape.java:74-81 | all six geometry arguments are stored verbatim; no text, no parent |
| `Shapes.Shape.Labelled` | src/spaceshapes/Shape.java:87-95 | geometry as given and the text set through `addText` |
| `Shapes.Shape.AddText` | src/spaceshapes/Shape.java:146-148 | the text is replaced, nothing else changes |
| `Motion.BounceAxis` | src/spaceshapes/Shape.java:105-122 | one axis of a move: the velocity is negated exactly when the advanced coordinate reaches 0 or the bound; the coordinate then sits at 0 (near wall) or bound - extent (far wall), otherwise it advances by the velocity |
| `Motion.Step` | src/spaceshapes/Shape.java:104-126 | a whole move: each velocity keeps its magnitude, a shape that fits its bounds ends inside them on both axes, and only a DynamicShape's move can change the fill flag |
| `Motion.BounceKeepsSpeed` | src/spaceshapes/Shape.java:108-121 | a move keeps the absolute value of each velocity; only its sign may change |
| `Motion.BounceStaysInside` | src/spaceshapes/Shape.java:104-126 | a shape no larger than its bound ends up with 0 <= coordinate <= bound - extent |
| `Shapes.Shape.BaseMove` | src/spaceshapes/Shape.java:104-126 | the fields after `Shape.move` are exactly `Step` of the fields before, with the given bounds |
| `Shapes.Shape.Move` | src/spaceshapes/CarrierShape.java:64-70 | the callee bounces in the given bounds, every shape below it bounces in its own carrier's width and height, every other shape keeps its state, the hierarchy is kept, and afterwards every shape below lies inside its carrier's box |
| `Shapes.Shape.MoveChildren` | src/spaceshapes/CarrierShape.java:66-69 | each child, in order, moves inside the carrier's own width and height, taking the shapes below it along; every shape below ends inside its carrier's box and no other shape changes |
| `Motion.NextFill` | src/spaceshapes/DynamicShape.java:127-131 | a vertical flip always gives the outline; a horizontal flip without a vertical one gives the fill; the mode changes only on a flip |
| `Motion.BounceFlipDetectsHit` | src/spaceshapes/DynamicShape.java:127-131 | DynamicShape's test "velocity non-zero and negated" holds exactly when the axis hit a wall with a non-zero velocity |
| `Motion.FillAfterStep` | src/spaceshapes/DynamicShape.java:118-132 | after a DynamicShape move: a vertical wall hit gives the outline, otherwise a horizontal wall hit gives the fill, otherwise the mode is kept; position and velocity are those of the base move |
| `Motion.CornerHitGivesOutline` | src/spaceshapes/DynamicShape.java:127-131 | when both axes hit a wall with non-zero velocity, the vertical flip wins and the shape is an outline |
| `Motion.StillAxisKeepsMode` | src/spaceshapes/DynamicShape.java:127-131 | an axis with zero velocity never changes the mode |
| `Shapes.TraceStartsWithLabel` | src/spaceshapes/Shape.java:139-144 | the trace of `paint` starts with a text entry exactly when the shape has text, and that entry carries the text and the shape's current box; the kind's own drawing never starts with one |
| `Shapes.Shape.Paint` | src/spaceshapes/Shape.java:139-144 | the log grows by the label (when there is text: the text centred in the shape's current box) followed by `doPaint`'s entries; the painter's colour and origin are restored |
| `Shapes.Drawing` | src/spaceshapes/DynamicShape.java:96-107 | a kind's own drawing is non-empty and never translates or writes text; any colour it sets is set by a filled DynamicShape, which always sets its own colour first and the painter's colour back last; an unfilled DynamicShape draws just its rectangle outline |
| `Shapes.Shape.DoPaint` | src/spaceshapes/DynamicShape.java:96-107 | the log grows by the kind's drawing: a filled dynamic shape sets its colour, fills its box and sets the painter's previous colour back; an unfilled one draws one rectangle; a hexagon makes one `drawHexagon` call; a carrier draws its rectangle and then its children |
| `Shapes.Shape.PaintChildren` | src/spaceshapes/CarrierShape.java:76-84 | the children are painted in list order, each between `translate(x, y)` and `translate(-x, -y)`; colour and origin come back unchanged |
| `Shapes.Shape.PaintChild` | src/spaceshapes/CarrierShape.java:79-83 | one child's turn appends the translation, the child's complete trace and the opposite translation |
| `Shapes.LineageShape` | src/spaceshapes/Shape.java:221-235 | a path is non-empty, ends at the shape, starts at a shape without parent, each element is the parent of the next, and no shape repeats |
| `Shapes.Shape.PathOf` | src/spaceshapes/Shape.java:236-253 | for any shape whose parent chain ends, the loop returns that chain from the root to the callee, each element the parent of the next |
| `Shapes.Shape.Add` | src/spaceshapes/CarrierShape.java:96-112 | a shape with a parent, too wide or too high is refused (checked in that order) and nothing changes; otherwise it is appended and its parent set to the carrier; the hierarchy survives exactly when the shape is not on the carrier's own path |
| `Shapes.Shape.AddChecked` | src/spaceshapes/CarrierShape.java:86-95 | as `Add`, but a shape on the carrier's path is refused too, so the hierarchy always survives |
| `Shapes.Shape.Remove` | src/spaceshapes/CarrierShape.java:121-124 | the first occurrence is removed from the children, the others keep their order, the shape's parent becomes null even when it was not a child here; the hierarchy survives exactly when the shape was a child here or had no parent |
| `Shapes.Shape.RemoveChecked` | src/spaceshapes/CarrierShape.java:114-120 | removing a child unlinks it; removing any other shape changes nothing; the hierarchy is kept |
| `Shapes.AddThenRemoveRestores` | src/spaceshapes/CarrierShape.java:96-124 | a shape `add` accepts is not yet a child, and removing it again gives back the children before the add |
| `Shapes.ContainsIffParent` | src/spaceshapes/CarrierShape.java:109-111 | in a hierarchy, `contains(s)` holds exactly when `s`'s parent is the carrier |
| `Shapes.Shape.ShapeAt` | src/spaceshapes/CarrierShape.java:132-134 | the i-th child when 0 <= i < count, otherwise the out-of-bounds failure carrying the index |
| `Shapes.Shape.ShapeCount` | src/spaceshapes/CarrierShape.java:140-142 | the count is the number of positions `shapeAt` accepts |
| `Shapes.Shape.IndexOf` | src/spaceshapes/CarrierShape.java:150-152 | -1 exactly for a non-child, otherwise a position below the count at which `shapeAt` gives the shape |
| `Shapes.IndexOfShapeAt` | src/spaceshapes/CarrierShape.java:144-152 | in a hierarchy `indexOf(shapeAt(i)) == i` |
| `Shapes.Shape.Contains` | src/spaceshapes/CarrierShape.java:158-160 | `contains` holds exactly when `indexOf` is not -1 |
| `Util.IndexOf` | src/spaceshapes/CarrierShape.java:150-152 | the first position of the element, or -1 exactly when it is absent |
| `Util.RemoveFirst` | src/spaceshapes/CarrierShape.java:121-124 | drops the first occurrence and keeps the rest in order; an absent element leaves the list as it was |
| `Util.Half` | src/spaceshapes/MockPainter.java:64-84 | Java's `n / 2`: rounds toward zero for either sign |
| `Util.IntToString` | src/spaceshapes/MockPainter.java:36-38 | Java's decimal text of an int: non-empty, with a leading minus exactly for a negative number, then only digits with no leading zero (except "0" itself), reading back as the number |
| `Painting.MockPainter.constructor` | src/spaceshapes/MockPainter.java:20-24 | a new painter has an empty log and the colour (212,212,212) |
| `Painting.Render` | src/spaceshapes/MockPainter.java:36-123 | the text one call appends to the log: empty exactly for `translate`, which MockPainter ignores |
| `Painting.BlueText` | src/spaceshapes/TestDynamicShape.java:60-63 | blue prints as `java.awt.Color[r=0,g=0,b=255]`, as in the test's expected text |
| `Painting.InitialColorText` | src/spaceshapes/TestDynamicShape.java:60-63 | the painter's initial grey prints as `java.awt.Color[r=212,g=212,b=212]` |
| `Painting.RenderRectangleText` | src/spaceshapes/TestDynamicShape.java:43-44 | a rectangle entry renders as the test's `(rectangle 100,20,25,35)` |
| `Painting.RenderColorSetText` | src/spaceshapes/TestDynamicShape.java:60-63 | setting blue and setting the initial grey render as the test's `(color set to: ...)` texts |
| `Painting.RenderFilledWithText` | src/spaceshapes/TestDynamicShape.java:60-63 | filling in blue renders as the test's ` => filled with: java.awt.Color[r=0,g=0,b=255] ` |
| `Painting.RenderHexagonHeaderText` | src/spaceshapes/TestHexagonShape.java:39-41 | the hexagon header renders as the test's `(hexagon 50,35,16,30)` |
| `Painting.RenderTextPaintedText` | src/spaceshapes/TestShapeWithText.java:42-43 | the text entry renders as the test's `(text: Hi, has been painted)`, without its box |
| `Painting.MockPainter.ToString` | src/spaceshapes/MockPainter.java:29-31 | the log's text is empty exactly while only translations have been requested |
| `Painting.MockPainter.GetColor` | src/spaceshapes/MockPainter.java:103-105 | the current colour: the one the last `setColor` set, or the initial (212,212,212) |
| `Painting.ConcatAppend` | src/spaceshapes/MockPainter.java:29-31 | the log's text after more appends is the earlier text followed by the new entries' text |
| `Painting.MockPainter.DrawRect` | src/spaceshapes/MockPainter.java:36-38 | appends one `(rectangle x,y,w,h)` entry |
| `Painting.MockPainter.DrawOval` | src/spaceshapes/MockPainter.java:43-45 | appends one `(oval x,y,w,h)` entry |
| `Painting.MockPainter.DrawLine` | src/spaceshapes/MockPainter.java:50-52 | appends one `(line x1,y1,x2,y2)` entry |
| `Painting.MockPainter.DrawHexagon` | src/spaceshapes/MockPainter.java:57-86 | appends the header and the vertex chain of the matching regime (`HexagonLog`) |
| `Painting.HexagonVertices` | src/spaceshapes/MockPainter.java:64-84 | the logged vertex chain: 7 points (6 sides) when the width is at least 40, else 5 (4 sides); it starts and ends at (x, y + h/2), with Java's truncating halving |
| `Painting.HexagonVerticesInBox` | src/spaceshapes/MockPainter.java:60-84 | for a box of non-negative size every vertex lies on the box's border |
| `Painting.RegularHexagonSymmetric` | src/spaceshapes/MockPainter.java:64-72 | a regular hexagon is symmetric about the box's vertical centre line |
| `Painting.MockPainter.DrawImage` | src/spaceshapes/MockPainter.java:91-93 | appends one `(Image painted)` entry |
| `Painting.MockPainter.FillRect` | src/spaceshapes/MockPainter.java:98-101 | appends the rectangle entry and then ` => filled with: <current colour> ` |
| `Painting.MockPainter.SetColor` | src/spaceshapes/MockPainter.java:110-113 | the colour becomes the argument and a `(color set to: ...)` entry is appended |
| `Painting.MockPainter.Translate` | src/spaceshapes/MockPainter.java:115-116 | appends a `Translated` entry, which renders as nothing, and moves the ghost origin by the offset; the colour is untouched |
| `Painting.TranslatePrintsNothing` | src/spaceshapes/MockPainter.java:115-116 | a translation adds nothing to the log's text |
| `Painting.MockPainter.DrawCentredText` | src/spaceshapes/MockPainter.java:121-123 | appends a text entry holding the text and its box; it renders as `(text: T, has been painted)` whatever the box |
| `Graphics.GraphicsPainter.constructor` | src/spaceshapes/GraphicsPainter.java:25-28 | a new painter has drawn no lines |
| `Graphics.GraphicsPainter.DrawLine` | src/spaceshapes/GraphicsPainter.java:47-49 | the delegate draws one more segment |
| `Graphics.GraphicsPainter.DrawHexagon` | src/spaceshapes/GraphicsPainter.java:54-68 | the delegate draws exactly the sides `HexagonSides` in order |
| `Graphics.HexagonSides` | src/spaceshapes/GraphicsPainter.java:55-67 | the sides drawn: 6 when the width is at least 40 and 4 otherwise, each starting where the previous one ends and the last ending where the first starts |
| `Graphics.HexagonOutline` | src/spaceshapes/GraphicsPainter.java:55-67 | the outline has 6 segments when the width is at least 40 and 4 otherwise, and it is a closed chain |
| `Graphics.SidesJoinMockVertices` | src/spaceshapes/GraphicsPainter.java:55-67 | the sides drawn join exactly the vertices MockPainter logs for the same box, in order |
| `Views.TreeAdapter.constructor` | src/spaceshapes/views/Task1.java:16-21 | the adapter views the given model and has no listeners |
| `Views.TreeAdapter.AddTreeModelListener` | src/spaceshapes/views/Task1.java:26-28 | the listener is appended at the end |
| `Views.TreeAdapter.RemoveTreeModelListener` | src/spaceshapes/views/Task1.java:91-93 | the first registration of the listener is dropped; the others stay, in order |
| `Views.TreeAdapter.GetChild` | src/spaceshapes/views/Task1.java:33-43 | the carrier's child at a valid index, otherwise null, for every argument |
| `Views.TreeAdapter.GetChildCount` | src/spaceshapes/views/Task1.java:48-53 | a carrier's child count, 0 for anything else; the indices `getChild` answers are exactly 0 .. count-1 |
| `Views.TreeAdapter.GetIndexOfChild` | src/spaceshapes/views/Task1.java:58-63 | the child's index when the parent is a carrier holding it, otherwise -1; a found index gives the child back through `getChild` |
| `Views.TreeAdapter.GetRoot` | src/spaceshapes/views/Task1.java:68-74 | the model's root, or null when it has none |
| `Views.TreeAdapter.IsLeaf` | src/spaceshapes/views/Task1.java:79-86 | true exactly for a shape that is not a carrier |
| `Views.TreeAdapter.LeafHasNoChildren` | src/spaceshapes/views/Task1.java:48-86 | a leaf has no children, and a node with children is a non-leaf shape |
| `Views.TreeAdapter.ValueForPathChanged` | src/spaceshapes/views/Task1.java:98-99 | nothing changes |
| `Views.TreeAdapter.Update` | src/spaceshapes/views/Task2.java:22-47 | an added (removed) shape gives each listener, in registration order, one nodes-inserted (nodes-removed) notification carrying the carrier's path from the root, `[index]` and `[operand]`; any other event gives none; the listener list is unchanged |
| `Scenarios.DynamicBounceOffRight` | src/spaceshapes/TestDynamicShape.java:53-66 | the log of the test: outline, then filled in blue at (110,35) and (98,50) with the painter's colour restored each time |
| `Scenarios.DynamicBounceOffBottom` | src/spaceshapes/TestDynamicShape.java:94-105 | zero horizontal velocity: the bottom bounce keeps the outline |
| `Scenarios.DynamicBounceOffTopThenRight` | src/spaceshapes/TestDynamicShape.java:128-145 | top wall keeps the outline, right wall fills, a free move stays filled |
| `Scenarios.DynamicBounceOffLeftThenTop` | src/spaceshapes/TestDynamicShape.java:153-168 | left wall fills, top wall brings the outline back |
| `Scenarios.DynamicBounceOffBottomAndRight` | src/spaceshapes/TestDynamicShape.java:220-231 | the corner hit goes to (100,100) and then (88,85), as outlines |
| `Scenarios.SmallHexagon` | src/spaceshapes/TestHexagonShape.java:36-41 | the six-argument hexagon (50,35,15,30,16,30) logs its header and the four-sided chain through (58,35) and (58,65) |
| `Scenarios.RegularHexagon` | src/spaceshapes/TestHexagonShape.java:48-54 | a 50-wide hexagon logs the six-sided chain inset by 20 |
| `Scenarios.HexagonBounceOffRight` | src/spaceshapes/TestHexagonShape.java:77-92 | a default-size hexagon is small and moves (100,20) -> (110,35) -> (98,50) in an x-bound of 135 |
| `Scenarios.LabelledHexagon` | src/spaceshapes/HexagonShape.java:53-56 | the text entry, with the hexagon's box at that moment, comes before the hexagon at every paint |
| `Scenarios.CarrierWithChildTrace` | src/spaceshapes/CarrierShape.java:76-84 | the trace of a carrier with one child: its rectangle, then the child between the two translations |
| `Scenarios.CarrierWithChild` | src/spaceshapes/CarrierShape.java:76-84 | painting a 100x100 carrier holding a default shape logs its rectangle, `translate(10,20)`, the child, `translate(-10,-20)` |
| `Scenarios.SelfAddAccepted` | src/spaceshapes/CarrierShape.java:96-112 | a parentless carrier added to itself is accepted, becomes its own parent and child, and the shapes are no hierarchy any more |
| `Scenarios.SelfAddRefused` | src/spaceshapes/CarrierShape.java:96-112 | the checked add refuses it and leaves the carrier as it was |
| `Scenarios.RemoveFromOtherCarrier` | src/spaceshapes/CarrierShape.java:121-124 | after `remove` on a carrier that does not hold it, a shape has no parent though its carrier still lists it; the owner's `path()` is still just the owner |
| `Scenarios.RemoveCheckedFromOtherCarrier` | src/spaceshapes/CarrierShape.java:114-120 | the checked remove leaves that shape linked to its carrier |

## Left out

- Java's 32-bit `int` wrap-around: positions, velocities and sizes are unbounded integers, so the model says nothing about overflowing coordinates.
- `Shape.toString` (the class name through reflection) and the plain accessors (`x()`, `width()`, `parent()`, ...): the model reads the fields directly.
- `java.awt.Color` is an RGB triple rendered as `java.awt.Color[r=..,g=..,b=..]`; `Image` is not modelled, and `drawImage` logs one fixed entry.
- `GraphicsPainter` apart from `drawHexagon` and `drawLine`: its constructor's `setColor` on the delegate is not recorded; its other methods forward to `java.awt.Graphics`; `drawCentredText` depends on font metrics (its `getAscent() < getAscent()` test can never hold).
- The `Painter` interface: the model's shapes paint on a `MockPainter`; `GraphicsPainter.drawHexagon` is modelled on its own.
- `ShapeModel`, `ShapeModelEvent`, `TreeModelListener`, `TreeModelEvent` and `TreePath` are records; listener calls are returned as `Notification` records.
- `RectangleShape` and `ImageRectangleShape` are not part of this model, so the tests in `TestShapeWithText.java`, written with a `RectangleShape`, are not replayed; `Scenarios.LabelledHexagon` shows the label-first order on a hexagon instead.
- `src/spaceshapes/forms/ImageShapeFormHandler.java`: background thread, image file I/O and floating-point scaling.
- The text form of whole logs: the scenarios promise the log entry by entry, `Render` fixes each entry's text, and single entries of the tests are proved to render as the tests' text (`Painting.RenderRectangleText` and the lemmas beside it), but the concatenated strings of whole tests are not proved equal as strings, because comparing long literal strings is beyond the solver's budget.
- `Shapes.Shape.Move`, `Shapes.Shape.Paint`, `Shapes.Shape.Add`, `Shapes.Shape.Remove`, `Shapes.Shape.AddChecked`, `Shapes.Shape.RemoveChecked` (and the helpers `MoveChildren`, `DoPaint`, `PaintChildren`, `PaintChild`): each requires the hierarchy invariant on a ghost set of shapes, which the Java code does not check; the add and remove methods also require the shape to belong to that set. `Shapes.Shape.PathOf` requires only that the callee's parent chain stays in that set and ends.
- `Views.TreeAdapter.Update`: for an added or removed shape it requires the event's carrier to belong to a well-formed hierarchy, so that its path is defined (the Java loop in `path()` would not end on a cycle).
- Aliasing between the painter and the shapes is excluded by the types: a `MockPainter` is never a shape.

## Findings

| source | as written | input that shows it | evidently intended | confidence | as-written member | corrected member |
|---|---|---|---|---|---|---|
| src/spaceshapes/CarrierShape.java:96-112 | `add` checks only the parent and the size, so a carrier can be added to itself or to a carrier inside its own tree | a parentless carrier `c` and `c.add(c)`: accepted, `c` becomes its own parent, and `path()` and `move` then never end | a shape that is the carrier itself or one of its ancestors is refused, so the containment stays acyclic | medium, not executed | `Scenarios.SelfAddAccepted` | `Shapes.Shape.AddChecked` |
| src/spaceshapes/CarrierShape.java:121-124 | `remove` sets the shape's parent to null whether or not the shape is a child of this carrier | `a.add(s)` then `b.remove(s)` for another carrier `b`: `s` has no parent but `a` still lists it | no effect for a shape that is not a child here, as the comment on lines 114-120 says | high, not executed | `Scenarios.RemoveFromOtherCarrier` | `Shapes.Shape.RemoveChecked` |
