/**
 * The traces the repository's own tests assert on, replayed against the
 * model. Each scenario builds fresh shapes and a fresh MockPainter, drives
 * them as the test does, and promises the exact sequence of log entries;
 * `Render` gives each entry's text, so the log's text is the test's
 * expected string.
 */
module Scenarios {
  import opened Util
  import opened Motion
  import opened Painting
  import opened Shapes

  /** `move` on a shape that sits in no carrier and has no children. */
  method MoveAlone(shape: Shape, boundWidth: int, boundHeight: int)
    requires shape.parent == null && shape.children == []
    modifies shape`x, shape`y, shape`deltaX, shape`deltaY, shape`fill
    ensures shape.MoveState() ==
      Step(old(shape.MoveState()), shape.kind.Dynamic?, shape.width, shape.height, boundWidth, boundHeight)
  {
    LooseHierarchy({shape});
    shape.Move(boundWidth, boundHeight, {shape});
  }

  /** `paint` on a shape that sits in no carrier and has no children. */
  method PaintAlone(shape: Shape, painter: MockPainter)
    requires shape.parent == null && shape.children == [] && shape.kind != Carrier
    modifies painter`log, painter`color, painter`origin
    ensures painter.color == old(painter.color)
    ensures painter.log == old(painter.log) + Label(shape.text, shape.x, shape.y, shape.width, shape.height) +
      Drawing(shape.kind, shape.x, shape.y, shape.width, shape.height, shape.fill, painter.color)
  {
    LooseHierarchy({shape});
    shape.Paint(painter, {shape});
  }

  /** A DynamicShape that meets the right wall fills with its colour and restores the painter's. */
  method DynamicBounceOffRight() returns (log: seq<Entry>)
    ensures log == [Rectangle(100, 20, 25, 35),
      ColorSet(Blue), Rectangle(110, 35, 25, 35), FilledWith(Blue), ColorSet(InitialColor),
      ColorSet(Blue), Rectangle(98, 50, 25, 35), FilledWith(Blue), ColorSet(InitialColor)]
  {
    var painter := new MockPainter();
    var shape := new Shape.Moving(Dynamic(Blue), 100, 20, 12, 15);
    PaintAlone(shape, painter);
    MoveAlone(shape, 135, 10000);
    PaintAlone(shape, painter);
    MoveAlone(shape, 135, 10000);
    PaintAlone(shape, painter);
    log := painter.log;
  }

  /** A DynamicShape with no horizontal velocity bounces off the bottom and stays an outline. */
  method DynamicBounceOffBottom() returns (log: seq<Entry>)
    ensures log == [Rectangle(10, 55, 25, 35), Rectangle(10, 65, 25, 35), Rectangle(10, 45, 25, 35)]
  {
    var painter := new MockPainter();
    var shape := new Shape.Moving(Dynamic(Red), 10, 55, 0, 20);
    PaintAlone(shape, painter);
    MoveAlone(shape, 10000, 100);
    PaintAlone(shape, painter);
    MoveAlone(shape, 10000, 100);
    PaintAlone(shape, painter);
    log := painter.log;
  }

  /** Top wall (outline), then right wall (filled), then no wall (still filled). */
  method DynamicBounceOffTopThenRight() returns (log: seq<Entry>)
    ensures log == [Rectangle(45, 19, 25, 35), Rectangle(61, 0, 25, 35),
      ColorSet(Orange), Rectangle(75, 20, 25, 35), FilledWith(Orange), ColorSet(InitialColor),
      ColorSet(Orange), Rectangle(59, 40, 25, 35), FilledWith(Orange), ColorSet(InitialColor)]
  {
    var painter := new MockPainter();
    var shape := new Shape.Moving(Dynamic(Orange), 45, 19, 16, -20);
    PaintAlone(shape, painter);
    MoveAlone(shape, 100, 100);
    assert shape.MoveState() == State(61, 0, 16, 20, false);
    PaintAlone(shape, painter);
    assert painter.log == [Rectangle(45, 19, 25, 35), Rectangle(61, 0, 25, 35)];
    MoveAlone(shape, 100, 100);
    assert shape.MoveState() == State(75, 20, -16, 20, true);
    PaintAlone(shape, painter);
    assert painter.log == [Rectangle(45, 19, 25, 35), Rectangle(61, 0, 25, 35),
      ColorSet(Orange), Rectangle(75, 20, 25, 35), FilledWith(Orange), ColorSet(InitialColor)];
    MoveAlone(shape, 10000, 100);
    PaintAlone(shape, painter);
    log := painter.log;
  }

  /** Left wall (filled), then top wall (outline wins back), then no wall. */
  method DynamicBounceOffLeftThenTop() returns (log: seq<Entry>)
    ensures log == [Rectangle(20, 38, 25, 35),
      ColorSet(Orange), Rectangle(0, 18, 25, 35), FilledWith(Orange), ColorSet(InitialColor),
      Rectangle(20, 0, 25, 35), Rectangle(40, 20, 25, 35)]
  {
    var painter := new MockPainter();
    var shape := new Shape.Moving(Dynamic(Orange), 20, 38, -20, -20);
    PaintAlone(shape, painter);
    MoveAlone(shape, 10000, 100);
    PaintAlone(shape, painter);
    MoveAlone(shape, 10000, 100);
    PaintAlone(shape, painter);
    assert painter.log == [Rectangle(20, 38, 25, 35),
      ColorSet(Orange), Rectangle(0, 18, 25, 35), FilledWith(Orange), ColorSet(InitialColor),
      Rectangle(20, 0, 25, 35)];
    MoveAlone(shape, 10000, 100);
    PaintAlone(shape, painter);
    log := painter.log;
  }

  /** A corner hit clamps and flips both axes in one move, and the outline wins over the fill. */
  method DynamicBounceOffBottomAndRight() returns (log: seq<Entry>)
    ensures log == [Rectangle(97, 95, 25, 35), Rectangle(100, 100, 25, 35), Rectangle(88, 85, 25, 35)]
  {
    var painter := new MockPainter();
    var shape := new Shape.Moving(DefaultDynamic, 97, 95, 12, 15);
    PaintAlone(shape, painter);
    MoveAlone(shape, 125, 135);
    PaintAlone(shape, painter);
    MoveAlone(shape, 125, 135);
    PaintAlone(shape, painter);
    log := painter.log;
  }

  /** A hexagon narrower than 40 is logged as a four-sided figure. */
  method SmallHexagon() returns (log: seq<Entry>)
    ensures log == [HexagonHeader(50, 35, 16, 30),
      HexagonLines(false, [Point(50, 50), Point(58, 35), Point(66, 50), Point(58, 65), Point(50, 50)])]
  {
    var painter := new MockPainter();
    var shape := new Shape(Hexagon, 50, 35, 15, 30, 16, 30);
    PaintAlone(shape, painter);
    log := painter.log;
  }

  /** A hexagon at least 40 wide is logged with six sides, inset 20 from each side. */
  method RegularHexagon() returns (log: seq<Entry>)
    ensures log == [HexagonHeader(60, 55, 50, 40),
      HexagonLines(true, [Point(60, 75), Point(80, 55), Point(90, 55), Point(110, 75),
                          Point(90, 95), Point(80, 95), Point(60, 75)])]
  {
    var painter := new MockPainter();
    var shape := new Shape(Hexagon, 60, 55, 15, 30, 50, 40);
    PaintAlone(shape, painter);
    log := painter.log;
  }

  /** A hexagon bounces as any shape does: off the right wall, then back. */
  method HexagonBounceOffRight() returns (log: seq<Entry>)
    ensures log == HexagonLog(100, 20, 25, 35) + HexagonLog(110, 35, 25, 35) + HexagonLog(98, 50, 25, 35)
    ensures HexagonVertices(110, 35, 25, 35) ==
      [Point(110, 52), Point(122, 35), Point(135, 52), Point(122, 70), Point(110, 52)]
  {
    var painter := new MockPainter();
    var shape := new Shape.Moving(Hexagon, 100, 20, 12, 15);
    PaintAlone(shape, painter);
    MoveAlone(shape, 135, 10000);
    PaintAlone(shape, painter);
    MoveAlone(shape, 135, 10000);
    PaintAlone(shape, painter);
    log := painter.log;
  }

  /** A labelled shape logs its text before its own drawing, at every paint. */
  method LabelledHexagon() returns (log: seq<Entry>)
    ensures log == [TextPainted(100, 20, 25, 35, "Hi")] + HexagonLog(100, 20, 25, 35) +
                   [TextPainted(112, 35, 25, 35, "Hi")] + HexagonLog(112, 35, 25, 35)
  {
    var painter := new MockPainter();
    var shape := new Shape.Labelled(Hexagon, 100, 20, 12, 15, 25, 35, Some("Hi"));
    PaintAlone(shape, painter);
    MoveAlone(shape, 500, 500);
    PaintAlone(shape, painter);
    log := painter.log;
  }

  /** The trace of a carrier at (10, 20) holding one outlined, unlabelled 25x35 shape at (0, 0). */
  lemma CarrierWithChildTrace(carrier: Shape, child: Shape, W: set<Shape>, c: Color)
    requires Hierarchy(W) && carrier in W && carrier.kind == Carrier && carrier.children == [child]
    requires carrier.x == 10 && carrier.y == 20 && carrier.width == 100 && carrier.height == 100
    requires carrier.text == None && child.text == None && child.kind == DefaultDynamic && !child.fill
    requires child.x == 0 && child.y == 0 && child.width == 25 && child.height == 35
    ensures Trace(carrier, W, c) ==
      [Rectangle(10, 20, 100, 100), Translated(10, 20), Rectangle(0, 0, 25, 35), Translated(-10, -20)]
  {
    ChildrenTraceStep(carrier, 0, W, c);
    assert Trace(child, W, c) == [Rectangle(0, 0, 25, 35)];
  }

  /**
   * A 100x100 carrier holding a default-size dynamic shape: painting logs
   * the carrier's outline, then the child between a translation to the
   * carrier's corner and the opposite one, so the origin comes back.
   */
  method CarrierWithChild() returns (log: seq<Entry>)
    ensures log == [Rectangle(10, 20, 100, 100),
      Translated(10, 20), Rectangle(0, 0, 25, 35), Translated(-10, -20)]
  {
    var painter := new MockPainter();
    var carrier := new Shape(Carrier, 10, 20, 5, 5, 100, 100);
    var child := new Shape.At(DefaultDynamic, 0, 0);
    ghost var W := {carrier, child};
    LooseHierarchy(W);
    assert child !in Lineage(carrier, W);
    var r := carrier.Add(child, W);
    assert r.None? && Hierarchy(W) && carrier.children == [child];
    CarrierWithChildTrace(carrier, child, W, painter.color);
    carrier.Paint(painter, W);
    assert painter.origin == Point(0, 0);
    log := painter.log;
  }

  /**
   * `add` as written accepts a parentless carrier into itself: it becomes its
   * own parent and child, and the shapes no longer form a hierarchy.
   */
  method SelfAddAccepted() returns (r: Option<Rejection>, carrier: Shape)
    ensures r == None && carrier.parent == carrier && carrier.children == [carrier]
    ensures !Hierarchy({carrier})
  {
    carrier := new Shape.Default(Carrier);
    LooseHierarchy({carrier});
    r := carrier.Add(carrier, {carrier});
  }

  /** The checked `add` refuses the same request and leaves the carrier as it was. */
  method SelfAddRefused() returns (r: Option<Rejection>, carrier: Shape)
    ensures r == Some(WouldCycle) && carrier.parent == null && carrier.children == []
    ensures Hierarchy({carrier})
  {
    carrier := new Shape.Default(Carrier);
    LooseHierarchy({carrier});
    r := carrier.AddChecked(carrier, {carrier});
  }

  /**
   * `remove` as written, called on a carrier the shape is not in, clears the
   * shape's parent although its carrier still lists it. The owner's `path()`
   * is still just the owner.
   */
  method RemoveFromOtherCarrier() returns (owner: Shape, shape: Shape, path: seq<Shape>)
    ensures shape in owner.children && shape.parent == null
    ensures path == [owner]
  {
    owner := new Shape(Carrier, 0, 0, 5, 5, 100, 100);
    var other := new Shape(Carrier, 0, 0, 5, 5, 100, 100);
    shape := new Shape.Default(Hexagon);
    ghost var W := {owner, other, shape};
    LooseHierarchy(W);
    var r := owner.Add(shape, W);
    assert Lineage(owner, W) == [owner];
    other.Remove(shape, W);
    path := owner.PathOf(W);
  }

  /** The checked `remove` leaves that shape linked to its carrier. */
  method RemoveCheckedFromOtherCarrier() returns (owner: Shape, shape: Shape)
    ensures shape in owner.children && shape.parent == owner
  {
    owner := new Shape(Carrier, 0, 0, 5, 5, 100, 100);
    var other := new Shape(Carrier, 0, 0, 5, 5, 100, 100);
    shape := new Shape.Default(Hexagon);
    ghost var W := {owner, other, shape};
    LooseHierarchy(W);
    var r := owner.Add(shape, W);
    assert Lineage(owner, W) == [owner];
    other.RemoveChecked(shape, W);
  }
}
