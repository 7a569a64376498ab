/**
 * The shape world: one class for CarrierShape, HexagonShape and
 * DynamicShape, told apart by `kind`, with the fields of the abstract Shape
 * base class, CarrierShape's `_children` list and DynamicShape's fill flag.
 *
 * The containment hierarchy is stated over a ghost set `W` of all the
 * shapes a client works with. `Hierarchy(W)` is the invariant the source's
 * design relies on: parent and child links agree in both directions, a
 * child fits in its carrier, only carriers have children, a carrier lists
 * each child once, and every parent chain ends in a root (no cycles).
 */
module Shapes {
  import opened Util
  import opened Ancestry
  import opened Motion
  import opened Painting

  const DEFAULT_X_POS := 0
  const DEFAULT_Y_POS := 0
  const DEFAULT_DELTA_X := 5
  const DEFAULT_DELTA_Y := 5
  const DEFAULT_HEIGHT := 35
  const DEFAULT_WIDTH := 25

  /** The concrete class of a shape; a DynamicShape carries the colour it fills with. */
  datatype Kind = Carrier | Hexagon | Dynamic(color: Color)

  /** The colour a DynamicShape gets when none is given. */
  const DefaultDynamic := Dynamic(White)

  /**
   * Why `add` refuses a shape. The source throws IllegalArgumentException
   * in all three of its cases; `WouldCycle` is raised only by `AddChecked`.
   */
  datatype Rejection = HasParent | TooWide | TooHigh | WouldCycle

  /** `shapeAt`'s IndexOutOfBoundsException. */
  datatype IndexOutOfBounds = IndexOutOfBounds(index: int)

  /** The parent links of the shapes of `W`: a shape without a parent is not a key. */
  ghost function Parents(W: set<Shape>): map<Shape, Shape>
    reads W`parent
  {
    map s | s in W && s.parent != null :: s.parent as Shape
  }

  /**
   * The links of one shape: a parent, if any, lists it among its children
   * and is at least as wide and as high; each child has it as parent; no
   * child is listed twice; only a carrier has children.
   */
  ghost predicate Linked(s: Shape, W: set<Shape>)
    reads W`parent, W`children
  {
    s in W &&
    (s.parent != null ==>
      s.parent in W && s in s.parent.children &&
      s.width <= s.parent.width && s.height <= s.parent.height) &&
    (forall i :: 0 <= i < |s.children| ==> s.children[i] in W && s.children[i].parent == s) &&
    NoDuplicates(s.children) && (s.kind != Carrier ==> s.children == [])
  }

  ghost predicate Hierarchy(W: set<Shape>)
    reads W`parent, W`children
  {
    (forall s {:trigger Linked(s, W)} :: s in W ==> Linked(s, W)) &&
    (forall s {:trigger Rooted(s, Parents(W), W)} :: s in W ==> Rooted(s, Parents(W), W))
  }

  /** The shapes from the root of `s`'s hierarchy down to `s`: what `path()` returns. */
  ghost function Lineage(s: Shape, W: set<Shape>): seq<Shape>
    requires Hierarchy(W) && s in W
    reads W`parent, W`children
  {
    Path(s, Parents(W), W)
  }

  /** `d` lies strictly inside `a`'s subtree. */
  ghost predicate Below(d: Shape, a: Shape, W: set<Shape>)
    requires Hierarchy(W) && d in W
    reads W`parent, W`children
  {
    d.parent != null && d.parent in W && a in Lineage(d.parent, W)
  }

  /** `d` lies in the subtree of one of `a`'s first `n` children. */
  ghost predicate UnderFirst(a: Shape, n: int, d: Shape, W: set<Shape>)
    requires Hierarchy(W) && a in W && d in W && 0 <= n <= |a.children|
    reads W`parent, W`children
    decreases n
  {
    n > 0 && (UnderFirst(a, n - 1, d, W) || a.children[n - 1] in Lineage(d, W))
  }

  /** A lineage starts at a root, ends at the shape, and links each shape to its parent. */
  lemma LineageShape(s: Shape, W: set<Shape>)
    requires Hierarchy(W) && s in W
    ensures var p := Lineage(s, W);
      |p| >= 1 && p[|p| - 1] == s && p[0].parent == null &&
      (forall i :: 0 <= i < |p| ==> p[i] in W) &&
      (forall i :: 0 < i < |p| ==> p[i].parent == p[i - 1]) &&
      NoDuplicates(p) && |p| <= |W|
  {
    PathShape(s, Parents(W), W);
  }

  /** The lineage of a shape with a parent is the parent's, extended by the shape. */
  lemma ParentLineage(s: Shape, W: set<Shape>)
    requires Hierarchy(W) && s in W && s.parent != null
    ensures s.parent in W && Lineage(s, W) == Lineage(s.parent, W) + [s]
  {
    assert Linked(s, W);
    ParentPath(s, Parents(W), W);
  }

  /** A shape without a parent is its own lineage. */
  lemma RootLineage(s: Shape, W: set<Shape>)
    requires Hierarchy(W) && s in W && s.parent == null
    ensures Lineage(s, W) == [s]
  {
  }

  /** A child's lineage is its carrier's, extended by the child. */
  lemma ChildLineage(a: Shape, i: int, W: set<Shape>)
    requires Hierarchy(W) && a in W && 0 <= i < |a.children|
    ensures a.children[i] in W && a.children[i].parent == a
    ensures Lineage(a.children[i], W) == Lineage(a, W) + [a.children[i]]
    ensures |Lineage(a.children[i], W)| <= |W|
  {
    assert Linked(a, W);
    ParentLineage(a.children[i], W);
    LineageShape(a.children[i], W);
  }

  /** Where a child of `a` sits on a lineage, `a` sits just before it. */
  lemma ChildPosition(a: Shape, j: int, d: Shape, W: set<Shape>) returns (q: int)
    requires Hierarchy(W) && a in W && d in W && 0 <= j < |a.children|
    requires a.children[j] in Lineage(d, W)
    ensures 0 < q < |Lineage(d, W)| && Lineage(d, W)[q] == a.children[j] && Lineage(d, W)[q - 1] == a
  {
    var p := Lineage(d, W);
    LineageShape(d, W);
    assert Linked(a, W);
    q :| 0 <= q < |p| && p[q] == a.children[j];
  }

  /** No shape lies below two different children of the same carrier. */
  lemma Disjoint(a: Shape, i: int, j: int, d: Shape, W: set<Shape>)
    requires Hierarchy(W) && a in W && d in W && 0 <= i < |a.children| && 0 <= j < |a.children|
    requires a.children[i] in Lineage(d, W) && a.children[j] in Lineage(d, W)
    ensures i == j
  {
    var qi := ChildPosition(a, i, d, W);
    var qj := ChildPosition(a, j, d, W);
    LineageShape(d, W);
    assert Linked(a, W);
  }

  /** No child of `a` is on `a`'s own lineage. */
  lemma NotBelowSelf(a: Shape, j: int, W: set<Shape>)
    requires Hierarchy(W) && a in W && 0 <= j < |a.children|
    ensures a.children[j] !in Lineage(a, W)
  {
    var c := a.children[j];
    ChildLineage(a, j, W);
    LineageShape(c, W);
    var p := Lineage(c, W);
    forall k | 0 <= k < |Lineage(a, W)| ensures Lineage(a, W)[k] != c {
      assert p[k] == Lineage(a, W)[k] && p[|p| - 1] == c;
    }
  }

  lemma UnderFirstIff(a: Shape, n: int, d: Shape, W: set<Shape>)
    requires Hierarchy(W) && a in W && d in W && 0 <= n <= |a.children|
    ensures UnderFirst(a, n, d, W) <==> exists j :: 0 <= j < n && a.children[j] in Lineage(d, W)
    decreases n
  {
    if n > 0 {
      UnderFirstIff(a, n - 1, d, W);
    }
  }

  /** A shape below `a` has one of `a`'s children on its lineage. */
  lemma BelowHasChild(a: Shape, d: Shape, W: set<Shape>) returns (j: int)
    requires Hierarchy(W) && a in W && d in W && Below(d, a, W)
    ensures 0 <= j < |a.children| && a.children[j] in Lineage(d, W)
  {
    ParentLineage(d, W);
    var p := Lineage(d, W);
    LineageShape(d, W);
    var k :| 0 <= k < |Lineage(d.parent, W)| && Lineage(d.parent, W)[k] == a;
    assert p[k] == a;
    var c := p[k + 1];
    assert c.parent == a && c in W;
    assert Linked(c, W);
    j := Util.IndexOf(a.children, c);
  }

  /** A shape with one of `a`'s children on its lineage is below `a`. */
  lemma ChildGivesBelow(a: Shape, j: int, d: Shape, W: set<Shape>)
    requires Hierarchy(W) && a in W && d in W && 0 <= j < |a.children| && a.children[j] in Lineage(d, W)
    ensures Below(d, a, W)
  {
    var q := ChildPosition(a, j, d, W);
    var p := Lineage(d, W);
    if d.parent == null {
      RootLineage(d, W);
    }
    ParentLineage(d, W);
    assert Lineage(d.parent, W)[q - 1] == p[q - 1];
  }

  /** A shape is below `a` exactly when it is on or below one of `a`'s children. */
  lemma BelowIff(a: Shape, d: Shape, W: set<Shape>)
    requires Hierarchy(W) && a in W && d in W
    ensures Below(d, a, W) <==> UnderFirst(a, |a.children|, d, W)
  {
    UnderFirstIff(a, |a.children|, d, W);
    if Below(d, a, W) {
      var j := BelowHasChild(a, d, W);
    }
    if UnderFirst(a, |a.children|, d, W) {
      var j :| 0 <= j < |a.children| && a.children[j] in Lineage(d, W);
      ChildGivesBelow(a, j, d, W);
    }
  }

  /** How the set of shapes below `a`'s first children grows by one child. */
  lemma UnderNext(a: Shape, i: int, d: Shape, W: set<Shape>)
    requires Hierarchy(W) && a in W && d in W && 0 <= i < |a.children|
    ensures var c := a.children[i];
      var inC := d == c || Below(d, c, W);
      (inC <==> c in Lineage(d, W)) &&
      (inC ==> d != a && !UnderFirst(a, i, d, W) && d.parent != null) &&
      (d == c ==> d.parent == a) &&
      (UnderFirst(a, i + 1, d, W) <==> UnderFirst(a, i, d, W) || inC)
  {
    var c := a.children[i];
    ChildLineage(a, i, W);
    LineageShape(d, W);
    if d.parent != null {
      ParentLineage(d, W);
    } else {
      RootLineage(d, W);
    }
    if c in Lineage(d, W) {
      if d == a {
        NotBelowSelf(a, i, W);
      }
      UnderFirstIff(a, i, d, W);
      if UnderFirst(a, i, d, W) {
        var j :| 0 <= j < i && a.children[j] in Lineage(d, W);
        Disjoint(a, i, j, d, W);
      }
    }
  }

  /** No shape is below a shape without children. */
  lemma NothingBelowLeaf(a: Shape, d: Shape, W: set<Shape>)
    requires Hierarchy(W) && a in W && d in W && a.children == []
    ensures !Below(d, a, W)
  {
    BelowIff(a, d, W);
  }

  /** A shape is not below itself. */
  lemma NotBelowItself(a: Shape, W: set<Shape>)
    requires Hierarchy(W) && a in W
    ensures !Below(a, a, W)
  {
    if a.parent != null {
      ParentLineage(a, W);
      var p := Lineage(a, W);
      LineageShape(a, W);
      forall k | 0 <= k < |Lineage(a.parent, W)| ensures Lineage(a.parent, W)[k] != a {
        assert p[k] == Lineage(a.parent, W)[k] && p[|p| - 1] == a;
      }
    }
  }

  /** Where `move` on `a` within the given bounds leaves a shape `d` that was in state `st`. */
  ghost function MovedState(d: Shape, a: Shape, W: set<Shape>, boundWidth: int, boundHeight: int, st: State): State
    requires Hierarchy(W) && d in W
    reads W`parent, W`children
  {
    if d == a then Step(st, d.kind.Dynamic?, d.width, d.height, boundWidth, boundHeight)
    else if Below(d, a, W) then Step(st, d.kind.Dynamic?, d.width, d.height, d.parent.width, d.parent.height)
    else st
  }

  /** The log entry for the label: the text centred in the shape's box, painted before the body when there is text. */
  function Label(text: Option<string>, x: int, y: int, width: int, height: int): seq<Entry>
  {
    match text
    case Some(t) => [TextPainted(x, y, width, height, t)]
    case None => []
  }

  /**
   * What `paint` logs for `s` on a painter whose current colour is `current`:
   * the label, then the body.
   */
  ghost function Trace(s: Shape, W: set<Shape>, current: Color): seq<Entry>
    requires Hierarchy(W) && s in W
    reads W
    decreases |W| - |Lineage(s, W)|, 2, 0
  {
    Label(s.text, s.x, s.y, s.width, s.height) + Body(s, W, current)
  }

  /**
   * What a shape's own drawing logs, from its geometry alone: a carrier's or
   * outlined dynamic shape's rectangle, a hexagon's outline, or a filled
   * dynamic shape's fill with the painter's colour set around it. It never
   * translates or writes text; only a filled dynamic shape sets a colour,
   * its own first and the painter's own back last.
   */
  function Drawing(kind: Kind, x: int, y: int, width: int, height: int, fill: bool, current: Color): (r: seq<Entry>)
    ensures |r| >= 1
    ensures forall i :: 0 <= i < |r| ==> !r[i].Translated? && !r[i].TextPainted?
    ensures forall i :: 0 <= i < |r| && r[i].ColorSet? ==> kind.Dynamic? && fill
    ensures kind.Dynamic? && fill ==> r[0] == ColorSet(kind.color) && r[|r| - 1] == ColorSet(current)
    ensures kind.Dynamic? && !fill ==> r == [Rectangle(x, y, width, height)]
  {
    match kind
    case Carrier => [Rectangle(x, y, width, height)]
    case Hexagon => HexagonLog(x, y, width, height)
    case Dynamic(color) =>
      if fill then [ColorSet(color), Rectangle(x, y, width, height), FilledWith(color), ColorSet(current)]
      else [Rectangle(x, y, width, height)]
  }

  /**
   * What `doPaint` logs: the shape's own drawing, followed for a carrier by
   * each child painted inside a translation to the carrier's corner.
   */
  ghost function Body(s: Shape, W: set<Shape>, current: Color): seq<Entry>
    requires Hierarchy(W) && s in W
    reads W
    decreases |W| - |Lineage(s, W)|, 1, 0
  {
    Drawing(s.kind, s.x, s.y, s.width, s.height, s.fill, current) +
    (if s.kind == Carrier then ChildrenTrace(s, |s.children|, W, current) else [])
  }

  /** The log of painting the first `n` children of carrier `s`. */
  ghost function ChildrenTrace(s: Shape, n: int, W: set<Shape>, current: Color): seq<Entry>
    requires Hierarchy(W) && s in W && 0 <= n <= |s.children|
    reads W
    decreases |W| - |Lineage(s, W)|, 0, n
  {
    if n == 0 then []
    else
      ChildLineage(s, n - 1, W);
      ChildrenTrace(s, n - 1, W, current) +
      ([Translated(s.x, s.y)] + Trace(s.children[n - 1], W, current) + [Translated(-s.x, -s.y)])
  }

  /** Painting one more child appends that child's translated trace. */
  lemma ChildrenTraceStep(s: Shape, i: int, W: set<Shape>, current: Color)
    requires Hierarchy(W) && s in W && 0 <= i < |s.children|
    ensures s.children[i] in W
    ensures ChildrenTrace(s, i + 1, W, current) ==
      ChildrenTrace(s, i, W, current) + ([Translated(s.x, s.y)] + Trace(s.children[i], W, current) + [Translated(-s.x, -s.y)])
  {
    assert Linked(s, W);
  }

  /** The log after painting one more child, regrouped as `ChildrenTrace` groups it. */
  lemma BracketedStep(prefix: seq<Entry>, done: seq<Entry>, trace: seq<Entry>, dx: int, dy: int)
    ensures prefix + done + [Translated(dx, dy)] + trace + [Translated(-dx, -dy)] ==
      prefix + (done + ([Translated(dx, dy)] + trace + [Translated(-dx, -dy)]))
  {
    var t := [Translated(dx, dy)];
    var u := [Translated(-dx, -dy)];
    AppendAssoc(prefix + done, t, trace);
    AppendAssoc(prefix + done, t + trace, u);
    AppendAssoc(prefix, done, t + trace + u);
  }

  /** `paint` logs the text first exactly when the shape has text; the body never starts with text. */
  lemma TraceStartsWithLabel(s: Shape, W: set<Shape>, current: Color)
    requires Hierarchy(W) && s in W
    ensures |Trace(s, W, current)| >= 1
    ensures Trace(s, W, current)[0].TextPainted? <==> s.text.Some?
    ensures s.text.Some? ==> Trace(s, W, current)[0] == TextPainted(s.x, s.y, s.width, s.height, s.text.value)
  {
    var b := Body(s, W, current);
    assert |b| >= 1 && !b[0].TextPainted?;
  }

  class Shape {
    const kind: Kind
    var x: int
    var y: int
    var deltaX: int
    var deltaY: int
    const width: int
    const height: int
    var text: Option<string>
    /** The carrier this shape is a child of, if any. */
    var parent: Shape?
    /** A carrier's children, in insertion order; empty for other kinds. */
    var children: seq<Shape>
    /** DynamicShape's `_fillColor`: whether it paints filled. */
    var fill: bool

    constructor (kind: Kind, x: int, y: int, deltaX: int, deltaY: int, width: int, height: int)
      ensures this.kind == kind && this.x == x && this.y == y
      ensures this.deltaX == deltaX && this.deltaY == deltaY
      ensures this.width == width && this.height == height
      ensures text == None && parent == null && children == [] && !fill
    {
      this.kind := kind;
      this.x := x;
      this.y := y;
      this.deltaX := deltaX;
      this.deltaY := deltaY;
      this.width := width;
      this.height := height;
      text := None;
      parent := null;
      children := [];
      fill := false;
    }

    /** The no-argument constructors. */
    constructor Default(kind: Kind)
      ensures this.kind == kind && x == 0 && y == 0 && deltaX == 5 && deltaY == 5
      ensures width == 25 && height == 35
      ensures text == None && parent == null && children == [] && !fill
    {
      this.kind := kind;
      x := DEFAULT_X_POS;
      y := DEFAULT_Y_POS;
      deltaX := DEFAULT_DELTA_X;
      deltaY := DEFAULT_DELTA_Y;
      width := DEFAULT_WIDTH;
      height := DEFAULT_HEIGHT;
      text := None;
      parent := null;
      children := [];
      fill := false;
    }

    /** The (x, y) constructors. */
    constructor At(kind: Kind, x: int, y: int)
      ensures this.kind == kind && this.x == x && this.y == y && deltaX == 5 && deltaY == 5
      ensures width == 25 && height == 35
      ensures text == None && parent == null && children == [] && !fill
    {
      this.kind := kind;
      this.x := x;
      this.y := y;
      deltaX := DEFAULT_DELTA_X;
      deltaY := DEFAULT_DELTA_Y;
      width := DEFAULT_WIDTH;
      height := DEFAULT_HEIGHT;
      text := None;
      parent := null;
      children := [];
      fill := false;
    }

    /** The (x, y, deltaX, deltaY) constructors. */
    constructor Moving(kind: Kind, x: int, y: int, deltaX: int, deltaY: int)
      ensures this.kind == kind && this.x == x && this.y == y
      ensures this.deltaX == deltaX && this.deltaY == deltaY
      ensures width == 25 && height == 35
      ensures text == None && parent == null && children == [] && !fill
    {
      this.kind := kind;
      this.x := x;
      this.y := y;
      this.deltaX := deltaX;
      this.deltaY := deltaY;
      width := DEFAULT_WIDTH;
      height := DEFAULT_HEIGHT;
      text := None;
      parent := null;
      children := [];
      fill := false;
    }

    /** The constructors that also take a text. */
    constructor Labelled(kind: Kind, x: int, y: int, deltaX: int, deltaY: int, width: int, height: int,
                         text: Option<string>)
      ensures this.kind == kind && this.x == x && this.y == y
      ensures this.deltaX == deltaX && this.deltaY == deltaY
      ensures this.width == width && this.height == height
      ensures this.text == text && parent == null && children == [] && !fill
    {
      this.kind := kind;
      this.x := x;
      this.y := y;
      this.deltaX := deltaX;
      this.deltaY := deltaY;
      this.width := width;
      this.height := height;
      parent := null;
      children := [];
      fill := false;
      new;
      AddText(text);
    }

    method AddText(text: Option<string>)
      modifies this`text
      ensures this.text == text
    {
      this.text := text;
    }

    /** The part of the state a move changes. */
    function MoveState(): State
      reads this`x, this`y, this`deltaX, this`deltaY, this`fill
    {
      State(x, y, deltaX, deltaY, fill)
    }

    /** Shape's own `move`: the bounce on both axes. */
    method BaseMove(boundWidth: int, boundHeight: int)
      modifies this`x, this`y, this`deltaX, this`deltaY
      ensures MoveState() == Step(old(MoveState()), false, width, height, boundWidth, boundHeight)
    {
      var nextX := x + deltaX;
      var nextY := y + deltaY;

      if nextX <= 0 {
        nextX := 0;
        deltaX := -deltaX;
      } else if nextX + width >= boundWidth {
        nextX := boundWidth - width;
        deltaX := -deltaX;
      }

      if nextY <= 0 {
        nextY := 0;
        deltaY := -deltaY;
      } else if nextY + height >= boundHeight {
        nextY := boundHeight - height;
        deltaY := -deltaY;
      }

      x := nextX;
      y := nextY;
    }

    /**
     * `move` as each kind overrides it. This shape bounces inside the given
     * bounds, every shape below it bounces inside its own carrier's width
     * and height, and no other shape changes. Below a moved carrier every
     * shape ends up inside its carrier's box.
     */
    method Move(boundWidth: int, boundHeight: int, ghost W: set<Shape>)
      requires Hierarchy(W) && this in W
      modifies W`x, W`y, W`deltaX, W`deltaY, W`fill
      ensures Hierarchy(W)
      ensures forall d :: d in W ==>
        d.MoveState() == MovedState(d, this, W, boundWidth, boundHeight, old(d.MoveState()))
      ensures forall d :: d in W && Below(d, this, W) ==>
        0 <= d.x <= d.parent.width - d.width && 0 <= d.y <= d.parent.height - d.height
      decreases |W| - |Lineage(this, W)|, 1
    {
      NotBelowItself(this, W);
      assert Linked(this, W);
      match kind
      case Carrier =>
        BaseMove(boundWidth, boundHeight);
        MoveChildren(W);
      case Hexagon =>
        BaseMove(boundWidth, boundHeight);
        forall d | d in W ensures !Below(d, this, W) {
          NothingBelowLeaf(this, d, W);
        }
      case Dynamic(_) =>
        var lastDeltaX := deltaX;
        var lastDeltaY := deltaY;
        BaseMove(boundWidth, boundHeight);
        if deltaY != 0 && deltaY == -lastDeltaY {
          fill := false;
        } else if deltaX != 0 && deltaX == -lastDeltaX {
          fill := true;
        }
        forall d | d in W ensures !Below(d, this, W) {
          NothingBelowLeaf(this, d, W);
        }
    }

    /**
     * A carrier's moving loop: each child in turn moves inside this carrier's
     * width and height, and with it the shapes below it.
     */
    method MoveChildren(ghost W: set<Shape>)
      requires Hierarchy(W) && this in W
      modifies W`x, W`y, W`deltaX, W`deltaY, W`fill
      ensures Hierarchy(W)
      ensures forall d :: d in W ==> d.MoveState() == (if Below(d, this, W) then
        Step(old(d.MoveState()), d.kind.Dynamic?, d.width, d.height, d.parent.width, d.parent.height)
        else old(d.MoveState()))
      ensures forall d :: d in W && Below(d, this, W) ==>
        0 <= d.x <= d.parent.width - d.width && 0 <= d.y <= d.parent.height - d.height
      decreases |W| - |Lineage(this, W)|, 0
    {
      var i := 0;
      while i < |children|
        invariant 0 <= i <= |children|
        invariant Hierarchy(W)
        invariant forall d :: d in W ==>
          d.MoveState() == (
            if d.parent != null && UnderFirst(this, i, d, W) then
              Step(old(d.MoveState()), d.kind.Dynamic?, d.width, d.height, d.parent.width, d.parent.height)
            else old(d.MoveState()))
      {
        ChildLineage(this, i, W);
        var c := children[i];
        c.Move(width, height, W);
        forall d | d in W
          ensures d.MoveState() == (
            if d.parent != null && UnderFirst(this, i + 1, d, W) then
              Step(old(d.MoveState()), d.kind.Dynamic?, d.width, d.height, d.parent.width, d.parent.height)
            else old(d.MoveState()))
        {
          UnderNext(this, i, d, W);
        }
        i := i + 1;
      }
      forall d | d in W
        ensures d.MoveState() == (if Below(d, this, W) then
          Step(old(d.MoveState()), d.kind.Dynamic?, d.width, d.height, d.parent.width, d.parent.height)
          else old(d.MoveState()))
        ensures Below(d, this, W) ==>
          0 <= d.x <= d.parent.width - d.width && 0 <= d.y <= d.parent.height - d.height
      {
        BelowIff(this, d, W);
        if Below(d, this, W) {
          assert Linked(d, W);
          BounceStaysInside(old(d.x), old(d.deltaX), d.width, d.parent.width);
          BounceStaysInside(old(d.y), old(d.deltaY), d.height, d.parent.height);
        }
      }
    }

    /** `paint`: the label when there is text, then the kind's own painting. */
    method Paint(painter: MockPainter, ghost W: set<Shape>)
      requires Hierarchy(W) && this in W
      modifies painter`log, painter`color, painter`origin
      ensures painter.log == old(painter.log) + Trace(this, W, old(painter.color))
      ensures painter.color == old(painter.color) && painter.origin == old(painter.origin)
      decreases |W| - |Lineage(this, W)|, 3
    {
      ghost var caption := Label(text, x, y, width, height);
      ghost var body := Body(this, W, painter.color);
      assert Trace(this, W, painter.color) == caption + body;
      if text.Some? {
        painter.DrawCentredText(x, y, width, height, text.value);
      }
      assert painter.log == old(painter.log) + caption;
      DoPaint(painter, W);
      assert painter.log == old(painter.log) + caption + body;
    }

    /** `doPaint` as each kind overrides it. */
    method DoPaint(painter: MockPainter, ghost W: set<Shape>)
      requires Hierarchy(W) && this in W
      modifies painter`log, painter`color, painter`origin
      ensures painter.log == old(painter.log) + Body(this, W, old(painter.color))
      ensures painter.color == old(painter.color) && painter.origin == old(painter.origin)
      decreases |W| - |Lineage(this, W)|, 2
    {
      ghost var drawing := Drawing(kind, x, y, width, height, fill, painter.color);
      match kind
      case Carrier =>
        painter.DrawRect(x, y, width, height);
        assert painter.log == old(painter.log) + drawing;
        PaintChildren(painter, W);
      case Hexagon =>
        painter.DrawHexagon(x, y, width, height);
        assert painter.log == old(painter.log) + drawing;
      case Dynamic(color) =>
        if fill {
          var originalColor := painter.GetColor();
          painter.SetColor(color);
          painter.FillRect(x, y, width, height);
          painter.SetColor(originalColor);
        } else if !fill {
          painter.DrawRect(x, y, width, height);
        }
        assert painter.log == old(painter.log) + drawing;
    }

    /** A carrier's painting loop: each child in turn, in order. */
    method PaintChildren(painter: MockPainter, ghost W: set<Shape>)
      requires Hierarchy(W) && this in W
      modifies painter`log, painter`color, painter`origin
      ensures painter.log == old(painter.log) + ChildrenTrace(this, |children|, W, old(painter.color))
      ensures painter.color == old(painter.color) && painter.origin == old(painter.origin)
      decreases |W| - |Lineage(this, W)|, 1
    {
      var i := 0;
      while i < |children|
        invariant 0 <= i <= |children|
        invariant painter.log == old(painter.log) + ChildrenTrace(this, i, W, old(painter.color))
        invariant painter.color == old(painter.color) && painter.origin == old(painter.origin)
        invariant Hierarchy(W)
      {
        PaintChild(painter, i, W, old(painter.log));
        i := i + 1;
      }
    }

    /**
     * One turn of a carrier's painting loop: child `i`, drawn relative to the
     * carrier's corner, extends the log of the first `i` children to that of
     * the first `i + 1`.
     */
    method PaintChild(painter: MockPainter, i: int, ghost W: set<Shape>, ghost prefix: seq<Entry>)
      requires Hierarchy(W) && this in W && 0 <= i < |children|
      requires painter.log == prefix + ChildrenTrace(this, i, W, painter.color)
      modifies painter`log, painter`color, painter`origin
      ensures painter.log == prefix + ChildrenTrace(this, i + 1, W, painter.color)
      ensures painter.color == old(painter.color) && painter.origin == old(painter.origin)
      decreases |W| - |Lineage(this, W)|, 0
    {
      ChildrenTraceStep(this, i, W, painter.color);
      ChildLineage(this, i, W);
      ghost var done := ChildrenTrace(this, i, W, painter.color);
      ghost var trace := Trace(children[i], W, painter.color);
      ghost var next := ChildrenTrace(this, i + 1, W, painter.color);
      assert next == done + ([Translated(x, y)] + trace + [Translated(-x, -y)]);
      BracketedStep(prefix, done, trace, x, y);
      painter.Translate(x, y);
      children[i].Paint(painter, W);
      painter.Translate(-x, -y);
      assert painter.log == prefix + next;
    }

    /**
     * `path()`: the shapes from the root down to this one. It needs only a
     * parent chain that ends, not a whole well-formed hierarchy.
     */
    method PathOf(ghost W: set<Shape>) returns (path: seq<Shape>)
      requires this in W && Rooted(this, Parents(W), W)
      ensures path == Path(this, Parents(W), W)
      ensures |path| >= 1 && path[|path| - 1] == this && path[0].parent == null
      ensures forall i :: 0 < i < |path| ==> path[i].parent == path[i - 1]
    {
      ghost var P: map<Shape, Shape> := Parents(W);
      PathShape(this, P, W);
      ghost var full := Path(this, P, W);
      assert forall i :: 0 <= i < |full| ==> full[i] in W;
      path := [this];
      if parent == null {
        return;
      }
      assert this in P && P[this] == parent;
      ParentPath(this, P, W);
      path := [parent] + path;
      var currentParent: Shape := parent;
      while currentParent.parent != null
        invariant currentParent in W && Rooted(currentParent, P, W) && |path| >= 1 && path[0] == currentParent
        invariant Path(currentParent, P, W) + path[1..] == full
        decreases |Path(currentParent, P, W)|
      {
        assert currentParent in P && P[currentParent] == currentParent.parent;
        ParentPath(currentParent, P, W);
        path := [currentParent.parent] + path;
        currentParent := currentParent.parent;
      }
    }

    /**
     * `add` as written: refuses a shape that has a parent or does not fit,
     * and otherwise links it as the last child. It does not check that the
     * shape is not this carrier's own root, so an accepted add keeps the
     * hierarchy well formed exactly when the shape was not on this
     * carrier's lineage.
     */
    method Add(shape: Shape, ghost W: set<Shape>) returns (r: Option<Rejection>)
      requires Hierarchy(W) && this in W && shape in W && kind == Carrier
      modifies this`children, shape`parent
      ensures r == if old(shape.parent) != null then Some(HasParent)
        else if shape.width > width then Some(TooWide)
        else if shape.height > height then Some(TooHigh)
        else None
      ensures r.Some? ==> children == old(children) && shape.parent == old(shape.parent) && Hierarchy(W)
      ensures r.None? ==> children == old(children) + [shape] && shape.parent == this
      ensures r.None? ==> (Hierarchy(W) <==> shape !in old(Lineage(this, W)))
    {
      if shape.parent != null {
        return Some(HasParent);
      }

      if shape.width > width {
        return Some(TooWide);
      } else if shape.height > height {
        return Some(TooHigh);
      }

      ghost var P := Parents(W);
      ghost var line := Lineage(this, W);
      assert Linked(this, W);
      assert shape !in children;
      children := children + [shape];
      shape.parent := this;
      r := None;

      AttachKeepsLinks(this, shape, W);
      if shape in line {
        AttachIntoOwnTree(shape, P, W, shape, this, W);
      } else {
        AttachPreservesRooted(P, W, shape, this);
      }
    }

    /** `add` with the missing check: a shape on this carrier's lineage is refused too. */
    method AddChecked(shape: Shape, ghost W: set<Shape>) returns (r: Option<Rejection>)
      requires Hierarchy(W) && this in W && shape in W && kind == Carrier
      modifies this`children, shape`parent
      ensures Hierarchy(W)
      ensures r == if old(shape.parent) != null then Some(HasParent)
        else if shape.width > width then Some(TooWide)
        else if shape.height > height then Some(TooHigh)
        else if shape in old(Lineage(this, W)) then Some(WouldCycle)
        else None
      ensures r.Some? ==> children == old(children) && shape.parent == old(shape.parent)
      ensures r.None? ==> children == old(children) + [shape] && shape.parent == this
    {
      if shape.parent == null && shape.width <= width && shape.height <= height {
        var path := PathOf(W);
        if shape in path {
          return Some(WouldCycle);
        }
      }
      r := Add(shape, W);
    }

    /**
     * `remove` as written: drops the shape from the children and clears its
     * parent whether or not it was a child here. The hierarchy stays well
     * formed exactly when the shape was a child here or had no parent.
     */
    method Remove(shape: Shape, ghost W: set<Shape>)
      requires Hierarchy(W) && this in W && shape in W && kind == Carrier
      modifies this`children, shape`parent
      ensures children == RemoveFirst(old(children), shape)
      ensures shape.parent == null
      ensures Hierarchy(W) <==> (old(shape.parent) == null || old(shape.parent) == this)
    {
      ghost var q := shape.parent;
      assert Linked(this, W) && Linked(shape, W);
      children := RemoveFirst(children, shape);
      shape.parent := null;

      if q == null || q == this {
        DetachKeepsHierarchy(this, shape, W);
      } else {
        var i := Util.IndexOf(q.children, shape);
        assert q.children[i] == shape && shape.parent != q;
        assert !Linked(q, W);
      }
    }

    /** `remove` as its documentation promises: no effect on a shape that is not a child here. */
    method RemoveChecked(shape: Shape, ghost W: set<Shape>)
      requires Hierarchy(W) && this in W && shape in W && kind == Carrier
      modifies this`children, shape`parent
      ensures Hierarchy(W)
      ensures children == RemoveFirst(old(children), shape)
      ensures shape.parent == if old(shape.parent) == this then null else old(shape.parent)
    {
      ContainsIffParent(this, shape, W);
      if Contains(shape) {
        Remove(shape, W);
      }
    }

    /** `shapeAt`: the child at a position, or the out-of-bounds failure. */
    function ShapeAt(index: int): (r: Result<Shape, IndexOutOfBounds>)
      reads this`children
      ensures r.Ok? <==> 0 <= index < |children|
      ensures r.Ok? ==> r.value == children[index]
      ensures r.Err? ==> r.error == IndexOutOfBounds(index)
    {
      if 0 <= index < |children| then Ok(children[index]) else Err(IndexOutOfBounds(index))
    }

    /** `shapeCount`: the positions `shapeAt` accepts are exactly 0 .. count-1. */
    function ShapeCount(): (r: int)
      reads this`children
      ensures r >= 0
      ensures forall i :: ShapeAt(i).Ok? <==> 0 <= i < r
    {
      |children|
    }

    /** `indexOf`: the first position of a child, or -1. */
    function IndexOf(shape: Shape): (r: int)
      reads this`children
      ensures -1 <= r < ShapeCount()
      ensures r == -1 <==> shape !in children
      ensures r >= 0 ==> ShapeAt(r) == Ok(shape)
    {
      Util.IndexOf(children, shape)
    }

    /** `contains`: whether `indexOf` finds the shape. */
    function Contains(shape: Shape): (r: bool)
      reads this`children
      ensures r <==> IndexOf(shape) != -1
    {
      shape in children
    }
  }

  /**
   * Linking the parentless `shape` as the last child of carrier `a` keeps
   * every shape's links consistent, and the new parent map is the old one
   * with `shape` sent to `a`.
   */
  twostate lemma AttachKeepsLinks(new a: Shape, new shape: Shape, new W: set<Shape>)
    requires old(allocated(W)) && old(allocated(a)) && old(allocated(shape))
    requires old(Hierarchy(W)) && a in W && shape in W && a.kind == Carrier
    requires old(shape.parent) == null && shape.width <= a.width && shape.height <= a.height
    requires a.children == old(a.children) + [shape] && shape.parent == a
    requires forall s :: s in W && s != a ==> s.children == old(s.children)
    requires forall s :: s in W && s != shape ==> s.parent == old(s.parent)
    ensures forall s :: s in W ==> Linked(s, W)
    ensures Parents(W) == old(Parents(W))[shape := a]
  {
    assert old(Linked(a, W));
    assert shape !in old(a.children);
    forall s | s in W ensures Linked(s, W) {
      assert old(Linked(s, W));
      if s == a {
        forall i | 0 <= i < |a.children| ensures a.children[i] in W && a.children[i].parent == a {
          if i < |a.children| - 1 {
            assert a.children[i] == old(a.children)[i];
          }
        }
      } else if s != shape {
        forall i | 0 <= i < |s.children| ensures s.children[i].parent == s {
          assert old(s.children[i].parent) == s;
        }
      }
    }
  }

  /**
   * Unlinking a shape that is a child of `a`, or that had no parent, from
   * `a`'s children keeps the hierarchy well formed.
   */
  twostate lemma DetachKeepsHierarchy(new a: Shape, new shape: Shape, new W: set<Shape>)
    requires old(allocated(W)) && old(allocated(a)) && old(allocated(shape))
    requires old(Hierarchy(W)) && a in W && shape in W
    requires old(shape.parent) == null || old(shape.parent) == a
    requires NoDuplicates(old(a.children))
    requires a.children == RemoveFirst(old(a.children), shape) && shape.parent == null
    requires forall s :: s in W && s != a ==> s.children == old(s.children)
    requires forall s :: s in W && s != shape ==> s.parent == old(s.parent)
    ensures Hierarchy(W)
  {
    ghost var P := old(Parents(W));
    assert old(Linked(a, W)) && old(Linked(shape, W));
    if old(shape.parent) != null {
      RootedNotOwnParent(shape, P, W);
    }
    RemoveFirstDistinct(old(a.children), shape);
    forall s | s in W ensures Linked(s, W) {
      assert old(Linked(s, W));
      if s == a {
        forall i | 0 <= i < |a.children| ensures a.children[i] in W && a.children[i].parent == a {
          var c := a.children[i];
          assert c in old(a.children) && c != shape;
          var k := Util.IndexOf(old(a.children), c);
          assert old(a.children)[k] == c;
        }
      } else {
        forall i | 0 <= i < |s.children| ensures s.children[i].parent == s {
          assert old(s.children[i].parent) == s;
        }
      }
    }
    DetachedParents(W, P, shape);
    forall d | d in W ensures Rooted(d, Parents(W), W) {
      DetachPreservesRooted(d, P, W, shape);
    }
  }

  /** The parent map once `shape`'s link is cleared, given the earlier map `P`. */
  lemma DetachedParents(W: set<Shape>, P: map<Shape, Shape>, shape: Shape)
    requires shape.parent == null
    requires forall s :: s in P ==> s in W
    requires forall s :: s in W && s != shape ==> (s in P <==> s.parent != null)
    requires forall s :: s in P && s != shape ==> P[s] == s.parent
    ensures Parents(W) == P - {shape}
  {
  }

  /** In a hierarchy a carrier contains exactly the shapes whose parent it is. */
  lemma ContainsIffParent(a: Shape, s: Shape, W: set<Shape>)
    requires Hierarchy(W) && a in W && s in W
    ensures a.Contains(s) <==> s.parent == a
  {
    assert Linked(a, W) && Linked(s, W);
    if s in a.children {
      var i := Util.IndexOf(a.children, s);
      assert a.children[i] == s;
    }
  }

  /**
   * A shape that `add` accepts is not yet among the carrier's children, so
   * removing it again gives back exactly the children before the add.
   */
  lemma AddThenRemoveRestores(a: Shape, shape: Shape, W: set<Shape>)
    requires Hierarchy(W) && a in W && shape in W && shape.parent == null
    ensures shape !in a.children
    ensures RemoveFirst(a.children + [shape], shape) == a.children
  {
    assert Linked(a, W);
    RemoveAppended(a.children, shape);
  }

  /** In a hierarchy `indexOf` inverts `shapeAt`. */
  lemma IndexOfShapeAt(a: Shape, i: int, W: set<Shape>)
    requires Hierarchy(W) && a in W && 0 <= i < a.ShapeCount()
    ensures a.IndexOf(a.ShapeAt(i).value) == i
  {
    assert Linked(a, W);
    IndexOfAt(a.children, i);
  }

  /** Shapes that are in no carrier and have no children form a hierarchy, in which each is its own lineage. */
  lemma LooseHierarchy(W: set<Shape>)
    requires forall s :: s in W ==> s.parent == null && s.children == []
    ensures Hierarchy(W)
    ensures forall s :: s in W ==> Lineage(s, W) == [s]
  {
    assert Parents(W) == map[];
    forall s | s in W ensures Linked(s, W) && Rooted(s, Parents(W), W) {
    }
  }
}
