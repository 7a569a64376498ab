/**
 * The recording painter. A MockPainter keeps a log of the calls it receives
 * and a current colour; `toString` returns the log's text. The log is kept
 * here as the sequence of calls (`Entry`), and its text is the concatenation
 * of the entries' renderings, so every append of the source's StringBuffer
 * is one entry. `translate` is recorded as an entry that renders as nothing,
 * which keeps the text exactly the source's, and it moves a ghost origin so
 * that a paint traversal can be shown to restore it.
 */
module Painting {
  import opened Util

  /** A `java.awt.Color`, as its red, green and blue components. */
  datatype Color = Color(r: int, g: int, b: int)

  const White := Color(255, 255, 255)
  const Blue := Color(0, 0, 255)
  const Red := Color(255, 0, 0)
  const Orange := Color(255, 200, 0)
  /** The colour a new MockPainter starts with. */
  const InitialColor := Color(212, 212, 212)

  datatype Point = Point(x: int, y: int)

  /** One call received by the painter. */
  datatype Entry =
    | Rectangle(x: int, y: int, width: int, height: int)
    | Oval(x: int, y: int, width: int, height: int)
    | Line(x1: int, y1: int, x2: int, y2: int)
    | HexagonHeader(x: int, y: int, width: int, height: int)
    | HexagonLines(regular: bool, vertices: seq<Point>)
    | ImagePainted
    | FilledWith(fillColor: Color)
    | ColorSet(newColor: Color)
    | Translated(dx: int, dy: int)
    | TextPainted(x: int, y: int, width: int, height: int, text: string)

  /** `Color.toString()`. */
  function ColorString(c: Color): string
  {
    "java.awt.Color[r=" + IntToString(c.r) + ",g=" + IntToString(c.g) + ",b=" + IntToString(c.b) + "]"
  }

  function PointString(p: Point): string
  {
    "(" + IntToString(p.x) + "," + IntToString(p.y) + ")"
  }

  /** Points joined by " to ". */
  function PointsString(ps: seq<Point>): string
  {
    if ps == [] then ""
    else if |ps| == 1 then PointString(ps[0])
    else PointString(ps[0]) + " to " + PointsString(ps[1..])
  }

  function Box(x: int, y: int, width: int, height: int): string
  {
    IntToString(x) + "," + IntToString(y) + "," + IntToString(width) + "," + IntToString(height)
  }

  /** The text the source appends to its log for one call: empty exactly for a translation. */
  function Render(e: Entry): (r: string)
    ensures r == "" <==> e.Translated?
  {
    match e
    case Rectangle(x, y, w, h) => "(rectangle " + Box(x, y, w, h) + ")"
    case Oval(x, y, w, h) => "(oval " + Box(x, y, w, h) + ")"
    case Line(x1, y1, x2, y2) => "(line " + Box(x1, y1, x2, y2) + ")"
    case HexagonHeader(x, y, w, h) => "(hexagon " + Box(x, y, w, h) + ")"
    case HexagonLines(regular, ps) =>
      (if regular then "(regular hexagon. line sequence: " else "(small hexagon. line sequence: ")
      + PointsString(ps) + ")"
    case ImagePainted => "(Image painted)"
    case FilledWith(c) => " => filled with: " + ColorString(c) + " "
    case ColorSet(c) => "(color set to: " + ColorString(c) + ")"
    case Translated(_, _) => ""
    case TextPainted(_, _, _, _, t) => "(text: " + t + ", has been painted)"
  }

  /** The log's text: the renderings of its entries, in order. */
  function Concat(log: seq<Entry>): string
  {
    if log == [] then "" else Concat(log[..|log| - 1]) + Render(log[|log| - 1])
  }

  /** Appending to the log appends to its text. */
  lemma {:induction false} ConcatAppend(a: seq<Entry>, b: seq<Entry>)
    ensures Concat(a + b) == Concat(a) + Concat(b)
    decreases |b|
  {
    if b != [] {
      var b' := b[..|b| - 1];
      assert (a + b)[..|a + b| - 1] == a + b';
      ConcatAppend(a, b');
      assert Concat(b) == Concat(b') + Render(b[|b| - 1]);
    } else {
      assert a + b == a;
    }
  }

  /** A log's text is empty exactly when the log holds nothing but translations. */
  lemma {:induction false} ConcatEmpty(log: seq<Entry>)
    ensures Concat(log) == "" <==> forall i :: 0 <= i < |log| ==> log[i].Translated?
    decreases |log|
  {
    if log != [] {
      var front := log[..|log| - 1];
      ConcatEmpty(front);
      assert forall i :: 0 <= i < |front| ==> front[i] == log[i];
    }
  }

  /** Calls that print nothing leave the text unchanged. */
  lemma ConcatSilent(a: seq<Entry>, e: Entry)
    requires Render(e) == ""
    ensures Concat(a + [e]) == Concat(a)
  {
    assert (a + [e])[..|a|] == a;
  }

  /** `translate` leaves the painter's text as it was. */
  lemma TranslatePrintsNothing(a: seq<Entry>, dx: int, dy: int)
    ensures Concat(a + [Translated(dx, dy)]) == Concat(a)
  {
    ConcatSilent(a, Translated(dx, dy));
  }

  /** The colours of the dynamic-shape tests print as `java.awt.Color` does. */
  lemma BlueText()
    ensures ColorString(Blue) == "java.awt.Color[r=0,g=0,b=255]"
  {
    assert IntToString(0) == "0";
    assert IntToString(255) == "255";
  }

  lemma InitialColorText()
    ensures ColorString(InitialColor) == "java.awt.Color[r=212,g=212,b=212]"
  {
    assert IntToString(212) == "212";
  }

  /** Entries of the repository's tests render as the text those tests expect. */
  lemma RenderRectangleText()
    ensures Render(Rectangle(100, 20, 25, 35)) == "(rectangle 100,20,25,35)"
  {
  }

  lemma RenderColorSetText()
    ensures Render(ColorSet(Blue)) == "(color set to: " + "java.awt.Color[r=0,g=0,b=255]" + ")"
    ensures Render(ColorSet(InitialColor)) == "(color set to: " + "java.awt.Color[r=212,g=212,b=212]" + ")"
  {
    BlueText();
    InitialColorText();
  }

  lemma RenderFilledWithText()
    ensures Render(FilledWith(Blue)) == " => filled with: " + "java.awt.Color[r=0,g=0,b=255]" + " "
  {
    BlueText();
  }

  lemma RenderHexagonHeaderText()
    ensures Render(HexagonHeader(50, 35, 16, 30)) == "(hexagon 50,35,16,30)"
  {
  }

  lemma RenderTextPaintedText()
    ensures Render(TextPainted(100, 20, 25, 35, "Hi")) == "(text: Hi, has been painted)"
  {
  }

  /**
   * The vertex chain of a hexagon in the box (x, y, width, height): six
   * sides with the top and bottom corners 20 units in from the sides when
   * the box is at least 40 wide, otherwise a four-sided figure whose top and
   * bottom corners sit at x + width/2. Halving truncates as Java's does.
   * The chain is closed: it starts and ends at the middle of the left side.
   */
  function HexagonVertices(x: int, y: int, width: int, height: int): (v: seq<Point>)
    ensures |v| == if width >= 40 then 7 else 5
    ensures v[0] == v[|v| - 1] == Point(x, y + Half(height))
  {
    var m := y + Half(height);
    if width >= 40 then
      [Point(x, m), Point(x + 20, y), Point(x + width - 20, y), Point(x + width, m),
       Point(x + width - 20, y + height), Point(x + 20, y + height), Point(x, m)]
    else
      [Point(x, m), Point(x + Half(width), y), Point(x + width, m),
       Point(x + Half(width), y + height), Point(x, m)]
  }

  /** With a non-negative box, every vertex lies on the box's boundary rectangle. */
  lemma HexagonVerticesInBox(x: int, y: int, width: int, height: int)
    requires 0 <= width && 0 <= height
    ensures forall p :: p in HexagonVertices(x, y, width, height) ==>
      x <= p.x <= x + width && y <= p.y <= y + height &&
      (p.x == x || p.x == x + width || p.y == y || p.y == y + height)
  {
  }

  /** A regular hexagon is mirror-symmetric about the box's vertical centre line. */
  lemma RegularHexagonSymmetric(x: int, y: int, width: int, height: int)
    requires width >= 40
    ensures forall p :: p in HexagonVertices(x, y, width, height) ==>
      Point(2 * x + width - p.x, p.y) in HexagonVertices(x, y, width, height)
  {
  }

  /** What `drawHexagon` logs: a header, then the vertex chain of the matching regime. */
  function HexagonLog(x: int, y: int, width: int, height: int): seq<Entry>
  {
    [HexagonHeader(x, y, width, height), HexagonLines(width >= 40, HexagonVertices(x, y, width, height))]
  }

  class MockPainter {
    /** The calls received so far; its text is `ToString()`. */
    var log: seq<Entry>
    var color: Color
    /** The sum of the translations requested so far; MockPainter itself ignores them. */
    ghost var origin: Point

    constructor ()
      ensures log == [] && color == InitialColor && origin == Point(0, 0)
    {
      log := [];
      color := InitialColor;
      origin := Point(0, 0);
    }

    /** The contents of the log; empty exactly while only translations have been requested. */
    function ToString(): (r: string)
      reads this`log
      ensures r == "" <==> forall i :: 0 <= i < |log| ==> log[i].Translated?
    {
      ConcatEmpty(log);
      Concat(log)
    }

    method DrawRect(x: int, y: int, width: int, height: int)
      modifies this`log
      ensures log == old(log) + [Rectangle(x, y, width, height)]
    {
      log := log + [Rectangle(x, y, width, height)];
    }

    method DrawOval(x: int, y: int, width: int, height: int)
      modifies this`log
      ensures log == old(log) + [Oval(x, y, width, height)]
    {
      log := log + [Oval(x, y, width, height)];
    }

    method DrawLine(x1: int, y1: int, x2: int, y2: int)
      modifies this`log
      ensures log == old(log) + [Line(x1, y1, x2, y2)]
    {
      log := log + [Line(x1, y1, x2, y2)];
    }

    method DrawHexagon(x: int, y: int, width: int, height: int)
      modifies this`log
      ensures log == old(log) + HexagonLog(x, y, width, height)
    {
      log := log + [HexagonHeader(x, y, width, height)];
      if width >= 40 {
        log := log + [HexagonLines(true,
          [Point(x, y + Half(height)), Point(x + 20, y), Point(x + width - 20, y),
           Point(x + width, y + Half(height)), Point(x + width - 20, y + height),
           Point(x + 20, y + height), Point(x, y + Half(height))])];
      } else if width < 40 {
        log := log + [HexagonLines(false,
          [Point(x, y + Half(height)), Point(x + Half(width), y), Point(x + width, y + Half(height)),
           Point(x + Half(width), y + height), Point(x, y + Half(height))])];
      }
    }

    /** `drawImage`: the image and its box are not recorded. */
    method DrawImage(x: int, y: int, width: int, height: int)
      modifies this`log
      ensures log == old(log) + [ImagePainted]
    {
      log := log + [ImagePainted];
    }

    /** Logs the rectangle, then the colour it is filled with: the current one. */
    method FillRect(x: int, y: int, width: int, height: int)
      modifies this`log
      ensures log == old(log) + [Rectangle(x, y, width, height), FilledWith(color)]
    {
      DrawRect(x, y, width, height);
      log := log + [FilledWith(color)];
    }

    /** The colour the last `setColor` set, or the initial one. */
    function GetColor(): (c: Color)
      reads this`color
      ensures c == color
    {
      color
    }

    method SetColor(c: Color)
      modifies this`color, this`log
      ensures color == c
      ensures log == old(log) + [ColorSet(c)]
    {
      color := c;
      log := log + [ColorSet(color)];
    }

    /** Records the translation; its entry prints nothing (`TranslatePrintsNothing`). */
    method Translate(dx: int, dy: int)
      modifies this`log, this`origin
      ensures log == old(log) + [Translated(dx, dy)]
      ensures origin == Point(old(origin).x + dx, old(origin).y + dy)
    {
      log := log + [Translated(dx, dy)];
      origin := Point(origin.x + dx, origin.y + dy);
    }

    /** Logs the text with the box it is centred in; the box does not appear in the text. */
    method DrawCentredText(x: int, y: int, width: int, height: int, text: string)
      modifies this`log
      ensures log == old(log) + [TextPainted(x, y, width, height, text)]
    {
      log := log + [TextPainted(x, y, width, height, text)];
    }
  }
}
