/**
 * `GraphicsPainter.drawHexagon`: the hexagon drawn as a chain of `drawLine`
 * calls on the graphics delegate. The delegate is modelled by the sequence
 * of line segments it has been asked to draw.
 */
module Graphics {
  import opened Util
  import opened Painting

  datatype Segment = Segment(from: Point, to: Point)

  /** The segments joining consecutive points of `v`. */
  function Polyline(v: seq<Point>): (r: seq<Segment>)
    ensures |r| == if v == [] then 0 else |v| - 1
    ensures forall i :: 0 <= i < |r| ==> r[i].from == v[i] && r[i].to == v[i + 1]
  {
    if |v| <= 1 then [] else [Segment(v[0], v[1])] + Polyline(v[1..])
  }

  /** Each segment starts where the previous one ends and the last ends where the first starts. */
  ghost predicate ClosedChain(s: seq<Segment>)
  {
    |s| >= 1 &&
    (forall i :: 0 < i < |s| ==> s[i].from == s[i - 1].to) &&
    s[|s| - 1].to == s[0].from
  }

  /**
   * The hexagon outline has 6 sides in the regular regime and 4 in the small
   * one (so one of the two always applies), and it is closed.
   */
  lemma HexagonOutline(x: int, y: int, width: int, height: int)
    ensures var s := Polyline(HexagonVertices(x, y, width, height));
      |s| == (if width >= 40 then 6 else 4) && ClosedChain(s)
  {
  }

  /** The sides `drawHexagon` draws for a box, in drawing order: 6 or 4 of them, forming a closed outline. */
  function HexagonSides(x: int, y: int, width: int, height: int): (s: seq<Segment>)
    ensures |s| == if width >= 40 then 6 else 4
    ensures ClosedChain(s)
  {
    var m := y + Half(height);
    if width >= 40 then
      [Segment(Point(x, m), Point(x + 20, y)),
       Segment(Point(x + 20, y), Point(x + width - 20, y)),
       Segment(Point(x + width - 20, y), Point(x + width, m)),
       Segment(Point(x + width, m), Point(x + width - 20, y + height)),
       Segment(Point(x + width - 20, y + height), Point(x + 20, y + height)),
       Segment(Point(x + 20, y + height), Point(x, m))]
    else
      [Segment(Point(x, m), Point(x + Half(width), y)),
       Segment(Point(x + Half(width), y), Point(x + width, m)),
       Segment(Point(x + width, m), Point(x + Half(width), y + height)),
       Segment(Point(x + Half(width), y + height), Point(x, m))]
  }

  /**
   * The sides drawn join, in order, exactly the vertices MockPainter logs for
   * the same box.
   */
  lemma SidesJoinMockVertices(x: int, y: int, width: int, height: int)
    ensures HexagonSides(x, y, width, height) == Polyline(HexagonVertices(x, y, width, height))
  {
    var v := HexagonVertices(x, y, width, height);
    var r := Polyline(v);
    if width >= 40 {
      assert |r| == 6;
      assert r[0] == Segment(v[0], v[1]) && r[1] == Segment(v[1], v[2]) && r[2] == Segment(v[2], v[3]);
      assert r[3] == Segment(v[3], v[4]) && r[4] == Segment(v[4], v[5]) && r[5] == Segment(v[5], v[6]);
    } else {
      assert |r| == 4;
      assert r[0] == Segment(v[0], v[1]) && r[1] == Segment(v[1], v[2]);
      assert r[2] == Segment(v[2], v[3]) && r[3] == Segment(v[3], v[4]);
    }
  }

  class GraphicsPainter {
    /** The lines the graphics delegate has drawn, in order. */
    var lines: seq<Segment>

    constructor ()
      ensures lines == []
    {
      lines := [];
    }

    method DrawLine(x1: int, y1: int, x2: int, y2: int)
      modifies this`lines
      ensures lines == old(lines) + [Segment(Point(x1, y1), Point(x2, y2))]
    {
      lines := lines + [Segment(Point(x1, y1), Point(x2, y2))];
    }

    /** Draws the sides of the hexagon in the box, one `drawLine` each. */
    method DrawHexagon(x: int, y: int, width: int, height: int)
      modifies this`lines
      ensures lines == old(lines) + HexagonSides(x, y, width, height)
    {
      if width >= 40 {
        DrawLine(x, y + Half(height), x + 20, y);
        DrawLine(x + 20, y, (x + width) - 20, y);
        DrawLine((x + width) - 20, y, x + width, y + Half(height));
        DrawLine(x + width, y + Half(height), (x + width) - 20, y + height);
        DrawLine((x + width) - 20, y + height, x + 20, y + height);
        DrawLine(x + 20, y + height, x, y + Half(height));
      } else if width < 40 {
        DrawLine(x, y + Half(height), x + Half(width), y);
        DrawLine(x + Half(width), y, x + width, y + Half(height));
        DrawLine(x + width, y + Half(height), x + Half(width), y + height);
        DrawLine(x + Half(width), y + height, x, y + Half(height));
      }
    }
  }
}
