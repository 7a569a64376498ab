/**
 * The arithmetic of `Shape.move` and of DynamicShape's fill-mode update, as
 * functions on values. Each axis bounces on its own: the coordinate is
 * advanced by the velocity, clamped to 0 when it would be <= 0, otherwise
 * clamped so the far edge sits on the bound when it would reach it, and in
 * both clamped cases that axis's velocity is negated.
 */
module Motion {

  /** One axis of a shape: a coordinate and a signed velocity. */
  datatype Axis = Axis(pos: int, delta: int)

  /** What a move may change: position, velocity and DynamicShape's fill flag. */
  datatype State = State(x: int, y: int, deltaX: int, deltaY: int, fill: bool)

  /** Whether the advanced coordinate reaches a boundary of `(0, bound)`. */
  predicate Hits(pos: int, delta: int, extent: int, bound: int)
  {
    pos + delta <= 0 || pos + delta + extent >= bound
  }

  /**
   * `Shape.move` restricted to one axis: the velocity is negated exactly when
   * the advanced coordinate reaches a wall, and the coordinate then sits on
   * that wall; otherwise the coordinate advances by the velocity.
   */
  function BounceAxis(pos: int, delta: int, extent: int, bound: int): (a: Axis)
    ensures a.delta == if Hits(pos, delta, extent, bound) then -delta else delta
    ensures pos + delta <= 0 ==> a.pos == 0
    ensures pos + delta > 0 && Hits(pos, delta, extent, bound) ==> a.pos == bound - extent
    ensures !Hits(pos, delta, extent, bound) ==> a.pos == pos + delta
  {
    var next := pos + delta;
    if next <= 0 then Axis(0, -delta)
    else if next + extent >= bound then Axis(bound - extent, -delta)
    else Axis(next, delta)
  }

  /** A move keeps the speed on each axis; only the direction may change. */
  lemma BounceKeepsSpeed(pos: int, delta: int, extent: int, bound: int)
    ensures var a := BounceAxis(pos, delta, extent, bound);
      (a.delta == delta || a.delta == -delta) &&
      (if a.delta < 0 then -a.delta else a.delta) == (if delta < 0 then -delta else delta)
  {
  }

  /** A shape no larger than its bound ends up entirely inside it. */
  lemma BounceStaysInside(pos: int, delta: int, extent: int, bound: int)
    requires extent <= bound
    ensures 0 <= BounceAxis(pos, delta, extent, bound).pos <= bound - extent
  {
  }

  /**
   * The velocity test DynamicShape performs (non-zero and negated) detects
   * exactly a boundary hit with a non-zero velocity.
   */
  lemma BounceFlipDetectsHit(pos: int, delta: int, extent: int, bound: int)
    ensures var a := BounceAxis(pos, delta, extent, bound);
      (a.delta != 0 && a.delta == -delta) <==> (Hits(pos, delta, extent, bound) && delta != 0)
  {
  }

  /**
   * DynamicShape's fill-mode rule, on the velocities before (`lastDx`,
   * `lastDy`) and after (`dx`, `dy`) the inherited move: a vertical flip
   * selects the outline, otherwise a horizontal flip selects the fill,
   * otherwise the mode stays.
   */
  function NextFill(fill: bool, lastDx: int, lastDy: int, dx: int, dy: int): (r: bool)
    ensures dy != 0 && dy == -lastDy ==> !r
    ensures dx != 0 && dx == -lastDx && !(dy != 0 && dy == -lastDy) ==> r
    ensures r != fill ==> (dx != 0 && dx == -lastDx) || (dy != 0 && dy == -lastDy)
  {
    if dy != 0 && dy == -lastDy then false
    else if dx != 0 && dx == -lastDx then true
    else fill
  }

  /**
   * One call of `move` on a shape with the given extent inside the given
   * bounds; `dynamic` selects DynamicShape's override.
   */
  function Step(st: State, dynamic: bool, width: int, height: int, boundWidth: int, boundHeight: int): (r: State)
    ensures r.deltaX == st.deltaX || r.deltaX == -st.deltaX
    ensures r.deltaY == st.deltaY || r.deltaY == -st.deltaY
    ensures width <= boundWidth ==> 0 <= r.x <= boundWidth - width
    ensures height <= boundHeight ==> 0 <= r.y <= boundHeight - height
    ensures !dynamic ==> r.fill == st.fill
  {
    var ax := BounceAxis(st.x, st.deltaX, width, boundWidth);
    var ay := BounceAxis(st.y, st.deltaY, height, boundHeight);
    State(ax.pos, ay.pos, ax.delta, ay.delta,
      if dynamic then NextFill(st.fill, st.deltaX, st.deltaY, ax.delta, ay.delta) else st.fill)
  }

  /**
   * The fill mode after a DynamicShape move in geometric terms: a vertical
   * hit with non-zero vertical velocity gives the outline (even on a corner
   * hit), otherwise a horizontal hit with non-zero horizontal velocity gives
   * the fill, otherwise the mode is unchanged. Position and velocity are
   * those of the static step.
   */
  lemma FillAfterStep(st: State, width: int, height: int, boundWidth: int, boundHeight: int)
    ensures Step(st, true, width, height, boundWidth, boundHeight).fill ==
      if Hits(st.y, st.deltaY, height, boundHeight) && st.deltaY != 0 then false
      else if Hits(st.x, st.deltaX, width, boundWidth) && st.deltaX != 0 then true
      else st.fill
    ensures var d := Step(st, true, width, height, boundWidth, boundHeight);
      var b := Step(st, false, width, height, boundWidth, boundHeight);
      d.x == b.x && d.y == b.y && d.deltaX == b.deltaX && d.deltaY == b.deltaY
  {
    BounceFlipDetectsHit(st.x, st.deltaX, width, boundWidth);
    BounceFlipDetectsHit(st.y, st.deltaY, height, boundHeight);
  }

  /** On a corner hit with both velocities non-zero the outline wins. */
  lemma CornerHitGivesOutline(st: State, width: int, height: int, boundWidth: int, boundHeight: int)
    requires Hits(st.x, st.deltaX, width, boundWidth) && st.deltaX != 0
    requires Hits(st.y, st.deltaY, height, boundHeight) && st.deltaY != 0
    ensures !Step(st, true, width, height, boundWidth, boundHeight).fill
  {
    FillAfterStep(st, width, height, boundWidth, boundHeight);
  }

  /** An axis with zero velocity never changes the fill mode. */
  lemma StillAxisKeepsMode(st: State, width: int, height: int, boundWidth: int, boundHeight: int)
    ensures st.deltaY == 0 && !Hits(st.x, st.deltaX, width, boundWidth) ==>
      Step(st, true, width, height, boundWidth, boundHeight).fill == st.fill
    ensures st.deltaX == 0 && !Hits(st.y, st.deltaY, height, boundHeight) ==>
      Step(st, true, width, height, boundWidth, boundHeight).fill == st.fill
    ensures st.deltaX == 0 && st.deltaY == 0 ==>
      Step(st, true, width, height, boundWidth, boundHeight).fill == st.fill
  {
    FillAfterStep(st, width, height, boundWidth, boundHeight);
  }
}
