/**
 * The swipe gesture hook: a touch is recorded where it starts and where it last moved, and on
 * release the dominant axis, a strict threshold and the sign of the movement pick at most one
 * swipe handler.
 */
module SwipeGesture {
  import opened Wrappers

  /** A touch position in pixels. */
  datatype Point = Point(x: real, y: real)

  datatype Direction = Left | Right | Up | Down

  /** The threshold when the caller gives none. */
  const DefaultThreshold: real := 50.0

  function Abs(v: real): (a: real)
    ensures a >= 0.0 && (a == v || a == -v)
  {
    if v < 0.0 then -v else v
  }

  /**
   * The release decision. The movement is horizontal exactly when its horizontal extent is
   * strictly larger (a tie counts as vertical); a direction is chosen only when that extent is
   * strictly beyond the threshold; a finger moving left or up gives Left or Up.
   */
  function Classify(start: Point, end: Point, threshold: real): (r: Option<Direction>)
    ensures r == Some(Left) <==>
      Abs(start.x - end.x) > Abs(start.y - end.y) && Abs(start.x - end.x) > threshold && start.x - end.x > 0.0
    ensures r == Some(Right) <==>
      Abs(start.x - end.x) > Abs(start.y - end.y) && Abs(start.x - end.x) > threshold && start.x - end.x <= 0.0
    ensures r == Some(Up) <==>
      Abs(start.x - end.x) <= Abs(start.y - end.y) && Abs(start.y - end.y) > threshold && start.y - end.y > 0.0
    ensures r == Some(Down) <==>
      Abs(start.x - end.x) <= Abs(start.y - end.y) && Abs(start.y - end.y) > threshold && start.y - end.y <= 0.0
  {
    var deltaX := start.x - end.x;
    var deltaY := start.y - end.y;
    if Abs(deltaX) > Abs(deltaY) then
      (if Abs(deltaX) > threshold then (if deltaX > 0.0 then Some(Left) else Some(Right)) else None)
    else
      (if Abs(deltaY) > threshold then (if deltaY > 0.0 then Some(Up) else Some(Down)) else None)
  }

  function Opposite(d: Direction): Direction
  {
    match d
    case Left => Right
    case Right => Left
    case Up => Down
    case Down => Up
  }

  /** With a threshold of zero or more, the same movement made backwards is the opposite swipe. */
  lemma {:induction false} ReversedSwipe(start: Point, end: Point, threshold: real)
    requires threshold >= 0.0
    ensures Classify(start, end, threshold).None? <==> Classify(end, start, threshold).None?
    ensures Classify(start, end, threshold).Some? ==>
      Classify(end, start, threshold) == Some(Opposite(Classify(start, end, threshold).value))
  {
    assert Abs(end.x - start.x) == Abs(start.x - end.x);
    assert Abs(end.y - start.y) == Abs(start.y - end.y);
  }

  /** Only the difference between the two positions matters, not where on the screen the swipe is made. */
  lemma {:induction false} ShiftedSwipe(start: Point, end: Point, threshold: real, dx: real, dy: real)
    ensures Classify(Point(start.x + dx, start.y + dy), Point(end.x + dx, end.y + dy), threshold)
         == Classify(start, end, threshold)
  {
    assert (start.x + dx) - (end.x + dx) == start.x - end.x;
    assert (start.y + dy) - (end.y + dy) == start.y - end.y;
  }

  /** The hook's state: the two positions, the handlers the caller supplied, and the handlers called so far. */
  class Swipe {
    var touchStart: Option<Point>
    var touchEnd: Option<Point>
    var fired: seq<Direction>
    const handlers: set<Direction>
    const threshold: real

    /** A threshold of `None` takes the default. */
    constructor (supplied: set<Direction>, givenThreshold: Option<real>)
      ensures touchStart == None && touchEnd == None && fired == [] && handlers == supplied
      ensures threshold == if givenThreshold.Some? then givenThreshold.value else DefaultThreshold
    {
      touchStart := None;
      touchEnd := None;
      fired := [];
      handlers := supplied;
      threshold := if givenThreshold.Some? then givenThreshold.value else DefaultThreshold;
    }

    /** `onTouchStart`: forgets the last end position and records the start. */
    method TouchStart(p: Point)
      modifies this
      ensures touchStart == Some(p) && touchEnd == None && fired == old(fired)
    {
      touchEnd := None;
      touchStart := Some(p);
    }

    /** `onTouchMove`: records the latest position. */
    method TouchMove(p: Point)
      modifies this
      ensures touchEnd == Some(p) && touchStart == old(touchStart) && fired == old(fired)
    {
      touchEnd := Some(p);
    }

    /**
     * `onTouchEnd`: without both positions nothing happens at all; otherwise the classified
     * direction's handler is called when the caller supplied one, and both positions are cleared.
     */
    method TouchEnd()
      modifies this
      ensures old(touchStart).None? || old(touchEnd).None? ==>
        touchStart == old(touchStart) && touchEnd == old(touchEnd) && fired == old(fired)
      ensures old(touchStart).Some? && old(touchEnd).Some? ==>
        touchStart == None && touchEnd == None &&
        var r := Classify(old(touchStart).value, old(touchEnd).value, threshold);
        fired == old(fired) + (if r.Some? && r.value in handlers then [r.value] else [])
      ensures |old(fired)| <= |fired| <= |old(fired)| + 1 && old(fired) <= fired
    {
      if touchStart.None? || touchEnd.None? {
        return;
      }
      var r := Classify(touchStart.value, touchEnd.value, threshold);
      if r.Some? && r.value in handlers {
        fired := fired + [r.value];
      }
      touchStart := None;
      touchEnd := None;
    }
  }
}
