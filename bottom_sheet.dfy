/**
 * The bottom sheet's snap-point machine: a drag of more than 50 pixels moves the sheet one snap
 * point down or up, and a drag down from the lowest point asks the sheet to close.
 */
module BottomSheet {
  import opened Wrappers

  /** The default snap points 0.4, 0.75 and 0.95. */
  const DefaultSnapCount := 3

  /** The snap point a sheet opens at. */
  const InitialSnap := 1

  /** Pixels a drag must exceed to count. */
  const Threshold: real := 50.0

  /** The highest index the snap point can reach with `count` snap points: it starts at 1 and only rises below the last. */
  function SnapBound(count: int): (b: int)
    ensures b >= InitialSnap
    ensures count >= 2 ==> b == count - 1
  {
    if count - 1 > InitialSnap then count - 1 else InitialSnap
  }

  /** The outcome of releasing a drag: the new snap point and whether `onClose` is called. */
  datatype Release = Release(snap: int, close: bool)

  /**
   * `handleTouchEnd` with both positions known: down by more than the threshold lowers the sheet
   * or, at the lowest point, closes it; up by more than the threshold raises it unless it is at the
   * last point; a shorter drag changes nothing.
   */
  function ReleaseOutcome(snap: int, start: real, current: real, count: int): (r: Release)
    ensures r.close <==> current - start > Threshold && snap <= 0
    ensures r.snap != snap <==> (current - start > Threshold && snap > 0) ||
                                (current - start < -Threshold && snap < count - 1)
    ensures r.snap == snap || r.snap == snap - 1 || r.snap == snap + 1
    ensures r.snap == snap - 1 ==> current - start > Threshold
    ensures r.snap == snap + 1 ==> current - start < -Threshold
    ensures r.close ==> r.snap == snap
  {
    var deltaY := current - start;
    if deltaY > Threshold then
      (if snap > 0 then Release(snap - 1, false) else Release(snap, true))
    else if deltaY < -Threshold then
      (if snap < count - 1 then Release(snap + 1, false) else Release(snap, false))
    else Release(snap, false)
  }

  /** A release keeps the snap point within the reachable range, and within the list when it has two or more points. */
  lemma {:induction false} ReleaseInRange(snap: int, start: real, current: real, count: int)
    requires 0 <= snap <= SnapBound(count)
    ensures 0 <= ReleaseOutcome(snap, start, current, count).snap <= SnapBound(count)
    ensures count >= 2 ==> 0 <= ReleaseOutcome(snap, start, current, count).snap < count
  {
  }

  /** The sheet's state: the snap point, the drag positions recorded, and the close requests made. */
  class Sheet {
    var snap: int
    var dragStart: Option<real>
    var dragCurrent: Option<real>
    var closeRequests: nat
    const count: int

    ghost predicate Valid()
      reads this
    {
      0 <= snap <= SnapBound(count)
    }

    constructor (snapCount: int)
      ensures Valid() && count == snapCount
      ensures snap == InitialSnap && dragStart == None && dragCurrent == None && closeRequests == 0
    {
      count := snapCount;
      snap := InitialSnap;
      dragStart := None;
      dragCurrent := None;
      closeRequests := 0;
    }

    /** `handleTouchStart`: records where the drag began. */
    method TouchStart(y: real)
      requires Valid()
      modifies this
      ensures Valid() && dragStart == Some(y)
      ensures snap == old(snap) && dragCurrent == old(dragCurrent) && closeRequests == old(closeRequests)
    {
      dragStart := Some(y);
    }

    /** `handleTouchMove`: records the current position, only once a drag has begun. */
    method TouchMove(y: real)
      requires Valid()
      modifies this
      ensures Valid()
      ensures old(dragStart).Some? ==> dragCurrent == Some(y)
      ensures old(dragStart).None? ==> dragCurrent == old(dragCurrent)
      ensures snap == old(snap) && dragStart == old(dragStart) && closeRequests == old(closeRequests)
    {
      if dragStart.Some? {
        dragCurrent := Some(y);
      }
    }

    /** `handleTouchEnd`: applies the release when both positions are known, then forgets both. */
    method TouchEnd()
      requires Valid()
      modifies this
      ensures Valid() && dragStart == None && dragCurrent == None
      ensures old(dragStart).None? || old(dragCurrent).None? ==> snap == old(snap) && closeRequests == old(closeRequests)
      ensures old(dragStart).Some? && old(dragCurrent).Some? ==>
        var r := ReleaseOutcome(old(snap), old(dragStart).value, old(dragCurrent).value, count);
        snap == r.snap && closeRequests == old(closeRequests) + (if r.close then 1 else 0)
      ensures count >= 2 ==> 0 <= snap < count
    {
      if dragStart.Some? && dragCurrent.Some? {
        var r := ReleaseOutcome(snap, dragStart.value, dragCurrent.value, count);
        ReleaseInRange(snap, dragStart.value, dragCurrent.value, count);
        snap := r.snap;
        if r.close {
          closeRequests := closeRequests + 1;
        }
      }
      dragStart := None;
      dragCurrent := None;
    }
  }
}
