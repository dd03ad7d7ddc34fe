/**
 * Appointment availability: which weekly schedule entry applies to a calendar date, and the
 * start times offered on that date for a service of a given duration.
 *
 * Calendar dates are local day numbers counted from 1970-01-01 (a Thursday). "Now" is an
 * explicit `Instant`: its day number and the milliseconds elapsed since that day's midnight.
 * Times of day are minutes since midnight; a time whose text does not parse is NaN (`None`),
 * and every comparison involving NaN is false.
 */
module Availability {
  import opened Wrappers
  import opened Clock
  import opened BookingData

  /** The spacing of the offered start times, in minutes. */
  const SlotStep := 15

  const MillisPerMinute := 60000

  /** The current moment: a day number and the milliseconds since that day's midnight. */
  datatype Instant = Instant(day: int, millis: int)

  /** `date.getDay()`: 0 = Sunday, ..., 6 = Saturday. */
  function Weekday(date: int): (w: int)
    ensures 0 <= w < 7
  {
    (date + 4) % 7
  }

  // ----- Schedule lookup -----

  /** `schedule.some(slot => slot.day === weekday)`. */
  function HasEntryFor(schedule: seq<StylistScheduleEntry>, weekday: int): (b: bool)
    ensures b <==> exists i :: 0 <= i < |schedule| && schedule[i].day == weekday
  {
    if schedule == [] then false
    else schedule[0].day == weekday || HasEntryFor(schedule[1..], weekday)
  }

  /** `schedule.find(slot => slot.day === weekday)`: the first entry for that weekday. */
  function FindEntryFor(schedule: seq<StylistScheduleEntry>, weekday: int): (r: Option<StylistScheduleEntry>)
    ensures r.None? <==> forall i :: 0 <= i < |schedule| ==> schedule[i].day != weekday
    ensures r.Some? ==> exists i :: 0 <= i < |schedule| && schedule[i] == r.value && schedule[i].day == weekday &&
                                    forall j :: 0 <= j < i ==> schedule[j].day != weekday
  {
    if schedule == [] then None
    else if schedule[0].day == weekday then Some(schedule[0])
    else
      var rest := FindEntryFor(schedule[1..], weekday);
      assert rest.Some? ==> exists i :: 1 <= i < |schedule| && schedule[i] == rest.value && schedule[i].day == weekday &&
                                       forall j :: 0 <= j < i ==> schedule[j].day != weekday
      by {
        if rest.Some? {
          var i :| 0 <= i < |schedule[1..]| && schedule[1..][i] == rest.value && schedule[1..][i].day == weekday
            && forall j :: 0 <= j < i ==> schedule[1..][j].day != weekday;
          assert schedule[i + 1] == rest.value;
          assert forall j :: 0 <= j < i + 1 ==> schedule[j].day != weekday by {
            forall j | 0 <= j < i + 1
              ensures schedule[j].day != weekday
            {
              if j > 0 {
                assert schedule[j] == schedule[1..][j - 1];
              }
            }
          }
        }
      }
      rest
  }

  function StylistWorksOnDate(stylist: Stylist, date: int): bool
  {
    HasEntryFor(stylist.schedule, Weekday(date))
  }

  function GetScheduleForDate(stylist: Stylist, date: int): Option<StylistScheduleEntry>
  {
    FindEntryFor(stylist.schedule, Weekday(date))
  }

  /**
   * A stylist works on a date exactly when a schedule entry is found for it, and the entry found
   * is the first one whose weekday is the date's.
   */
  lemma {:induction false} WorksIffScheduleFound(stylist: Stylist, date: int)
    ensures StylistWorksOnDate(stylist, date) <==> GetScheduleForDate(stylist, date).Some?
    ensures GetScheduleForDate(stylist, date).Some? ==>
      exists i :: 0 <= i < |stylist.schedule| && stylist.schedule[i] == GetScheduleForDate(stylist, date).value &&
                  stylist.schedule[i].day == Weekday(date) &&
                  forall j :: 0 <= j < i ==> stylist.schedule[j].day != Weekday(date)
  {
  }

  // ----- Blocked intervals -----

  /** A blocked period [start, end) in minutes; a bound is `None` when its text is NaN. */
  datatype Interval = Interval(start: Option<int>, end: Option<int>)

  function BreakInterval(b: ScheduleBreak): Interval
  {
    Interval(ToMinutes(b.start), ToMinutes(b.end))
  }

  /** An existing booking blocks [time, time + duration); both bounds are NaN with its time. */
  function BookingInterval(b: BookingRecord): Interval
  {
    match ToMinutes(b.time)
    case None => Interval(None, None)
    case Some(t) => Interval(Some(t), Some(t + b.duration))
  }

  function BreakIntervals(breaks: seq<ScheduleBreak>): (r: seq<Interval>)
    ensures |r| == |breaks|
    ensures forall i :: 0 <= i < |breaks| ==> r[i] == BreakInterval(breaks[i])
  {
    if breaks == [] then [] else [BreakInterval(breaks[0])] + BreakIntervals(breaks[1..])
  }

  function BookingIntervals(existing: seq<BookingRecord>): (r: seq<Interval>)
    ensures |r| == |existing|
    ensures forall i :: 0 <= i < |existing| ==> r[i] == BookingInterval(existing[i])
  {
    if existing == [] then [] else [BookingInterval(existing[0])] + BookingIntervals(existing[1..])
  }

  /** The breaks of the day followed by the existing bookings, each as its blocked interval. */
  function BlockedIntervals(breaks: seq<ScheduleBreak>, existing: seq<BookingRecord>): (r: seq<Interval>)
    ensures |r| == |breaks| + |existing|
    ensures forall i :: 0 <= i < |breaks| ==> r[i] == BreakInterval(breaks[i])
    ensures forall i :: 0 <= i < |existing| ==> r[|breaks| + i] == BookingInterval(existing[i])
  {
    BreakIntervals(breaks) + BookingIntervals(existing)
  }

  /** The strict overlap test `start < end' && end > start'`; false when a bound is NaN. */
  predicate Overlaps(iv: Interval, start: int, end: int)
  {
    iv.start.Some? && iv.end.Some? && start < iv.end.value && end > iv.start.value
  }

  /** `blockedIntervals.some(...)`. */
  function OverlapsAny(blocked: seq<Interval>, start: int, end: int): (b: bool)
    ensures b <==> exists i :: 0 <= i < |blocked| && Overlaps(blocked[i], start, end)
  {
    if blocked == [] then false
    else Overlaps(blocked[0], start, end) || OverlapsAny(blocked[1..], start, end)
  }

  // ----- The "today" filter -----

  /** On the current day a start time must lie strictly after now; on any other day anything goes. */
  datatype Cutoff = AnyTime | After(millis: int)

  function CutoffFor(date: int, now: Instant): (c: Cutoff)
    ensures date != now.day ==> c == AnyTime
    ensures date == now.day ==> c == After(now.millis)
  {
    if date == now.day then After(now.millis) else AnyTime
  }

  /** The slot instant, minute-precise on the date's own day, compares strictly after the cutoff. */
  predicate Admits(cutoff: Cutoff, slot: int)
  {
    match cutoff
    case AnyTime => true
    case After(millis) => slot * MillisPerMinute > millis
  }

  /** A start time qualifies when its window meets no blocked interval and it passes the cutoff. */
  predicate Qualifies(slot: int, duration: int, blocked: seq<Interval>, cutoff: Cutoff)
  {
    !OverlapsAny(blocked, slot, slot + duration) && Admits(cutoff, slot)
  }

  // ----- The slots, as minutes -----

  lemma {:induction false} ConcatAssociative<T>(a: seq<T>, b: seq<T>, c: seq<T>)
    ensures a + (b + c) == (a + b) + c
  {
  }


  /**
   * The qualifying start times current, current + 15, ... whose window still fits before
   * blockEnd, in ascending order.
   */
  function SlotsFrom(current: int, blockEnd: int, duration: int, blocked: seq<Interval>, cutoff: Cutoff): (r: seq<int>)
    ensures forall s :: s in r ==> current <= s && s + duration <= blockEnd
    ensures forall s :: s in r ==> (s - current) % SlotStep == 0
    ensures forall s :: s in r ==> Qualifies(s, duration, blocked, cutoff)
    decreases blockEnd - duration - current + SlotStep
  {
    if current + duration <= blockEnd then
      var rest := SlotsFrom(current + SlotStep, blockEnd, duration, blocked, cutoff);
      if Qualifies(current, duration, blocked, cutoff) then [current] + rest else rest
    else []
  }

  /** Strictly increasing. */
  predicate Ascending(ms: seq<int>)
  {
    forall i, j :: 0 <= i < j < |ms| ==> ms[i] < ms[j]
  }

  lemma {:induction false} SlotsFromAscending(current: int, blockEnd: int, duration: int, blocked: seq<Interval>, cutoff: Cutoff)
    ensures Ascending(SlotsFrom(current, blockEnd, duration, blocked, cutoff))
    decreases blockEnd - duration - current + SlotStep
  {
    if current + duration <= blockEnd {
      SlotsFromAscending(current + SlotStep, blockEnd, duration, blocked, cutoff);
      var rest := SlotsFrom(current + SlotStep, blockEnd, duration, blocked, cutoff);
      var r := SlotsFrom(current, blockEnd, duration, blocked, cutoff);
      if Qualifies(current, duration, blocked, cutoff) {
        assert r == [current] + rest;
        forall i, j | 0 <= i < j < |r|
          ensures r[i] < r[j]
        {
          assert r[j] == rest[j - 1] && rest[j - 1] in rest;
          if i > 0 {
            assert r[i] == rest[i - 1];
          }
        }
      } else {
        assert r == rest;
      }
    }
  }

  /** The slots of one working block; a block with a NaN bound offers none. */
  function BlockSlots(block: ScheduleBlock, duration: int, blocked: seq<Interval>, cutoff: Cutoff): seq<int>
  {
    match (ToMinutes(block.start), ToMinutes(block.end))
    case (Some(start), Some(end)) => SlotsFrom(start, end, duration, blocked, cutoff)
    case _ => []
  }

  /** The slots of all blocks, block after block in the given order. */
  function AllSlots(blocks: seq<ScheduleBlock>, duration: int, blocked: seq<Interval>, cutoff: Cutoff): (r: seq<int>)
    ensures blocks == [] ==> r == []
    ensures forall s :: s in r ==> s >= 0
  {
    if blocks == [] then []
    else BlockSlots(blocks[0], duration, blocked, cutoff) + AllSlots(blocks[1..], duration, blocked, cutoff)
  }

  lemma {:induction false} AllSlotsCons(x: ScheduleBlock, rest: seq<ScheduleBlock>, duration: int, blocked: seq<Interval>, cutoff: Cutoff)
    ensures AllSlots([x] + rest, duration, blocked, cutoff) == BlockSlots(x, duration, blocked, cutoff) + AllSlots(rest, duration, blocked, cutoff)
  {
    assert ([x] + rest)[0] == x && ([x] + rest)[1..] == rest;
  }

  /** The slots of consecutive runs of blocks are the slots of the first run followed by those of the second. */
  lemma {:induction false} AllSlotsAppend(a: seq<ScheduleBlock>, b: seq<ScheduleBlock>, duration: int, blocked: seq<Interval>, cutoff: Cutoff)
    ensures AllSlots(a + b, duration, blocked, cutoff) == AllSlots(a, duration, blocked, cutoff) + AllSlots(b, duration, blocked, cutoff)
  {
    if a == [] {
      assert a + b == b;
    } else {
      assert a + b == [a[0]] + (a[1..] + b);
      assert a == [a[0]] + a[1..];
      AllSlotsCons(a[0], a[1..] + b, duration, blocked, cutoff);
      AllSlotsCons(a[0], a[1..], duration, blocked, cutoff);
      AllSlotsAppend(a[1..], b, duration, blocked, cutoff);
      ConcatAssociative(BlockSlots(a[0], duration, blocked, cutoff), AllSlots(a[1..], duration, blocked, cutoff), AllSlots(b, duration, blocked, cutoff));
    }
  }

  lemma {:induction false} AllSlotsNext(blocks: seq<ScheduleBlock>, k: nat, duration: int, blocked: seq<Interval>, cutoff: Cutoff)
    requires k < |blocks|
    ensures AllSlots(blocks[..k + 1], duration, blocked, cutoff)
      == AllSlots(blocks[..k], duration, blocked, cutoff) + BlockSlots(blocks[k], duration, blocked, cutoff)
  {
    assert blocks[..k + 1] == blocks[..k] + [blocks[k]];
    AllSlotsAppend(blocks[..k], [blocks[k]], duration, blocked, cutoff);
    assert [blocks[k]][1..] == [];
  }

  /** The start times offered for a schedule entry on a date, in minutes. */
  function SlotMinutes(schedule: StylistScheduleEntry, date: int, duration: int, existing: seq<BookingRecord>, now: Instant): seq<int>
  {
    AllSlots(schedule.blocks, duration, BlockedIntervals(schedule.breaks, existing), CutoffFor(date, now))
  }

  /** `f` applied to every element, in order. */
  function MapSeq<A, B>(f: A -> B, xs: seq<A>): (r: seq<B>)
    ensures |r| == |xs|
  {
    if xs == [] then [] else [f(xs[0])] + MapSeq(f, xs[1..])
  }

  lemma {:induction false} MapSeqAt<A, B>(f: A -> B, xs: seq<A>, i: int)
    requires 0 <= i < |xs|
    ensures MapSeq(f, xs)[i] == f(xs[i])
  {
    if i > 0 {
      MapSeqAt(f, xs[1..], i - 1);
    }
  }

  lemma {:induction false} MapSeqCons<A, B>(f: A -> B, x: A, xs: seq<A>)
    ensures MapSeq(f, [x] + xs) == [f(x)] + MapSeq(f, xs)
  {
    assert ([x] + xs)[0] == x && ([x] + xs)[1..] == xs;
  }

  lemma {:induction false} MapSeqAppend<A, B>(f: A -> B, a: seq<A>, b: seq<A>)
    ensures MapSeq(f, a + b) == MapSeq(f, a) + MapSeq(f, b)
  {
    if a == [] {
      assert a + b == b;
    } else {
      assert a + b == [a[0]] + (a[1..] + b);
      assert a == [a[0]] + a[1..];
      MapSeqCons(f, a[0], a[1..] + b);
      MapSeqCons(f, a[0], a[1..]);
      MapSeqAppend(f, a[1..], b);
      ConcatAssociative([f(a[0])], MapSeq(f, a[1..]), MapSeq(f, b));
    }
  }

  lemma {:induction false} MapSeqNext<A, B>(f: A -> B, xs: seq<A>, x: A)
    ensures MapSeq(f, xs + [x]) == MapSeq(f, xs) + [f(x)]
  {
    MapSeqAppend(f, xs, [x]);
    MapSeqCons(f, x, []);
    assert [x] + [] == [x];
  }

  /** `minutesToTime` of every element, in order. */
  function Times(ms: seq<int>): (r: seq<string>)
    ensures |r| == |ms|
  {
    MapSeq(MinutesToTime, ms)
  }

  /** The start times offered for a schedule entry on a date, as "HH:MM" texts. */
  function SlotTimes(schedule: StylistScheduleEntry, date: int, duration: int, existing: seq<BookingRecord>, now: Instant): seq<string>
  {
    Times(SlotMinutes(schedule, date, duration, existing, now))
  }

  // ----- The engine -----

  lemma {:induction false} SlotsFromStep(current: int, blockEnd: int, duration: int, blocked: seq<Interval>, cutoff: Cutoff)
    requires current + duration <= blockEnd
    ensures SlotsFrom(current, blockEnd, duration, blocked, cutoff)
      == (if Qualifies(current, duration, blocked, cutoff) then [current] else [])
         + SlotsFrom(current + SlotStep, blockEnd, duration, blocked, cutoff)
  {
  }

  lemma {:induction false} SlotsFromDone(current: int, blockEnd: int, duration: int, blocked: seq<Interval>, cutoff: Cutoff)
    requires current + duration > blockEnd
    ensures SlotsFrom(current, blockEnd, duration, blocked, cutoff) == []
  {
  }

  /** The engine's own today test decides the same as the cutoff of the date. */
  lemma {:induction false} TodayTest(date: int, now: Instant, slot: int)
    ensures Admits(CutoffFor(date, now), slot) <==> (date != now.day || slot * MillisPerMinute > now.millis)
  {
  }

  lemma {:induction false} BlockSlotsOfBounds(block: ScheduleBlock, start: int, end: int, duration: int, blocked: seq<Interval>, cutoff: Cutoff)
    requires ToMinutes(block.start) == Some(start) && ToMinutes(block.end) == Some(end)
    ensures BlockSlots(block, duration, blocked, cutoff) == SlotsFrom(start, end, duration, blocked, cutoff)
  {
  }

  lemma {:induction false} BlockSlotsOfNaN(block: ScheduleBlock, duration: int, blocked: seq<Interval>, cutoff: Cutoff)
    requires ToMinutes(block.start).None? || ToMinutes(block.end).None?
    ensures BlockSlots(block, duration, blocked, cutoff) == []
  {
  }

  /** Pushing the images of `xs` onto a list that ends with the images of `emitted` gives the images of `emitted + xs`. */
  lemma {:induction false} PushedAppend<A, B>(f: A -> B, slots: seq<B>, emitted: seq<A>, xs: seq<A>)
    ensures (slots + MapSeq(f, emitted)) + MapSeq(f, xs) == slots + MapSeq(f, emitted + xs)
  {
    MapSeqAppend(f, emitted, xs);
    ConcatAssociative(slots, MapSeq(f, emitted), MapSeq(f, xs));
  }

  /** One step of the walk: a qualifying start time moves from the slots still to come to those emitted. */
  lemma {:induction false} WalkStep(emitted: seq<int>, current: int, blockEnd: int, duration: int, blocked: seq<Interval>, cutoff: Cutoff)
    requires current + duration <= blockEnd
    ensures (emitted + (if Qualifies(current, duration, blocked, cutoff) then [current] else []))
              + SlotsFrom(current + SlotStep, blockEnd, duration, blocked, cutoff)
            == emitted + SlotsFrom(current, blockEnd, duration, blocked, cutoff)
  {
    var later := SlotsFrom(current + SlotStep, blockEnd, duration, blocked, cutoff);
    var head: seq<int> := if Qualifies(current, duration, blocked, cutoff) then [current] else [];
    SlotsFromStep(current, blockEnd, duration, blocked, cutoff);
    ConcatAssociative(emitted, head, later);
  }

  /**
   * The body of the `while` loop of `generateSlots`: the start time is pushed, as "HH:MM", when
   * its window overlaps nothing and, on the current day, it lies after now.
   */
  method PushIfFree(current: int, duration: int, blocked: seq<Interval>, dayIsToday: bool, now: Instant,
                    ghost date: int, pushed: seq<string>)
    returns (next: seq<string>, taken: bool)
    requires dayIsToday <==> date == now.day
    ensures taken == Qualifies(current, duration, blocked, CutoffFor(date, now))
    ensures next == pushed + Times(Emitted(taken, current))
  {
    TodayTest(date, now, current);
    var slotEnd := current + duration;
    var overlaps := OverlapsAny(blocked, current, slotEnd);
    taken := !overlaps && (!dayIsToday || current * MillisPerMinute > now.millis);
    if taken {
      MapSeqCons(MinutesToTime, current, []);
      assert [current] + [] == [current];
      next := pushed + [MinutesToTime(current)];
    } else {
      assert pushed + Times([]) == pushed;
      next := pushed;
    }
  }

  /** The start times a step of the walk emits: the one tried, when it qualified. */
  function Emitted(taken: bool, current: int): (r: seq<int>)
    ensures taken ==> r == [current]
    ensures !taken ==> r == []
  {
    if taken then [current] else []
  }

  /** One turn of the loop keeps both of its invariants. */
  lemma {:induction false} WalkAdvance(start: int, current: int, blockEnd: int, duration: int, blocked: seq<Interval>,
                                       cutoff: Cutoff, slots: seq<string>, emitted: seq<int>, pushed: seq<string>,
                                       next: seq<string>, taken: bool)
    requires current + duration <= blockEnd
    requires emitted + SlotsFrom(current, blockEnd, duration, blocked, cutoff) == SlotsFrom(start, blockEnd, duration, blocked, cutoff)
    requires pushed == slots + Times(emitted)
    requires taken == Qualifies(current, duration, blocked, cutoff)
    requires next == pushed + Times(Emitted(taken, current))
    ensures (emitted + Emitted(taken, current)) + SlotsFrom(current + SlotStep, blockEnd, duration, blocked, cutoff)
         == SlotsFrom(start, blockEnd, duration, blocked, cutoff)
    ensures next == slots + Times(emitted + Emitted(taken, current))
  {
    WalkStep(emitted, current, blockEnd, duration, blocked, cutoff);
    PushedAppend(MinutesToTime, slots, emitted, Emitted(taken, current));
  }

  /** Before the loop nothing is emitted; after it, once the window no longer fits, everything is. */
  lemma {:induction false} WalkBounds(start: int, current: int, blockEnd: int, duration: int, blocked: seq<Interval>,
                                      cutoff: Cutoff, slots: seq<string>, emitted: seq<int>)
    ensures [] + SlotsFrom(start, blockEnd, duration, blocked, cutoff) == SlotsFrom(start, blockEnd, duration, blocked, cutoff)
    ensures slots + Times([]) == slots
    ensures current + duration > blockEnd ==> emitted + SlotsFrom(current, blockEnd, duration, blocked, cutoff) == emitted
  {
    assert [] + SlotsFrom(start, blockEnd, duration, blocked, cutoff) == SlotsFrom(start, blockEnd, duration, blocked, cutoff);
    assert slots + Times([]) == slots;
    if current + duration > blockEnd {
      SlotsFromDone(current, blockEnd, duration, blocked, cutoff);
      assert emitted + [] == emitted;
    }
  }

  /**
   * The `while` loop of `generateSlots` for one block with known bounds: from the block's start,
   * while the window still fits before the block's end, try the start time, then step 15 minutes.
   */
  method PushSlotsFrom(start: int, blockEnd: int, duration: int, blocked: seq<Interval>, dayIsToday: bool, now: Instant,
                       ghost date: int, slots: seq<string>)
    returns (pushed: seq<string>)
    requires dayIsToday <==> date == now.day
    ensures pushed == slots + Times(SlotsFrom(start, blockEnd, duration, blocked, CutoffFor(date, now)))
  {
    ghost var cutoff := CutoffFor(date, now);
    pushed := slots;
    var current := start;
    ghost var emitted: seq<int> := [];
    WalkBounds(start, current, blockEnd, duration, blocked, cutoff, slots, emitted);
    while current + duration <= blockEnd
      invariant emitted + SlotsFrom(current, blockEnd, duration, blocked, cutoff)
        == SlotsFrom(start, blockEnd, duration, blocked, cutoff)
      invariant pushed == slots + Times(emitted)
      decreases blockEnd - duration - current
    {
      var next, taken := PushIfFree(current, duration, blocked, dayIsToday, now, date, pushed);
      WalkAdvance(start, current, blockEnd, duration, blocked, cutoff, slots, emitted, pushed, next, taken);
      emitted := emitted + Emitted(taken, current);
      pushed := next;
      current := current + SlotStep;
    }
    WalkBounds(start, current, blockEnd, duration, blocked, cutoff, slots, emitted);
  }

  /** The `forEach` callback of `generateSlots` for one block; a block with a NaN bound pushes nothing. */
  method PushBlockSlots(block: ScheduleBlock, duration: int, blocked: seq<Interval>, dayIsToday: bool, now: Instant,
                        ghost date: int, slots: seq<string>)
    returns (pushed: seq<string>)
    requires dayIsToday <==> date == now.day
    ensures pushed == slots + Times(BlockSlots(block, duration, blocked, CutoffFor(date, now)))
  {
    var start, blockEnd := ToMinutes(block.start), ToMinutes(block.end);
    if start.Some? && blockEnd.Some? {
      BlockSlotsOfBounds(block, start.value, blockEnd.value, duration, blocked, CutoffFor(date, now));
      pushed := PushSlotsFrom(start.value, blockEnd.value, duration, blocked, dayIsToday, now, date, slots);
    } else {
      BlockSlotsOfNaN(block, duration, blocked, CutoffFor(date, now));
      assert slots + Times([]) == slots;
      pushed := slots;
    }
  }

  /**
   * `generateSlots`: walks every block on the 15-minute grid and emits the start times whose
   * window fits the block, meets no break or booking and, on the current day, lies after now.
   */
  method GenerateSlots(schedule: StylistScheduleEntry, date: int, duration: int, existing: seq<BookingRecord>, now: Instant)
    returns (slots: seq<string>)
    ensures slots == SlotTimes(schedule, date, duration, existing, now)
  {
    slots := [];
    var dayIsToday := date == now.day;
    var blocked := BlockedIntervals(schedule.breaks, existing);
    var blocks := schedule.blocks;
    for k := 0 to |blocks|
      invariant slots == Times(AllSlots(blocks[..k], duration, blocked, CutoffFor(date, now)))
    {
      AllSlotsNext(blocks, k, duration, blocked, CutoffFor(date, now));
      MapSeqAppend(MinutesToTime, AllSlots(blocks[..k], duration, blocked, CutoffFor(date, now)), BlockSlots(blocks[k], duration, blocked, CutoffFor(date, now)));
      slots := PushBlockSlots(blocks[k], duration, blocked, dayIsToday, now, date, slots);
    }
    assert blocks[..|blocks|] == blocks;
  }

  // ----- Properties of the offered start times -----

  /** Every grid point from `current` whose window fits and which qualifies is offered. */
  lemma {:induction false} SlotsFromComplete(current: int, blockEnd: int, duration: int, blocked: seq<Interval>, cutoff: Cutoff, s: int)
    requires current <= s && s + duration <= blockEnd && (s - current) % SlotStep == 0
    requires Qualifies(s, duration, blocked, cutoff)
    ensures s in SlotsFrom(current, blockEnd, duration, blocked, cutoff)
    decreases s - current
  {
    SlotsFromStep(current, blockEnd, duration, blocked, cutoff);
    if s != current {
      SlotsFromComplete(current + SlotStep, blockEnd, duration, blocked, cutoff, s);
    }
  }

  /** `s` is a start time the block admits: on its grid, fitting, overlapping nothing, after the cutoff. */
  predicate IsBlockSlot(block: ScheduleBlock, duration: int, blocked: seq<Interval>, cutoff: Cutoff, s: int)
  {
    match (ToMinutes(block.start), ToMinutes(block.end))
    case (Some(start), Some(end)) =>
      start <= s && s + duration <= end && (s - start) % SlotStep == 0 && Qualifies(s, duration, blocked, cutoff)
    case _ => false
  }

  /** A block offers exactly its admitted start times, in ascending order. */
  lemma {:induction false} BlockSlotsExact(block: ScheduleBlock, duration: int, blocked: seq<Interval>, cutoff: Cutoff, s: int)
    ensures s in BlockSlots(block, duration, blocked, cutoff) <==> IsBlockSlot(block, duration, blocked, cutoff, s)
    ensures Ascending(BlockSlots(block, duration, blocked, cutoff))
  {
    match (ToMinutes(block.start), ToMinutes(block.end))
    case (Some(start), Some(end)) =>
      BlockSlotsOfBounds(block, start, end, duration, blocked, cutoff);
      SlotsFromAscending(start, end, duration, blocked, cutoff);
      if IsBlockSlot(block, duration, blocked, cutoff, s) {
        SlotsFromComplete(start, end, duration, blocked, cutoff, s);
      }
    case _ =>
      BlockSlotsOfNaN(block, duration, blocked, cutoff);
  }

  /** The offered start times are exactly those some block admits; no blocks offer nothing. */
  lemma {:induction false} AllSlotsExact(blocks: seq<ScheduleBlock>, duration: int, blocked: seq<Interval>, cutoff: Cutoff, s: int)
    ensures s in AllSlots(blocks, duration, blocked, cutoff)
      <==> exists k :: 0 <= k < |blocks| && IsBlockSlot(blocks[k], duration, blocked, cutoff, s)
  {
    if blocks != [] {
      BlockSlotsExact(blocks[0], duration, blocked, cutoff, s);
      AllSlotsExact(blocks[1..], duration, blocked, cutoff, s);
      if exists k :: 0 <= k < |blocks| && IsBlockSlot(blocks[k], duration, blocked, cutoff, s) {
        var k :| 0 <= k < |blocks| && IsBlockSlot(blocks[k], duration, blocked, cutoff, s);
        if k > 0 {
          assert blocks[1..][k - 1] == blocks[k];
        }
      }
      if s in AllSlots(blocks[1..], duration, blocked, cutoff) {
        var k :| 0 <= k < |blocks[1..]| && IsBlockSlot(blocks[1..][k], duration, blocked, cutoff, s);
        assert blocks[k + 1] == blocks[1..][k];
      }
    }
  }

  /** A start time that no interval of the list overlaps overlaps none of its members. */
  lemma {:induction false} NoOverlapMember(blocked: seq<Interval>, s: int, duration: int, i: int)
    requires !OverlapsAny(blocked, s, s + duration) && 0 <= i < |blocked|
    ensures !Overlaps(blocked[i], s, s + duration)
  {
  }

  /** An offered start time overlaps none of the day's blocked intervals. */
  lemma {:induction false} OfferedQualifies(schedule: StylistScheduleEntry, date: int, duration: int, existing: seq<BookingRecord>, now: Instant, s: int)
    requires s in SlotMinutes(schedule, date, duration, existing, now)
    ensures !OverlapsAny(BlockedIntervals(schedule.breaks, existing), s, s + duration)
  {
    var blocked := BlockedIntervals(schedule.breaks, existing);
    var cutoff := CutoffFor(date, now);
    AllSlotsExact(schedule.blocks, duration, blocked, cutoff, s);
    var k :| 0 <= k < |schedule.blocks| && IsBlockSlot(schedule.blocks[k], duration, blocked, cutoff, s);
  }

  /**
   * No offered start time collides with a break or an existing booking under the strict test:
   * the window [s, s + duration) may touch such an interval but never cut into it.
   */
  lemma {:induction false} NoConflict(schedule: StylistScheduleEntry, date: int, duration: int, existing: seq<BookingRecord>, now: Instant, s: int)
    requires s in SlotMinutes(schedule, date, duration, existing, now)
    ensures forall i :: 0 <= i < |schedule.breaks| && ToMinutes(schedule.breaks[i].start).Some? && ToMinutes(schedule.breaks[i].end).Some? ==>
      !(s < ToMinutes(schedule.breaks[i].end).value && s + duration > ToMinutes(schedule.breaks[i].start).value)
    ensures forall i :: 0 <= i < |existing| && ToMinutes(existing[i].time).Some? ==>
      !(s < ToMinutes(existing[i].time).value + existing[i].duration && s + duration > ToMinutes(existing[i].time).value)
  {
    var blocked := BlockedIntervals(schedule.breaks, existing);
    OfferedQualifies(schedule, date, duration, existing, now, s);
    forall i | 0 <= i < |schedule.breaks|
      ensures !Overlaps(BreakInterval(schedule.breaks[i]), s, s + duration)
    {
      NoOverlapMember(blocked, s, duration, i);
    }
    forall i | 0 <= i < |existing|
      ensures !Overlaps(BookingInterval(existing[i]), s, s + duration)
    {
      NoOverlapMember(blocked, s, duration, |schedule.breaks| + i);
    }
  }

  /** The start times of `ms` whose minute lies strictly after `millis`, in order. */
  function KeepAfter(ms: seq<int>, millis: int): (r: seq<int>)
    ensures forall s :: s in r <==> s in ms && s * MillisPerMinute > millis
  {
    if ms == [] then []
    else (if ms[0] * MillisPerMinute > millis then [ms[0]] else []) + KeepAfter(ms[1..], millis)
  }

  lemma {:induction false} KeepAfterAppend(a: seq<int>, b: seq<int>, millis: int)
    ensures KeepAfter(a + b, millis) == KeepAfter(a, millis) + KeepAfter(b, millis)
  {
    if a == [] {
      assert a + b == b;
    } else {
      assert (a + b)[0] == a[0] && (a + b)[1..] == a[1..] + b;
      KeepAfterAppend(a[1..], b, millis);
      ConcatAssociative(if a[0] * MillisPerMinute > millis then [a[0]] else [], KeepAfter(a[1..], millis), KeepAfter(b, millis));
    }
  }

  lemma {:induction false} SlotsFromToday(current: int, blockEnd: int, duration: int, blocked: seq<Interval>, millis: int)
    ensures SlotsFrom(current, blockEnd, duration, blocked, After(millis))
      == KeepAfter(SlotsFrom(current, blockEnd, duration, blocked, AnyTime), millis)
    decreases blockEnd - duration - current + SlotStep
  {
    if current + duration <= blockEnd {
      SlotsFromStep(current, blockEnd, duration, blocked, After(millis));
      SlotsFromStep(current, blockEnd, duration, blocked, AnyTime);
      SlotsFromToday(current + SlotStep, blockEnd, duration, blocked, millis);
      var head := if Qualifies(current, duration, blocked, AnyTime) then [current] else [];
      KeepAfterAppend(head, SlotsFrom(current + SlotStep, blockEnd, duration, blocked, AnyTime), millis);
      assert KeepAfter([current], millis) == if current * MillisPerMinute > millis then [current] else [];
    } else {
      SlotsFromDone(current, blockEnd, duration, blocked, After(millis));
      SlotsFromDone(current, blockEnd, duration, blocked, AnyTime);
    }
  }

  lemma {:induction false} BlockSlotsToday(block: ScheduleBlock, duration: int, blocked: seq<Interval>, millis: int)
    ensures BlockSlots(block, duration, blocked, After(millis)) == KeepAfter(BlockSlots(block, duration, blocked, AnyTime), millis)
  {
    match (ToMinutes(block.start), ToMinutes(block.end))
    case (Some(start), Some(end)) =>
      BlockSlotsOfBounds(block, start, end, duration, blocked, After(millis));
      BlockSlotsOfBounds(block, start, end, duration, blocked, AnyTime);
      SlotsFromToday(start, end, duration, blocked, millis);
    case _ =>
      BlockSlotsOfNaN(block, duration, blocked, After(millis));
      BlockSlotsOfNaN(block, duration, blocked, AnyTime);
  }

  lemma {:induction false} AllSlotsToday(blocks: seq<ScheduleBlock>, duration: int, blocked: seq<Interval>, millis: int)
    ensures AllSlots(blocks, duration, blocked, After(millis)) == KeepAfter(AllSlots(blocks, duration, blocked, AnyTime), millis)
  {
    if blocks != [] {
      AllSlotsToday(blocks[1..], duration, blocked, millis);
      BlockSlotsToday(blocks[0], duration, blocked, millis);
      KeepAfterAppend(BlockSlots(blocks[0], duration, blocked, AnyTime), AllSlots(blocks[1..], duration, blocked, AnyTime), millis);
    }
  }

  /**
   * The today filter: on the current day the offer is the offer of any other day with only the
   * start times strictly after now kept; on another day the filter removes nothing.
   */
  lemma {:induction false} TodayFilter(schedule: StylistScheduleEntry, date: int, duration: int, existing: seq<BookingRecord>,
                                       now: Instant, other: Instant)
    requires now.day == date && other.day != date
    ensures SlotMinutes(schedule, date, duration, existing, now)
      == KeepAfter(SlotMinutes(schedule, date, duration, existing, other), now.millis)
    ensures SlotMinutes(schedule, date, duration, existing, other)
      == AllSlots(schedule.blocks, duration, BlockedIntervals(schedule.breaks, existing), AnyTime)
  {
    AllSlotsToday(schedule.blocks, duration, BlockedIntervals(schedule.breaks, existing), now.millis);
  }

  /** Every text of `Times(ms)` reads back, through toMinutes, as the minute count it was made from. */
  lemma {:induction false} TimesRoundTrip(ms: seq<int>, i: int)
    requires 0 <= i < |ms| && ms[i] >= 0
    ensures ToMinutes(Times(ms)[i]) == Some(ms[i])
  {
    MapSeqAt(MinutesToTime, ms, i);
    MinutesRoundTrip(ms[i]);
  }

  /** Every offered "HH:MM" text reads back, through toMinutes, as the start time it was made from. */
  lemma {:induction false} SlotTimesRoundTrip(schedule: StylistScheduleEntry, date: int, duration: int, existing: seq<BookingRecord>, now: Instant)
    ensures |SlotTimes(schedule, date, duration, existing, now)| == |SlotMinutes(schedule, date, duration, existing, now)|
    ensures forall i :: 0 <= i < |SlotTimes(schedule, date, duration, existing, now)| ==>
      ToMinutes(SlotTimes(schedule, date, duration, existing, now)[i]) == Some(SlotMinutes(schedule, date, duration, existing, now)[i])
  {
    var ms := SlotMinutes(schedule, date, duration, existing, now);
    forall i | 0 <= i < |ms|
      ensures ToMinutes(Times(ms)[i]) == Some(ms[i])
    {
      assert ms[i] in ms;
      TimesRoundTrip(ms, i);
    }
  }
}
