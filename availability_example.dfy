/**
 * The worked example the slot engine is pinned to: a Wednesday block 09:00-12:00 with a break
 * 10:30-11:00 and a one-hour booking at 09:30 offers a 30-minute service at 09:00, 11:00, 11:15
 * and 11:30, on any day other than the current one.
 */
module AvailabilityExample {
  import opened Wrappers
  import opened Clock
  import opened BookingData
  import opened Availability

  /** 2024-02-07 as a day number. */
  const ExampleDate := 19760

  lemma {:induction false} ExampleDateIsWednesday()
    ensures Weekday(ExampleDate) == 3
  {
  }

  lemma {:induction false} MinutesOfText(t: string, m: nat)
    requires IsClockText(t) && ClockMinutes(t) < 60 && m == ClockHours(t) * 60 + ClockMinutes(t)
    ensures ToMinutes(t) == Some(m) && MinutesToTime(m) == t
  {
    ToMinutesOfClock(t);
    ClockRoundTrip(t, m);
  }

  lemma {:induction false} Minutes0900(t: string, m: nat)
    requires t == "09:00" && m == 540
    ensures ToMinutes(t) == Some(m) && MinutesToTime(m) == t
  {
    MinutesOfText(t, m);
  }

  lemma {:induction false} Minutes0930(t: string, m: nat)
    requires t == "09:30" && m == 570
    ensures ToMinutes(t) == Some(m)
  {
    MinutesOfText(t, m);
  }

  lemma {:induction false} Minutes1030(t: string, m: nat)
    requires t == "10:30" && m == 630
    ensures ToMinutes(t) == Some(m)
  {
    MinutesOfText(t, m);
  }

  lemma {:induction false} Minutes1100(t: string, m: nat)
    requires t == "11:00" && m == 660
    ensures ToMinutes(t) == Some(m) && MinutesToTime(m) == t
  {
    MinutesOfText(t, m);
  }

  lemma {:induction false} Minutes1115(t: string, m: nat)
    requires t == "11:15" && m == 675
    ensures MinutesToTime(m) == t
  {
    MinutesOfText(t, m);
  }

  lemma {:induction false} Minutes1130(t: string, m: nat)
    requires t == "11:30" && m == 690
    ensures MinutesToTime(m) == t
  {
    MinutesOfText(t, m);
  }

  lemma {:induction false} Minutes1200(t: string, m: nat)
    requires t == "12:00" && m == 720
    ensures ToMinutes(t) == Some(m)
  {
    MinutesOfText(t, m);
  }

  /** The break 10:30-11:00 followed by the booking 09:30 + 60 minutes. */
  predicate ExampleBlocked(blocked: seq<Interval>)
  {
    blocked == [Interval(Some(630), Some(660)), Interval(Some(570), Some(630))]
  }

  lemma {:induction false} ExampleOverlaps(blocked: seq<Interval>, start: int, end: int)
    requires ExampleBlocked(blocked)
    ensures OverlapsAny(blocked, start, end) <==> (start < 660 && end > 630) || (start < 630 && end > 570)
  {
    assert blocked[0] == Interval(Some(630), Some(660)) && blocked[1] == Interval(Some(570), Some(630));
  }

  lemma {:induction false} WalkMorning(blocked: seq<Interval>)
    requires ExampleBlocked(blocked)
    ensures SlotsFrom(540, 720, 30, blocked, AnyTime) == [540] + SlotsFrom(555, 720, 30, blocked, AnyTime)
  {
    ExampleOverlaps(blocked, 540, 570);
    SlotsFromStep(540, 720, 30, blocked, AnyTime);
  }

  /** A start time whose window cuts into the booking or the break is skipped. */
  lemma {:induction false} WalkSkip(blocked: seq<Interval>, c: int)
    requires ExampleBlocked(blocked) && 555 <= c <= 645
    ensures SlotsFrom(c, 720, 30, blocked, AnyTime) == SlotsFrom(c + 15, 720, 30, blocked, AnyTime)
  {
    ExampleOverlaps(blocked, c, c + 30);
    SlotsFromStep(c, 720, 30, blocked, AnyTime);
  }

  /** 09:15 to 10:45 all cut into the booking or the break. */
  lemma {:induction false} WalkBlocked(blocked: seq<Interval>)
    requires ExampleBlocked(blocked)
    ensures SlotsFrom(555, 720, 30, blocked, AnyTime) == SlotsFrom(660, 720, 30, blocked, AnyTime)
  {
    WalkSkip(blocked, 555);
    WalkSkip(blocked, 570);
    WalkSkip(blocked, 585);
    WalkSkip(blocked, 600);
    WalkSkip(blocked, 615);
    WalkSkip(blocked, 630);
    WalkSkip(blocked, 645);
  }

  lemma {:induction false} WalkLate(blocked: seq<Interval>)
    requires ExampleBlocked(blocked)
    ensures SlotsFrom(660, 720, 30, blocked, AnyTime) == [660, 675, 690]
  {
    ExampleOverlaps(blocked, 660, 690);
    ExampleOverlaps(blocked, 675, 705);
    ExampleOverlaps(blocked, 690, 720);
    SlotsFromStep(660, 720, 30, blocked, AnyTime);
    SlotsFromStep(675, 720, 30, blocked, AnyTime);
    SlotsFromStep(690, 720, 30, blocked, AnyTime);
    SlotsFromDone(705, 720, 30, blocked, AnyTime);
  }

  lemma {:induction false} ExampleMinutesWalk(blocked: seq<Interval>)
    requires ExampleBlocked(blocked)
    ensures SlotsFrom(540, 720, 30, blocked, AnyTime) == [540, 660, 675, 690]
  {
    WalkMorning(blocked);
    WalkBlocked(blocked);
    WalkLate(blocked);
  }

  lemma {:induction false} ExampleBlockedIntervals(schedule: StylistScheduleEntry, existing: seq<BookingRecord>)
    requires schedule.breaks == [ScheduleBlock("10:30", "11:00")]
    requires |existing| == 1 && existing[0].time == "09:30" && existing[0].duration == 60
    ensures ExampleBlocked(BlockedIntervals(schedule.breaks, existing))
  {
    Minutes1030(schedule.breaks[0].start, 630);
    Minutes1100(schedule.breaks[0].end, 660);
    Minutes0930(existing[0].time, 570);
  }

  lemma {:induction false} SingleBlock(blocks: seq<ScheduleBlock>, duration: int, blocked: seq<Interval>, cutoff: Cutoff)
    requires |blocks| == 1
    ensures AllSlots(blocks, duration, blocked, cutoff) == BlockSlots(blocks[0], duration, blocked, cutoff)
  {
    assert blocks[1..] == [];
  }

  lemma {:induction false} ExampleSlotMinutes(schedule: StylistScheduleEntry, existing: seq<BookingRecord>, now: Instant)
    requires schedule.blocks == [ScheduleBlock("09:00", "12:00")]
    requires ExampleBlocked(BlockedIntervals(schedule.breaks, existing))
    requires now.day != ExampleDate
    ensures SlotMinutes(schedule, ExampleDate, 30, existing, now) == [540, 660, 675, 690]
  {
    var blocked := BlockedIntervals(schedule.breaks, existing);
    Minutes0900(schedule.blocks[0].start, 540);
    Minutes1200(schedule.blocks[0].end, 720);
    BlockSlotsOfBounds(schedule.blocks[0], 540, 720, 30, blocked, AnyTime);
    ExampleMinutesWalk(blocked);
    SingleBlock(schedule.blocks, 30, blocked, AnyTime);
  }

  lemma {:induction false} MapSeqOfFour<A, B>(f: A -> B, x0: A, x1: A, x2: A, x3: A)
    ensures MapSeq(f, [x0, x1, x2, x3]) == [f(x0), f(x1), f(x2), f(x3)]
  {
    assert [x0, x1, x2, x3] == [x0] + ([x1] + ([x2] + ([x3] + [])));
    MapSeqCons(f, x3, []);
    MapSeqCons(f, x2, [x3]);
    MapSeqCons(f, x1, [x2, x3]);
    MapSeqCons(f, x0, [x1, x2, x3]);
  }

  lemma {:induction false} TimesOfFourTexts(m0: nat, m1: nat, m2: nat, m3: nat, t0: string, t1: string, t2: string, t3: string)
    requires MinutesToTime(m0) == t0 && MinutesToTime(m1) == t1 && MinutesToTime(m2) == t2 && MinutesToTime(m3) == t3
    ensures Times([m0, m1, m2, m3]) == [t0, t1, t2, t3]
  {
    MapSeqOfFour<int, string>(MinutesToTime, m0, m1, m2, m3);
  }

  lemma {:induction false} ExampleClockTexts(m0: nat, m1: nat, m2: nat, m3: nat, t0: string, t1: string, t2: string, t3: string)
    requires m0 == 540 && m1 == 660 && m2 == 675 && m3 == 690
    requires t0 == "09:00" && t1 == "11:00" && t2 == "11:15" && t3 == "11:30"
    ensures MinutesToTime(m0) == t0 && MinutesToTime(m1) == t1 && MinutesToTime(m2) == t2 && MinutesToTime(m3) == t3
  {
    EarlyTexts(m0, m1, t0, t1);
    LateTexts(m2, m3, t2, t3);
  }

  lemma {:induction false} EarlyTexts(m0: nat, m1: nat, t0: string, t1: string)
    requires m0 == 540 && m1 == 660 && t0 == "09:00" && t1 == "11:00"
    ensures MinutesToTime(m0) == t0 && MinutesToTime(m1) == t1
  {
    Minutes0900(t0, m0);
    Minutes1100(t1, m1);
  }

  lemma {:induction false} LateTexts(m2: nat, m3: nat, t2: string, t3: string)
    requires m2 == 675 && m3 == 690 && t2 == "11:15" && t3 == "11:30"
    ensures MinutesToTime(m2) == t2 && MinutesToTime(m3) == t3
  {
    Minutes1115(t2, m2);
    Minutes1130(t3, m3);
  }

  lemma {:induction false} ExampleTexts(m0: nat, m1: nat, m2: nat, m3: nat, t0: string, t1: string, t2: string, t3: string)
    requires m0 == 540 && m1 == 660 && m2 == 675 && m3 == 690
    requires t0 == "09:00" && t1 == "11:00" && t2 == "11:15" && t3 == "11:30"
    ensures Times([m0, m1, m2, m3]) == [t0, t1, t2, t3]
  {
    ExampleClockTexts(m0, m1, m2, m3, t0, t1, t2, t3);
    TimesOfFourTexts(m0, m1, m2, m3, t0, t1, t2, t3);
  }

  /**
   * The engine's unit scenario: on 2024-02-07, a Wednesday and not the current day, the entry
   * for Wednesdays offers a 30-minute service at exactly 09:00, 11:00, 11:15 and 11:30.
   */
  lemma {:induction false} BookingScenario(schedule: StylistScheduleEntry, existing: seq<BookingRecord>, now: Instant)
    requires schedule == StylistScheduleEntry(3, [ScheduleBlock("09:00", "12:00")], [ScheduleBlock("10:30", "11:00")])
    requires |existing| == 1 && existing[0].time == "09:30" && existing[0].duration == 60
    requires now.day != ExampleDate
    ensures Weekday(ExampleDate) == schedule.day
    ensures SlotTimes(schedule, ExampleDate, 30, existing, now) == ["09:00", "11:00", "11:15", "11:30"]
  {
    ExampleDateIsWednesday();
    ExampleBlockedIntervals(schedule, existing);
    ExampleSlotMinutes(schedule, existing, now);
    ExampleTexts(540, 660, 675, 690, "09:00", "11:00", "11:15", "11:30");
  }
}
