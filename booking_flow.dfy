/**
 * The selection rules of the booking wizard: the length of a service with its add-ons, the
 * add-on checkbox, the start times offered for the current choices, the reset of a chosen time
 * that is no longer offered, the three-step navigation with its "continue" gate, the
 * reconciliation of an optimistic booking with the server's answer, and the order a stylist's
 * weekly schedule is kept in.
 */
module BookingFlow {
  import opened Wrappers
  import opened Clock
  import opened BookingData
  import opened Availability

  predicate NoDuplicates<T(==)>(s: seq<T>)
  {
    forall i, j :: 0 <= i < j < |s| ==> s[i] != s[j]
  }

  // ----- Add-ons and the total duration -----

  /** `ids.filter(id => id !== drop)`: every other id, in order. */
  function Without(ids: seq<string>, drop: string): (r: seq<string>)
    ensures forall x :: x in r <==> x in ids && x != drop
    ensures NoDuplicates(ids) ==> NoDuplicates(r)
  {
    if ids == [] then []
    else
      var rest := Without(ids[1..], drop);
      assert NoDuplicates(ids) ==> NoDuplicates(ids[1..]) && ids[0] !in ids[1..];
      if ids[0] == drop then rest else [ids[0]] + rest
  }

  /**
   * The add-on checkbox: checking adds the id at the end unless it is already selected,
   * unchecking removes it; no other id is added, removed or moved.
   */
  function ToggleAddOn(previous: seq<string>, id: string, checked: bool): (r: seq<string>)
    ensures checked ==> id in r && previous <= r && |r| == |previous| + (if id in previous then 0 else 1)
    ensures !checked ==> id !in r
    ensures forall x :: x != id ==> (x in r <==> x in previous)
    ensures NoDuplicates(previous) ==> NoDuplicates(r)
  {
    if checked then (if id in previous then previous else previous + [id])
    else Without(previous, id)
  }

  /** `addOns.filter(addOn => selected.includes(addOn.id))`: the selected catalogue entries, in catalogue order. */
  function SelectedAddOns(addOns: seq<AddOn>, selected: seq<string>): (r: seq<AddOn>)
    ensures forall a :: a in r <==> a in addOns && a.id in selected
    ensures |r| <= |addOns|
  {
    if addOns == [] then []
    else (if addOns[0].id in selected then [addOns[0]] else []) + SelectedAddOns(addOns[1..], selected)
  }

  /** `list.reduce((total, addOn) => total + addOn.duration, 0)`. */
  function DurationSum(list: seq<AddOn>): (r: int)
    ensures (forall a :: a in list ==> a.duration >= 0) ==> r >= 0
  {
    if list == [] then 0 else list[0].duration + DurationSum(list[1..])
  }

  /** The minutes the catalogue entries carrying this id add. */
  function DurationOf(addOns: seq<AddOn>, id: string): int
  {
    if addOns == [] then 0
    else (if addOns[0].id == id then addOns[0].duration else 0) + DurationOf(addOns[1..], id)
  }

  /**
   * `totalDuration`: nothing without a service, otherwise the service's minutes plus those of the
   * selected add-ons; never shorter than the service when no add-on has a negative duration.
   */
  function TotalDuration(service: Option<Service>, addOns: seq<AddOn>, selected: seq<string>): (t: int)
    ensures service.None? ==> t == 0
    ensures service.Some? && (forall a :: a in addOns ==> a.duration >= 0) ==> t >= service.value.duration
  {
    match service
    case None => 0
    case Some(s) => s.duration + DurationSum(SelectedAddOns(addOns, selected))
  }

  lemma {:induction false} DurationSumCons(a: AddOn, rest: seq<AddOn>, keep: bool)
    ensures DurationSum((if keep then [a] else []) + rest) == (if keep then a.duration else 0) + DurationSum(rest)
  {
    if keep {
      assert ([a] + rest)[1..] == rest;
    } else {
      assert [] + rest == rest;
    }
  }

  /** The selected add-ons' minutes are those of every other selected id plus those of `id` when it is selected. */
  lemma {:induction false} SelectionSum(addOns: seq<AddOn>, selected: seq<string>, id: string)
    ensures DurationSum(SelectedAddOns(addOns, selected))
      == DurationSum(SelectedAddOns(addOns, Without(selected, id))) + (if id in selected then DurationOf(addOns, id) else 0)
  {
    if addOns != [] {
      var a := addOns[0];
      SelectionSum(addOns[1..], selected, id);
      DurationSumCons(a, SelectedAddOns(addOns[1..], selected), a.id in selected);
      DurationSumCons(a, SelectedAddOns(addOns[1..], Without(selected, id)), a.id in Without(selected, id));
    }
  }

  /** The selection depends only on which ids are selected. */
  lemma {:induction false} SelectionCongruent(addOns: seq<AddOn>, s1: seq<string>, s2: seq<string>)
    requires forall x :: x in s1 <==> x in s2
    ensures SelectedAddOns(addOns, s1) == SelectedAddOns(addOns, s2)
  {
    if addOns != [] {
      SelectionCongruent(addOns[1..], s1, s2);
    }
  }

  /** Checking an add-on lengthens the appointment by its minutes over the same choices with it unchecked. */
  lemma {:induction false} ToggleChangesDuration(service: Service, addOns: seq<AddOn>, selected: seq<string>, id: string)
    ensures TotalDuration(Some(service), addOns, ToggleAddOn(selected, id, true))
      == TotalDuration(Some(service), addOns, ToggleAddOn(selected, id, false)) + DurationOf(addOns, id)
  {
    var on := ToggleAddOn(selected, id, true);
    SelectionSum(addOns, on, id);
    SelectionCongruent(addOns, Without(on, id), Without(selected, id));
  }

  // ----- Offered start times and the chosen time -----

  /**
   * `availableSlots`: nothing until a service, a stylist, a date and a nonzero duration are chosen
   * and the stylist works on that weekday; otherwise the engine's start times for that day.
   */
  function AvailableSlots(service: Option<Service>, stylist: Option<Stylist>, date: Option<int>, totalDuration: int,
                          bookings: seq<BookingRecord>, now: Instant): (r: seq<string>)
    ensures r != [] ==> service.Some? && stylist.Some? && date.Some? && totalDuration != 0 &&
                        StylistWorksOnDate(stylist.value, date.value)
    ensures service.Some? && stylist.Some? && date.Some? && totalDuration != 0 && StylistWorksOnDate(stylist.value, date.value) ==>
      GetScheduleForDate(stylist.value, date.value).Some? &&
      r == SlotTimes(GetScheduleForDate(stylist.value, date.value).value, date.value, totalDuration, bookings, now)
  {
    if service.None? || stylist.None? || date.None? || totalDuration == 0 then []
    else
      WorksIffScheduleFound(stylist.value, date.value);
      match GetScheduleForDate(stylist.value, date.value)
      case None => []
      case Some(schedule) => SlotTimes(schedule, date.value, totalDuration, bookings, now)
  }

  /**
   * Every offered text is a start time the engine produced from the stylist's entry for that
   * weekday, read back through toMinutes.
   */
  lemma {:induction false} AvailableSlotsSound(service: Option<Service>, stylist: Option<Stylist>, date: Option<int>,
                                               totalDuration: int, bookings: seq<BookingRecord>, now: Instant, t: string)
    requires t in AvailableSlots(service, stylist, date, totalDuration, bookings, now)
    ensures service.Some? && stylist.Some? && date.Some? && totalDuration != 0
    ensures GetScheduleForDate(stylist.value, date.value).Some?
    ensures ToMinutes(t).Some? &&
      ToMinutes(t).value in SlotMinutes(GetScheduleForDate(stylist.value, date.value).value, date.value, totalDuration, bookings, now)
  {
    var schedule := GetScheduleForDate(stylist.value, date.value).value;
    var ts := SlotTimes(schedule, date.value, totalDuration, bookings, now);
    var ms := SlotMinutes(schedule, date.value, totalDuration, bookings, now);
    SlotTimesRoundTrip(schedule, date.value, totalDuration, bookings, now);
    var i :| 0 <= i < |ts| && ts[i] == t;
    assert ms[i] in ms;
  }

  /** The effect on the chosen time: kept while it is offered, otherwise cleared. */
  function ReconcileSelectedTime(selected: string, slots: seq<string>): (r: string)
    ensures r == "" || r in slots
    ensures selected in slots ==> r == selected
    ensures selected !in slots ==> r == ""
  {
    if selected != "" && selected !in slots then "" else selected
  }

  // ----- Step navigation -----

  /** The wizard's steps: service, time, details. */
  const StepCount := 3
  const LastStep := StepCount - 1

  /** Back: one step earlier, never before the first. */
  function BackStep(step: int): (r: int)
    ensures r >= 0
    ensures step > 0 ==> r == step - 1
    ensures step <= 0 ==> r == 0
    ensures 0 <= step <= LastStep ==> 0 <= r <= LastStep
  {
    if step - 1 > 0 then step - 1 else 0
  }

  /** Continue: one step later, never past the last. */
  function ContinueStep(step: int): (r: int)
    ensures r <= LastStep
    ensures step < LastStep ==> r == step + 1
    ensures step >= LastStep ==> r == LastStep
    ensures 0 <= step <= LastStep ==> 0 <= r <= LastStep
  {
    if step + 1 < LastStep then step + 1 else LastStep
  }

  /** Continue then Back, and Back then Continue, return to the step they started from. */
  lemma {:induction false} StepsInverse(step: int)
    ensures 0 <= step < LastStep ==> BackStep(ContinueStep(step)) == step
    ensures 0 < step <= LastStep ==> ContinueStep(BackStep(step)) == step
  {
  }

  /** `Boolean(text)`: a missing or empty text is false. */
  predicate Truthy(text: Option<string>)
  {
    text.Some? && text.value != ""
  }

  predicate CanAdvanceFromService(serviceId: Option<string>)
  {
    Truthy(serviceId)
  }

  predicate CanAdvanceFromSchedule(stylistId: Option<string>, date: Option<int>, time: string)
  {
    Truthy(stylistId) && date.Some? && time != ""
  }

  /** The Continue button exists on every step but the last. */
  predicate ContinueShown(step: int)
  {
    step < LastStep
  }

  predicate ContinueDisabled(step: int, serviceId: Option<string>, stylistId: Option<string>, date: Option<int>, time: string)
  {
    (step == 0 && !CanAdvanceFromService(serviceId)) || (step == 1 && !CanAdvanceFromSchedule(stylistId, date, time))
  }

  /** The gate: Continue is enabled on the first step exactly when a service is chosen, on the second exactly when a stylist, a date and a time are. */
  lemma {:induction false} ContinueGate(step: int, serviceId: Option<string>, stylistId: Option<string>, date: Option<int>, time: string)
    ensures step == 0 ==> (!ContinueDisabled(step, serviceId, stylistId, date, time) <==> serviceId.Some? && serviceId.value != "")
    ensures step == 1 ==> (!ContinueDisabled(step, serviceId, stylistId, date, time) <==>
                           stylistId.Some? && stylistId.value != "" && date.Some? && time != "")
    ensures step != 0 && step != 1 ==> !ContinueDisabled(step, serviceId, stylistId, date, time)
  {
  }

  /**
   * The wizard's selection state, changed one setter at a time. Only the rules above are
   * modelled; the customer form is not part of this model.
   */
  class BookingWizard {
    var step: int
    var serviceId: Option<string>
    var addOnIds: seq<string>
    var stylistId: Option<string>
    var date: Option<int>
    var time: string

    ghost predicate Valid()
      reads this
    {
      0 <= step <= LastStep && NoDuplicates(addOnIds)
    }

    constructor ()
      ensures Valid()
      ensures step == 0 && serviceId == None && addOnIds == [] && stylistId == None && date == None && time == ""
    {
      step := 0;
      serviceId := None;
      addOnIds := [];
      stylistId := None;
      date := None;
      time := "";
    }

    method Back()
      requires Valid()
      modifies this
      ensures Valid() && step == BackStep(old(step))
      ensures serviceId == old(serviceId) && addOnIds == old(addOnIds) && stylistId == old(stylistId)
      ensures date == old(date) && time == old(time)
    {
      step := BackStep(step);
    }

    /** Continue, pressed while it is shown and enabled: the choices its gate checks are in place. */
    method Continue()
      requires Valid() && ContinueShown(step) && !ContinueDisabled(step, serviceId, stylistId, date, time)
      modifies this
      ensures Valid() && step == ContinueStep(old(step)) && step == old(step) + 1
      ensures step == 1 ==> CanAdvanceFromService(serviceId)
      ensures step == 2 ==> CanAdvanceFromSchedule(stylistId, date, time)
      ensures serviceId == old(serviceId) && addOnIds == old(addOnIds) && stylistId == old(stylistId)
      ensures date == old(date) && time == old(time)
    {
      step := ContinueStep(step);
    }

    /** Picking a service clears the add-ons, the stylist, the date and the time. */
    method SelectService(id: string)
      requires Valid()
      modifies this
      ensures Valid() && step == old(step)
      ensures serviceId == Some(id) && addOnIds == [] && stylistId == None && date == None && time == ""
    {
      serviceId := Some(id);
      addOnIds := [];
      stylistId := None;
      date := None;
      time := "";
    }

    /** Picking a stylist: a different stylist clears the date and the time, the same one keeps them. */
    method SelectStylist(id: string)
      requires Valid()
      modifies this
      ensures Valid() && stylistId == Some(id)
      ensures old(stylistId) == Some(id) ==> date == old(date) && time == old(time)
      ensures old(stylistId) != Some(id) ==> date == None && time == ""
      ensures step == old(step) && serviceId == old(serviceId) && addOnIds == old(addOnIds)
    {
      var changed := stylistId != Some(id);
      stylistId := Some(id);
      if changed {
        date := None;
        time := "";
      }
    }

    /** Picking a day in the calendar, or clearing it, clears the time. */
    method SelectDate(picked: Option<int>)
      requires Valid()
      modifies this
      ensures Valid() && date == picked && time == ""
      ensures step == old(step) && serviceId == old(serviceId) && addOnIds == old(addOnIds) && stylistId == old(stylistId)
    {
      date := picked;
      time := "";
    }

    /** Picking one of the offered start times. */
    method SelectTime(slot: string)
      requires Valid()
      modifies this
      ensures Valid() && time == slot
      ensures step == old(step) && serviceId == old(serviceId) && addOnIds == old(addOnIds)
      ensures stylistId == old(stylistId) && date == old(date)
    {
      time := slot;
    }

    method SetAddOn(id: string, checked: bool)
      requires Valid()
      modifies this
      ensures Valid() && addOnIds == ToggleAddOn(old(addOnIds), id, checked)
      ensures step == old(step) && serviceId == old(serviceId) && stylistId == old(stylistId)
      ensures date == old(date) && time == old(time)
    {
      addOnIds := ToggleAddOn(addOnIds, id, checked);
    }

    /** The effect run whenever the offered start times change. */
    method ReconcileTime(slots: seq<string>)
      requires Valid()
      modifies this
      ensures Valid() && time == ReconcileSelectedTime(old(time), slots)
      ensures time == "" || time in slots
      ensures step == old(step) && serviceId == old(serviceId) && addOnIds == old(addOnIds)
      ensures stylistId == old(stylistId) && date == old(date)
    {
      time := ReconcileSelectedTime(time, slots);
    }

    /** `resetFlow`: back to the first step with nothing chosen. */
    method ResetFlow()
      requires Valid()
      modifies this
      ensures Valid()
      ensures step == 0 && serviceId == None && addOnIds == [] && stylistId == None && date == None && time == ""
    {
      serviceId := None;
      addOnIds := [];
      stylistId := None;
      date := None;
      time := "";
      step := 0;
    }
  }

  // ----- Optimistic booking -----

  predicate IsOptimistic(b: BookingRecord, optimisticId: Option<string>)
  {
    optimisticId.Some? && b.id == optimisticId.value
  }

  /**
   * `onSuccess`: every cached booking carrying the optimistic id is replaced, in place, by the
   * server's booking; when none carries it, the server's booking is appended. Nothing else moves.
   */
  method ReconcileOptimistic(current: seq<BookingRecord>, optimisticId: Option<string>, booking: BookingRecord)
    returns (next: seq<BookingRecord>)
    ensures |next| == if exists i :: 0 <= i < |current| && IsOptimistic(current[i], optimisticId) then |current| else |current| + 1
    ensures forall i :: 0 <= i < |current| ==>
      next[i] == if IsOptimistic(current[i], optimisticId) then booking else current[i]
    ensures |next| > |current| ==> next[|current|] == booking
    ensures booking in next
  {
    var replaced := false;
    var mapped: seq<BookingRecord> := [];
    for i := 0 to |current|
      invariant |mapped| == i
      invariant forall j :: 0 <= j < i ==> mapped[j] == if IsOptimistic(current[j], optimisticId) then booking else current[j]
      invariant replaced <==> exists j :: 0 <= j < i && IsOptimistic(current[j], optimisticId)
    {
      if IsOptimistic(current[i], optimisticId) {
        replaced := true;
        mapped := mapped + [booking];
      } else {
        mapped := mapped + [current[i]];
      }
    }
    if replaced {
      var j :| 0 <= j < |current| && IsOptimistic(current[j], optimisticId);
      assert mapped[j] == booking;
      next := mapped;
    } else {
      next := mapped + [booking];
    }
  }

  // ----- Schedule order -----

  /** `localeCompare` on "HH:MM" texts, as code-unit order: -1, 0 or 1. */
  function CompareText(a: string, b: string): (r: int)
    ensures -1 <= r <= 1
    ensures r == 0 <==> a == b
  {
    if a == [] then (if b == [] then 0 else -1)
    else if b == [] then 1
    else if a[0] < b[0] then -1
    else if a[0] > b[0] then 1
    else
      assert a == [a[0]] + a[1..] && b == [b[0]] + b[1..];
      CompareText(a[1..], b[1..])
  }

  lemma {:induction false} CompareTextAntisymmetric(a: string, b: string)
    ensures CompareText(b, a) == -CompareText(a, b)
  {
    if a != [] && b != [] && a[0] == b[0] {
      CompareTextAntisymmetric(a[1..], b[1..]);
    }
  }

  lemma {:induction false} CompareTextTransitive(a: string, b: string, c: string)
    requires CompareText(a, b) <= 0 && CompareText(b, c) <= 0
    ensures CompareText(a, c) <= 0
  {
    if a != [] && b != [] && c != [] && a[0] == b[0] && b[0] == c[0] {
      CompareTextTransitive(a[1..], b[1..], c[1..]);
    }
  }

  /** The start of an entry's first block, `"00:00"` when it has none. */
  function EntryStart(e: StylistScheduleEntry): string
  {
    if |e.blocks| > 0 then e.blocks[0].start else "00:00"
  }

  /** The sort comparator: by weekday, then by the start of the first block. */
  function CompareEntries(a: StylistScheduleEntry, b: StylistScheduleEntry): (r: int)
    ensures r < 0 <==> a.day < b.day || (a.day == b.day && CompareText(EntryStart(a), EntryStart(b)) < 0)
    ensures r == 0 <==> a.day == b.day && EntryStart(a) == EntryStart(b)
  {
    if a.day != b.day then a.day - b.day else CompareText(EntryStart(a), EntryStart(b))
  }

  /** The comparator is consistent: swapping its arguments negates it, and it is transitive. */
  lemma {:induction false} CompareEntriesConsistent(a: StylistScheduleEntry, b: StylistScheduleEntry, c: StylistScheduleEntry)
    ensures CompareEntries(b, a) == -CompareEntries(a, b)
    ensures CompareEntries(a, b) <= 0 && CompareEntries(b, c) <= 0 ==> CompareEntries(a, c) <= 0
  {
    CompareTextAntisymmetric(EntryStart(a), EntryStart(b));
    if CompareEntries(a, b) <= 0 && CompareEntries(b, c) <= 0 && a.day == b.day && b.day == c.day {
      CompareTextTransitive(EntryStart(a), EntryStart(b), EntryStart(c));
    }
  }

  /** Neighbours are in comparator order. */
  predicate SortedEntries(s: seq<StylistScheduleEntry>)
  {
    forall i :: 0 < i < |s| ==> CompareEntries(s[i - 1], s[i]) <= 0
  }

  /**
   * Placing the head of a sorted schedule before the insertion into its tail keeps the order when
   * `e` follows that head, and adds exactly `e`.
   */
  lemma {:induction false} InsertBehindHead(e: StylistScheduleEntry, sorted: seq<StylistScheduleEntry>, rest: seq<StylistScheduleEntry>)
    requires sorted != [] && CompareEntries(e, sorted[0]) > 0
    requires |rest| == |sorted| && multiset(rest) == multiset(sorted[1..]) + multiset{e}
    requires rest[0] == e || (|sorted| > 1 && rest[0] == sorted[1])
    requires SortedEntries(sorted[1..]) ==> SortedEntries(rest)
    ensures multiset([sorted[0]] + rest) == multiset(sorted) + multiset{e}
    ensures SortedEntries(sorted) ==> SortedEntries([sorted[0]] + rest)
  {
    assert sorted == [sorted[0]] + sorted[1..];
    if SortedEntries(sorted) {
      assert SortedEntries(sorted[1..]) by {
        forall i | 0 < i < |sorted[1..]|
          ensures CompareEntries(sorted[1..][i - 1], sorted[1..][i]) <= 0
        {
          assert sorted[1..][i - 1] == sorted[i] && sorted[1..][i] == sorted[i + 1];
        }
      }
      CompareEntriesConsistent(e, sorted[0], e);
      var r := [sorted[0]] + rest;
      forall i | 0 < i < |r|
        ensures CompareEntries(r[i - 1], r[i]) <= 0
      {
        if i > 1 {
          assert r[i - 1] == rest[i - 2] && r[i] == rest[i - 1];
        }
      }
    }
  }

  /** Inserting `e` before the first entry it does not follow keeps the order and adds exactly `e`. */
  function InsertEntry(e: StylistScheduleEntry, sorted: seq<StylistScheduleEntry>): (r: seq<StylistScheduleEntry>)
    ensures |r| == |sorted| + 1
    ensures multiset(r) == multiset(sorted) + multiset{e}
    ensures r[0] == e || (sorted != [] && r[0] == sorted[0])
    ensures SortedEntries(sorted) ==> SortedEntries(r)
  {
    if sorted == [] then [e]
    else if CompareEntries(e, sorted[0]) <= 0 then [e] + sorted
    else
      var rest := InsertEntry(e, sorted[1..]);
      InsertBehindHead(e, sorted, rest);
      [sorted[0]] + rest
  }

  /**
   * The schedule order of the stylists query: weekdays ascending, and within a weekday by the start
   * of the first block; the result is a rearrangement of the entries. Entries the comparator ranks
   * equal keep their input order.
   */
  function SortSchedule(entries: seq<StylistScheduleEntry>): (r: seq<StylistScheduleEntry>)
    ensures SortedEntries(r)
    ensures multiset(r) == multiset(entries)
  {
    if entries == [] then []
    else
      assert entries == [entries[0]] + entries[1..];
      InsertEntry(entries[0], SortSchedule(entries[1..]))
  }

  /** In a sorted schedule every entry is in comparator order with every later one. */
  lemma {:induction false} SortedPairwise(s: seq<StylistScheduleEntry>, i: int, j: int)
    requires SortedEntries(s) && 0 <= i <= j < |s|
    ensures CompareEntries(s[i], s[j]) <= 0
    decreases j - i
  {
    if i < j {
      SortedPairwise(s, i, j - 1);
      CompareEntriesConsistent(s[i], s[j - 1], s[j]);
    }
  }

  /** A stylist as the stylists query delivers it: mapped from its row, with its schedule sorted. */
  function LoadStylist(row: StylistRow): (s: Stylist)
    ensures s.id == row.id && s.specialties == MapStylist(row).specialties
    ensures SortedEntries(s.schedule) && multiset(s.schedule) == multiset(MapStylist(row).schedule)
    ensures s == MapStylist(row).(schedule := s.schedule)
  {
    var mapped := MapStylist(row);
    mapped.(schedule := SortSchedule(mapped.schedule))
  }

  /**
   * Why the schedule is sorted: the entry found for a date is the one of that weekday whose first
   * block starts earliest.
   */
  lemma {:induction false} FoundEntryStartsEarliest(row: StylistRow, date: int, other: StylistScheduleEntry)
    requires GetScheduleForDate(LoadStylist(row), date).Some?
    requires other in LoadStylist(row).schedule && other.day == Weekday(date)
    ensures CompareText(EntryStart(GetScheduleForDate(LoadStylist(row), date).value), EntryStart(other)) <= 0
  {
    var s := LoadStylist(row).schedule;
    var found := GetScheduleForDate(LoadStylist(row), date).value;
    var i :| 0 <= i < |s| && s[i] == found && s[i].day == Weekday(date) && forall j :: 0 <= j < i ==> s[j].day != Weekday(date);
    var j :| 0 <= j < |s| && s[j] == other;
    SortedPairwise(s, i, j);
  }
}
