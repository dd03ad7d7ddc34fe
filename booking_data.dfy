/**
 * The domain records of the booking engine and the mapping of database rows onto them:
 * times of day are trimmed from "HH:MM:SS" to "HH:MM", every weekly schedule row becomes one
 * entry with exactly one working block, and missing lists become empty lists.
 */
module BookingData {
  import opened Wrappers
  import opened Clock

  /** A working period or a break within one day, as "HH:MM" texts. */
  datatype ScheduleBlock = ScheduleBlock(start: string, end: string)

  type ScheduleBreak = ScheduleBlock

  /** The working hours of one weekday (0 = Sunday). */
  datatype StylistScheduleEntry = StylistScheduleEntry(day: int, blocks: seq<ScheduleBlock>, breaks: seq<ScheduleBreak>)

  datatype Stylist = Stylist(
    id: string,
    name: string,
    title: string,
    bio: string,
    specialties: seq<string>,
    yearsExperience: int,
    rating: real,
    schedule: seq<StylistScheduleEntry>)

  datatype BookingRecord = BookingRecord(
    id: string,
    serviceId: string,
    stylistId: string,
    date: string,
    time: string,
    duration: int,
    addOnIds: seq<string>,
    clientName: string,
    clientEmail: string,
    clientPhone: string,
    notes: Option<string>,
    marketingConsent: bool)

  /** A service; its price stays in integer cents. */
  datatype Service = Service(
    id: string,
    name: string,
    description: string,
    duration: int,
    priceCents: int,
    category: string,
    includes: seq<string>)

  /** An optional extra; its price stays in integer cents. */
  datatype AddOn = AddOn(
    id: string,
    name: string,
    description: string,
    duration: int,
    priceCents: int,
    recommendedFor: seq<string>)

  // ----- Database rows (a missing or null list is None) -----

  datatype ServiceRow = ServiceRow(
    id: string,
    name: string,
    description: string,
    durationMinutes: int,
    priceCents: int,
    category: string,
    includes: Option<seq<string>>)

  datatype AddOnRow = AddOnRow(
    id: string,
    name: string,
    description: string,
    durationMinutes: int,
    priceCents: int,
    recommendedFor: Option<seq<string>>)

  datatype BookingRow = BookingRow(
    id: string,
    serviceId: string,
    stylistId: string,
    appointmentDate: string,
    startTime: string,
    durationMinutes: int,
    clientName: string,
    clientEmail: string,
    clientPhone: string,
    notes: Option<string>,
    marketingConsent: bool)

  datatype BreakRow = BreakRow(breakStart: string, breakEnd: string)

  datatype ScheduleRow = ScheduleRow(dayOfWeek: int, blockStart: string, blockEnd: string, breaks: Option<seq<BreakRow>>)

  datatype SpecialtyRow = SpecialtyRow(serviceId: string)

  datatype StylistRow = StylistRow(
    id: string,
    name: string,
    title: string,
    bio: string,
    yearsExperience: int,
    rating: real,
    schedules: Option<seq<ScheduleRow>>,
    specialties: Option<seq<SpecialtyRow>>)

  // ----- Mapping -----

  /** `s.slice(0, 5)`: the first five characters, or all of a shorter text. */
  function Slice5(s: string): (r: string)
    ensures |r| == if |s| < 5 then |s| else 5
    ensures r <= s
  {
    if |s| < 5 then s else s[..5]
  }

  /** `list ?? []`. */
  function OrEmpty<T>(list: Option<seq<T>>): (r: seq<T>)
    ensures list.Some? ==> r == list.value
    ensures list.None? ==> r == []
  {
    match list
    case None => []
    case Some(items) => items
  }

  function MapBreak(row: BreakRow): ScheduleBreak
  {
    ScheduleBlock(Slice5(row.breakStart), Slice5(row.breakEnd))
  }

  /** The breaks of a schedule row, one per row, in order, each bound trimmed. */
  function MapBreaks(rows: seq<BreakRow>): (r: seq<ScheduleBreak>)
    ensures |r| == |rows|
    ensures forall i :: 0 <= i < |rows| ==>
      r[i].start == Slice5(rows[i].breakStart) && r[i].end == Slice5(rows[i].breakEnd)
  {
    if rows == [] then [] else [MapBreak(rows[0])] + MapBreaks(rows[1..])
  }

  /** One weekly schedule row: its weekday, exactly one trimmed block, and its trimmed breaks. */
  function MapScheduleRow(row: ScheduleRow): (e: StylistScheduleEntry)
    ensures e.day == row.dayOfWeek
    ensures e.blocks == [ScheduleBlock(Slice5(row.blockStart), Slice5(row.blockEnd))]
    ensures row.breaks.None? ==> e.breaks == []
    ensures row.breaks.Some? ==> |e.breaks| == |row.breaks.value|
    ensures row.breaks.Some? ==> forall i :: 0 <= i < |row.breaks.value| ==>
      e.breaks[i] == ScheduleBlock(Slice5(row.breaks.value[i].breakStart), Slice5(row.breaks.value[i].breakEnd))
  {
    StylistScheduleEntry(
      row.dayOfWeek,
      [ScheduleBlock(Slice5(row.blockStart), Slice5(row.blockEnd))],
      MapBreaks(OrEmpty(row.breaks)))
  }

  function MapSchedules(rows: seq<ScheduleRow>): (r: seq<StylistScheduleEntry>)
    ensures |r| == |rows|
    ensures forall i :: 0 <= i < |rows| ==> r[i] == MapScheduleRow(rows[i])
  {
    if rows == [] then [] else [MapScheduleRow(rows[0])] + MapSchedules(rows[1..])
  }

  function SpecialtyIds(rows: seq<SpecialtyRow>): (r: seq<string>)
    ensures |r| == |rows|
    ensures forall i :: 0 <= i < |rows| ==> r[i] == rows[i].serviceId
  {
    if rows == [] then [] else [rows[0].serviceId] + SpecialtyIds(rows[1..])
  }

  /** `mapStylist`: the profile fields unchanged, specialty ids and schedule entries in row order. */
  function MapStylist(row: StylistRow): (s: Stylist)
    ensures s.id == row.id && s.name == row.name && s.title == row.title && s.bio == row.bio
    ensures s.yearsExperience == row.yearsExperience && s.rating == row.rating
    ensures row.specialties.None? ==> s.specialties == []
    ensures row.specialties.Some? ==> s.specialties == SpecialtyIds(row.specialties.value)
    ensures row.schedules.None? ==> s.schedule == []
    ensures row.schedules.Some? ==> s.schedule == MapSchedules(row.schedules.value)
    ensures forall i :: 0 <= i < |s.schedule| ==> |s.schedule[i].blocks| == 1
  {
    Stylist(
      row.id, row.name, row.title, row.bio,
      SpecialtyIds(OrEmpty(row.specialties)),
      row.yearsExperience, row.rating,
      MapSchedules(OrEmpty(row.schedules)))
  }

  /** `mapBooking`; the caller's add-on ids default to none. */
  function MapBooking(row: BookingRow, addOnIds: seq<string> := []): (b: BookingRecord)
    ensures b.id == row.id && b.serviceId == row.serviceId && b.stylistId == row.stylistId
    ensures b.date == row.appointmentDate && b.duration == row.durationMinutes
    ensures b.clientName == row.clientName && b.clientEmail == row.clientEmail && b.clientPhone == row.clientPhone
    ensures b.notes == row.notes && b.marketingConsent == row.marketingConsent
    ensures b.addOnIds == addOnIds
    ensures b.time <= row.startTime
    ensures |b.time| == if |row.startTime| < 5 then |row.startTime| else 5
  {
    BookingRecord(
      row.id, row.serviceId, row.stylistId, row.appointmentDate,
      Slice5(row.startTime), row.durationMinutes, addOnIds,
      row.clientName, row.clientEmail, row.clientPhone,
      row.notes, row.marketingConsent)
  }

  /** `mapService` with the price kept in cents. */
  function MapService(row: ServiceRow): (s: Service)
    ensures s.id == row.id && s.name == row.name && s.description == row.description
    ensures s.duration == row.durationMinutes && s.priceCents == row.priceCents && s.category == row.category
    ensures row.includes.None? ==> s.includes == []
    ensures row.includes.Some? ==> s.includes == row.includes.value
  {
    Service(row.id, row.name, row.description, row.durationMinutes, row.priceCents, row.category, OrEmpty(row.includes))
  }

  /** `mapAddOn` with the price kept in cents. */
  function MapAddOn(row: AddOnRow): (a: AddOn)
    ensures a.id == row.id && a.name == row.name && a.description == row.description
    ensures a.duration == row.durationMinutes && a.priceCents == row.priceCents
    ensures row.recommendedFor.None? ==> a.recommendedFor == []
    ensures row.recommendedFor.Some? ==> a.recommendedFor == row.recommendedFor.value
  {
    AddOn(row.id, row.name, row.description, row.durationMinutes, row.priceCents, OrEmpty(row.recommendedFor))
  }

  // ----- Lemmas -----

  /** A database time "HH:MM:SS". */
  predicate IsDatabaseTime(t: string)
  {
    |t| == 8 && IsClockText(t[..5]) && t[5] == ':' && IsDigit(t[6]) && IsDigit(t[7])
  }

  /** Trimming a database time keeps exactly its "HH:MM" part, and trimming again changes nothing. */
  lemma {:induction false} TrimDatabaseTime(t: string)
    requires IsDatabaseTime(t)
    ensures Slice5(t) == t[..5] && IsClockText(Slice5(t))
    ensures Slice5(Slice5(t)) == Slice5(t)
  {
  }

  lemma {:induction false} ClockPiecesOfDatabaseTime(t: string)
    requires IsDatabaseTime(t)
    ensures ClockPieces(t) == Some((t[..2], t[3..5]))
  {
    var a, b, c := t[..2], t[3..5], t[6..];
    assert AllDigits(a) && AllDigits(b);
    assert t == a + [':'] + t[3..];
    IndexOfAfter(a, ':', t[3..]);
    assert IndexOf(t, ':') == Some(2);
    assert t[3..] == b + [':'] + c;
    IndexOfAfter(b, ':', c);
    assert IndexOf(t[3..], ':') == Some(2);
    assert t[3..][..2] == b;
  }

  /**
   * The seconds of a database time never reached the engine's arithmetic: toMinutes of the raw
   * "HH:MM:SS" equals toMinutes of its trimmed "HH:MM".
   */
  lemma {:induction false} TrimKeepsMinutes(t: string)
    requires IsDatabaseTime(t)
    ensures ToMinutes(Slice5(t)) == ToMinutes(t)
    ensures ToMinutes(t) == Some(ClockHours(t[..5]) * 60 + ClockMinutes(t[..5]))
  {
    var hh := t[..5];
    ToMinutesOfClock(hh);
    ClockPiecesOfDatabaseTime(t);
    assert t[..2] == hh[..2] && t[3..5] == hh[3..];
    ParseTwoDigits(t[..2]);
    ParseTwoDigits(t[3..5]);
    ToMinutesOfClockPieces(t, t[..2], t[3..5]);
  }

  /** The booking's start time "09:30:00" is stored as "09:30". */
  lemma {:induction false} BookingTimeTrimmed(row: BookingRow)
    requires row.startTime == "09:30:00"
    ensures MapBooking(row).time == "09:30"
  {
  }
}
