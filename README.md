# Barbershop booking core, modelled in Dafny

This project models the appointment logic of a barbershop booking site and proves properties of it.

- **Slot engine** (`src/lib/booking-utils.ts`):
  - conversion between `"HH:MM"` texts and minutes since midnight;
  - lookup of a stylist's weekly schedule entry by weekday;
  - `generateSlots`, which walks each working block on a 15-minute grid and offers every start time whose window fits the block, meets no break or existing booking and, on the current day, lies strictly after now.
- **Row mapping** (`src/lib/booking-data.ts`): database rows become the engine's input, with `"HH:MM:SS"` trimmed to `"HH:MM"` and missing lists defaulting to empty.
- **Booking wizard rules** (`src/components/Booking.tsx`):
  - the total duration;
  - the add-on checkbox;
  - the offered start times and the reset of a stale chosen time;
  - the three-step navigation and its "continue" gate;
  - the optimistic-booking reconciliation;
  - the order a stylist's schedule is kept in.
- **Index and gesture state machines**: the gallery lightbox, the testimonial carousel, the bottom sheet and the swipe hook.

Files, one module each:

| file | module | flavour |
|---|---|---|
| `wrappers.dfy` | `Wrappers` | `Option` |
| `clock.dfy` | `Clock` | JavaScript `Number`, `toString`, `padStart`, `%`; `toMinutes`, `minutesToTime`, `formatTimeDisplay` |
| `booking_data.dfy` | `BookingData` | entity datatypes and the pure row mappers |
| `availability.dfy` | `Availability` | the schedule lookup, the specification of the offered slots, and `generateSlots` as methods with loops |
| `availability_example.dfy` | `AvailabilityExample` | the scenario of the unit test for `generateSlots` |
| `booking_flow.dfy` | `BookingFlow` | the wizard's rules as functions, its setter-driven state as the class `BookingWizard` |
| `gallery_lightbox.dfy` | `GalleryLightbox` | the class `Lightbox` |
| `testimonials.dfy` | `Testimonials` | the class `Carousel` |
| `bottom_sheet.dfy` | `BottomSheet` | the class `Sheet` |
| `swipe_gesture.dfy` | `SwipeGesture` | the class `Swipe` |

Modelling choices:

- **NaN.** JavaScript's NaN is `None`: `ToMinutes` returns `Option<int>`.
  - A comparison with NaN is false, so an interval with a NaN bound overlaps nothing.
  - A block with a NaN bound offers no slot.
- **`Number(text)`** on a piece of a time text is modelled as follows: `""` is 0, a run of decimal digits is its value, anything else is NaN.
- **Dates** are day ordinals counted from 1970-01-01, which was a Thursday, so the weekday is `(d + 4) % 7`.
- **The clock.** `generateSlots` reads the clock; here "now" is a parameter `Instant(day, millis)`.
  - "Is today" means the same day ordinal.
  - The slot instant is built by `setHours`/`setMinutes` on a midnight date, so it is minute-precise. It lies after now exactly when `slot * 60000 > now.millis`.
- **The slot specification** is a function of a `Cutoff` (`AnyTime` or `After(millis)`). `GenerateSlots` is proved equal to it.
- **`localeCompare`** on the schedule's `"HH:MM"` texts is modelled as code-unit lexicographic order.
- **`Array.prototype.sort`** is modelled by insertion sort.

## Model

| member | source | states |
|---|---|---|
| Clock.ParseDecimal | src/lib/booking-utils.ts:6 | a text reads as a number exactly when it is a non-empty run of decimal digits |
| Clock.NumberOf | src/lib/booking-utils.ts:6 | `Number` of a non-empty piece is its decimal value, or NaN when the piece is not all digits |
| Clock.PadStart2 | src/lib/booking-utils.ts:11-14 | `padStart(2, "0")`: length at least 2, the text kept as the suffix, only zeros added in front |
| Clock.JsRem | src/lib/booking-utils.ts:14 | JavaScript `%`: equals the mathematical remainder for a non-negative dividend; otherwise it has the dividend's sign and magnitude below the divisor |
| Clock.ToMinutes | src/lib/booking-utils.ts:5-8 | a number of minutes, when there is one, is never negative |
| Clock.ToMinutesOfPieces | src/lib/booking-utils.ts:5-8 | `toMinutes("h:m")` for digit runs h and m is `h * 60 + m` |
| Clock.ToMinutesOfClock | src/lib/booking-utils.ts:5-8 | `toMinutes` of a canonical "HH:MM" is hours * 60 + minutes |
| Clock.IndexOfAfter | src/lib/booking-utils.ts:6 | the first colon of `a + ":" + b` is at the end of a colon-free `a` |
| Clock.ClockPiecesOfDigits | src/lib/booking-utils.ts:6 | `split(":")` of `a + ":" + b`, with a and b digit runs, gives the pieces a and b |
| Clock.NatToString | src/lib/booking-utils.ts:11-14 | `toString` of a natural is a non-empty digit run, one digit exactly below 10 |
| Clock.ParseNatToString | src/lib/booking-utils.ts:11-14 | reading back the decimal text of n gives n |
| Clock.ParsePadded | src/lib/booking-utils.ts:11-14 | reading back the zero-padded decimal text of n gives n |
| Clock.MinutesToTimeOfNat | src/lib/booking-utils.ts:10-16 | `minutesToTime(m)` for m >= 0 is `m div 60` and `m mod 60`, each padded to two digits, joined by ":" |
| Clock.MinutesRoundTrip | src/lib/booking-utils.ts:5-16 | `toMinutes(minutesToTime(m)) == m` for every m >= 0 |
| Clock.ClockTextOfParts | src/lib/booking-utils.ts:10-16 | re-padding the hours and minutes of a canonical "HH:MM" rebuilds that text |
| Clock.ClockRoundTrip | src/lib/booking-utils.ts:5-16 | a canonical "HH:MM" with minutes below 60 survives `minutesToTime(toMinutes(t))` unchanged |
| Clock.FormatTimeDisplay | src/lib/booking-utils.ts:18-21 | a display text exists exactly when both parts are numbers, and it ends in " AM" or " PM" |
| Clock.TwelveHourText | src/lib/booking-utils.ts:20 | "h:mm a" text is at least seven characters and ends in " AM" or " PM" |
| Clock.FormatOfMinutes | src/lib/booking-utils.ts:18-21 | the display depends only on the minute count `toMinutes` reads |
| Clock.AfternoonText | src/lib/booking-utils.ts:20 | an afternoon time from 13:10 to 21:59 displays as the hour minus 12, two minute digits and " PM" |
| Clock.TwelveHour825 | src/lib/__tests__/booking-utils.test.ts:44-48 | minute 825 of a day displays as "1:45 PM" |
| Clock.AfternoonDisplay | src/lib/__tests__/booking-utils.test.ts:44-48 | `formatTimeDisplay(midnight, "13:45")` is "1:45 PM" |
| BookingData.Slice5 | src/lib/booking-data.ts:121 | `slice(0, 5)`: a prefix of the text, five characters long or the whole text |
| BookingData.OrEmpty | src/lib/booking-data.ts:138 | `?? []`: the list when present, otherwise empty |
| BookingData.MapBreaks | src/lib/booking-data.ts:151-154 | one break per row, in order, each bound trimmed to five characters |
| BookingData.MapScheduleRow | src/lib/booking-data.ts:142-155 | an entry with the row's weekday and exactly one block of the trimmed bounds; breaks mapped in order, none when missing |
| BookingData.MapSchedules | src/lib/booking-data.ts:141-155 | one entry per schedule row, in order |
| BookingData.SpecialtyIds | src/lib/booking-data.ts:138 | one service id per specialty row, in order |
| BookingData.MapStylist | src/lib/booking-data.ts:132-157 | copies the scalar fields; missing specialties or schedules become empty; every entry has exactly one block |
| BookingData.MapBooking | src/lib/booking-data.ts:112-130 | copies every field unchanged; add-on ids default to none; the time is the first five characters of the start time |
| BookingData.MapService | src/lib/booking-data.ts:89-99 | copies the fields; the duration is the row's minutes; missing `includes` becomes empty |
| BookingData.MapAddOn | src/lib/booking-data.ts:101-110 | copies the fields; the duration is the row's minutes; missing `recommendedFor` becomes empty |
| BookingData.TrimDatabaseTime | src/lib/booking-data.ts:121 | trimming "HH:MM:SS" gives a canonical "HH:MM", and trimming again changes nothing |
| BookingData.TrimKeepsMinutes | src/lib/booking-data.ts:121 | `toMinutes` reads the same minute count before and after the trim |
| BookingData.BookingTimeTrimmed | src/lib/booking-data.ts:121 | a start time "09:30:00" becomes "09:30" |
| Availability.Weekday | src/lib/booking-utils.ts:24 | `getDay()` is a weekday from 0 to 6 |
| Availability.HasEntryFor | src/lib/booking-utils.ts:24 | `some` is true exactly when some entry has the weekday |
| Availability.FindEntryFor | src/lib/booking-utils.ts:28 | `find` gives nothing exactly when no entry has the weekday, otherwise the first entry that has it |
| Availability.WorksIffScheduleFound | src/lib/booking-utils.ts:23-29 | `stylistWorksOnDate` holds exactly when `getScheduleForDate` finds an entry, and that entry is the first of the date's weekday |
| Availability.BreakIntervals | src/lib/booking-utils.ts:42 | one interval per break, in order |
| Availability.BookingIntervals | src/lib/booking-utils.ts:43 | one interval per booking, in order |
| Availability.BlockedIntervals | src/lib/booking-utils.ts:41-44 | the break intervals, then the booking intervals |
| Availability.OverlapsAny | src/lib/booking-utils.ts:52 | a window overlaps the list exactly when it strictly overlaps some member |
| Availability.CutoffFor | src/lib/booking-utils.ts:38-39 | on the current day the cutoff is now; on any other day there is none |
| Availability.TodayTest | src/lib/booking-utils.ts:53-55 | the cutoff admits a start time exactly when the day is not today or the slot instant is after now |
| Availability.SlotsFrom | src/lib/booking-utils.ts:50-59 | every start time from a walk fits the block, lies on the 15-minute grid from its start and qualifies |
| Availability.SlotsFromAscending | src/lib/booking-utils.ts:50-59 | a block's start times are strictly ascending |
| Availability.SlotsFromStep | src/lib/booking-utils.ts:50-59 | while the window fits, the walk emits the current time when it qualifies, then continues 15 minutes later |
| Availability.SlotsFromDone | src/lib/booking-utils.ts:50 | once the window no longer fits, nothing more is emitted |
| Availability.AllSlots | src/lib/booking-utils.ts:46-61 | no blocks give no slots, and every slot is non-negative |
| Availability.AllSlotsAppend | src/lib/booking-utils.ts:46-61 | the slots of two runs of blocks are those of the first run followed by those of the second |
| Availability.BlockSlotsOfBounds | src/lib/booking-utils.ts:47-48 | a block with readable bounds is walked from its start to its end |
| Availability.BlockSlotsOfNaN | src/lib/booking-utils.ts:47-50 | a block with a NaN bound offers nothing |
| Availability.PushIfFree | src/lib/booking-utils.ts:51-57 | one loop turn pushes the "HH:MM" text of the time exactly when it overlaps nothing and passes the today test |
| Availability.PushSlotsFrom | src/lib/booking-utils.ts:47-60 | the `while` loop appends exactly the texts of the block's qualifying start times, in order |
| Availability.PushBlockSlots | src/lib/booking-utils.ts:46-61 | one `forEach` callback appends the texts of that block's slots, and nothing for a block with a NaN bound |
| Availability.GenerateSlots | src/lib/booking-utils.ts:31-64 | `generateSlots` returns exactly the texts of the specified slots, block by block |
| Availability.SlotsFromComplete | src/lib/booking-utils.ts:46-59 | every grid point that fits and qualifies is emitted |
| Availability.BlockSlotsExact | src/lib/booking-utils.ts:46-60 | a block offers exactly the start times on its grid that fit, overlap nothing and pass the cutoff, in ascending order |
| Availability.AllSlotsExact | src/lib/booking-utils.ts:46-63 | a time is offered exactly when some block admits it |
| Availability.NoOverlapMember | src/lib/booking-utils.ts:52 | a window that overlaps the list overlaps none of its members |
| Availability.OfferedQualifies | src/lib/booking-utils.ts:41-55 | every offered time overlaps no blocked interval and passes the today test |
| Availability.NoConflict | src/lib/booking-utils.ts:41-52 | an offered window meets no break and no existing booking under the strict test; touching endpoints are allowed |
| Availability.KeepAfter | src/lib/booking-utils.ts:55 | keeps exactly the start times whose instant is after now |
| Availability.SlotsFromToday | src/lib/booking-utils.ts:50-59 | today's walk gives the other-day walk, filtered to after now |
| Availability.AllSlotsToday | src/lib/booking-utils.ts:46-61 | today's slots are the other-day slots filtered to after now |
| Availability.TodayFilter | src/lib/booking-utils.ts:38-55 | on the current day the offer is the other-day offer keeping only times after now; on another day nothing is filtered |
| Availability.TimesRoundTrip | src/lib/booking-utils.ts:56 | every pushed text reads back as the minute count it was made from |
| Availability.SlotTimesRoundTrip | src/lib/booking-utils.ts:56 | the offered texts and start times correspond one to one, in order, through `toMinutes` |
| AvailabilityExample.ExampleDateIsWednesday | src/lib/__tests__/booking-utils.test.ts:31 | 2024-02-07 is a Wednesday (weekday 3) |
| AvailabilityExample.ExampleBlockedIntervals | src/lib/__tests__/booking-utils.test.ts:8-29 | the break 10:30-11:00 and the 60-minute booking at 09:30 block [630, 660) and [570, 630) |
| AvailabilityExample.ExampleMinutesWalk | src/lib/__tests__/booking-utils.test.ts:8-41 | walking 09:00-12:00 for 30 minutes gives the start minutes 540, 660, 675, 690 |
| AvailabilityExample.ExampleSlotMinutes | src/lib/__tests__/booking-utils.test.ts:8-41 | the scenario's schedule on a day other than today offers those four start minutes |
| AvailabilityExample.ExampleTexts | src/lib/__tests__/booking-utils.test.ts:34-41 | those minutes render as "09:00", "11:00", "11:15", "11:30" |
| AvailabilityExample.BookingScenario | src/lib/__tests__/booking-utils.test.ts:8-41 | the test's schedule, booking and date yield exactly `["09:00","11:00","11:15","11:30"]` |
| BookingFlow.Without | src/components/Booking.tsx:519 | `filter(id => id !== drop)` keeps exactly the other ids and introduces no duplicate |
| BookingFlow.ToggleAddOn | src/components/Booking.tsx:511-520 | checking adds the id at the end only if absent; unchecking removes it; other ids are untouched; no duplicates arise |
| BookingFlow.SelectedAddOns | src/components/Booking.tsx:175-178 | the catalogue entries whose id is selected, and only those |
| BookingFlow.DurationSum | src/components/Booking.tsx:182 | the sum is non-negative when every duration is |
| BookingFlow.TotalDuration | src/components/Booking.tsx:180-184 | 0 without a service; otherwise at least the service's duration when no add-on is negative |
| BookingFlow.SelectionSum | src/components/Booking.tsx:175-184 | the add-on minutes split into those of the other ids plus those of the given id when selected |
| BookingFlow.SelectionCongruent | src/components/Booking.tsx:175-178 | the selection depends only on which ids are selected, not on their order or repetition |
| BookingFlow.ToggleChangesDuration | src/components/Booking.tsx:180-184 | checking an add-on makes the total its minutes longer than with it unchecked |
| BookingFlow.AvailableSlots | src/components/Booking.tsx:220-225 | empty unless service, stylist, date and a nonzero duration are set and the stylist works that day; then exactly the engine's slots for the found entry |
| BookingFlow.AvailableSlotsSound | src/components/Booking.tsx:220-225 | every offered text reads back as a start time the engine produced for the stylist's entry of that weekday |
| BookingFlow.ReconcileSelectedTime | src/components/Booking.tsx:227-231 | a chosen time still offered is kept, one no longer offered is cleared; the result is empty or offered |
| BookingFlow.BackStep | src/components/Booking.tsx:796 | from a later step it goes one back; from the first step or below it stays at step 0; a step on the wizard stays on the wizard |
| BookingFlow.ContinueStep | src/components/Booking.tsx:805 | below the last step it goes one forward; at the last step or beyond it stays at the last step (2); a step on the wizard stays on the wizard |
| BookingFlow.StepsInverse | src/components/Booking.tsx:796-805 | within the steps, Back undoes Continue and Continue undoes Back |
| BookingFlow.ContinueGate | src/components/Booking.tsx:806 | Continue is enabled on step 0 exactly when a service is chosen, and on step 1 exactly when a stylist, a date and a time are |
| BookingFlow.BookingWizard.constructor | src/components/Booking.tsx:95-100 | the first step, nothing chosen |
| BookingFlow.BookingWizard.Back | src/components/Booking.tsx:796 | the step goes one back, clamped at 0; the choices are unchanged |
| BookingFlow.BookingWizard.Continue | src/components/Booking.tsx:802-806 | when shown and enabled, the step goes one forward and the gate's choices are in place |
| BookingFlow.BookingWizard.SelectService | src/components/Booking.tsx:430-434 | picking a service clears add-ons, stylist, date and time |
| BookingFlow.BookingWizard.SelectStylist | src/components/Booking.tsx:566-571 | a different stylist clears the date and time; re-picking the same one keeps them |
| BookingFlow.BookingWizard.SelectDate | src/components/Booking.tsx:618-621 | picking or clearing a date clears the time |
| BookingFlow.BookingWizard.SelectTime | src/components/Booking.tsx:651 | picking a start time sets it and nothing else |
| BookingFlow.BookingWizard.SetAddOn | src/components/Booking.tsx:511-520 | the add-on list becomes the toggle's result, still without duplicates |
| BookingFlow.BookingWizard.ReconcileTime | src/components/Booking.tsx:227-231 | the chosen time is afterwards empty or offered |
| BookingFlow.BookingWizard.ResetFlow | src/components/Booking.tsx:242-250 | back to step 0 with nothing chosen |
| BookingFlow.ReconcileOptimistic | src/components/Booking.tsx:330-340 | every entry with the optimistic id is replaced in place; with none, the booking is appended at the end; other entries stay; the booking is present |
| BookingFlow.CompareText | src/components/Booking.tsx:154 | the comparison is -1, 0 or 1, and 0 exactly for equal texts |
| BookingFlow.CompareTextAntisymmetric | src/components/Booking.tsx:154 | swapping the texts negates the comparison |
| BookingFlow.CompareTextTransitive | src/components/Booking.tsx:154 | the text order is transitive |
| BookingFlow.CompareEntries | src/components/Booking.tsx:150-155 | entries are ordered by weekday, then by the first block's start ("00:00" without a block); 0 exactly when both agree |
| BookingFlow.CompareEntriesConsistent | src/components/Booking.tsx:150-155 | the comparator is antisymmetric and transitive |
| BookingFlow.InsertEntry | src/components/Booking.tsx:150-155 | inserting into a sorted schedule keeps it sorted and adds exactly that entry |
| BookingFlow.SortSchedule | src/components/Booking.tsx:150-155 | the sorted schedule is in comparator order and a rearrangement of the input |
| BookingFlow.SortedPairwise | src/components/Booking.tsx:150-155 | in a sorted schedule every entry is ordered before every later one |
| BookingFlow.LoadStylist | src/components/Booking.tsx:146-157 | a loaded stylist equals the mapped row in every field except the schedule, which holds the same entries sorted by day and start |
| BookingFlow.FoundEntryStartsEarliest | src/components/Booking.tsx:150-155 | after the sort, the entry found for a date starts no later than any other entry of that weekday |
| GalleryLightbox.NextIndex | src/components/GalleryLightbox.tsx:30-32 | `(i + 1) % n` stays in [0, n) from any i >= -1, steps forward, and wraps from the last image to 0 |
| GalleryLightbox.PreviousIndex | src/components/GalleryLightbox.tsx:34-36 | `(i - 1 + n) % n` stays in [0, n) from any i >= 1 - n, steps back, and wraps from 0 to the last image |
| GalleryLightbox.NextPreviousInverse | src/components/GalleryLightbox.tsx:30-36 | next then previous, or previous then next, restores the index |
| GalleryLightbox.AdvanceByIsShift | src/components/GalleryLightbox.tsx:30-32 | k presses of next, k <= n, move k places round the list |
| GalleryLightbox.FullCircle | src/components/GalleryLightbox.tsx:30-32 | n presses of next come back to the starting image |
| GalleryLightbox.ActionOf | src/components/GalleryLightbox.tsx:15-19 | Escape closes, ArrowLeft shows the previous image, ArrowRight the next, and only those keys |
| GalleryLightbox.Lightbox.constructor | src/components/GalleryLightbox.tsx:12 | the lightbox opens at the initial index |
| GalleryLightbox.Lightbox.Next | src/components/GalleryLightbox.tsx:30-32 | the index becomes the next one and stays in range |
| GalleryLightbox.Lightbox.Previous | src/components/GalleryLightbox.tsx:34-36 | the index becomes the previous one and stays in range |
| GalleryLightbox.Lightbox.KeyDown | src/components/GalleryLightbox.tsx:15-19 | Escape requests a close, the arrows move, other keys change nothing |
| Testimonials.MaxIndex | src/components/Testimonials.tsx:70-71 | `max(0, n - 3)`: the last first-visible index that still fills a view of three |
| Testimonials.PageMaxIndex | src/components/Testimonials.tsx:71 | with the five testimonials shown the last index is 2 |
| Testimonials.NextSlide | src/components/Testimonials.tsx:83-85 | past the last index back to 0, otherwise one further; in [0, max] exactly from indexes >= -1 |
| Testimonials.PrevSlide | src/components/Testimonials.tsx:87-89 | from 0 or below to the last index, otherwise one back; in [0, max] exactly from indexes <= max + 1 |
| Testimonials.SlidesInverse | src/components/Testimonials.tsx:83-89 | within range the arrows undo each other |
| Testimonials.SlideAfter | src/components/Testimonials.tsx:115-117 | autoplay from a valid index stays in [0, max] |
| Testimonials.SlideAfterIsShift | src/components/Testimonials.tsx:115-117 | k autoplay ticks, k <= max + 1, move k places, wrapping once |
| Testimonials.AutoplayCycles | src/components/Testimonials.tsx:113-125 | autoplay shows every view from 0 in turn and returns to the start after max + 1 ticks |
| Testimonials.Carousel.constructor | src/components/Testimonials.tsx:63-71 | index 0, autoplay on, not yet visible |
| Testimonials.Carousel.Next | src/components/Testimonials.tsx:83-85 | the index follows `nextSlide` |
| Testimonials.Carousel.Prev | src/components/Testimonials.tsx:87-89 | the index follows `prevSlide` |
| Testimonials.Carousel.GoTo | src/components/Testimonials.tsx:91-93 | the index is set as given, unclamped |
| Testimonials.Carousel.Tick | src/components/Testimonials.tsx:113-118 | a tick applies `nextSlide` only while autoplay is on and the section has been seen |
| Testimonials.Carousel.Observe | src/components/Testimonials.tsx:96-101 | once intersecting, the section stays visible |
| Testimonials.Carousel.Hover | src/components/Testimonials.tsx:244-251 | entering a card pauses autoplay, leaving resumes it |
| Testimonials.Carousel.ToggleAutoPlay | src/components/Testimonials.tsx:316 | the button flips autoplay |
| BottomSheet.SnapBound | src/components/ui/bottom-sheet.tsx:19-22 | the highest reachable snap index: the last index with two or more points, else the initial 1 |
| BottomSheet.ReleaseOutcome | src/components/ui/bottom-sheet.tsx:43-58 | a drag of more than 50 down lowers the index, or at 0 closes; more than 50 up raises it below the last; otherwise nothing changes |
| BottomSheet.ReleaseInRange | src/components/ui/bottom-sheet.tsx:43-58 | a release keeps the index within the reachable range, and within the list when it has two or more points |
| BottomSheet.Sheet.constructor | src/components/ui/bottom-sheet.tsx:19-24 | opens at snap index 1 with no drag recorded |
| BottomSheet.Sheet.TouchStart | src/components/ui/bottom-sheet.tsx:27-29 | records the drag start only |
| BottomSheet.Sheet.TouchMove | src/components/ui/bottom-sheet.tsx:31-34 | records the position only once a drag has begun |
| BottomSheet.Sheet.TouchEnd | src/components/ui/bottom-sheet.tsx:36-62 | applies the release when both positions are known, then clears both in every case |
| SwipeGesture.Abs | src/hooks/use-touch-gestures.tsx:47-48 | `Math.abs` is non-negative and is the value or its negation |
| SwipeGesture.Classify | src/hooks/use-touch-gestures.tsx:44-69 | horizontal exactly when abs(dx) > abs(dy); a direction only beyond the strict threshold; dx > 0 is left, dy > 0 is up |
| SwipeGesture.ReversedSwipe | src/hooks/use-touch-gestures.tsx:44-69 | the same movement made backwards is the opposite swipe |
| SwipeGesture.ShiftedSwipe | src/hooks/use-touch-gestures.tsx:44-45 | only the difference between the positions matters |
| SwipeGesture.Swipe.constructor | src/hooks/use-touch-gestures.tsx:19-21 | the threshold defaults to 50; no points recorded |
| SwipeGesture.Swipe.TouchStart | src/hooks/use-touch-gestures.tsx:23-29 | records the start point and clears the end point |
| SwipeGesture.Swipe.TouchMove | src/hooks/use-touch-gestures.tsx:31-39 | records the latest point |
| SwipeGesture.Swipe.TouchEnd | src/hooks/use-touch-gestures.tsx:41-73 | without both points nothing changes; otherwise at most one supplied handler fires and both points are cleared |

## Left out

- `Number(text)`:
  - Whitespace, signs, decimal points, exponents and hexadecimal forms, all of which JavaScript reads as numbers, are modelled as NaN.
  - Pieces such as "09.5" therefore differ from the browser.
- FormatTimeDisplay:
  - The model takes no date: the "h:mm a" text does not depend on the date's time of day, since `setHours` and `setMinutes` overwrite the hour and the minute; an hour or minute past its range is taken to roll over from midnight.
  - The `date-fns` formatter is modelled only for the "h:mm a" pattern.
  - An invalid date is `None`.
- Dates:
  - Time zones and daylight-saving transitions are not modelled.
  - `isSameDay`, `isAfter`, `setHours` and `getDay` are replaced by day ordinals and milliseconds of the day.
- The clock read inside `generateSlots` is the parameter `now`. `Date.now()` optimistic ids and the random confirmation code are left out.
- Network and storage are left out, because they are I/O:
  - the Supabase queries and the `create_booking` RPC;
  - react-query caching, the optimistic append in `onMutate` and the rollback in `onError`;
  - toasts and analytics.
- Minute arithmetic: JavaScript numbers are doubles, while `Number`, `toMinutes`, `minutesToTime` and the slot arithmetic are exact unbounded integers here; the two agree only below 2^53 (a piece such as "99999999999999999" rounds in the browser).
- Money and other floating point are not part of this model:
  - prices stay in integer cents: `price_cents / 100`, `totalPrice` and `formatPrice` are left out;
  - `Number(row.rating)`, for which the row's rating is carried over as an exact real.
- The customer form and its Zod validation are not part of this model.
- The `availableStylists` and `recommendedAddOns` filters are not part of this model.
- BookingFlow.CompareText: `localeCompare` is modelled as code-unit order. Locale collation agrees with it on the digit-and-colon texts of a schedule, but not on arbitrary text.
- BookingFlow.SortSchedule:
  - The engine's `sort` is modelled by a stable insertion sort.
  - The contract states order and rearrangement but not stability.
- GalleryLightbox.Lightbox.constructor: requires at least one image and an initial index in range. With no images the source computes NaN indexes.
- Testimonials.NextSlide: the range holds only from indexes >= -1, not from any index. Symmetrically, PrevSlide's range holds only from indexes <= max + 1. The carousel only reaches such indexes through `goToSlide`, whose indicators offer 0 to max.
- BottomSheet.Sheet.constructor: the initial snap index 1 is outside a one-point snap list. The invariant proved is therefore 0 <= index <= max(1, count - 1).
- BottomSheet: the snap heights and the page-scroll lock are not modelled, only the number of snap points.
- SwipeGesture.Swipe.TouchMove: `preventDefault` under `preventScroll` is not modelled.
- SwipeGesture: handlers are modelled as the set of directions supplied, and a fired handler as an entry in `fired`.
- Touch coordinates are exact reals rather than doubles.
- Timers are modelled as single steps: the testimonial autoplay interval is `Tick`, and the statistics counter animation is left out.
