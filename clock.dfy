/**
 * Wall-clock text helpers of the booking engine: "HH:MM" strings versus minutes since midnight,
 * and the 12-hour display form.
 *
 * Numbers that JavaScript would compute as NaN are `None`.
 */
module Clock {
  import opened Wrappers

  const MinutesPerHour := 60
  const MinutesPerDay := 1440

  predicate IsDigit(c: char) { '0' <= c <= '9' }

  predicate AllDigits(s: string) { forall i :: 0 <= i < |s| ==> IsDigit(s[i]) }

  function DigitValue(c: char): (d: nat)
    requires IsDigit(c)
    ensures d < 10
  {
    (c as int) - ('0' as int)
  }

  function DigitChar(d: nat): (c: char)
    requires d < 10
    ensures IsDigit(c) && DigitValue(c) == d
  {
    (('0' as int) + d) as char
  }

  lemma {:induction false} DigitCharOfValue(c: char)
    requires IsDigit(c)
    ensures DigitChar(DigitValue(c)) == c
  {
  }

  /** The value of a non-empty run of decimal digits; anything else is not a number. */
  function ParseDecimal(s: string): (r: Option<nat>)
    ensures r.Some? <==> s != [] && AllDigits(s)
  {
    if s == [] || !IsDigit(s[|s| - 1]) then None
    else if |s| == 1 then Some(DigitValue(s[0]))
    else
      match ParseDecimal(s[..|s| - 1])
      case None => None
      case Some(v) => Some(10 * v + DigitValue(s[|s| - 1]))
  }

  /** `Number(part)`: the empty string is 0, a run of digits its value, anything else NaN. */
  function NumberOf(s: string): (r: Option<nat>)
    ensures s != [] ==> r == ParseDecimal(s)
  {
    if s == [] then Some(0) else ParseDecimal(s)
  }

  /** The position of the first `c` in `s`, if any. */
  function IndexOf(s: string, c: char): (r: Option<nat>)
    ensures r.Some? ==> r.value < |s| && s[r.value] == c
  {
    if s == [] then None
    else if s[0] == c then Some(0)
    else
      match IndexOf(s[1..], c)
      case None => None
      case Some(i) => Some(i + 1)
  }

  /**
   * The first two pieces of `s.split(":")`: the text before the first colon and the text
   * between the first and the second colon (or the end); None when there is no colon.
   */
  function ClockPieces(s: string): Option<(string, string)>
  {
    match IndexOf(s, ':')
    case None => None
    case Some(i) =>
      var rest := s[i + 1..];
      match IndexOf(rest, ':')
      case None => Some((s[..i], rest))
      case Some(j) => Some((s[..i], rest[..j]))
  }

  /** `n.toString()` for a natural number: its decimal digits, without leading zeros. */
  function NatToString(n: nat): (s: string)
    ensures s != [] && AllDigits(s)
    ensures |s| == 1 <==> n < 10
  {
    if n < 10 then [DigitChar(n)] else NatToString(n / 10) + [DigitChar(n % 10)]
  }

  /** `i.toString()` for an integer. */
  function IntToString(i: int): string
  {
    if i < 0 then "-" + NatToString(-i) else NatToString(i)
  }

  /** `s.padStart(2, "0")`. */
  function PadStart2(s: string): (r: string)
    ensures |r| == if |s| >= 2 then |s| else 2
    ensures r[|r| - |s|..] == s
    ensures forall i :: 0 <= i < |r| - |s| ==> r[i] == '0'
  {
    if |s| >= 2 then s else if |s| == 1 then "0" + s else "00"
  }

  /** JavaScript's `a % b` for b > 0: the remainder takes the sign of the dividend. */
  function JsRem(a: int, b: int): (r: int)
    requires b > 0
    ensures a >= 0 ==> r == a % b
    ensures -b < r < b && (a < 0 ==> r <= 0)
  {
    if a >= 0 then a % b else -((-a) % b)
  }

  /** `toMinutes`: hours * 60 + minutes of the first two ':'-separated pieces, or NaN. */
  function ToMinutes(time: string): (r: Option<int>)
    ensures r.Some? ==> r.value >= 0
  {
    match ClockPieces(time)
    case None => None
    case Some((hoursText, minutesText)) =>
      var hours, minutes := NumberOf(hoursText), NumberOf(minutesText);
      if hours.Some? && minutes.Some? then Some(hours.value * MinutesPerHour + minutes.value) else None
  }

  /** `minutesToTime`: floor(m / 60) and m % 60, each padded to two digits, joined by ':'. */
  function MinutesToTime(minutes: int): string
  {
    PadStart2(IntToString(minutes / MinutesPerHour)) + ":" + PadStart2(IntToString(JsRem(minutes, MinutesPerHour)))
  }

  /**
   * `formatTimeDisplay(date, time)` with the "h:mm a" pattern, for a date at midnight:
   * the hour and minute overflow into later days, a NaN part makes an invalid date,
   * on which the formatter throws (None).
   */
  function FormatTimeDisplay(time: string): (r: Option<string>)
    ensures r.Some? <==> ToMinutes(time).Some?
    ensures r.Some? ==> |r.value| >= 7 && (r.value[|r.value| - 3..] == " AM" || r.value[|r.value| - 3..] == " PM")
  {
    match ToMinutes(time)
    case None => None
    case Some(total) => Some(TwelveHourText(total))
  }

  /** "h:mm a" of the time of day `total` minutes after a midnight. */
  function TwelveHourText(total: nat): (r: string)
    ensures |r| >= 7 && (r[|r| - 3..] == " AM" || r[|r| - 3..] == " PM")
  {
    var ofDay := total % MinutesPerDay;
    var hour := ofDay / MinutesPerHour;
    var hour12 := if hour % 12 == 0 then 12 else hour % 12;
    NatToString(hour12) + ":" + PadStart2(NatToString(ofDay % MinutesPerHour)) + (if hour < 12 then " AM" else " PM")
  }

  /** A canonical wall-clock text "HH:MM": two digits, a colon, two digits. */
  predicate IsClockText(t: string)
  {
    |t| == 5 && IsDigit(t[0]) && IsDigit(t[1]) && t[2] == ':' && IsDigit(t[3]) && IsDigit(t[4])
  }

  function ClockHours(t: string): nat
    requires IsClockText(t)
  {
    10 * DigitValue(t[0]) + DigitValue(t[1])
  }

  function ClockMinutes(t: string): nat
    requires IsClockText(t)
  {
    10 * DigitValue(t[3]) + DigitValue(t[4])
  }

  // ----- Lemmas -----

  lemma {:induction false} ParseNatToString(n: nat)
    ensures ParseDecimal(NatToString(n)) == Some(n)
  {
    if n >= 10 {
      var s := NatToString(n);
      assert s[..|s| - 1] == NatToString(n / 10);
      ParseNatToString(n / 10);
    }
  }

  lemma {:induction false} ParseTwoDigits(s: string)
    requires |s| == 2 && IsDigit(s[0]) && IsDigit(s[1])
    ensures ParseDecimal(s) == Some(10 * DigitValue(s[0]) + DigitValue(s[1]))
  {
    assert s[..1] == [s[0]];
  }

  lemma {:induction false} ParsePadded(n: nat)
    ensures ParseDecimal(PadStart2(NatToString(n))) == Some(n)
  {
    ParseNatToString(n);
    if n < 10 {
      ParseTwoDigits(PadStart2(NatToString(n)));
    }
  }

  lemma {:induction false} IndexOfAbsent(s: string, c: char)
    requires forall i :: 0 <= i < |s| ==> s[i] != c
    ensures IndexOf(s, c) == None
  {
    if s != [] {
      IndexOfAbsent(s[1..], c);
    }
  }

  lemma {:induction false} IndexOfAfter(a: string, c: char, b: string)
    requires forall i :: 0 <= i < |a| ==> a[i] != c
    ensures IndexOf(a + [c] + b, c) == Some(|a|)
  {
    if a != [] {
      var s := a + [c] + b;
      assert s[0] == a[0] && s[1..] == a[1..] + [c] + b;
      IndexOfAfter(a[1..], c, b);
    }
  }

  lemma {:induction false} ClockPiecesOfDigits(a: string, b: string)
    requires AllDigits(a) && AllDigits(b)
    ensures ClockPieces(a + ":" + b) == Some((a, b))
  {
    var s := a + ":" + b;
    IndexOfAfter(a, ':', b);
    assert s[..|a|] == a && s[|a| + 1..] == b;
    IndexOfAbsent(b, ':');
  }

  lemma {:induction false} ToMinutesOfClockPieces(s: string, a: string, b: string)
    requires ClockPieces(s) == Some((a, b))
    requires NumberOf(a).Some? && NumberOf(b).Some?
    ensures ToMinutes(s) == Some(NumberOf(a).value * 60 + NumberOf(b).value)
  {
  }

  lemma {:induction false} ToMinutesOfPieces(a: string, b: string)
    requires a != [] && b != [] && AllDigits(a) && AllDigits(b)
    ensures ToMinutes(a + ":" + b) == Some(ParseDecimal(a).value * 60 + ParseDecimal(b).value)
  {
    ClockPiecesOfDigits(a, b);
    assert NumberOf(a) == ParseDecimal(a) && NumberOf(b) == ParseDecimal(b);
    ToMinutesOfClockPieces(a + ":" + b, a, b);
  }

  lemma {:induction false} MinutesToTimeOfNat(m: nat)
    ensures MinutesToTime(m) == PadStart2(NatToString(m / 60)) + ":" + PadStart2(NatToString(m % 60))
  {
  }

  lemma {:induction false} PaddedDigits(n: nat)
    ensures PadStart2(NatToString(n)) != [] && AllDigits(PadStart2(NatToString(n)))
  {
    var s := NatToString(n);
    if |s| == 1 {
      assert PadStart2(s) == ['0', s[0]];
    }
  }

  lemma {:induction false} ToMinutesOfText(t: string, hs: string, ms: string, h: nat, mm: nat)
    requires hs != [] && ms != [] && AllDigits(hs) && AllDigits(ms)
    requires ParseDecimal(hs) == Some(h) && ParseDecimal(ms) == Some(mm)
    requires t == hs + ":" + ms
    ensures ToMinutes(t) == Some(h * 60 + mm)
  {
    ToMinutesOfPieces(hs, ms);
  }

  lemma {:induction false} ToMinutesOfPadded(m: nat, h: nat, mm: nat)
    requires MinutesToTime(m) == PadStart2(NatToString(h)) + ":" + PadStart2(NatToString(mm))
    ensures ToMinutes(MinutesToTime(m)) == Some(h * 60 + mm)
  {
    ParsePadded(h);
    ParsePadded(mm);
    PaddedDigits(h);
    PaddedDigits(mm);
    ToMinutesOfText(MinutesToTime(m), PadStart2(NatToString(h)), PadStart2(NatToString(mm)), h, mm);
  }

  lemma {:induction false} DivModSplit(m: nat, h: nat, mm: nat)
    requires h == m / 60 && mm == m % 60
    ensures h * 60 + mm == m
  {
  }

  lemma {:induction false} MinutesOfDivMod(m: nat, h: nat, mm: nat)
    requires h == m / 60 && mm == m % 60
    ensures ToMinutes(MinutesToTime(m)) == Some(h * 60 + mm)
  {
    MinutesToTimeOfNat(m);
    ToMinutesOfPadded(m, h, mm);
  }

  lemma {:induction false} MinutesOfDivModSum(m: nat, h: nat, mm: nat)
    requires h == m / 60 && mm == m % 60
    ensures ToMinutes(MinutesToTime(m)) == Some(m)
  {
    MinutesOfDivMod(m, h, mm);
    DivModSplit(m, h, mm);
  }

  /** minutesToTime then toMinutes gives back every non-negative minute count. */
  lemma {:induction false} MinutesRoundTrip(m: nat)
    ensures ToMinutes(MinutesToTime(m)) == Some(m)
  {
    MinutesOfDivModSum(m, m / 60, m % 60);
  }

  /** toMinutes of "HH:MM" is HH * 60 + MM. */
  lemma {:induction false} ToMinutesOfClock(t: string)
    requires IsClockText(t)
    ensures ToMinutes(t) == Some(ClockHours(t) * 60 + ClockMinutes(t))
  {
    assert t == t[..2] + ":" + t[3..];
    ParseTwoDigits(t[..2]);
    ParseTwoDigits(t[3..]);
    ToMinutesOfPieces(t[..2], t[3..]);
  }

  lemma {:induction false} PaddedTwoDigits(c0: char, c1: char, n: nat)
    requires IsDigit(c0) && IsDigit(c1) && n == 10 * DigitValue(c0) + DigitValue(c1)
    ensures PadStart2(NatToString(n)) == [c0, c1]
  {
    DigitCharOfValue(c0);
    DigitCharOfValue(c1);
    if n >= 10 {
      assert n / 10 == DigitValue(c0) && n % 10 == DigitValue(c1);
    }
  }

  lemma {:induction false} DivModOfClock(h: nat, m: nat)
    requires m < 60
    ensures (h * 60 + m) / 60 == h && (h * 60 + m) % 60 == m
  {
  }

  lemma {:induction false} MinutesToTimeOfClock(m: nat, h: nat, mm: nat)
    requires m == h * 60 + mm && mm < 60
    ensures MinutesToTime(m) == PadStart2(NatToString(h)) + ":" + PadStart2(NatToString(mm))
  {
    DivModOfClock(h, mm);
    MinutesToTimeOfNat(m);
  }

  lemma {:induction false} ClockTextJoin(t: string, hs: string, ms: string)
    requires IsClockText(t) && hs == [t[0], t[1]] && ms == [t[3], t[4]]
    ensures hs + ":" + ms == t
  {
  }

  lemma {:induction false} PaddedHours(t: string, hs: string)
    requires IsClockText(t) && hs == PadStart2(NatToString(ClockHours(t)))
    ensures hs == [t[0], t[1]]
  {
    PaddedTwoDigits(t[0], t[1], ClockHours(t));
  }

  lemma {:induction false} PaddedMinutes(t: string, ms: string)
    requires IsClockText(t) && ms == PadStart2(NatToString(ClockMinutes(t)))
    ensures ms == [t[3], t[4]]
  {
    PaddedTwoDigits(t[3], t[4], ClockMinutes(t));
  }

  lemma {:induction false} ClockTextOfParts(t: string)
    requires IsClockText(t)
    ensures PadStart2(NatToString(ClockHours(t))) + ":" + PadStart2(NatToString(ClockMinutes(t))) == t
  {
    var hs, ms := PadStart2(NatToString(ClockHours(t))), PadStart2(NatToString(ClockMinutes(t)));
    PaddedHours(t, hs);
    PaddedMinutes(t, ms);
    ClockTextJoin(t, hs, ms);
  }

  lemma {:induction false} MinutesToTimeOfClockText(t: string, m: nat, h: nat, mm: nat)
    requires IsClockText(t) && mm < 60
    requires h == ClockHours(t) && mm == ClockMinutes(t) && m == h * 60 + mm
    ensures MinutesToTime(m) == t
  {
    MinutesToTimeOfClock(m, h, mm);
    ClockTextOfParts(t);
  }

  /**
   * A canonical "HH:MM" with MM < 60 survives toMinutes then minutesToTime: minutesToTime turns
   * the minute count toMinutes gives back into the same text.
   */
  lemma {:induction false} ClockRoundTrip(t: string, m: nat)
    requires IsClockText(t) && ClockMinutes(t) < 60 && ToMinutes(t) == Some(m)
    ensures MinutesToTime(m) == t
  {
    var h, mm := ClockHours(t), ClockMinutes(t);
    ToMinutesOfClock(t);
    MinutesToTimeOfClockText(t, m, h, mm);
  }

  lemma {:induction false} TwoDigitText(n: nat)
    requires 10 <= n < 100
    ensures NatToString(n) == [DigitChar(n / 10), DigitChar(n % 10)]
  {
  }

  lemma {:induction false} DayParts(total: nat, h: nat, mm: nat)
    requires total == h * 60 + mm && h < 24 && mm < 60
    ensures total % 1440 == total && total / 60 == h && total % 60 == mm
  {
  }

  /** An afternoon time from 13:10 to 21:59 shows its hour minus twelve, its two minute digits and "PM". */
  lemma {:induction false} AfternoonText(total: nat, h: nat, mm: nat)
    requires total == h * 60 + mm && 13 <= h < 22 && 10 <= mm < 60
    ensures TwelveHourText(total) == [DigitChar(h - 12)] + ":" + [DigitChar(mm / 10), DigitChar(mm % 10)] + " PM"
  {
    DayParts(total, h, mm);
    TwoDigitText(mm);
  }

  lemma {:induction false} DigitChars()
    ensures DigitChar(1) == '1' && DigitChar(4) == '4' && DigitChar(5) == '5'
  {
  }

  lemma {:induction false} TwelveHour825(total: nat, h: nat, mm: nat)
    requires total == 825 && h == 13 && mm == 45
    ensures TwelveHourText(total) == "1:45 PM"
  {
    AfternoonText(total, h, mm);
    assert h - 12 == 1 && mm / 10 == 4 && mm % 10 == 5;
    DigitChars();
  }

  lemma {:induction false} FormatOfMinutes(time: string, total: nat)
    requires ToMinutes(time) == Some(total)
    ensures FormatTimeDisplay(time) == Some(TwelveHourText(total))
  {
  }

  lemma {:induction false} MinutesOf1345(time: string)
    requires time == "13:45"
    ensures ToMinutes(time) == Some(825)
  {
    ToMinutesOfClock(time);
  }

  /** The formatted text the display helper is pinned to: 13:45 shows as 1:45 PM. */
  lemma {:induction false} AfternoonDisplay(time: string)
    requires time == "13:45"
    ensures FormatTimeDisplay(time) == Some("1:45 PM")
  {
    MinutesOf1345(time);
    FormatOfMinutes(time, 825);
    TwelveHour825(825, 13, 45);
  }
}
