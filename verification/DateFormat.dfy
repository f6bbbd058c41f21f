/**
 * The value the page writes into a `datetime-local` input: `YYYY-MM-DDTHH:mm`
 * built from a date's local calendar fields.
 */
module DateFormat {
  import opened Wrappers
  import opened Decimal

  /** The local-time getters of a JavaScript Date: `getFullYear`, `getMonth` (0-based), `getDate`, `getHours`, `getMinutes`. */
  datatype LocalDateTime = LocalDateTime(year: int, monthIndex: nat, day: nat, hours: nat, minutes: nat)

  /** The ranges a Date's getters always stay within. */
  predicate InRange(d: LocalDateTime)
  {
    d.monthIndex < 12 && 1 <= d.day <= 31 && d.hours < 24 && d.minutes < 60
  }

  /** `String(n).padStart(2, "0")` for the values a Date's getters give: two digits that read back as `n`. */
  function TwoDigits(n: nat): (s: string)
    requires n < 100
    ensures |s| == 2 && AllDigits(s) && ValueOf(s) == n
  {
    var t := NatToString(n);
    NatToStringRoundTrip(n);
    if n < 10 then
      assert PadStart(t, 2, '0') == ['0'] + t;
      assert ValueOf(PadStart(t, 2, '0')[..1]) == 0;
      PadStart(t, 2, '0')
    else
      assert |t| == 2 by {
        assert t == NatToString(n / 10) + [DigitChar(n % 10)];
      }
      PadStart(t, 2, '0')
  }

  /**
   * `formatDateTimeLocal`: the year's numeral, then `-MM-DDTHH:mm` with each
   * two-digit field holding the 1-based month, the day, the hours and the minutes.
   */
  function FormatDateTimeLocal(d: LocalDateTime): (s: string)
    requires InRange(d)
    ensures var y := IntToString(d.year); var n := |y|;
      && |s| == n + 12 && s[..n] == y
      && s[n] == '-' && s[n + 3] == '-' && s[n + 6] == 'T' && s[n + 9] == ':'
      && Field(s[n + 1..n + 3]) == Some(d.monthIndex + 1) && Field(s[n + 4..n + 6]) == Some(d.day)
      && Field(s[n + 7..n + 9]) == Some(d.hours) && Field(s[n + 10..]) == Some(d.minutes)
  {
    var y, t := IntToString(d.year), TimeSuffix(d);
    var n := |y|;
    SuffixFields(d);
    SliceAfterPrefix(y, t, 0, 1);
    SliceAfterPrefix(y, t, 1, 3);
    SliceAfterPrefix(y, t, 3, 4);
    SliceAfterPrefix(y, t, 4, 6);
    SliceAfterPrefix(y, t, 6, 7);
    SliceAfterPrefix(y, t, 7, 9);
    SliceAfterPrefix(y, t, 9, 10);
    SliceAfterPrefix(y, t, 10, 12);
    assert (y + t)[..n] == y;
    y + t
  }

  /** Reads a two-digit field. */
  function Field(s: string): Option<nat>
  {
    if |s| == 2 && AllDigits(s) then Some(ValueOf(s)) else None
  }

  /** The twelve characters after the year: `-MM-DDTHH:mm`. */
  function TimeSuffix(d: LocalDateTime): (t: string)
    requires InRange(d)
    ensures |t| == 12
  {
    "-" + TwoDigits(d.monthIndex + 1) + "-" + TwoDigits(d.day) + "T" + TwoDigits(d.hours) + ":" + TwoDigits(d.minutes)
  }

  /** Reads `-MM-DDTHH:mm` into the month, day, hour and minute fields of a date in `year`. */
  function ParseTimeSuffix(year: int, t: string): Option<LocalDateTime>
  {
    if |t| != 12 || t[0] != '-' || t[3] != '-' || t[6] != 'T' || t[9] != ':' then None
    else
      var month, day, hours, minutes := Field(t[1..3]), Field(t[4..6]), Field(t[7..9]), Field(t[10..]);
      if month.Some? && day.Some? && hours.Some? && minutes.Some? && month.value >= 1 then
        var d := LocalDateTime(year, month.value - 1, day.value, hours.value, minutes.value);
        if InRange(d) then Some(d) else None
      else None
  }

  /** Reads `YYYY-MM-DDTHH:mm` back into calendar fields; the year is whatever precedes the last twelve characters. */
  function ParseDateTimeLocal(s: string): Option<LocalDateTime>
  {
    if |s| < 13 then None
    else
      match ParseInt(s[..|s| - 12])
      case None => None
      case Some(year) => ParseTimeSuffix(year, s[|s| - 12..])
  }

  lemma SuffixLayout(mo: string, da: string, h: string, mi: string)
    requires |mo| == 2 && |da| == 2 && |h| == 2 && |mi| == 2
    ensures var t := "-" + mo + "-" + da + "T" + h + ":" + mi;
      && |t| == 12 && t[0] == '-' && t[3] == '-' && t[6] == 'T' && t[9] == ':'
      && t[1..3] == mo && t[4..6] == da && t[7..9] == h && t[10..] == mi
  {
  }

  /** The separators and the four fields of the `-MM-DDTHH:mm` tail. */
  lemma SuffixFields(d: LocalDateTime)
    requires InRange(d)
    ensures var t := TimeSuffix(d);
      && t[0] == '-' && t[3] == '-' && t[6] == 'T' && t[9] == ':'
      && Field(t[1..3]) == Some(d.monthIndex + 1) && Field(t[4..6]) == Some(d.day)
      && Field(t[7..9]) == Some(d.hours) && Field(t[10..]) == Some(d.minutes)
  {
    SuffixLayout(TwoDigits(d.monthIndex + 1), TwoDigits(d.day), TwoDigits(d.hours), TwoDigits(d.minutes));
  }

  lemma SliceAfterPrefix(y: string, t: string, i: nat, j: nat)
    requires i <= j <= |t|
    ensures (y + t)[|y| + i..|y| + j] == t[i..j]
  {
  }

  lemma {:induction false} TimeSuffixRoundTrip(d: LocalDateTime)
    requires InRange(d)
    ensures ParseTimeSuffix(d.year, TimeSuffix(d)) == Some(d)
  {
    SuffixFields(d);
  }

  /** The formatted value is the year's numeral followed by twelve characters, and it reads back to the same fields. */
  lemma {:induction false} FormatRoundTrip(d: LocalDateTime)
    requires InRange(d)
    ensures |FormatDateTimeLocal(d)| == |IntToString(d.year)| + 12
    ensures ParseDateTimeLocal(FormatDateTimeLocal(d)) == Some(d)
  {
    var y, t := IntToString(d.year), TimeSuffix(d);
    TimeSuffixRoundTrip(d);
    IntToStringRoundTrip(d.year);
    var s := FormatDateTimeLocal(d);
    assert s[..|s| - 12] == y;
    assert s[|s| - 12..] == t;
  }
}
