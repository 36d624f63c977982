/**
 * The figures the history screen prints: its own duration format (hours
 * and minutes, never seconds), the minutes-and-seconds clock on each
 * history card, and the singular/plural suffix of "round" and "workout".
 */
module HistoryScreen {
  import opened Wrappers
  import opened KotlinInt

  /** The two shapes of the screen's duration: "Hh Mm" and "Mm". */
  datatype ShortDuration = HoursMinutes(hours: int, minutes: int) | MinutesOnly(minutes: int)

  /**
   * `formatDuration` of the history screen: hours and leftover minutes
   * from an hour on, otherwise whole minutes, so "0m" under a minute. With
   * Kotlin's truncating division the minutes lie strictly between -60 and
   * 60, and between 0 and 59 for a non-negative total.
   */
  function FormatDuration(totalSeconds: int): (d: ShortDuration)
    ensures d.HoursMinutes? <==> totalSeconds >= 3600
    ensures -60 < d.minutes < 60
    ensures totalSeconds >= 0 ==> 0 <= d.minutes <= 59
    ensures d.HoursMinutes? ==>
      (&& d.hours >= 1
       && d.hours * 3600 + d.minutes * 60 <= totalSeconds < d.hours * 3600 + d.minutes * 60 + 60)
    ensures 0 <= totalSeconds < 3600 ==> d.minutes * 60 <= totalSeconds < d.minutes * 60 + 60
    ensures 0 <= totalSeconds < 60 ==> d == MinutesOnly(0)
  {
    var hours := Quot(totalSeconds, 3600);
    var rest := Rem(totalSeconds, 3600);
    var minutes := Quot(rest, 60);
    MinutesOfHourBounded(totalSeconds);
    assert rest >= 0 ==> minutes * 60 <= rest < minutes * 60 + 60;
    if hours > 0 then HoursMinutes(hours, minutes) else MinutesOnly(minutes)
  }

  function DurationString(d: ShortDuration): string {
    match d
    case HoursMinutes(h, m) => IntToString(h) + "h " + IntToString(m) + "m"
    case MinutesOnly(m) => IntToString(m) + "m"
  }

  /** The history card's minutes and seconds, `s / 60` and `s % 60`. */
  function CardTime(totalDurationSeconds: int): (t: (int, int))
    ensures t.0 * 60 + t.1 == totalDurationSeconds
    ensures totalDurationSeconds >= 0 ==> t.0 >= 0 && 0 <= t.1 < 60
  {
    (Quot(totalDurationSeconds, 60), Rem(totalDurationSeconds, 60))
  }

  /** `"%02d"`: a leading zero for one digit. */
  function TwoDigits(n: int): string {
    if 0 <= n < 10 then "0" + IntToString(n) else IntToString(n)
  }

  /** `"%d:%02d".format(minutes, seconds)`. */
  function ClockText(totalDurationSeconds: int): string {
    var t := CardTime(totalDurationSeconds);
    IntToString(t.0) + ":" + TwoDigits(t.1)
  }

  /** Two digits that read back as the number, for 0 to 59. */
  lemma TwoDigitsReadBack(n: int)
    requires 0 <= n < 60
    ensures |TwoDigits(n)| == 2
    ensures ToIntOrNull(TwoDigits(n)) == Some(n)
  {
    var d := TwoDigits(n);
    if n < 10 {
      assert NatToString(n) == [DigitChar(n)];
      assert d == ['0', DigitChar(n)];
    } else {
      assert NatToString(n / 10) == [DigitChar(n / 10)];
      assert d == [DigitChar(n / 10), DigitChar(n % 10)];
    }
    assert d[..1] == [d[0]];
    assert d[..1][..0] == [];
    assert DigitsValue(d) == DigitsValue(d[..1]) * 10 + (d[1] as int - '0' as int);
  }

  /** For a non-negative `Int` duration the clock has the minutes, a colon
      and exactly two digits, and both numbers read back. */
  lemma ClockTextReadsBack(totalDurationSeconds: int)
    requires 0 <= totalDurationSeconds <= INT_MAX
    ensures var text := ClockText(totalDurationSeconds);
      var t := CardTime(totalDurationSeconds);
      && |text| == |IntToString(t.0)| + 3
      && text[|text| - 3] == ':'
      && ToIntOrNull(text[|text| - 2..]) == Some(t.1)
      && ToIntOrNull(text[..|text| - 3]) == Some(t.0)
  {
    var t := CardTime(totalDurationSeconds);
    var text := ClockText(totalDurationSeconds);
    TwoDigitsReadBack(t.1);
    assert text[|text| - 2..] == TwoDigits(t.1);
    assert text[..|text| - 3] == IntToString(t.0);
    ToIntOrNullOfIntToString(t.0);
  }

  /** The plural suffix: "s" unless the count is exactly one. */
  function PluralSuffix(count: int): (s: string)
    ensures s == "" <==> count == 1
    ensures s != "" ==> s == "s"
  {
    if count != 1 then "s" else ""
  }

  /** "N round" or "N rounds", used by the history and monthly cards. */
  function RoundsLabel(rounds: int): string {
    IntToString(rounds) + " round" + PluralSuffix(rounds)
  }
}
