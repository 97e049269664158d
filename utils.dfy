/**
 * `format_duration`: a signed number of seconds rendered as a wall-clock
 * reading, "HH:MM:SS" from one hour up and "MM:SS" below.
 */
module Utils {
  import opened Common
  import opened Decimal

  /** Rust's `/` on `i64`: the quotient is truncated toward zero. */
  function TruncDiv(a: int, b: int): (q: int)
    requires b > 0
    ensures a >= 0 ==> q == a / b
    ensures a < 0 ==> q <= 0
  {
    if a >= 0 then a / b else -((-a) / b)
  }

  /** Rust's `%` on `i64`: the remainder takes the sign of the dividend. */
  function TruncRem(a: int, b: int): (r: int)
    requires b > 0
    ensures a >= 0 ==> r == a % b
    ensures a < 0 ==> -b < r <= 0
  {
    a - b * TruncDiv(a, b)
  }

  /** The three fields `format_duration` prints. */
  datatype Clock = Clock(hours: int, minutes: int, seconds: int)

  /**
   * `num_hours()`, `num_minutes() % 60` and `num_seconds() % 60` of a
   * duration of `total` whole seconds.
   */
  function ClockOf(total: int): (c: Clock)
    ensures c.hours > 0 <==> total >= 3600
    ensures total >= 0 ==> c.hours >= 0 && 0 <= c.minutes < 60 && 0 <= c.seconds < 60
    ensures total >= 0 ==> c.hours * 3600 + c.minutes * 60 + c.seconds == total
    ensures total < 0 ==> c.hours <= 0 && -60 < c.minutes <= 0 && -60 < c.seconds <= 0
  {
    var totalMinutes := TruncDiv(total, 60);
    assert total >= 0 ==> totalMinutes / 60 == total / 3600;
    Clock(TruncDiv(total, 3600), TruncRem(totalMinutes, 60), TruncRem(total, 60))
  }

  /** `format_duration(Duration::seconds(total))`. */
  function FormatDuration(total: int): string
  {
    var c := ClockOf(total);
    if c.hours > 0 then Pad2(c.hours) + ":" + Pad2(c.minutes) + ":" + Pad2(c.seconds)
    else Pad2(c.minutes) + ":" + Pad2(c.seconds)
  }

  /** Reads "H..:MM:SS" or "M..:SS" back into a number of seconds. */
  function ParseClock(text: string): Option<int>
  {
    var fields := Split(text, ':');
    if |fields| == 3 && IsField(fields[0]) && IsField(fields[1]) && IsField(fields[2]) then
      Some(DecimalValue(fields[0]) * 3600 + DecimalValue(fields[1]) * 60 + DecimalValue(fields[2]))
    else if |fields| == 2 && IsField(fields[0]) && IsField(fields[1]) then
      Some(DecimalValue(fields[0]) * 60 + DecimalValue(fields[1]))
    else None
  }

  /**
   * For a non-negative duration the text has three colon-separated digit
   * fields exactly from one hour up and two below; the hours field has at
   * least two digits and the minutes and seconds fields exactly two.
   */
  lemma FormatDurationShape(total: int)
    requires total >= 0
    ensures var fields := Split(FormatDuration(total), ':');
      && (total >= 3600 ==> |fields| == 3 && |fields[0]| >= 2)
      && (total < 3600 ==> |fields| == 2 && |FormatDuration(total)| == 5)
      && (forall i :: 0 <= i < |fields| ==> IsField(fields[i]))
      && |fields[|fields| - 1]| == 2 && |fields[|fields| - 2]| == 2
  {
    FormatDurationFields(total);
  }

  /** Reading the formatted text back gives the number of seconds formatted. */
  lemma FormatDurationRoundTrip(total: int)
    requires total >= 0
    ensures ParseClock(FormatDuration(total)) == Some(total)
  {
    var c := ClockOf(total);
    Pad2ReadsBack(c.hours);
    Pad2ReadsBack(c.minutes);
    Pad2ReadsBack(c.seconds);
    FormatDurationFields(total);
  }

  /** The fields of the formatted text are the padded clock fields. */
  lemma FormatDurationFields(total: int)
    requires total >= 0
    ensures var c := ClockOf(total);
      Split(FormatDuration(total), ':')
        == if c.hours > 0 then [Pad2(c.hours), Pad2(c.minutes), Pad2(c.seconds)]
           else [Pad2(c.minutes), Pad2(c.seconds)]
  {
    var c := ClockOf(total);
    Pad2ReadsBack(c.hours);
    Pad2ReadsBack(c.minutes);
    Pad2ReadsBack(c.seconds);
    DigitsExcludeSeparator(Pad2(c.hours), ':');
    DigitsExcludeSeparator(Pad2(c.minutes), ':');
    DigitsExcludeSeparator(Pad2(c.seconds), ':');
    if c.hours > 0 {
      SplitThree(Pad2(c.hours), Pad2(c.minutes), Pad2(c.seconds), ':');
    } else {
      SplitTwo(Pad2(c.minutes), Pad2(c.seconds), ':');
    }
  }
}
