/**
 * The daily calendar: per-day totals of time spent in each process and the
 * focus sessions started that day, filed under a "YYYY-MM-DD" key. The
 * current time is a parameter of `AddActivity`.
 */
module Calendars {
  import opened Common
  import opened Decimal

  /** A UTC timestamp broken into its calendar fields (chrono's `DateTime<Utc>`). */
  datatype Instant = Instant(year: int, month: int, day: int, secondOfDay: int)

  predicate IsLeapYear(year: int) {
    year % 4 == 0 && (year % 100 != 0 || year % 400 == 0)
  }

  function DaysInMonth(year: int, month: int): int {
    if month == 2 then (if IsLeapYear(year) then 29 else 28)
    else if month == 4 || month == 6 || month == 9 || month == 11 then 30
    else 31
  }

  predicate IsValidInstant(t: Instant) {
    1 <= t.month <= 12 && 1 <= t.day <= DaysInMonth(t.year, t.month) && 0 <= t.secondOfDay < 86400
  }

  /** A timestamp chrono can represent: a real day of the proleptic Gregorian calendar. */
  type DateTime = t: Instant | IsValidInstant(t) witness Instant(1970, 1, 1, 0)

  /** The day a timestamp falls on. */
  datatype Day = Day(year: int, month: int, day: int)

  function DayOf(t: DateTime): Day {
    Day(t.year, t.month, t.day)
  }

  /** `FocusSessionSummary`; `duration` in seconds. */
  datatype FocusSessionSummary = FocusSessionSummary(startTime: DateTime, duration: int, musicUsed: bool)

  /** `DailyActivity`; durations in seconds. */
  datatype DailyActivity = DailyActivity(
    date: DateTime,
    processDurations: map<string, int>,
    focusSessions: seq<FocusSessionSummary>)

  type Activities = map<string, DailyActivity>

  /** `format!("{}-{:02}-{:02}", year, month, day)`. */
  function DateKey(t: DateTime): string {
    IntToDecimal(t.year) + "-" + Pad2(t.month) + "-" + Pad2(t.day)
  }

  /** Reads a date key back into the day it names. */
  function ParseDateKey(key: string): Option<Day> {
    if |key| >= 1 && key[0] == '-' then
      match ParseDayFields(key[1..])
      case Some(d) => Some(d.(year := -d.year))
      case None => None
    else ParseDayFields(key)
  }

  function ParseDayFields(s: string): Option<Day> {
    var fields := Split(s, '-');
    if |fields| == 3 && IsField(fields[0]) && IsField(fields[1]) && IsField(fields[2]) then
      Some(Day(DecimalValue(fields[0]), DecimalValue(fields[1]), DecimalValue(fields[2])))
    else None
  }

  /** The key of a timestamp reads back as the day it falls on. */
  lemma DateKeyRoundTrip(t: DateTime)
    ensures ParseDateKey(DateKey(t)) == Some(DayOf(t))
  {
    var y := IntToDecimal(t.year);
    var m := Pad2(t.month);
    var d := Pad2(t.day);
    IntToDecimalReadsBack(t.year);
    Pad2ReadsBack(t.month);
    Pad2ReadsBack(t.day);
    DigitsExcludeSeparator(m, '-');
    DigitsExcludeSeparator(d, '-');
    var key := DateKey(t);
    if t.year < 0 {
      var magnitude := y[1..];
      DigitsExcludeSeparator(magnitude, '-');
      assert key[1..] == magnitude + "-" + m + "-" + d;
      SplitThree(magnitude, m, d, '-');
    } else {
      DigitsExcludeSeparator(y, '-');
      SplitThree(y, m, d, '-');
    }
  }

  /** Two timestamps share a key exactly when they fall on the same day. */
  lemma DateKeyInjective(a: DateTime, b: DateTime)
    ensures DateKey(a) == DateKey(b) <==> DayOf(a) == DayOf(b)
  {
    DateKeyRoundTrip(a);
    DateKeyRoundTrip(b);
  }

  /** Every day is filed under the key of its own date. */
  ghost predicate KeysMatchDates(acts: Activities) {
    forall k {:trigger DateKey(acts[k].date)} :: k in acts ==> DateKey(acts[k].date) == k
  }

  function EmptyDay(date: DateTime): DailyActivity {
    DailyActivity(date, map[], [])
  }

  /** `entry(key).or_insert(...)`: the day filed under `date`'s key, or a fresh empty one dated `date`. */
  function DayEntry(acts: Activities, date: DateTime): DailyActivity {
    var key := DateKey(date);
    if key in acts then acts[key] else EmptyDay(date)
  }

  /** `entry(process).or_insert(Duration::zero())`: the process's total so far, or zero. */
  function DurationOf(day: DailyActivity, process: string): int {
    if process in day.processDurations then day.processDurations[process] else 0
  }

  /** The calendar after `add_activity(process, duration)` at time `today`. */
  function WithActivity(acts: Activities, today: DateTime, process: string, duration: int): Activities {
    var day := DayEntry(acts, today);
    acts[DateKey(today) := day.(processDurations := day.processDurations[process := DurationOf(day, process) + duration])]
  }

  /** The calendar after `add_focus_session(session)`. */
  function WithSession(acts: Activities, session: FocusSessionSummary): Activities {
    var day := DayEntry(acts, session.startTime);
    acts[DateKey(session.startTime) := day.(focusSessions := day.focusSessions + [session])]
  }

  /** `get_activity_for_date(date)`. */
  function Lookup(acts: Activities, date: DateTime): (r: Option<DailyActivity>)
    requires KeysMatchDates(acts)
    ensures r.Some? ==> DayOf(r.value.date) == DayOf(date)
  {
    var key := DateKey(date);
    if key in acts then
      DateKeyInjective(acts[key].date, date);
      Some(acts[key])
    else None
  }

  /** `add_activity` keeps every day filed under the key of its own date. */
  lemma WithActivityKeepsKeysMatchingDates(acts: Activities, today: DateTime, process: string, duration: int)
    requires KeysMatchDates(acts)
    ensures KeysMatchDates(WithActivity(acts, today, process, duration))
  {
  }

  /** `add_focus_session` keeps every day filed under the key of its own date. */
  lemma WithSessionKeepsKeysMatchingDates(acts: Activities, session: FocusSessionSummary)
    requires KeysMatchDates(acts)
    ensures KeysMatchDates(WithSession(acts, session))
  {
  }

  /**
   * `add_activity` adds `duration` to the day's total for `process`,
   * starting from zero; the day's other processes, sessions and date are
   * untouched, and a missing day is created empty with date `today`.
   */
  lemma WithActivityToday(acts: Activities, today: DateTime, process: string, duration: int)
    requires KeysMatchDates(acts)
    ensures KeysMatchDates(WithActivity(acts, today, process, duration))
    ensures var before := DayEntry(acts, today);
      var after := Lookup(WithActivity(acts, today, process, duration), today);
      && after.Some?
      && DurationOf(after.value, process) == DurationOf(before, process) + duration
      && after.value.processDurations.Keys == before.processDurations.Keys + {process}
      && (forall p :: p in before.processDurations && p != process ==>
            after.value.processDurations[p] == before.processDurations[p])
      && after.value.focusSessions == before.focusSessions
      && after.value.date == (if Lookup(acts, today).Some? then Lookup(acts, today).value.date else today)
  {
  }

  /** `add_activity` leaves every other day unchanged. */
  lemma WithActivityOtherDays(acts: Activities, today: DateTime, process: string, duration: int, other: DateTime)
    requires KeysMatchDates(acts) && DayOf(other) != DayOf(today)
    ensures KeysMatchDates(WithActivity(acts, today, process, duration))
    ensures Lookup(WithActivity(acts, today, process, duration), other) == Lookup(acts, other)
  {
    WithActivityKeepsKeysMatchingDates(acts, today, process, duration);
    DateKeyInjective(today, other);
  }

  /**
   * `add_focus_session` appends the session as the last of its start day's
   * sessions, leaves that day's process totals and date alone, and creates
   * a missing day empty with the session's start as its date.
   */
  lemma WithSessionOnItsDay(acts: Activities, session: FocusSessionSummary)
    requires KeysMatchDates(acts)
    ensures KeysMatchDates(WithSession(acts, session))
    ensures var before := DayEntry(acts, session.startTime);
      var after := Lookup(WithSession(acts, session), session.startTime);
      && after.Some?
      && after.value.focusSessions == before.focusSessions + [session]
      && after.value.processDurations == before.processDurations
      && after.value.date
           == (if Lookup(acts, session.startTime).Some? then Lookup(acts, session.startTime).value.date
               else session.startTime)
  {
  }

  /** `add_focus_session` leaves every other day unchanged. */
  lemma WithSessionOtherDays(acts: Activities, session: FocusSessionSummary, other: DateTime)
    requires KeysMatchDates(acts) && DayOf(other) != DayOf(session.startTime)
    ensures KeysMatchDates(WithSession(acts, session))
    ensures Lookup(WithSession(acts, session), other) == Lookup(acts, other)
  {
    WithSessionKeepsKeysMatchingDates(acts, session);
    DateKeyInjective(session.startTime, other);
  }

  /** Any timestamp on the session's start day finds the session last in that day's list. */
  lemma SessionFoundOnItsDay(acts: Activities, session: FocusSessionSummary, date: DateTime)
    requires KeysMatchDates(acts) && DayOf(date) == DayOf(session.startTime)
    ensures KeysMatchDates(WithSession(acts, session))
    ensures var after := Lookup(WithSession(acts, session), date);
      after.Some? && after.value.focusSessions != []
      && after.value.focusSessions[|after.value.focusSessions| - 1] == session
  {
  }

  /** `Calendar`: the days recorded so far. */
  class Calendar {
    var activities: Activities

    ghost predicate Valid()
      reads this
    {
      KeysMatchDates(activities)
    }

    /** `Calendar::new`. */
    constructor ()
      ensures Valid() && activities == map[]
    {
      activities := map[];
    }

    /** `add_activity(process_name, duration)`, with `today` the clock's reading. */
    method AddActivity(today: DateTime, processName: string, duration: int) returns (r: Outcome)
      requires Valid()
      modifies this
      ensures Valid()
      ensures activities == WithActivity(old(activities), today, processName, duration)
      ensures r == Ok
    {
      var dateKey := DateKey(today);
      var activity := DayEntry(activities, today);
      var total := DurationOf(activity, processName);
      activity := activity.(processDurations := activity.processDurations[processName := total + duration]);
      activities := activities[dateKey := activity];
      r := Ok;
      WithActivityKeepsKeysMatchingDates(old(activities), today, processName, duration);
    }

    /** `add_focus_session(session)`. */
    method AddFocusSession(session: FocusSessionSummary) returns (r: Outcome)
      requires Valid()
      modifies this
      ensures Valid()
      ensures activities == WithSession(old(activities), session)
      ensures r == Ok
    {
      var dateKey := DateKey(session.startTime);
      var activity := DayEntry(activities, session.startTime);
      activity := activity.(focusSessions := activity.focusSessions + [session]);
      activities := activities[dateKey := activity];
      r := Ok;
      WithSessionKeepsKeysMatchingDates(old(activities), session);
    }

    /** `get_activity_for_date(date)`: the day `date` falls on, if recorded; changes nothing. */
    method GetActivityForDate(date: DateTime) returns (r: Option<DailyActivity>)
      requires Valid()
      ensures r == Lookup(activities, date)
      ensures r.Some? ==> DayOf(r.value.date) == DayOf(date)
      ensures r.None? <==> forall k :: k in activities ==> DayOf(activities[k].date) != DayOf(date)
    {
      var dateKey := DateKey(date);
      if dateKey in activities {
        r := Some(activities[dateKey]);
      } else {
        r := None;
      }
      forall k | k in activities
        ensures DayOf(activities[k].date) == DayOf(date) ==> k == dateKey
      {
        DateKeyInjective(activities[k].date, date);
      }
    }
  }
}
