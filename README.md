# Focus tracker core, modelled in Dafny

This project models the bookkeeping core of a desktop productivity tracker:

- **Process tracker.** Each poll reports which application has focus and the title of its window. The tracker reconciles that sample into a ledger: one `AppInfo` per application name, holding its accumulated focus time, its last window title and whether it is the focused one now.
- **Daily calendar.** It files per-process time totals and finished focus sessions under a `"YYYY-MM-DD"` key.
- **Focus mode.** It holds at most one running focus session and a music playlist.
- **`format_duration`.** It renders seconds as `HH:MM:SS` or `MM:SS`.

Files:

- `common.dfy`: `Option` and `Outcome`, the model of the `anyhow::Result<()>` the operations return.
- `decimal.dfy`: how Rust's `{}` and `{:02}` write integers, and the digit parser used to state round trips.
- `utils.dfy`: `format_duration`.
- `process_tracker.dfy`: the ledger, `update`, and runs of several polls.
- `calendar.dfy`: the calendar, its date keys and its two update operations.
- `focus_mode.dfy`: focus sessions and the playlist.

Each mutating Rust type is a Dafny `class` with the same fields. Its methods are proved against a value-level specification function:

- `Polled` specifies `ProcessTracker::update`.
- `WithActivity` specifies `add_activity` and `WithSession` specifies `add_focus_session`.
- `Step` specifies the `FocusMode` operations.

Lemmas state what the source promises about those functions.

The `iter_mut` loop of `update` is a `while` loop, `ReconcileAll`. It visits the entries in an arbitrary order, as a `HashMap` does, and is proved to give the same ledger whatever the order.

Timestamps in the tracker and in focus mode are whole seconds. The calendar needs the year, month and day of a timestamp, so it uses a `DateTime` type: a valid proleptic-Gregorian day plus a second of the day. All durations are whole seconds.

## Where the code and the design description differ

The model follows `src/process_tracker.rs` as written. In four places the tracker's design description says otherwise:

- The design clamps the elapsed time to zero when the clock goes backwards. The code does not clamp (line 45). `PolledClockBackShrinks` shows that the focused entry's duration then decreases. `PolledDurationsGrow` holds only when `lastUpdate <= now`.
- The design credits a newly seen application with the elapsed time of the poll that creates it. The code inserts it with duration 0 (lines 64-77). In the design's own Editor/Browser scenario, "Browser" therefore ends with 0 seconds, not 10 (`EditorThenBrowser`).
- The design derives an application's identity from its window title when no class name is available, and mirrors window state flags into the ledger. The code has no such derivation and no such flags. The focused name is whatever the OS query returned.
- The design speaks of several detector variants. In the code, detection is a single function, `get_focused_app`, and its result is a parameter here.

## Model

| member | source | states |
|---|---|---|
| `ProcessTracking.PolledActiveIffFocused` | src/process_tracker.rs:52-53 | after a poll, an entry is active exactly when its key is the focused name, so at most one entry is active |
| `ProcessTracking.PolledExistingEntry` | src/process_tracker.rs:52-61 | an existing entry gains exactly the elapsed time when focused and nothing otherwise; its name and start time are kept; its title is replaced only when focused and the sample has a title |
| `ProcessTracking.PolledNothingFocused` | src/process_tracker.rs:52-64 | with no focused app, every entry becomes inactive, nothing else about it changes, and no entry is added |
| `ProcessTracking.PolledInsertsNewName` | src/process_tracker.rs:63-78 | an unseen focused name adds exactly one entry: that name, start time `now`, duration 0, the sampled title, active |
| `ProcessTracking.PolledKeys` | src/process_tracker.rs:52-78 | the keys after a poll are the keys before plus the focused name, if any; no entry is ever removed |
| `ProcessTracking.PolledKeepsNames` | src/process_tracker.rs:67-76 | every entry stays filed under its own `name` |
| `ProcessTracking.PolledDurationsGrow` | src/process_tracker.rs:45-55 | when the clock has not gone back, no duration decreases |
| `ProcessTracking.PolledClockBackShrinks` | src/process_tracker.rs:44-55 | elapsed time is not clamped: when the clock goes back, the focused entry's duration decreases |
| `ProcessTracking.ReplayDuration` | src/process_tracker.rs:42-83 | over any run of polls, a name is in the ledger exactly when it was there before or some poll reported it; its duration is its old duration plus the elapsed time of every poll that reported it after it was already in the ledger |
| `ProcessTracking.ReplayActive` | src/process_tracker.rs:52-53 | after a non-empty run of polls, the only active entry is the one the last poll reported |
| `ProcessTracking.EditorThenBrowser` | src/process_tracker.rs:42-83 | three polls of "Editor" 10 s apart, one empty poll, then "Browser": Editor holds 20 s and is inactive; Browser is active with 0 s |
| `ProcessTracking.ProcessTracker.constructor` | src/process_tracker.rs:28-40 | a new tracker has an empty ledger, no focused app and `last_update` = now |
| `ProcessTracking.ProcessTracker.Update` | src/process_tracker.rs:42-83 | the new ledger is `Polled` of the old ledger, the old `last_update`, now and the sample; `last_update` becomes now and `current_focused` the sampled name; always returns Ok; keeps names matching keys and at most one entry active |
| `ProcessTracking.ProcessTracker.ReconcileAll` | src/process_tracker.rs:52-61 | the loop leaves each existing entry as one reconciliation step makes it, whatever order the entries are visited in |
| `ProcessTracking.ProcessTracker.GetActiveApps` | src/process_tracker.rs:190-192 | returns the ledger as it stands and changes nothing |
| `Utils.TruncDiv` | src/utils.rs:6-8 | Rust's integer `/`: agrees with floor division for non-negative operands and is never positive for a negative dividend |
| `Utils.TruncRem` | src/utils.rs:7-8 | Rust's `%`: agrees with the Euclidean remainder for non-negative operands and lies in (-divisor, 0] for a negative dividend |
| `Utils.ClockOf` | src/utils.rs:6-8 | for non-negative input, minutes and seconds lie in 0..59 and hours*3600 + minutes*60 + seconds equals the input; hours are positive exactly from one hour up; for negative input every field is at most 0 |
| `Utils.FormatDurationShape` | src/utils.rs:10-14 | for non-negative input, the text has three colon-separated digit fields from one hour up (hours at least two digits) and two below (total length 5); minutes and seconds have exactly two digits |
| `Utils.FormatDurationFields` | src/utils.rs:10-14 | the colon-separated fields of the text are the zero-padded hours (only from one hour up), minutes and seconds |
| `Utils.FormatDurationRoundTrip` | src/utils.rs:5-15 | reading the text back as a clock gives the number of seconds that was formatted |
| `Decimal.Pad2ReadsBack` | src/utils.rs:11 | `{:02}` writes at least two characters; it writes exactly two digits for values 0..99; for non-negative values its digits read back as the value |
| `Decimal.IntToDecimalReadsBack` | src/calendar.rs:33 | `{}` writes a minus sign exactly for negative values, followed by digits that read back as the magnitude |
| `Decimal.NatToDecimal` | src/utils.rs:11 | a non-negative integer is written as a non-empty run of digits without a leading zero, one digit below 10 and two below 100 |
| `Calendars.DateKeyRoundTrip` | src/calendar.rs:33 | the `"{year}-{month:02}-{day:02}"` key of a timestamp reads back as its year, month and day |
| `Calendars.DateKeyInjective` | src/calendar.rs:46-51 | two timestamps get the same key exactly when they fall on the same day |
| `Calendars.Lookup` | src/calendar.rs:63-66 | a day found for a date falls on that date's day |
| `Calendars.WithActivityKeepsKeysMatchingDates` | src/calendar.rs:35-41 | after `add_activity`, every day is still filed under the key of its own `date` |
| `Calendars.WithSessionKeepsKeysMatchingDates` | src/calendar.rs:53-59 | after `add_focus_session`, every day is still filed under the key of its own `date` |
| `Calendars.WithActivityToday` | src/calendar.rs:31-42 | today's total for the process grows by `duration`, starting from 0 when absent; the day's other totals, its sessions and its existing `date` are unchanged; a missing day is created with `date` = today |
| `Calendars.WithActivityOtherDays` | src/calendar.rs:33-41 | `add_activity` leaves every other day unchanged |
| `Calendars.WithSessionOnItsDay` | src/calendar.rs:45-60 | the session is appended at the end of its start day's list; that day's totals and existing `date` are unchanged; a missing day is created with `date` = the session's start |
| `Calendars.WithSessionOtherDays` | src/calendar.rs:46-59 | `add_focus_session` leaves every other day unchanged |
| `Calendars.SessionFoundOnItsDay` | src/calendar.rs:45-66 | after `add_focus_session(s)`, looking up any timestamp on `s`'s start day finds a day whose last session is `s` |
| `Calendars.Calendar.constructor` | src/calendar.rs:25-29 | a new calendar is empty |
| `Calendars.Calendar.AddActivity` | src/calendar.rs:31-43 | the calendar becomes `WithActivity` of the old one; keys keep matching dates; returns Ok |
| `Calendars.Calendar.AddFocusSession` | src/calendar.rs:45-61 | the calendar becomes `WithSession` of the old one; keys keep matching dates; returns Ok |
| `Calendars.Calendar.GetActivityForDate` | src/calendar.rs:63-66 | returns the day filed under the date's key, without changing the calendar; the result is None exactly when no recorded day falls on that date's day |
| `FocusModes.NewSession` | src/focus_mode.rs:28-36 | the session starts now, lasts `duration_minutes` minutes and has the given `music_enabled`; it has a music path exactly when music is enabled and the playlist is non-empty, and that path is the playlist's first element |
| `FocusModes.StartActivates` | src/focus_mode.rs:27-41 | starting replaces any previous session with the new one and keeps the playlist |
| `FocusModes.EndIdempotent` | src/focus_mode.rs:43-46 | ending leaves no session and keeps the playlist; ending twice is the same as ending once |
| `FocusModes.RunPlaylist` | src/focus_mode.rs:27-50 | over any sequence of operations, the playlist is the old playlist followed by the added paths in order |
| `FocusModes.RunSessionActive` | src/focus_mode.rs:27-58 | after any sequence of operations, a session is active exactly when the last start-or-end was a start, or, with neither, when one was active before |
| `FocusModes.FocusMode.constructor` | src/focus_mode.rs:20-25 | a new focus mode has no session and an empty playlist |
| `FocusModes.FocusMode.StartSession` | src/focus_mode.rs:27-41 | the current session becomes the new session built from the playlist as it stands; the playlist is unchanged; returns Ok |
| `FocusModes.FocusMode.EndSession` | src/focus_mode.rs:43-46 | there is no current session afterwards; the playlist is unchanged; returns Ok |
| `FocusModes.FocusMode.AddMusic` | src/focus_mode.rs:48-50 | the path is appended to the end of the playlist; the session is unchanged |
| `FocusModes.FocusMode.GetCurrentSession` | src/focus_mode.rs:52-54 | returns the current session and changes nothing |
| `FocusModes.FocusMode.IsSessionActive` | src/focus_mode.rs:56-58 | true exactly when a session is running; changes nothing |

## Left out

- `get_focused_app` (src/process_tracker.rs:85-188) is left out. It holds X11 property queries, `xprop`/`osascript` processes, Win32 calls and `sysinfo` lookups. Its result is the `focusedApp`/`windowTitle` parameters of `Update`.
- `sys.refresh_all()` is left out. So are the `sys` and `x11_conn` fields, which only serve those OS queries.
- Clock reads (`Utc::now()`) are parameters: `now` in `Update` and `StartSession`, `today` in `AddActivity`. `get_timestamp` is therefore not modelled.
- Timestamps and durations are whole seconds. The sub-second part of chrono values is not modelled, and neither is the truncation that `num_seconds` applies to it.
- Integer width is not modelled. A duration in the source is an `i64` or a chrono `Duration`. On overflow, `duration += elapsed`, `Duration` addition and `Duration::minutes` panic (or wrap, for the `i64` in release builds). Chrono's bounded year range is also not modelled.
- `format_duration` on negative durations is modelled as written. It uses truncating `/` and `%`, and `{:02}` prints a negative value as a minus sign and its digits. The shape and round-trip lemmas are stated only for non-negative input.
- `get_active_apps` and `get_activity_for_date` return references in Rust. The model returns the values; nothing in the core mutates through them.
- The `Arc<Mutex<…>>` sharing, the GUI (src/gui.rs), start-up (src/main.rs) and configuration persistence (src/config.rs) are not part of this model.
- `get_window_title` (a stub returning nothing) and `ensure_directory` (filesystem) are not part of this model.
