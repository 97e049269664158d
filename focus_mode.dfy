/**
 * Focus mode: at most one running focus session and a music playlist.
 * Timestamps are whole seconds; the clock reading is a parameter of
 * `StartSession`.
 */
module FocusModes {
  import opened Common

  /** `FocusSession`; `duration` in seconds. */
  datatype FocusSession = FocusSession(
    startTime: int,
    duration: int,
    musicEnabled: bool,
    musicPath: Option<string>)

  /** The session `start_session(durationMinutes, musicEnabled)` creates at `now`. */
  function NewSession(now: int, durationMinutes: int, musicEnabled: bool, playlist: seq<string>): (s: FocusSession)
    ensures s.startTime == now && s.duration == durationMinutes * 60 && s.musicEnabled == musicEnabled
    ensures s.musicPath.Some? <==> musicEnabled && playlist != []
    ensures s.musicPath.Some? ==> s.musicPath.value == playlist[0]
  {
    FocusSession(now, durationMinutes * 60, musicEnabled,
                 if musicEnabled && |playlist| > 0 then Some(playlist[0]) else None)
  }

  /** The whole state of a `FocusMode`. */
  datatype FocusState = FocusState(currentSession: Option<FocusSession>, musicPlaylist: seq<string>)

  /** The operations that change a `FocusMode`. */
  datatype Command =
    | Start(now: int, durationMinutes: int, musicEnabled: bool)
    | End
    | AddMusic(path: string)

  function Step(s: FocusState, c: Command): FocusState {
    match c
    case Start(now, minutes, music) => s.(currentSession := Some(NewSession(now, minutes, music, s.musicPlaylist)))
    case End => s.(currentSession := None)
    case AddMusic(path) => s.(musicPlaylist := s.musicPlaylist + [path])
  }

  function Run(s: FocusState, cs: seq<Command>): FocusState
    decreases |cs|
  {
    if cs == [] then s else Run(Step(s, cs[0]), cs[1..])
  }

  /** The paths a run of commands adds, in order. */
  function AddedPaths(cs: seq<Command>): (paths: seq<string>)
    ensures |paths| <= |cs|
    decreases |cs|
  {
    if cs == [] then []
    else (if cs[0].AddMusic? then [cs[0].path] else []) + AddedPaths(cs[1..])
  }

  /** The last `Start` or `End` of a run, if any. */
  function LastSessionCommand(cs: seq<Command>): (c: Option<Command>)
    ensures c.Some? ==> !c.value.AddMusic?
    decreases |cs|
  {
    if cs == [] then None
    else if !cs[|cs| - 1].AddMusic? then Some(cs[|cs| - 1])
    else LastSessionCommand(cs[..|cs| - 1])
  }

  /** Starting a session makes one active, replacing any previous session; the playlist is kept. */
  lemma StartActivates(s: FocusState, now: int, minutes: int, music: bool)
    ensures var t := Step(s, Start(now, minutes, music));
      t.currentSession == Some(NewSession(now, minutes, music, s.musicPlaylist))
      && t.musicPlaylist == s.musicPlaylist
  {
  }

  /** Ending leaves no session, keeps the playlist, and ending twice is ending once. */
  lemma EndIdempotent(s: FocusState)
    ensures Step(s, End).currentSession.None? && Step(s, End).musicPlaylist == s.musicPlaylist
    ensures Step(Step(s, End), End) == Step(s, End)
  {
  }

  /**
   * Over any run of commands the playlist only grows at its end, by the
   * added paths in order; `Start` and `End` never change it.
   */
  lemma {:induction false} RunPlaylist(s: FocusState, cs: seq<Command>)
    ensures Run(s, cs).musicPlaylist == s.musicPlaylist + AddedPaths(cs)
    decreases |cs|
  {
    if cs != [] {
      RunPlaylist(Step(s, cs[0]), cs[1..]);
    }
  }

  /** `Run` over a run extended by one command is one more step. */
  lemma {:induction false} RunSnoc(s: FocusState, cs: seq<Command>, c: Command)
    ensures Run(s, cs + [c]) == Step(Run(s, cs), c)
    decreases |cs|
  {
    if cs == [] {
      assert cs + [c] == [c];
    } else {
      assert (cs + [c])[1..] == cs[1..] + [c];
      RunSnoc(Step(s, cs[0]), cs[1..], c);
    }
  }

  /**
   * After any run of commands a session is active exactly when the last
   * `Start` or `End` was a `Start`, or, if there was none, when one was
   * active before.
   */
  lemma {:induction false} RunSessionActive(s: FocusState, cs: seq<Command>)
    ensures Run(s, cs).currentSession.Some?
      <==> if LastSessionCommand(cs).Some? then LastSessionCommand(cs).value.Start? else s.currentSession.Some?
    decreases |cs|
  {
    if cs != [] {
      var init := cs[..|cs| - 1];
      assert cs == init + [cs[|cs| - 1]];
      RunSnoc(s, init, cs[|cs| - 1]);
      RunSessionActive(s, init);
    }
  }

  /** `FocusMode`: the current session, if any, and the playlist. */
  class FocusMode {
    var currentSession: Option<FocusSession>
    var musicPlaylist: seq<string>

    function State(): FocusState
      reads this
    {
      FocusState(currentSession, musicPlaylist)
    }

    /** `FocusMode::new`: no session, empty playlist. */
    constructor ()
      ensures currentSession == None && musicPlaylist == []
    {
      currentSession := None;
      musicPlaylist := [];
    }

    /** `start_session(duration_minutes, music_enabled)`, with `now` the clock's reading. */
    method StartSession(now: int, durationMinutes: int, musicEnabled: bool) returns (r: Outcome)
      modifies this
      ensures State() == Step(old(State()), Start(now, durationMinutes, musicEnabled))
      ensures currentSession == Some(NewSession(now, durationMinutes, musicEnabled, musicPlaylist))
      ensures musicPlaylist == old(musicPlaylist)
      ensures r == Ok
    {
      var musicPath := if musicEnabled && |musicPlaylist| > 0 then Some(musicPlaylist[0]) else None;
      var session := FocusSession(now, durationMinutes * 60, musicEnabled, musicPath);
      currentSession := Some(session);
      r := Ok;
    }

    /** `end_session`. */
    method EndSession() returns (r: Outcome)
      modifies this
      ensures State() == Step(old(State()), End)
      ensures currentSession == None && musicPlaylist == old(musicPlaylist)
      ensures r == Ok
    {
      currentSession := None;
      r := Ok;
    }

    /** `add_music(path)`: appends to the playlist. */
    method AddMusic(path: string)
      modifies this
      ensures State() == Step(old(State()), Command.AddMusic(path))
      ensures musicPlaylist == old(musicPlaylist) + [path] && currentSession == old(currentSession)
    {
      musicPlaylist := musicPlaylist + [path];
    }

    /** `get_current_session`: changes nothing. */
    method GetCurrentSession() returns (s: Option<FocusSession>)
      ensures s == currentSession
    {
      s := currentSession;
    }

    /** `is_session_active`: changes nothing. */
    method IsSessionActive() returns (active: bool)
      ensures active <==> currentSession.Some?
    {
      active := currentSession.Some?;
    }
  }
}
