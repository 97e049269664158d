/**
 * The focus-duration ledger: one `AppInfo` per application name, updated
 * on every poll from a sample of the focused application and its window
 * title. Timestamps are whole seconds; the OS query that produces the
 * sample is a parameter of `Update`.
 */
module ProcessTracking {
  import opened Common

  /** One ledger entry. `duration` is in seconds and is a signed `i64` in the source. */
  datatype AppInfo = AppInfo(
    name: string,
    startTime: int,
    duration: int,
    windowTitle: Option<string>,
    isActive: bool)

  type Ledger = map<string, AppInfo>

  /** Every entry is filed under its own name. */
  ghost predicate NamesMatch(apps: Ledger) {
    forall k :: k in apps ==> apps[k].name == k
  }

  ghost predicate AtMostOneActive(apps: Ledger) {
    forall k, j :: k in apps && j in apps && apps[k].isActive && apps[j].isActive ==> k == j
  }

  /** What one turn of the `iter_mut` loop does to the entry filed under `name`. */
  function Reconcile(name: string, info: AppInfo, elapsed: int,
                     focused: Option<string>, title: Option<string>): AppInfo
  {
    if focused == Some(name) then
      info.(isActive := true,
            duration := info.duration + elapsed,
            windowTitle := if title.Some? then title else info.windowTitle)
    else
      info.(isActive := false)
  }

  /** The entry inserted for a focused name not yet in the ledger. */
  function NewEntry(name: string, now: int, title: Option<string>): AppInfo {
    AppInfo(name, now, 0, title, true)
  }

  /** The ledger after the `iter_mut` loop: every existing entry reconciled. */
  function ReconciledAll(apps: Ledger, elapsed: int, focused: Option<string>, title: Option<string>): Ledger {
    map k | k in apps :: Reconcile(k, apps[k], elapsed, focused, title)
  }

  /** The ledger after a poll at `now` of a tracker last updated at `lastUpdate`. */
  function Polled(apps: Ledger, lastUpdate: int, now: int,
                  focused: Option<string>, title: Option<string>): Ledger
  {
    var reconciled := ReconciledAll(apps, now - lastUpdate, focused, title);
    if focused.Some? && focused.value !in apps then
      reconciled[focused.value := NewEntry(focused.value, now, title)]
    else
      reconciled
  }

  /** After a poll an entry is active exactly when it is the focused one. */
  lemma PolledActiveIffFocused(apps: Ledger, lastUpdate: int, now: int,
                               focused: Option<string>, title: Option<string>)
    ensures var r := Polled(apps, lastUpdate, now, focused, title);
      (forall k :: k in r ==> (r[k].isActive <==> focused == Some(k))) && AtMostOneActive(r)
  {
  }

  /**
   * The focused existing entry gains exactly the elapsed time; every other
   * existing entry keeps its duration. Nothing else but the flag and the
   * title changes, and the title only when the sample has one.
   */
  lemma PolledExistingEntry(apps: Ledger, lastUpdate: int, now: int,
                            focused: Option<string>, title: Option<string>, k: string)
    requires k in apps
    ensures var r := Polled(apps, lastUpdate, now, focused, title);
      && k in r
      && r[k].duration == apps[k].duration + (if focused == Some(k) then now - lastUpdate else 0)
      && r[k].name == apps[k].name && r[k].startTime == apps[k].startTime
      && r[k].windowTitle == (if focused == Some(k) && title.Some? then title else apps[k].windowTitle)
  {
  }

  /** With nothing focused every entry goes inactive and nothing else changes. */
  lemma PolledNothingFocused(apps: Ledger, lastUpdate: int, now: int, title: Option<string>)
    ensures var r := Polled(apps, lastUpdate, now, None, title);
      r.Keys == apps.Keys && forall k :: k in r ==> r[k] == apps[k].(isActive := false)
  {
  }

  /**
   * A focused name not yet in the ledger adds exactly one entry, with
   * duration zero: it receives none of the elapsed time of the poll that
   * creates it.
   */
  lemma PolledInsertsNewName(apps: Ledger, lastUpdate: int, now: int, name: string, title: Option<string>)
    requires name !in apps
    ensures var r := Polled(apps, lastUpdate, now, Some(name), title);
      r.Keys == apps.Keys + {name} && r[name] == AppInfo(name, now, 0, title, true)
  {
  }

  /** Entries are never removed, and only the focused name can be added. */
  lemma PolledKeys(apps: Ledger, lastUpdate: int, now: int,
                   focused: Option<string>, title: Option<string>)
    ensures var r := Polled(apps, lastUpdate, now, focused, title);
      r.Keys == apps.Keys + (if focused.Some? then {focused.value} else {})
  {
  }

  /** The ledger keeps every entry filed under its own name. */
  lemma PolledKeepsNames(apps: Ledger, lastUpdate: int, now: int,
                         focused: Option<string>, title: Option<string>)
    requires NamesMatch(apps)
    ensures NamesMatch(Polled(apps, lastUpdate, now, focused, title))
  {
  }

  /** Durations never shrink, provided the clock did not go backwards. */
  lemma PolledDurationsGrow(apps: Ledger, lastUpdate: int, now: int,
                            focused: Option<string>, title: Option<string>)
    requires lastUpdate <= now
    ensures var r := Polled(apps, lastUpdate, now, focused, title);
      forall k :: k in apps ==> apps[k].duration <= r[k].duration
  {
  }

  /** The elapsed time is not clamped: a clock that went back shrinks the focused entry. */
  lemma PolledClockBackShrinks(apps: Ledger, lastUpdate: int, now: int, name: string, title: Option<string>)
    requires name in apps && now < lastUpdate
    ensures Polled(apps, lastUpdate, now, Some(name), title)[name].duration < apps[name].duration
  {
  }

  /** One poll's sample: the time it was taken and what the OS reported. */
  datatype Sample = Sample(now: int, focused: Option<string>, title: Option<string>)

  /** The ledger after a run of polls, the first one at `samples[0].now`. */
  function Replay(apps: Ledger, lastUpdate: int, samples: seq<Sample>): Ledger
    decreases |samples|
  {
    if samples == [] then apps
    else
      var s := samples[0];
      Replay(Polled(apps, lastUpdate, s.now, s.focused, s.title), s.now, samples[1..])
  }

  /** Some sample of the run reports `name` focused. */
  ghost predicate Focuses(samples: seq<Sample>, name: string) {
    exists i :: 0 <= i < |samples| && samples[i].focused == Some(name)
  }

  /**
   * The time a run of polls credits to `name`: the elapsed time of every
   * poll that reports it focused while it is already in the ledger.
   */
  function Accrued(name: string, present: bool, lastUpdate: int, samples: seq<Sample>): int
    decreases |samples|
  {
    if samples == [] then 0
    else
      var s := samples[0];
      var hit := s.focused == Some(name);
      (if present && hit then s.now - lastUpdate else 0)
        + Accrued(name, present || hit, s.now, samples[1..])
  }

  /**
   * Over a run of polls, a name is in the ledger exactly when it was there
   * before or some poll reported it focused, and its duration is what it
   * had before plus the time the polls credited to it.
   */
  lemma {:induction false} ReplayDuration(apps: Ledger, lastUpdate: int, samples: seq<Sample>, name: string)
    ensures var r := Replay(apps, lastUpdate, samples);
      && (name in r <==> name in apps || Focuses(samples, name))
      && (name in r ==>
            r[name].duration
              == (if name in apps then apps[name].duration else 0) + Accrued(name, name in apps, lastUpdate, samples))
    decreases |samples|
  {
    if samples != [] {
      var s := samples[0];
      var next := Polled(apps, lastUpdate, s.now, s.focused, s.title);
      ReplayDuration(next, s.now, samples[1..], name);
      if Focuses(samples[1..], name) {
        var i :| 0 <= i < |samples[1..]| && samples[1..][i].focused == Some(name);
        assert samples[i + 1].focused == Some(name);
      }
      if Focuses(samples, name) && s.focused != Some(name) {
        var i :| 0 <= i < |samples| && samples[i].focused == Some(name);
        assert samples[1..][i - 1].focused == Some(name);
      }
    }
  }

  /** After a non-empty run of polls the only active entry is the last sample's focused name. */
  lemma {:induction false} ReplayActive(apps: Ledger, lastUpdate: int, samples: seq<Sample>, name: string)
    requires samples != []
    ensures var r := Replay(apps, lastUpdate, samples);
      name in r ==> (r[name].isActive <==> samples[|samples| - 1].focused == Some(name))
    decreases |samples|
  {
    var s := samples[0];
    var next := Polled(apps, lastUpdate, s.now, s.focused, s.title);
    if |samples| > 1 {
      ReplayActive(next, s.now, samples[1..], name);
    }
  }

  /**
   * "Editor" focused at 10, 20 and 30 seconds, nothing at 40 and "Browser"
   * at 50, starting from an empty ledger created at 0: "Editor" holds 20
   * seconds and is inactive; "Browser" is active and holds 0 seconds, since
   * the poll that creates an entry credits it nothing.
   */
  lemma EditorThenBrowser()
    ensures var r := Replay(map[], 0, [
              Sample(10, Some("Editor"), None), Sample(20, Some("Editor"), None),
              Sample(30, Some("Editor"), None), Sample(40, None, None),
              Sample(50, Some("Browser"), None)]);
      && r.Keys == {"Editor", "Browser"}
      && r["Editor"].duration == 20 && !r["Editor"].isActive
      && r["Browser"].duration == 0 && r["Browser"].isActive
  {
    var l1 := Polled(map[], 0, 10, Some("Editor"), None);
    assert l1 == map["Editor" := AppInfo("Editor", 10, 0, None, true)];
    var l2 := Polled(l1, 10, 20, Some("Editor"), None);
    assert l2 == map["Editor" := AppInfo("Editor", 10, 10, None, true)];
    var l3 := Polled(l2, 20, 30, Some("Editor"), None);
    assert l3 == map["Editor" := AppInfo("Editor", 10, 20, None, true)];
    var l4 := Polled(l3, 30, 40, None, None);
    assert l4 == map["Editor" := AppInfo("Editor", 10, 20, None, false)];
    var l5 := Polled(l4, 40, 50, Some("Browser"), None);
    assert "Browser" != "Editor";
    assert l5 == map["Editor" := AppInfo("Editor", 10, 20, None, false),
                     "Browser" := AppInfo("Browser", 50, 0, None, true)];
  }

  /** `ProcessTracker`: the ledger, the time of the last poll and the last focused name. */
  class ProcessTracker {
    var activeApps: Ledger
    var lastUpdate: int
    var currentFocused: Option<string>

    ghost predicate Valid()
      reads this
    {
      NamesMatch(activeApps) && AtMostOneActive(activeApps)
    }

    /** `ProcessTracker::new` at time `now`: an empty ledger. */
    constructor (now: int)
      ensures Valid()
      ensures activeApps == map[] && lastUpdate == now && currentFocused == None
    {
      activeApps := map[];
      lastUpdate := now;
      currentFocused := None;
    }

    /**
     * `ProcessTracker::update`, polled at `now`, with `focusedApp` and
     * `windowTitle` the sample the OS query returned.
     */
    method Update(now: int, focusedApp: Option<string>, windowTitle: Option<string>) returns (r: Outcome)
      requires Valid()
      modifies this
      ensures Valid()
      ensures activeApps == Polled(old(activeApps), old(lastUpdate), now, focusedApp, windowTitle)
      ensures lastUpdate == now && currentFocused == focusedApp
      ensures r == Ok
    {
      ghost var before := activeApps;
      var elapsed := now - lastUpdate;
      ReconcileAll(elapsed, focusedApp, windowTitle);
      if focusedApp.Some? && focusedApp.value !in activeApps {
        activeApps := activeApps[focusedApp.value := NewEntry(focusedApp.value, now, windowTitle)];
      }
      currentFocused := focusedApp;
      lastUpdate := now;
      r := Ok;
      assert activeApps == Polled(before, old(lastUpdate), now, focusedApp, windowTitle);
      PolledKeepsNames(before, old(lastUpdate), now, focusedApp, windowTitle);
      PolledActiveIffFocused(before, old(lastUpdate), now, focusedApp, windowTitle);
    }

    /**
     * The `iter_mut` loop of `update`: each entry's flag, duration and
     * title, one entry at a time, in whatever order the map yields them.
     */
    method ReconcileAll(elapsed: int, focusedApp: Option<string>, windowTitle: Option<string>)
      modifies this`activeApps
      ensures activeApps == ReconciledAll(old(activeApps), elapsed, focusedApp, windowTitle)
    {
      ghost var before := activeApps;
      var pending := activeApps.Keys;
      while pending != {}
        invariant pending <= before.Keys && activeApps.Keys == before.Keys
        invariant forall k :: k in pending ==> activeApps[k] == before[k]
        invariant forall k :: k in before && k !in pending ==>
                    activeApps[k] == Reconcile(k, before[k], elapsed, focusedApp, windowTitle)
        decreases pending
      {
        var name :| name in pending;
        var info := activeApps[name];
        info := info.(isActive := Some(name) == focusedApp);
        if info.isActive {
          info := info.(duration := info.duration + elapsed);
          if windowTitle.Some? {
            info := info.(windowTitle := windowTitle);
          }
        }
        activeApps := activeApps[name := info];
        pending := pending - {name};
      }
    }

    /** `get_active_apps`: the ledger as it stands, without changing it. */
    method GetActiveApps() returns (apps: Ledger)
      ensures apps == activeApps
    {
      apps := activeApps;
    }
  }
}
