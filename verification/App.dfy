/** The app's session state as an object its actions update in place. */
module AppObject {
  import opened Transcript
  import opened Replica
  import opened SessionTabs
  import Spec = AppSpec

  class AppFeature {
    var sessions: map<string, SessionUi>
    var tabs: TabSet
    var currentKey: Option<string>
    var pendingKeys: set<string>
    var parkedChanges: seq<Dto>
    var inFlightOpens: nat

    ghost function State(): Spec.AppState
      reads this
    {
      Spec.AppState(sessions, tabs, currentKey, pendingKeys, parkedChanges, inFlightOpens)
    }

    constructor ()
      ensures State() == Spec.FRESH
    {
      sessions, tabs, currentKey := map[], NO_TAB_SET, None;
      pendingKeys, parkedChanges, inFlightOpens := {}, [], 0;
    }

    // ── Parking ─────────────────────────────────────────────────────────

    method DrainParked(key: string)
      modifies `sessions, `parkedChanges
      ensures State() == Spec.DrainParked(old(State()), key)
    {
      if parkedChanges == [] {
        return;
      }
      var known := (set k | k in tabs.keys) + pendingKeys + {key};
      var parked, drained := parkedChanges, sessions;
      var remaining: seq<Dto> := [];
      for i := 0 to |parked|
        invariant State() == old(State())
        invariant drained == Spec.ApplyAll(sessions, Spec.ParkedFor(parked[..i], key), known)
        invariant remaining == Spec.ParkedForOthers(parked[..i], key)
      {
        var change := parked[i];
        assert parked[..i + 1] == parked[..i] + [change];
        DrainSnoc(sessions, parked[..i], change, key, known);
        if change.key == key {
          drained := ApplySessionChange(drained, change, known);
        } else {
          remaining := remaining + [change];
        }
      }
      assert parked[..|parked|] == parked;
      parkedChanges := remaining;
      sessions := drained;
    }

    method FinishInFlightOpen()
      modifies `inFlightOpens, `parkedChanges
      ensures State() == Spec.FinishInFlightOpen(old(State()))
    {
      if inFlightOpens > 0 {
        inFlightOpens := inFlightOpens - 1;
      }
      if inFlightOpens == 0 {
        parkedChanges := [];
      }
    }

    method RegisterOpenedSession(key: string)
      modifies this
      ensures State() == Spec.RegisterOpenedSession(old(State()), key)
    {
      pendingKeys := pendingKeys + {key};
      DrainParked(key);
      sessions := EnsureSession(sessions, key);
      tabs := Add(tabs, key);
      pendingKeys := pendingKeys - {key};
      FinishInFlightOpen();
    }

    method ClearSessionState()
      modifies this
      ensures State() == Spec.FRESH
    {
      sessions, tabs, currentKey := map[], NO_TAB_SET, None;
      pendingKeys, parkedChanges, inFlightOpens := {}, [], 0;
    }

    // ── Summaries and headers ───────────────────────────────────────────

    method ApplySummaries(summaries: seq<Spec.Summary>)
      modifies `sessions
      ensures sessions == Spec.ApplySummaries(old(sessions), summaries)
    {
      for i := 0 to |summaries|
        invariant sessions == Spec.ApplySummaries(old(sessions), summaries[..i])
      {
        var summary := summaries[i];
        assert summaries[..i + 1][..i] == summaries[..i];
        if summary.key in sessions {
          sessions := sessions[summary.key := Spec.Seeded(sessions[summary.key], summary)];
        }
      }
      assert summaries[..|summaries|] == summaries;
    }

    method Describe(key: string, summary: Spec.Summary)
      modifies `sessions
      ensures State() == Spec.Described(old(State()), key, summary)
    {
      var current := SessionOr(sessions, key);
      current := current.(title := summary.title);
      current := current.(model := summary.model);
      current := current.(running := summary.running);
      current := current.(profile := summary.profile);
      sessions := sessions[key := current];
    }

    // ── Tabs ────────────────────────────────────────────────────────────

    method FindTabForProfile(profile: string) returns (found: Option<string>)
      ensures found == Spec.OpenTabForProfile(sessions, tabs.keys, profile)
    {
      if profile == "" {
        return None;
      }
      for i := 0 to |tabs.keys|
        invariant Spec.OpenTabForProfile(sessions, tabs.keys, profile)
               == Spec.OpenTabForProfile(sessions, tabs.keys[i..], profile)
      {
        var key := tabs.keys[i];
        assert tabs.keys[i..][1..] == tabs.keys[i + 1..];
        if key in sessions && sessions[key].profile == profile {
          return Some(key);
        }
      }
      return None;
    }

    method PerformSwitchTab(key: string) returns (effect: Spec.Effect)
      modifies `tabs, `currentKey
      ensures Spec.Outcome(State(), effect) == Spec.PerformSwitchTab(old(State()), key)
    {
      var next := TabTap(tabs, currentKey, key);
      if next.None? {
        return Spec.Nothing;
      }
      tabs := next.value;
      if tabs.current.None? {
        return Spec.Nothing;
      }
      currentKey := tabs.current;
      return Spec.FetchReady(tabs.current.value);
    }

    method OnRestored(
      planned: seq<string>, resumed: seq<string>, summaries: seq<Spec.Summary>, planCurrent: Option<string>)
      modifies this
      ensures State() == Spec.OnRestored(old(State()), planned, resumed, summaries, planCurrent)
    {
      for i := 0 to |resumed|
        invariant State() == Spec.RestoreTabs(old(State()), resumed[..i])
      {
        assert resumed[..i + 1][..i] == resumed[..i];
        DrainParked(resumed[i]);
        sessions := EnsureSession(sessions, resumed[i]);
        tabs := Add(tabs, resumed[i]);
      }
      assert resumed[..|resumed|] == resumed;
      pendingKeys := pendingKeys - (set k | k in planned);
      ApplySummaries(summaries);
      var current := Chosen(planCurrent, resumed);
      if current.Some? {
        tabs := TabSet(tabs.keys, current);
        currentKey := current;
      }
      FinishInFlightOpen();
    }

    method OnTabClosed(key: string) returns (effect: Spec.Effect)
      modifies this
      ensures Spec.Outcome(State(), effect) == Spec.OnTabClosed(old(State()), key)
    {
      tabs := Close(tabs, key);
      sessions := sessions - {key};
      if currentKey == Some(key) {
        currentKey := tabs.current;
      }
      if tabs.current.Some? && tabs.current != currentKey {
        currentKey := tabs.current;
        return Spec.FetchReady(tabs.current.value);
      }
      if tabs.keys == [] {
        return Spec.SendOpenNew;
      }
      return Spec.Nothing;
    }

    // ── The change stream ───────────────────────────────────────────────

    method OnTranscriptChange(change: Dto) returns (effect: Spec.Effect)
      modifies `sessions, `parkedChanges
      ensures Spec.Outcome(State(), effect) == Spec.OnTranscriptChange(old(State()), change)
    {
      if change.key !in tabs.keys && change.key !in pendingKeys {
        if inFlightOpens > 0 {
          while |parkedChanges| >= Spec.PARKED_MAX
            invariant |parkedChanges| <= |old(parkedChanges)|
            invariant parkedChanges == old(parkedChanges)[|old(parkedChanges)| - |parkedChanges|..]
            invariant |old(parkedChanges)| < Spec.PARKED_MAX ==> parkedChanges == old(parkedChanges)
            invariant |old(parkedChanges)| >= Spec.PARKED_MAX ==> |parkedChanges| >= Spec.PARKED_MAX - 1
            modifies `parkedChanges
            decreases |parkedChanges|
          {
            parkedChanges := parkedChanges[1..];
          }
          parkedChanges := parkedChanges + [change];
        }
        return Spec.Nothing;
      }
      sessions := ApplySessionChange(sessions, change, (set k | k in tabs.keys) + pendingKeys);
      return if change.kind == HeaderChanged then Spec.FetchHeader(change.key) else Spec.Nothing;
    }

    // ── Actions ─────────────────────────────────────────────────────────

    method Send(action: Spec.Action) returns (effect: Spec.Effect)
      modifies this
      ensures Spec.Outcome(State(), effect) == Spec.Do(old(State()), action)
    {
      hide Spec.RegisterOpenedSession, Spec.OnRestored, Spec.OnTabClosed, Spec.PerformSwitchTab;
      hide Spec.OnTranscriptChange, Spec.FinishInFlightOpen, Spec.WithProfile, Spec.Described;
      effect := Spec.Nothing;
      match action
      case ResumePlanned(keys) =>
        pendingKeys := pendingKeys + (set k | k in keys);
        inFlightOpens := inFlightOpens + 1;
      case MainSessionRestored(planned, resumed, summaries, current) =>
        OnRestored(planned, resumed, summaries, current);
      case MainSessionRestoreFailed(planned) =>
        pendingKeys := pendingKeys - (set k | k in planned);
        FinishInFlightOpen();
      case SessionsCleared =>
        ClearSessionState();
      case OpenNewSession =>
        inFlightOpens := inFlightOpens + 1;
        effect := Spec.CallOpen;
      case OpenExistingSession(storedId) =>
        if storedId in tabs.keys {
          effect := PerformSwitchTab(storedId);
        } else {
          inFlightOpens := inFlightOpens + 1;
          effect := Spec.CallOpen;
        }
      case OpenBotChat(profile) =>
        var open := FindTabForProfile(profile);
        if open.Some? {
          effect := PerformSwitchTab(open.value);
        } else {
          inFlightOpens := inFlightOpens + 1;
          effect := Spec.CallOpen;
        }
      case SwitchTab(key) =>
        effect := PerformSwitchTab(key);
      case CloseTab(key) =>
        if key in tabs.keys {
          effect := Spec.CallClose(key);
        }
      case SessionOpened(key) =>
        RegisterOpenedSession(key);
        currentKey := Some(key);
        effect := Spec.FetchReady(key);
      case BotChatOpened(key, profile) =>
        RegisterOpenedSession(key);
        sessions := Spec.WithProfile(sessions, key, profile);
        currentKey := Some(key);
        effect := Spec.FetchReady(key);
      case SessionOpenFailed =>
        FinishInFlightOpen();
      case SessionReady(key, summary) =>
        if summary.Some? && (key in tabs.keys || key in pendingKeys) {
          Describe(key, summary.value);
        }
      case HeaderRefreshed(key, fetched) =>
        if key in tabs.keys || key in pendingKeys {
          Describe(key, fetched);
        }
      case TabClosed(key) =>
        effect := OnTabClosed(key);
      case TranscriptChanged(change) =>
        effect := OnTranscriptChange(change);
    }
  }

  /** One more parked change, and what draining makes of it. */
  lemma DrainSnoc(sessions: map<string, SessionUi>, parked: seq<Dto>, change: Dto, key: string, known: set<string>)
    ensures Spec.ParkedForOthers(parked + [change], key)
         == Spec.ParkedForOthers(parked, key) + if change.key == key then [] else [change]
    ensures Spec.ApplyAll(sessions, Spec.ParkedFor(parked + [change], key), known)
         == var before := Spec.ApplyAll(sessions, Spec.ParkedFor(parked, key), known);
            if change.key == key then ApplySessionChange(before, change, known) else before
  {
    assert (parked + [change])[..|parked|] == parked;
    var mine := Spec.ParkedFor(parked, key);
    if change.key == key {
      assert (mine + [change])[..|mine|] == mine;
    } else {
      assert mine + [] == mine;
    }
  }
}
