/** The app's session state, action by action, as functions from state to state. */
module AppSpec {
  import opened Transcript
  import opened Replica
  import opened SessionTabs

  /** The part of the app's state that the core's sessions show in. */
  datatype AppState = AppState(
    sessions: map<string, SessionUi>,
    tabs: TabSet,
    currentKey: Option<string>,
    pendingKeys: set<string>,
    parkedChanges: seq<Dto>,
    inFlightOpens: nat)

  const FRESH := AppState(map[], NO_TAB_SET, None, {}, [], 0)

  const PARKED_MAX := 512

  /** One `open_sessions()` entry; `model` is what its header JSON says. */
  datatype Summary = Summary(key: string, title: string, model: string, running: bool, profile: string)

  datatype Action =
    | ResumePlanned(keys: seq<string>)
    | MainSessionRestored(
        planned: seq<string>, resumed: seq<string>, summaries: seq<Summary>, planCurrent: Option<string>)
    | MainSessionRestoreFailed(planned: seq<string>)
    | SessionsCleared
    | OpenNewSession
    | OpenExistingSession(storedId: string)
    | OpenBotChat(profile: string)
    | SwitchTab(key: string)
    | CloseTab(key: string)
    | SessionOpened(key: string)
    | BotChatOpened(key: string, profile: string)
    | SessionOpenFailed
    | SessionReady(key: string, summary: Option<Summary>)
    | HeaderRefreshed(key: string, fetched: Summary)
    | TabClosed(key: string)
    | TranscriptChanged(change: Dto)

  /** What the app does next. */
  datatype Effect = Nothing | CallOpen | CallClose(key: string) | FetchReady(key: string) | FetchHeader(key: string) | SendOpenNew

  datatype Outcome = Outcome(state: AppState, effect: Effect)

  // ── The session map ───────────────────────────────────────────────────

  /** The keys a change may be applied for: open tabs, and opens still registering. */
  function KnownKeys(s: AppState): set<string> {
    (set k | k in s.tabs.keys) + s.pendingKeys
  }

  predicate IsOpenOrRestoring(s: AppState, key: string) {
    key in s.tabs.keys || key in s.pendingKeys
  }

  function ApplyAll(sessions: map<string, SessionUi>, changes: seq<Dto>, known: set<string>): map<string, SessionUi> {
    if |changes| == 0 then sessions
    else
      ApplySessionChange(
        ApplyAll(sessions, changes[..|changes| - 1], known), changes[|changes| - 1], known)
  }

  /** The changes parked for one key, in order. */
  function ParkedFor(parked: seq<Dto>, key: string): seq<Dto> {
    if |parked| == 0 then []
    else
      var d := parked[|parked| - 1];
      ParkedFor(parked[..|parked| - 1], key) + if d.key == key then [d] else []
  }

  /** The changes parked for any other key, in order. */
  function ParkedForOthers(parked: seq<Dto>, key: string): seq<Dto> {
    if |parked| == 0 then []
    else
      var d := parked[|parked| - 1];
      ParkedForOthers(parked[..|parked| - 1], key) + if d.key == key then [] else [d]
  }

  function Seeded(session: SessionUi, summary: Summary): SessionUi {
    session.(title := summary.title, profile := summary.profile, running := summary.running)
  }

  function ApplySummaries(sessions: map<string, SessionUi>, summaries: seq<Summary>): map<string, SessionUi> {
    if |summaries| == 0 then sessions
    else
      var before, last := ApplySummaries(sessions, summaries[..|summaries| - 1]), summaries[|summaries| - 1];
      if last.key in before then before[last.key := Seeded(before[last.key], last)] else before
  }

  function WithProfile(sessions: map<string, SessionUi>, key: string, profile: string): map<string, SessionUi> {
    if profile == "" || key !in sessions || sessions[key].profile != "" then sessions
    else sessions[key := sessions[key].(profile := profile)]
  }

  /** The first tab of the strip that shows this profile; a blank profile matches none. */
  function OpenTabForProfile(sessions: map<string, SessionUi>, order: seq<string>, profile: string): Option<string> {
    if profile == "" || |order| == 0 then None
    else if order[0] in sessions && sessions[order[0]].profile == profile then Some(order[0])
    else OpenTabForProfile(sessions, order[1..], profile)
  }

  // ── Parking ───────────────────────────────────────────────────────────

  function Park(parked: seq<Dto>, change: Dto): seq<Dto> {
    (if |parked| >= PARKED_MAX then parked[|parked| - PARKED_MAX + 1..] else parked) + [change]
  }

  function DrainParked(s: AppState, key: string): AppState {
    s.(sessions := ApplyAll(s.sessions, ParkedFor(s.parkedChanges, key), KnownKeys(s) + {key}),
       parkedChanges := ParkedForOthers(s.parkedChanges, key))
  }

  function FinishInFlightOpen(s: AppState): AppState {
    var left := if s.inFlightOpens > 0 then s.inFlightOpens - 1 else 0;
    s.(inFlightOpens := left, parkedChanges := if left == 0 then [] else s.parkedChanges)
  }

  function ShowTab(s: AppState, key: string): AppState {
    s.(sessions := EnsureSession(s.sessions, key), tabs := Add(s.tabs, key))
  }

  function RegisterOpenedSession(s: AppState, key: string): AppState {
    var drained := DrainParked(s.(pendingKeys := s.pendingKeys + {key}), key);
    var shown := ShowTab(drained, key);
    FinishInFlightOpen(shown.(pendingKeys := shown.pendingKeys - {key}))
  }

  // ── Actions ───────────────────────────────────────────────────────────

  function RestoreTabs(s: AppState, resumed: seq<string>): AppState {
    if |resumed| == 0 then s
    else
      var key := resumed[|resumed| - 1];
      ShowTab(DrainParked(RestoreTabs(s, resumed[..|resumed| - 1]), key), key)
  }

  function OnRestored(
    s: AppState, planned: seq<string>, resumed: seq<string>, summaries: seq<Summary>, planCurrent: Option<string>)
    : AppState
  {
    var shown := RestoreTabs(s, resumed);
    var current := Chosen(planCurrent, resumed);
    FinishInFlightOpen(shown.(
      pendingKeys := shown.pendingKeys - (set k | k in planned),
      sessions := ApplySummaries(shown.sessions, summaries),
      tabs := if current.Some? then TabSet(shown.tabs.keys, current) else shown.tabs,
      currentKey := if current.Some? then current else shown.currentKey))
  }

  function PerformSwitchTab(s: AppState, key: string): Outcome {
    match TabTap(s.tabs, s.currentKey, key)
    case None => Outcome(s, Nothing)
    case Some(next) =>
      if next.current.None? then Outcome(s.(tabs := next), Nothing)
      else Outcome(s.(tabs := next, currentKey := next.current), FetchReady(next.current.value))
  }

  function Described(s: AppState, key: string, summary: Summary): AppState {
    s.(sessions := s.sessions[key := SessionOr(s.sessions, key).(
         title := summary.title, model := summary.model, running := summary.running, profile := summary.profile)])
  }

  function OnTabClosed(s: AppState, key: string): Outcome {
    var tabs := Close(s.tabs, key);
    var currentKey := if s.currentKey == Some(key) then tabs.current else s.currentKey;
    var closed := s.(tabs := tabs, sessions := s.sessions - {key}, currentKey := currentKey);
    if tabs.current.Some? && tabs.current != currentKey then
      Outcome(closed.(currentKey := tabs.current), FetchReady(tabs.current.value))
    else if tabs.keys == [] then Outcome(closed, SendOpenNew)
    else Outcome(closed, Nothing)
  }

  function OnTranscriptChange(s: AppState, change: Dto): Outcome {
    if !IsOpenOrRestoring(s, change.key) then
      Outcome(
        if s.inFlightOpens > 0 then s.(parkedChanges := Park(s.parkedChanges, change)) else s, Nothing)
    else
      Outcome(
        s.(sessions := ApplySessionChange(s.sessions, change, KnownKeys(s))),
        if change.kind == HeaderChanged then FetchHeader(change.key) else Nothing)
  }

  function Do(s: AppState, action: Action): Outcome {
    match action
    case ResumePlanned(keys) =>
      Outcome(s.(pendingKeys := s.pendingKeys + (set k | k in keys), inFlightOpens := s.inFlightOpens + 1), Nothing)
    case MainSessionRestored(planned, resumed, summaries, current) =>
      Outcome(OnRestored(s, planned, resumed, summaries, current), Nothing)
    case MainSessionRestoreFailed(planned) =>
      Outcome(FinishInFlightOpen(s.(pendingKeys := s.pendingKeys - (set k | k in planned))), Nothing)
    case SessionsCleared => Outcome(FRESH, Nothing)
    case OpenNewSession => Outcome(s.(inFlightOpens := s.inFlightOpens + 1), CallOpen)
    case OpenExistingSession(storedId) =>
      if storedId in s.tabs.keys then PerformSwitchTab(s, storedId)
      else Outcome(s.(inFlightOpens := s.inFlightOpens + 1), CallOpen)
    case OpenBotChat(profile) =>
      var open := OpenTabForProfile(s.sessions, s.tabs.keys, profile);
      if open.Some? then PerformSwitchTab(s, open.value)
      else Outcome(s.(inFlightOpens := s.inFlightOpens + 1), CallOpen)
    case SwitchTab(key) => PerformSwitchTab(s, key)
    case CloseTab(key) => Outcome(s, if key in s.tabs.keys then CallClose(key) else Nothing)
    case SessionOpened(key) =>
      Outcome(RegisterOpenedSession(s, key).(currentKey := Some(key)), FetchReady(key))
    case BotChatOpened(key, profile) =>
      var registered := RegisterOpenedSession(s, key);
      Outcome(
        registered.(sessions := WithProfile(registered.sessions, key, profile), currentKey := Some(key)), FetchReady(key))
    case SessionOpenFailed => Outcome(FinishInFlightOpen(s), Nothing)
    case SessionReady(key, summary) =>
      if summary.Some? && IsOpenOrRestoring(s, key) then Outcome(Described(s, key, summary.value), Nothing)
      else Outcome(s, Nothing)
    case HeaderRefreshed(key, fetched) =>
      if IsOpenOrRestoring(s, key) then Outcome(Described(s, key, fetched), Nothing) else Outcome(s, Nothing)
    case TabClosed(key) => OnTabClosed(s, key)
    case TranscriptChanged(change) => OnTranscriptChange(s, change)
  }

  function RunApp(s: AppState, actions: seq<Action>): AppState {
    if |actions| == 0 then s else Do(RunApp(s, actions[..|actions| - 1]), actions[|actions| - 1]).state
  }

  // ── What every action keeps ───────────────────────────────────────────

  /** The strip is proper, the app shows the strip's current tab, and every tab has its session. */
  ghost predicate TabsHold(s: AppState) {
    && Proper(s.tabs)
    && s.currentKey == s.tabs.current
    && (forall key :: key in s.tabs.keys ==> key in s.sessions)
  }

  /** Nothing stays parked without an open in flight, and never more than the limit. */
  predicate ParkingHolds(s: AppState) {
    && |s.parkedChanges| <= PARKED_MAX
    && (s.parkedChanges != [] ==> s.inFlightOpens > 0)
  }

  lemma {:induction false} ApplyAllKeepsKeys(sessions: map<string, SessionUi>, changes: seq<Dto>, known: set<string>)
    ensures sessions.Keys <= ApplyAll(sessions, changes, known).Keys
  {
    if |changes| > 0 {
      ApplyAllKeepsKeys(sessions, changes[..|changes| - 1], known);
    }
  }

  lemma {:induction false} ApplySummariesKeepsKeys(sessions: map<string, SessionUi>, summaries: seq<Summary>)
    ensures ApplySummaries(sessions, summaries).Keys == sessions.Keys
  {
    if |summaries| > 0 {
      ApplySummariesKeepsKeys(sessions, summaries[..|summaries| - 1]);
    }
  }

  lemma {:induction false} OthersNoLonger(parked: seq<Dto>, key: string)
    ensures |ParkedForOthers(parked, key)| <= |parked|
  {
    if |parked| > 0 {
      OthersNoLonger(parked[..|parked| - 1], key);
    }
  }

  /** A tab that is shown: the strip stays proper and no session is lost. */
  lemma ShowTabHolds(s: AppState, key: string)
    requires Proper(s.tabs) && (forall k :: k in s.tabs.keys ==> k in s.sessions)
    ensures var next := ShowTab(DrainParked(s, key), key);
            && Proper(next.tabs) && (forall k :: k in next.tabs.keys ==> k in next.sessions)
            && next.tabs.current == Some(key) && key in next.tabs.keys
            && next.inFlightOpens == s.inFlightOpens && |next.parkedChanges| <= |s.parkedChanges|
            && next.currentKey == s.currentKey && next.pendingKeys == s.pendingKeys
  {
    ApplyAllKeepsKeys(s.sessions, ParkedFor(s.parkedChanges, key), KnownKeys(s) + {key});
    OthersNoLonger(s.parkedChanges, key);
    AddKeepsProper(s.tabs, key);
  }

  lemma {:induction false} RestoreTabsHolds(s: AppState, resumed: seq<string>)
    requires TabsHold(s)
    ensures var next := RestoreTabs(s, resumed);
            && Proper(next.tabs) && (forall k :: k in next.tabs.keys ==> k in next.sessions)
            && (forall k :: k in resumed ==> k in next.tabs.keys)
            && next.inFlightOpens == s.inFlightOpens && |next.parkedChanges| <= |s.parkedChanges|
            && next.currentKey == s.currentKey && next.pendingKeys == s.pendingKeys
            && (resumed == [] ==> next == s)
  {
    if |resumed| > 0 {
      var before := RestoreTabs(s, resumed[..|resumed| - 1]);
      RestoreTabsHolds(s, resumed[..|resumed| - 1]);
      ShowTabHolds(before, resumed[|resumed| - 1]);
      assert forall k :: k in resumed ==> k in resumed[..|resumed| - 1] || k == resumed[|resumed| - 1];
    }
  }

  lemma RestoredHolds(
    s: AppState, planned: seq<string>, resumed: seq<string>, summaries: seq<Summary>, planCurrent: Option<string>)
    requires TabsHold(s)
    ensures TabsHold(OnRestored(s, planned, resumed, summaries, planCurrent))
    ensures ParkingHolds(s) ==> ParkingHolds(OnRestored(s, planned, resumed, summaries, planCurrent))
  {
    RestoreTabsHolds(s, resumed);
    ApplySummariesKeepsKeys(RestoreTabs(s, resumed).sessions, summaries);
  }

  lemma RegisterHolds(s: AppState, key: string)
    requires TabsHold(s)
    ensures var next := RegisterOpenedSession(s, key);
            && Proper(next.tabs) && (forall k :: k in next.tabs.keys ==> k in next.sessions)
            && next.tabs.current == Some(key)
            && (ParkingHolds(s) ==> ParkingHolds(next))
  {
    ShowTabHolds(s.(pendingKeys := s.pendingKeys + {key}), key);
  }

  lemma TabClosedHolds(s: AppState, key: string)
    requires TabsHold(s)
    ensures TabsHold(OnTabClosed(s, key).state)
    ensures OnTabClosed(s, key).effect == if OnTabClosed(s, key).state.tabs.keys == [] then SendOpenNew else Nothing
  {
    CloseKeepsProper(s.tabs, key);
  }

  lemma ChangeHolds(s: AppState, change: Dto)
    requires TabsHold(s)
    ensures TabsHold(OnTranscriptChange(s, change).state)
    ensures ParkingHolds(s) ==> ParkingHolds(OnTranscriptChange(s, change).state)
  {
  }

  lemma SwitchHolds(s: AppState, key: string)
    requires TabsHold(s)
    ensures TabsHold(PerformSwitchTab(s, key).state)
    ensures ParkingHolds(s) ==> ParkingHolds(PerformSwitchTab(s, key).state)
  {
    TapSettles(s.tabs, key);
  }

  /** Every action keeps the tab state and the parking bound. */
  lemma DoHolds(s: AppState, action: Action)
    requires TabsHold(s)
    ensures TabsHold(Do(s, action).state)
    ensures ParkingHolds(s) ==> ParkingHolds(Do(s, action).state)
  {
    match action
    case MainSessionRestored(planned, resumed, summaries, current) =>
      RestoredHolds(s, planned, resumed, summaries, current);
    case SessionOpened(key) => RegisterHolds(s, key);
    case BotChatOpened(key, _) => RegisterHolds(s, key);
    case TabClosed(key) => TabClosedHolds(s, key);
    case SwitchTab(key) => SwitchHolds(s, key);
    case OpenExistingSession(key) => SwitchHolds(s, key);
    case OpenBotChat(profile) =>
      var open := OpenTabForProfile(s.sessions, s.tabs.keys, profile);
      if open.Some? { SwitchHolds(s, open.value); }
    case TranscriptChanged(change) => ChangeHolds(s, change);
    case _ =>
  }

  /** Over every run of the app: tab keys stay distinct, the shown key is the strip's current one, is
      one of the tabs, and is absent exactly when there are none; every tab has its session entry. */
  lemma {:induction false} TabStateHolds(actions: seq<Action>)
    ensures TabsHold(RunApp(FRESH, actions)) && ParkingHolds(RunApp(FRESH, actions))
  {
    if |actions| > 0 {
      TabStateHolds(actions[..|actions| - 1]);
      DoHolds(RunApp(FRESH, actions[..|actions| - 1]), actions[|actions| - 1]);
    }
  }

  /** In any reachable state, closing a tab asks for a new chat exactly when it was the only one, and
      never fetches the header of the tab that is shown next. */
  lemma ClosingTheLastTabOpensAnother(actions: seq<Action>, key: string)
    ensures var s := RunApp(FRESH, actions);
            && (Do(s, TabClosed(key)).effect == SendOpenNew <==> s.tabs.keys == [] || s.tabs.keys == [key])
            && !Do(s, TabClosed(key)).effect.FetchReady?
  {
    TabStateHolds(actions);
    var s := RunApp(FRESH, actions);
    TabClosedHolds(s, key);
    CloseEmptiesIff(s.tabs, key);
  }

  // ── No phantom sessions ───────────────────────────────────────────────

  /** The action opens, or plans to restore, the chat `key`. */
  predicate Opens(action: Action, key: string) {
    match action
    case ResumePlanned(keys) => key in keys
    case MainSessionRestored(_, resumed, _, _) => key in resumed
    case SessionOpened(k) => k == key
    case BotChatOpened(k, _) => k == key
    case _ => false
  }

  /** The keys the app holds anything for. */
  predicate Holds(s: AppState, key: string) {
    key in s.sessions || key in s.tabs.keys || key in s.pendingKeys
  }

  lemma {:induction false} ParkedForIsOf(parked: seq<Dto>, key: string)
    ensures forall i :: 0 <= i < |ParkedFor(parked, key)| ==> ParkedFor(parked, key)[i].key == key
  {
    if |parked| > 0 {
      ParkedForIsOf(parked[..|parked| - 1], key);
    }
  }

  lemma ChangeAddsOnlyItsKey(sessions: map<string, SessionUi>, d: Dto, known: set<string>)
    ensures ApplySessionChange(sessions, d, known).Keys <= sessions.Keys + {d.key}
  {
  }

  lemma {:induction false} ApplyAddsOnlyItsKey(
    sessions: map<string, SessionUi>, dtos: seq<Dto>, key: string, known: set<string>)
    requires forall i :: 0 <= i < |dtos| ==> dtos[i].key == key
    ensures ApplyAll(sessions, dtos, known).Keys <= sessions.Keys + {key}
  {
    hide ApplySessionChange;
    if |dtos| > 0 {
      var before, d := dtos[..|dtos| - 1], dtos[|dtos| - 1];
      ApplyAddsOnlyItsKey(sessions, before, key, known);
      ChangeAddsOnlyItsKey(ApplyAll(sessions, before, known), d, known);
    }
  }

  lemma DrainAddsOnlyItsKey(sessions: map<string, SessionUi>, parked: seq<Dto>, key: string, known: set<string>)
    ensures ApplyAll(sessions, ParkedFor(parked, key), known).Keys <= sessions.Keys + {key}
  {
    ParkedForIsOf(parked, key);
    ApplyAddsOnlyItsKey(sessions, ParkedFor(parked, key), key, known);
  }

  lemma ShowTabAddsOnlyItsKey(s: AppState, key: string, k: string)
    requires Holds(ShowTab(DrainParked(s, key), key), k)
    ensures k == key || Holds(s, k)
  {
    DrainAddsOnlyItsKey(s.sessions, s.parkedChanges, key, KnownKeys(s) + {key});
  }

  lemma {:induction false} RestoreAddsOnlyResumed(s: AppState, resumed: seq<string>, k: string)
    requires Holds(RestoreTabs(s, resumed), k)
    ensures k in resumed || Holds(s, k)
  {
    if |resumed| > 0 {
      var before := RestoreTabs(s, resumed[..|resumed| - 1]);
      ShowTabAddsOnlyItsKey(before, resumed[|resumed| - 1], k);
      if k != resumed[|resumed| - 1] {
        RestoreAddsOnlyResumed(s, resumed[..|resumed| - 1], k);
      }
    }
  }

  lemma CloseAddsNoKey(tabs: TabSet, key: string, k: string)
    requires k in Close(tabs, key).keys
    ensures k in tabs.keys
  {
  }

  lemma StepAddsOnlyOpened(s: AppState, action: Action, k: string)
    requires Holds(Do(s, action).state, k)
    ensures Opens(action, k) || Holds(s, k)
  {
    match action
    case MainSessionRestored(planned, resumed, summaries, current) =>
      ApplySummariesKeepsKeys(RestoreTabs(s, resumed).sessions, summaries);
      RestoreAddsOnlyResumed(s, resumed, k);
    case SessionOpened(key) =>
      if k != key { ShowTabAddsOnlyItsKey(s.(pendingKeys := s.pendingKeys + {key}), key, k); }
    case BotChatOpened(key, _) =>
      if k != key { ShowTabAddsOnlyItsKey(s.(pendingKeys := s.pendingKeys + {key}), key, k); }
    case TabClosed(key) =>
      if k in Close(s.tabs, key).keys { CloseAddsNoKey(s.tabs, key, k); }
    case _ =>
  }

  /** Whatever changes arrive, however late: the app holds a session only for a key that some action
      opened or planned to restore. */
  lemma {:induction false} NoPhantomSession(actions: seq<Action>, key: string)
    requires Holds(RunApp(FRESH, actions), key)
    ensures exists i :: 0 <= i < |actions| && Opens(actions[i], key)
  {
    if |actions| > 0 {
      var before, last := actions[..|actions| - 1], actions[|actions| - 1];
      StepAddsOnlyOpened(RunApp(FRESH, before), last, key);
      if !Opens(last, key) {
        NoPhantomSession(before, key);
        var i :| 0 <= i < |before| && Opens(before[i], key);
        assert actions[i] == before[i];
      } else {
        assert Opens(actions[|actions| - 1], key);
      }
    }
  }

  // ── Nothing stays parked for a tab ────────────────────────────────────

  /** A tab's changes are applied as they come, and what was parked for it was drained as it opened. */
  ghost predicate TabsDrained(s: AppState) {
    forall key :: key in s.tabs.keys ==> ParkedFor(s.parkedChanges, key) == []
  }

  lemma ParkedSnoc(parked: seq<Dto>, d: Dto, key: string)
    ensures ParkedFor(parked + [d], key) == ParkedFor(parked, key) + if d.key == key then [d] else []
    ensures ParkedForOthers(parked + [d], key) == ParkedForOthers(parked, key) + if d.key == key then [] else [d]
  {
    assert (parked + [d])[..|parked|] == parked;
  }

  /** Draining one key leaves what is parked for any other, in order, and nothing of its own. */
  lemma {:induction false} DrainSparesOthers(parked: seq<Dto>, key: string, other: string)
    ensures ParkedFor(ParkedForOthers(parked, key), other)
         == if other == key then [] else ParkedFor(parked, other)
  {
    if |parked| > 0 {
      var before, d := parked[..|parked| - 1], parked[|parked| - 1];
      DrainSparesOthers(before, key, other);
      if d.key == key {
        assert ParkedForOthers(parked, key) == ParkedForOthers(before, key);
        assert other != key ==> ParkedFor(parked, other) == ParkedFor(before, other);
      } else {
        ParkedSnoc(ParkedForOthers(before, key), d, other);
        assert d.key != other ==> ParkedFor(parked, other) == ParkedFor(before, other);
      }
    }
  }

  lemma {:induction false} ParkedForConcat(a: seq<Dto>, b: seq<Dto>, key: string)
    ensures ParkedFor(a + b, key) == ParkedFor(a, key) + ParkedFor(b, key)
  {
    if |b| == 0 {
      assert a + b == a;
    } else {
      var before, d := b[..|b| - 1], b[|b| - 1];
      ParkedForConcat(a, before, key);
      ParkedSnoc(a + before, d, key);
      ParkedSnoc(before, d, key);
      assert a + b == (a + before) + [d] && b == before + [d];
    }
  }

  lemma EmptyParksNone()
    ensures forall key :: ParkedFor([], key) == []
  {
  }

  lemma ShowTabDrains(s: AppState, key: string)
    requires TabsDrained(s)
    ensures TabsDrained(ShowTab(DrainParked(s, key), key))
  {
    forall k | k in ShowTab(DrainParked(s, key), key).tabs.keys
      ensures ParkedFor(ParkedForOthers(s.parkedChanges, key), k) == []
    {
      DrainSparesOthers(s.parkedChanges, key, k);
    }
  }

  lemma {:induction false} RestoreDrains(s: AppState, resumed: seq<string>)
    requires TabsDrained(s)
    ensures TabsDrained(RestoreTabs(s, resumed))
  {
    hide TabsDrained, ShowTab, DrainParked;
    if |resumed| > 0 {
      RestoreDrains(s, resumed[..|resumed| - 1]);
      ShowTabDrains(RestoreTabs(s, resumed[..|resumed| - 1]), resumed[|resumed| - 1]);
    }
  }

  predicate IsEndOf(end: seq<Dto>, all: seq<Dto>) {
    |end| <= |all| && end == all[|all| - |end|..]
  }

  /** Parking pushes out the oldest, so that each chat keeps the end of its changes. */
  lemma ParkKeepsTheEnd(parked: seq<Dto>, d: Dto, key: string)
    ensures IsEndOf(ParkedFor(Park(parked, d), key), ParkedFor(parked, key) + if d.key == key then [d] else [])
  {
    hide ParkedFor;
    var cut := if |parked| >= PARKED_MAX then |parked| - PARKED_MAX + 1 else 0;
    ParkedForConcat(parked[..cut], parked[cut..], key);
    assert parked[..cut] + parked[cut..] == parked;
    ParkedSnoc(parked[cut..], d, key);
    assert Park(parked, d) == parked[cut..] + [d];
  }

  lemma ChangeDrains(s: AppState, d: Dto)
    requires TabsDrained(s)
    ensures TabsDrained(OnTranscriptChange(s, d).state)
  {
    hide ParkedFor, Park;
    forall key | key in s.tabs.keys && d.key != key ensures ParkedFor(Park(s.parkedChanges, d), key) == [] {
      ParkKeepsTheEnd(s.parkedChanges, d, key);
    }
  }

  lemma CloseDrains(s: AppState, key: string)
    requires TabsDrained(s)
    ensures TabsDrained(OnTabClosed(s, key).state)
  {
    hide ParkedFor;
    forall k | k in Close(s.tabs, key).keys ensures k in s.tabs.keys {
      CloseAddsNoKey(s.tabs, key, k);
    }
  }

  lemma DoDrains(s: AppState, action: Action)
    requires TabsDrained(s)
    ensures TabsDrained(Do(s, action).state)
  {
    hide ParkedFor, ParkedForOthers, Park;
    EmptyParksNone();
    match action
    case MainSessionRestored(_, resumed, _, _) => RestoreDrains(s, resumed);
    case SessionOpened(key) => ShowTabDrains(s.(pendingKeys := s.pendingKeys + {key}), key);
    case BotChatOpened(key, _) => ShowTabDrains(s.(pendingKeys := s.pendingKeys + {key}), key);
    case TabClosed(key) => CloseDrains(s, key);
    case TranscriptChanged(change) => ChangeDrains(s, change);
    case _ =>
  }

  /** Over every run of the app nothing is parked for a tab. */
  lemma {:induction false} NothingParkedForTabs(actions: seq<Action>)
    ensures TabsDrained(RunApp(FRESH, actions))
  {
    if |actions| > 0 {
      NothingParkedForTabs(actions[..|actions| - 1]);
      DoDrains(RunApp(FRESH, actions[..|actions| - 1]), actions[|actions| - 1]);
    }
  }

  // ── The restore plan ──────────────────────────────────────────────────

  lemma {:induction false} RestoreTabsAre(s: AppState, resumed: seq<string>)
    requires s.tabs == NO_TAB_SET && Distinct(resumed)
    ensures RestoreTabs(s, resumed).tabs.keys == resumed
  {
    if |resumed| > 0 {
      var before := resumed[..|resumed| - 1];
      RestoreTabsAre(s, before);
      assert resumed == before + [resumed[|resumed| - 1]];
    }
  }

  /** At launch, when every planned tab comes back, the strip is the saved one in its order, and the tab
      shown is the last active one, or the last of the strip if that is not among them. */
  lemma PlanIsRestored(keys: seq<string>, lastActive: Option<string>, summaries: seq<Summary>)
    requires Distinct(keys)
    ensures var plan := PlanRestore(keys, lastActive);
            var planned := Do(FRESH, ResumePlanned(plan.resumeKeys)).state;
            var s := Do(planned, MainSessionRestored(plan.resumeKeys, plan.resumeKeys, summaries, plan.current)).state;
            && s.tabs.keys == keys && s.tabs.current == s.currentKey && s.pendingKeys == {}
            && s.currentKey == if lastActive.Some? && lastActive.value in keys then lastActive
                               else if keys == [] then None else Some(keys[|keys| - 1])
  {
    var planned := Do(FRESH, ResumePlanned(keys)).state;
    RestoreTabsAre(planned, keys);
    RestoreTabsHolds(planned, keys);
  }
}
