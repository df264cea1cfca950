/** What each action of the app moves, part by part: opens in flight, keys being restored, the strip, the tab
    shown, each chat's session, and what the app does next. */
module AppMoves {
  import opened Transcript
  import opened Replica
  import opened SessionTabs
  import opened AppSpec
  import opened Parking

  // ── Which tab a profile is on ─────────────────────────────────────────

  /** Tab `i` is the first one of the strip that shows this profile. */
  ghost predicate FirstOfProfile(sessions: map<string, SessionUi>, order: seq<string>, profile: string, i: nat) {
    && i < |order| && order[i] in sessions && sessions[order[i]].profile == profile
    && forall j :: 0 <= j < i ==> order[j] in sessions ==> sessions[order[j]].profile != profile
  }

  lemma {:induction false} ProfileIsFound(sessions: map<string, SessionUi>, order: seq<string>, profile: string) returns (i: nat)
    ensures OpenTabForProfile(sessions, order, profile).Some? ==>
              && profile != "" && FirstOfProfile(sessions, order, profile, i)
              && OpenTabForProfile(sessions, order, profile) == Some(order[i])
    ensures OpenTabForProfile(sessions, order, profile).None? && profile != "" ==>
              forall j :: 0 <= j < |order| && order[j] in sessions ==> sessions[order[j]].profile != profile
  {
    i := 0;
    if profile != "" && |order| > 0 && !(order[0] in sessions && sessions[order[0]].profile == profile) {
      var rest := ProfileIsFound(sessions, order[1..], profile);
      i := rest + 1;
      assert forall j :: 1 <= j < |order| ==> order[j] == order[1..][j - 1];
    }
  }

  /** A profile's tab is found if and only if it is not blank and some tab shows it; then it is the first. */
  lemma ProfileTabIff(sessions: map<string, SessionUi>, order: seq<string>, profile: string, i: nat)
    ensures FirstOfProfile(sessions, order, profile, i) && profile != "" ==>
              OpenTabForProfile(sessions, order, profile) == Some(order[i])
    ensures OpenTabForProfile(sessions, order, profile).Some? ==>
              profile != "" && exists j :: FirstOfProfile(sessions, order, profile, j)
  {
    var found := ProfileIsFound(sessions, order, profile);
    if OpenTabForProfile(sessions, order, profile).Some? {
      assert FirstOfProfile(sessions, order, profile, found);
    }
  }

  // ── Opens in flight ───────────────────────────────────────────────────

  /** The action asks the core for a chat the app has no tab of. */
  predicate Starts(s: AppState, action: Action) {
    match action
    case ResumePlanned(_) => true
    case OpenNewSession => true
    case OpenExistingSession(key) => key !in s.tabs.keys
    case OpenBotChat(profile) => OpenTabForProfile(s.sessions, s.tabs.keys, profile).None?
    case _ => false
  }

  /** The action brings the end of such a call. */
  predicate Ends(action: Action) {
    || action.MainSessionRestored? || action.MainSessionRestoreFailed? || action.SessionOpened?
    || action.BotChatOpened? || action.SessionOpenFailed?
  }

  lemma {:induction false} RestoreKeepsFlight(s: AppState, resumed: seq<string>)
    ensures RestoreTabs(s, resumed).inFlightOpens == s.inFlightOpens
    ensures RestoreTabs(s, resumed).pendingKeys == s.pendingKeys
    ensures RestoreTabs(s, resumed).currentKey == s.currentKey
  {
    if |resumed| > 0 {
      RestoreKeepsFlight(s, resumed[..|resumed| - 1]);
    }
  }

  /** Exactly how an action moves the count of opens in flight. */
  lemma StepInFlight(s: AppState, action: Action)
    ensures Do(s, action).state.inFlightOpens
         == if action.SessionsCleared? then 0
            else if Starts(s, action) then s.inFlightOpens + 1
            else if Ends(action) && s.inFlightOpens > 0 then s.inFlightOpens - 1
            else s.inFlightOpens
  {
    hide DrainParked, ShowTab, OpenTabForProfile;
    if action.MainSessionRestored? {
      RestoreKeepsFlight(s, action.resumed);
    } else if action.SessionOpened? || action.BotChatOpened? {
      RegisterKeepsFlight(s, action.key);
    } else if action.TabClosed? {
      ClosedParts(s, action.key);
    }
  }

  lemma RegisterKeepsFlight(s: AppState, key: string)
    ensures var next := RegisterOpenedSession(s, key);
            && next.inFlightOpens == (if s.inFlightOpens > 0 then s.inFlightOpens - 1 else 0)
            && next.pendingKeys == s.pendingKeys - {key}
  {
  }

  /** How many opens a run started and did not see the end of. */
  function Balance(actions: seq<Action>): int {
    if |actions| == 0 then 0
    else
      var before, last := actions[..|actions| - 1], actions[|actions| - 1];
      if last.SessionsCleared? then 0
      else if Starts(RunApp(FRESH, before), last) then Balance(before) + 1
      else if Ends(last) then Balance(before) - 1
      else Balance(before)
  }

  /** No end without its start. */
  ghost predicate Matched(actions: seq<Action>) {
    forall n :: 0 <= n <= |actions| ==> Balance(actions[..n]) >= 0
  }

  /** In every run whose ends have their starts, the opens in flight are those started and not ended; and
      once all have ended nothing is parked. */
  lemma {:induction false} InFlightIsTheBalance(actions: seq<Action>)
    requires Matched(actions)
    ensures RunApp(FRESH, actions).inFlightOpens == Balance(actions)
    ensures Balance(actions) == 0 ==> RunApp(FRESH, actions).parkedChanges == []
  {
    TabStateHolds(actions);
    if |actions| > 0 {
      var before := actions[..|actions| - 1];
      forall n | 0 <= n <= |before| ensures Balance(before[..n]) >= 0 {
        assert before[..n] == actions[..n];
      }
      InFlightIsTheBalance(before);
      StepInFlight(RunApp(FRESH, before), actions[|actions| - 1]);
      assert actions[..|actions|] == actions;
    }
  }

  // ── Keys being restored ───────────────────────────────────────────────

  /** Exactly how an action moves the keys that are being restored. */
  lemma StepPending(s: AppState, action: Action, key: string)
    ensures key in Do(s, action).state.pendingKeys <==>
              match action
              case ResumePlanned(keys) => key in s.pendingKeys || key in keys
              case MainSessionRestored(planned, _, _, _) => key in s.pendingKeys && key !in planned
              case MainSessionRestoreFailed(planned) => key in s.pendingKeys && key !in planned
              case SessionOpened(k) => key in s.pendingKeys && key != k
              case BotChatOpened(k, _) => key in s.pendingKeys && key != k
              case SessionsCleared => false
              case _ => key in s.pendingKeys
  {
    hide DrainParked, ShowTab, OpenTabForProfile;
    if action.MainSessionRestored? {
      RestoreKeepsFlight(s, action.resumed);
    } else if action.SessionOpened? || action.BotChatOpened? {
      RegisterKeepsFlight(s, action.key);
    } else if action.TabClosed? {
      ClosedParts(s, action.key);
    }
  }

  // ── The strip ─────────────────────────────────────────────────────────

  /** The strip with these keys in turn put at its end, unless they are in it. */
  function WithEach(keys: seq<string>, more: seq<string>): seq<string>
    decreases |more|
  {
    if |more| == 0 then keys
    else WithEach(if more[0] in keys then keys else keys + [more[0]], more[1..])
  }

  lemma {:induction false} WithEachSnoc(keys: seq<string>, more: seq<string>, key: string)
    ensures var before := WithEach(keys, more);
            WithEach(keys, more + [key]) == if key in before then before else before + [key]
    decreases |more|
  {
    if |more| == 0 {
      assert (more + [key])[1..] == [];
    } else {
      assert (more + [key])[1..] == more[1..] + [key];
      WithEachSnoc(if more[0] in keys then keys else keys + [more[0]], more[1..], key);
    }
  }

  lemma {:induction false} RestoreTabKeys(s: AppState, resumed: seq<string>)
    ensures RestoreTabs(s, resumed).tabs.keys == WithEach(s.tabs.keys, resumed)
  {
    if |resumed| > 0 {
      var before, key := resumed[..|resumed| - 1], resumed[|resumed| - 1];
      RestoreTabKeys(s, before);
      WithEachSnoc(s.tabs.keys, before, key);
      assert resumed == before + [key];
    }
  }

  /** Exactly how an action moves the strip's keys: opened chats go to its end, in order, a closed one is
      taken out, and nothing else moves. */
  lemma StepTabKeys(s: AppState, action: Action)
    requires Distinct(s.tabs.keys)
    ensures var keys, after := s.tabs.keys, Do(s, action).state.tabs.keys;
            match action
            case SessionOpened(key) => after == WithEach(keys, [key])
            case BotChatOpened(key, _) => after == WithEach(keys, [key])
            case MainSessionRestored(_, resumed, _, _) => after == WithEach(keys, resumed)
            case TabClosed(key) => forall i :: 0 <= i < |keys| && keys[i] == key ==> after == keys[..i] + keys[i + 1..]
            case SessionsCleared => after == []
            case _ => after == keys
    ensures action.TabClosed? && action.key !in s.tabs.keys ==> Do(s, action).state.tabs.keys == s.tabs.keys
  {
    hide DrainParked, OpenTabForProfile;
    match action
    case MainSessionRestored(_, resumed, _, _) => RestoreTabKeys(s, resumed);
    case TabClosed(key) =>
      ClosedParts(s, key);
      forall i | 0 <= i < |s.tabs.keys| && s.tabs.keys[i] == key
        ensures Do(s, action).state.tabs.keys == s.tabs.keys[..i] + s.tabs.keys[i + 1..]
      {
        CloseShows(s.tabs, i);
      }
    case SessionOpened(key) => RegisteredKeys(s, key);
    case BotChatOpened(key, _) => RegisteredKeys(s, key);
    case _ =>
  }

  lemma RegisteredKeys(s: AppState, key: string)
    ensures RegisterOpenedSession(s, key).tabs.keys == WithEach(s.tabs.keys, [key])
  {
    assert [key][1..] == [];
  }

  /** The tab shown after closing tab `i`: its left neighbour if it was the one shown, or the next one if it
      was the first, or none if it was the only one; any other close leaves the tab shown. */
  lemma CloseShowsNeighbour(s: AppState, i: nat)
    requires TabsHold(s) && i < |s.tabs.keys|
    ensures var keys, after := s.tabs.keys, Do(s, TabClosed(s.tabs.keys[i])).state;
            && after.tabs.keys == keys[..i] + keys[i + 1..]
            && (s.currentKey != Some(keys[i]) ==> after.currentKey == s.currentKey)
            && (s.currentKey == Some(keys[i]) ==>
                  && (i > 0 ==> after.currentKey == Some(keys[i - 1]))
                  && (i == 0 && |keys| > 1 ==> after.currentKey == Some(keys[1]))
                  && (i == 0 && |keys| == 1 ==> after.currentKey == None))
  {
    CloseShows(s.tabs, i);
    TabClosedHolds(s, s.tabs.keys[i]);
  }

  /** The tab an action taps, if it taps one. */
  function Tapped(s: AppState, action: Action): Option<string> {
    match action
    case SwitchTab(key) => Some(key)
    case OpenExistingSession(key) => Some(key)
    case OpenBotChat(profile) => OpenTabForProfile(s.sessions, s.tabs.keys, profile)
    case _ => None
  }

  /** The action taps a tab that is not the one shown. */
  predicate Taps(s: AppState, action: Action, key: string) {
    Tapped(s, action) == Some(key) && key in s.tabs.keys && s.currentKey != Some(key)
  }

  /** Exactly which tab is shown after an action, closes aside. */
  lemma StepCurrent(s: AppState, action: Action)
    requires TabsHold(s) && !action.TabClosed?
    ensures var after := Do(s, action).state.currentKey;
            match action
            case SessionOpened(key) => after == Some(key)
            case BotChatOpened(key, _) => after == Some(key)
            case MainSessionRestored(_, resumed, _, current) =>
              after == (if current.Some? && current.value in resumed then current
                        else if resumed != [] then Some(resumed[|resumed| - 1])
                        else s.currentKey)
            case SessionsCleared => after == None
            case _ => after == if Tapped(s, action).Some? && Taps(s, action, Tapped(s, action).value)
                               then Tapped(s, action) else s.currentKey
  {
    hide DrainParked, ShowTab, OpenTabForProfile, RegisterOpenedSession;
    match action
    case MainSessionRestored(_, resumed, _, _) => RestoreKeepsFlight(s, resumed);
    case _ =>
  }

  // ── Each chat's session ───────────────────────────────────────────────

  /** The latest summary of a chat. */
  function LatestFor(summaries: seq<Summary>, key: string): Option<Summary> {
    if |summaries| == 0 then None
    else if summaries[|summaries| - 1].key == key then Some(summaries[|summaries| - 1])
    else LatestFor(summaries[..|summaries| - 1], key)
  }

  /** A session with what was parked for it, from nothing if need be. */
  function Drained(s: AppState, key: string): SessionUi {
    var session := ApplyEach(key, Look(s.sessions, key), ParkedFor(s.parkedChanges, key));
    if session.Some? then session.value else SessionUi(key, "", "", [], false, "")
  }

  /** What an action makes of one chat's session. */
  function SessionAfter(s: AppState, action: Action, key: string): Option<SessionUi> {
    var was := Look(s.sessions, key);
    var known := key in s.tabs.keys || key in s.pendingKeys;
    var session := if was.Some? then was.value else SessionUi(key, "", "", [], false, "");
    match action
    case SessionsCleared => None
    case TabClosed(k) => if k == key then None else was
    case SessionOpened(k) => if k == key then Some(Drained(s, key)) else was
    case BotChatOpened(k, profile) =>
      if k != key then was
      else Some(if Drained(s, key).profile == "" then Drained(s, key).(profile := profile) else Drained(s, key))
    case MainSessionRestored(_, resumed, summaries, _) =>
      var shown := if key in resumed then Some(Drained(s, key)) else was;
      var news := LatestFor(summaries, key);
      if shown.None? || news.None? then shown
      else Some(SessionUi(shown.value.key, news.value.title, shown.value.model, shown.value.rows,
                          news.value.running, news.value.profile))
    case SessionReady(k, summary) =>
      if k != key || summary.None? || !known then was
      else Some(SessionUi(session.key, summary.value.title, summary.value.model, session.rows,
                          summary.value.running, summary.value.profile))
    case HeaderRefreshed(k, fetched) =>
      if k != key || !known then was
      else Some(SessionUi(session.key, fetched.title, fetched.model, session.rows, fetched.running, fetched.profile))
    case TranscriptChanged(d) => if d.key == key && known then ApplyOne(key, was, d) else was
    case _ => was
  }

  lemma ShownSession(s: AppState, shown: string, key: string)
    ensures Look(ShowTab(DrainParked(s, shown), shown).sessions, key)
         == if key == shown then Some(Drained(s, key)) else Look(s.sessions, key)
  {
    LookAfterDrain(s, shown, key);
  }

  lemma {:induction false} LatestSeeds(sessions: map<string, SessionUi>, summaries: seq<Summary>, key: string)
    ensures Look(ApplySummaries(sessions, summaries), key)
         == var was, news := Look(sessions, key), LatestFor(summaries, key);
            if was.None? || news.None? then was
            else Some(SessionUi(was.value.key, news.value.title, was.value.model, was.value.rows,
                                news.value.running, news.value.profile))
  {
    if |summaries| > 0 {
      LatestSeeds(sessions, summaries[..|summaries| - 1], key);
    }
  }

  /** Each restored chat is drained once, however often it is listed. */
  lemma {:induction false} RestoredSession(s: AppState, resumed: seq<string>, key: string)
    ensures Look(RestoreTabs(s, resumed).sessions, key)
         == if key in resumed then Some(Drained(s, key)) else Look(s.sessions, key)
    ensures ParkedFor(RestoreTabs(s, resumed).parkedChanges, key)
         == if key in resumed then [] else ParkedFor(s.parkedChanges, key)
  {
    hide ParkedFor, ApplyEach;
    if |resumed| > 0 {
      var before, last := resumed[..|resumed| - 1], resumed[|resumed| - 1];
      var b := RestoreTabs(s, before);
      RestoredSession(s, before, key);
      ShownSession(b, last, key);
      DrainSparesOthers(b.parkedChanges, last, key);
      NoneToApply(key, Look(b.sessions, key));
      assert resumed == before + [last];
    }
  }

  lemma NoneToApply(key: string, session: Option<SessionUi>)
    ensures ApplyEach(key, session, []) == session
  {
  }

  lemma RegisteredSession(s: AppState, registered: string, key: string)
    ensures Look(RegisterOpenedSession(s, registered).sessions, key)
         == if key == registered then Some(Drained(s, key)) else Look(s.sessions, key)
  {
    hide ParkedFor, ApplyEach, DrainParked, ShowTab;
    ShownSession(s.(pendingKeys := s.pendingKeys + {registered}), registered, key);
  }

  /** Every action moves each chat's session exactly so, and no other chat's through it. */
  lemma StepSession(s: AppState, action: Action, key: string)
    ensures Look(Do(s, action).state.sessions, key) == SessionAfter(s, action, key)
  {
    hide ParkedFor, ApplyEach, ApplyOne, Drained, RegisterOpenedSession, RestoreTabs, ApplySummaries, OpenTabForProfile;
    match action
    case MainSessionRestored(_, resumed, summaries, _) =>
      RestoredSession(s, resumed, key);
      LatestSeeds(RestoreTabs(s, resumed).sessions, summaries, key);
    case SessionOpened(k) => RegisteredSession(s, k, key);
    case BotChatOpened(k, profile) => RegisteredSession(s, k, key);
    case TabClosed(k) => ClosedParts(s, k);
    case TranscriptChanged(d) => LookAfterChange(s.sessions, d, KnownKeys(s), key);
    case _ =>
  }

  // ── What the app does next ────────────────────────────────────────────

  /** Exactly when the app asks for a chat, for a close, for the summary of the tab it shows now, or for a
      fresh header. */
  lemma StepEffect(s: AppState, action: Action, key: string)
    requires TabsHold(s)
    ensures var effect := Do(s, action).effect;
            && (effect == CallOpen <==> Starts(s, action) && !action.ResumePlanned?)
            && (effect == CallClose(key) <==> action == CloseTab(key) && key in s.tabs.keys)
            && (effect == FetchReady(key) <==>
                  Taps(s, action, key) || ((action.SessionOpened? || action.BotChatOpened?) && action.key == key))
            && (effect == FetchHeader(key) <==>
                  && action.TranscriptChanged? && action.change.key == key && action.change.kind == HeaderChanged
                  && (key in s.tabs.keys || key in s.pendingKeys))
  {
    hide RegisterOpenedSession, OnRestored, OpenTabForProfile;
    if action.TabClosed? {
      TabClosedHolds(s, action.key);
    }
    if action.OpenBotChat? {
      var _ := ProfileIsFound(s.sessions, s.tabs.keys, action.profile);
    }
  }
}
