/** Changes for a session whose open is still in flight are parked, and drained when its key is known. */
module Parking {
  import opened Transcript
  import opened Replica
  import opened SessionTabs
  import opened AppSpec

  // ── One key at a time ─────────────────────────────────────────────────

  function Look(sessions: map<string, SessionUi>, key: string): Option<SessionUi> {
    if key in sessions then Some(sessions[key]) else None
  }

  /** One change, as the session it is for sees it. */
  function ApplyOne(key: string, session: Option<SessionUi>, d: Dto): Option<SessionUi> {
    var current := if session.Some? then session.value else NewSession(key);
    Some(if d.kind != HeaderChanged then current.(rows := Receive(current.rows, d))
         else if d.title != "" then current.(title := d.title)
         else current)
  }

  function ApplyEach(key: string, session: Option<SessionUi>, dtos: seq<Dto>): Option<SessionUi> {
    if |dtos| == 0 then session
    else ApplyOne(key, ApplyEach(key, session, dtos[..|dtos| - 1]), dtos[|dtos| - 1])
  }

  lemma ApplyEachSnoc(key: string, session: Option<SessionUi>, dtos: seq<Dto>, d: Dto)
    ensures ApplyEach(key, session, dtos + [d]) == ApplyOne(key, ApplyEach(key, session, dtos), d)
  {
    assert (dtos + [d])[..|dtos|] == dtos;
  }

  lemma LookAfterChange(sessions: map<string, SessionUi>, d: Dto, known: set<string>, k: string)
    ensures Look(ApplySessionChange(sessions, d, known), k)
         == if k == d.key && k in known then ApplyOne(k, Look(sessions, k), d) else Look(sessions, k)
  {
  }

  lemma {:induction false} LookAfterAll(
    sessions: map<string, SessionUi>, dtos: seq<Dto>, key: string, known: set<string>, k: string)
    requires key in known && forall i :: 0 <= i < |dtos| ==> dtos[i].key == key
    ensures Look(ApplyAll(sessions, dtos, known), k)
         == if k == key then ApplyEach(key, Look(sessions, key), dtos) else Look(sessions, k)
  {
    if |dtos| > 0 {
      var before, d := dtos[..|dtos| - 1], dtos[|dtos| - 1];
      LookAfterAll(sessions, before, key, known, k);
      LookAfterChange(ApplyAll(sessions, before, known), d, known, k);
    }
  }

  /** Draining changes one session, by exactly the changes parked for it. */
  lemma LookAfterDrain(s: AppState, key: string, k: string)
    ensures Look(DrainParked(s, key).sessions, k)
         == if k == key then ApplyEach(key, Look(s.sessions, key), ParkedFor(s.parkedChanges, key))
            else Look(s.sessions, k)
  {
    ParkedForIsOf(s.parkedChanges, key);
    LookAfterAll(s.sessions, ParkedFor(s.parkedChanges, key), key, KnownKeys(s) + {key}, k);
  }

  /** The rows a drained session shows are those of a replica that received its changes in order. */
  lemma {:induction false} DrainReplaysTheStream(key: string, session: Option<SessionUi>, dtos: seq<Dto>)
    requires dtos != []
    ensures ApplyEach(key, session, dtos).Some?
    ensures ApplyEach(key, session, dtos).value.rows
         == ReceiveAll(if session.Some? then session.value.rows else [], dtos)
  {
    var before := dtos[..|dtos| - 1];
    if before == [] {
      assert ReceiveAll(if session.Some? then session.value.rows else [], before)
          == if session.Some? then session.value.rows else [];
    } else {
      DrainReplaysTheStream(key, session, before);
    }
  }

  // ── Who is parked ─────────────────────────────────────────────────────

  lemma {:induction false} DrainsCommute(parked: seq<Dto>, a: string, b: string)
    ensures ParkedForOthers(ParkedForOthers(parked, a), b) == ParkedForOthers(ParkedForOthers(parked, b), a)
  {
    if |parked| > 0 {
      var before, d := parked[..|parked| - 1], parked[|parked| - 1];
      DrainsCommute(before, a, b);
      ParkedSnoc(ParkedForOthers(before, a), d, b);
      ParkedSnoc(ParkedForOthers(before, b), d, a);
      assert ParkedForOthers(before, a) + [] == ParkedForOthers(before, a);
      assert ParkedForOthers(before, b) + [] == ParkedForOthers(before, b);
    }
  }

  lemma {:induction false} NothingOfItsOwn(parked: seq<Dto>, key: string)
    requires ParkedFor(parked, key) == []
    ensures ParkedForOthers(parked, key) == parked
  {
    if |parked| > 0 {
      var before, d := parked[..|parked| - 1], parked[|parked| - 1];
      assert parked == before + [d];
      ParkedSnoc(before, d, key);
      NothingOfItsOwn(before, key);
    }
  }

  /** An open that finishes while others are in flight leaves their parked changes intact and in order. */
  lemma OverlappingOpensKeepTheirs(s: AppState, key: string, other: string)
    requires other != key && s.inFlightOpens > 1
    ensures ParkedFor(Do(s, SessionOpened(key)).state.parkedChanges, other) == ParkedFor(s.parkedChanges, other)
    ensures Look(Do(s, SessionOpened(key)).state.sessions, other) == Look(s.sessions, other)
  {
    hide ParkedFor, ParkedForOthers, ApplyAll, Add;
    DrainSparesOthers(s.parkedChanges, key, other);
    LookAfterDrain(s.(pendingKeys := s.pendingKeys + {key}), key, other);
  }

  // ── The two runs side by side ─────────────────────────────────────────

  /** `b` is where the run would be had `key` been known all along: what `a` parked for it, `b` applied. */
  ghost predicate Alike(a: AppState, b: AppState, key: string) {
    && key !in a.pendingKeys && key !in a.tabs.keys
    && b.pendingKeys == a.pendingKeys + {key}
    && b.tabs == a.tabs && b.currentKey == a.currentKey && b.inFlightOpens == a.inFlightOpens
    && b.parkedChanges == ParkedForOthers(a.parkedChanges, key)
    && SessionsAlike(a.sessions, b.sessions, key, ParkedFor(a.parkedChanges, key))
  }

  ghost predicate SessionsAlike(
    a: map<string, SessionUi>, b: map<string, SessionUi>, key: string, parked: seq<Dto>)
  {
    && (forall k :: k != key ==> Look(b, k) == Look(a, k))
    && Look(b, key) == ApplyEach(key, Look(a, key), parked)
  }

  /** The action names the key at most as that of a change, or in vain. */
  predicate Spares(action: Action, key: string) {
    match action
    case ResumePlanned(keys) => key !in keys
    case MainSessionRestored(planned, resumed, summaries, _) =>
      key !in planned && key !in resumed && forall i :: 0 <= i < |summaries| ==> summaries[i].key != key
    case MainSessionRestoreFailed(planned) => key !in planned
    case SessionsCleared => false
    case SessionOpened(k) => k != key
    case BotChatOpened(k, _) => k != key
    case SessionReady(k, _) => k != key
    case HeaderRefreshed(k, _) => k != key
    case TabClosed(k) => k != key
    case _ => true
  }

  lemma LookIsAll(a: map<string, SessionUi>, b: map<string, SessionUi>)
    requires forall k :: Look(a, k) == Look(b, k)
    ensures a == b
  {
    assert forall k :: k in a <==> Look(a, k).Some?;
    assert forall k :: k in b <==> Look(b, k).Some?;
    assert forall k | k in a :: a[k] == Look(a, k).value == Look(b, k).value == b[k];
  }

  lemma SameElsewhere(a: map<string, SessionUi>, b: map<string, SessionUi>, key: string, parked: seq<Dto>, k: string)
    requires SessionsAlike(a, b, key, parked) && k != key
    ensures k in a <==> k in b
    ensures k in a ==> a[k] == b[k]
  {
    assert Look(a, k) == Look(b, k);
  }

  lemma PutElsewhere(
    a: map<string, SessionUi>, b: map<string, SessionUi>, key: string, parked: seq<Dto>, k: string, v: SessionUi)
    requires SessionsAlike(a, b, key, parked) && k != key
    ensures SessionsAlike(a[k := v], b[k := v], key, parked)
  {
    var a', b' := a[k := v], b[k := v];
    forall j | j != key ensures Look(a', j) == Look(b', j) {
      assert Look(a, j) == Look(b, j);
    }
    assert Look(a', key) == Look(a, key) && Look(b', key) == Look(b, key);
  }

  lemma RemoveElsewhere(a: map<string, SessionUi>, b: map<string, SessionUi>, key: string, parked: seq<Dto>, k: string)
    requires SessionsAlike(a, b, key, parked) && k != key
    ensures SessionsAlike(a - {k}, b - {k}, key, parked)
  {
    var a', b' := a - {k}, b - {k};
    forall j | j != key ensures Look(a', j) == Look(b', j) {
      assert Look(a, j) == Look(b, j);
    }
    assert Look(a', key) == Look(a, key) && Look(b', key) == Look(b, key);
  }

  /** A change for the key itself: one run parks it, the other applies it. */
  lemma OwnChangeAlike(a: AppState, b: AppState, key: string, d: Dto)
    requires Alike(a, b, key) && a.inFlightOpens > 0 && |a.parkedChanges| < PARKED_MAX && d.key == key
    ensures Alike(Do(a, TranscriptChanged(d)).state, Do(b, TranscriptChanged(d)).state, key)
  {
    var mine := ParkedFor(a.parkedChanges, key);
    ParkedSnoc(a.parkedChanges, d, key);
    ApplyEachSnoc(key, Look(a.sessions, key), mine, d);
    var after := ApplySessionChange(b.sessions, d, KnownKeys(b));
    LookAfterChange(b.sessions, d, KnownKeys(b), key);
    forall k | k != key ensures Look(after, k) == Look(a.sessions, k) {
      LookAfterChange(b.sessions, d, KnownKeys(b), k);
      assert Look(b.sessions, k) == Look(a.sessions, k);
    }
    assert SessionsAlike(a.sessions, after, key, mine + [d]);
    assert Do(a, TranscriptChanged(d)).state == a.(parkedChanges := a.parkedChanges + [d]);
    assert Do(b, TranscriptChanged(d)).state == b.(sessions := after);
    assert ParkedForOthers(a.parkedChanges, key) + [] == ParkedForOthers(a.parkedChanges, key);
  }

  lemma OtherChangeAlike(a: AppState, b: AppState, key: string, d: Dto)
    requires Alike(a, b, key) && a.inFlightOpens > 0 && |a.parkedChanges| < PARKED_MAX && d.key != key
    ensures Alike(Do(a, TranscriptChanged(d)).state, Do(b, TranscriptChanged(d)).state, key)
  {
    OthersNoLonger(a.parkedChanges, key);
    ParkedSnoc(a.parkedChanges, d, key);
    var mine := ParkedFor(a.parkedChanges, key);
    assert mine + [] == mine;
    assert IsOpenOrRestoring(a, d.key) == IsOpenOrRestoring(b, d.key);
    if IsOpenOrRestoring(a, d.key) {
      SameElsewhere(a.sessions, b.sessions, key, mine, d.key);
      assert SessionOr(a.sessions, d.key) == SessionOr(b.sessions, d.key);
      var after := ApplySessionChange(a.sessions, d, KnownKeys(a));
      PutElsewhere(a.sessions, b.sessions, key, mine, d.key, after[d.key]);
      assert ApplySessionChange(b.sessions, d, KnownKeys(b)) == b.sessions[d.key := after[d.key]];
    }
  }

  lemma ChangeAlike(a: AppState, b: AppState, key: string, d: Dto)
    requires Alike(a, b, key) && a.inFlightOpens > 0 && |a.parkedChanges| < PARKED_MAX
    ensures Alike(Do(a, TranscriptChanged(d)).state, Do(b, TranscriptChanged(d)).state, key)
  {
    if d.key == key {
      OwnChangeAlike(a, b, key, d);
    } else {
      OtherChangeAlike(a, b, key, d);
    }
  }

  lemma DrainAlike(a: AppState, b: AppState, key: string, other: string)
    requires Alike(a, b, key) && other != key
    ensures Alike(DrainParked(a, other), DrainParked(b, other), key)
  {
    DrainSparesOthers(a.parkedChanges, key, other);
    DrainSparesOthers(a.parkedChanges, other, key);
    DrainsCommute(a.parkedChanges, key, other);
    forall k
      ensures Look(DrainParked(a, other).sessions, k)
           == if k == other then ApplyEach(other, Look(a.sessions, other), ParkedFor(a.parkedChanges, other))
              else Look(a.sessions, k)
      ensures Look(DrainParked(b, other).sessions, k)
           == if k == other then ApplyEach(other, Look(b.sessions, other), ParkedFor(b.parkedChanges, other))
              else Look(b.sessions, k)
    {
      LookAfterDrain(a, other, k);
      LookAfterDrain(b, other, k);
    }
  }

  lemma ShowAlike(a: AppState, b: AppState, key: string, other: string)
    requires Alike(a, b, key) && other != key
    ensures Alike(ShowTab(a, other), ShowTab(b, other), key)
  {
    var mine := ParkedFor(a.parkedChanges, key);
    SameElsewhere(a.sessions, b.sessions, key, mine, other);
    PutElsewhere(a.sessions, b.sessions, key, mine, other, NewSession(other));
  }

  lemma RegisterAlike(a: AppState, b: AppState, key: string, other: string)
    requires Alike(a, b, key) && other != key && a.inFlightOpens > 1
    ensures Alike(RegisterOpenedSession(a, other), RegisterOpenedSession(b, other), key)
  {
    var a', b' := a.(pendingKeys := a.pendingKeys + {other}), b.(pendingKeys := b.pendingKeys + {other});
    DrainAlike(a', b', key, other);
    ShowAlike(DrainParked(a', other), DrainParked(b', other), key, other);
  }

  lemma {:induction false} RestoreAlike(a: AppState, b: AppState, key: string, resumed: seq<string>)
    requires Alike(a, b, key) && key !in resumed
    ensures Alike(RestoreTabs(a, resumed), RestoreTabs(b, resumed), key)
    ensures RestoreTabs(a, resumed).inFlightOpens == a.inFlightOpens
  {
    if |resumed| > 0 {
      var before, other := resumed[..|resumed| - 1], resumed[|resumed| - 1];
      RestoreAlike(a, b, key, before);
      DrainAlike(RestoreTabs(a, before), RestoreTabs(b, before), key, other);
      ShowAlike(DrainParked(RestoreTabs(a, before), other), DrainParked(RestoreTabs(b, before), other), key, other);
    }
  }

  lemma {:induction false} SummariesAlike(
    a: map<string, SessionUi>, b: map<string, SessionUi>, summaries: seq<Summary>, key: string, parked: seq<Dto>)
    requires SessionsAlike(a, b, key, parked)
    requires forall i :: 0 <= i < |summaries| ==> summaries[i].key != key
    ensures SessionsAlike(ApplySummaries(a, summaries), ApplySummaries(b, summaries), key, parked)
  {
    if |summaries| > 0 {
      SummariesAlike(a, b, summaries[..|summaries| - 1], key, parked);
      var a', b' := ApplySummaries(a, summaries[..|summaries| - 1]), ApplySummaries(b, summaries[..|summaries| - 1]);
      var k := summaries[|summaries| - 1].key;
      SameElsewhere(a', b', key, parked, k);
      if k in a' {
        PutElsewhere(a', b', key, parked, k, Seeded(a'[k], summaries[|summaries| - 1]));
      }
    }
  }

  lemma RestoredAlike(
    a: AppState, b: AppState, key: string,
    planned: seq<string>, resumed: seq<string>, summaries: seq<Summary>, current: Option<string>)
    requires Alike(a, b, key) && a.inFlightOpens > 1
    requires Spares(MainSessionRestored(planned, resumed, summaries, current), key)
    ensures Alike(OnRestored(a, planned, resumed, summaries, current),
                  OnRestored(b, planned, resumed, summaries, current), key)
  {
    RestoreAlike(a, b, key, resumed);
    var a', b' := RestoreTabs(a, resumed), RestoreTabs(b, resumed);
    SummariesAlike(a'.sessions, b'.sessions, summaries, key, ParkedFor(a'.parkedChanges, key));
  }

  lemma {:induction false} ProfileAlike(
    a: map<string, SessionUi>, b: map<string, SessionUi>, order: seq<string>, profile: string)
    requires forall k :: k in order ==> Look(a, k) == Look(b, k)
    ensures OpenTabForProfile(a, order, profile) == OpenTabForProfile(b, order, profile)
  {
    if |order| > 0 {
      assert Look(a, order[0]) == Look(b, order[0]);
      ProfileAlike(a, b, order[1..], profile);
    }
  }

  lemma SwitchAlike(a: AppState, b: AppState, key: string, tapped: string)
    requires Alike(a, b, key)
    ensures Alike(PerformSwitchTab(a, tapped).state, PerformSwitchTab(b, tapped).state, key)
  {
  }

  lemma DescribeAlike(a: AppState, b: AppState, key: string, other: string, summary: Summary)
    requires Alike(a, b, key) && other != key
    ensures Alike(Described(a, other, summary), Described(b, other, summary), key)
    ensures IsOpenOrRestoring(a, other) == IsOpenOrRestoring(b, other)
  {
    var mine := ParkedFor(a.parkedChanges, key);
    SameElsewhere(a.sessions, b.sessions, key, mine, other);
    PutElsewhere(a.sessions, b.sessions, key, mine, other, Described(a, other, summary).sessions[other]);
  }

  /** What closing a tab makes of the session map and the parked changes. */
  lemma ClosedParts(s: AppState, key: string)
    ensures var closed := OnTabClosed(s, key).state;
            && closed.tabs == Close(s.tabs, key) && closed.sessions == s.sessions - {key}
            && closed.parkedChanges == s.parkedChanges && closed.pendingKeys == s.pendingKeys
            && closed.inFlightOpens == s.inFlightOpens
  {
    hide Close;
  }

  lemma CloseAlike(a: AppState, b: AppState, key: string, other: string)
    requires Alike(a, b, key) && other != key
    ensures Alike(OnTabClosed(a, other).state, OnTabClosed(b, other).state, key)
  {
    hide ParkedFor, ParkedForOthers, SessionsAlike, Close;
    RemoveElsewhere(a.sessions, b.sessions, key, ParkedFor(a.parkedChanges, key), other);
    if key in Close(a.tabs, other).keys {
      CloseAddsNoKey(a.tabs, other, key);
    }
    ClosedParts(a, other);
    ClosedParts(b, other);
    assert OnTabClosed(a, other).state.currentKey == OnTabClosed(b, other).state.currentKey;
  }

  function Profiled(s: AppState, key: string, profile: string): AppState {
    s.(sessions := WithProfile(s.sessions, key, profile), currentKey := Some(key))
  }

  lemma BotChatIsProfiled(s: AppState, key: string, profile: string)
    ensures Do(s, BotChatOpened(key, profile)).state == Profiled(RegisterOpenedSession(s, key), key, profile)
  {
  }

  lemma BotChatAlike(a: AppState, b: AppState, key: string, other: string, profile: string)
    requires Alike(a, b, key) && other != key && a.inFlightOpens > 1
    ensures Alike(Do(a, BotChatOpened(other, profile)).state, Do(b, BotChatOpened(other, profile)).state, key)
  {
    RegisterAlike(a, b, key, other);
    ProfiledAlike(RegisterOpenedSession(a, other), RegisterOpenedSession(b, other), key, other, profile);
    BotChatIsProfiled(a, other, profile);
    BotChatIsProfiled(b, other, profile);
  }

  lemma ProfiledAlike(a: AppState, b: AppState, key: string, other: string, profile: string)
    requires Alike(a, b, key) && other != key
    ensures Alike(Profiled(a, other, profile), Profiled(b, other, profile), key)
  {
    var mine := ParkedFor(a.parkedChanges, key);
    SameElsewhere(a.sessions, b.sessions, key, mine, other);
    if other in a.sessions {
      PutElsewhere(a.sessions, b.sessions, key, mine, other, a.sessions[other].(profile := profile));
    }
  }

  /** The action does not end the last open in flight, and nothing parked is pushed out. */
  predicate LeavesRoom(s: AppState, action: Action) {
    && Do(s, action).state.inFlightOpens > 0
    && (action.TranscriptChanged? ==> |s.parkedChanges| < PARKED_MAX)
  }

  lemma StepAlike(a: AppState, b: AppState, key: string, action: Action)
    requires Alike(a, b, key) && a.inFlightOpens > 0 && Spares(action, key) && LeavesRoom(a, action)
    ensures Alike(Do(a, action).state, Do(b, action).state, key)
  {
    match action
    case MainSessionRestored(planned, resumed, summaries, current) =>
      RestoreAlike(a, b, key, resumed);
      RestoredAlike(a, b, key, planned, resumed, summaries, current);
    case OpenExistingSession(k) => SwitchAlike(a, b, key, k);
    case OpenBotChat(profile) =>
      ProfileAlike(a.sessions, b.sessions, a.tabs.keys, profile);
      var open := OpenTabForProfile(a.sessions, a.tabs.keys, profile);
      if open.Some? { SwitchAlike(a, b, key, open.value); }
    case SwitchTab(k) => SwitchAlike(a, b, key, k);
    case SessionOpened(k) => RegisterAlike(a, b, key, k);
    case BotChatOpened(k, profile) => BotChatAlike(a, b, key, k, profile);
    case SessionReady(k, summary) =>
      if summary.Some? { DescribeAlike(a, b, key, k, summary.value); }
    case HeaderRefreshed(k, fetched) => DescribeAlike(a, b, key, k, fetched);
    case TabClosed(k) => CloseAlike(a, b, key, k);
    case TranscriptChanged(d) => ChangeAlike(a, b, key, d);
    case _ =>
  }

  /** Every action of the run spares the key and leaves room. */
  ghost predicate WhileOpening(s: AppState, actions: seq<Action>, key: string) {
    |actions| == 0 ||
    (var before, last := actions[..|actions| - 1], actions[|actions| - 1];
     WhileOpening(s, before, key) && Spares(last, key) && LeavesRoom(RunApp(s, before), last))
  }

  lemma {:induction false} RunAlike(s: AppState, actions: seq<Action>, key: string)
    requires key !in s.tabs.keys && key !in s.pendingKeys && s.inFlightOpens > 0
    requires ParkedFor(s.parkedChanges, key) == [] && WhileOpening(s, actions, key)
    ensures Alike(RunApp(s, actions), RunApp(s.(pendingKeys := s.pendingKeys + {key}), actions), key)
    ensures RunApp(s, actions).inFlightOpens > 0
  {
    if |actions| == 0 {
      NothingOfItsOwn(s.parkedChanges, key);
    } else {
      var before := actions[..|actions| - 1];
      RunAlike(s, before, key);
      StepAlike(RunApp(s, before), RunApp(s.(pendingKeys := s.pendingKeys + {key}), before), key,
                actions[|actions| - 1]);
    }
  }

  lemma RegisteringJoins(a: AppState, b: AppState, key: string)
    requires Alike(a, b, key)
    ensures RegisterOpenedSession(a, key) == RegisterOpenedSession(b, key)
  {
    DrainSparesOthers(a.parkedChanges, key, key);
    NothingOfItsOwn(b.parkedChanges, key);
    var a', b' := a.(pendingKeys := a.pendingKeys + {key}), b.(pendingKeys := b.pendingKeys + {key});
    assert a'.pendingKeys == b'.pendingKeys;
    forall k ensures Look(DrainParked(a', key).sessions, k) == Look(DrainParked(b', key).sessions, k) {
      LookAfterDrain(a', key, k);
      LookAfterDrain(b', key, k);
    }
    LookIsAll(DrainParked(a', key).sessions, DrainParked(b', key).sessions);
    assert DrainParked(a', key) == DrainParked(b', key);
  }

  /** Whatever happens while an open is in flight, parking its changes until its key is known and then
      draining them leaves the app in the very state it would be in had the key been known from the
      start: this session, every other one, and what stays parked for other opens. */
  lemma ParkingIsTransparent(s: AppState, actions: seq<Action>, key: string, profile: string)
    requires key !in s.tabs.keys && key !in s.pendingKeys && s.inFlightOpens > 0
    requires ParkedFor(s.parkedChanges, key) == [] && WhileOpening(s, actions, key)
    ensures var parked, known := RunApp(s, actions), RunApp(s.(pendingKeys := s.pendingKeys + {key}), actions);
            && Do(parked, SessionOpened(key)).state == Do(known, SessionOpened(key)).state
            && Do(parked, BotChatOpened(key, profile)).state == Do(known, BotChatOpened(key, profile)).state
  {
    RunAlike(s, actions, key);
    RegisteringJoins(RunApp(s, actions), RunApp(s.(pendingKeys := s.pendingKeys + {key}), actions), key);
  }

  // ── Where the limit is ────────────────────────────────────────────────

  function ParkAll(parked: seq<Dto>, changes: seq<Dto>): seq<Dto> {
    if |changes| == 0 then parked else Park(ParkAll(parked, changes[..|changes| - 1]), changes[|changes| - 1])
  }

  lemma ParkAllSnoc(parked: seq<Dto>, changes: seq<Dto>, d: Dto)
    ensures ParkAll(parked, changes + [d]) == Park(ParkAll(parked, changes), d)
  {
    assert (changes + [d])[..|changes|] == changes;
  }

  function Newest(changes: seq<Dto>): seq<Dto> {
    if |changes| <= PARKED_MAX then changes else changes[|changes| - PARKED_MAX..]
  }

  lemma ParkOnNewest(all: seq<Dto>, d: Dto)
    ensures Park(Newest(all), d) == Newest(all + [d])
  {
  }

  /** Of any number of parked changes the newest 512 are kept, in order. */
  lemma {:induction false} ParkKeepsTheNewest(parked: seq<Dto>, changes: seq<Dto>)
    requires |parked| <= PARKED_MAX
    ensures ParkAll(parked, changes) == Newest(parked + changes)
  {
    hide Park, Newest;
    if |changes| == 0 {
      assert parked + changes == parked;
      FewAreNewest(parked);
    } else {
      var before, d := changes[..|changes| - 1], changes[|changes| - 1];
      ParkKeepsTheNewest(parked, before);
      ParkOnNewest(parked + before, d);
      assert parked + changes == (parked + before) + [d];
    }
  }

  lemma FewAreNewest(changes: seq<Dto>)
    requires |changes| <= PARKED_MAX
    ensures Newest(changes) == changes
  {
  }
}
