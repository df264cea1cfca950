/** The core and the app together: what the app shows follows the core through parking, draining, tabs
    opening and closing, and every other action of the app. */
module AppMirror {
  import opened Transcript
  import opened ReducerSpec
  import opened ReducerInvariants
  import opened Replica
  import opened Mirror
  import opened Registry
  import opened CoreSpec
  import opened Routing
  import opened SystemMirror
  import App = AppSpec
  import Parking

  // ── What the app shows of a chat ──────────────────────────────────────

  function RowsIn(session: Option<SessionUi>): seq<RowText> {
    if session.Some? then session.value.rows else []
  }

  /** The rows the app has for a chat, once it has drained what it parked for it. */
  function Shows(app: App.AppState, key: string): seq<RowText> {
    ReceiveAll(RowsIn(Parking.Look(app.sessions, key)), App.ParkedFor(app.parkedChanges, key))
  }

  /** The app takes these changes in, one by one. */
  function Hear(app: App.AppState, dtos: seq<Dto>): App.AppState {
    if |dtos| == 0 then app
    else App.Do(Hear(app, dtos[..|dtos| - 1]), App.TranscriptChanged(dtos[|dtos| - 1])).state
  }

  /** The app can take this many changes for the chat: it knows the key and has nothing parked for it, or
      an open is in flight and there is room to park them. */
  predicate Takes(app: App.AppState, key: string, count: nat) {
    if App.IsOpenOrRestoring(app, key) then App.ParkedFor(app.parkedChanges, key) == []
    else app.inFlightOpens > 0 && |app.parkedChanges| + count <= App.PARKED_MAX
  }

  lemma ReceiveAllSnoc(rows: seq<RowText>, dtos: seq<Dto>, d: Dto)
    ensures ReceiveAll(rows, dtos + [d]) == Receive(ReceiveAll(rows, dtos), d)
  {
    assert (dtos + [d])[..|dtos|] == dtos;
  }

  lemma HearKnown(app: App.AppState, d: Dto, key: string)
    requires App.IsOpenOrRestoring(app, d.key) && App.ParkedFor(app.parkedChanges, d.key) == []
    ensures var next := App.OnTranscriptChange(app, d).state;
            Shows(next, key) == if key == d.key then Receive(Shows(app, key), d) else Shows(app, key)
  {
    Parking.LookAfterChange(app.sessions, d, App.KnownKeys(app), key);
  }

  lemma HearUnknown(app: App.AppState, d: Dto, key: string)
    requires !App.IsOpenOrRestoring(app, d.key) && app.inFlightOpens > 0 && |app.parkedChanges| < App.PARKED_MAX
    ensures var next := App.OnTranscriptChange(app, d).state;
            Shows(next, key) == if key == d.key then Receive(Shows(app, key), d) else Shows(app, key)
  {
    hide Receive;
    App.ParkedSnoc(app.parkedChanges, d, key);
    var mine := App.ParkedFor(app.parkedChanges, key);
    assert mine + [] == mine;
    ReceiveAllSnoc(RowsIn(Parking.Look(app.sessions, key)), mine, d);
  }

  /** The change reaches what the app shows of its chat, applied at once or parked, and no other chat. */
  lemma HearOne(app: App.AppState, d: Dto, key: string)
    requires Takes(app, d.key, 1)
    ensures var next := App.Do(app, App.TranscriptChanged(d)).state;
            Shows(next, key) == if key == d.key then Receive(Shows(app, key), d) else Shows(app, key)
  {
    hide App.OnTranscriptChange, Shows, Receive;
    if App.IsOpenOrRestoring(app, d.key) {
      HearKnown(app, d, key);
    } else {
      HearUnknown(app, d, key);
    }
  }

  /** The app's standing after a change: the same tabs and opens, one more parked at most. */
  lemma HearKeepsStanding(app: App.AppState, d: Dto, key: string)
    requires Takes(app, d.key, 1)
    ensures var next := App.Do(app, App.TranscriptChanged(d)).state;
            && next.tabs == app.tabs && next.pendingKeys == app.pendingKeys
            && next.inFlightOpens == app.inFlightOpens
            && |next.parkedChanges| <= |app.parkedChanges| + 1
            && (App.IsOpenOrRestoring(app, d.key) ==> next.parkedChanges == app.parkedChanges)
  {
  }

  lemma {:induction false} HearAll(app: App.AppState, dtos: seq<Dto>, owner: string, key: string)
    requires Takes(app, owner, |dtos|) && forall i :: 0 <= i < |dtos| ==> dtos[i].key == owner
    ensures Shows(Hear(app, dtos), key)
         == if key == owner then ReceiveAll(Shows(app, key), dtos) else Shows(app, key)
    ensures forall more: nat :: Takes(app, owner, |dtos| + more) ==> Takes(Hear(app, dtos), owner, more)
  {
    if |dtos| > 0 {
      var before, d := dtos[..|dtos| - 1], dtos[|dtos| - 1];
      HearAll(app, before, owner, key);
      assert Takes(app, owner, |before| + 1) && Takes(Hear(app, before), owner, 1);
      HearOne(Hear(app, before), d, key);
      HearKeepsStanding(Hear(app, before), d, key);
      forall more: nat | Takes(app, owner, |dtos| + more) ensures Takes(Hear(app, dtos), owner, more) {
        assert Takes(app, owner, |before| + (more + 1)) && Takes(Hear(app, before), owner, more + 1);
      }
    }
  }

  // ── What the app's own actions leave alone ────────────────────────────

  lemma DrainKeepsShown(app: App.AppState, drained: string, key: string)
    ensures Shows(App.DrainParked(app, drained), key) == Shows(app, key)
    ensures App.ParkedFor(App.DrainParked(app, drained).parkedChanges, key)
         == if key == drained then [] else App.ParkedFor(app.parkedChanges, key)
  {
    Parking.LookAfterDrain(app, drained, key);
    App.DrainSparesOthers(app.parkedChanges, drained, key);
    var mine := App.ParkedFor(app.parkedChanges, key);
    if key == drained && mine != [] {
      Parking.DrainReplaysTheStream(key, Parking.Look(app.sessions, key), mine);
    }
  }

  lemma ShowTabKeepsShown(app: App.AppState, shown: string, key: string)
    ensures Shows(App.ShowTab(app, shown), key) == Shows(app, key)
  {
  }

  /** The open ends, and either others are in flight or nothing is parked for this chat. */
  lemma FinishKeepsShown(app: App.AppState, key: string)
    requires app.inFlightOpens > 1 || App.ParkedFor(app.parkedChanges, key) == []
    ensures Shows(App.FinishInFlightOpen(app), key) == Shows(app, key)
  {
  }

  lemma RegisterKeepsShown(app: App.AppState, registered: string, key: string)
    requires app.inFlightOpens > 1 || key == registered || App.ParkedFor(app.parkedChanges, key) == []
    ensures Shows(App.RegisterOpenedSession(app, registered), key) == Shows(app, key)
  {
    var pending := app.(pendingKeys := app.pendingKeys + {registered});
    DrainKeepsShown(pending, registered, key);
    ShowTabKeepsShown(App.DrainParked(pending, registered), registered, key);
    var shown := App.ShowTab(App.DrainParked(pending, registered), registered);
    FinishKeepsShown(shown.(pendingKeys := shown.pendingKeys - {registered}), key);
  }

  lemma {:induction false} RestoreKeepsShown(app: App.AppState, resumed: seq<string>, key: string)
    ensures var next := App.RestoreTabs(app, resumed);
            && Shows(next, key) == Shows(app, key) && next.inFlightOpens == app.inFlightOpens
            && App.ParkedFor(next.parkedChanges, key)
               == if key in resumed then [] else App.ParkedFor(app.parkedChanges, key)
  {
    hide Shows, App.ParkedFor, App.ShowTab, App.DrainParked;
    if |resumed| > 0 {
      var before, last := resumed[..|resumed| - 1], resumed[|resumed| - 1];
      RestoreKeepsShown(app, before, key);
      RestoreOneKeepsShown(App.RestoreTabs(app, before), last, key);
      assert resumed == before + [last];
    }
  }

  lemma RestoreOneKeepsShown(app: App.AppState, shown: string, key: string)
    ensures var next := App.ShowTab(App.DrainParked(app, shown), shown);
            && Shows(next, key) == Shows(app, key) && next.inFlightOpens == app.inFlightOpens
            && App.ParkedFor(next.parkedChanges, key)
               == if key == shown then [] else App.ParkedFor(app.parkedChanges, key)
  {
    hide Shows, App.ParkedFor;
    DrainKeepsShown(app, shown, key);
    ShowTabKeepsShown(App.DrainParked(app, shown), shown, key);
  }

  lemma {:induction false} SummariesKeepRows(sessions: map<string, SessionUi>, summaries: seq<App.Summary>, key: string)
    ensures RowsIn(Parking.Look(App.ApplySummaries(sessions, summaries), key)) == RowsIn(Parking.Look(sessions, key))
  {
    if |summaries| > 0 {
      SummariesKeepRows(sessions, summaries[..|summaries| - 1], key);
    }
  }

  lemma RestoredKeepsShown(
    app: App.AppState, planned: seq<string>, resumed: seq<string>, summaries: seq<App.Summary>,
    current: Option<string>, key: string)
    requires app.inFlightOpens > 1 || key in resumed || App.ParkedFor(app.parkedChanges, key) == []
    ensures Shows(App.OnRestored(app, planned, resumed, summaries, current), key) == Shows(app, key)
  {
    RestoreKeepsShown(app, resumed, key);
    SummariesKeepRows(App.RestoreTabs(app, resumed).sessions, summaries, key);
  }

  /** An action of the app that respects the chats open in the core: it clears or closes only what the
      core has cleared or closed, and ends the last open in flight only when nothing is parked for
      another of them. Changes come from the core alone. */
  ghost predicate Careful(c: Core, app: App.AppState, action: App.Action) {
    match action
    case TranscriptChanged(_) => false
    case SessionsCleared => c.sessions == map[]
    case TabClosed(k) => k !in c.sessions
    case SessionOpened(k) => EndsNoOther(c, app, {k})
    case BotChatOpened(k, _) => EndsNoOther(c, app, {k})
    case MainSessionRestored(_, resumed, _, _) => EndsNoOther(c, app, set k | k in resumed)
    case MainSessionRestoreFailed(_) => EndsNoOther(c, app, {})
    case SessionOpenFailed => EndsNoOther(c, app, {})
    case _ => true
  }

  ghost predicate EndsNoOther(c: Core, app: App.AppState, drained: set<string>) {
    app.inFlightOpens > 1
    || forall key :: key in c.sessions && key !in drained ==> App.ParkedFor(app.parkedChanges, key) == []
  }

  lemma ActionKeepsShown(c: Core, app: App.AppState, action: App.Action, key: string)
    requires Careful(c, app, action) && key in c.sessions
    ensures Shows(App.Do(app, action).state, key) == Shows(app, key)
  {
    hide App.RegisterOpenedSession, App.OnRestored, App.ParkedFor;
    match action
    case MainSessionRestored(planned, resumed, summaries, current) =>
      RestoredKeepsShown(app, planned, resumed, summaries, current, key);
    case MainSessionRestoreFailed(planned) =>
      FinishKeepsShown(app.(pendingKeys := app.pendingKeys - (set k | k in planned)), key);
    case SessionOpened(k) => RegisterKeepsShown(app, k, key);
    case BotChatOpened(k, profile) => RegisterKeepsShown(app, k, key);
    case SessionOpenFailed => FinishKeepsShown(app, key);
    case _ =>
  }

  // ── The two together ──────────────────────────────────────────────────

  datatype Whole = Whole(core: Core, app: App.AppState)

  datatype Move = CoreMoves(step: Step) | AppMoves(action: App.Action)

  /** A section of the core, its changes delivered to the app; or an action of the app. */
  function Advance(w: Whole, move: Move): Whole
    requires Sound(w.core)
  {
    match move
    case CoreMoves(step) => Whole(Do(w.core, step).core, Hear(w.app, Do(w.core, step).dtos))
    case AppMoves(action) => w.(app := App.Do(w.app, action).state)
  }

  /** The core's changes find the app ready for them, an open without history finds nothing on show, and
      the app's actions are careful. */
  ghost predicate Orderly(w: Whole, move: Move)
    requires Sound(w.core)
  {
    match move
    case CoreMoves(step) =>
      var dtos := Do(w.core, step).dtos;
      && (dtos != [] ==> Takes(w.app, dtos[0].key, |dtos|))
      && (step.Open? && step.messages == [] ==> Shows(w.app, step.key) == [])
    case AppMoves(action) => Careful(w.core, w.app, action)
  }

  ghost predicate Mirrored(w: Whole) {
    forall key :: key in w.core.sessions ==> Mirrors(w.core.sessions[key].reducer.rows, Shows(w.app, key))
  }

  /** A rebuild shows the same over any rows. */
  lemma IngestForgets(messages: seq<ResumeMessage>, key: string, replica: seq<RowText>)
    ensures var o := IngestMessages(messages);
            Mirrors(o.state.rows, ReceiveAll(replica, ToDtos(key, o.changes, o.state.rows, "")))
  {
    var o := IngestMessages(messages);
    var dtos := ToDtos(key, o.changes, o.state.rows, "");
    IngestMirrors(messages, key, "", []);
    assert dtos == [dtos[0]] + dtos[1..];
    ReceiveAllConcat(replica, [dtos[0]], dtos[1..]);
    ReceiveAllConcat([], [dtos[0]], dtos[1..]);
    ReceiveOne(replica, dtos[0]);
    ReceiveOne([], dtos[0]);
  }

  /** What a step delivers is for its target. */
  lemma DtosOfTarget(c: Core, step: Step)
    requires Sound(c) && Do(c, step).dtos != []
    ensures forall i :: 0 <= i < |Do(c, step).dtos| ==> Target(c, step) == Some(Do(c, step).dtos[i].key)
  {
    forall i | 0 <= i < |Do(c, step).dtos| ensures Target(c, step) == Some(Do(c, step).dtos[i].key) {
      DtosCarryTheOwner(c, step, i);
    }
  }

  /** What the app shows after a core step: its target's changes received, every other chat as it was. */
  lemma StepShows(w: Whole, step: Step, key: string)
    requires Sound(w.core) && Orderly(w, CoreMoves(step))
    ensures Shows(Advance(w, CoreMoves(step)).app, key)
         == if Target(w.core, step) == Some(key) then ReceiveAll(Shows(w.app, key), Do(w.core, step).dtos)
            else Shows(w.app, key)
  {
    hide Do, Takes, Shows;
    var dtos := Do(w.core, step).dtos;
    if dtos != [] {
      DtosOfTarget(w.core, step);
      HearAll(w.app, dtos, dtos[0].key, key);
    }
  }

  lemma OpenMirrors(c: Core, step: Step, replica: seq<RowText>)
    requires Sound(c) && step.Open? && (step.messages == [] ==> replica == [])
    ensures var e := Do(c, step);
            step.key in e.core.sessions
            && Mirrors(e.core.sessions[step.key].reducer.rows, ReceiveAll(replica, e.dtos))
  {
    if step.messages != [] {
      IngestForgets(step.messages, step.key, replica);
    }
  }

  lemma StepMirrors(w: Whole, step: Step, key: string)
    requires Sound(w.core) && Mirrored(w) && Orderly(w, CoreMoves(step))
    requires key in Do(w.core, step).core.sessions
    ensures Mirrors(Do(w.core, step).core.sessions[key].reducer.rows, Shows(Advance(w, CoreMoves(step)).app, key))
  {
    hide Shows, Takes, Mirrors, WellFormed;
    StepShows(w, step, key);
    if step.Clear? {
    } else if Target(w.core, step) != Some(key) {
      OthersUntouched(w.core, step, key);
    } else if step.Open? {
      OpenMirrors(w.core, step, Shows(w.app, key));
    } else if !step.CloseTab? {
      if key in w.core.sessions {
        OwnChatMirrors(w.core, step, key, Shows(w.app, key));
      } else {
        ClosedChatSilent(w.core, step, key);
      }
    }
  }

  lemma MoveMirrors(w: Whole, move: Move)
    requires Sound(w.core) && Mirrored(w) && Orderly(w, move)
    ensures Sound(Advance(w, move).core) && Mirrored(Advance(w, move))
  {
    hide Shows, WellFormed, Do, Mirrors;
    match move
    case CoreMoves(step) =>
      DoSound(w.core, step);
      forall key | key in Do(w.core, step).core.sessions
        ensures Mirrors(Do(w.core, step).core.sessions[key].reducer.rows, Shows(Advance(w, move).app, key))
      {
        StepMirrors(w, step, key);
      }
    case AppMoves(action) =>
      forall key | key in w.core.sessions ensures Shows(Advance(w, move).app, key) == Shows(w.app, key) {
        ActionKeepsShown(w.core, w.app, action, key);
      }
  }

  /** The tabs are proper, and nothing is parked for any. */
  ghost predicate TabsStand(app: App.AppState) {
    App.TabsHold(app) && App.TabsDrained(app)
  }

  lemma {:induction false} HearStands(app: App.AppState, dtos: seq<Dto>)
    requires TabsStand(app)
    ensures TabsStand(Hear(app, dtos))
  {
    if |dtos| > 0 {
      HearStands(app, dtos[..|dtos| - 1]);
      App.DoHolds(Hear(app, dtos[..|dtos| - 1]), App.TranscriptChanged(dtos[|dtos| - 1]));
      App.DoDrains(Hear(app, dtos[..|dtos| - 1]), App.TranscriptChanged(dtos[|dtos| - 1]));
    }
  }

  /** The two after a run, or nothing if a move on the way was out of order. */
  ghost function RunWhole(w: Whole, moves: seq<Move>): (r: Option<Whole>)
    requires Sound(w.core) && Mirrored(w)
    ensures r.Some? ==> Sound(r.value.core) && Mirrored(r.value)
    decreases |moves|
  {
    if |moves| == 0 then Some(w)
    else
      var before := RunWhole(w, moves[..|moves| - 1]);
      if before.None? || !Orderly(before.value, moves[|moves| - 1]) then None
      else
        MoveMirrors(before.value, moves[|moves| - 1]);
        Some(Advance(before.value, moves[|moves| - 1]))
  }

  lemma {:induction false} RunKeepsTabs(known: Tabs, moves: seq<Move>)
    ensures var w := Whole(NewCore(known), App.FRESH);
            RunWhole(w, moves).Some? ==> TabsStand(RunWhole(w, moves).value.app)
  {
    hide Mirrored, Orderly, WellFormed;
    var w := Whole(NewCore(known), App.FRESH);
    FreshIsMirrored(known);
    if |moves| > 0 {
      RunKeepsTabs(known, moves[..|moves| - 1]);
      var before := RunWhole(w, moves[..|moves| - 1]);
      if before.Some? && Orderly(before.value, moves[|moves| - 1]) {
        match moves[|moves| - 1]
        case CoreMoves(step) => HearStands(before.value.app, Do(before.value.core, step).dtos);
        case AppMoves(action) =>
          App.DoHolds(before.value.app, action);
          App.DoDrains(before.value.app, action);
      }
    }
  }

  lemma FreshIsMirrored(known: Tabs)
    ensures Sound(NewCore(known)) && Mirrored(Whole(NewCore(known), App.FRESH))
  {
  }

  /** Over every orderly run of the core and the app together, opens and restores, events, sends,
      answers, rebuilds, tabs switched and closed, changes parked and drained: each tab of an open chat
      shows exactly the core's rows, rendered one by one, if and only if they fit the index space. */
  lemma EveryTabShowsTheCore(known: Tabs, moves: seq<Move>, key: string)
    ensures Sound(NewCore(known)) && Mirrored(Whole(NewCore(known), App.FRESH))
    ensures var r := RunWhole(Whole(NewCore(known), App.FRESH), moves);
            r.Some? && key in r.value.core.sessions && key in r.value.app.tabs.keys ==>
              var rows := r.value.core.sessions[key].reducer.rows;
              && key in r.value.app.sessions
              && (r.value.app.sessions[key].rows == Render(rows) <==> |rows| <= ROW_LIMIT)
  {
    FreshIsMirrored(known);
    RunKeepsTabs(known, moves);
  }
}
