/** A chat opened from its history under a key the app does not know yet: how much of it the tab shows. */
module OpenedHistory {
  import opened Transcript
  import opened ReducerSpec
  import opened Replica
  import opened DeliveryOrder
  import opened SessionTabs
  import opened Mirror
  import opened AppMirror
  import App = AppSpec
  import Parking

  // ── What a registered tab shows ───────────────────────────────────────

  /** A tab that is registered shows what was parked for it, over the rows it had. */
  lemma RegisteredShows(app: App.AppState, key: string)
    ensures var after := App.Do(app, App.SessionOpened(key)).state;
            && key in after.sessions
            && after.sessions[key].rows
               == ReceiveAll(RowsIn(Parking.Look(app.sessions, key)), App.ParkedFor(app.parkedChanges, key))
  {
    hide Shows, App.RegisterOpenedSession, ReceiveAll, App.ParkedFor;
    RegisterKeepsShown(app, key, key);
    RegisterDrains(app, key);
    ShowsOpened(app, key);
    ShowsOpened(App.RegisterOpenedSession(app, key), key);
  }

  /** With nothing parked for a chat the app shows what its session holds. */
  lemma ShowsOpened(app: App.AppState, key: string)
    ensures Shows(app, key) == ReceiveAll(RowsIn(Parking.Look(app.sessions, key)), App.ParkedFor(app.parkedChanges, key))
    ensures key in app.sessions && App.ParkedFor(app.parkedChanges, key) == [] ==>
              Shows(app, key) == app.sessions[key].rows
  {
  }

  lemma RegisterDrains(app: App.AppState, key: string)
    ensures var next := App.RegisterOpenedSession(app, key);
            key in next.sessions && App.ParkedFor(next.parkedChanges, key) == []
  {
    var pending := app.(pendingKeys := app.pendingKeys + {key});
    DrainKeepsShown(pending, key, key);
  }

  /** The changes an open from a history delivers: a reset and one append per row. */
  function HistoryDtos(key: string, messages: seq<ResumeMessage>): (r: seq<Dto>)
    ensures forall i :: 0 <= i < |r| ==> r[i].key == key
  {
    var o := IngestMessages(messages);
    ToDtos(key, o.changes, o.state.rows, "")
  }

  lemma HistoryDtosAre(key: string, messages: seq<ResumeMessage>)
    ensures var rows := IngestMessages(messages).state.rows;
            HistoryDtos(key, messages) == ToDtos(key, [Reset] + Appends(|rows|), rows, "")
    ensures |HistoryDtos(key, messages)| == |IngestMessages(messages).state.rows| + 1
  {
    IngestAppendsAll(messages);
  }

  /** `r` holds the shown rows from `lost` up to `upTo`, and the old ones elsewhere. */
  ghost predicate LaidOver(r: seq<RowText>, stale: seq<RowText>, shown: seq<RowText>, lost: nat, upTo: nat)
    requires lost <= upTo <= |shown|
  {
    && |r| == (if lost < upTo && |stale| < upTo then upTo else |stale|)
    && forall j :: 0 <= j < |r| ==>
         r[j] == if lost <= j < upTo then shown[j] else if j < |stale| then stale[j] else Blank
  }

  lemma LaidOverOne(r: seq<RowText>, stale: seq<RowText>, shown: seq<RowText>, lost: nat, at: nat)
    requires lost <= at < |shown| && LaidOver(r, stale, shown, lost, at)
    ensures LaidOver(Padded(r, at + 1)[at := shown[at]], stale, shown, lost, at + 1)
  {
  }

  /** Appends from row `lost` on, received over old rows. */
  lemma {:induction false} AppendsOver(stale: seq<RowText>, key: string, rows: seq<Row>, lost: nat, upTo: nat)
    requires lost <= upTo <= |rows| <= ROW_LIMIT
    ensures var dtos := ToDtos(key, Appends(|rows|), rows, "");
            LaidOver(ReceiveAll(stale, dtos[lost..upTo]), stale, Render(rows), lost, upTo)
  {
    hide Render, ToDtos, Appends, LaidOver;
    assert |ToDtos(key, Appends(|rows|), rows, "")| == |rows| by { AppendsAre(key, rows); }
    assert |Render(rows)| == |rows| by { RenderLength(rows); }
    if lost < upTo {
      AppendsOver(stale, key, rows, lost, upTo - 1);
      AppendOne(stale, key, rows, lost, upTo - 1);
      LaidOverOne(ReceiveAll(stale, ToDtos(key, Appends(|rows|), rows, "")[lost..upTo - 1]),
                  stale, Render(rows), lost, upTo - 1);
    } else {
      NoAppends(stale, ToDtos(key, Appends(|rows|), rows, ""), Render(rows), lost);
    }
  }

  lemma NoAppends(stale: seq<RowText>, dtos: seq<Dto>, shown: seq<RowText>, lost: nat)
    requires lost <= |dtos| && lost <= |shown|
    ensures LaidOver(ReceiveAll(stale, dtos[lost..lost]), stale, shown, lost, lost)
  {
  }

  lemma RenderLength(rows: seq<Row>)
    ensures |Render(rows)| == |rows|
  {
  }

  lemma AppendOne(stale: seq<RowText>, key: string, rows: seq<Row>, lost: nat, at: nat)
    requires lost <= at < |rows| <= ROW_LIMIT
    ensures var dtos := ToDtos(key, Appends(|rows|), rows, "");
            ReceiveAll(stale, dtos[lost..at + 1])
            == Padded(ReceiveAll(stale, dtos[lost..at]), at + 1)[at := Render(rows)[at]]
  {
    hide ReceiveAll;
    var dtos := ToDtos(key, Appends(|rows|), rows, "");
    assert dtos[lost..at + 1] == dtos[lost..at] + [dtos[at]];
    ReceiveAllSnoc(stale, dtos[lost..at], dtos[at]);
    WriteSets(ReceiveAll(stale, dtos[lost..at]), dtos[at]);
  }

  /** The old rows hold the rows lost, and none beyond the last. */
  predicate MakeUp(stale: seq<RowText>, rows: seq<Row>, lost: nat) {
    lost <= |stale| <= |rows| && stale[..lost] == Render(rows)[..lost]
  }

  lemma AppendsShowIff(stale: seq<RowText>, key: string, rows: seq<Row>, lost: nat)
    requires lost <= |rows| <= ROW_LIMIT
    ensures ReceiveAll(stale, ToDtos(key, Appends(|rows|), rows, "")[lost..|rows|]) == Render(rows)
            <==> MakeUp(stale, rows, lost)
  {
    hide ReceiveAll, ToDtos;
    assert |ToDtos(key, Appends(|rows|), rows, "")| == |rows| by { AppendsAre(key, rows); }
    var r := ReceiveAll(stale, ToDtos(key, Appends(|rows|), rows, "")[lost..|rows|]);
    AppendsOver(stale, key, rows, lost, |rows|);
    if r == Render(rows) {
      assert |stale| < lost ==> r[|stale|] == JsonOf(rows[|stale|].kind);
      assert stale[..lost] == Render(rows)[..lost];
    }
    if MakeUp(stale, rows, lost) {
      assert forall j :: 0 <= j < lost ==> stale[j] == stale[..lost][j] == Render(rows)[j];
    }
  }

  lemma AppendsAre(key: string, rows: seq<Row>)
    ensures ToDtos(key, [Reset] + Appends(|rows|), rows, "")
         == [ChangeToDto(key, Reset, rows, "")] + ToDtos(key, Appends(|rows|), rows, "")
    ensures |ToDtos(key, Appends(|rows|), rows, "")| == |rows|
  {
  }

  /** What the last `kept` changes of a history make of old rows. */
  lemma EndShowsIff(stale: seq<RowText>, key: string, rows: seq<Row>, kept: nat)
    requires kept <= |rows| + 1 && |rows| <= ROW_LIMIT
    ensures |ToDtos(key, [Reset] + Appends(|rows|), rows, "")| == |rows| + 1
    ensures ReceiveAll(stale, ToDtos(key, [Reset] + Appends(|rows|), rows, "")[|rows| + 1 - kept..]) == Render(rows)
            <==> kept == |rows| + 1 || MakeUp(stale, rows, |rows| - kept)
  {
    hide ReceiveAll, ToDtos, Render, MakeUp;
    AppendsAre(key, rows);
    var dtos, appends := ToDtos(key, [Reset] + Appends(|rows|), rows, ""), ToDtos(key, Appends(|rows|), rows, "");
    if kept == |rows| + 1 {
      RebuildShows(rows, key, "", stale);
      assert dtos[0..] == dtos;
    } else {
      AppendsShowIff(stale, key, rows, |rows| - kept);
      assert dtos[|rows| + 1 - kept..] == appends[|rows| - kept..|rows|];
    }
  }

  /** What is parked for the chat is the end of its history: once registered, the tab shows the history if
      and only if all of it is parked, or the old rows make up for what is not. */
  lemma ParkedHistoryShowsIff(app: App.AppState, key: string, messages: seq<ResumeMessage>)
    requires App.IsEndOf(App.ParkedFor(app.parkedChanges, key), HistoryDtos(key, messages))
    ensures var rows, kept := IngestMessages(messages).state.rows, |App.ParkedFor(app.parkedChanges, key)|;
            var after := App.Do(app, App.SessionOpened(key)).state;
            && kept <= |rows| + 1 && key in after.sessions
            && (|rows| <= ROW_LIMIT ==>
                  (after.sessions[key].rows == Render(rows)
                   <==> kept == |rows| + 1 || MakeUp(RowsIn(Parking.Look(app.sessions, key)), rows, |rows| - kept)))
  {
    hide IngestMessages, Render, App.RegisterOpenedSession, ToDtos, ReceiveAll, MakeUp, App.ParkedFor;
    var rows := IngestMessages(messages).state.rows;
    HistoryDtosAre(key, messages);
    RegisteredShows(app, key);
    if |rows| <= ROW_LIMIT {
      EndShowsIff(RowsIn(Parking.Look(app.sessions, key)), key, rows, |App.ParkedFor(app.parkedChanges, key)|);
    }
  }

  // ── While the open is in flight ───────────────────────────────────────

  /** The key is being opened: the app does not know it yet and holds none of its changes. */
  predicate Opening(app: App.AppState, key: string) {
    && !App.IsOpenOrRestoring(app, key) && app.inFlightOpens > 0
    && |app.parkedChanges| <= App.PARKED_MAX && App.ParkedFor(app.parkedChanges, key) == []
  }

  /** The changes a run brings for a chat. */
  function ChangesFor(actions: seq<App.Action>, key: string): seq<Dto> {
    if |actions| == 0 then []
    else
      var last := actions[|actions| - 1];
      ChangesFor(actions[..|actions| - 1], key)
      + if last.TranscriptChanged? && last.change.key == key then [last.change] else []
  }

  /** Every action of the run names the key at most as that of a change, and leaves an open in flight. */
  ghost predicate WhileInFlight(app: App.AppState, actions: seq<App.Action>, key: string) {
    |actions| == 0 ||
    (&& WhileInFlight(app, actions[..|actions| - 1], key)
     && Parking.Spares(actions[|actions| - 1], key) && App.RunApp(app, actions).inFlightOpens > 0)
  }

  /** The key is still unknown, the rows left of it are as they were, and what is parked for it is the end
      of these changes. */
  ghost predicate StillOpening(app: App.AppState, now: App.AppState, key: string, changes: seq<Dto>) {
    && !App.IsOpenOrRestoring(now, key) && now.inFlightOpens > 0
    && Parking.Look(now.sessions, key) == Parking.Look(app.sessions, key)
    && App.IsEndOf(App.ParkedFor(now.parkedChanges, key), changes)
  }

  lemma ChangeSpares(app: App.AppState, d: Dto, key: string)
    requires !App.IsOpenOrRestoring(app, key) && app.inFlightOpens > 0
    ensures StillOpening(app, App.OnTranscriptChange(app, d).state, key,
                         App.ParkedFor(app.parkedChanges, key) + if d.key == key then [d] else [])
  {
    hide App.Park, App.ParkedFor;
    App.ParkKeepsTheEnd(app.parkedChanges, d, key);
    Parking.LookAfterChange(app.sessions, d, App.KnownKeys(app), key);
    assert App.ParkedFor(app.parkedChanges, key) + [] == App.ParkedFor(app.parkedChanges, key);
  }

  /** Neither the rows of the chat nor what is parked for it moves. */
  ghost predicate Spared(app: App.AppState, now: App.AppState, key: string) {
    && (App.IsOpenOrRestoring(now, key) <==> App.IsOpenOrRestoring(app, key))
    && Parking.Look(now.sessions, key) == Parking.Look(app.sessions, key)
    && App.ParkedFor(now.parkedChanges, key) == App.ParkedFor(app.parkedChanges, key)
  }

  lemma ShowTabSpares(app: App.AppState, shown: string, key: string)
    requires shown != key
    ensures Spared(app, App.ShowTab(App.DrainParked(app, shown), shown), key)
  {
    hide App.ParkedFor, App.ParkedForOthers;
    Parking.LookAfterDrain(app, shown, key);
    App.DrainSparesOthers(app.parkedChanges, shown, key);
  }

  lemma {:induction false} RestoreSpares(app: App.AppState, resumed: seq<string>, key: string)
    requires key !in resumed
    ensures Spared(app, App.RestoreTabs(app, resumed), key)
    ensures App.RestoreTabs(app, resumed).inFlightOpens == app.inFlightOpens
  {
    hide App.ParkedFor;
    if |resumed| > 0 {
      var before, last := resumed[..|resumed| - 1], resumed[|resumed| - 1];
      RestoreSpares(app, before, key);
      ShowTabSpares(App.RestoreTabs(app, before), last, key);
    }
  }

  lemma {:induction false} SummariesSpare(sessions: map<string, SessionUi>, summaries: seq<App.Summary>, key: string)
    requires forall i :: 0 <= i < |summaries| ==> summaries[i].key != key
    ensures Parking.Look(App.ApplySummaries(sessions, summaries), key) == Parking.Look(sessions, key)
  {
    if |summaries| > 0 {
      SummariesSpare(sessions, summaries[..|summaries| - 1], key);
    }
  }

  lemma CloseSpares(app: App.AppState, closed: string, key: string)
    requires closed != key && !App.IsOpenOrRestoring(app, key)
    ensures Spared(app, App.OnTabClosed(app, closed).state, key)
    ensures App.OnTabClosed(app, closed).state.inFlightOpens == app.inFlightOpens
  {
    hide App.ParkedFor;
    Parking.ClosedParts(app, closed);
    if key in Close(app.tabs, closed).keys {
      App.CloseAddsNoKey(app.tabs, closed, key);
    }
  }

  lemma ActionSpares(app: App.AppState, action: App.Action, key: string)
    requires !App.IsOpenOrRestoring(app, key) && app.inFlightOpens > 0 && Parking.Spares(action, key)
    requires !action.TranscriptChanged? && App.Do(app, action).state.inFlightOpens > 0
    ensures Spared(app, App.Do(app, action).state, key)
  {
    hide App.ParkedFor, App.OnTabClosed, App.RestoreTabs, App.DrainParked, App.ShowTab;
    match action
    case MainSessionRestored(_, resumed, summaries, _) =>
      RestoreSpares(app, resumed, key);
      SummariesSpare(App.RestoreTabs(app, resumed).sessions, summaries, key);
    case SessionOpened(k) => ShowTabSpares(app.(pendingKeys := app.pendingKeys + {k}), k, key);
    case BotChatOpened(k, _) => ShowTabSpares(app.(pendingKeys := app.pendingKeys + {k}), k, key);
    case TabClosed(k) => CloseSpares(app, k, key);
    case _ =>
  }

  lemma {:induction false} RunSpares(app: App.AppState, actions: seq<App.Action>, key: string)
    requires Opening(app, key) && WhileInFlight(app, actions, key)
    ensures StillOpening(app, App.RunApp(app, actions), key, ChangesFor(actions, key))
  {
    hide App.ParkedFor, App.Do, Parking.Spares;
    if |actions| > 0 {
      var before, last := actions[..|actions| - 1], actions[|actions| - 1];
      RunSpares(app, before, key);
      StepSpares(app, App.RunApp(app, before), last, key, ChangesFor(before, key));
    }
  }

  lemma StepSpares(app: App.AppState, now: App.AppState, action: App.Action, key: string, changes: seq<Dto>)
    requires StillOpening(app, now, key, changes) && Parking.Spares(action, key)
    requires App.Do(now, action).state.inFlightOpens > 0
    ensures StillOpening(app, App.Do(now, action).state, key,
                         changes + if action.TranscriptChanged? && action.change.key == key then [action.change] else [])
  {
    hide App.ParkedFor, App.OnTranscriptChange;
    if action.TranscriptChanged? {
      ChangeSpares(now, action.change, key);
    } else {
      hide App.Do;
      ActionSpares(now, action, key);
      assert changes + [] == changes;
    }
  }

  /** A chat opened from a history under a key the app does not know yet, over any rows that were left of
      it, with any other actions and changes on the way: once registered, the tab shows the history if and
      only if all of its changes are still parked, or the old rows make up for those that are not. */
  lemma HistoryShowsIff(app: App.AppState, key: string, messages: seq<ResumeMessage>, actions: seq<App.Action>)
    requires Opening(app, key) && WhileInFlight(app, actions, key)
    requires ChangesFor(actions, key) == HistoryDtos(key, messages)
    ensures var rows, now := IngestMessages(messages).state.rows, App.RunApp(app, actions);
            var kept, after := |App.ParkedFor(now.parkedChanges, key)|, App.Do(now, App.SessionOpened(key)).state;
            && kept <= |rows| + 1 && key in after.sessions
            && (|rows| <= ROW_LIMIT ==>
                  (after.sessions[key].rows == Render(rows)
                   <==> kept == |rows| + 1 || MakeUp(RowsIn(Parking.Look(app.sessions, key)), rows, |rows| - kept)))
  {
    hide IngestMessages, Render, App.Do, App.ParkedFor, MakeUp, HistoryDtos;
    RunSpares(app, actions, key);
    ParkedHistoryShowsIff(App.RunApp(app, actions), key, messages);
  }

  // ── Without old rows, and nothing but changes on the way ──────────────

  /** The changes for chats the app does not know. */
  function Unknown(app: App.AppState, dtos: seq<Dto>): seq<Dto> {
    if |dtos| == 0 then []
    else
      var d := dtos[|dtos| - 1];
      Unknown(app, dtos[..|dtos| - 1]) + if App.IsOpenOrRestoring(app, d.key) then [] else [d]
  }

  lemma {:induction false} UnknownConcat(app: App.AppState, a: seq<Dto>, b: seq<Dto>)
    ensures Unknown(app, a + b) == Unknown(app, a) + Unknown(app, b)
  {
    if |b| == 0 {
      assert a + b == a;
    } else {
      UnknownConcat(app, a, b[..|b| - 1]);
      assert (a + b)[..|a + b| - 1] == a + b[..|b| - 1];
    }
  }

  lemma {:induction false} UnknownKeepsMine(app: App.AppState, dtos: seq<Dto>, key: string)
    requires !App.IsOpenOrRestoring(app, key)
    ensures App.ParkedFor(Unknown(app, dtos), key) == App.ParkedFor(dtos, key)
  {
    if |dtos| > 0 {
      var before, d := dtos[..|dtos| - 1], dtos[|dtos| - 1];
      UnknownKeepsMine(app, before, key);
      App.ParkedSnoc(Unknown(app, before), d, key);
      App.ParkedSnoc(before, d, key);
      assert dtos == before + [d];
      if App.IsOpenOrRestoring(app, d.key) {
        assert Unknown(app, dtos) == Unknown(app, before);
        assert App.ParkedFor(before, key) + [] == App.ParkedFor(before, key);
      }
    }
  }

  /** A stream parks what it holds for chats the app does not know, and leaves their sessions. */
  lemma {:induction false} HearParks(app: App.AppState, dtos: seq<Dto>, key: string)
    requires !App.IsOpenOrRestoring(app, key) && app.inFlightOpens > 0
    ensures var next := Hear(app, dtos);
            && next.tabs == app.tabs && next.pendingKeys == app.pendingKeys && next.inFlightOpens == app.inFlightOpens
            && next.parkedChanges == Parking.ParkAll(app.parkedChanges, Unknown(app, dtos))
            && Parking.Look(next.sessions, key) == Parking.Look(app.sessions, key)
  {
    hide App.Park, Parking.ParkAll, App.OnTranscriptChange;
    if |dtos| > 0 {
      var before, d := dtos[..|dtos| - 1], dtos[|dtos| - 1];
      HearParks(app, before, key);
      HearOneParks(Hear(app, before), d, key);
      if App.IsOpenOrRestoring(app, d.key) {
        assert Unknown(app, dtos) == Unknown(app, before);
      } else {
        Parking.ParkAllSnoc(app.parkedChanges, Unknown(app, before), d);
      }
    } else {
      NothingToPark(app.parkedChanges);
    }
  }

  lemma NothingToPark(parked: seq<Dto>)
    ensures Parking.ParkAll(parked, []) == parked
  {
  }

  lemma HearOneParks(app: App.AppState, d: Dto, key: string)
    requires !App.IsOpenOrRestoring(app, key) && app.inFlightOpens > 0
    ensures var next := App.OnTranscriptChange(app, d).state;
            && next.tabs == app.tabs && next.pendingKeys == app.pendingKeys && next.inFlightOpens == app.inFlightOpens
            && next.parkedChanges == (if App.IsOpenOrRestoring(app, d.key) then app.parkedChanges
                                      else App.Park(app.parkedChanges, d))
            && Parking.Look(next.sessions, key) == Parking.Look(app.sessions, key)
  {
    hide App.Park;
    Parking.LookAfterChange(app.sessions, d, App.KnownKeys(app), key);
  }

  /** What is still parked for a chat after a stream. */
  function Kept(app: App.AppState, stream: seq<Dto>, key: string): seq<Dto> {
    App.ParkedFor(Parking.Newest(app.parkedChanges + Unknown(app, stream)), key)
  }

  lemma {:induction false} NoMoreThanParked(parked: seq<Dto>, key: string)
    ensures |App.ParkedFor(parked, key)| <= |parked|
  {
    if |parked| > 0 {
      NoMoreThanParked(parked[..|parked| - 1], key);
    }
  }

  lemma NewestIsTheEnd(all: seq<Dto>)
    ensures |Parking.Newest(all)| <= App.PARKED_MAX && |Parking.Newest(all)| <= |all|
    ensures all[..|all| - |Parking.Newest(all)|] + Parking.Newest(all) == all
  {
  }

  /** What is kept of a chat's changes is their end. */
  lemma KeptIsTheEnd(app: App.AppState, stream: seq<Dto>, key: string)
    requires Opening(app, key)
    ensures var mine, kept := App.ParkedFor(stream, key), Kept(app, stream, key);
            |kept| <= App.PARKED_MAX && App.IsEndOf(kept, mine)
  {
    hide App.ParkedFor, Parking.Newest, Unknown;
    var all := app.parkedChanges + Unknown(app, stream);
    NewestIsTheEnd(all);
    var lost := all[..|all| - |Parking.Newest(all)|];
    App.ParkedForConcat(lost, Parking.Newest(all), key);
    App.ParkedForConcat(app.parkedChanges, Unknown(app, stream), key);
    UnknownKeepsMine(app, stream, key);
    NoMoreThanParked(Parking.Newest(all), key);
    assert App.ParkedFor(stream, key) == App.ParkedFor(lost, key) + Kept(app, stream, key);
  }

  lemma HeardKeeps(app: App.AppState, stream: seq<Dto>, key: string)
    requires Opening(app, key)
    ensures App.ParkedFor(Hear(app, stream).parkedChanges, key) == Kept(app, stream, key)
    ensures Parking.Look(Hear(app, stream).sessions, key) == Parking.Look(app.sessions, key)
  {
    hide Hear, App.ParkedFor;
    HearParks(app, stream, key);
    Parking.ParkKeepsTheNewest(app.parkedChanges, Unknown(app, stream));
  }

  /** From the first row of a history on, all of it is kept if and only if what arrives then fits. */
  lemma KeptFromTheFirst(app: App.AppState, early: seq<Dto>, late: seq<Dto>, key: string)
    requires Opening(app, key) && late != [] && late[0].key == key
    ensures |Kept(app, early + late, key)| >= |App.ParkedFor(late, key)| <==> |Unknown(app, late)| <= App.PARKED_MAX
  {
    hide App.ParkedFor, Unknown;
    var u, all := Unknown(app, late), app.parkedChanges + Unknown(app, early + late);
    UnknownConcat(app, early, late);
    UnknownKeepsMine(app, late, key);
    if |u| <= App.PARKED_MAX {
      var more := Parking.Newest(all)[..|Parking.Newest(all)| - |u|];
      assert Parking.Newest(all) == more + u;
      App.ParkedForConcat(more, u, key);
    } else {
      FirstIsUnknown(app, late);
      var lost := u[1..|u| - App.PARKED_MAX];
      assert u == [late[0]] + (lost + Parking.Newest(all));
      App.ParkedForConcat([late[0]], lost + Parking.Newest(all), key);
      App.ParkedForConcat(lost, Parking.Newest(all), key);
      App.ParkedSnoc([], late[0], key);
      assert [] + [late[0]] == [late[0]];
    }
  }

  lemma FirstIsUnknown(app: App.AppState, dtos: seq<Dto>)
    requires dtos != [] && !App.IsOpenOrRestoring(app, dtos[0].key)
    ensures Unknown(app, dtos) != [] && Unknown(app, dtos)[0] == dtos[0]
  {
    assert dtos == [dtos[0]] + dtos[1..];
    UnknownConcat(app, [dtos[0]], dtos[1..]);
    assert [dtos[0]][..0] == [];
  }

  /** Without the change for its first row, a history is not shown. */
  lemma FewerShowLess(key: string, messages: seq<ResumeMessage>, kept: nat)
    requires kept < |IngestMessages(messages).state.rows|
    ensures var dtos := HistoryDtos(key, messages);
            kept <= |dtos| && ReceiveAll([], dtos[|dtos| - kept..]) != Render(IngestMessages(messages).state.rows)
  {
    hide IngestMessages, ReceiveAll, HistoryDtos;
    var dtos, rows := HistoryDtos(key, messages), IngestMessages(messages).state.rows;
    HistoryDtosAre(key, messages);
    var end := dtos[|dtos| - kept..];
    assert forall i :: 0 <= i < |end| ==> end[i] == ChangeToDto(key, RowAppended(|rows| - kept + i), rows, "");
    FirstRowIsBlank(end);
    assert Render(rows)[0] == JsonOf(rows[0].kind);
  }

  lemma FirstRowIsBlank(dtos: seq<Dto>)
    requires forall i :: 0 <= i < |dtos| ==> dtos[i].kind == Appended && dtos[i].index > 0
    ensures |ReceiveAll([], dtos)| > 0 ==> ReceiveAll([], dtos)[0] == Blank
  {
    NoneAtFirst(dtos);
    RowSettles([], dtos, 0);
  }

  lemma {:induction false} NoneAtFirst(dtos: seq<Dto>)
    requires forall i :: 0 <= i < |dtos| ==> dtos[i].index > 0
    ensures OnlyAt(dtos, 0) == []
  {
    if |dtos| > 0 {
      NoneAtFirst(dtos[..|dtos| - 1]);
    }
  }

  /** A chat opened from a history under a new key, its changes among any others, with `late` the part of
      the stream from its first row on: once registered, the tab shows the history if and only if no more
      changes for unknown chats are in that part than may be parked. */
  lemma HistoryShowsIffItsRowsFit(
    app: App.AppState, key: string, messages: seq<ResumeMessage>, early: seq<Dto>, late: seq<Dto>)
    requires Opening(app, key) && key !in app.sessions
    requires App.ParkedFor(early, key) + App.ParkedFor(late, key) == HistoryDtos(key, messages)
    requires |App.ParkedFor(early, key)| == 1 && (late == [] || late[0].key == key)
    ensures var rows := IngestMessages(messages).state.rows;
            var after := App.Do(Hear(app, early + late), App.SessionOpened(key)).state;
            && key in after.sessions
            && (after.sessions[key].rows == Render(rows) <==> |Unknown(app, late)| <= 512)
  {
    hide IngestMessages, Render, App.Do, Hear, ToDtos, ReceiveAll, Kept, App.ParkedFor;
    var rows, stream := IngestMessages(messages).state.rows, early + late;
    HistoryDtosAre(key, messages);
    App.ParkedForConcat(early, late, key);
    var kept := |Kept(app, stream, key)|;
    KeptIsTheEnd(app, stream, key);
    HeardKeeps(app, stream, key);
    ParkedHistoryShowsIff(Hear(app, stream), key, messages);
    if late != [] {
      KeptFromTheFirst(app, early, late, key);
    } else {
      App.EmptyParksNone();
    }
    if kept < |rows| {
      RegisteredShows(Hear(app, stream), key);
      FewerShowLess(key, messages, kept);
    }
  }

  /** So a history that arrives at once, before any number of changes of other chats, is shown if and
      only if it is empty, or its rows and the unknown ones of those changes may be parked together. */
  lemma HistoryShowsIffItFits(app: App.AppState, key: string, messages: seq<ResumeMessage>, others: seq<Dto>)
    requires Opening(app, key) && key !in app.sessions && App.ParkedFor(others, key) == []
    ensures var rows := IngestMessages(messages).state.rows;
            var after := App.Do(Hear(app, HistoryDtos(key, messages) + others), App.SessionOpened(key)).state;
            && key in after.sessions
            && (after.sessions[key].rows == Render(rows)
                <==> rows == [] || |rows| + |Unknown(app, others)| <= 512)
  {
    hide IngestMessages, Render, App.Do, Hear, ToDtos, HistoryDtos, App.ParkedFor, Unknown;
    var rows, dtos := IngestMessages(messages).state.rows, HistoryDtos(key, messages);
    HistoryDtosAre(key, messages);
    App.EmptyParksNone();
    AllItsOwn(dtos, key);
    App.ParkedForConcat(dtos, others, key);
    if rows == [] {
      assert dtos + others + [] == dtos + others;
      UnknownConcat(app, [], []);
      HistoryShowsIffItsRowsFit(app, key, messages, dtos + others, []);
    } else {
      assert dtos == dtos[..1] + dtos[1..] && dtos + others == dtos[..1] + (dtos[1..] + others);
      AllItsOwn(dtos[..1], key);
      AllItsOwn(dtos[1..], key);
      App.ParkedForConcat(dtos[1..], others, key);
      UnknownConcat(app, dtos[1..], others);
      NoneKnown(app, dtos[1..], key);
      HistoryShowsIffItsRowsFit(app, key, messages, dtos[..1], dtos[1..] + others);
    }
  }

  lemma {:induction false} AllItsOwn(dtos: seq<Dto>, key: string)
    requires forall i :: 0 <= i < |dtos| ==> dtos[i].key == key
    ensures App.ParkedFor(dtos, key) == dtos
  {
    if |dtos| > 0 {
      var before, d := dtos[..|dtos| - 1], dtos[|dtos| - 1];
      AllItsOwn(before, key);
      assert d.key == key && App.ParkedFor(dtos, key) == before + [d];
    }
  }

  lemma {:induction false} NoneKnown(app: App.AppState, dtos: seq<Dto>, key: string)
    requires !App.IsOpenOrRestoring(app, key) && forall i :: 0 <= i < |dtos| ==> dtos[i].key == key
    ensures Unknown(app, dtos) == dtos
  {
    hide App.IsOpenOrRestoring;
    if |dtos| > 0 {
      var before, d := dtos[..|dtos| - 1], dtos[|dtos| - 1];
      NoneKnown(app, before, key);
      assert d.key == key && Unknown(app, dtos) == before + [d];
    }
  }
}
