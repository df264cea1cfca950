/** The whole core against the whole app: every open chat is shown as the core holds it. */
module SystemMirror {
  import opened Transcript
  import opened ReducerSpec
  import opened ReducerInvariants
  import opened Replica
  import opened Mirror
  import opened Registry
  import opened CoreSpec
  import opened Routing

  /** The core, and the rows the app holds per chat. */
  datatype System = System(core: Core, ui: map<string, seq<RowText>>)

  function Shown(ui: map<string, seq<RowText>>, key: string): seq<RowText> {
    if key in ui then ui[key] else []
  }

  function UiReceive(ui: map<string, seq<RowText>>, dtos: seq<Dto>): map<string, seq<RowText>> {
    if |dtos| == 0 then ui
    else
      var before, d := UiReceive(ui, dtos[..|dtos| - 1]), dtos[|dtos| - 1];
      before[d.key := Receive(Shown(before, d.key), d)]
  }

  /** A step of the core, with its changes delivered in order; the app drops a closed tab's rows. */
  function SystemStep(s: System, step: Step): System
    requires Sound(s.core)
  {
    System(
      Do(s.core, step).core,
      match step
      case CloseTab(key) => s.ui - {key}
      case Clear => map[]
      case _ => UiReceive(s.ui, Do(s.core, step).dtos))
  }

  /** A chat shows its changes, and only its own. */
  lemma {:induction false} UiReceivesByKey(ui: map<string, seq<RowText>>, dtos: seq<Dto>, owner: string, key: string)
    requires forall i :: 0 <= i < |dtos| ==> dtos[i].key == owner
    ensures Shown(UiReceive(ui, dtos), key) == if key == owner then ReceiveAll(Shown(ui, key), dtos) else Shown(ui, key)
  {
    if |dtos| > 0 {
      UiReceivesByKey(ui, dtos[..|dtos| - 1], owner, key);
    }
  }

  /** The app shows every open chat as far as row indices fit, and nothing for any other key. */
  ghost predicate InSync(s: System) {
    forall key ::
      if key in s.core.sessions then Mirrors(s.core.sessions[key].reducer.rows, Shown(s.ui, key))
      else Shown(s.ui, key) == []
  }

  /** An open without history is announced by nothing, so it must not find old rows under its key. */
  predicate OpensClean(c: Core, step: Step) {
    step.Open? && step.messages == [] && step.key in c.sessions ==> c.sessions[step.key].reducer.rows == []
  }

  /** Re-opening a chat: the app shows the new transcript if and only if the open brought a history
      or there was nothing on show before. */
  lemma OpenShowsIff(s: System, key: string, sid: string, messages: seq<ResumeMessage>, cols: int, profile: string)
    requires Sound(s.core) && |Shown(s.ui, key)| <= ROW_LIMIT
    requires |OpenedReducer(messages).state.rows| <= ROW_LIMIT
    ensures var s' := SystemStep(s, Open(key, sid, messages, cols, profile));
            && key in s'.core.sessions
            && (Shown(s'.ui, key) == Render(s'.core.sessions[key].reducer.rows)
                <==> messages != [] || Shown(s.ui, key) == [])
  {
    var o := OpenedReducer(messages);
    var dtos := ToDtos(key, o.changes, o.state.rows, "");
    UiReceivesByKey(s.ui, dtos, key, key);
    if messages != [] {
      IngestMirrors(messages, key, "", Shown(s.ui, key));
    }
  }

  /** The reducer operation a step runs on `key`, under the key the reducer was given. */
  lemma OnSessionMirrors(c: Core, key: string, op: Op, replica: seq<RowText>)
    requires Sound(c) && key in c.sessions && !IsReset(op)
    requires Mirrors(c.sessions[key].reducer.rows, replica)
    ensures var e := OnSession(c, key, op, "");
            Mirrors(e.core.sessions[key].reducer.rows, ReceiveAll(replica, e.dtos))
  {
    PerformAnnounced(c.sessions[key].reducer, key, op);
    AnnouncedMirrors(c.sessions[key].reducer, Perform(c.sessions[key].reducer, key, op), key, "", replica);
  }

  lemma DeliverMirrors(c: Core, ev: EventParams, key: string, replica: seq<RowText>)
    requires Sound(c) && Route(c, ev.sessionId) == Some(key)
    requires Mirrors(c.sessions[key].reducer.rows, replica)
    ensures var e := DeliverEvent(c, ev);
            Mirrors(e.core.sessions[key].reducer.rows, ReceiveAll(replica, e.dtos))
  {
    var op := ApplyEvent(ev.sessionId, ev.body);
    var o := Perform(c.sessions[key].reducer, ev.sessionId, op);
    PerformAnnounced(c.sessions[key].reducer, ev.sessionId, op);
    AnnouncedMirrors(c.sessions[key].reducer, o, key, o.state.header.title, replica);
  }

  /** A step on an open chat keeps that chat in sync. */
  lemma OwnChatMirrors(c: Core, step: Step, key: string, replica: seq<RowText>)
    requires Sound(c) && key in c.sessions && Mirrors(c.sessions[key].reducer.rows, replica)
    requires !step.Clear? && !step.Open? && !step.CloseTab? && Target(c, step) == Some(key)
    ensures var e := Do(c, step);
            key in e.core.sessions && Mirrors(e.core.sessions[key].reducer.rows, ReceiveAll(replica, e.dtos))
  {
    match step
    case Deliver(ev) => DeliverMirrors(c, ev, key, replica);
    case SendEnd(_, text, _) => OnSessionMirrors(c, key, AppendUser(text), replica);
    case Resolve(_, q) =>
      if q.OpenApproval? { OnSessionMirrors(c, key, ResolveApproval(q.id), replica); }
      if q.OpenClarify? { OnSessionMirrors(c, key, ResolveClarify(q.id), replica); }
    case Reemit(_, id, card) => OnSessionMirrors(c, key, ApplyApprovalCard(id, card), replica);
    case Rebuild(_, messages, _) => IngestMirrors(messages, key, "", replica);
    case _ =>
  }

  /** A step on a chat that is not open delivers nothing and opens nothing. */
  lemma ClosedChatSilent(c: Core, step: Step, key: string)
    requires Sound(c) && key !in c.sessions && !step.Clear? && !step.Open? && Target(c, step) == Some(key)
    ensures Do(c, step).dtos == [] && key !in Do(c, step).core.sessions
  {
  }

  lemma StepKeepsSync(s: System, step: Step)
    requires Sound(s.core) && InSync(s) && OpensClean(s.core, step)
    ensures InSync(SystemStep(s, step))
  {
    if !step.Clear? {
      forall key
        ensures var s' := SystemStep(s, step);
                if key in s'.core.sessions then Mirrors(s'.core.sessions[key].reducer.rows, Shown(s'.ui, key))
                else Shown(s'.ui, key) == []
      {
        KeyKeepsSync(s, step, key);
      }
    }
  }

  lemma KeyKeepsSync(s: System, step: Step, key: string)
    requires Sound(s.core) && InSync(s) && OpensClean(s.core, step) && !step.Clear?
    ensures var s' := SystemStep(s, step);
            if key in s'.core.sessions then Mirrors(s'.core.sessions[key].reducer.rows, Shown(s'.ui, key))
            else Shown(s'.ui, key) == []
  {
    var dtos := Do(s.core, step).dtos;
    var owner := if Target(s.core, step).Some? then Target(s.core, step).value else "";
    forall i | 0 <= i < |dtos| ensures dtos[i].key == owner {
      DtosCarryTheOwner(s.core, step, i);
    }
    UiReceivesByKey(s.ui, dtos, owner, key);
    if Target(s.core, step) != Some(key) {
      OthersUntouched(s.core, step, key);
      if dtos != [] {
        DtosCarryTheOwner(s.core, step, 0);
      }
    } else if step.Open? {
      OpenKeepsSync(s, step);
    } else if !step.CloseTab? {
      if key in s.core.sessions {
        OwnChatMirrors(s.core, step, key, Shown(s.ui, key));
      } else {
        ClosedChatSilent(s.core, step, key);
      }
    }
  }

  lemma OpenKeepsSync(s: System, step: Step)
    requires Sound(s.core) && InSync(s) && step.Open? && OpensClean(s.core, step)
    ensures var s' := SystemStep(s, step);
            step.key in s'.core.sessions
            && Mirrors(s'.core.sessions[step.key].reducer.rows, Shown(s'.ui, step.key))
  {
    var o := OpenedReducer(step.messages);
    var dtos := ToDtos(step.key, o.changes, o.state.rows, "");
    UiReceivesByKey(s.ui, dtos, step.key, step.key);
    if step.messages != [] {
      IngestMirrors(step.messages, step.key, "", Shown(s.ui, step.key));
    }
  }

  /** A run of the system, as long as every open finds a clean key. */
  function RunSystem(s: System, steps: seq<Step>): (r: Option<System>)
    requires Sound(s.core)
    ensures r.Some? ==> Sound(r.value.core)
    decreases |steps|
  {
    if |steps| == 0 then Some(s)
    else
      var before := RunSystem(s, steps[..|steps| - 1]);
      if before.None? || !OpensClean(before.value.core, steps[|steps| - 1]) then None
      else
        DoSound(before.value.core, steps[|steps| - 1]);
        Some(SystemStep(before.value, steps[|steps| - 1]))
  }

  lemma {:induction false} RunInSync(known: Tabs, steps: seq<Step>)
    ensures var r := RunSystem(System(NewCore(known), map[]), steps);
            r.Some? ==> Sound(r.value.core) && InSync(r.value)
  {
    if |steps| > 0 {
      RunInSync(known, steps[..|steps| - 1]);
      var before := RunSystem(System(NewCore(known), map[]), steps[..|steps| - 1]);
      if before.Some? && OpensClean(before.value.core, steps[|steps| - 1]) {
        StepKeepsSync(before.value, steps[|steps| - 1]);
      }
    }
  }

  /** Over every run of opens, events, sends, answers, repoints, rebuilds, re-emissions, closes and
      clears in which no open without history lands on a chat that shows rows: the app's rows of every
      open chat are the core's rows, rendered one by one, if and only if they fit the index space. */
  lemma AppShowsTheCore(known: Tabs, steps: seq<Step>, key: string)
    ensures var r := RunSystem(System(NewCore(known), map[]), steps);
            r.Some? && key in r.value.core.sessions ==>
              var rows := r.value.core.sessions[key].reducer.rows;
              Shown(r.value.ui, key) == Render(rows) <==> |rows| <= ROW_LIMIT
  {
    RunInSync(known, steps);
  }
}
