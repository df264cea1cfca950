/** The durable record of each chat: what opens, events and closes make of it, and which chat was last active. */
module Records {
  import opened Transcript
  import opened ReducerSpec
  import opened ReducerInvariants
  import opened Replica
  import opened Registry
  import opened CoreSpec
  import opened Routing
  import opened Watermarks

  // ── An event and the record ───────────────────────────────────────────

  /** The header fields an event carries; none for any other event. */
  function HeaderOf(body: EventBody): Header {
    match body
    case SessionInfo(info) => info
    case SessionTitle(title) => Header(title, "", "", "", "")
    case _ => Header("", "", "", "", "")
  }

  predicate BringsHeader(body: EventBody) {
    var h := HeaderOf(body);
    h.title != "" || h.model != "" || h.cwd != "" || h.branch != "" || h.usageJson != ""
  }

  lemma HeaderAnnouncedIff(s: ReducerState, body: EventBody)
    requires InBounds(s)
    ensures BringsHeader(body) ==> OnEvent(s, body).changes == [HeaderUpdated]
    ensures !BringsHeader(body) ==>
              HeaderUpdated !in OnEvent(s, body).changes && OnEvent(s, body).state.header == s.header
    ensures OnEvent(s, body).state.header.title
         == if HeaderOf(body).title != "" then HeaderOf(body).title else s.header.title
  {
    hide Kinds, LastWhere;
  }

  lemma NoHeaderDto(key: string, changes: seq<Change>, rows: seq<Row>, title: string)
    requires HeaderUpdated !in changes
    ensures forall d :: d in ToDtos(key, changes, rows, title) ==> d.kind != HeaderChanged
  {
  }

  /** An event moves its own chat's record so: the mark is raised to its seq, and the title becomes the
      header's if the event brought any header field; everything else of it stays. Just then the app hears
      of it, with that same title. */
  lemma DeliverRecords(c: Core, ev: EventParams, key: string)
    requires Sound(c) && Route(c, ev.sessionId) == Some(key) && Get(c.registry, key).Some?
    ensures var e, r := DeliverEvent(c, ev), Get(c.registry, key).value;
            && key in e.core.sessions
            && var title := e.core.sessions[key].reducer.header.title;
               && title == (if HeaderOf(ev.body).title != "" then HeaderOf(ev.body).title
                            else c.sessions[key].reducer.header.title)
               && Get(e.core.registry, key) == Some(SessionRecord(
                    r.storedId, Raised(r.lastSeenSeq, ev.seqNo), r.replayEpoch, r.cols,
                    if BringsHeader(ev.body) then title else r.title, r.profileName))
               && e.core.registry.activeKey == c.registry.activeKey
               && (BringsHeader(ev.body) ==> e.dtos == [Dto(key, HeaderChanged, U32_MAX, Blank, title)])
               && (!BringsHeader(ev.body) ==> forall d :: d in e.dtos ==> d.kind != HeaderChanged)
  {
    hide OnEvent, WellFormed;
    var s := c.sessions[key].reducer;
    assert InBounds(s) by { WellFormedInBounds(s); }
    HeaderAnnouncedIff(s, ev.body);
    var o := OnEvent(s, ev.body);
    var touched := if ev.seqNo.Some? then Touch(c.registry, key, ev.seqNo.value, "") else c.registry;
    if ev.seqNo.Some? {
      TouchIsSeen(c.registry, key, ev.seqNo.value, "", key);
    }
    RetitleIsSeen(touched, key, o.state.header.title, key);
    if !BringsHeader(ev.body) {
      NoHeaderDto(key, o.changes, o.state.rows, o.state.header.title);
    }
  }

  /** An event blanks the title of its chat's record if and only if it brings a header field but no title,
      and the transcript knows none: the header restarts with each open and rebuild, the record does not. */
  lemma TitleIsBlankedIff(c: Core, ev: EventParams, key: string)
    requires Sound(c) && Route(c, ev.sessionId) == Some(key)
    requires Get(c.registry, key).Some? && Get(c.registry, key).value.title != ""
    ensures var after := Get(DeliverEvent(c, ev).core.registry, key);
            && after.Some?
            && (after.value.title == "" <==>
                  && BringsHeader(ev.body) && HeaderOf(ev.body).title == ""
                  && c.sessions[key].reducer.header.title == "")
  {
    DeliverRecords(c, ev, key);
  }

  // ── Opening ───────────────────────────────────────────────────────────

  /** An open renews the chat's record: the mark restarts, the replay epoch, the title and, unless the open
      brings one, the profile are kept from the old record; no other record moves, and the chat is active. */
  lemma OpenRecords(
    c: Core, key: string, sid: string, messages: seq<ResumeMessage>, cols: int, profile: string, other: string)
    ensures var registry, was := OpenSession(c, key, sid, messages, cols, profile).core.registry, Get(c.registry, key);
            && Get(registry, key) == Some(SessionRecord(
                 key, 0,
                 if was.Some? then was.value.replayEpoch else "",
                 if cols > 0 then cols else 80,
                 if was.Some? then was.value.title else "",
                 if profile == "" && was.Some? then was.value.profileName else profile))
            && (other != key ==> Get(registry, other) == Get(c.registry, other))
            && registry.activeKey == Some(key)
  {
    UpsertIsSeen(c.registry, OpenRecord(c, key, cols, profile), key);
    UpsertIsSeen(c.registry, OpenRecord(c, key, cols, profile), other);
  }

  /** For one: a chat is opened from its history under a saved title, and the first event names a model
      only. The saved title is gone. */
  lemma ReopenedTitleIsBlanked(
    c: Core, key: string, sid: string, messages: seq<ResumeMessage>, cols: int, profile: string, model: string)
    requires Sound(c) && sid != "" && model != ""
    requires Get(c.registry, key).Some? && Get(c.registry, key).value.title != ""
    ensures var reopened := OpenSession(c, key, sid, messages, cols, profile).core;
            && Sound(reopened)
            && Get(reopened.registry, key).Some? && Get(reopened.registry, key).value.title != ""
            && var ev := EventParams(sid, None, SessionInfo(Header("", model, "", "", "")));
               var after := Get(DeliverEvent(reopened, ev).core.registry, key);
               after.Some? && after.value.title == ""
  {
    hide IngestMessages, WellFormed, DeliverEvent;
    var reopened := OpenSession(c, key, sid, messages, cols, profile).core;
    assert Sound(reopened) by { DoSound(c, Open(key, sid, messages, cols, profile)); }
    OpenRecords(c, key, sid, messages, cols, profile, key);
    NoHeaderOnOpen(messages);
    TitleIsBlankedIff(reopened, EventParams(sid, None, SessionInfo(Header("", model, "", "", ""))), key);
  }

  lemma NoHeaderOnOpen(messages: seq<ResumeMessage>)
    ensures OpenedReducer(messages).state.header == EMPTY_HEADER
  {
    IngestInBounds(messages);
  }

  // ── Closing ───────────────────────────────────────────────────────────

  /** Nothing of the chat is left: no transcript, no record, no card noted, and it is not the active one. */
  ghost predicate Gone(c: Core, key: string) {
    && key !in c.sessions && Get(c.registry, key).None? && key !in c.emittedApprovals
    && c.registry.activeKey != Some(key)
  }

  /** A close leaves nothing of its chat, and its live sid leads nowhere; a clear leaves nothing at all.
      Neither touches the epoch counter. */
  lemma CloseForgets(c: Core, key: string)
    ensures var closed := CloseSession(c, key).core;
            && Gone(closed, key) && closed.historyEpoch == c.historyEpoch
            && (key in c.sessions ==> c.sessions[key].liveSid !in closed.sidIndex)
            && (c.registry.activeKey != Some(key) ==> closed.registry.activeKey == c.registry.activeKey)
  {
    CloseIsSeen(c.registry, key, key);
  }

  lemma ClearForgets(c: Core, key: string, sid: string)
    ensures var cleared := ClearSessions(c).core;
            Gone(cleared, key) && sid !in cleared.sidIndex && cleared.historyEpoch == c.historyEpoch
  {
  }

  // ── The active chat ───────────────────────────────────────────────────

  /** The step takes the active mark from every chat, or from this one. */
  predicate Unmarks(step: Step, key: string) {
    step.Open? || step.Clear? || (step.CloseTab? && step.key == key)
  }

  lemma StepActive(c: Core, step: Step, key: string)
    requires Sound(c)
    ensures Do(c, step).core.registry.activeKey == Some(key)
       <==> (step.Open? && step.key == key) || (c.registry.activeKey == Some(key) && !Unmarks(step, key))
  {
    hide Perform, IngestMessages;
  }

  /** Step `i` opened the chat, and nothing since opened another, closed it or cleared. */
  ghost predicate ActiveFrom(steps: seq<Step>, key: string, i: nat) {
    i < |steps| && steps[i].Open? && steps[i].key == key && forall j :: i < j < |steps| ==> !Unmarks(steps[j], key)
  }

  ghost predicate OpenedLast(steps: seq<Step>, key: string) {
    exists i :: ActiveFrom(steps, key, i)
  }

  lemma OpenedLastSnoc(steps: seq<Step>, key: string)
    requires |steps| > 0
    ensures var step := steps[|steps| - 1];
            OpenedLast(steps, key) <==> || (step.Open? && step.key == key)
                                        || (OpenedLast(steps[..|steps| - 1], key) && !Unmarks(step, key))
  {
    hide Unmarks;
    var before, n := steps[..|steps| - 1], |steps| - 1;
    assert forall i :: 0 <= i < n ==> before[i] == steps[i];
    if i: nat :| ActiveFrom(steps, key, i) {
      assert i < n ==> ActiveFrom(before, key, i);
    }
    if steps[n].Open? && steps[n].key == key {
      assert ActiveFrom(steps, key, n);
    }
    if i: nat :| ActiveFrom(before, key, i) {
      assert !Unmarks(steps[n], key) ==> ActiveFrom(steps, key, i);
    }
  }

  /** In every reachable state, from a start without one, the active chat is the one opened last, unless it
      was closed or all were cleared since. */
  lemma {:induction false} ActiveIsOpenedLast(known: Tabs, steps: seq<Step>, key: string)
    requires known.activeKey.None?
    ensures RunSteps(NewCore(known), steps).registry.activeKey == Some(key) <==> OpenedLast(steps, key)
  {
    hide Do, Unmarks, OpenedLast;
    if |steps| > 0 {
      var before := steps[..|steps| - 1];
      ActiveIsOpenedLast(known, before, key);
      StepActive(RunSteps(NewCore(known), before), steps[|steps| - 1], key);
      OpenedLastSnoc(steps, key);
    } else {
      NoneOpened(key);
    }
  }

  lemma NoneOpened(key: string)
    ensures !OpenedLast([], key)
  {
  }

  /** The active chat, if any, has a record. */
  ghost predicate ActiveRecorded(t: Tabs) {
    t.activeKey.Some? ==> Get(t, t.activeKey.value).Some?
  }

  lemma StepKeepsRecord(c: Core, step: Step, key: string)
    requires Sound(c) && Get(c.registry, key).Some? && !step.Clear? && !(step.CloseTab? && step.key == key)
    ensures Get(Do(c, step).core.registry, key).Some?
  {
    if Target(c, step) != Some(key) {
      OthersUntouched(c, step, key);
    } else {
      OwnStepKeepsRecord(c, step, key);
    }
  }

  lemma OwnStepKeepsRecord(c: Core, step: Step, key: string)
    requires Sound(c) && Get(c.registry, key).Some? && !step.Clear? && !step.CloseTab? && Target(c, step) == Some(key)
    ensures Get(Do(c, step).core.registry, key).Some?
  {
    hide WellFormed;
    if RunsReducer(step) {
      ReducerStepIs(c, step);
    } else {
      match step
      case Open(_, _, _, cols, profile) => UpsertIsSeen(c.registry, OpenRecord(c, key, cols, profile), key);
      case Rebuild(_, _, epoch) => RestartIsSeen(c.registry, key, epoch, key);
      case Ack(_, latest, epoch) => TouchIsSeen(c.registry, key, latest, epoch, key);
      case Deliver(ev) => DeliverMarks(c, ev, key);
      case Repoint(_, _) =>
    }
  }

  /** In every reachable state the chat that was active last is still registered, so a relaunch finds it. */
  lemma {:induction false} ActiveIsRegistered(known: Tabs, steps: seq<Step>)
    requires ActiveRecorded(known)
    ensures ActiveRecorded(RunSteps(NewCore(known), steps).registry)
  {
    hide Do, WellFormed;
    if |steps| > 0 {
      var before, step := steps[..|steps| - 1], steps[|steps| - 1];
      ActiveIsRegistered(known, before);
      var c := RunSteps(NewCore(known), before);
      var active := Do(c, step).core.registry.activeKey;
      if active.Some? {
        StepActive(c, step, active.value);
        if step.Open? {
          OpenIsRecorded(c, step);
        } else {
          StepKeepsRecord(c, step, active.value);
        }
      }
    }
  }

  lemma OpenIsRecorded(c: Core, step: Step)
    requires Sound(c) && step.Open?
    ensures Get(Do(c, step).core.registry, step.key).Some?
  {
    OpenRecords(c, step.key, step.liveSid, step.messages, step.cols, step.profile, step.key);
  }
}
