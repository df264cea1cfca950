/** Who a step can touch, and that events always reach the chat they belong to. */
module Routing {
  import opened Transcript
  import opened ReducerSpec
  import opened Registry
  import opened CoreSpec

  // ── A step touches one session ────────────────────────────────────────

  /** The session a step works on. */
  function Target(c: Core, step: Step): Option<string> {
    match step
    case Deliver(ev) => Route(c, ev.sessionId)
    case Clear => None
    case _ => Some(step.key)
  }

  ghost predicate SameSession(a: Core, b: Core, key: string) {
    && (key in a.sessions <==> key in b.sessions)
    && (key in a.sessions ==> a.sessions[key] == b.sessions[key])
    && (key in a.emittedApprovals <==> key in b.emittedApprovals)
    && (key in a.emittedApprovals ==> a.emittedApprovals[key] == b.emittedApprovals[key])
    && Get(a.registry, key) == Get(b.registry, key)
  }

  lemma DeliverTouchesOnlyOwner(c: Core, ev: EventParams, key: string)
    requires Sound(c) && Route(c, ev.sessionId) != Some(key)
    ensures SameSession(c, DeliverEvent(c, ev).core, key)
  {
    var owner := Route(c, ev.sessionId);
    if owner.Some? {
      var touched := if ev.seqNo.Some? then Touch(c.registry, owner.value, ev.seqNo.value, "") else c.registry;
      if ev.seqNo.Some? {
        TouchIsSeen(c.registry, owner.value, ev.seqNo.value, "", key);
      }
      var o := Perform(c.sessions[owner.value].reducer, ev.sessionId, ApplyEvent(ev.sessionId, ev.body));
      RetitleIsSeen(touched, owner.value, o.state.header.title, key);
    }
  }

  lemma OnSessionTouchesOne(c: Core, k: string, op: Op, title: string, key: string)
    requires Sound(c) && k in c.sessions && k != key
    ensures SameSession(c, OnSession(c, k, op, title).core, key)
  {
  }

  lemma ReducerStepTouchesOne(c: Core, step: Step, key: string)
    requires Sound(c) && RunsReducer(step) && step.key != key
    ensures SameSession(c, Do(c, step).core, key)
  {
    ReducerStepIs(c, step);
    if Operation(c, step).Some? {
      OnSessionTouchesOne(c, step.key, Operation(c, step).value, "", key);
    }
  }

  /** Whatever a step does, every session but its target keeps its transcript, watermark, live sid,
      epoch, emitted approvals and registry record. */
  lemma OthersUntouched(c: Core, step: Step, key: string)
    requires Sound(c) && !step.Clear? && Target(c, step) != Some(key)
    ensures SameSession(c, Do(c, step).core, key)
  {
    if RunsReducer(step) {
      ReducerStepTouchesOne(c, step, key);
    } else {
      OtherStepTouchesOne(c, step, key);
    }
  }

  lemma OtherStepTouchesOne(c: Core, step: Step, key: string)
    requires Sound(c) && !step.Clear? && !RunsReducer(step) && Target(c, step) != Some(key)
    ensures SameSession(c, Do(c, step).core, key)
  {
    match step
    case Open(k, _, _, cols, profile) => UpsertIsSeen(c.registry, OpenRecord(c, k, cols, profile), key);
    case CloseTab(k) => CloseIsSeen(c.registry, k, key);
    case Deliver(ev) => DeliverTouchesOnlyOwner(c, ev, key);
    case Rebuild(k, _, epoch) => RestartIsSeen(c.registry, k, epoch, key);
    case Ack(k, latest, epoch) => TouchIsSeen(c.registry, k, latest, epoch, key);
    case Repoint(_, _) =>
  }

  /** Every delivered change carries the durable key of the session the step worked on. */
  lemma DtosCarryTheOwner(c: Core, step: Step, i: nat)
    requires Sound(c) && i < |Do(c, step).dtos|
    ensures Target(c, step) == Some(Do(c, step).dtos[i].key)
  {
  }

  /** An event does to its owner's transcript and watermark exactly what the reducer says, and leaves
      routing and epochs alone. */
  lemma EventReachesOwner(c: Core, ev: EventParams, key: string)
    requires Sound(c) && Route(c, ev.sessionId) == Some(key)
    ensures var c' := DeliverEvent(c, ev).core;
            && c'.sidIndex == c.sidIndex && c'.sessions.Keys == c.sessions.Keys
            && c'.sessions[key].reducer == OnEvent(c.sessions[key].reducer, ev.body).state
            && c'.sessions[key].lastSeenSeq
               == (if ev.seqNo.Some? then Max(c.sessions[key].lastSeenSeq, ev.seqNo.value)
                   else c.sessions[key].lastSeenSeq)
            && c'.sessions[key].liveSid == c.sessions[key].liveSid
            && c'.sessions[key].historyEpoch == c.sessions[key].historyEpoch
            && c'.historyEpoch == c.historyEpoch
  {
  }

  // ── Routing safety ────────────────────────────────────────────────────

  /** `owner` names the chat of every sid; a durable key is its own chat's. The gateway is honest
      when it only hands a sid to the chat that owns it. */
  ghost predicate Honest(owner: string -> string, step: Step) {
    match step
    case Open(key, sid, _, _, _) => (sid != "" ==> owner(sid) == key) && owner(key) == key
    case Repoint(key, sid) => sid != "" ==> owner(sid) == key
    case _ => true
  }

  ghost predicate Routed(c: Core, owner: string -> string) {
    && (forall sid :: sid in c.sidIndex && sid != "" ==> c.sidIndex[sid] == owner(sid))
    && (forall key :: key in c.sessions ==> owner(key) == key)
    && (forall key :: key in c.sessions && c.sessions[key].liveSid != "" ==>
          c.sessions[key].liveSid in c.sidIndex && c.sidIndex[c.sessions[key].liveSid] == key)
  }

  /** Same index, same open sessions, same live sids. */
  ghost predicate SameIndex(a: Core, b: Core) {
    && a.sidIndex == b.sidIndex && a.sessions.Keys == b.sessions.Keys
    && forall key :: key in a.sessions ==> a.sessions[key].liveSid == b.sessions[key].liveSid
  }

  lemma OnSessionKeepsIndex(c: Core, key: string, op: Op, title: string)
    requires Sound(c) && key in c.sessions
    ensures SameIndex(c, OnSession(c, key, op, title).core)
  {
  }

  /** A step that opens, closes, clears or repoints nothing leaves the index and the live sids. */
  lemma IndexKept(c: Core, step: Step)
    requires Sound(c)
    requires !step.Open? && !step.CloseTab? && !step.Clear? && !step.Repoint?
    ensures SameIndex(c, Do(c, step).core)
  {
    if RunsReducer(step) {
      ReducerStepIs(c, step);
      if Operation(c, step).Some? {
        OnSessionKeepsIndex(c, step.key, Operation(c, step).value, "");
      }
    } else if step.Deliver? && Route(c, step.ev.sessionId).Some? {
      EventReachesOwner(c, step.ev, Route(c, step.ev.sessionId).value);
    }
  }

  lemma CloseKeepsRouted(c: Core, gone: string, owner: string -> string)
    requires Routed(c, owner)
    ensures Routed(CloseSession(c, gone).core, owner)
  {
    var c' := CloseSession(c, gone).core;
    forall key | key in c'.sessions && c'.sessions[key].liveSid != ""
      ensures c'.sessions[key].liveSid in c'.sidIndex && c'.sidIndex[c'.sessions[key].liveSid] == key
    {
      assert c.sidIndex[c.sessions[key].liveSid] == key;
    }
  }

  lemma RepointKeepsRouted(c: Core, moved: string, sid: string, owner: string -> string)
    requires Routed(c, owner) && (sid != "" ==> owner(sid) == moved)
    ensures Routed(RepointLiveSid(c, moved, sid).core, owner)
  {
    var c' := RepointLiveSid(c, moved, sid).core;
    forall key | key in c'.sessions && c'.sessions[key].liveSid != ""
      ensures c'.sessions[key].liveSid in c'.sidIndex && c'.sidIndex[c'.sessions[key].liveSid] == key
    {
      if key != moved {
        assert c.sidIndex[c.sessions[key].liveSid] == key;
      }
    }
  }

  lemma SameIndexKeepsRouted(a: Core, b: Core, owner: string -> string)
    requires Routed(a, owner) && SameIndex(a, b)
    ensures Routed(b, owner)
  {
  }

  lemma StepKeepsRouted(c: Core, step: Step, owner: string -> string)
    requires Sound(c) && Routed(c, owner) && Honest(owner, step)
    ensures Routed(Do(c, step).core, owner)
  {
    match step
    case Open(_, _, _, _, _) =>
    case CloseTab(key) => CloseKeepsRouted(c, key, owner);
    case Clear =>
    case Repoint(key, sid) => RepointKeepsRouted(c, key, sid, owner);
    case _ =>
      IndexKept(c, step);
      SameIndexKeepsRouted(c, Do(c, step).core, owner);
  }

  /** With an honest gateway, in every reachable state each open chat's live sid and its durable key
      both route to it: across opens, re-opens, closes, repoints, rebuilds and clears. */
  lemma {:induction false} EveryChatRoutes(known: Tabs, steps: seq<Step>, owner: string -> string, key: string)
    requires forall i :: 0 <= i < |steps| ==> Honest(owner, steps[i])
    ensures var c := RunSteps(NewCore(known), steps);
            key in c.sessions ==>
              && (key != "" ==> Route(c, key) == Some(key))
              && (c.sessions[key].liveSid != "" ==> Route(c, c.sessions[key].liveSid) == Some(key))
  {
    RunRouted(known, steps, owner);
  }

  lemma {:induction false} RunRouted(known: Tabs, steps: seq<Step>, owner: string -> string)
    requires forall i :: 0 <= i < |steps| ==> Honest(owner, steps[i])
    ensures Routed(RunSteps(NewCore(known), steps), owner)
  {
    if |steps| > 0 {
      RunRouted(known, steps[..|steps| - 1], owner);
      StepKeepsRouted(RunSteps(NewCore(known), steps[..|steps| - 1]), steps[|steps| - 1], owner);
    }
  }

  // ── How the routes move ───────────────────────────────────────────────

  /** A sid that the index knows leads where the index says, any other to the chat of that durable key;
      and only to an open chat. */
  lemma RouteIff(c: Core, sid: string, key: string)
    ensures Route(c, sid) == Some(key)
       <==> sid != "" && key in c.sessions && if sid in c.sidIndex then c.sidIndex[sid] == key else sid == key
  {
  }

  function Indexed(c: Core, sid: string): Option<string> {
    if sid in c.sidIndex then Some(c.sidIndex[sid]) else None
  }

  /** The chat that the step gives this sid. */
  function GivenTo(c: Core, step: Step, sid: string): Option<string> {
    match step
    case Open(key, live, _, _, _) => if live == sid then Some(key) else None
    case Repoint(key, live) =>
      if live == sid && key in c.sessions && c.sessions[key].liveSid != sid then Some(key) else None
    case _ => None
  }

  /** The step closes the chat that lives under this sid, moves it to another, or clears everything. */
  predicate Takes(c: Core, step: Step, sid: string) {
    match step
    case CloseTab(key) => key in c.sessions && c.sessions[key].liveSid == sid
    case Repoint(key, live) => live != sid && key in c.sessions && c.sessions[key].liveSid == sid
    case Clear => true
    case _ => false
  }

  /** Exactly how a step moves the index: a sid leads to the chat it was just given to, is dropped with the
      chat that lived under it, or stays. */
  lemma StepRoutes(c: Core, step: Step, sid: string)
    requires Sound(c)
    ensures Indexed(Do(c, step).core, sid)
         == if GivenTo(c, step, sid).Some? then GivenTo(c, step, sid)
            else if Takes(c, step, sid) then None
            else Indexed(c, sid)
  {
    if step.Open? || step.CloseTab? || step.Clear? || step.Repoint? {
    } else {
      IndexKept(c, step);
    }
  }

  /** The step gives nobody this sid, live or durable. */
  predicate Withholds(step: Step, sid: string) {
    match step
    case Open(key, live, _, _, _) => key != sid && live != sid
    case Repoint(_, live) => live != sid
    case _ => true
  }

  lemma StepOpensNoOther(c: Core, step: Step, key: string)
    requires Sound(c) && key !in c.sessions && !(step.Open? && step.key == key)
    ensures key !in Do(c, step).core.sessions
  {
    if !step.Clear? {
      if Target(c, step) != Some(key) {
        OthersUntouched(c, step, key);
      }
    }
  }

  lemma {:induction false} LostSidStaysLost(c: Core, steps: seq<Step>, sid: string)
    requires Sound(c) && sid !in c.sidIndex && sid !in c.sessions
    requires forall i :: 0 <= i < |steps| ==> Withholds(steps[i], sid)
    ensures sid !in RunSteps(c, steps).sidIndex && sid !in RunSteps(c, steps).sessions
  {
    hide Do;
    if |steps| > 0 {
      var before, step := steps[..|steps| - 1], steps[|steps| - 1];
      LostSidStaysLost(c, before, sid);
      assert step == steps[|steps| - 1];
      StepRoutes(RunSteps(c, before), step, sid);
      StepOpensNoOther(RunSteps(c, before), step, sid);
    }
  }

  /** Once a chat was closed or moved to another sid, events under the sid it had reach no chat, whatever
      else happens, until the gateway gives that sid out again. */
  lemma OldSidIsSilent(c: Core, step: Step, steps: seq<Step>, sid: string, seqNo: Option<int>, body: EventBody)
    requires Sound(c) && Takes(c, step, sid) && Withholds(step, sid) && sid !in Do(c, step).core.sessions
    requires forall i :: 0 <= i < |steps| ==> Withholds(steps[i], sid)
    ensures Sound(Do(c, step).core)
    ensures var later := RunSteps(Do(c, step).core, steps);
            DeliverEvent(later, EventParams(sid, seqNo, body)) == Effect(later, [])
  {
    hide Do;
    DoSound(c, step);
    StepRoutes(c, step, sid);
    LostSidStaysLost(Do(c, step).core, steps, sid);
  }

  /** The honesty is needed: once two chats are given one sid, the first chat's own events land in
      the second, and closing the second cuts the first off. */
  lemma SharedSidMisroutes(known: Tabs, a: string, b: string, sid: string)
    requires a != b && sid != "" && sid != a && sid != b
    ensures var c := Do(Do(NewCore(known), Open(a, sid, [], 0, "")).core, Open(b, sid, [], 0, "")).core;
            && c.sessions.Keys == {a, b} && c.sessions[a].liveSid == sid && Route(c, sid) == Some(b)
            && Route(CloseSession(c, b).core, sid) == None
  {
    DoSound(NewCore(known), Open(a, sid, [], 0, ""));
  }
}

/** The seq watermarks of a live session and of its registry record. */
module Watermarks {
  import opened Transcript
  import opened ReducerSpec
  import opened Registry
  import opened CoreSpec
  import opened Routing

  function RecordMark(c: Core, key: string): int {
    var r := Get(c.registry, key);
    if r.Some? then r.value.lastSeenSeq else 0
  }

  /** Every live session is registered, and never ahead of its record. */
  ghost predicate Tracked(c: Core) {
    forall key :: key in c.sessions ==>
      Get(c.registry, key).Some? && c.sessions[key].lastSeenSeq <= RecordMark(c, key)
  }

  predicate Restarts(step: Step, key: string) {
    (step.Open? || step.Rebuild?) && step.key == key
  }

  /** The seq a step delivers to `key`. */
  function Delivered(c: Core, step: Step, key: string): Option<int> {
    if step.Deliver? && Route(c, step.ev.sessionId) == Some(key) then step.ev.seqNo else None
  }

  /** The seq a step delivers or acknowledges for `key`. */
  function Heard(c: Core, step: Step, key: string): Option<int> {
    if step.Ack? && step.key == key then Some(step.latestSeq) else Delivered(c, step, key)
  }

  function Raised(mark: int, heard: Option<int>): int {
    if heard.Some? then Max(mark, heard.value) else mark
  }

  lemma DeliverMarks(c: Core, ev: EventParams, key: string)
    requires Sound(c) && Route(c, ev.sessionId) == Some(key) && Get(c.registry, key).Some?
    ensures var c' := DeliverEvent(c, ev).core;
            && Get(c'.registry, key).Some?
            && c'.sessions[key].lastSeenSeq == Raised(c.sessions[key].lastSeenSeq, ev.seqNo)
            && RecordMark(c', key) == Raised(RecordMark(c, key), ev.seqNo)
  {
    var touched := if ev.seqNo.Some? then Touch(c.registry, key, ev.seqNo.value, "") else c.registry;
    if ev.seqNo.Some? {
      TouchIsSeen(c.registry, key, ev.seqNo.value, "", key);
    }
    var o := Perform(c.sessions[key].reducer, ev.sessionId, ApplyEvent(ev.sessionId, ev.body));
    RetitleIsSeen(touched, key, o.state.header.title, key);
  }

  /** How a step moves the two watermarks of `key`, live before and after unless it is opened here. */
  ghost predicate MarksMove(c: Core, step: Step, key: string, c': Core) {
    && key in c'.sessions && Get(c'.registry, key).Some?
    && if Restarts(step, key) then c'.sessions[key].lastSeenSeq == 0 && RecordMark(c', key) == 0
       else
         && key in c.sessions
         && c'.sessions[key].lastSeenSeq == Raised(c.sessions[key].lastSeenSeq, Delivered(c, step, key))
         && RecordMark(c', key) == Raised(RecordMark(c, key), Heard(c, step, key))
  }

  /** Steps that only run the reducer leave both watermarks. */
  lemma ReducerStepMarks(c: Core, step: Step, key: string)
    requires Sound(c) && key in c.sessions && Get(c.registry, key).Some?
    requires RunsReducer(step) && step.key == key
    ensures MarksMove(c, step, key, Do(c, step).core)
  {
    ReducerStepIs(c, step);
    if Operation(c, step).Some? {
      OnSessionKeepsMarks(c, key, Operation(c, step).value);
    }
  }

  lemma OnSessionKeepsMarks(c: Core, key: string, op: Op)
    requires Sound(c) && key in c.sessions
    ensures var c' := OnSession(c, key, op, "").core;
            && c'.registry == c.registry && key in c'.sessions
            && c'.sessions[key].lastSeenSeq == c.sessions[key].lastSeenSeq
  {
  }

  /** Exactly how a step moves the two watermarks of a session that is live afterwards. */
  lemma StepMarks(c: Core, step: Step, key: string)
    requires Sound(c) && Tracked(c)
    requires key in Do(c, step).core.sessions
    ensures MarksMove(c, step, key, Do(c, step).core)
  {
    hide Do, MarksMove;
    if step.Clear? || Target(c, step) != Some(key) {
      OtherMarksStay(c, step, key);
    } else {
      StepMarksOwn(c, step, key);
    }
  }

  lemma OtherMarksStay(c: Core, step: Step, key: string)
    requires Sound(c) && Tracked(c) && key in Do(c, step).core.sessions
    requires step.Clear? || Target(c, step) != Some(key)
    ensures MarksMove(c, step, key, Do(c, step).core)
  {
    hide DeliverEvent, FinishSend, ResolveCard, ReemitCard;
    if !step.Clear? {
      OthersUntouched(c, step, key);
    }
  }

  lemma StepMarksOwn(c: Core, step: Step, key: string)
    requires Sound(c) && (key in c.sessions ==> Get(c.registry, key).Some?)
    requires !step.Clear? && Target(c, step) == Some(key) && key in Do(c, step).core.sessions
    ensures MarksMove(c, step, key, Do(c, step).core)
  {
    match step
    case Open(_, _, _, cols, profile) => UpsertIsSeen(c.registry, OpenRecord(c, key, cols, profile), key);
    case Rebuild(_, _, epoch) => RestartIsSeen(c.registry, key, epoch, key);
    case Ack(_, latest, epoch) => TouchIsSeen(c.registry, key, latest, epoch, key);
    case Deliver(ev) => DeliverMarks(c, ev, key);
    case CloseTab(_) =>
    case Clear =>
    case Repoint(_, _) =>
    case _ => ReducerStepMarks(c, step, key);
  }

  lemma StepTracked(c: Core, step: Step)
    requires Sound(c) && Tracked(c)
    ensures Tracked(Do(c, step).core)
  {
    forall key | key in Do(c, step).core.sessions
      ensures Get(Do(c, step).core.registry, key).Some?
           && Do(c, step).core.sessions[key].lastSeenSeq <= RecordMark(Do(c, step).core, key)
    {
      StepMarks(c, step, key);
    }
  }

  // ── Over whole runs ───────────────────────────────────────────────────

  /** The highest seq delivered to `key` since its last open or rebuild. */
  ghost function DeliveredMark(known: Tabs, steps: seq<Step>, key: string): int {
    if |steps| == 0 then 0
    else
      var before, step := steps[..|steps| - 1], steps[|steps| - 1];
      if Restarts(step, key) then 0
      else Raised(DeliveredMark(known, before, key), Delivered(RunSteps(NewCore(known), before), step, key))
  }

  /** The highest seq delivered to or acknowledged for `key` since its last open or rebuild. */
  ghost function HeardMark(known: Tabs, steps: seq<Step>, key: string): int {
    if |steps| == 0 then 0
    else
      var before, step := steps[..|steps| - 1], steps[|steps| - 1];
      if Restarts(step, key) then 0
      else Raised(HeardMark(known, before, key), Heard(RunSteps(NewCore(known), before), step, key))
  }

  /** In every reachable state a live session is registered, its watermark is the running maximum of
      what was delivered since its last open or rebuild, and its record's is that of what was delivered
      or acknowledged; so it is never ahead of its record. */
  lemma {:induction false} WatermarksAgree(known: Tabs, steps: seq<Step>, key: string)
    ensures var c := RunSteps(NewCore(known), steps);
            key in c.sessions ==>
              && Get(c.registry, key).Some?
              && c.sessions[key].lastSeenSeq == DeliveredMark(known, steps, key)
              && RecordMark(c, key) == HeardMark(known, steps, key)
              && c.sessions[key].lastSeenSeq <= RecordMark(c, key)
  {
    if |steps| > 0 {
      var before := steps[..|steps| - 1];
      var c := RunSteps(NewCore(known), before);
      RunTracked(known, before);
      if key in RunSteps(NewCore(known), steps).sessions {
        StepMarks(c, steps[|steps| - 1], key);
        WatermarksAgree(known, before, key);
        StepTracked(c, steps[|steps| - 1]);
      }
    }
  }

  lemma {:induction false} RunTracked(known: Tabs, steps: seq<Step>)
    ensures Tracked(RunSteps(NewCore(known), steps))
  {
    if |steps| > 0 {
      RunTracked(known, steps[..|steps| - 1]);
      StepTracked(RunSteps(NewCore(known), steps[..|steps| - 1]), steps[|steps| - 1]);
    }
  }

  /** Neither watermark moves back except at an open or a rebuild of that same session. */
  lemma NeverBackwards(c: Core, step: Step, key: string)
    requires Sound(c) && Tracked(c) && key in c.sessions && key in Do(c, step).core.sessions
    requires !Restarts(step, key)
    ensures c.sessions[key].lastSeenSeq <= Do(c, step).core.sessions[key].lastSeenSeq
    ensures RecordMark(c, key) <= RecordMark(Do(c, step).core, key)
  {
    StepMarks(c, step, key);
  }
}
