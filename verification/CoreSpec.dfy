/** The lock-held sections of the core, as functions from state to state and delivered changes. */
module CoreSpec {
  import opened Transcript
  import opened ReducerSpec
  import opened ReducerInvariants
  import opened Replica
  import opened Registry

  datatype LiveSession = LiveSession(
    liveSid: string,
    reducer: ReducerState,
    lastSeenSeq: int,
    /** The history epoch at this session's last rebuild. */
    historyEpoch: nat)

  datatype Core = Core(
    sidIndex: map<string, string>,
    sessions: map<string, LiveSession>,
    registry: Tabs,
    emittedApprovals: map<string, seq<string>>,
    historyEpoch: nat)

  function NewCore(registry: Tabs): Core {
    Core(map[], map[], registry, map[], 0)
  }

  datatype Effect = Effect(core: Core, dtos: seq<Dto>)

  const DEFAULT_COLS := 80

  /** Every open transcript is well-formed. */
  ghost predicate Sound(c: Core) {
    forall key :: key in c.sessions ==> WellFormed(c.sessions[key].reducer)
  }

  // ── Routing ───────────────────────────────────────────────────────────

  /** The session an event belongs to: by live sid first, then by durable key. */
  function Route(c: Core, sessionId: string): Option<string> {
    if sessionId == "" then None
    else if sessionId in c.sidIndex then
      if c.sidIndex[sessionId] in c.sessions then Some(c.sidIndex[sessionId]) else None
    else if sessionId in c.sessions then Some(sessionId)
    else None
  }

  // ── Helpers ───────────────────────────────────────────────────────────

  function Max(a: int, b: int): int {
    if b > a then b else a
  }

  /** Run one reducer operation on an open session and deliver what it announces. */
  function OnSession(c: Core, key: string, op: Op, title: string): Effect
    requires Sound(c) && key in c.sessions
  {
    var live := c.sessions[key];
    var o := Perform(live.reducer, key, op);
    Effect(c.(sessions := c.sessions[key := live.(reducer := o.state)]),
           ToDtos(key, o.changes, o.state.rows, title))
  }

  // ── The sections ──────────────────────────────────────────────────────

  function OpenedReducer(messages: seq<ResumeMessage>): Outcome {
    if messages != [] then IngestMessages(messages) else Outcome(EMPTY_STATE, [])
  }

  function OpenRecord(c: Core, key: string, cols: int, profile: string): SessionRecord {
    var known := Get(c.registry, key);
    SessionRecord(
      key, 0,
      if known.Some? then known.value.replayEpoch else "",
      if cols <= 0 then DEFAULT_COLS else cols,
      if known.Some? then known.value.title else "",
      if profile != "" then profile else if known.Some? then known.value.profileName else "")
  }

  /** Create or resume: a fresh live session under `key`, rebuilt from its history if there is one. */
  function OpenSession(
    c: Core, key: string, liveSid: string, messages: seq<ResumeMessage>, cols: int, profile: string): Effect
  {
    var epoch := c.historyEpoch + 1;
    var o := OpenedReducer(messages);
    Effect(
      c.(historyEpoch := epoch,
         sessions := c.sessions[key := LiveSession(liveSid, o.state, 0, epoch)],
         sidIndex := c.sidIndex[liveSid := key],
         registry := SetActive(Upsert(c.registry, OpenRecord(c, key, cols, profile)), Some(key))),
      ToDtos(key, o.changes, o.state.rows, ""))
  }

  function CloseSession(c: Core, key: string): Effect {
    Effect(
      c.(sidIndex := if key in c.sessions then c.sidIndex - {c.sessions[key].liveSid} else c.sidIndex,
         sessions := c.sessions - {key},
         emittedApprovals := c.emittedApprovals - {key},
         registry := Close(c.registry, key)),
      [])
  }

  /** The history epoch survives: an in-flight send can never alias a later session. */
  function ClearSessions(c: Core): Effect {
    Effect(c.(sidIndex := map[], sessions := map[], emittedApprovals := map[], registry := NO_TABS), [])
  }

  /** Fan one event out to its session; the registry follows the watermark and the title. */
  function DeliverEvent(c: Core, ev: EventParams): Effect
    requires Sound(c)
  {
    var key := Route(c, ev.sessionId);
    if key.None? then Effect(c, [])
    else
      var live := c.sessions[key.value];
      var o := Perform(live.reducer, ev.sessionId, ApplyEvent(ev.sessionId, ev.body));
      var title := o.state.header.title;
      var touched := if ev.seqNo.Some? then Touch(c.registry, key.value, ev.seqNo.value, "") else c.registry;
      Effect(
        c.(sessions := c.sessions[key.value := live.(
             reducer := o.state,
             lastSeenSeq := if ev.seqNo.Some? then Max(live.lastSeenSeq, ev.seqNo.value) else live.lastSeenSeq)],
           registry := if HeaderUpdated in o.changes then Retitle(touched, key.value, title) else touched),
        ToDtos(key.value, o.changes, o.state.rows, title))
  }

  /** After an accepted submit: append the user's row, unless the session was rebuilt meanwhile. */
  function FinishSend(c: Core, key: string, text: string, epoch: nat): Effect
    requires Sound(c)
  {
    if key in c.sessions && c.sessions[key].historyEpoch == epoch then OnSession(c, key, AppendUser(text), "")
    else Effect(c, [])
  }

  /** After an answered card: mark it resolved. */
  function ResolveCard(c: Core, key: string, q: Query): Effect
    requires Sound(c)
  {
    if key !in c.sessions then Effect(c, [])
    else match q
      case OpenApproval(id) => OnSession(c, key, ResolveApproval(id), "")
      case OpenClarify(id) => OnSession(c, key, ResolveClarify(id), "")
      case _ => Effect(c, [])
  }

  function RepointLiveSid(c: Core, key: string, liveSid: string): Effect {
    if key !in c.sessions || c.sessions[key].liveSid == liveSid then Effect(c, [])
    else
      Effect(c.(sidIndex := (c.sidIndex - {c.sessions[key].liveSid})[liveSid := key],
                sessions := c.sessions[key := c.sessions[key].(liveSid := liveSid)]),
             [])
  }

  /** Rebuild one transcript from history: the epoch moves, the watermark restarts. */
  function RebuildSession(c: Core, key: string, messages: seq<ResumeMessage>, replayEpoch: Option<string>): Effect {
    var epoch := c.historyEpoch + 1;
    if key !in c.sessions then Effect(c.(historyEpoch := epoch), [])
    else
      var o := IngestMessages(messages);
      Effect(
        c.(historyEpoch := epoch,
           sessions := c.sessions[key := c.sessions[key].(
             historyEpoch := epoch, reducer := o.state, lastSeenSeq := 0)],
           registry := Restart(c.registry, key, replayEpoch)),
        ToDtos(key, o.changes, o.state.rows, ""))
  }

  predicate AlreadyEmitted(c: Core, key: string, requestId: string) {
    key in c.emittedApprovals && requestId in c.emittedApprovals[key]
  }

  /** Would this pending card become a row? */
  predicate CardWanted(c: Core, key: string, requestId: string, card: Option<ApprovalFields>) {
    && requestId != "" && key != "" && card.Some?
    && !AlreadyEmitted(c, key, requestId)
    && key in c.sessions && !HasUnresolvedApproval(c.sessions[key].reducer, requestId)
  }

  /** One pending card of a re-emission round. */
  function ReemitCard(c: Core, key: string, requestId: string, card: Option<ApprovalFields>): Effect
    requires Sound(c)
  {
    if !CardWanted(c, key, requestId, card) then Effect(c, [])
    else
      var e := OnSession(c, key, ApplyApprovalCard(requestId, card), "");
      var before := if key in c.emittedApprovals then c.emittedApprovals[key] else [];
      e.(core := e.core.(emittedApprovals := c.emittedApprovals[key := before + [requestId]]))
  }

  /** The gap fill was acknowledged up to `latestSeq`. */
  function Acknowledge(c: Core, key: string, latestSeq: int, replayEpoch: string): Effect {
    Effect(c.(registry := Touch(c.registry, key, latestSeq, replayEpoch)), [])
  }

  // ── Steps and runs ────────────────────────────────────────────────────

  datatype Step =
    | Open(key: string, liveSid: string, messages: seq<ResumeMessage>, cols: int, profile: string)
    | CloseTab(key: string)
    | Clear
    | Deliver(ev: EventParams)
    | SendEnd(key: string, text: string, epoch: nat)
    | Resolve(key: string, query: Query)
    | Repoint(key: string, liveSid: string)
    | Rebuild(key: string, messages: seq<ResumeMessage>, replayEpoch: Option<string>)
    | Reemit(key: string, requestId: string, card: Option<ApprovalFields>)
    | Ack(key: string, latestSeq: int, epochName: string)

  function Do(c: Core, step: Step): Effect
    requires Sound(c)
  {
    match step
    case Open(key, sid, messages, cols, profile) => OpenSession(c, key, sid, messages, cols, profile)
    case CloseTab(key) => CloseSession(c, key)
    case Clear => ClearSessions(c)
    case Deliver(ev) => DeliverEvent(c, ev)
    case SendEnd(key, text, epoch) => FinishSend(c, key, text, epoch)
    case Resolve(key, q) => ResolveCard(c, key, q)
    case Repoint(key, sid) => RepointLiveSid(c, key, sid)
    case Rebuild(key, messages, epoch) => RebuildSession(c, key, messages, epoch)
    case Reemit(key, id, card) => ReemitCard(c, key, id, card)
    case Ack(key, latest, epoch) => Acknowledge(c, key, latest, epoch)
  }

  /** The steps that run one reducer operation on one open session, if anything. */
  predicate RunsReducer(step: Step) {
    step.SendEnd? || step.Resolve? || step.Reemit?
  }

  /** The operation such a step runs. */
  function Operation(c: Core, step: Step): Option<Op> {
    match step
    case SendEnd(key, text, epoch) =>
      if key in c.sessions && c.sessions[key].historyEpoch == epoch then Some(AppendUser(text)) else None
    case Resolve(key, q) =>
      if key !in c.sessions then None
      else if q.OpenApproval? then Some(ResolveApproval(q.id))
      else if q.OpenClarify? then Some(ResolveClarify(q.id))
      else None
    case Reemit(key, id, card) =>
      if CardWanted(c, key, id, card) then Some(ApplyApprovalCard(id, card)) else None
    case _ => None
  }

  /** Such a step is that operation and nothing else, but for the note that a card was re-emitted. */
  lemma ReducerStepIs(c: Core, step: Step)
    requires Sound(c) && RunsReducer(step)
    ensures match Operation(c, step)
            case None => Do(c, step) == Effect(c, [])
            case Some(op) =>
              && step.key in c.sessions && !IsReset(op)
              && var e := OnSession(c, step.key, op, "");
                 && Do(c, step).dtos == e.dtos
                 && Do(c, step).core == e.core.(emittedApprovals := Do(c, step).core.emittedApprovals)
                 && forall key :: key != step.key ==>
                      && (key in Do(c, step).core.emittedApprovals <==> key in c.emittedApprovals)
                      && (key in c.emittedApprovals ==>
                            Do(c, step).core.emittedApprovals[key] == c.emittedApprovals[key])
  {
  }

  lemma OpenedWellFormed(messages: seq<ResumeMessage>)
    ensures WellFormed(OpenedReducer(messages).state) && WellFormed(IngestMessages(messages).state)
  {
    IngestWellFormed(messages);
  }

  lemma DeliverSound(c: Core, ev: EventParams)
    requires Sound(c)
    ensures Sound(DeliverEvent(c, ev).core)
  {
    var key := Route(c, ev.sessionId);
    if key.Some? {
      PerformKeeps(c.sessions[key.value].reducer, ev.sessionId, ApplyEvent(ev.sessionId, ev.body));
    }
  }

  lemma OnSessionSound(c: Core, key: string, op: Op, title: string)
    requires Sound(c) && key in c.sessions
    ensures Sound(OnSession(c, key, op, title).core)
  {
    PerformKeeps(c.sessions[key].reducer, key, op);
  }

  lemma ReemitSound(c: Core, key: string, requestId: string, card: Option<ApprovalFields>)
    requires Sound(c)
    ensures Sound(ReemitCard(c, key, requestId, card).core)
  {
    if CardWanted(c, key, requestId, card) {
      OnSessionSound(c, key, ApplyApprovalCard(requestId, card), "");
    }
  }

  lemma RebuildSound(c: Core, key: string, messages: seq<ResumeMessage>, replayEpoch: Option<string>)
    requires Sound(c)
    ensures Sound(RebuildSession(c, key, messages, replayEpoch).core)
  {
    OpenedWellFormed(messages);
  }

  /** No section can break a transcript, so none can index out of range. */
  lemma DoSound(c: Core, step: Step)
    requires Sound(c)
    ensures Sound(Do(c, step).core)
  {
    if RunsReducer(step) {
      ReducerStepIs(c, step);
      if Operation(c, step).Some? {
        OnSessionSound(c, step.key, Operation(c, step).value, "");
      }
    } else if step.Open? {
      OpenedWellFormed(step.messages);
    } else if step.Rebuild? {
      RebuildSound(c, step.key, step.messages, step.replayEpoch);
    } else if step.Deliver? {
      DeliverSound(c, step.ev);
    }
  }

  function RunSteps(c: Core, steps: seq<Step>): (r: Core)
    requires Sound(c)
    ensures Sound(r)
  {
    if |steps| == 0 then c
    else
      var before := RunSteps(c, steps[..|steps| - 1]);
      DoSound(before, steps[|steps| - 1]);
      Do(before, steps[|steps| - 1]).core
  }
}
