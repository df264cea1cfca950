/** What each reducer entry point does to the transcript, as functions on values. */
module ReducerSpec {
  import opened Transcript

  /** Latches and tool entries are valid row indices: what direct indexing needs not to panic. */
  ghost predicate InBounds(s: ReducerState) {
    && (s.streaming.Some? ==> s.streaming.value < |s.rows|)
    && (s.thinking.Some? ==> s.thinking.value < |s.rows|)
    && (forall id :: id in s.tools ==> s.tools[id] < |s.rows|)
  }

  datatype Outcome = Outcome(state: ReducerState, changes: seq<Change>)

  // ── Row search ────────────────────────────────────────────────────────

  datatype Query =
    | CardWithId(id: string)
    | PlaceholderFor(name: string)
    | OpenApproval(id: string)
    | OpenClarify(id: string)

  predicate Matches(q: Query, k: RowKind) {
    match q
    case CardWithId(id) => k.Tool? && k.card.toolId == id
    case PlaceholderFor(name) => k.Tool? && k.card.toolId == "" && k.card.name == name
    case OpenApproval(id) => k.Approval? && k.approval.requestId == id && !k.approval.resolved
    case OpenClarify(id) => k.Clarify? && k.clarify.requestId == id && !k.clarify.resolved
  }

  /** Position of the first match. */
  function FirstWhere(kinds: seq<RowKind>, q: Query): (r: Option<nat>)
    ensures r.Some? ==>
              && r.value < |kinds| && Matches(q, kinds[r.value])
              && forall j :: 0 <= j < r.value ==> !Matches(q, kinds[j])
    ensures r.None? ==> forall j :: 0 <= j < |kinds| ==> !Matches(q, kinds[j])
  {
    if |kinds| == 0 then None
    else
      var n := |kinds| - 1;
      var r := FirstWhere(kinds[..n], q);
      assert forall j :: 0 <= j < n ==> kinds[..n][j] == kinds[j];
      if r.Some? then r else if Matches(q, kinds[n]) then Some(n) else None
  }

  /** Position of the last match: the search runs from the end. */
  function LastWhere(kinds: seq<RowKind>, q: Query): (r: Option<nat>)
    ensures r.Some? ==>
              && r.value < |kinds| && Matches(q, kinds[r.value])
              && forall j :: r.value < j < |kinds| ==> !Matches(q, kinds[j])
    ensures r.None? ==> forall j :: 0 <= j < |kinds| ==> !Matches(q, kinds[j])
  {
    if |kinds| == 0 then None
    else
      var n := |kinds| - 1;
      assert forall j :: 0 <= j < n ==> kinds[..n][j] == kinds[j];
      if Matches(q, kinds[n]) then Some(n) else LastWhere(kinds[..n], q)
  }

  predicate HasUnresolvedApproval(s: ReducerState, requestId: string) {
    exists i :: 0 <= i < |s.rows| && Matches(OpenApproval(requestId), s.rows[i].kind)
  }

  // ── Building blocks ───────────────────────────────────────────────────

  function Push(s: ReducerState, kind: RowKind): Outcome {
    Outcome(s.(rows := s.rows + [Row(|s.rows|, kind)]), [RowAppended(|s.rows|)])
  }

  function Edit(s: ReducerState, i: nat, kind: RowKind): Outcome
    requires i < |s.rows|
  {
    Outcome(s.(rows := s.rows[i := s.rows[i].(kind := kind)]), [RowUpdated(i)])
  }

  // ── Event handlers ────────────────────────────────────────────────────

  function OnMessageStart(s: ReducerState): Outcome {
    var o := Push(s.(thinking := None), Assistant("", true, "", ""));
    o.(state := o.state.(streaming := Some(|s.rows|)))
  }

  function OnMessageDelta(s: ReducerState, text: string): Outcome
    requires InBounds(s)
  {
    if text == "" then Outcome(s, [])
    else if s.streaming.Some? && s.rows[s.streaming.value].kind.Assistant? then
      var k := s.rows[s.streaming.value].kind;
      Edit(s, s.streaming.value, Assistant(k.text + text, k.streaming, k.usageJson, k.warning))
    else
      var o := Push(s, Assistant(text, true, "", ""));
      o.(state := o.state.(streaming := Some(|s.rows|)))
  }

  function OnMessageInterim(s: ReducerState, text: string, alreadyStreamed: bool): Outcome
    requires InBounds(s)
  {
    if s.streaming.None? then Outcome(s, [])
    else
      var i := s.streaming.value;
      var k := s.rows[i].kind;
      var sealed := if !k.Assistant? then k
                    else Assistant(if alreadyStreamed then k.text else text, false, k.usageJson, k.warning);
      Edit(s.(streaming := None), i, sealed)
  }

  function OnMessageComplete(s: ReducerState, complete: Option<CompleteFields>): Outcome
    requires InBounds(s)
  {
    if complete.None? || s.streaming.None? then Outcome(s, [])
    else
      var i := s.streaming.value;
      var c := complete.value;
      var k := s.rows[i].kind;
      Edit(s.(streaming := None), i,
           if k.Assistant? then Assistant(c.text, false, c.usageJson, c.warning) else k)
  }

  function OnThinkingDelta(s: ReducerState, text: string): Outcome
    requires InBounds(s)
  {
    if s.thinking.Some? && s.rows[s.thinking.value].kind.Thinking? then
      var k := s.rows[s.thinking.value].kind;
      Edit(s, s.thinking.value, Thinking(k.text + text))
    else
      var o := Push(s, Thinking(text));
      o.(state := o.state.(thinking := Some(|s.rows|)))
  }

  function OnToolGenerating(s: ReducerState, name: string): Outcome {
    Push(s, Tool(ToolCard("", name, false, "", "", "", 0.0)))
  }

  /** The most recent card of this tool that carries no id yet. */
  function PendingGeneratingRow(s: ReducerState, name: string): (r: Option<nat>)
    ensures r.Some? ==> r.value < |s.rows|
  {
    LastWhere(Kinds(s.rows), PlaceholderFor(name))
  }

  function OnToolStart(
    s: ReducerState, toolId: string, name: string, context: string, argsJson: string): Outcome
    requires InBounds(s)
  {
    if toolId == "" then Outcome(s, [])
    else if toolId in s.tools then
      var i := s.tools[toolId];
      var k := s.rows[i].kind;
      Edit(s, i,
           if k.Tool? then Tool(k.card.(name := name, context := context, argsJson := argsJson, complete := false))
           else k)
    else
      var pending := PendingGeneratingRow(s, name);
      if pending.Some? then
        var i := pending.value;
        var k := s.rows[i].kind;
        var o := Edit(s, i,
                      if k.Tool? then Tool(k.card.(toolId := toolId, context := context, argsJson := argsJson))
                      else k);
        o.(state := o.state.(tools := s.tools[toolId := i]))
      else
        var o := Push(s, Tool(ToolCard(toolId, name, false, context, argsJson, "", 0.0)));
        o.(state := o.state.(tools := s.tools[toolId := |s.rows|]))
  }

  function OnToolProgress(s: ReducerState, toolId: string, preview: string): Outcome
    requires InBounds(s)
  {
    if preview == "" || toolId !in s.tools then Outcome(s, [])
    else
      var i := s.tools[toolId];
      var k := s.rows[i].kind;
      if k.Tool? then Edit(s, i, Tool(k.card.(context := preview))) else Outcome(s, [])
  }

  function OnToolComplete(s: ReducerState, toolId: string, resultJson: string, duration: real): Outcome
    requires InBounds(s)
  {
    if toolId !in s.tools then Outcome(s, [])
    else
      var i := s.tools[toolId];
      var k := s.rows[i].kind;
      Edit(s, i,
           if k.Tool? then Tool(k.card.(resultJson := resultJson, duration := duration, complete := true))
           else k)
  }

  function ParseStatus(status: string): StatusKind {
    if status == "status" then Plain
    else if status == "lifecycle" then Lifecycle
    else if status == "compacting" then Compacting
    else if status == "compacted" then Compacted
    else if status == "heartbeat" then Heartbeat
    else Other(status)
  }

  /** The row a status update adds; heartbeats and garbage add none. */
  function StatusRow(status: string, text: string): Option<RowKind> {
    if status == "" || ParseStatus(status) == Heartbeat then None
    else Some(Status(ParseStatus(status), text))
  }

  /** The row an approval payload adds; a card nobody could answer adds none. */
  function ApprovalRow(approval: Option<ApprovalFields>): Option<RowKind> {
    if approval.None? || approval.value.requestId == "" then None
    else
      var a := approval.value;
      Some(Approval(ApprovalCard(a.requestId, a.command, a.description, a.choices, false)))
  }

  function WithDefaultQid(q: ClarifyQuestion): ClarifyQuestion {
    if q.qid == "" then q.(qid := "q0") else q
  }

  /** The row of both clarify shapes; an empty question list adds none. */
  function ClarifyRow(requestId: string, batch: Option<seq<ClarifyQuestion>>, single: ClarifyQuestion): Option<RowKind> {
    match batch
    case Some(list) =>
      if list == [] then None
      else Some(Clarify(ClarifyCard(
        requestId, seq(|list|, i requires 0 <= i < |list| => WithDefaultQid(list[i])), false)))
    case None =>
      if single.question == "" then None
      else Some(Clarify(ClarifyCard(requestId, [single.(qid := "q0")], false)))
  }

  function PushIfAny(s: ReducerState, kind: Option<RowKind>): Outcome {
    if kind.Some? then Push(s, kind.value) else Outcome(s, [])
  }

  function Merged(known: string, update: string): string {
    if update != "" then update else known
  }

  function MergeHeader(s: ReducerState, info: Header): Outcome {
    if info == EMPTY_HEADER then Outcome(s, [])
    else
      var h := s.header;
      Outcome(
        s.(header := Header(
          Merged(h.title, info.title), Merged(h.model, info.model), Merged(h.cwd, info.cwd),
          Merged(h.branch, info.branch), Merged(h.usageJson, info.usageJson))),
        [HeaderUpdated])
  }

  function OnEvent(s: ReducerState, body: EventBody): Outcome
    requires InBounds(s)
  {
    match body
    case MessageStart => OnMessageStart(s)
    case MessageDelta(text) => OnMessageDelta(s, text)
    case MessageInterim(text, already) => OnMessageInterim(s, text, already)
    case MessageComplete(complete) => OnMessageComplete(s, complete)
    case ThinkingDelta(text) => OnThinkingDelta(s, text)
    case ToolGenerating(name) => OnToolGenerating(s, name)
    case ToolStart(id, name, context, args) => OnToolStart(s, id, name, context, args)
    case ToolProgress(id, preview) => OnToolProgress(s, id, preview)
    case ToolComplete(id, result, duration) => OnToolComplete(s, id, result, duration)
    case StatusUpdate(status, text) => PushIfAny(s, StatusRow(status, text))
    case ApprovalRequest(approval) => PushIfAny(s, ApprovalRow(approval))
    case ClarifyRequest(id, batch, single) => PushIfAny(s, ClarifyRow(id, batch, single))
    case SessionInfo(info) => MergeHeader(s, info)
    case SessionTitle(title) => MergeHeader(s, EMPTY_HEADER.(title := title))
    case ErrorEvent(message) => Push(s, Error(message))
    case UnknownEvent(_) => Outcome(s, [])
  }

  // ── The other entry points ────────────────────────────────────────────

  function Resolved(k: RowKind): RowKind {
    match k
    case Approval(a) => Approval(a.(resolved := true))
    case Clarify(c) => Clarify(c.(resolved := true))
    case _ => k
  }

  /** Mark the first open card the query finds as resolved. */
  function ResolveFirst(s: ReducerState, q: Query): Outcome {
    var found := FirstWhere(Kinds(s.rows), q);
    if found.Some? then Edit(s, found.value, Resolved(s.rows[found.value].kind)) else Outcome(s, [])
  }

  /** The row a history message becomes; entries that are not objects are skipped. */
  function HistoryRow(m: ResumeMessage): Option<RowKind> {
    match m
    case NotAnObject => None
    case Message(role, text, name, context, toolId) =>
      Some(match role
           case ToolRole => Tool(ToolCard(toolId, name, true, context, "", text, 0.0))
           case UserRole => User(text)
           case SystemRole => User(text)
           case OtherRole(_) => Assistant(text, false, "", ""))
  }

  function IngestOne(s: ReducerState, m: ResumeMessage): Outcome {
    var o := PushIfAny(s, HistoryRow(m));
    if m.Message? && m.role.ToolRole? && m.toolId != "" then
      o.(state := o.state.(tools := s.tools[m.toolId := |s.rows|]))
    else o
  }

  function IngestRows(messages: seq<ResumeMessage>): Outcome {
    if |messages| == 0 then Outcome(EMPTY_STATE, [])
    else
      var n := |messages| - 1;
      var before := IngestRows(messages[..n]);
      var last := IngestOne(before.state, messages[n]);
      Outcome(last.state, before.changes + last.changes)
  }

  /** A resume replaces the history: one reset, then one append per rebuilt row. */
  function IngestMessages(messages: seq<ResumeMessage>): Outcome {
    var o := IngestRows(messages);
    Outcome(o.state, [Reset] + o.changes)
  }

  /** One entry point; `key` is the session key the caller passes alongside. */
  function Perform(s: ReducerState, key: string, op: Op): Outcome
    requires InBounds(s)
  {
    match op
    case ApplyEvent(sid, body) => if sid == "" then Outcome(s, []) else OnEvent(s, body)
    case AppendUser(text) => Push(s, User(text))
    case ResolveApproval(id) => ResolveFirst(s, OpenApproval(id))
    case ResolveClarify(id) => ResolveFirst(s, OpenClarify(id))
    case ApplyApprovalCard(id, card) =>
      if id == "" || key == "" || card.None? then Outcome(s, [])
      else PushIfAny(s, ApprovalRow(Some(card.value.(requestId := id))))
    case Ingest(messages) => IngestMessages(messages)
    case ResetFromResume => Outcome(EMPTY_STATE, [Reset])
  }

  function Wrap(key: string, changes: seq<Change>): (r: seq<SessionChange>)
    ensures |r| == |changes| && forall i :: 0 <= i < |r| ==> r[i].key == key && r[i].change == changes[i]
  {
    seq(|changes|, i requires 0 <= i < |changes| => SessionChange(key, changes[i]))
  }

  // ── No entry point can index out of range ─────────────────────────────

  lemma IngestInBounds(messages: seq<ResumeMessage>)
    ensures InBounds(IngestRows(messages).state)
    ensures IngestRows(messages).state.streaming == None && IngestRows(messages).state.thinking == None
    ensures IngestRows(messages).state.header == EMPTY_HEADER
  {
    if |messages| > 0 {
      IngestInBounds(messages[..|messages| - 1]);
    }
  }

  lemma ToolStartInBounds(s: ReducerState, toolId: string, name: string, context: string, argsJson: string)
    requires InBounds(s)
    ensures InBounds(OnToolStart(s, toolId, name, context, argsJson).state)
  {
  }

  lemma MessageInBounds(s: ReducerState, body: EventBody)
    requires InBounds(s)
    requires body.MessageStart? || body.MessageDelta? || body.MessageInterim? || body.MessageComplete?
    ensures InBounds(OnEvent(s, body).state)
  {
  }

  lemma EventInBounds(s: ReducerState, body: EventBody)
    requires InBounds(s)
    ensures InBounds(OnEvent(s, body).state)
  {
    match body
    case ToolStart(id, name, context, args) => ToolStartInBounds(s, id, name, context, args);
    case ToolProgress(_, _) =>
    case ToolComplete(_, _, _) =>
    case ThinkingDelta(_) =>
    case SessionInfo(_) =>
    case SessionTitle(_) =>
    case _ =>
      if body.MessageStart? || body.MessageDelta? || body.MessageInterim? || body.MessageComplete? {
        MessageInBounds(s, body);
      }
  }

  /** From any state whose indices are in range, every operation runs and stays in range. */
  lemma PerformInBounds(s: ReducerState, key: string, op: Op)
    requires InBounds(s)
    ensures InBounds(Perform(s, key, op).state)
  {
    match op
    case ApplyEvent(_, body) => EventInBounds(s, body);
    case Ingest(messages) => IngestInBounds(messages);
    case _ =>
  }

  /** A run of operations from `s`, each under its own key. */
  function Run(s: ReducerState, key: string, ops: seq<Op>): (r: ReducerState)
    requires InBounds(s)
    ensures InBounds(r)
  {
    if |ops| == 0 then s
    else
      var n := |ops| - 1;
      var before := Run(s, key, ops[..n]);
      PerformInBounds(before, key, ops[n]);
      Perform(before, key, ops[n]).state
  }
}
