/** Plain data of one session transcript: rows, decoded events and the change stream. */
module Transcript {

  datatype Option<+T> = None | Some(value: T)

  // ── Rows ──────────────────────────────────────────────────────────────

  datatype StatusKind = Plain | Lifecycle | Compacting | Compacted | Heartbeat | Other(raw: string)

  /** Compact JSON texts (`argsJson`, `resultJson`, `usageJson`) are opaque; "" means absent. */
  datatype ToolCard = ToolCard(
    toolId: string, name: string, complete: bool, context: string,
    argsJson: string, resultJson: string, duration: real)

  datatype ApprovalCard = ApprovalCard(
    requestId: string, command: string, description: string, choices: seq<string>, resolved: bool)

  datatype ClarifyQuestion = ClarifyQuestion(
    qid: string, question: string, choices: seq<string>, multiSelect: bool)

  datatype ClarifyCard = ClarifyCard(requestId: string, questions: seq<ClarifyQuestion>, resolved: bool)

  datatype RowKind =
    | User(text: string)
    | Assistant(text: string, streaming: bool, usageJson: string, warning: string)
    | Thinking(text: string)
    | Tool(card: ToolCard)
    | Approval(approval: ApprovalCard)
    | Clarify(clarify: ClarifyCard)
    | Status(status: StatusKind, text: string)
    | Error(message: string)

  datatype Row = Row(index: nat, kind: RowKind)

  datatype Header = Header(title: string, model: string, cwd: string, branch: string, usageJson: string)

  const EMPTY_HEADER := Header("", "", "", "", "")

  /** The kinds of a row list, in order. */
  function Kinds(rows: seq<Row>): seq<RowKind> {
    seq(|rows|, i requires 0 <= i < |rows| => rows[i].kind)
  }

  // ── Decoded input ─────────────────────────────────────────────────────

  /** The fields of a `message.complete` object payload. */
  datatype CompleteFields = CompleteFields(text: string, usageJson: string, warning: string)

  /** The fields of an approval object (event payload or pending card). */
  datatype ApprovalFields = ApprovalFields(
    requestId: string, command: string, description: string, choices: seq<string>)

  /** One decoded event; every field is what the tolerant accessor yields, so "" stands for an
      absent or mistyped field. An `Option` payload is `None` when it is not a JSON object. */
  datatype EventBody =
    | MessageStart
    | MessageDelta(text: string)
    | MessageInterim(text: string, alreadyStreamed: bool)
    | MessageComplete(complete: Option<CompleteFields>)
    | ThinkingDelta(text: string)
    | ToolGenerating(name: string)
    | ToolStart(toolId: string, name: string, context: string, argsJson: string)
    | ToolProgress(toolId: string, preview: string)
    | ToolComplete(toolId: string, resultJson: string, duration: real)
    | StatusUpdate(status: string, text: string)
    | ApprovalRequest(approval: Option<ApprovalFields>)
    | ClarifyRequest(requestId: string, batch: Option<seq<ClarifyQuestion>>, single: ClarifyQuestion)
    | SessionInfo(info: Header)
    | SessionTitle(title: string)
    | ErrorEvent(message: string)
    | UnknownEvent(eventType: string)

  datatype EventParams = EventParams(sessionId: string, seqNo: Option<int>, body: EventBody)

  datatype Role = ToolRole | UserRole | SystemRole | OtherRole(name: string)

  /** One entry of the `messages` history of a resume. */
  datatype ResumeMessage =
    | NotAnObject
    | Message(role: Role, text: string, name: string, context: string, toolId: string)

  // ── Output ────────────────────────────────────────────────────────────

  datatype Change = RowAppended(index: nat) | RowUpdated(index: nat) | Reset | HeaderUpdated

  datatype SessionChange = SessionChange(key: string, change: Change)

  // ── State ─────────────────────────────────────────────────────────────

  datatype ReducerState = ReducerState(
    rows: seq<Row>,
    header: Header,
    streaming: Option<nat>,
    thinking: Option<nat>,
    tools: map<string, nat>)

  const EMPTY_STATE := ReducerState([], EMPTY_HEADER, None, None, map[])

  /** Every entry point of the reducer. */
  datatype Op =
    | ApplyEvent(sessionId: string, body: EventBody)
    | AppendUser(text: string)
    | ResolveApproval(requestId: string)
    | ResolveClarify(requestId: string)
    | ApplyApprovalCard(requestId: string, approval: Option<ApprovalFields>)
    | Ingest(messages: seq<ResumeMessage>)
    | ResetFromResume
}
