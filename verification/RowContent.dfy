/** What the rows hold: read off the message, the event or the answer they come from. */
module RowContent {
  import opened Transcript
  import opened ReducerSpec
  import opened ReducerInvariants

  // ── A rebuilt history ─────────────────────────────────────────────────

  /** The entries of a history that are objects, in order. */
  function ObjectMessages(messages: seq<ResumeMessage>): (r: seq<ResumeMessage>)
    ensures forall m :: m in r ==> m.Message?
  {
    if |messages| == 0 then []
    else ObjectMessages(messages[..|messages| - 1])
         + if messages[|messages| - 1].Message? then [messages[|messages| - 1]] else []
  }

  /** The row says what the message says: tool messages are finished cards, user and system messages are
      user rows, any other role speaks. */
  predicate SaysTheSame(k: RowKind, m: ResumeMessage)
    requires m.Message?
  {
    match m.role
    case ToolRole =>
      && k.Tool? && k.card.toolId == m.toolId && k.card.name == m.name && k.card.context == m.context
      && k.card.resultJson == m.text && k.card.argsJson == "" && k.card.duration == 0.0 && k.card.complete
    case OtherRole(_) =>
      k.Assistant? && k.text == m.text && !k.streaming && k.usageJson == "" && k.warning == ""
    case _ => k.User? && k.text == m.text
  }

  lemma {:induction false} RowsSayTheSame(messages: seq<ResumeMessage>)
    ensures var rows, said := IngestRows(messages).state.rows, ObjectMessages(messages);
            |rows| == |said| && forall i :: 0 <= i < |rows| ==> rows[i].index == i && SaysTheSame(rows[i].kind, said[i])
  {
    if |messages| > 0 {
      RowsSayTheSame(messages[..|messages| - 1]);
    }
  }

  /** A rebuild shows the history: its i-th object is row i, with every field of it, and nothing is latched. */
  lemma HistoryIsShown(messages: seq<ResumeMessage>)
    ensures var s, said := IngestMessages(messages).state, ObjectMessages(messages);
            && |s.rows| == |said|
            && (forall i :: 0 <= i < |said| ==> s.rows[i].index == i && SaysTheSame(s.rows[i].kind, said[i]))
            && s.streaming.None? && s.thinking.None? && s.header == EMPTY_HEADER
  {
    RowsSayTheSame(messages);
    IngestInBounds(messages);
  }

  // ── Notices ───────────────────────────────────────────────────────────

  /** The wire name of a status kind. */
  function WireName(kind: StatusKind): string {
    match kind
    case Plain => "status"
    case Lifecycle => "lifecycle"
    case Compacting => "compacting"
    case Compacted => "compacted"
    case Heartbeat => "heartbeat"
    case Other(raw) => raw
  }

  /** The app's list of one question each, and of a batch: the wire's, every question with an id. */
  ghost predicate AsksTheSame(asked: seq<ClarifyQuestion>, batch: Option<seq<ClarifyQuestion>>, single: ClarifyQuestion) {
    match batch
    case Some(list) =>
      |asked| == |list| && forall i :: 0 <= i < |list| ==>
        && asked[i].question == list[i].question && asked[i].choices == list[i].choices
        && asked[i].multiSelect == list[i].multiSelect
        && asked[i].qid == if list[i].qid == "" then "q0" else list[i].qid
    case None => asked == [ClarifyQuestion("q0", single.question, single.choices, single.multiSelect)]
  }

  /** The notice a row gives is the one the event brings, and cards come open. */
  ghost predicate Gives(k: RowKind, body: EventBody) {
    match body
    case StatusUpdate(status, text) => k.Status? && WireName(k.status) == status && k.text == text
    case ApprovalRequest(Some(a)) => k == Approval(ApprovalCard(a.requestId, a.command, a.description, a.choices, false))
    case ClarifyRequest(id, batch, single) =>
      k.Clarify? && k.clarify.requestId == id && !k.clarify.resolved && AsksTheSame(k.clarify.questions, batch, single)
    case ErrorEvent(message) => k == Error(message)
    case _ => false
  }

  /** The event brings nothing to give: no kind or a heartbeat, no request id, no question. */
  predicate GivesNothing(body: EventBody) {
    match body
    case StatusUpdate(status, _) => status == "" || status == "heartbeat"
    case ApprovalRequest(card) => card.None? || card.value.requestId == ""
    case ClarifyRequest(_, batch, single) => if batch.Some? then batch.value == [] else single.question == ""
    case _ => false
  }

  lemma NamesAreParsed(status: string)
    ensures WireName(ParseStatus(status)) == status
    ensures ParseStatus(status) == Heartbeat <==> status == "heartbeat"
    ensures ParseStatus(status).Other? <==>
              status !in {"status", "lifecycle", "compacting", "compacted", "heartbeat"}
  {
  }

  /** A status, an approval, a question or an error becomes one row at the end that gives just what the
      event brought, announced as appended; unless it brought nothing, and then nothing happens. */
  lemma NoticeIsShown(s: ReducerState, body: EventBody)
    requires InBounds(s)
    requires body.StatusUpdate? || body.ApprovalRequest? || body.ClarifyRequest? || body.ErrorEvent?
    ensures GivesNothing(body) ==> OnEvent(s, body) == Outcome(s, [])
    ensures !GivesNothing(body) ==>
              var o, n := OnEvent(s, body), |s.rows|;
              && |o.state.rows| == n + 1 && o.state.rows[n].index == n && Gives(o.state.rows[n].kind, body)
              && o.state == s.(rows := s.rows + [o.state.rows[n]]) && o.changes == [RowAppended(n)]
  {
    if body.StatusUpdate? {
      NamesAreParsed(body.status);
    }
  }

  // ── What leaves no trace ──────────────────────────────────────────────

  /** The operation brings nothing the transcript could show. */
  ghost predicate Ignored(s: ReducerState, key: string, op: Op) {
    match op
    case ApplyEvent(sid, body) => sid == "" || EventIgnored(s, body)
    case AppendUser(_) => false
    case ResolveApproval(id) =>
      forall r :: r in s.rows && r.kind.Approval? && r.kind.approval.requestId == id ==> r.kind.approval.resolved
    case ResolveClarify(id) =>
      forall r :: r in s.rows && r.kind.Clarify? && r.kind.clarify.requestId == id ==> r.kind.clarify.resolved
    case ApplyApprovalCard(id, card) => id == "" || key == "" || card.None?
    case Ingest(_) => false
    case ResetFromResume => false
  }

  ghost predicate EventIgnored(s: ReducerState, body: EventBody) {
    match body
    case MessageStart => false
    case MessageDelta(text) => text == ""
    case MessageInterim(_, _) => s.streaming.None?
    case MessageComplete(complete) => complete.None? || s.streaming.None?
    case ThinkingDelta(_) => false
    case ToolGenerating(_) => false
    case ToolStart(id, _, _, _) => id == ""
    case ToolProgress(id, preview) => preview == "" || id !in s.tools
    case ToolComplete(id, _, _) => id !in s.tools
    case SessionInfo(info) =>
      info.title == "" && info.model == "" && info.cwd == "" && info.branch == "" && info.usageJson == ""
    case SessionTitle(title) => title == ""
    case UnknownEvent(_) => true
    case _ => GivesNothing(body)
  }

  lemma EventSilentIff(s: ReducerState, body: EventBody)
    requires WellFormed(s)
    ensures OnEvent(s, body).changes == [] <==> EventIgnored(s, body)
    ensures EventIgnored(s, body) ==> OnEvent(s, body).state == s
  {
    if body.StatusUpdate? || body.ApprovalRequest? || body.ClarifyRequest? || body.ErrorEvent? {
      NoticeIsShown(s, body);
    }
  }

  lemma ResolveSilentIff(s: ReducerState, q: Query)
    ensures ResolveFirst(s, q).changes == [] <==> forall r :: r in s.rows ==> !Matches(q, r.kind)
    ensures ResolveFirst(s, q).changes == [] ==> ResolveFirst(s, q).state == s
  {
    var kinds := Kinds(s.rows);
    assert forall i :: 0 <= i < |s.rows| ==> kinds[i] == s.rows[i].kind;
  }

  /** An operation announces nothing if and only if it brings nothing to show; and then it leaves no trace:
      rows, header, latches and tool map are as they were. */
  lemma SilentIffIgnored(s: ReducerState, key: string, op: Op)
    requires WellFormed(s)
    ensures Perform(s, key, op).changes == [] <==> Ignored(s, key, op)
    ensures Ignored(s, key, op) ==> Perform(s, key, op).state == s
  {
    hide OnEvent, ResolveFirst, WellFormed;
    match op
    case ApplyEvent(_, body) => EventSilentIff(s, body);
    case ResolveApproval(id) => ResolveSilentIff(s, OpenApproval(id));
    case ResolveClarify(id) => ResolveSilentIff(s, OpenClarify(id));
    case _ =>
  }

  // ── Answers ───────────────────────────────────────────────────────────

  /** An approval or a question with this id that waits for its answer. */
  predicate Waits(k: RowKind, id: string, question: bool) {
    if question then k.Clarify? && k.clarify.requestId == id && !k.clarify.resolved
    else k.Approval? && k.approval.requestId == id && !k.approval.resolved
  }

  /** The same card, answered. */
  predicate AnswerOf(k: RowKind, answered: RowKind) {
    || (k.Approval? && answered == Approval(ApprovalCard(
          k.approval.requestId, k.approval.command, k.approval.description, k.approval.choices, true)))
    || (k.Clarify? && answered == Clarify(ClarifyCard(k.clarify.requestId, k.clarify.questions, true)))
  }

  function AnswerTo(id: string, question: bool): Op {
    if question then ResolveClarify(id) else ResolveApproval(id)
  }

  /** Position `i` is the first card that waits under this id. */
  ghost predicate FirstWaiting(rows: seq<Row>, id: string, question: bool, i: nat) {
    && i < |rows| && Waits(rows[i].kind, id, question)
    && forall j :: 0 <= j < i ==> !Waits(rows[j].kind, id, question)
  }

  lemma WaitsIsMatches(k: RowKind, id: string, question: bool)
    ensures Waits(k, id, question) <==> Matches(if question then OpenClarify(id) else OpenApproval(id), k)
  {
  }

  /** Answering marks the first card that waits under the id as resolved, every other field and row as it
      was, and announces that row; if none waits, nothing happens. */
  lemma AnswerResolves(s: ReducerState, key: string, id: string, question: bool, i: nat)
    requires InBounds(s)
    ensures var o := Perform(s, key, AnswerTo(id, question));
            && (FirstWaiting(s.rows, id, question, i) ==>
                  && |o.state.rows| == |s.rows| && AnswerOf(s.rows[i].kind, o.state.rows[i].kind)
                  && o.state == s.(rows := s.rows[i := Row(s.rows[i].index, o.state.rows[i].kind)])
                  && o.changes == [RowUpdated(i)])
            && ((forall j :: 0 <= j < |s.rows| ==> !Waits(s.rows[j].kind, id, question)) ==> o == Outcome(s, []))
  {
    var q := if question then OpenClarify(id) else OpenApproval(id);
    var kinds := Kinds(s.rows);
    forall j | 0 <= j < |s.rows| ensures Matches(q, kinds[j]) <==> Waits(s.rows[j].kind, id, question) {
      WaitsIsMatches(kinds[j], id, question);
    }
    if FirstWaiting(s.rows, id, question, i) {
      assert Matches(q, kinds[i]);
      assert FirstWhere(kinds, q) == Some(i);
    }
  }

  /** How many cards wait under this id. */
  function WaitingCount(rows: seq<Row>, id: string, question: bool): nat {
    if |rows| == 0 then 0
    else WaitingCount(rows[..|rows| - 1], id, question)
         + if Waits(rows[|rows| - 1].kind, id, question) then 1 else 0
  }

  lemma WaitingSnoc(rows: seq<Row>, r: Row, id: string, question: bool)
    ensures WaitingCount(rows + [r], id, question)
         == WaitingCount(rows, id, question) + if Waits(r.kind, id, question) then 1 else 0
  {
    assert (rows + [r])[..|rows|] == rows;
  }

  lemma {:induction false} WaitingEdit(rows: seq<Row>, i: nat, r: Row, id: string, question: bool)
    requires i < |rows|
    ensures WaitingCount(rows[i := r], id, question)
         == WaitingCount(rows, id, question)
            - (if Waits(rows[i].kind, id, question) then 1 else 0) + if Waits(r.kind, id, question) then 1 else 0
  {
    var n := |rows| - 1;
    if i < n {
      WaitingEdit(rows[..n], i, r, id, question);
      assert rows[i := r][..n] == rows[..n][i := r];
    } else {
      assert rows[i := r][..n] == rows[..n];
    }
  }

  lemma {:induction false} WaitingNone(rows: seq<Row>, id: string, question: bool)
    ensures WaitingCount(rows, id, question) == 0 <==>
              forall i :: 0 <= i < |rows| ==> !Waits(rows[i].kind, id, question)
  {
    if |rows| > 0 {
      WaitingNone(rows[..|rows| - 1], id, question);
      assert forall i :: 0 <= i < |rows| - 1 ==> rows[..|rows| - 1][i] == rows[i];
    }
  }

  lemma {:induction false} FirstWaits(rows: seq<Row>, id: string, question: bool) returns (i: nat)
    requires WaitingCount(rows, id, question) > 0
    ensures FirstWaiting(rows, id, question, i)
  {
    var before := rows[..|rows| - 1];
    if WaitingCount(before, id, question) > 0 {
      i := FirstWaits(before, id, question);
      assert forall j :: 0 <= j < |before| ==> before[j] == rows[j];
    } else {
      WaitingNone(before, id, question);
      i := |rows| - 1;
      assert forall j :: 0 <= j < |before| ==> before[j] == rows[j];
    }
  }

  /** Each answer takes one waiting card of its id and kind, if there is one, and no other. */
  lemma AnswerTakesOne(s: ReducerState, key: string, id: string, question: bool, other: string, kind: bool)
    requires InBounds(s)
    ensures var waiting := WaitingCount(s.rows, other, kind);
            WaitingCount(Perform(s, key, AnswerTo(id, question)).state.rows, other, kind)
            == if other == id && kind == question && waiting > 0 then waiting - 1 else waiting
  {
    hide Perform;
    if WaitingCount(s.rows, id, question) > 0 {
      var i := FirstWaits(s.rows, id, question);
      AnswerResolves(s, key, id, question, i);
      var o := Perform(s, key, AnswerTo(id, question));
      WaitingEdit(s.rows, i, Row(s.rows[i].index, o.state.rows[i].kind), other, kind);
    } else {
      WaitingNone(s.rows, id, question);
      AnswerResolves(s, key, id, question, 0);
    }
  }
}
