/** What every reducer operation keeps, and what no operation between resets can undo. */
module ReducerInvariants {
  import opened Transcript
  import opened ReducerSpec

  // ── Well-formedness ───────────────────────────────────────────────────

  predicate IsCardOf(k: RowKind, id: string) {
    k.Tool? && k.card.toolId == id
  }

  ghost predicate Positioned(rows: seq<Row>) {
    forall i :: 0 <= i < |rows| ==> rows[i].index == i
  }

  /** The streaming latch points at the last assistant row, and that row is flagged streaming. */
  ghost predicate StreamingLatch(s: ReducerState) {
    s.streaming.Some? ==>
      var i := s.streaming.value;
      && i < |s.rows| && s.rows[i].kind.Assistant? && s.rows[i].kind.streaming
      && forall j :: i < j < |s.rows| ==> !s.rows[j].kind.Assistant?
  }

  /** The thinking latch points at the last thinking row. */
  ghost predicate ThinkingLatch(s: ReducerState) {
    s.thinking.Some? ==>
      var i := s.thinking.value;
      && i < |s.rows| && s.rows[i].kind.Thinking?
      && forall j :: i < j < |s.rows| ==> !s.rows[j].kind.Thinking?
  }

  /** The tools map holds exactly the ids on rows, each at the last row that carries it. */
  ghost predicate ToolIndex(s: ReducerState) {
    && (forall id :: id in s.tools ==>
          && id != "" && s.tools[id] < |s.rows| && IsCardOf(s.rows[s.tools[id]].kind, id)
          && forall j :: s.tools[id] < j < |s.rows| ==> !IsCardOf(s.rows[j].kind, id))
    && (forall i :: 0 <= i < |s.rows| && s.rows[i].kind.Tool? && s.rows[i].kind.card.toolId != "" ==>
          s.rows[i].kind.card.toolId in s.tools)
  }

  ghost predicate WellFormed(s: ReducerState) {
    Positioned(s.rows) && StreamingLatch(s) && ThinkingLatch(s) && ToolIndex(s)
  }

  lemma WellFormedInBounds(s: ReducerState)
    requires WellFormed(s)
    ensures InBounds(s)
  {
  }

  /** Two kinds with the same constructor. */
  predicate SameClass(a: RowKind, b: RowKind) {
    && a.User? == b.User? && a.Assistant? == b.Assistant? && a.Thinking? == b.Thinking?
    && a.Tool? == b.Tool? && a.Approval? == b.Approval? && a.Clarify? == b.Clarify?
    && a.Status? == b.Status? && a.Error? == b.Error?
  }

  /** Appending a row keeps the invariant when the latches and the map follow the new row. */
  lemma AppendKeeps(s: ReducerState, t: ReducerState, k: RowKind)
    requires WellFormed(s) && t.rows == s.rows + [Row(|s.rows|, k)]
    requires t.streaming == None
          || (k.Assistant? && k.streaming && t.streaming == Some(|s.rows|))
          || (!k.Assistant? && t.streaming == s.streaming)
    requires t.thinking == None
          || (k.Thinking? && t.thinking == Some(|s.rows|))
          || (!k.Thinking? && t.thinking == s.thinking)
    requires t.tools == if k.Tool? && k.card.toolId != "" then s.tools[k.card.toolId := |s.rows|] else s.tools
    ensures WellFormed(t)
  {
    AppendKeepsToolIndex(s, t, k);
    AppendKeepsLatches(s, t, k);
  }

  lemma AppendKeepsToolIndex(s: ReducerState, t: ReducerState, k: RowKind)
    requires Positioned(s.rows) && ToolIndex(s) && t.rows == s.rows + [Row(|s.rows|, k)]
    requires t.tools == if k.Tool? && k.card.toolId != "" then s.tools[k.card.toolId := |s.rows|] else s.tools
    ensures Positioned(t.rows) && ToolIndex(t)
  {
    assert forall i :: 0 <= i < |s.rows| ==> t.rows[i] == s.rows[i];
  }

  lemma AppendKeepsLatches(s: ReducerState, t: ReducerState, k: RowKind)
    requires StreamingLatch(s) && ThinkingLatch(s) && t.rows == s.rows + [Row(|s.rows|, k)]
    requires t.streaming == None
          || (k.Assistant? && k.streaming && t.streaming == Some(|s.rows|))
          || (!k.Assistant? && t.streaming == s.streaming)
    requires t.thinking == None
          || (k.Thinking? && t.thinking == Some(|s.rows|))
          || (!k.Thinking? && t.thinking == s.thinking)
    ensures StreamingLatch(t) && ThinkingLatch(t)
  {
    assert forall i :: 0 <= i < |s.rows| ==> t.rows[i] == s.rows[i];
  }

  /** Editing a row within its class keeps the invariant when its id and its streaming flag stay. */
  lemma EditKeeps(s: ReducerState, t: ReducerState, i: nat, k: RowKind)
    requires WellFormed(s) && i < |s.rows| && t.rows == s.rows[i := Row(s.rows[i].index, k)]
    requires SameClass(s.rows[i].kind, k)
    requires k.Tool? ==> k.card.toolId == s.rows[i].kind.card.toolId
    requires t.streaming == None
          || (t.streaming == s.streaming && (k.Assistant? ==> k.streaming == s.rows[i].kind.streaming))
    requires t.thinking == s.thinking && t.tools == s.tools
    ensures WellFormed(t)
  {
    assert forall j :: 0 <= j < |s.rows| && j != i ==> t.rows[j] == s.rows[j];
    assert t.rows[i].kind == k;
    assert ToolIndex(t) by {
      assert forall j, id :: 0 <= j < |s.rows| ==> IsCardOf(t.rows[j].kind, id) == IsCardOf(s.rows[j].kind, id);
    }
  }

  /** Giving an id-less card a fresh id keeps the invariant. */
  lemma BindKeeps(s: ReducerState, t: ReducerState, i: nat, card: ToolCard)
    requires WellFormed(s) && i < |s.rows| && IsCardOf(s.rows[i].kind, "")
    requires card.toolId != "" && card.toolId !in s.tools
    requires t == s.(rows := s.rows[i := Row(s.rows[i].index, Tool(card))], tools := s.tools[card.toolId := i])
    ensures WellFormed(t)
  {
    hide ToolIndex;
    BindKeepsToolIndex(s, t, i, card);
    assert forall j :: 0 <= j < |s.rows| && j != i ==> t.rows[j] == s.rows[j];
  }

  lemma BindKeepsToolIndex(s: ReducerState, t: ReducerState, i: nat, card: ToolCard)
    requires ToolIndex(s) && i < |s.rows| && IsCardOf(s.rows[i].kind, "")
    requires card.toolId != "" && card.toolId !in s.tools
    requires t == s.(rows := s.rows[i := Row(s.rows[i].index, Tool(card))], tools := s.tools[card.toolId := i])
    ensures ToolIndex(t)
  {
    assert forall j :: 0 <= j < |s.rows| ==> !IsCardOf(s.rows[j].kind, card.toolId);
    assert forall j, id :: 0 <= j < |s.rows| && j != i ==>
      IsCardOf(t.rows[j].kind, id) == IsCardOf(s.rows[j].kind, id);
  }

  lemma PushKeeps(s: ReducerState, k: Option<RowKind>)
    requires WellFormed(s)
    requires k.Some? ==> !k.value.Assistant? && !k.value.Thinking? && (k.value.Tool? ==> k.value.card.toolId == "")
    ensures WellFormed(PushIfAny(s, k).state)
  {
    if k.Some? {
      AppendKeeps(s, PushIfAny(s, k).state, k.value);
    }
  }

  lemma MessageKeeps(s: ReducerState, body: EventBody)
    requires WellFormed(s)
    requires body.MessageStart? || body.MessageDelta? || body.MessageInterim? || body.MessageComplete?
    ensures WellFormed(OnEvent(s, body).state)
  {
    var o := OnEvent(s, body);
    if o.changes != [] {
      if o.changes[0].RowAppended? {
        AppendKeeps(s, o.state, o.state.rows[|s.rows|].kind);
      } else {
        EditKeeps(s, o.state, s.streaming.value, o.state.rows[s.streaming.value].kind);
      }
    }
  }

  lemma ThinkingKeeps(s: ReducerState, text: string)
    requires WellFormed(s)
    ensures WellFormed(OnThinkingDelta(s, text).state)
  {
    var t := OnThinkingDelta(s, text).state;
    if s.thinking.Some? {
      EditKeeps(s, t, s.thinking.value, t.rows[s.thinking.value].kind);
    } else {
      AppendKeeps(s, t, Thinking(text));
    }
  }

  lemma ToolStartKeeps(s: ReducerState, id: string, name: string, context: string, args: string)
    requires WellFormed(s)
    ensures WellFormed(OnToolStart(s, id, name, context, args).state)
  {
    var t := OnToolStart(s, id, name, context, args).state;
    var pending := PendingGeneratingRow(s, name);
    if id == "" {
    } else if id in s.tools {
      EditKeeps(s, t, s.tools[id], t.rows[s.tools[id]].kind);
    } else if pending.Some? {
      BindKeeps(s, t, pending.value, t.rows[pending.value].kind.card);
    } else {
      AppendKeeps(s, t, t.rows[|s.rows|].kind);
    }
  }

  lemma ToolEditKeeps(s: ReducerState, body: EventBody)
    requires WellFormed(s) && (body.ToolProgress? || body.ToolComplete?)
    ensures WellFormed(OnEvent(s, body).state)
  {
    var t := OnEvent(s, body).state;
    if t != s {
      EditKeeps(s, t, s.tools[body.toolId], t.rows[s.tools[body.toolId]].kind);
    }
  }

  lemma EventKeeps(s: ReducerState, body: EventBody)
    requires WellFormed(s)
    ensures WellFormed(OnEvent(s, body).state)
  {
    match body
    case MessageStart => MessageKeeps(s, body);
    case MessageDelta(_) => MessageKeeps(s, body);
    case MessageInterim(_, _) => MessageKeeps(s, body);
    case MessageComplete(_) => MessageKeeps(s, body);
    case ThinkingDelta(text) => ThinkingKeeps(s, text);
    case ToolGenerating(name) => AppendKeeps(s, OnToolGenerating(s, name).state, Tool(ToolCard("", name, false, "", "", "", 0.0)));
    case ToolStart(id, name, context, args) => ToolStartKeeps(s, id, name, context, args);
    case ToolProgress(_, _) => ToolEditKeeps(s, body);
    case ToolComplete(_, _, _) => ToolEditKeeps(s, body);
    case StatusUpdate(status, text) => PushKeeps(s, StatusRow(status, text));
    case ApprovalRequest(approval) => PushKeeps(s, ApprovalRow(approval));
    case ClarifyRequest(id, batch, single) => PushKeeps(s, ClarifyRow(id, batch, single));
    case ErrorEvent(message) => PushKeeps(s, Some(Error(message)));
    case SessionInfo(_) =>
    case SessionTitle(_) =>
    case UnknownEvent(_) =>
  }

  lemma ResolveKeeps(s: ReducerState, q: Query)
    requires WellFormed(s)
    requires q.OpenApproval? || q.OpenClarify?
    ensures WellFormed(ResolveFirst(s, q).state)
  {
    var found := FirstWhere(Kinds(s.rows), q);
    if found.Some? {
      EditKeeps(s, ResolveFirst(s, q).state, found.value, Resolved(s.rows[found.value].kind));
    }
  }

  lemma {:induction false} IngestWellFormed(messages: seq<ResumeMessage>)
    ensures WellFormed(IngestRows(messages).state)
  {
    if |messages| > 0 {
      var n := |messages| - 1;
      IngestWellFormed(messages[..n]);
      IngestInBounds(messages[..n]);
      var k := HistoryRow(messages[n]);
      if k.Some? {
        AppendKeeps(IngestRows(messages[..n]).state, IngestRows(messages).state, k.value);
      }
    }
  }

  /** One operation keeps well-formedness, whatever its input. */
  lemma PerformKeeps(s: ReducerState, key: string, op: Op)
    requires WellFormed(s)
    ensures WellFormed(Perform(s, key, op).state)
  {
    match op
    case ApplyEvent(_, body) => EventKeeps(s, body);
    case AppendUser(text) => PushKeeps(s, Some(User(text)));
    case ResolveApproval(id) => ResolveKeeps(s, OpenApproval(id));
    case ResolveClarify(id) => ResolveKeeps(s, OpenClarify(id));
    case ApplyApprovalCard(id, card) =>
      if id != "" && key != "" && card.Some? {
        PushKeeps(s, ApprovalRow(Some(card.value.(requestId := id))));
      }
    case Ingest(messages) => IngestWellFormed(messages);
    case ResetFromResume =>
  }

  /** Every reachable transcript is well-formed. */
  lemma {:induction false} RunWellFormed(s: ReducerState, key: string, ops: seq<Op>)
    requires WellFormed(s)
    ensures WellFormed(Run(s, key, ops))
  {
    if |ops| > 0 {
      RunWellFormed(s, key, ops[..|ops| - 1]);
      PerformKeeps(Run(s, key, ops[..|ops| - 1]), key, ops[|ops| - 1]);
    }
  }

  // ── Between resets nothing is lost ────────────────────────────────────

  predicate IsReset(op: Op) {
    op.Ingest? || op.ResetFromResume?
  }

  predicate WasResolved(k: RowKind) {
    (k.Approval? && k.approval.resolved) || (k.Clarify? && k.clarify.resolved)
  }

  /** What may become of a row: its kind stays, a resolved card stays resolved, an id stays. */
  ghost predicate Evolves(a: RowKind, b: RowKind) {
    && SameClass(a, b)
    && (WasResolved(a) ==> WasResolved(b))
    && (a.Tool? && a.card.toolId != "" ==> b.card.toolId == a.card.toolId)
    && (a.Approval? ==> b.approval.requestId == a.approval.requestId)
    && (a.Clarify? ==> b.clarify.requestId == a.clarify.requestId)
    && (a.User? || a.Status? || a.Error? ==> b == a)
  }

  ghost predicate RowsEvolve(a: seq<Row>, b: seq<Row>) {
    |a| <= |b| && forall i :: 0 <= i < |a| ==> Evolves(a[i].kind, b[i].kind) && b[i].index == a[i].index
  }

  /** The row effect of an operation is announced exactly: no change leaves the rows alone, an update
      names the one row that evolved, an append names the one row that was added at the end. */
  ghost predicate Announced(s: ReducerState, o: Outcome) {
    && |o.changes| <= 1
    && if o.changes == [] then o.state.rows == s.rows && o.state.header == s.header
       else match o.changes[0]
         case HeaderUpdated => o.state.rows == s.rows
         case RowUpdated(i) =>
           && o.state.header == s.header && i < |s.rows| == |o.state.rows|
           && o.state.rows == s.rows[i := Row(s.rows[i].index, o.state.rows[i].kind)]
           && Evolves(s.rows[i].kind, o.state.rows[i].kind)
         case RowAppended(i) =>
           && o.state.header == s.header && i == |s.rows| && |o.state.rows| == i + 1
           && o.state.rows == s.rows + [Row(i, o.state.rows[i].kind)]
         case Reset => false
  }

  /** The changed row, if any, carries no tool id it did not carry before. */
  ghost predicate KeepsIds(s: ReducerState, o: Outcome)
    requires Announced(s, o)
  {
    o.changes == [] || match o.changes[0]
    case HeaderUpdated => true
    case RowUpdated(i) => o.state.rows[i].kind.Tool? ==> o.state.rows[i].kind.card.toolId == s.rows[i].kind.card.toolId
    case RowAppended(i) => o.state.rows[i].kind.Tool? ==> o.state.rows[i].kind.card.toolId == ""
    case Reset => true
  }

  lemma MessageAnnounced(s: ReducerState, body: EventBody)
    requires WellFormed(s)
    requires body.MessageStart? || body.MessageDelta? || body.MessageInterim? || body.MessageComplete?
    ensures Announced(s, OnEvent(s, body)) && KeepsIds(s, OnEvent(s, body))
  {
  }

  lemma ToolStartAnnounced(s: ReducerState, id: string, name: string, context: string, args: string)
    requires WellFormed(s)
    ensures Announced(s, OnToolStart(s, id, name, context, args))
  {
  }

  lemma EventAnnounced(s: ReducerState, body: EventBody)
    requires WellFormed(s)
    ensures Announced(s, OnEvent(s, body))
    ensures !body.ToolStart? ==> KeepsIds(s, OnEvent(s, body))
  {
    match body
    case MessageStart => MessageAnnounced(s, body);
    case MessageDelta(_) => MessageAnnounced(s, body);
    case MessageInterim(_, _) => MessageAnnounced(s, body);
    case MessageComplete(_) => MessageAnnounced(s, body);
    case ToolStart(id, name, context, args) => ToolStartAnnounced(s, id, name, context, args);
    case ToolProgress(_, _) =>
    case ToolComplete(_, _, _) =>
    case _ =>
  }

  /** Every operation but a reset announces exactly what it did. */
  lemma PerformAnnounced(s: ReducerState, key: string, op: Op)
    requires WellFormed(s) && !IsReset(op)
    ensures Announced(s, Perform(s, key, op))
    ensures !(op.ApplyEvent? && op.body.ToolStart?) ==> KeepsIds(s, Perform(s, key, op))
  {
    match op
    case ApplyEvent(_, body) => EventAnnounced(s, body);
    case _ =>
  }

  lemma AnnouncedEvolves(s: ReducerState, o: Outcome)
    requires Announced(s, o)
    ensures RowsEvolve(s.rows, o.state.rows)
  {
  }

  lemma EvolvesTransitive(a: seq<Row>, b: seq<Row>, c: seq<Row>)
    requires RowsEvolve(a, b) && RowsEvolve(b, c)
    ensures RowsEvolve(a, c)
  {
    forall i | 0 <= i < |a| ensures Evolves(a[i].kind, c[i].kind) && c[i].index == a[i].index {
      assert Evolves(a[i].kind, b[i].kind) && Evolves(b[i].kind, c[i].kind);
    }
  }

  /** Over any reset-free run no row vanishes, moves, changes kind, loses its id or un-resolves. */
  lemma {:induction false} RunEvolves(s: ReducerState, key: string, ops: seq<Op>)
    requires WellFormed(s)
    requires forall i :: 0 <= i < |ops| ==> !IsReset(ops[i])
    ensures WellFormed(Run(s, key, ops)) && RowsEvolve(s.rows, Run(s, key, ops).rows)
  {
    RunWellFormed(s, key, ops);
    if |ops| > 0 {
      var n := |ops| - 1;
      RunEvolves(s, key, ops[..n]);
      PerformAnnounced(Run(s, key, ops[..n]), key, ops[n]);
      AnnouncedEvolves(Run(s, key, ops[..n]), Perform(Run(s, key, ops[..n]), key, ops[n]));
      EvolvesTransitive(s.rows, Run(s, key, ops[..n]).rows, Run(s, key, ops).rows);
    }
  }

  // ── One card per tool id ──────────────────────────────────────────────

  /** No two rows carry the same non-empty tool id. */
  ghost predicate DistinctIds(rows: seq<Row>) {
    forall i, j :: 0 <= i < j < |rows| && rows[i].kind.Tool? && rows[i].kind.card.toolId != "" ==>
      !IsCardOf(rows[j].kind, rows[i].kind.card.toolId)
  }

  /** With distinct ids the tools map is exactly the inverse of "the id on this row". */
  lemma DistinctMeansInverse(s: ReducerState, id: string, i: nat)
    requires WellFormed(s) && DistinctIds(s.rows)
    requires i < |s.rows| && id != ""
    ensures (id in s.tools && s.tools[id] == i) <==> IsCardOf(s.rows[i].kind, id)
  {
    if IsCardOf(s.rows[i].kind, id) {
      assert id in s.tools && IsCardOf(s.rows[s.tools[id]].kind, id);
    }
  }

  /** The one row that differs may take an id only if no row had it. */
  lemma FreshIdKeepsDistinct(a: seq<Row>, b: seq<Row>, i: nat)
    requires DistinctIds(a) && i < |b| && |a| <= |b| <= |a| + 1 && (|b| > |a| ==> i == |a|)
    requires forall j :: 0 <= j < |b| && j != i ==> b[j] == a[j]
    requires b[i].kind.Tool? && b[i].kind.card.toolId != "" ==>
               forall j :: 0 <= j < |a| && j != i ==> !IsCardOf(a[j].kind, b[i].kind.card.toolId)
    ensures DistinctIds(b)
  {
  }

  lemma KeptIdsStayDistinct(s: ReducerState, o: Outcome)
    requires DistinctIds(s.rows) && Announced(s, o) && KeepsIds(s, o)
    ensures DistinctIds(o.state.rows)
  {
    if o.changes != [] && !o.changes[0].HeaderUpdated? {
      FreshIdKeepsDistinct(s.rows, o.state.rows, o.changes[0].index);
    }
  }

  lemma StartKeepsDistinct(s: ReducerState, id: string, name: string, context: string, args: string)
    requires WellFormed(s) && DistinctIds(s.rows)
    ensures DistinctIds(OnToolStart(s, id, name, context, args).state.rows)
  {
    hide OnToolStart, WellFormed;
    WellFormedInBounds(s);
    var o := OnToolStart(s, id, name, context, args);
    ToolStartAnnounced(s, id, name, context, args);
    if o.changes != [] {
      StartTakesFreshId(s, id, name, context, args);
      FreshIdKeepsDistinct(s.rows, o.state.rows, o.changes[0].index);
    }
  }

  lemma PerformKeepsDistinct(s: ReducerState, key: string, op: Op)
    requires WellFormed(s) && DistinctIds(s.rows) && !IsReset(op)
    ensures DistinctIds(Perform(s, key, op).state.rows)
  {
    hide DistinctIds, WellFormed, OnToolStart;
    WellFormedInBounds(s);
    if op.ApplyEvent? && op.body.ToolStart? {
      StartKeepsDistinct(s, op.body.toolId, op.body.name, op.body.context, op.body.argsJson);
    } else {
      hide Perform;
      PerformAnnounced(s, key, op);
      KeptIdsStayDistinct(s, Perform(s, key, op));
    }
  }

  /** The row a start touches ends up with that id, which no other row has. */
  lemma StartTakesFreshId(s: ReducerState, id: string, name: string, context: string, args: string)
    requires WellFormed(s) && DistinctIds(s.rows)
    ensures var o := OnToolStart(s, id, name, context, args);
            o.changes != [] ==>
              && |o.changes| == 1 && !o.changes[0].Reset? && !o.changes[0].HeaderUpdated?
              && o.changes[0].index < |o.state.rows|
              && IsCardOf(o.state.rows[o.changes[0].index].kind, id)
              && forall j :: 0 <= j < |s.rows| && j != o.changes[0].index ==> !IsCardOf(s.rows[j].kind, id)
  {
    if id != "" && id in s.tools {
      forall j | 0 <= j < |s.rows| && j != s.tools[id] ensures !IsCardOf(s.rows[j].kind, id) {
        DistinctMeansInverse(s, id, j);
      }
    }
  }

  /** The non-empty tool ids a history carries, in order. */
  function HistoryIds(messages: seq<ResumeMessage>): seq<string> {
    if |messages| == 0 then []
    else
      var n := |messages| - 1;
      var m := messages[n];
      HistoryIds(messages[..n])
      + if m.Message? && m.role.ToolRole? && m.toolId != "" then [m.toolId] else []
  }

  ghost predicate Distinct(ids: seq<string>) {
    forall i, j :: 0 <= i < j < |ids| ==> ids[i] != ids[j]
  }

  lemma {:induction false} HistoryIdsOnRows(messages: seq<ResumeMessage>, id: string)
    requires id != ""
    ensures id in HistoryIds(messages) <==> id in IngestRows(messages).state.tools
  {
    if |messages| > 0 {
      HistoryIdsOnRows(messages[..|messages| - 1], id);
    }
  }

  lemma DistinctSnoc(ids: seq<string>, id: string)
    ensures Distinct(ids + [id]) <==> Distinct(ids) && id !in ids
  {
    var all := ids + [id];
    assert forall i :: 0 <= i < |ids| ==> all[i] == ids[i];
    if id in ids {
      var j :| 0 <= j < |ids| && ids[j] == id;
      assert all[j] == all[|ids|];
    }
  }

  lemma DistinctRowsSnoc(rows: seq<Row>, row: Row)
    ensures DistinctIds(rows + [row]) <==>
              && DistinctIds(rows)
              && (row.kind.Tool? && row.kind.card.toolId != "" ==>
                    forall i :: 0 <= i < |rows| ==> !IsCardOf(rows[i].kind, row.kind.card.toolId))
  {
    var all := rows + [row];
    assert forall i :: 0 <= i < |rows| ==> all[i] == rows[i];
    if row.kind.Tool? && row.kind.card.toolId != "" && DistinctIds(all) {
      forall i | 0 <= i < |rows| ensures !IsCardOf(rows[i].kind, row.kind.card.toolId) {
        assert all[i] == rows[i] && all[|rows|] == row;
      }
    }
  }

  lemma UnknownIdOnNoRow(s: ReducerState, id: string)
    requires WellFormed(s) && id != ""
    ensures id !in s.tools <==> forall i :: 0 <= i < |s.rows| ==> !IsCardOf(s.rows[i].kind, id)
  {
  }

  /** A rebuilt transcript has one card per id exactly when its history names each id once. */
  lemma {:induction false} IngestDistinctIff(messages: seq<ResumeMessage>)
    ensures DistinctIds(IngestRows(messages).state.rows) <==> Distinct(HistoryIds(messages))
  {
    if |messages| > 0 {
      var n := |messages| - 1;
      var m := messages[n];
      var s := IngestRows(messages[..n]).state;
      IngestDistinctIff(messages[..n]);
      IngestWellFormed(messages[..n]);
      if m.Message? {
        DistinctRowsSnoc(s.rows, Row(|s.rows|, HistoryRow(m).value));
        if m.role.ToolRole? && m.toolId != "" {
          HistoryIdsOnRows(messages[..n], m.toolId);
          DistinctSnoc(HistoryIds(messages[..n]), m.toolId);
          UnknownIdOnNoRow(s, m.toolId);
        } else {
          assert HistoryIds(messages) == HistoryIds(messages[..n]);
        }
      } else {
        assert HistoryIds(messages) == HistoryIds(messages[..n]);
      }
    }
  }

  /** From an empty transcript, or one rebuilt from a history with distinct tool ids, every run that
      only rebuilds from such histories keeps one card per id, and the map is its exact inverse. */
  lemma {:induction false} OneCardPerId(key: string, ops: seq<Op>, id: string, i: nat)
    requires forall n :: 0 <= n < |ops| && ops[n].Ingest? ==> Distinct(HistoryIds(ops[n].messages))
    requires id != "" && i < |Run(EMPTY_STATE, key, ops).rows|
    ensures var t := Run(EMPTY_STATE, key, ops);
            (id in t.tools && t.tools[id] == i) <==> IsCardOf(t.rows[i].kind, id)
  {
    RunWellFormed(EMPTY_STATE, key, ops);
    RunDistinct(key, ops);
    DistinctMeansInverse(Run(EMPTY_STATE, key, ops), id, i);
  }

  lemma {:induction false} RunDistinct(key: string, ops: seq<Op>)
    requires forall n :: 0 <= n < |ops| && ops[n].Ingest? ==> Distinct(HistoryIds(ops[n].messages))
    ensures DistinctIds(Run(EMPTY_STATE, key, ops).rows)
  {
    if |ops| > 0 {
      var n := |ops| - 1;
      RunDistinct(key, ops[..n]);
      RunWellFormed(EMPTY_STATE, key, ops[..n]);
      if ops[n].Ingest? {
        IngestDistinctIff(ops[n].messages);
      } else if !ops[n].ResetFromResume? {
        PerformKeepsDistinct(Run(EMPTY_STATE, key, ops[..n]), key, ops[n]);
      }
    }
  }

  // ── Pairing ───────────────────────────────────────────────────────────

  /** A start of an unknown id takes the last id-less card of its name, and only then no new card
      is made: the row it binds is the newest such card, and every other row is as it was. */
  lemma StartTakesNewestPlaceholder(
    s: ReducerState, id: string, name: string, context: string, args: string)
    requires WellFormed(s) && id != "" && id !in s.tools
    ensures var t := OnToolStart(s, id, name, context, args).state;
            && id in t.tools
            && (forall j :: 0 <= j < |s.rows| && j != t.tools[id] ==> t.rows[j] == s.rows[j])
            && (t.tools[id] == |s.rows| <==>
                  forall j :: 0 <= j < |s.rows| ==> !Matches(PlaceholderFor(name), s.rows[j].kind))
            && (t.tools[id] < |s.rows| ==>
                  && |t.rows| == |s.rows|
                  && Matches(PlaceholderFor(name), s.rows[t.tools[id]].kind)
                  && forall j :: t.tools[id] < j < |s.rows| ==> !Matches(PlaceholderFor(name), s.rows[j].kind))
  {
    assert forall j :: 0 <= j < |s.rows| ==> Kinds(s.rows)[j] == s.rows[j].kind;
  }

  /** The transcript rebuilt from one finished tool message without an id. */
  function OneCardHistory(text: string, name: string): (s: ReducerState)
    ensures s == IngestRows([Message(ToolRole, text, name, "", "")]).state && InBounds(s)
  {
    var m := Message(ToolRole, text, name, "", "");
    assert [m][..0] == [] && IngestRows([]).state == EMPTY_STATE;
    IngestOne(EMPTY_STATE, m).state
  }

  /** A finished history card without an id is taken as a placeholder too: its start rewrites history
      and leaves it marked complete, where an empty transcript would have gained a running card. */
  lemma IdlessHistoryCardIsTaken(name: string, text: string, id: string)
    requires id != ""
    ensures var t := OnToolStart(OneCardHistory(text, name), id, name, "", "").state;
            |t.rows| == 1 && IsCardOf(t.rows[0].kind, id) && t.rows[0].kind.card.complete
  {
    assert Matches(PlaceholderFor(name), Kinds(OneCardHistory(text, name).rows)[0]);
  }

  /** What a start with a new id binds: the newest id-less card of the name as it stood, complete or
      not. So the started card shows as complete exactly when that card was. */
  lemma StartedShowsCompleteIff(s: ReducerState, id: string, name: string, context: string, args: string)
    requires WellFormed(s) && id != "" && id !in s.tools
    ensures var t := OnToolStart(s, id, name, context, args).state;
            var taken := PendingGeneratingRow(s, name);
            && id in t.tools && t.tools[id] < |t.rows| && IsCardOf(t.rows[t.tools[id]].kind, id)
            && (t.rows[t.tools[id]].kind.card.complete
                <==> taken.Some? && s.rows[taken.value].kind.card.complete)
  {
    assert forall j :: 0 <= j < |s.rows| ==> Kinds(s.rows)[j] == s.rows[j].kind;
  }

  /** A tool message of this name that carries no id. */
  predicate IdlessToolMessage(m: ResumeMessage, name: string) {
    m.Message? && m.role.ToolRole? && m.name == name && m.toolId == ""
  }

  ghost predicate HasIdless(messages: seq<ResumeMessage>, name: string) {
    exists m :: m in messages && IdlessToolMessage(m, name)
  }

  lemma HasIdlessSnoc(messages: seq<ResumeMessage>, m: ResumeMessage, name: string)
    ensures HasIdless(messages + [m], name) <==> HasIdless(messages, name) || IdlessToolMessage(m, name)
  {
    assert m in messages + [m];
    if x :| x in messages && IdlessToolMessage(x, name) {
      assert x in messages + [m];
    }
  }

  lemma IngestKindsSnoc(messages: seq<ResumeMessage>)
    requires |messages| > 0
    ensures var before, m := messages[..|messages| - 1], messages[|messages| - 1];
            Kinds(IngestRows(messages).state.rows)
            == Kinds(IngestRows(before).state.rows) + if m.Message? then [HistoryRow(m).value] else []
  {
  }

  lemma IdlessIsPlaceholder(m: ResumeMessage, name: string)
    requires m.Message?
    ensures var k := HistoryRow(m).value;
            && (Matches(PlaceholderFor(name), k) <==> IdlessToolMessage(m, name))
            && (Matches(PlaceholderFor(name), k) ==> k.Tool? && k.card.complete)
  {
  }

  /** The id-less cards of a rebuilt transcript are those of its history, and all of them complete. */
  lemma {:induction false} HistoryPlaceholders(messages: seq<ResumeMessage>, name: string)
    ensures var kinds := Kinds(IngestRows(messages).state.rows);
            var found := LastWhere(kinds, PlaceholderFor(name));
            && (found.Some? <==> HasIdless(messages, name))
            && (found.Some? ==> kinds[found.value].card.complete)
  {
    hide HistoryRow, HasIdless;
    if |messages| > 0 {
      hide IngestRows, Kinds;
      var before, m := messages[..|messages| - 1], messages[|messages| - 1];
      HistoryPlaceholders(before, name);
      HasIdlessSnoc(before, m, name);
      assert messages == before + [m];
      IngestKindsSnoc(messages);
      if m.Message? {
        IdlessIsPlaceholder(m, name);
        LastWhereSnoc(Kinds(IngestRows(before).state.rows), HistoryRow(m).value, PlaceholderFor(name));
      }
    } else {
      assert !HasIdless([], name) by { NoneIdless(name); }
    }
  }

  lemma NoneIdless(name: string)
    ensures !HasIdless([], name)
  {
  }

  lemma LastWhereSnoc(kinds: seq<RowKind>, k: RowKind, q: Query)
    ensures LastWhere(kinds + [k], q) == if Matches(q, k) then Some(|kinds|) else LastWhere(kinds, q)
  {
    assert (kinds + [k])[..|kinds|] == kinds;
  }

  /** Right after a rebuild, a start with a new id shows as complete, its card taken from the history,
      if and only if the history holds a tool message of that name without an id. */
  lemma HistoryCardIsTakenIff(
    messages: seq<ResumeMessage>, id: string, name: string, context: string, args: string)
    requires id != "" && id !in IngestMessages(messages).state.tools
    ensures var s := IngestMessages(messages).state;
            WellFormed(s)
            && var t := OnToolStart(s, id, name, context, args).state;
               && id in t.tools && t.tools[id] < |t.rows| && IsCardOf(t.rows[t.tools[id]].kind, id)
               && (t.rows[t.tools[id]].kind.card.complete
                   <==> HasIdless(messages, name))
  {
    var s := IngestMessages(messages).state;
    IngestWellFormed(messages);
    StartedShowsCompleteIff(s, id, name, context, args);
    HistoryPlaceholders(messages, name);
  }

  lemma PerformKeepsBinding(s: ReducerState, key: string, op: Op, id: string)
    requires WellFormed(s) && !IsReset(op) && id in s.tools
    ensures id in Perform(s, key, op).state.tools
    ensures Perform(s, key, op).state.tools[id] == s.tools[id]
  {
  }

  /** Whatever happens in between, short of a reset, a completion lands on the card its start bound:
      that row carries the result and is complete, and no other row changes. */
  lemma {:induction false} CompletionLandsOnStart(
    s: ReducerState, key: string, start: EventBody, between: seq<Op>, result: string, duration: real)
    requires WellFormed(s) && start.ToolStart? && start.toolId != ""
    requires forall n :: 0 <= n < |between| ==> !IsReset(between[n])
    ensures var bound := OnEvent(s, start).state;
            WellFormed(bound) && start.toolId in bound.tools
    ensures var bound := OnEvent(s, start).state;
            var i := bound.tools[start.toolId];
            var before := Run(bound, key, between);
            WellFormed(before) && i < |before.rows| && IsCardOf(before.rows[i].kind, start.toolId)
            && OnToolComplete(before, start.toolId, result, duration).state.rows
            == before.rows[i := Row(i, Tool(before.rows[i].kind.card.(
                 resultJson := result, duration := duration, complete := true)))]
  {
    EventKeeps(s, start);
    var bound := OnEvent(s, start).state;
    RunKeepsBinding(bound, key, between, start.toolId);
    RunWellFormed(bound, key, between);
  }

  lemma {:induction false} RunKeepsBinding(s: ReducerState, key: string, ops: seq<Op>, id: string)
    requires WellFormed(s) && id in s.tools
    requires forall n :: 0 <= n < |ops| ==> !IsReset(ops[n])
    ensures id in Run(s, key, ops).tools && Run(s, key, ops).tools[id] == s.tools[id]
  {
    if |ops| > 0 {
      var n := |ops| - 1;
      RunKeepsBinding(s, key, ops[..n], id);
      RunWellFormed(s, key, ops[..n]);
      PerformKeepsBinding(Run(s, key, ops[..n]), key, ops[n], id);
    }
  }

  // ── What is not promised ──────────────────────────────────────────────

  /** A second `message.start` leaves the row of the first flagged as streaming. */
  lemma TwoStreamingRows(key: string)
    requires key != ""
    ensures var t := Run(EMPTY_STATE, key, [ApplyEvent(key, MessageStart), ApplyEvent(key, MessageStart)]);
            && |t.rows| == 2 && t.streaming == Some(1)
            && t.rows[0].kind.Assistant? && t.rows[0].kind.streaming
            && t.rows[1].kind.Assistant? && t.rows[1].kind.streaming
  {
    var e := ApplyEvent(key, MessageStart);
    assert [e, e][..1] == [e] && [e][..0] == [];
    assert Run(EMPTY_STATE, key, []) == EMPTY_STATE;
    assert Run(EMPTY_STATE, key, [e]) == OnMessageStart(EMPTY_STATE).state;
  }
}
