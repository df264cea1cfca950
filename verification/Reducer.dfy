/** The reducer object: handlers that edit the rows, latches and tool map in place. */
module ReducerObject {
  import opened Transcript
  import opened ReducerSpec

  class Reducer {
    var rows: seq<Row>
    var header: Header
    /** Index of the streaming assistant row, if one is open. */
    var streaming: Option<nat>
    /** Index of the open thinking row, if any. */
    var thinking: Option<nat>
    /** Tool id to row index. */
    var tools: map<string, nat>

    ghost function State(): ReducerState
      reads this
    {
      ReducerState(rows, header, streaming, thinking, tools)
    }

    constructor ()
      ensures State() == EMPTY_STATE
    {
      rows, header := [], EMPTY_HEADER;
      streaming, thinking := None, None;
      tools := map[];
    }

    method PushRow(kind: RowKind) returns (index: nat)
      modifies this`rows
      ensures index == |old(rows)| && rows == old(rows) + [Row(index, kind)]
    {
      index := |rows|;
      rows := rows + [Row(index, kind)];
    }

    method SetKind(index: nat, kind: RowKind)
      requires index < |rows|
      modifies this`rows
      ensures rows == old(rows)[index := Row(old(rows)[index].index, kind)]
    {
      rows := rows[index := rows[index].(kind := kind)];
    }

    method OnMessageStart() returns (changes: seq<Change>)
      modifies this
      ensures Outcome(State(), changes) == ReducerSpec.OnMessageStart(old(State()))
    {
      thinking := None;
      var index := PushRow(Assistant("", true, "", ""));
      streaming := Some(index);
      changes := [RowAppended(index)];
    }

    method OnMessageDelta(text: string) returns (changes: seq<Change>)
      requires InBounds(State())
      modifies this
      ensures Outcome(State(), changes) == ReducerSpec.OnMessageDelta(old(State()), text)
    {
      if text == "" {
        return [];
      }
      if streaming.Some? {
        var kind := rows[streaming.value].kind;
        if kind.Assistant? {
          SetKind(streaming.value, Assistant(kind.text + text, kind.streaming, kind.usageJson, kind.warning));
          return [RowUpdated(streaming.value)];
        }
      }
      var index := PushRow(Assistant(text, true, "", ""));
      streaming := Some(index);
      changes := [RowAppended(index)];
    }

    method OnMessageInterim(text: string, alreadyStreamed: bool) returns (changes: seq<Change>)
      requires InBounds(State())
      modifies this
      ensures Outcome(State(), changes) == ReducerSpec.OnMessageInterim(old(State()), text, alreadyStreamed)
    {
      var taken := streaming;
      streaming := None;
      changes := [];
      if taken.Some? {
        var index := taken.value;
        var kind := rows[index].kind;
        if kind.Assistant? {
          var slot := kind.text;
          if !alreadyStreamed {
            slot := text;
          }
          SetKind(index, Assistant(slot, false, kind.usageJson, kind.warning));
        }
        changes := [RowUpdated(index)];
      }
    }

    method OnMessageComplete(complete: Option<CompleteFields>) returns (changes: seq<Change>)
      requires InBounds(State())
      modifies this
      ensures Outcome(State(), changes) == ReducerSpec.OnMessageComplete(old(State()), complete)
    {
      if complete.None? {
        return [];
      }
      var taken := streaming;
      streaming := None;
      if taken.None? {
        return [];
      }
      var target := taken.value;
      if rows[target].kind.Assistant? {
        SetKind(target, Assistant(complete.value.text, false, complete.value.usageJson, complete.value.warning));
      }
      changes := [RowUpdated(target)];
    }

    method OnThinkingDelta(text: string) returns (changes: seq<Change>)
      requires InBounds(State())
      modifies this
      ensures Outcome(State(), changes) == ReducerSpec.OnThinkingDelta(old(State()), text)
    {
      if thinking.Some? {
        var kind := rows[thinking.value].kind;
        if kind.Thinking? {
          SetKind(thinking.value, Thinking(kind.text + text));
          return [RowUpdated(thinking.value)];
        }
      }
      var index := PushRow(Thinking(text));
      thinking := Some(index);
      changes := [RowAppended(index)];
    }

    method OnToolGenerating(name: string) returns (changes: seq<Change>)
      modifies this
      ensures Outcome(State(), changes) == ReducerSpec.OnToolGenerating(old(State()), name)
    {
      var index := PushRow(Tool(ToolCard("", name, false, "", "", "", 0.0)));
      changes := [RowAppended(index)];
    }

    /** The search runs from the end: an abandoned placeholder further up is never taken first. */
    method PendingGeneratingRow(name: string) returns (found: Option<nat>)
      ensures found == ReducerSpec.PendingGeneratingRow(State(), name)
    {
      var i := |rows|;
      while i > 0
        invariant 0 <= i <= |rows|
        invariant forall j :: i <= j < |rows| ==> !Matches(PlaceholderFor(name), Kinds(rows)[j])
      {
        i := i - 1;
        if Matches(PlaceholderFor(name), rows[i].kind) {
          assert Kinds(rows)[i] == rows[i].kind;
          return Some(i);
        }
      }
      found := None;
    }

    method OnToolStart(toolId: string, name: string, context: string, argsJson: string)
      returns (changes: seq<Change>)
      requires InBounds(State())
      modifies this
      ensures Outcome(State(), changes)
           == ReducerSpec.OnToolStart(old(State()), toolId, name, context, argsJson)
    {
      if toolId == "" {
        return [];
      }
      if toolId in tools {
        var index := tools[toolId];
        if rows[index].kind.Tool? {
          var card := rows[index].kind.card;
          SetKind(index, Tool(card.(name := name, context := context, argsJson := argsJson, complete := false)));
        }
        return [RowUpdated(index)];
      }
      var pending := PendingGeneratingRow(name);
      if pending.Some? {
        var index := pending.value;
        if rows[index].kind.Tool? {
          var card := rows[index].kind.card;
          SetKind(index, Tool(card.(toolId := toolId, context := context, argsJson := argsJson)));
        }
        tools := tools[toolId := index];
        return [RowUpdated(index)];
      }
      var index := PushRow(Tool(ToolCard(toolId, name, false, context, argsJson, "", 0.0)));
      tools := tools[toolId := index];
      changes := [RowAppended(index)];
    }

    method OnToolProgress(toolId: string, preview: string) returns (changes: seq<Change>)
      requires InBounds(State())
      modifies this
      ensures Outcome(State(), changes) == ReducerSpec.OnToolProgress(old(State()), toolId, preview)
    {
      if preview == "" || toolId !in tools {
        return [];
      }
      var index := tools[toolId];
      if !rows[index].kind.Tool? {
        return [];
      }
      SetKind(index, Tool(rows[index].kind.card.(context := preview)));
      changes := [RowUpdated(index)];
    }

    method OnToolComplete(toolId: string, resultJson: string, duration: real) returns (changes: seq<Change>)
      requires InBounds(State())
      modifies this
      ensures Outcome(State(), changes)
           == ReducerSpec.OnToolComplete(old(State()), toolId, resultJson, duration)
    {
      changes := [];
      if toolId in tools {
        var index := tools[toolId];
        if rows[index].kind.Tool? {
          var card := rows[index].kind.card;
          SetKind(index, Tool(card.(resultJson := resultJson, duration := duration, complete := true)));
        }
        changes := [RowUpdated(index)];
      }
    }

    method PushIfAny(kind: Option<RowKind>) returns (changes: seq<Change>)
      modifies this
      ensures Outcome(State(), changes) == ReducerSpec.PushIfAny(old(State()), kind)
    {
      if kind.None? {
        return [];
      }
      var index := PushRow(kind.value);
      changes := [RowAppended(index)];
    }

    method MergeHeader(info: Header) returns (changes: seq<Change>)
      modifies this
      ensures Outcome(State(), changes) == ReducerSpec.MergeHeader(old(State()), info)
    {
      if info.title == "" && info.model == "" && info.cwd == "" && info.branch == "" && info.usageJson == "" {
        return [];
      }
      if info.title != "" { header := header.(title := info.title); }
      if info.model != "" { header := header.(model := info.model); }
      if info.cwd != "" { header := header.(cwd := info.cwd); }
      if info.branch != "" { header := header.(branch := info.branch); }
      if info.usageJson != "" { header := header.(usageJson := info.usageJson); }
      changes := [HeaderUpdated];
    }

    method OnEvent(body: EventBody) returns (changes: seq<Change>)
      requires InBounds(State())
      modifies this
      ensures Outcome(State(), changes) == ReducerSpec.OnEvent(old(State()), body)
    {
      match body
      case MessageStart => changes := OnMessageStart();
      case MessageDelta(text) => changes := OnMessageDelta(text);
      case MessageInterim(text, already) => changes := OnMessageInterim(text, already);
      case MessageComplete(complete) => changes := OnMessageComplete(complete);
      case ThinkingDelta(text) => changes := OnThinkingDelta(text);
      case ToolGenerating(name) => changes := OnToolGenerating(name);
      case ToolStart(id, name, context, args) => changes := OnToolStart(id, name, context, args);
      case ToolProgress(id, preview) => changes := OnToolProgress(id, preview);
      case ToolComplete(id, result, duration) => changes := OnToolComplete(id, result, duration);
      case StatusUpdate(status, text) => changes := PushIfAny(StatusRow(status, text));
      case ApprovalRequest(approval) => changes := PushIfAny(ApprovalRow(approval));
      case ClarifyRequest(id, batch, single) => changes := PushIfAny(ClarifyRow(id, batch, single));
      case SessionInfo(info) => changes := MergeHeader(info);
      case SessionTitle(title) => changes := MergeHeader(EMPTY_HEADER.(title := title));
      case ErrorEvent(message) => changes := PushIfAny(Some(Error(message)));
      case UnknownEvent(_) => changes := [];
    }

    /** Session-less events are not reducer input. Every change carries the event's session id. */
    method Apply(sessionId: string, body: EventBody) returns (changes: seq<SessionChange>)
      requires InBounds(State())
      modifies this
      ensures State() == Perform(old(State()), sessionId, ApplyEvent(sessionId, body)).state
      ensures changes == Wrap(sessionId, Perform(old(State()), sessionId, ApplyEvent(sessionId, body)).changes)
    {
      if sessionId == "" {
        return [];
      }
      var plain := OnEvent(body);
      changes := Wrap(sessionId, plain);
    }

    /** Resolve the first open card of the request, approval or clarify. */
    method Resolve(key: string, q: Query) returns (changes: seq<SessionChange>)
      requires q.OpenApproval? || q.OpenClarify?
      modifies this
      ensures State() == ResolveFirst(old(State()), q).state
      ensures changes == Wrap(key, ResolveFirst(old(State()), q).changes)
    {
      var i := 0;
      while i < |rows| && !Matches(q, rows[i].kind)
        invariant 0 <= i <= |rows|
        invariant forall j :: 0 <= j < i ==> !Matches(q, Kinds(rows)[j])
      {
        i := i + 1;
      }
      if i == |rows| {
        return [];
      }
      assert Matches(q, Kinds(rows)[i]);
      if q.OpenApproval? {
        SetKind(i, Approval(rows[i].kind.approval.(resolved := true)));
      } else {
        SetKind(i, Clarify(rows[i].kind.clarify.(resolved := true)));
      }
      changes := [SessionChange(key, RowUpdated(i))];
    }

    /** Drop everything the reducer knows; the caller rebuilds from here. */
    method Wipe()
      modifies this
      ensures State() == EMPTY_STATE
    {
      rows, header := [], EMPTY_HEADER;
      streaming, thinking := None, None;
      tools := map[];
    }

    method ResetFromResume(key: string) returns (changes: seq<SessionChange>)
      modifies this
      ensures State() == EMPTY_STATE && changes == [SessionChange(key, Reset)]
    {
      Wipe();
      changes := [SessionChange(key, Reset)];
    }

    method IngestResumeMessages(key: string, messages: seq<ResumeMessage>) returns (changes: seq<SessionChange>)
      modifies this
      ensures State() == IngestMessages(messages).state
      ensures changes == Wrap(key, IngestMessages(messages).changes)
    {
      Wipe();
      ghost var plain := [Reset];
      changes := [SessionChange(key, Reset)];
      for n := 0 to |messages|
        invariant State() == IngestRows(messages[..n]).state
        invariant plain == [Reset] + IngestRows(messages[..n]).changes
        invariant changes == Wrap(key, plain)
      {
        assert messages[..n + 1][..n] == messages[..n];
        var m := messages[n];
        if m.NotAnObject? {
          continue;
        }
        var index := |rows|;
        match m.role {
          case ToolRole =>
            if m.toolId != "" {
              tools := tools[m.toolId := index];
            }
            index := PushRow(Tool(ToolCard(m.toolId, m.name, true, m.context, "", m.text, 0.0)));
          case OtherRole(_) =>
            index := PushRow(Assistant(m.text, false, "", ""));
          case _ =>
            index := PushRow(User(m.text));
        }
        changes := changes + [SessionChange(key, RowAppended(index))];
        plain := plain + [RowAppended(index)];
      }
      assert messages[..|messages|] == messages;
    }

    method AppendUserRow(key: string, text: string) returns (changes: seq<SessionChange>)
      modifies this
      ensures State() == Push(old(State()), User(text)).state
      ensures changes == Wrap(key, Push(old(State()), User(text)).changes)
    {
      var index := PushRow(User(text));
      changes := [SessionChange(key, RowAppended(index))];
    }

    /** Put the request id into the card and reuse the event handler; no change means no usable card. */
    method ApplyCard(key: string, requestId: string, card: Option<ApprovalFields>)
      returns (changes: seq<SessionChange>)
      requires InBounds(State())
      modifies this
      ensures State() == Perform(old(State()), key, ApplyApprovalCard(requestId, card)).state
      ensures changes == Wrap(key, Perform(old(State()), key, ApplyApprovalCard(requestId, card)).changes)
    {
      if requestId == "" {
        return [];
      }
      var payload := card;
      if payload.Some? {
        payload := Some(payload.value.(requestId := requestId));
      }
      changes := Apply(key, ApprovalRequest(payload));
    }
  }
}
