/** The interleaved transcript, read one kind of row at a time: each reading equals a simple
    index-free specification that sees only the operations of that kind. */
module Projection {
  import opened Transcript
  import opened ReducerSpec
  import opened ReducerInvariants

  // ── Projecting a row list onto one class of rows ──────────────────────

  datatype Class = Speech | Thought | Card | Notice

  function ClassOf(k: RowKind): Class {
    match k
    case Assistant(_, _, _, _) => Speech
    case Thinking(_) => Thought
    case Tool(_) => Card
    case _ => Notice
  }

  function Proj(kinds: seq<RowKind>, c: Class): (r: seq<RowKind>)
    ensures |r| <= |kinds|
    ensures forall i :: 0 <= i < |r| ==> ClassOf(r[i]) == c
  {
    if |kinds| == 0 then []
    else
      var n := |kinds| - 1;
      Proj(kinds[..n], c) + if ClassOf(kinds[n]) == c then [kinds[n]] else []
  }

  /** Where row `i` of class `c` stands among the rows of its class. */
  function Rank(kinds: seq<RowKind>, c: Class, i: nat): nat
    requires i <= |kinds|
  {
    |Proj(kinds[..i], c)|
  }

  /** Row `i` is found in the reading of its class at its rank. */
  ghost predicate RankedAt(kinds: seq<RowKind>, c: Class, i: nat) {
    i < |kinds| && Rank(kinds, c, i) < |Proj(kinds, c)| && Proj(kinds, c)[Rank(kinds, c, i)] == kinds[i]
  }

  lemma ProjSnoc(kinds: seq<RowKind>, k: RowKind, c: Class)
    ensures Proj(kinds + [k], c) == if ClassOf(k) == c then Proj(kinds, c) + [k] else Proj(kinds, c)
  {
    assert (kinds + [k])[..|kinds|] == kinds;
  }

  /** An edit within a class changes one row of that class's reading, the one at its rank. */
  lemma {:induction false} ProjUpdate(kinds: seq<RowKind>, i: nat, k: RowKind, c: Class)
    requires i < |kinds| && ClassOf(kinds[i]) == ClassOf(k)
    ensures ClassOf(k) == c ==> RankedAt(kinds, c, i)
    ensures Proj(kinds[i := k], c)
         == if ClassOf(k) == c then Proj(kinds, c)[Rank(kinds, c, i) := k] else Proj(kinds, c)
  {
    var n := |kinds| - 1;
    if i < n {
      ProjUpdate(kinds[..n], i, k, c);
      assert kinds[..n][i := k] == kinds[i := k][..n];
      assert kinds[..n][..i] == kinds[..i];
    } else {
      assert kinds[i := k][..n] == kinds[..n];
    }
  }

  /** The last row of its class is the last row of the reading. */
  lemma {:induction false} RankOfLast(kinds: seq<RowKind>, c: Class, i: nat)
    requires i < |kinds| && ClassOf(kinds[i]) == c
    requires forall j :: i < j < |kinds| ==> ClassOf(kinds[j]) != c
    ensures Rank(kinds, c, i) == |Proj(kinds, c)| - 1
  {
    var n := |kinds| - 1;
    if i < n {
      RankOfLast(kinds[..n], c, i);
      assert kinds[..n][..i] == kinds[..i];
    }
  }

  /** The class of the rows a query looks for. */
  function QueryClass(q: Query): Class {
    if q.CardWithId? || q.PlaceholderFor? then Card else Notice
  }

  lemma MatchHasClass(q: Query, k: RowKind)
    ensures Matches(q, k) ==> ClassOf(k) == QueryClass(q)
  {
  }

  /** Where a search result stands in the reading of its class. */
  function Ranked(kinds: seq<RowKind>, c: Class, at: Option<nat>): Option<nat> {
    if at.Some? && at.value <= |kinds| then Some(Rank(kinds, c, at.value)) else None
  }

  lemma RankedSnoc(kinds: seq<RowKind>, k: RowKind, c: Class, at: Option<nat>)
    requires at.Some? ==> at.value <= |kinds|
    ensures Ranked(kinds + [k], c, at) == Ranked(kinds, c, at)
  {
    if at.Some? {
      assert (kinds + [k])[..at.value] == kinds[..at.value];
    }
  }

  lemma RankOfEnd(kinds: seq<RowKind>, k: RowKind, c: Class)
    ensures Ranked(kinds + [k], c, Some(|kinds|)) == Some(|Proj(kinds, c)|)
  {
    assert (kinds + [k])[..|kinds|] == kinds;
  }

  lemma LastSnoc(kinds: seq<RowKind>, k: RowKind, q: Query)
    ensures LastWhere(kinds + [k], q) == if Matches(q, k) then Some(|kinds|) else LastWhere(kinds, q)
  {
    assert (kinds + [k])[..|kinds|] == kinds;
  }

  lemma FirstSnoc(kinds: seq<RowKind>, k: RowKind, q: Query)
    ensures FirstWhere(kinds + [k], q)
         == if FirstWhere(kinds, q).Some? then FirstWhere(kinds, q) else if Matches(q, k) then Some(|kinds|) else None
  {
    assert (kinds + [k])[..|kinds|] == kinds;
  }

  /** A search for rows of one class finds the same row in the reading as in the transcript. */
  lemma {:induction false} LastCommutes(kinds: seq<RowKind>, q: Query)
    ensures LastWhere(Proj(kinds, QueryClass(q)), q) == Ranked(kinds, QueryClass(q), LastWhere(kinds, q))
  {
    if |kinds| > 0 {
      var pre, k, c := kinds[..|kinds| - 1], kinds[|kinds| - 1], QueryClass(q);
      assert kinds == pre + [k];
      LastCommutes(pre, q);
      MatchHasClass(q, k);
      LastSnoc(pre, k, q);
      LastSnoc(Proj(pre, c), k, q);
      ProjSnoc(pre, k, c);
      RankedSnoc(pre, k, c, LastWhere(pre, q));
      RankOfEnd(pre, k, c);
    }
  }

  lemma {:induction false} FirstCommutes(kinds: seq<RowKind>, q: Query)
    ensures FirstWhere(Proj(kinds, QueryClass(q)), q) == Ranked(kinds, QueryClass(q), FirstWhere(kinds, q))
  {
    if |kinds| > 0 {
      var pre, k, c := kinds[..|kinds| - 1], kinds[|kinds| - 1], QueryClass(q);
      assert kinds == pre + [k];
      FirstCommutes(pre, q);
      MatchHasClass(q, k);
      FirstSnoc(pre, k, q);
      FirstSnoc(Proj(pre, c), k, q);
      ProjSnoc(pre, k, c);
      RankedSnoc(pre, k, c, FirstWhere(pre, q));
      RankOfEnd(pre, k, c);
    }
  }

  // ── The four specifications ───────────────────────────────────────────

  /** The body of a session-bound event; every other operation has none. */
  function BodyOf(op: Op): Option<EventBody> {
    if op.ApplyEvent? && op.sessionId != "" then Some(op.body) else None
  }

  /** The rows a history renders as, in list order. */
  function HistoryKinds(messages: seq<ResumeMessage>): seq<RowKind> {
    if |messages| == 0 then []
    else
      var n := |messages| - 1;
      HistoryKinds(messages[..n]) + if messages[n].Message? then [HistoryRow(messages[n]).value] else []
  }

  function SetLast(kinds: seq<RowKind>, k: RowKind): seq<RowKind> {
    if kinds == [] then [] else kinds[|kinds| - 1 := k]
  }

  /** The spoken rows, and whether the last of them is still being streamed. */
  datatype Spoken = Spoken(lines: seq<RowKind>, open: bool)

  /** Start a row; concatenate deltas; seal on interim; replace on complete. */
  function SpeakBody(v: Spoken, body: EventBody): Spoken {
    var last := if v.lines == [] then Assistant("", true, "", "") else v.lines[|v.lines| - 1];
    match body
    case MessageStart => Spoken(v.lines + [Assistant("", true, "", "")], true)
    case MessageDelta(text) =>
      if text == "" then v
      else if v.open && last.Assistant? then
        Spoken(SetLast(v.lines, Assistant(last.text + text, last.streaming, last.usageJson, last.warning)), true)
      else Spoken(v.lines + [Assistant(text, true, "", "")], true)
    case MessageInterim(text, already) =>
      if v.open && last.Assistant? then
        Spoken(SetLast(v.lines, Assistant(if already then last.text else text, false, last.usageJson, last.warning)), false)
      else v
    case MessageComplete(complete) =>
      if v.open && complete.Some? then
        var c := complete.value;
        Spoken(SetLast(v.lines, Assistant(c.text, false, c.usageJson, c.warning)), false)
      else v
    case _ => v
  }

  function Speak(v: Spoken, op: Op): Spoken {
    if op.Ingest? then Spoken(Proj(HistoryKinds(op.messages), Speech), false)
    else if op.ResetFromResume? then Spoken([], false)
    else if BodyOf(op).Some? then SpeakBody(v, BodyOf(op).value)
    else v
  }

  /** The thinking rows, and whether the last streak is still open. */
  datatype Thoughts = Thoughts(lines: seq<RowKind>, open: bool)

  /** Deltas of one streak accumulate in one row; a message start ends the streak. */
  function ThinkBody(v: Thoughts, body: EventBody): Thoughts {
    match body
    case MessageStart => v.(open := false)
    case ThinkingDelta(text) =>
      if v.open && v.lines != [] && v.lines[|v.lines| - 1].Thinking? then
        Thoughts(SetLast(v.lines, Thinking(v.lines[|v.lines| - 1].text + text)), true)
      else Thoughts(v.lines + [Thinking(text)], true)
    case _ => v
  }

  function Think(v: Thoughts, op: Op): Thoughts {
    if IsReset(op) then Thoughts([], false)
    else if BodyOf(op).Some? then ThinkBody(v, BodyOf(op).value)
    else v
  }

  function EditCard(cards: seq<RowKind>, at: Option<nat>, card: ToolCard): seq<RowKind> {
    if at.Some? && at.value < |cards| then cards[at.value := Tool(card)] else cards
  }

  function CardAt(cards: seq<RowKind>, at: Option<nat>): ToolCard {
    if at.Some? && at.value < |cards| && cards[at.value].Tool? then cards[at.value].card
    else ToolCard("", "", false, "", "", "", 0.0)
  }

  /** The tool cards: a card is found by the id it carries, the last one that carries it. */
  function WorkBody(cards: seq<RowKind>, body: EventBody): seq<RowKind> {
    match body
    case ToolGenerating(name) => cards + [Tool(ToolCard("", name, false, "", "", "", 0.0))]
    case ToolStart(id, name, context, args) =>
      if id == "" then cards
      else
        var known := LastWhere(cards, CardWithId(id));
        var pending := LastWhere(cards, PlaceholderFor(name));
        if known.Some? then
          EditCard(cards, known, CardAt(cards, known).(name := name, context := context, argsJson := args, complete := false))
        else if pending.Some? then
          EditCard(cards, pending, CardAt(cards, pending).(toolId := id, context := context, argsJson := args))
        else cards + [Tool(ToolCard(id, name, false, context, args, "", 0.0))]
    case ToolProgress(id, preview) =>
      var known := LastWhere(cards, CardWithId(id));
      if id == "" || preview == "" then cards
      else EditCard(cards, known, CardAt(cards, known).(context := preview))
    case ToolComplete(id, result, duration) =>
      var known := LastWhere(cards, CardWithId(id));
      if id == "" then cards
      else EditCard(cards, known, CardAt(cards, known).(resultJson := result, duration := duration, complete := true))
    case _ => cards
  }

  function Work(cards: seq<RowKind>, op: Op): seq<RowKind> {
    if op.Ingest? then Proj(HistoryKinds(op.messages), Card)
    else if op.ResetFromResume? then []
    else if BodyOf(op).Some? then WorkBody(cards, BodyOf(op).value)
    else cards
  }

  function ResolveIn(notices: seq<RowKind>, q: Query): seq<RowKind> {
    var found := FirstWhere(notices, q);
    if found.Some? then notices[found.value := Resolved(notices[found.value])] else notices
  }

  function Noted(notices: seq<RowKind>, k: Option<RowKind>): seq<RowKind> {
    if k.Some? then notices + [k.value] else notices
  }

  /** The row an operation announces to the user, if any. */
  function NoticeOf(key: string, op: Op): Option<RowKind> {
    match op
    case AppendUser(text) => Some(User(text))
    case ApplyApprovalCard(id, card) =>
      if id == "" || key == "" || card.None? then None else ApprovalRow(Some(card.value.(requestId := id)))
    case ApplyEvent(sid, body) =>
      if sid == "" then None
      else
        match body {
          case StatusUpdate(status, text) => StatusRow(status, text)
          case ApprovalRequest(card) => ApprovalRow(card)
          case ClarifyRequest(id, batch, single) => ClarifyRow(id, batch, single)
          case ErrorEvent(message) => Some(Error(message))
          case _ => None
        }
    case _ => None
  }

  /** User rows, cards to answer, statuses and errors: appended in order, answered in place. */
  function Notify(notices: seq<RowKind>, key: string, op: Op): seq<RowKind> {
    match op
    case Ingest(messages) => Proj(HistoryKinds(messages), Notice)
    case ResetFromResume => []
    case ResolveApproval(id) => ResolveIn(notices, OpenApproval(id))
    case ResolveClarify(id) => ResolveIn(notices, OpenClarify(id))
    case _ => Noted(notices, NoticeOf(key, op))
  }

  /** The four specifications side by side. */
  datatype Views = Views(spoken: Spoken, thoughts: Thoughts, cards: seq<RowKind>, notices: seq<RowKind>)

  const NO_VIEWS := Views(Spoken([], false), Thoughts([], false), [], [])

  function ViewStep(v: Views, key: string, op: Op): Views {
    Views(Speak(v.spoken, op), Think(v.thoughts, op), Work(v.cards, op), Notify(v.notices, key, op))
  }

  function ViewRun(v: Views, key: string, ops: seq<Op>): Views {
    if |ops| == 0 then v else ViewStep(ViewRun(v, key, ops[..|ops| - 1]), key, ops[|ops| - 1])
  }

  // ── The transcript agrees with all four ───────────────────────────────

  ghost predicate SpeechAgrees(s: ReducerState, v: Spoken) {
    Proj(Kinds(s.rows), Speech) == v.lines && v.open == s.streaming.Some?
  }

  ghost predicate ThoughtAgrees(s: ReducerState, v: Thoughts) {
    Proj(Kinds(s.rows), Thought) == v.lines && v.open == s.thinking.Some?
  }

  ghost predicate Agrees(s: ReducerState, v: Views) {
    && SpeechAgrees(s, v.spoken) && ThoughtAgrees(s, v.thoughts)
    && Proj(Kinds(s.rows), Card) == v.cards && Proj(Kinds(s.rows), Notice) == v.notices
  }

  /** What an announced change does to each reading. */
  lemma AnnouncedProj(s: ReducerState, o: Outcome, c: Class)
    requires Announced(s, o)
    ensures o.changes == [] || o.changes[0].HeaderUpdated? ==>
              Proj(Kinds(o.state.rows), c) == Proj(Kinds(s.rows), c)
    ensures o.changes != [] && o.changes[0].RowAppended? ==>
              var k := o.state.rows[|s.rows|].kind;
              Proj(Kinds(o.state.rows), c) == Proj(Kinds(s.rows), c) + if ClassOf(k) == c then [k] else []
    ensures o.changes != [] && o.changes[0].RowUpdated? ==>
              var i := o.changes[0].index;
              var k := o.state.rows[i].kind;
              && (ClassOf(k) == c ==> RankedAt(Kinds(s.rows), c, i))
              && Proj(Kinds(o.state.rows), c)
                 == (if ClassOf(k) == c then Proj(Kinds(s.rows), c)[Rank(Kinds(s.rows), c, i) := k]
                     else Proj(Kinds(s.rows), c))
  {
    if o.changes != [] && o.changes[0].RowAppended? {
      var k := o.state.rows[|s.rows|].kind;
      assert Kinds(o.state.rows) == Kinds(s.rows) + [k];
      ProjSnoc(Kinds(s.rows), k, c);
    } else if o.changes != [] && o.changes[0].RowUpdated? {
      var i := o.changes[0].index;
      var k := o.state.rows[i].kind;
      assert Kinds(o.state.rows) == Kinds(s.rows)[i := k];
      ProjUpdate(Kinds(s.rows), i, k, c);
    }
  }

  /** The class of rows an operation can touch. */
  function Touches(op: Op): Class {
    match BodyOf(op)
    case Some(b) =>
      if b.MessageStart? || b.MessageDelta? || b.MessageInterim? || b.MessageComplete? then Speech
      else if b.ThinkingDelta? then Thought
      else if b.ToolGenerating? || b.ToolStart? || b.ToolProgress? || b.ToolComplete? then Card
      else Notice
    case None => Notice
  }

  /** The row that an outcome's change names is of class `c`. */
  predicate TouchesClass(o: Outcome, c: Class) {
    o.changes != [] && (o.changes[0].RowAppended? || o.changes[0].RowUpdated?) ==>
      o.changes[0].index < |o.state.rows| && ClassOf(o.state.rows[o.changes[0].index].kind) == c
  }

  lemma MessageTouches(s: ReducerState, body: EventBody)
    requires InBounds(s) && StreamingLatch(s)
    requires body.MessageStart? || body.MessageDelta? || body.MessageInterim? || body.MessageComplete?
    ensures TouchesClass(OnEvent(s, body), Speech)
  {
  }

  lemma ToolTouches(s: ReducerState, body: EventBody)
    requires InBounds(s) && ToolIndex(s)
    requires body.ToolGenerating? || body.ToolStart? || body.ToolProgress? || body.ToolComplete?
    ensures TouchesClass(OnEvent(s, body), Card)
  {
  }

  lemma OtherTouches(s: ReducerState, body: EventBody)
    requires InBounds(s) && ThinkingLatch(s)
    requires !body.MessageStart? && !body.MessageDelta? && !body.MessageInterim? && !body.MessageComplete?
    requires !body.ToolGenerating? && !body.ToolStart? && !body.ToolProgress? && !body.ToolComplete?
    ensures TouchesClass(OnEvent(s, body), if body.ThinkingDelta? then Thought else Notice)
  {
  }

  lemma EventTouches(s: ReducerState, key: string, op: Op)
    requires WellFormed(s) && op.ApplyEvent? && op.sessionId != ""
    ensures TouchesClass(Perform(s, key, op), Touches(op))
  {
    hide OnEvent;
    if Touches(op) == Speech {
      MessageTouches(s, op.body);
    } else if Touches(op) == Card {
      ToolTouches(s, op.body);
    } else {
      OtherTouches(s, op.body);
    }
  }

  lemma OpTouches(s: ReducerState, key: string, op: Op)
    requires WellFormed(s) && !IsReset(op)
    ensures var o := Perform(s, key, op);
            && Announced(s, o)
            && (o.changes != [] && !o.changes[0].HeaderUpdated? ==>
                  ClassOf(o.state.rows[o.changes[0].index].kind) == Touches(op))
  {
    PerformAnnounced(s, key, op);
    if op.ApplyEvent? && op.sessionId != "" {
      EventTouches(s, key, op);
    }
  }

  /** Only message events move the streaming latch; only thinking deltas and starts the other. */
  lemma LatchesUntouched(s: ReducerState, key: string, op: Op)
    requires WellFormed(s) && !IsReset(op)
    ensures Touches(op) != Speech ==> Perform(s, key, op).state.streaming == s.streaming
    ensures Touches(op) != Thought && BodyOf(op) != Some(MessageStart) ==>
              Perform(s, key, op).state.thinking == s.thinking
  {
  }

  lemma ProjUntouched(s: ReducerState, key: string, op: Op, c: Class)
    requires WellFormed(s) && !IsReset(op) && Touches(op) != c
    ensures Proj(Kinds(Perform(s, key, op).state.rows), c) == Proj(Kinds(s.rows), c)
  {
    OpTouches(s, key, op);
    AnnouncedProj(s, Perform(s, key, op), c);
  }

  /** How one appended row changes the readings. */
  lemma AppendedProj(rows: seq<Row>, k: RowKind, c: Class)
    ensures Proj(Kinds(rows + [Row(|rows|, k)]), c) == Proj(Kinds(rows), c) + if ClassOf(k) == c then [k] else []
  {
    assert Kinds(rows + [Row(|rows|, k)]) == Kinds(rows) + [k];
    ProjSnoc(Kinds(rows), k, c);
  }

  /** How one edited row changes the reading of its class. */
  lemma EditedProj(rows: seq<Row>, i: nat, k: RowKind)
    requires i < |rows| && ClassOf(rows[i].kind) == ClassOf(k)
    ensures RankedAt(Kinds(rows), ClassOf(k), i)
    ensures Proj(Kinds(rows[i := Row(rows[i].index, k)]), ClassOf(k))
         == Proj(Kinds(rows), ClassOf(k))[Rank(Kinds(rows), ClassOf(k), i) := k]
  {
    assert Kinds(rows[i := Row(rows[i].index, k)]) == Kinds(rows)[i := k];
    ProjUpdate(Kinds(rows), i, k, ClassOf(k));
  }

  /** Editing the row a latch points at edits the last row of the reading. */
  lemma LatchedProj(rows: seq<Row>, i: nat, k: RowKind)
    requires i < |rows| && ClassOf(rows[i].kind) == ClassOf(k)
    requires forall j :: i < j < |rows| ==> ClassOf(rows[j].kind) != ClassOf(k)
    ensures var lines := Proj(Kinds(rows), ClassOf(k));
            && lines != [] && lines[|lines| - 1] == rows[i].kind
            && Proj(Kinds(rows[i := Row(rows[i].index, k)]), ClassOf(k)) == SetLast(lines, k)
  {
    EditedProj(rows, i, k);
    RankOfLast(Kinds(rows), ClassOf(k), i);
  }

  lemma SpeechEvent(s: ReducerState, v: Spoken, body: EventBody)
    requires InBounds(s) && StreamingLatch(s) && SpeechAgrees(s, v)
    requires body.MessageStart? || body.MessageDelta? || body.MessageInterim? || body.MessageComplete?
    ensures SpeechAgrees(OnEvent(s, body).state, SpeakBody(v, body))
  {
    hide Proj, Rank;
    var o := OnEvent(s, body);
    if o.changes != [] {
      if s.streaming.Some? && !body.MessageStart? {
        LatchedProj(s.rows, s.streaming.value, o.state.rows[s.streaming.value].kind);
      } else {
        AppendedProj(s.rows, o.state.rows[|s.rows|].kind, Speech);
      }
    }
  }

  lemma SpeechStep(s: ReducerState, v: Spoken, key: string, op: Op)
    requires WellFormed(s) && SpeechAgrees(s, v) && !IsReset(op)
    ensures SpeechAgrees(Perform(s, key, op).state, Speak(v, op))
  {
    if Touches(op) == Speech {
      SpeechEvent(s, v, op.body);
    } else {
      ProjUntouched(s, key, op, Speech);
      LatchesUntouched(s, key, op);
    }
  }

  lemma ThoughtEvent(s: ReducerState, v: Thoughts, text: string)
    requires InBounds(s) && ThinkingLatch(s) && ThoughtAgrees(s, v)
    ensures ThoughtAgrees(OnThinkingDelta(s, text).state, ThinkBody(v, ThinkingDelta(text)))
  {
    var t := OnThinkingDelta(s, text).state;
    if s.thinking.Some? {
      LatchedProj(s.rows, s.thinking.value, t.rows[s.thinking.value].kind);
    } else {
      AppendedProj(s.rows, Thinking(text), Thought);
    }
  }

  lemma ThoughtStep(s: ReducerState, v: Thoughts, key: string, op: Op)
    requires WellFormed(s) && ThoughtAgrees(s, v) && !IsReset(op)
    ensures ThoughtAgrees(Perform(s, key, op).state, Think(v, op))
  {
    if Touches(op) == Thought {
      ThoughtEvent(s, v, op.body.text);
    } else {
      ProjUntouched(s, key, op, Thought);
      LatchesUntouched(s, key, op);
    }
  }

  /** The tools map finds the card the specification finds by id. */
  ghost predicate MapFinds(s: ReducerState, id: string) {
    && (id in s.tools ==> s.tools[id] < |s.rows| && s.rows[s.tools[id]].kind.Tool?)
    && LastWhere(Kinds(s.rows), CardWithId(id)) == if id in s.tools then Some(s.tools[id]) else None
  }

  lemma MapFindsLast(s: ReducerState, id: string)
    requires WellFormed(s) && id != ""
    ensures MapFinds(s, id)
  {
    var kinds := Kinds(s.rows);
    assert forall j :: 0 <= j < |kinds| ==> Matches(CardWithId(id), kinds[j]) == IsCardOf(s.rows[j].kind, id);
    if id in s.tools {
      assert Matches(CardWithId(id), kinds[s.tools[id]]);
    }
  }

  lemma RestartProjects(s: ReducerState, id: string, name: string, context: string, args: string)
    requires InBounds(s) && MapFinds(s, id) && id != "" && id in s.tools
    ensures Proj(Kinds(OnToolStart(s, id, name, context, args).state.rows), Card)
         == WorkBody(Proj(Kinds(s.rows), Card), ToolStart(id, name, context, args))
  {
    LastCommutes(Kinds(s.rows), CardWithId(id));
    var i := s.tools[id];
    EditedProj(s.rows, i, OnToolStart(s, id, name, context, args).state.rows[i].kind);
  }

  lemma PairingProjects(s: ReducerState, id: string, name: string, context: string, args: string)
    requires InBounds(s) && MapFinds(s, id) && id != "" && id !in s.tools && PendingGeneratingRow(s, name).Some?
    ensures Proj(Kinds(OnToolStart(s, id, name, context, args).state.rows), Card)
         == WorkBody(Proj(Kinds(s.rows), Card), ToolStart(id, name, context, args))
  {
    var i := PendingGeneratingRow(s, name).value;
    LastCommutes(Kinds(s.rows), CardWithId(id));
    LastCommutes(Kinds(s.rows), PlaceholderFor(name));
    assert Matches(PlaceholderFor(name), s.rows[i].kind);
    EditedProj(s.rows, i, Tool(s.rows[i].kind.card.(toolId := id, context := context, argsJson := args)));
  }

  lemma FreshStartProjects(s: ReducerState, id: string, name: string, context: string, args: string)
    requires InBounds(s) && MapFinds(s, id) && id != "" && id !in s.tools && PendingGeneratingRow(s, name).None?
    ensures Proj(Kinds(OnToolStart(s, id, name, context, args).state.rows), Card)
         == WorkBody(Proj(Kinds(s.rows), Card), ToolStart(id, name, context, args))
  {
    LastCommutes(Kinds(s.rows), CardWithId(id));
    LastCommutes(Kinds(s.rows), PlaceholderFor(name));
    AppendedProj(s.rows, Tool(ToolCard(id, name, false, context, args, "", 0.0)), Card);
  }

  lemma ProgressProjects(s: ReducerState, id: string, preview: string)
    requires InBounds(s) && if id == "" then "" !in s.tools else MapFinds(s, id)
    ensures Proj(Kinds(OnToolProgress(s, id, preview).state.rows), Card)
         == WorkBody(Proj(Kinds(s.rows), Card), ToolProgress(id, preview))
  {
    hide Proj, LastWhere;
    LastCommutes(Kinds(s.rows), CardWithId(id));
    if id in s.tools {
      EditedProj(s.rows, s.tools[id], Tool(s.rows[s.tools[id]].kind.card.(context := preview)));
    }
  }

  lemma CompletionProjects(s: ReducerState, id: string, result: string, duration: real)
    requires InBounds(s) && if id == "" then "" !in s.tools else MapFinds(s, id)
    ensures Proj(Kinds(OnToolComplete(s, id, result, duration).state.rows), Card)
         == WorkBody(Proj(Kinds(s.rows), Card), ToolComplete(id, result, duration))
  {
    hide Proj, LastWhere;
    LastCommutes(Kinds(s.rows), CardWithId(id));
    if id in s.tools {
      var card := s.rows[s.tools[id]].kind.card;
      EditedProj(s.rows, s.tools[id], Tool(card.(resultJson := result, duration := duration, complete := true)));
    }
  }

  lemma CardStep(s: ReducerState, key: string, op: Op)
    requires WellFormed(s) && !IsReset(op)
    ensures Proj(Kinds(Perform(s, key, op).state.rows), Card) == Work(Proj(Kinds(s.rows), Card), op)
  {
    if Touches(op) != Card {
      ProjUntouched(s, key, op, Card);
    } else if op.body.ToolGenerating? {
      AppendedProj(s.rows, Tool(ToolCard("", op.body.name, false, "", "", "", 0.0)), Card);
    } else {
      CardEventStep(s, op.body);
    }
  }

  lemma CardEventStep(s: ReducerState, body: EventBody)
    requires WellFormed(s) && (body.ToolStart? || body.ToolProgress? || body.ToolComplete?)
    ensures Proj(Kinds(OnEvent(s, body).state.rows), Card) == WorkBody(Proj(Kinds(s.rows), Card), body)
  {
    var id := body.toolId;
    if id != "" {
      MapFindsLast(s, id);
    }
    if body.ToolProgress? {
      ProgressProjects(s, id, body.preview);
    } else if body.ToolComplete? {
      CompletionProjects(s, id, body.resultJson, body.duration);
    } else if id in s.tools {
      RestartProjects(s, id, body.name, body.context, body.argsJson);
    } else if id != "" && PendingGeneratingRow(s, body.name).Some? {
      PairingProjects(s, id, body.name, body.context, body.argsJson);
    } else if id != "" {
      FreshStartProjects(s, id, body.name, body.context, body.argsJson);
    }
  }

  lemma ResolveProjects(s: ReducerState, q: Query)
    requires q.OpenApproval? || q.OpenClarify?
    ensures Proj(Kinds(ResolveFirst(s, q).state.rows), Notice) == ResolveIn(Proj(Kinds(s.rows), Notice), q)
  {
    FirstCommutes(Kinds(s.rows), q);
    var found := FirstWhere(Kinds(s.rows), q);
    if found.Some? {
      EditedProj(s.rows, found.value, Resolved(s.rows[found.value].kind));
    }
  }

  /** Every other operation appends its notice, if it has one, and nothing else of that class. */
  lemma NoticeAppends(s: ReducerState, key: string, op: Op)
    requires WellFormed(s) && !IsReset(op) && !op.ResolveApproval? && !op.ResolveClarify? && Touches(op) == Notice
    ensures Perform(s, key, op).state.rows == PushIfAny(s, NoticeOf(key, op)).state.rows
  {
  }

  lemma NoticeStep(s: ReducerState, key: string, op: Op)
    requires WellFormed(s) && !IsReset(op)
    ensures Proj(Kinds(Perform(s, key, op).state.rows), Notice) == Notify(Proj(Kinds(s.rows), Notice), key, op)
  {
    hide Proj, OnEvent, WellFormed;
    if op.ResolveApproval? {
      ResolveProjects(s, OpenApproval(op.requestId));
    } else if op.ResolveClarify? {
      ResolveProjects(s, OpenClarify(op.requestId));
    } else if Touches(op) == Notice {
      NoticeAppends(s, key, op);
      if NoticeOf(key, op).Some? {
        AppendedProj(s.rows, NoticeOf(key, op).value, Notice);
      }
    } else {
      ProjUntouched(s, key, op, Notice);
    }
  }

  lemma {:induction false} IngestKinds(messages: seq<ResumeMessage>)
    ensures Kinds(IngestRows(messages).state.rows) == HistoryKinds(messages)
  {
    if |messages| > 0 {
      IngestKinds(messages[..|messages| - 1]);
    }
  }

  /** A rebuilt history holds no thinking row. */
  lemma {:induction false} HistoryHasNoThoughts(messages: seq<ResumeMessage>)
    ensures Proj(HistoryKinds(messages), Thought) == []
  {
    if |messages| > 0 {
      var n := |messages| - 1;
      HistoryHasNoThoughts(messages[..n]);
      if messages[n].Message? {
        ProjSnoc(HistoryKinds(messages[..n]), HistoryRow(messages[n]).value, Thought);
      } else {
        assert HistoryKinds(messages) == HistoryKinds(messages[..n]);
      }
    }
  }

  lemma StepAgrees(s: ReducerState, v: Views, key: string, op: Op)
    requires WellFormed(s) && Agrees(s, v)
    ensures Agrees(Perform(s, key, op).state, ViewStep(v, key, op))
  {
    if op.Ingest? {
      IngestInBounds(op.messages);
      IngestKinds(op.messages);
      HistoryHasNoThoughts(op.messages);
    } else if !op.ResetFromResume? {
      SpeechStep(s, v.spoken, key, op);
      ThoughtStep(s, v.thoughts, key, op);
      CardStep(s, key, op);
      NoticeStep(s, key, op);
    }
  }

  /** After any interleaved run, the rows of each class are what that class's specification says. */
  lemma {:induction false} RunProjects(key: string, ops: seq<Op>)
    ensures Agrees(Run(EMPTY_STATE, key, ops), ViewRun(NO_VIEWS, key, ops))
  {
    if |ops| > 0 {
      var n := |ops| - 1;
      RunProjects(key, ops[..n]);
      RunWellFormed(EMPTY_STATE, key, ops[..n]);
      StepAgrees(Run(EMPTY_STATE, key, ops[..n]), ViewRun(NO_VIEWS, key, ops[..n]), key, ops[n]);
    }
  }

  // ── Interleaving does not matter ──────────────────────────────────────

  /** The operations of a run that can concern spoken rows. */
  function SpeechOps(ops: seq<Op>): seq<Op> {
    if |ops| == 0 then []
    else
      var n := |ops| - 1;
      SpeechOps(ops[..n]) + if IsReset(ops[n]) || Touches(ops[n]) == Speech then [ops[n]] else []
  }

  /** The operations of a run that can concern tool cards. */
  function CardOps(ops: seq<Op>): seq<Op> {
    if |ops| == 0 then []
    else
      var n := |ops| - 1;
      CardOps(ops[..n]) + if IsReset(ops[n]) || Touches(ops[n]) == Card then [ops[n]] else []
  }

  lemma {:induction false} SpeechIsLocal(key: string, ops: seq<Op>)
    ensures ViewRun(NO_VIEWS, key, ops).spoken == ViewRun(NO_VIEWS, key, SpeechOps(ops)).spoken
  {
    if |ops| > 0 {
      var n := |ops| - 1;
      SpeechIsLocal(key, ops[..n]);
      var kept := SpeechOps(ops[..n]);
      if IsReset(ops[n]) || Touches(ops[n]) == Speech {
        assert (kept + [ops[n]])[..|kept|] == kept;
      } else {
        assert SpeechOps(ops) == kept;
      }
    }
  }

  lemma {:induction false} CardsAreLocal(key: string, ops: seq<Op>)
    ensures ViewRun(NO_VIEWS, key, ops).cards == ViewRun(NO_VIEWS, key, CardOps(ops)).cards
  {
    if |ops| > 0 {
      var n := |ops| - 1;
      CardsAreLocal(key, ops[..n]);
      var kept := CardOps(ops[..n]);
      if IsReset(ops[n]) || Touches(ops[n]) == Card {
        assert (kept + [ops[n]])[..|kept|] == kept;
      } else {
        assert CardOps(ops) == kept;
      }
    }
  }

  /** Two runs with the same message events and rebuilds show the same assistant rows in the same
      order, however thinking, tools, cards, statuses and user rows are woven in; likewise the tool
      cards of two runs with the same tool events and rebuilds. */
  lemma InterleavingIsIrrelevant(key: string, a: seq<Op>, b: seq<Op>)
    ensures SpeechOps(a) == SpeechOps(b) ==>
              Proj(Kinds(Run(EMPTY_STATE, key, a).rows), Speech) == Proj(Kinds(Run(EMPTY_STATE, key, b).rows), Speech)
    ensures CardOps(a) == CardOps(b) ==>
              Proj(Kinds(Run(EMPTY_STATE, key, a).rows), Card) == Proj(Kinds(Run(EMPTY_STATE, key, b).rows), Card)
  {
    RunProjects(key, a);
    RunProjects(key, b);
    SpeechIsLocal(key, a);
    SpeechIsLocal(key, b);
    CardsAreLocal(key, a);
    CardsAreLocal(key, b);
  }

  // ── The header ────────────────────────────────────────────────────────

  /** The header fields an operation brings; "" where it brings none. */
  function HeaderNews(op: Op): Header {
    match BodyOf(op)
    case Some(SessionInfo(info)) => info
    case Some(SessionTitle(title)) => EMPTY_HEADER.(title := title)
    case _ => EMPTY_HEADER
  }

  /** The latest non-empty value of one field since the last rebuild. */
  function Latest(ops: seq<Op>, field: Header -> string): string {
    if |ops| == 0 then ""
    else
      var news := field(HeaderNews(ops[|ops| - 1]));
      if IsReset(ops[|ops| - 1]) then ""
      else if news != "" then news
      else Latest(ops[..|ops| - 1], field)
  }

  lemma HeaderStep(s: ReducerState, key: string, op: Op)
    requires WellFormed(s)
    ensures var h, news := Perform(s, key, op).state.header, HeaderNews(op);
            if IsReset(op) then h == EMPTY_HEADER
            else h == Header(Merged(s.header.title, news.title), Merged(s.header.model, news.model),
                             Merged(s.header.cwd, news.cwd), Merged(s.header.branch, news.branch),
                             Merged(s.header.usageJson, news.usageJson))
  {
    hide LastWhere, FirstWhere, Kinds, IngestRows;
    if op.Ingest? {
      HistoryHasNoHeader(op.messages);
    }
  }

  lemma {:induction false} HistoryHasNoHeader(messages: seq<ResumeMessage>)
    ensures IngestRows(messages).state.header == EMPTY_HEADER
  {
    if |messages| > 0 {
      HistoryHasNoHeader(messages[..|messages| - 1]);
    }
  }

  /** After any run each header field shows the latest non-empty value it was sent since the last
      rebuild, whichever event carried it; an empty value never blanks a known one. */
  lemma {:induction false} HeaderShowsTheLatest(key: string, ops: seq<Op>)
    ensures Run(EMPTY_STATE, key, ops).header
         == Header(Latest(ops, (h: Header) => h.title), Latest(ops, (h: Header) => h.model),
                   Latest(ops, (h: Header) => h.cwd), Latest(ops, (h: Header) => h.branch),
                   Latest(ops, (h: Header) => h.usageJson))
  {
    if |ops| > 0 {
      var before := ops[..|ops| - 1];
      HeaderShowsTheLatest(key, before);
      RunWellFormed(EMPTY_STATE, key, before);
      HeaderStep(Run(EMPTY_STATE, key, before), key, ops[|ops| - 1]);
    }
  }
}

/** Which rows are flagged as streaming: the latched one, and what a second start leaves behind. */
module StreamingFlags {
  import opened Transcript
  import opened ReducerSpec
  import opened ReducerInvariants
  import opened Projection

  predicate FlaggedStreaming(k: RowKind) {
    k.Assistant? && k.streaming
  }

  /** The only row flagged as streaming is the latched one, if there is one. */
  ghost predicate OnlyLatchStreams(s: ReducerState) {
    forall i :: 0 <= i < |s.rows| && FlaggedStreaming(s.rows[i].kind) ==> s.streaming == Some(i)
  }

  /** A message start while a row is still latched. */
  predicate StartsOverLatch(s: ReducerState, op: Op) {
    BodyOf(op) == Some(MessageStart) && s.streaming.Some?
  }

  lemma MessageFlags(s: ReducerState, body: EventBody)
    requires InBounds(s) && StreamingLatch(s) && OnlyLatchStreams(s)
    requires body.MessageStart? || body.MessageDelta? || body.MessageInterim? || body.MessageComplete?
    ensures OnlyLatchStreams(OnEvent(s, body).state) <==> !(body.MessageStart? && s.streaming.Some?)
  {
    var t := OnEvent(s, body).state;
    if body.MessageStart? && s.streaming.Some? {
      assert FlaggedStreaming(t.rows[s.streaming.value].kind);
    }
  }

  lemma OtherFlags(s: ReducerState, key: string, op: Op)
    requires WellFormed(s) && OnlyLatchStreams(s) && !IsReset(op) && Touches(op) != Speech
    ensures OnlyLatchStreams(Perform(s, key, op).state)
  {
    hide Perform, WellFormed;
    OpTouches(s, key, op);
    LatchesUntouched(s, key, op);
  }

  lemma {:induction false} HistoryStreamsNothing(messages: seq<ResumeMessage>)
    ensures forall i :: 0 <= i < |IngestRows(messages).state.rows| ==>
              !FlaggedStreaming(IngestRows(messages).state.rows[i].kind)
  {
    if |messages| > 0 {
      HistoryStreamsNothing(messages[..|messages| - 1]);
    }
  }

  /** An operation leaves a row behind that is flagged but no longer latched exactly when it is a
      message start that finds the latch taken. */
  lemma StrayFlagIff(s: ReducerState, key: string, op: Op)
    requires WellFormed(s) && OnlyLatchStreams(s)
    ensures OnlyLatchStreams(Perform(s, key, op).state) <==> !StartsOverLatch(s, op)
  {
    hide OnEvent;
    if op.Ingest? {
      HistoryStreamsNothing(op.messages);
    } else if !op.ResetFromResume? {
      if Touches(op) == Speech {
        MessageFlags(s, op.body);
      } else {
        OtherFlags(s, key, op);
      }
    }
  }

  /** As long as no message start finds the latch taken, at most one row is flagged as streaming, and it
      is the one the next delta goes to. */
  lemma {:induction false} AtMostOneStreams(key: string, ops: seq<Op>)
    requires forall i :: 0 <= i < |ops| ==> !StartsOverLatch(Run(EMPTY_STATE, key, ops[..i]), ops[i])
    ensures OnlyLatchStreams(Run(EMPTY_STATE, key, ops))
  {
    if |ops| > 0 {
      var n := |ops| - 1;
      forall i | 0 <= i < n ensures !StartsOverLatch(Run(EMPTY_STATE, key, ops[..n][..i]), ops[..n][i]) {
        assert ops[..n][..i] == ops[..i];
      }
      AtMostOneStreams(key, ops[..n]);
      RunWellFormed(EMPTY_STATE, key, ops[..n]);
      StrayFlagIff(Run(EMPTY_STATE, key, ops[..n]), key, ops[n]);
    }
  }
}
