/** Sends that race with rebuilds, closes and re-opens of the same chat. */
module SubmitRace {
  import opened Transcript
  import opened ReducerSpec
  import opened ReducerInvariants
  import opened Replica
  import opened Registry
  import opened CoreSpec
  import opened Routing

  // ── History epochs are fresh and distinct ─────────────────────────────

  ghost predicate EpochsFresh(c: Core) {
    && (forall key :: key in c.sessions ==> c.sessions[key].historyEpoch <= c.historyEpoch)
    && (forall a, b :: a in c.sessions && b in c.sessions && a != b ==>
          c.sessions[a].historyEpoch != c.sessions[b].historyEpoch)
  }

  /** The epoch of the session `key`, if it is open. */
  function EpochOf(c: Core, key: string): Option<nat> {
    if key in c.sessions then Some(c.sessions[key].historyEpoch) else None
  }

  /** The step replaces or removes the session `key`. */
  predicate Disturbs(step: Step, key: string) {
    step.Clear? || ((step.Open? || step.CloseTab? || step.Rebuild?) && step.key == key)
  }

  lemma OnSessionKeepsEpochs(c: Core, key: string, op: Op, title: string, k: string)
    requires Sound(c) && key in c.sessions
    ensures var c' := OnSession(c, key, op, title).core;
            c'.historyEpoch == c.historyEpoch && EpochOf(c', k) == EpochOf(c, k)
  {
  }

  lemma DeliverKeepsEpochs(c: Core, ev: EventParams, k: string)
    requires Sound(c)
    ensures var c' := DeliverEvent(c, ev).core;
            c'.historyEpoch == c.historyEpoch && EpochOf(c', k) == EpochOf(c, k)
  {
    if Route(c, ev.sessionId).Some? {
      EventReachesOwner(c, ev, Route(c, ev.sessionId).value);
    }
    if Route(c, ev.sessionId) != Some(k) {
      DeliverTouchesOnlyOwner(c, ev, k);
    }
  }

  /** A session that is not disturbed keeps its epoch; a disturbed one is gone or strictly newer. */
  lemma StepEpochs(c: Core, step: Step, key: string)
    requires Sound(c)
    ensures var c' := Do(c, step).core;
            && c'.historyEpoch == c.historyEpoch + (if step.Open? || step.Rebuild? then 1 else 0)
            && (!Disturbs(step, key) ==> EpochOf(c', key) == EpochOf(c, key))
            && (Disturbs(step, key) && EpochOf(c', key).Some? ==>
                  EpochOf(c', key).value == c'.historyEpoch == c.historyEpoch + 1)
  {
    if RunsReducer(step) {
      ReducerStepIs(c, step);
      if Operation(c, step).Some? {
        OnSessionKeepsEpochs(c, step.key, Operation(c, step).value, "", key);
      }
    } else if step.Deliver? {
      DeliverKeepsEpochs(c, step.ev, key);
    }
  }

  lemma StepKeepsFresh(c: Core, step: Step)
    requires Sound(c) && EpochsFresh(c)
    ensures EpochsFresh(Do(c, step).core)
  {
    var c' := Do(c, step).core;
    forall key | key in c'.sessions
      ensures c'.sessions[key].historyEpoch <= c'.historyEpoch
    {
      StepEpochs(c, step, key);
      assert EpochOf(c', key).Some?;
    }
    forall a, b | a in c'.sessions && b in c'.sessions && a != b
      ensures c'.sessions[a].historyEpoch != c'.sessions[b].historyEpoch
    {
      EpochsStayApart(c, step, a, b);
    }
  }

  lemma EpochsStayApart(c: Core, step: Step, a: string, b: string)
    requires Sound(c) && EpochsFresh(c) && a != b
    requires a in Do(c, step).core.sessions && b in Do(c, step).core.sessions
    ensures EpochOf(Do(c, step).core, a) != EpochOf(Do(c, step).core, b)
  {
    StepEpochs(c, step, a);
    StepEpochs(c, step, b);
    if !Disturbs(step, a) && !Disturbs(step, b) {
      assert a in c.sessions && b in c.sessions;
    } else if Disturbs(step, a) {
      assert EpochOf(c, b).Some? && b in c.sessions;
    } else {
      assert EpochOf(c, a).Some? && a in c.sessions;
    }
  }

  /** In every reachable state live epochs are pairwise distinct and never ahead of the counter. */
  lemma {:induction false} RunFresh(known: Tabs, steps: seq<Step>)
    ensures EpochsFresh(RunSteps(NewCore(known), steps))
  {
    if |steps| > 0 {
      RunFresh(known, steps[..|steps| - 1]);
      StepKeepsFresh(RunSteps(NewCore(known), steps[..|steps| - 1]), steps[|steps| - 1]);
    }
  }

  // ── A send appends only to the incarnation it was submitted into ──────

  ghost predicate Undisturbed(steps: seq<Step>, key: string) {
    forall i :: 0 <= i < |steps| ==> !Disturbs(steps[i], key)
  }

  lemma UndisturbedSnoc(steps: seq<Step>, key: string)
    requires |steps| > 0
    ensures Undisturbed(steps, key)
       <==> Undisturbed(steps[..|steps| - 1], key) && !Disturbs(steps[|steps| - 1], key)
  {
    assert forall i :: 0 <= i < |steps| - 1 ==> steps[..|steps| - 1][i] == steps[i];
  }

  /** What a run leaves of a session's epoch: untouched, or gone for good, or newer. */
  ghost predicate EpochSettled(c: Core, later: Core, key: string, undisturbed: bool) {
    && c.historyEpoch <= later.historyEpoch
    && (undisturbed ==> EpochOf(later, key) == EpochOf(c, key))
    && (!undisturbed && EpochOf(later, key).Some? ==> EpochOf(later, key).value > c.historyEpoch)
  }

  lemma StepSettles(c: Core, now: Core, step: Step, key: string, undisturbed: bool)
    requires Sound(now) && EpochSettled(c, now, key, undisturbed)
    ensures EpochSettled(c, Do(now, step).core, key, undisturbed && !Disturbs(step, key))
  {
    StepEpochs(now, step, key);
  }

  /** While a send is awaited: either nothing disturbed its session and the epoch stands, or the
      session is gone or newer, for good. */
  lemma {:induction false} EpochTellsIncarnation(c: Core, steps: seq<Step>, key: string)
    requires Sound(c)
    ensures EpochSettled(c, RunSteps(c, steps), key, Undisturbed(steps, key))
  {
    if |steps| > 0 {
      var before, step := steps[..|steps| - 1], steps[|steps| - 1];
      EpochTellsIncarnation(c, before, key);
      StepSettles(c, RunSteps(c, before), step, key, Undisturbed(before, key));
      UndisturbedSnoc(steps, key);
    }
  }

  /** Over every interleaving, a finishing send appends its row if and only if no open, rebuild,
      close or clear hit that chat since the send began; then the row goes at the end, and only
      there, and is delivered under the chat's key. */
  lemma SendAppendsIffSameIncarnation(c: Core, steps: seq<Step>, key: string, text: string)
    requires Sound(c) && EpochsFresh(c) && key in c.sessions
    ensures var now := RunSteps(c, steps);
            var e := FinishSend(now, key, text, c.sessions[key].historyEpoch);
            && (e.dtos != [] <==> Undisturbed(steps, key))
            && (!Undisturbed(steps, key) ==> e.core == now)
            && (Undisturbed(steps, key) ==>
                  && key in now.sessions && key in e.core.sessions
                  && e.core.sessions[key].reducer.rows
                     == now.sessions[key].reducer.rows + [Row(|now.sessions[key].reducer.rows|, User(text))]
                  && |e.dtos| == 1 && e.dtos[0].key == key && e.dtos[0].row == JsonOf(User(text)))
  {
    EpochTellsIncarnation(c, steps, key);
  }

  // ── No submission ever has two rows ───────────────────────────────────

  /** How many user rows show `text`. */
  function UserRows(kinds: seq<RowKind>, text: string): nat {
    if |kinds| == 0 then 0
    else UserRows(kinds[..|kinds| - 1], text) + if kinds[|kinds| - 1] == User(text) then 1 else 0
  }

  lemma UserRowsSnoc(kinds: seq<RowKind>, k: RowKind, text: string)
    ensures UserRows(kinds + [k], text) == UserRows(kinds, text) + if k == User(text) then 1 else 0
  {
    assert (kinds + [k])[..|kinds|] == kinds;
  }

  lemma {:induction false} UserRowsEdit(kinds: seq<RowKind>, i: nat, k: RowKind, text: string)
    requires i < |kinds| && k.User? == kinds[i].User? && (k.User? ==> k == kinds[i])
    ensures UserRows(kinds[i := k], text) == UserRows(kinds, text)
  {
    var n := |kinds| - 1;
    if i < n {
      UserRowsEdit(kinds[..n], i, k, text);
      assert kinds[i := k][..n] == kinds[..n][i := k];
    } else {
      assert kinds[i := k][..n] == kinds[..n];
    }
  }

  /** Of all operations short of a rebuild, only an appended user row adds one. */
  lemma OnlyAppendAddsUserRows(s: ReducerState, key: string, op: Op, text: string)
    requires WellFormed(s) && !IsReset(op)
    ensures UserRows(Kinds(Perform(s, key, op).state.rows), text)
         == UserRows(Kinds(s.rows), text) + if op == AppendUser(text) then 1 else 0
  {
    PerformAnnounced(s, key, op);
    var o := Perform(s, key, op);
    if o.changes != [] && o.changes[0].RowAppended? {
      var k := o.state.rows[|s.rows|].kind;
      assert Kinds(o.state.rows) == Kinds(s.rows) + [k];
      UserRowsSnoc(Kinds(s.rows), k, text);
      AppendedKind(s, key, op);
    } else if o.changes != [] && o.changes[0].RowUpdated? {
      var i := o.changes[0].index;
      assert Kinds(o.state.rows) == Kinds(s.rows)[i := o.state.rows[i].kind];
      UserRowsEdit(Kinds(s.rows), i, o.state.rows[i].kind, text);
    } else {
      assert Kinds(o.state.rows) == Kinds(s.rows);
    }
  }

  lemma AppendedKind(s: ReducerState, key: string, op: Op)
    requires WellFormed(s) && !IsReset(op)
    requires Announced(s, Perform(s, key, op))
    requires Perform(s, key, op).changes != [] && Perform(s, key, op).changes[0].RowAppended?
    ensures var k := Perform(s, key, op).state.rows[|s.rows|].kind;
            if op.AppendUser? then k == User(op.text) else !k.User?
  {
    if op.ApplyEvent? {
      match op.body
      case MessageDelta(_) =>
      case ThinkingDelta(_) =>
      case ToolStart(_, _, _, _) =>
      case _ =>
    }
  }

  /** The user texts a history shows, in order. */
  function HistoryTexts(messages: seq<ResumeMessage>): seq<string> {
    if |messages| == 0 then []
    else
      var m := messages[|messages| - 1];
      HistoryTexts(messages[..|messages| - 1])
      + if m.Message? && (m.role.UserRole? || m.role.SystemRole?) then [m.text] else []
  }

  function Occurrences(texts: seq<string>, text: string): nat {
    if |texts| == 0 then 0
    else Occurrences(texts[..|texts| - 1], text) + if texts[|texts| - 1] == text then 1 else 0
  }

  lemma OccurrencesSnoc(texts: seq<string>, t: string, text: string)
    ensures Occurrences(texts + [t], text) == Occurrences(texts, text) + if t == text then 1 else 0
  {
    assert (texts + [t])[..|texts|] == texts;
  }

  lemma {:induction false} RebuiltUserRows(messages: seq<ResumeMessage>, text: string)
    ensures UserRows(Kinds(IngestRows(messages).state.rows), text) == Occurrences(HistoryTexts(messages), text)
  {
    if |messages| > 0 {
      var n := |messages| - 1;
      var m := messages[n];
      var s := IngestRows(messages[..n]).state;
      RebuiltUserRows(messages[..n], text);
      if m.Message? {
        var k := HistoryRow(m).value;
        assert Kinds(IngestRows(messages).state.rows) == Kinds(s.rows) + [k];
        UserRowsSnoc(Kinds(s.rows), k, text);
        if m.role.UserRole? || m.role.SystemRole? {
          OccurrencesSnoc(HistoryTexts(messages[..n]), m.text, text);
        } else {
          assert HistoryTexts(messages) == HistoryTexts(messages[..n]);
        }
      } else {
        assert HistoryTexts(messages) == HistoryTexts(messages[..n]);
      }
    }
  }

  lemma {:induction false} OccursOrNot(texts: seq<string>, text: string)
    ensures Occurrences(texts, text) == 0 <==> text !in texts
  {
    if |texts| > 0 {
      OccursOrNot(texts[..|texts| - 1], text);
      assert texts == texts[..|texts| - 1] + [texts[|texts| - 1]];
    }
  }

  /** A send whose submit call is still awaited. */
  datatype Pending = Pending(key: string, text: string, epoch: nat)

  /** The core, the sends in flight, and every text that was ever submitted or shown by a history.
      A text stands for one submission: no two submissions share it. */
  datatype World = World(core: Core, pending: set<Pending>, seen: set<string>)

  datatype Move =
    | Begin(key: string, text: string)
    | Finish(send: Pending, accepted: bool)
    | Between(step: Step)

  function HistoryOf(step: Step): seq<ResumeMessage> {
    if step.Open? || step.Rebuild? then step.messages else []
  }

  /** What the environment may do. A new submission is new; a served history shows each message at
      most once; nothing but a finishing send appends user rows. */
  ghost predicate Allowed(w: World, move: Move) {
    match move
    case Begin(key, text) => key in w.core.sessions && text !in w.seen
    case Finish(send, _) => send in w.pending
    case Between(step) =>
      !step.SendEnd? && forall t :: Occurrences(HistoryTexts(HistoryOf(step)), t) <= 1
  }

  function After(w: World, move: Move): World
    requires Sound(w.core) && Allowed(w, move)
  {
    match move
    case Begin(key, text) =>
      w.(pending := w.pending + {Pending(key, text, w.core.sessions[key].historyEpoch)}, seen := w.seen + {text})
    case Finish(send, accepted) =>
      World(if accepted then FinishSend(w.core, send.key, send.text, send.epoch).core else w.core,
            w.pending - {send}, w.seen)
    case Between(step) =>
      World(Do(w.core, step).core, w.pending,
            w.seen + (set t | t in HistoryTexts(HistoryOf(step))))
  }

  function RowsOf(c: Core, key: string, text: string): nat {
    if key in c.sessions then UserRows(Kinds(c.sessions[key].reducer.rows), text) else 0
  }

  /** The send could still append to this session. */
  predicate CanAppend(c: Core, p: Pending) {
    p.key in c.sessions && c.sessions[p.key].historyEpoch == p.epoch
  }

  ghost predicate NoDoubles(w: World) {
    && Sound(w.core) && EpochsFresh(w.core)
    && (forall key, text :: RowsOf(w.core, key, text) <= 1)
    && (forall key, text :: RowsOf(w.core, key, text) > 0 ==> text in w.seen)
    && (forall p :: p in w.pending ==> p.text in w.seen && p.epoch <= w.core.historyEpoch)
    && (forall p, q :: p in w.pending && q in w.pending && p.text == q.text ==> p == q)
    && (forall p :: p in w.pending && CanAppend(w.core, p) ==> RowsOf(w.core, p.key, p.text) == 0)
  }

  lemma OnSessionRows(c: Core, k: string, op: Op, title: string, key: string, text: string)
    requires Sound(c) && k in c.sessions && !IsReset(op)
    ensures RowsOf(OnSession(c, k, op, title).core, key, text)
         == RowsOf(c, key, text) + if key == k && op == AppendUser(text) then 1 else 0
  {
    OnlyAppendAddsUserRows(c.sessions[k].reducer, k, op, text);
  }

  lemma ReducerStepRows(c: Core, step: Step, key: string, text: string)
    requires Sound(c) && RunsReducer(step) && !step.SendEnd?
    ensures RowsOf(Do(c, step).core, key, text) == RowsOf(c, key, text)
  {
    ReducerStepIs(c, step);
    if Operation(c, step).Some? {
      OnSessionRows(c, step.key, Operation(c, step).value, "", key, text);
    }
  }

  /** How any step but a send changes the user rows of a session: not at all, or it was disturbed and
      shows what its history shows. */
  lemma StepRows(c: Core, step: Step, key: string, text: string)
    requires Sound(c) && !step.SendEnd?
    ensures var c' := Do(c, step).core;
            RowsOf(c', key, text)
            == if !Disturbs(step, key) then RowsOf(c, key, text)
               else if key in c'.sessions then Occurrences(HistoryTexts(HistoryOf(step)), text)
               else 0
  {
    if RunsReducer(step) {
      ReducerStepRows(c, step, key, text);
    } else if step.Deliver? {
      DeliverRows(c, step.ev, key, text);
    } else if step.Open? {
      RebuiltUserRows(step.messages, text);
      assert step.messages == [] ==> HistoryTexts(step.messages) == [];
    } else if step.Rebuild? {
      RebuiltUserRows(step.messages, text);
    }
  }

  lemma DeliverRows(c: Core, ev: EventParams, key: string, text: string)
    requires Sound(c)
    ensures RowsOf(DeliverEvent(c, ev).core, key, text) == RowsOf(c, key, text)
  {
    if Route(c, ev.sessionId) == Some(key) {
      EventReachesOwner(c, ev, key);
      OnlyAppendAddsUserRows(c.sessions[key].reducer, ev.sessionId, ApplyEvent(ev.sessionId, ev.body), text);
    } else {
      DeliverTouchesOnlyOwner(c, ev, key);
    }
  }

  lemma BeginKeeps(w: World, key: string, text: string)
    requires NoDoubles(w) && Allowed(w, Begin(key, text))
    ensures NoDoubles(After(w, Begin(key, text)))
  {
  }

  lemma FinishKeeps(w: World, send: Pending, accepted: bool)
    requires NoDoubles(w) && Allowed(w, Finish(send, accepted))
    ensures NoDoubles(After(w, Finish(send, accepted)))
  {
    hide UserRows, WellFormed;
    var w' := After(w, Finish(send, accepted));
    if accepted && CanAppend(w.core, send) {
      OnSessionSound(w.core, send.key, AppendUser(send.text), "");
      StepKeepsFresh(w.core, SendEnd(send.key, send.text, send.epoch));
      forall key, text
        ensures RowsOf(w'.core, key, text)
             == RowsOf(w.core, key, text) + if key == send.key && text == send.text then 1 else 0
      {
        OnSessionRows(w.core, send.key, AppendUser(send.text), "", key, text);
      }
      assert forall p :: CanAppend(w'.core, p) <==> CanAppend(w.core, p);
    }
  }

  lemma BetweenKeeps(w: World, step: Step)
    requires NoDoubles(w) && Allowed(w, Between(step))
    ensures NoDoubles(After(w, Between(step)))
  {
    var w' := After(w, Between(step));
    var texts := HistoryTexts(HistoryOf(step));
    DoSound(w.core, step);
    StepKeepsFresh(w.core, step);
    forall key, text
      ensures RowsOf(w'.core, key, text) <= 1
      ensures RowsOf(w'.core, key, text) > 0 ==> text in w'.seen
    {
      StepRows(w.core, step, key, text);
      OccursOrNot(texts, text);
    }
    forall p | p in w'.pending
      ensures p.epoch <= w'.core.historyEpoch
      ensures CanAppend(w'.core, p) ==> RowsOf(w'.core, p.key, p.text) == 0
    {
      StepEpochs(w.core, step, p.key);
      StepRows(w.core, step, p.key, p.text);
    }
  }

  lemma MoveKeeps(w: World, move: Move)
    requires NoDoubles(w) && Allowed(w, move)
    ensures NoDoubles(After(w, move))
  {
    match move
    case Begin(key, text) => BeginKeeps(w, key, text);
    case Finish(send, accepted) => FinishKeeps(w, send, accepted);
    case Between(step) => BetweenKeeps(w, step);
  }

  lemma MoveSound(w: World, move: Move)
    requires Sound(w.core) && Allowed(w, move)
    ensures Sound(After(w, move).core)
  {
    match move
    case Begin(_, _) =>
    case Finish(p, _) => if CanAppend(w.core, p) { OnSessionSound(w.core, p.key, AppendUser(p.text), ""); }
    case Between(step) => DoSound(w.core, step);
  }

  /** The world after a run of moves, or nothing if the environment broke a rule on the way. */
  ghost function RunMoves(w: World, moves: seq<Move>): Option<World>
    requires Sound(w.core)
    decreases |moves|
  {
    if |moves| == 0 then Some(w)
    else if !Allowed(w, moves[0]) then None
    else
      MoveSound(w, moves[0]);
      RunMoves(After(w, moves[0]), moves[1..])
  }

  lemma {:induction false} RunKeepsNoDoubles(w: World, moves: seq<Move>)
    requires NoDoubles(w)
    ensures RunMoves(w, moves).Some? ==> NoDoubles(RunMoves(w, moves).value)
    decreases |moves|
  {
    if |moves| > 0 && Allowed(w, moves[0]) {
      MoveKeeps(w, moves[0]);
      RunKeepsNoDoubles(After(w, moves[0]), moves[1..]);
    }
  }

  /** From a fresh core, over every interleaving of sends, answers, rebuilds, closes, re-opens and
      events, if every served history shows a message at most once then no submission ever has two
      rows in a chat. */
  lemma NoSubmissionTwice(known: Tabs, moves: seq<Move>, key: string, text: string)
    ensures var w := RunMoves(World(NewCore(known), {}, {}), moves);
            w.Some? ==> RowsOf(w.value.core, key, text) <= 1
  {
    RunKeepsNoDoubles(World(NewCore(known), {}, {}), moves);
  }

  // ── An accepted submission has its row ────────────────────────────────

  /** Other sends carry other texts, and a served history shows each message at most once. */
  ghost predicate Distinguished(steps: seq<Step>, text: string) {
    forall i :: 0 <= i < |steps| ==>
      && (steps[i].SendEnd? ==> steps[i].text != text)
      && Occurrences(HistoryTexts(HistoryOf(steps[i])), text) <= 1
  }

  /** The last step that disturbed the chat gave it a history that shows the text. */
  ghost predicate ShownByHistory(c: Core, steps: seq<Step>, key: string, text: string)
    requires Sound(c)
  {
    |steps| > 0 &&
    (var before, step := steps[..|steps| - 1], steps[|steps| - 1];
     if Disturbs(step, key) then
       && text in HistoryTexts(HistoryOf(step))
       && (step.Open? || key in RunSteps(c, before).sessions)
     else ShownByHistory(c, before, key, text))
  }

  lemma OtherSendRows(c: Core, step: Step, key: string, text: string)
    requires Sound(c) && step.SendEnd? && step.text != text
    ensures RowsOf(Do(c, step).core, key, text) == RowsOf(c, key, text)
  {
    ReducerStepIs(c, step);
    if Operation(c, step).Some? {
      OnSessionRows(c, step.key, Operation(c, step).value, "", key, text);
    }
  }

  lemma StaysOpenIff(c: Core, step: Step, key: string)
    requires Sound(c) && Disturbs(step, key)
    ensures key in Do(c, step).core.sessions <==> step.Open? || (step.Rebuild? && key in c.sessions)
  {
  }

  /** What a run leaves of the text: what was there if nothing disturbed the chat, or else what the
      history that last did shows. */
  lemma {:induction false} RowsAreTheHistorys(c: Core, steps: seq<Step>, key: string, text: string)
    requires Sound(c) && Distinguished(steps, text)
    ensures RowsOf(RunSteps(c, steps), key, text)
         == if Undisturbed(steps, key) then RowsOf(c, key, text)
            else if ShownByHistory(c, steps, key, text) then 1 else 0
  {
    hide UserRows, Occurrences, Undisturbed, WellFormed, HistoryTexts;
    if |steps| > 0 {
      var before, step := steps[..|steps| - 1], steps[|steps| - 1];
      RowsAreTheHistorys(c, before, key, text);
      UndisturbedSnoc(steps, key);
      assert step == steps[|steps| - 1];
      StepLeaves(RunSteps(c, before), step, key, text);
    } else {
      assert Undisturbed(steps, key) by { NothingDisturbs(key); }
    }
  }

  lemma NothingDisturbs(key: string)
    ensures Undisturbed([], key)
  {
  }

  lemma StepLeaves(now: Core, step: Step, key: string, text: string)
    requires Sound(now) && Distinguished([step], text)
    ensures RowsOf(Do(now, step).core, key, text)
         == if !Disturbs(step, key) then RowsOf(now, key, text)
            else if text in HistoryTexts(HistoryOf(step)) && (step.Open? || key in now.sessions) then 1 else 0
  {
    hide UserRows, WellFormed, Do;
    assert step == [step][0] && HistoryTexts([]) == [];
    if step.SendEnd? {
      OtherSendRows(now, step, key, text);
    } else {
      StepRows(now, step, key, text);
      OccursOrNot(HistoryTexts(HistoryOf(step)), text);
      if Disturbs(step, key) {
        StaysOpenIff(now, step, key);
      }
    }
  }

  /** A new message, submitted into an open chat and accepted after any interleaving, is on the chat
      exactly once if and only if nothing disturbed the chat meanwhile, or the history that last did
      shows the message; otherwise it is not on the chat at all. */
  lemma AcceptedSendShowsOnceIff(c: Core, steps: seq<Step>, key: string, text: string)
    requires Sound(c) && EpochsFresh(c) && key in c.sessions
    requires Distinguished(steps, text) && RowsOf(c, key, text) == 0
    ensures var after := FinishSend(RunSteps(c, steps), key, text, c.sessions[key].historyEpoch).core;
            && Sound(after)
            && RowsOf(after, key, text)
               == if Undisturbed(steps, key) || ShownByHistory(c, steps, key, text) then 1 else 0
  {
    hide WellFormed, UserRows, FinishSend, Undisturbed, Distinguished;
    RowsAreTheHistorys(c, steps, key, text);
    EpochTellsIncarnation(c, steps, key);
    FinishRows(RunSteps(c, steps), key, text, c.sessions[key].historyEpoch);
  }

  /** Finishing adds one row of the text if the epoch still stands, and none otherwise. */
  lemma FinishRows(now: Core, key: string, text: string, epoch: nat)
    requires Sound(now)
    ensures var after := FinishSend(now, key, text, epoch).core;
            && Sound(after)
            && RowsOf(after, key, text) == RowsOf(now, key, text) + if EpochOf(now, key) == Some(epoch) then 1 else 0
  {
    hide WellFormed, UserRows;
    DoSound(now, SendEnd(key, text, epoch));
    if EpochOf(now, key) == Some(epoch) {
      OnSessionRows(now, key, AppendUser(text), "", key, text);
    }
  }

  /** And from then on, whatever follows: it is there once if and only if it was and nothing disturbed
      the chat since, or the history that last did shows it; otherwise not at all. */
  lemma AcceptedSendLastsIff(c: Core, steps: seq<Step>, later: seq<Step>, key: string, text: string)
    requires Sound(c) && EpochsFresh(c) && key in c.sessions
    requires Distinguished(steps, text) && Distinguished(later, text) && RowsOf(c, key, text) == 0
    ensures var after := FinishSend(RunSteps(c, steps), key, text, c.sessions[key].historyEpoch).core;
            && Sound(after)
            && RowsOf(RunSteps(after, later), key, text)
               == var shown := if Undisturbed(later, key)
                               then Undisturbed(steps, key) || ShownByHistory(c, steps, key, text)
                               else ShownByHistory(after, later, key, text);
                  if shown then 1 else 0
  {
    hide UserRows, WellFormed, Undisturbed, Distinguished;
    AcceptedSendShowsOnceIff(c, steps, key, text);
    var after := FinishSend(RunSteps(c, steps), key, text, c.sessions[key].historyEpoch).core;
    RowsAreTheHistorys(after, later, key, text);
  }

  /** So an accepted message is lost to a rebuild whose history was read before the submit, and which
      lands after the row was appended. */
  lemma LateHistoryLosesTheSend(
    c: Core, steps: seq<Step>, key: string, text: string, stale: seq<ResumeMessage>, replayEpoch: Option<string>)
    requires Sound(c) && EpochsFresh(c) && key in c.sessions && RowsOf(c, key, text) == 0
    requires Distinguished(steps, text) && Undisturbed(steps, key) && text !in HistoryTexts(stale)
    ensures var after := FinishSend(RunSteps(c, steps), key, text, c.sessions[key].historyEpoch).core;
            && Sound(after) && RowsOf(after, key, text) == 1
            && key in Do(after, Rebuild(key, stale, replayEpoch)).core.sessions
            && RowsOf(Do(after, Rebuild(key, stale, replayEpoch)).core, key, text) == 0
  {
    hide UserRows, WellFormed;
    AcceptedSendShowsOnceIff(c, steps, key, text);
    var after := FinishSend(RunSteps(c, steps), key, text, c.sessions[key].historyEpoch).core;
    OccursOrNot(HistoryTexts(stale), text);
    StepRows(after, Rebuild(key, stale, replayEpoch), key, text);
    StaysOpenIff(after, Rebuild(key, stale, replayEpoch), key);
  }
}
