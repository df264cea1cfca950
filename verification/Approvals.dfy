/** Cards that wait for an answer: answering them, and re-emitting pending ones after a (re)connect. */
module Approvals {
  import opened Transcript
  import opened ReducerSpec
  import opened ReducerInvariants
  import opened RowContent
  import opened Replica
  import opened Registry
  import opened CoreSpec
  import opened ResumeSpec
  import opened Routing

  /** The row a re-emitted card becomes. */
  function CardRow(requestId: string, card: ApprovalFields): RowKind {
    Approval(ApprovalCard(requestId, card.command, card.description, card.choices, false))
  }

  lemma ReemitWhenWanted(c: Core, key: string, requestId: string, card: Option<ApprovalFields>)
    requires Sound(c)
    ensures var e := ReemitCard(c, key, requestId, card);
            && (!CardWanted(c, key, requestId, card) ==> e == Effect(c, []))
            && (CardWanted(c, key, requestId, card) ==>
                  && key in e.core.sessions
                  && var rows := c.sessions[key].reducer.rows;
                     var row := CardRow(requestId, card.value);
                  && e.core.sessions[key].reducer.rows == rows + [Row(|rows|, row)]
                  && e.dtos == [Dto(key, Appended, ClampU32(|rows|), JsonOf(row), "")])
  {
  }

  /** The card can be answered, its chat is open, this tab did not re-emit it before, and no approval row
      with its id waits for an answer. */
  ghost predicate Missing(c: Core, key: string, requestId: string, card: Option<ApprovalFields>) {
    && requestId != "" && key != "" && card.Some? && key in c.sessions
    && (key in c.emittedApprovals ==> requestId !in c.emittedApprovals[key])
    && forall i :: 0 <= i < |c.sessions[key].reducer.rows| ==>
         !Waits(c.sessions[key].reducer.rows[i].kind, requestId, false)
  }

  lemma MissingIsWanted(c: Core, key: string, requestId: string, card: Option<ApprovalFields>)
    ensures CardWanted(c, key, requestId, card) <==> Missing(c, key, requestId, card)
  {
    if key in c.sessions {
      var rows := c.sessions[key].reducer.rows;
      forall i | 0 <= i < |rows|
        ensures Waits(rows[i].kind, requestId, false) <==> Matches(OpenApproval(requestId), rows[i].kind)
      {
        WaitsIsMatches(rows[i].kind, requestId, false);
      }
    }
  }

  /** A pending card is delivered if and only if it is missing: it has an id, its chat is open, this tab
      did not re-emit it before, and no unresolved card with that id is on the transcript. Then it is
      appended open, delivered as that row and noted; otherwise nothing happens. */
  lemma ReemitIffMissing(c: Core, key: string, requestId: string, card: Option<ApprovalFields>)
    requires Sound(c)
    ensures var e := ReemitCard(c, key, requestId, card);
            && (e.dtos != [] <==> Missing(c, key, requestId, card))
            && (e.dtos == [] ==> e.core == c)
            && (e.dtos != [] ==>
                  && key in e.core.sessions
                  && var rows := c.sessions[key].reducer.rows;
                     var row := CardRow(requestId, card.value);
                  && e.core.sessions[key].reducer.rows == rows + [Row(|rows|, row)]
                  && e.dtos == [Dto(key, Appended, ClampU32(|rows|), JsonOf(row), "")]
                  && key in e.core.emittedApprovals && requestId in e.core.emittedApprovals[key])
  {
    hide CardWanted, Missing;
    MissingIsWanted(c, key, requestId, card);
    ReemitWhenWanted(c, key, requestId, card);
    if CardWanted(c, key, requestId, card) {
      ReemittedIsSettled(c, key, requestId, card);
    }
  }

  lemma ReemittedIsSettled(c: Core, key: string, requestId: string, card: Option<ApprovalFields>)
    requires Sound(c) && CardWanted(c, key, requestId, card)
    ensures AlreadyEmitted(ReemitCard(c, key, requestId, card).core, key, requestId)
  {
  }

  /** A re-emission adds one waiting card where there was none, and no other: where at most one card of an
      id waited, at most one does. */
  lemma ReemitKeepsOneWaiting(c: Core, key: string, requestId: string, card: Option<ApprovalFields>, id: string)
    requires Sound(c) && key in c.sessions
    ensures var e := ReemitCard(c, key, requestId, card);
            key in e.core.sessions
            && var before, after := WaitingCount(c.sessions[key].reducer.rows, id, false),
                                    WaitingCount(e.core.sessions[key].reducer.rows, id, false);
               && after == (if e.dtos != [] && id == requestId then 1 else before)
               && (before <= 1 ==> after <= 1)
  {
    hide ReemitCard;
    ReemitIffMissing(c, key, requestId, card);
    if Missing(c, key, requestId, card) {
      var rows := c.sessions[key].reducer.rows;
      WaitingNone(rows, requestId, false);
      WaitingSnoc(rows, Row(|rows|, CardRow(requestId, card.value)), id, false);
    }
  }

  // ── Answering ─────────────────────────────────────────────────────────

  function AnswerQuery(id: string, question: bool): Query {
    if question then OpenClarify(id) else OpenApproval(id)
  }

  lemma AnswerIsPerformed(c: Core, key: string, id: string, question: bool)
    requires Sound(c) && key in c.sessions
    ensures Do(c, Resolve(key, AnswerQuery(id, question))) == OnSession(c, key, AnswerTo(id, question), "")
  {
  }

  /** Once the gateway took the answer, the first card that waits under the id is resolved, that row alone
      changes, and just it is delivered as updated; without one, or with the chat closed, nothing happens. */
  lemma AnswerReachesTheCard(c: Core, key: string, id: string, question: bool, i: nat)
    requires Sound(c)
    ensures var e := Do(c, Resolve(key, AnswerQuery(id, question)));
            && (key !in c.sessions ==> e == Effect(c, []))
            && (key in c.sessions ==>
                  && key in e.core.sessions
                  && var rows, after := c.sessions[key].reducer.rows, e.core.sessions[key].reducer.rows;
                     && (FirstWaiting(rows, id, question, i) ==>
                           && |after| == |rows| && AnswerOf(rows[i].kind, after[i].kind)
                           && after == rows[i := Row(rows[i].index, after[i].kind)]
                           && e.dtos == [Dto(key, Updated, ClampU32(i), JsonOf(after[i].kind), "")])
                     && ((forall j :: 0 <= j < |rows| ==> !Waits(rows[j].kind, id, question)) ==> e == Effect(c, [])))
  {
    if key in c.sessions {
      hide Perform, Waits, AnswerOf, WellFormed;
      AnswerIsPerformed(c, key, id, question);
      var s := c.sessions[key].reducer;
      WellFormedInBounds(s);
      AnswerResolves(s, key, id, question, i);
      if Perform(s, key, AnswerTo(id, question)) == Outcome(s, []) {
        assert c.sessions[key := c.sessions[key].(reducer := s)] == c.sessions;
      }
    }
  }

  /** So one card fewer waits under that id, if any did, and every other id and kind is as it was. */
  lemma AnswerTakesOneCard(c: Core, key: string, id: string, question: bool, other: string, kind: bool)
    requires Sound(c) && key in c.sessions
    ensures var e := Do(c, Resolve(key, AnswerQuery(id, question)));
            var waiting := WaitingCount(c.sessions[key].reducer.rows, other, kind);
            && key in e.core.sessions
            && WaitingCount(e.core.sessions[key].reducer.rows, other, kind)
               == if other == id && kind == question && waiting > 0 then waiting - 1 else waiting
  {
    hide Perform, WellFormed;
    AnswerIsPerformed(c, key, id, question);
    WellFormedInBounds(c.sessions[key].reducer);
    AnswerTakesOne(c.sessions[key].reducer, key, id, question, other, kind);
  }

  // ── What a tab remembers ──────────────────────────────────────────────

  /** The step makes the core forget what it re-emitted for the chat. */
  predicate Forgets(step: Step, key: string) {
    step.Clear? || (step.CloseTab? && step.key == key)
  }

  /** Nothing but closing or clearing the tab forgets that a card was re-emitted. */
  lemma StepKeepsEmitted(c: Core, step: Step, key: string, requestId: string)
    requires Sound(c) && AlreadyEmitted(c, key, requestId) && !Forgets(step, key)
    ensures AlreadyEmitted(Do(c, step).core, key, requestId)
  {
    if Target(c, step) != Some(key) {
      OthersUntouched(c, step, key);
    } else if step.Reemit? {
      ReemitWhenWanted(c, key, step.requestId, step.card);
    }
  }

  /** The step delivers this card of the chat from a pending list. */
  ghost predicate Reemits(c: Core, step: Step, key: string, requestId: string)
    requires Sound(c)
  {
    step.Reemit? && step.key == key && step.requestId == requestId && Do(c, step).dtos != []
  }

  /** Exactly how a step moves what the tab remembers. */
  lemma StepRemembers(c: Core, step: Step, key: string, requestId: string)
    requires Sound(c)
    ensures AlreadyEmitted(Do(c, step).core, key, requestId)
       <==> Reemits(c, step, key, requestId) || (AlreadyEmitted(c, key, requestId) && !Forgets(step, key))
  {
    if AlreadyEmitted(c, key, requestId) && !Forgets(step, key) {
      StepKeepsEmitted(c, step, key, requestId);
    } else if Target(c, step) != Some(key) && !step.Clear? {
      OthersUntouched(c, step, key);
    } else if step.Reemit? {
      ReemitWhenWanted(c, key, step.requestId, step.card);
    }
  }

  /** Step `i` re-emitted the card, and no step since made the core forget. */
  ghost predicate RemembersFrom(known: Tabs, steps: seq<Step>, key: string, requestId: string, i: nat) {
    && i < |steps| && Reemits(RunSteps(NewCore(known), steps[..i]), steps[i], key, requestId)
    && forall j :: i < j < |steps| ==> !Forgets(steps[j], key)
  }

  ghost predicate Remembers(known: Tabs, steps: seq<Step>, key: string, requestId: string) {
    exists i :: RemembersFrom(known, steps, key, requestId, i)
  }

  lemma RemembersSnoc(known: Tabs, steps: seq<Step>, key: string, requestId: string)
    requires |steps| > 0
    ensures var before, step := steps[..|steps| - 1], steps[|steps| - 1];
            Remembers(known, steps, key, requestId)
            <==> || Reemits(RunSteps(NewCore(known), before), step, key, requestId)
                 || (Remembers(known, before, key, requestId) && !Forgets(step, key))
  {
    hide Reemits, Forgets, RunSteps;
    var before, n := steps[..|steps| - 1], |steps| - 1;
    assert forall i :: 0 <= i < n ==> before[..i] == steps[..i] && before[i] == steps[i];
    if i: nat :| RemembersFrom(known, steps, key, requestId, i) {
      assert i < n ==> RemembersFrom(known, before, key, requestId, i);
    }
    if Reemits(RunSteps(NewCore(known), before), steps[n], key, requestId) {
      assert RemembersFrom(known, steps, key, requestId, n);
    }
    if i: nat :| RemembersFrom(known, before, key, requestId, i) {
      assert !Forgets(steps[n], key) ==> RemembersFrom(known, steps, key, requestId, i);
    }
  }

  /** In every reachable state an id is noted for a chat if and only if it was re-emitted there since the
      chat was last closed or everything was cleared. */
  lemma {:induction false} RemembersIff(known: Tabs, steps: seq<Step>, key: string, requestId: string)
    ensures AlreadyEmitted(RunSteps(NewCore(known), steps), key, requestId)
       <==> Remembers(known, steps, key, requestId)
  {
    if |steps| > 0 {
      hide Remembers, Reemits, Forgets, AlreadyEmitted;
      RemembersIff(known, steps[..|steps| - 1], key, requestId);
      RemembersSnoc(known, steps, key, requestId);
      StepRemembers(RunSteps(NewCore(known), steps[..|steps| - 1]), steps[|steps| - 1], key, requestId);
    }
  }

  /** So a card that still pends comes back once its tab was closed and opened again, from any history. */
  lemma ComesBackAfterClose(
    c: Core, key: string, sid: string, messages: seq<ResumeMessage>, cols: int, profile: string,
    requestId: string, card: ApprovalFields)
    requires Sound(c) && key != "" && requestId != ""
    ensures var reopened := Do(CloseSession(c, key).core, Open(key, sid, messages, cols, profile)).core;
            Sound(reopened) && ReemitCard(reopened, key, requestId, Some(card)).dtos != []
  {
    hide IngestMessages;
    var closed := CloseSession(c, key).core;
    DoSound(closed, Open(key, sid, messages, cols, profile));
    var reopened := Do(closed, Open(key, sid, messages, cols, profile)).core;
    NoApprovalOnOpen(messages);
    ReemitIffMissing(reopened, key, requestId, Some(card));
  }

  lemma NoApprovalOnOpen(messages: seq<ResumeMessage>)
    ensures forall i :: 0 <= i < |OpenedReducer(messages).state.rows| ==>
              !OpenedReducer(messages).state.rows[i].kind.Approval?
  {
    NoApprovalInHistory(messages);
  }

  /** How often a run re-emits the card `requestId` of `key`. */
  ghost function Reemissions(c: Core, steps: seq<Step>, key: string, requestId: string): nat
    requires Sound(c)
  {
    if |steps| == 0 then 0
    else
      var before, step := steps[..|steps| - 1], steps[|steps| - 1];
      Reemissions(c, before, key, requestId) + if Reemits(RunSteps(c, before), step, key, requestId) then 1 else 0
  }

  /** Over any run that does not close the tab, with any pending lists, rebuilds, re-opens and answers
      in between, each request id is re-emitted at most once, and not at all if it already was. */
  lemma {:induction false} AtMostOnceWhileOpen(c: Core, steps: seq<Step>, key: string, requestId: string)
    requires Sound(c)
    requires forall i :: 0 <= i < |steps| ==> !Forgets(steps[i], key)
    ensures Reemissions(c, steps, key, requestId) <= 1
    ensures AlreadyEmitted(c, key, requestId) ==> Reemissions(c, steps, key, requestId) == 0
    ensures AlreadyEmitted(c, key, requestId) || Reemissions(c, steps, key, requestId) == 1 ==>
              AlreadyEmitted(RunSteps(c, steps), key, requestId)
  {
    if |steps| > 0 {
      var before, step := steps[..|steps| - 1], steps[|steps| - 1];
      AtMostOnceWhileOpen(c, before, key, requestId);
      var now := RunSteps(c, before);
      if AlreadyEmitted(now, key, requestId) {
        StepKeepsEmitted(now, step, key, requestId);
      }
      if step.Reemit? && step.key == key && step.requestId == requestId {
        ReemitWhenWanted(now, key, requestId, step.card);
        if CardWanted(now, key, requestId, step.card) {
          ReemittedIsSettled(now, key, requestId, step.card);
        }
      }
    }
  }

  // ── A repeated round is a no-op ───────────────────────────────────────

  /** An unwanted card stays unwanted while other cards are re-emitted. */
  lemma UnwantedStays(c: Core, key: string, p: PendingCard, q: PendingCard)
    requires Sound(c) && !CardWanted(c, key, p.requestId, p.card)
    ensures !CardWanted(ReemitCard(c, key, q.requestId, q.card).core, key, p.requestId, p.card)
  {
    if CardWanted(c, key, q.requestId, q.card) {
      ReemitWhenWanted(c, key, q.requestId, q.card);
      var e := ReemitCard(c, key, q.requestId, q.card);
      if HasUnresolvedApproval(c.sessions[key].reducer, p.requestId) {
        var i :| 0 <= i < |c.sessions[key].reducer.rows|
                 && Matches(OpenApproval(p.requestId), c.sessions[key].reducer.rows[i].kind);
        assert Matches(OpenApproval(p.requestId), e.core.sessions[key].reducer.rows[i].kind);
      }
    }
  }

  lemma ReemittedIsUnwanted(c: Core, key: string, p: PendingCard)
    requires Sound(c)
    ensures !CardWanted(ReemitCard(c, key, p.requestId, p.card).core, key, p.requestId, p.card)
  {
    if CardWanted(c, key, p.requestId, p.card) {
      ReemittedIsSettled(c, key, p.requestId, p.card);
    }
  }

  lemma RoundSnoc(c: Core, key: string, cards: seq<PendingCard>)
    requires Sound(c) && cards != []
    ensures var before, p := ReemitRound(c, key, cards[..|cards| - 1]).core, cards[|cards| - 1];
            ReemitRound(c, key, cards).core == ReemitCard(before, key, p.requestId, p.card).core
  {
  }

  lemma {:induction false} RoundLeavesNoneWanted(c: Core, key: string, cards: seq<PendingCard>, i: nat)
    requires Sound(c) && i < |cards|
    ensures !CardWanted(ReemitRound(c, key, cards).core, key, cards[i].requestId, cards[i].card)
  {
    var n := |cards| - 1;
    var before := ReemitRound(c, key, cards[..n]).core;
    RoundSnoc(c, key, cards);
    if i < n {
      RoundLeavesNoneWanted(c, key, cards[..n], i);
      UnwantedStays(before, key, cards[i], cards[n]);
    } else {
      ReemittedIsUnwanted(before, key, cards[n]);
    }
  }

  lemma {:induction false} UnwantedRoundDoesNothing(c: Core, key: string, cards: seq<PendingCard>)
    requires Sound(c)
    requires forall i :: 0 <= i < |cards| ==> !CardWanted(c, key, cards[i].requestId, cards[i].card)
    ensures ReemitRound(c, key, cards) == Effect(c, [])
  {
    if |cards| > 0 {
      UnwantedRoundDoesNothing(c, key, cards[..|cards| - 1]);
    }
  }

  /** Running the same round again changes nothing and delivers nothing. */
  lemma RoundIsIdempotent(c: Core, key: string, cards: seq<PendingCard>)
    requires Sound(c)
    ensures var once := ReemitRound(c, key, cards).core;
            ReemitRound(once, key, cards) == Effect(once, [])
  {
    var once := ReemitRound(c, key, cards).core;
    forall i | 0 <= i < |cards| ensures !CardWanted(once, key, cards[i].requestId, cards[i].card) {
      RoundLeavesNoneWanted(c, key, cards, i);
    }
    UnwantedRoundDoesNothing(once, key, cards);
  }

  /** A rebuild drops the card from the transcript but not from the emitted list, so a card that was
      re-emitted once never comes back to the rebuilt transcript, still unanswered or not. */
  lemma RebuildLosesTheCard(
    c: Core, key: string, requestId: string, card: ApprovalFields,
    messages: seq<ResumeMessage>, replayEpoch: Option<string>)
    requires Sound(c) && CardWanted(c, key, requestId, Some(card))
    ensures var shown := ReemitCard(c, key, requestId, Some(card)).core;
            var rebuilt := RebuildSession(shown, key, messages, replayEpoch).core;
            && Sound(rebuilt) && key in rebuilt.sessions
            && !HasUnresolvedApproval(rebuilt.sessions[key].reducer, requestId)
            && ReemitCard(rebuilt, key, requestId, Some(card)) == Effect(rebuilt, [])
  {
    var shown := ReemitCard(c, key, requestId, Some(card)).core;
    ReemitSound(c, key, requestId, Some(card));
    RebuildSound(shown, key, messages, replayEpoch);
    NoApprovalInHistory(messages);
  }

  /** After a rebuild a pending card comes back if and only if this tab never re-emitted it. */
  lemma ComesBackIffNeverEmitted(
    c: Core, key: string, requestId: string, card: ApprovalFields,
    messages: seq<ResumeMessage>, replayEpoch: Option<string>)
    requires Sound(c) && key in c.sessions && key != "" && requestId != ""
    ensures var rebuilt := RebuildSession(c, key, messages, replayEpoch).core;
            Sound(rebuilt)
            && (ReemitCard(rebuilt, key, requestId, Some(card)).dtos != [] <==> !AlreadyEmitted(c, key, requestId))
  {
    var rebuilt := RebuildSession(c, key, messages, replayEpoch).core;
    RebuildSound(c, key, messages, replayEpoch);
    NoApprovalInHistory(messages);
    ReemitWhenWanted(rebuilt, key, requestId, Some(card));
  }

  lemma {:induction false} NoApprovalInHistory(messages: seq<ResumeMessage>)
    ensures forall i :: 0 <= i < |IngestRows(messages).state.rows| ==>
              !IngestRows(messages).state.rows[i].kind.Approval?
  {
    if |messages| > 0 {
      NoApprovalInHistory(messages[..|messages| - 1]);
    }
  }
}
