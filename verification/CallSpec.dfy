/** The JSON-RPC client's call table and close state, one lock-held section or poll at a time. */
module CallSpec {
  import opened Transcript

  /** Request ids: `r` and a number for calls, `heartbeat-` and a number for pings, or anything else a
      peer may send. */
  datatype WireId = CallId(n: nat) | HeartbeatId(beat: nat) | ForeignId(text: string)

  datatype CallOutcome =
    | Returned(value: string)
    | RpcFailed(code: int, detail: string)
    | ClosedWith(reason: string)
    | WriterGone
    | ConnectionLost
    | TimedOut

  /** Where the caller is: past the closed check, registered, waiting, giving up, or back. */
  datatype Phase = Checked | Registered | Waiting | GivingUp | Done(outcome: CallOutcome)

  /** A call and the slot its reply is sent through; a slot is filled at most once. */
  datatype Call = Call(phase: Phase, slot: Option<CallOutcome>)

  datatype Connection = Connecting | Open | Closed(reason: string)

  datatype Table = Table(
    connection: Connection,
    /** `connect` has returned, so nobody marks the connection open any more. */
    connected: bool,
    nextId: nat,
    pending: map<WireId, nat>,
    calls: map<nat, Call>,
    lastSeq: map<string, int>)

  const NEW_TABLE := Table(Connecting, false, 1, map[], map[], map[])

  datatype Step =
    | Begin
    | Register(call: nat)
    | Queue(call: nat, writerAlive: bool)
    | Poll(call: nat)
    | Expire(call: nat)
    | Forget(call: nat)
    | Reply(id: WireId, answer: CallOutcome)
    | CloseTerminal(reason: string)
    | FailPending(reason: string)
    | MarkOpen
    | ConnectReturns
    | Event(sessionId: string, seqNo: int)

  predicate InPhase(t: Table, n: nat, phase: Phase) {
    n in t.calls && t.calls[n].phase == phase
  }

  /** The caller comes back with this outcome; its pending entry, if any, is not touched. */
  function Back(t: Table, n: nat, outcome: CallOutcome): Table
    requires n in t.calls
  {
    t.(calls := t.calls[n := t.calls[n].(phase := Done(outcome))])
  }

  /** The caller takes its pending entry out before it comes back. */
  function Withdrawn(t: Table, n: nat): Table {
    t.(pending := t.pending - {CallId(n)})
  }

  function Filled(call: Call, outcome: CallOutcome): Call {
    if call.slot.Some? then call else call.(slot := Some(outcome))
  }

  /** Send `outcome` through the slots of these calls. */
  function FillAll(calls: map<nat, Call>, which: set<nat>, outcome: CallOutcome): map<nat, Call> {
    map n | n in calls :: if n in which then Filled(calls[n], outcome) else calls[n]
  }

  function OnBegin(t: Table): Table {
    if t.connection.Closed? then t
    else t.(nextId := t.nextId + 1, calls := t.calls[t.nextId := Call(Checked, None)])
  }

  function OnRegister(t: Table, n: nat): Table {
    if !InPhase(t, n, Checked) then t
    else t.(pending := t.pending[CallId(n) := n], calls := t.calls[n := t.calls[n].(phase := Registered)])
  }

  function OnQueue(t: Table, n: nat, writerAlive: bool): Table {
    if !InPhase(t, n, Registered) then t
    else if !writerAlive then Back(Withdrawn(t, n), n, WriterGone)
    else t.(calls := t.calls[n := t.calls[n].(phase := Waiting)])
  }

  /** The waiting caller looks at its slot; with nothing in it and its sender gone, the call is lost. */
  function OnPoll(t: Table, n: nat): Table {
    if !InPhase(t, n, Waiting) then t
    else if t.calls[n].slot.Some? then Back(t, n, t.calls[n].slot.value)
    else if CallId(n) !in t.pending then Back(t, n, ConnectionLost)
    else t
  }

  /** The deadline has passed and the slot is still empty. */
  function OnExpire(t: Table, n: nat): Table {
    if !InPhase(t, n, Waiting) || t.calls[n].slot.Some? || CallId(n) !in t.pending then t
    else t.(calls := t.calls[n := t.calls[n].(phase := GivingUp)])
  }

  function OnForget(t: Table, n: nat): Table {
    if !InPhase(t, n, GivingUp) then t else Back(Withdrawn(t, n), n, TimedOut)
  }

  function OnReply(t: Table, id: WireId, answer: CallOutcome): Table {
    if id !in t.pending then t
    else t.(pending := t.pending - {id}, calls := FillAll(t.calls, {t.pending[id]}, answer))
  }

  function OnCloseTerminal(t: Table, reason: string): Table {
    if t.connection.Closed? then t else t.(connection := Closed(reason))
  }

  function OnFailPending(t: Table, reason: string): Table {
    t.(pending := map[], calls := FillAll(t.calls, t.pending.Values, ClosedWith(reason)))
  }

  function SeqOf(lastSeq: map<string, int>, sessionId: string): int {
    if sessionId in lastSeq then lastSeq[sessionId] else 0
  }

  function OnEvent(t: Table, sessionId: string, seqNo: int): Table {
    if sessionId == "" then t
    else
      var slot := SeqOf(t.lastSeq, sessionId);
      t.(lastSeq := t.lastSeq[sessionId := if seqNo > slot then seqNo else slot])
  }

  function Do(t: Table, step: Step): Table {
    match step
    case Begin => OnBegin(t)
    case Register(n) => OnRegister(t, n)
    case Queue(n, alive) => OnQueue(t, n, alive)
    case Poll(n) => OnPoll(t, n)
    case Expire(n) => OnExpire(t, n)
    case Forget(n) => OnForget(t, n)
    case Reply(id, answer) => OnReply(t, id, answer)
    case CloseTerminal(reason) => OnCloseTerminal(t, reason)
    case FailPending(reason) => OnFailPending(t, reason)
    case MarkOpen => t.(connection := Open)
    case ConnectReturns => t.(connected := true)
    case Event(sid, seqNo) => OnEvent(t, sid, seqNo)
  }

  /** Only `connect` marks the connection open. */
  predicate Allowed(t: Table, step: Step) {
    step.MarkOpen? ==> !t.connected
  }

  function Run(t: Table, steps: seq<Step>): Table {
    if |steps| == 0 then t else Do(Run(t, steps[..|steps| - 1]), steps[|steps| - 1])
  }
}

/** What the call table keeps over every interleaving. */
module CallProperties {
  import opened Transcript
  import opened CallSpec

  /** A pending entry is the id of its own call, which has not come back and has heard nothing. */
  ghost predicate EntryHolds(t: Table, id: WireId) {
    id in t.pending ==>
      var n := t.pending[id];
      && id == CallId(n) && n in t.calls && t.calls[n].slot.None?
      && (t.calls[n].phase.Registered? || t.calls[n].phase.Waiting? || t.calls[n].phase.GivingUp?)
  }

  /** A call has a number that was given out; until it is registered its slot is empty; while it waits it
      is pending or its slot is filled; once back it is no longer pending, and was never lost. */
  ghost predicate CallHolds(t: Table, n: nat) {
    n in t.calls ==>
      && n < t.nextId
      && (t.calls[n].phase.Checked? ==> t.calls[n].slot.None?)
      && (t.calls[n].phase.Checked? || t.calls[n].phase.Done? ==> CallId(n) !in t.pending)
      && (t.calls[n].phase.Registered? || t.calls[n].phase.Waiting? ==>
            CallId(n) in t.pending || t.calls[n].slot.Some?)
      && t.calls[n].phase != Done(ConnectionLost)
      && t.calls[n].slot != Some(ConnectionLost)
  }

  ghost predicate TableHolds(t: Table) {
    (forall id :: EntryHolds(t, id)) && (forall n: nat :: CallHolds(t, n))
  }

  /** Answers on the wire are results or errors. */
  predicate WireAnswer(step: Step) {
    step.Reply? ==> step.answer.Returned? || step.answer.RpcFailed?
  }

  lemma PendingValues(t: Table, n: nat)
    requires TableHolds(t)
    ensures n in t.pending.Values <==> CallId(n) in t.pending
  {
    if n in t.pending.Values {
      var id :| id in t.pending && t.pending[id] == n;
      assert EntryHolds(t, id);
    }
    if CallId(n) in t.pending {
      assert EntryHolds(t, CallId(n)) && t.pending[CallId(n)] in t.pending.Values;
    }
  }

  lemma StepEntryHolds(t: Table, step: Step, id: WireId)
    requires TableHolds(t) && WireAnswer(step)
    ensures EntryHolds(Do(t, step), id)
  {
    assert EntryHolds(t, id);
    var t' := Do(t, step);
    if id in t'.pending && id in t.pending {
      var n := t.pending[id];
      assert CallHolds(t, n);
      if step.Begin? {
        assert n < t.nextId;
      } else if step.Reply? && step.id in t.pending {
        assert EntryHolds(t, step.id);
      }
    } else if id in t'.pending {
      assert step.Register? && id == CallId(step.call);
      assert CallHolds(t, step.call);
    }
  }

  lemma StepCallHolds(t: Table, step: Step, n: nat)
    requires TableHolds(t) && WireAnswer(step)
    ensures CallHolds(Do(t, step), n)
  {
    assert CallHolds(t, n) && EntryHolds(t, CallId(n));
    match step
    case Begin => assert EntryHolds(t, CallId(t.nextId));
    case Reply(id, _) => assert EntryHolds(t, id);
    case FailPending(_) => PendingValues(t, n);
    case _ =>
  }

  lemma StepHolds(t: Table, step: Step)
    requires TableHolds(t) && WireAnswer(step)
    ensures TableHolds(Do(t, step))
  {
    forall id ensures EntryHolds(Do(t, step), id) {
      StepEntryHolds(t, step, id);
    }
    forall n: nat ensures CallHolds(Do(t, step), n) {
      StepCallHolds(t, step, n);
    }
  }

  ghost predicate Wire(steps: seq<Step>) {
    forall i :: 0 <= i < |steps| ==> WireAnswer(steps[i])
  }

  /** Over every interleaving: a call that has come back leaves no pending entry, a waiting call is
      pending or answered, and no call is ever lost without a word. */
  lemma {:induction false} RunHolds(steps: seq<Step>)
    requires Wire(steps)
    ensures TableHolds(Run(NEW_TABLE, steps))
  {
    if |steps| > 0 {
      RunHolds(steps[..|steps| - 1]);
      StepHolds(Run(NEW_TABLE, steps[..|steps| - 1]), steps[|steps| - 1]);
    }
  }

  // ── Replies find their own call ───────────────────────────────────────

  /** In any reachable state a reply fills the slot of the one pending call whose id it carries; every
      other call, and every late, repeated or unknown id, leaves the table as it is. */
  lemma ReplyReachesOnlyItsCall(steps: seq<Step>, id: WireId, answer: CallOutcome)
    requires Wire(steps)
    ensures var t := Run(NEW_TABLE, steps);
            var t' := Do(t, Reply(id, answer));
            && (id !in t.pending ==> t' == t)
            && (id in t.pending ==>
                  && id.CallId? && id.n in t.calls && t.calls[id.n].slot.None?
                  && t' == t.(pending := t.pending - {id},
                              calls := t.calls[id.n := t.calls[id.n].(slot := Some(answer))]))
            && (!id.CallId? ==> t' == t)
  {
    RunHolds(steps);
    var t := Run(NEW_TABLE, steps);
    assert EntryHolds(t, id);
    if id in t.pending {
      assert FillAll(t.calls, {id.n}, answer) == t.calls[id.n := t.calls[id.n].(slot := Some(answer))];
    }
  }

  /** A filled slot keeps its answer, and a call that is back keeps its outcome. */
  predicate Keeps(a: Call, b: Call) {
    && (a.slot.Some? ==> b.slot == a.slot)
    && (a.phase.Done? ==> b.phase == a.phase)
  }

  lemma StepKeepsAnswers(t: Table, step: Step, n: nat)
    requires TableHolds(t) && n in t.calls
    ensures n in Do(t, step).calls && Keeps(t.calls[n], Do(t, step).calls[n])
  {
    assert CallHolds(t, n);
  }

  lemma {:induction false} RunAfter(before: seq<Step>, steps: seq<Step>)
    ensures Run(NEW_TABLE, before + steps) == Run(Run(NEW_TABLE, before), steps)
  {
    if |steps| == 0 {
      assert before + steps == before;
    } else {
      RunAfter(before, steps[..|steps| - 1]);
      assert (before + steps)[..|before + steps| - 1] == before + steps[..|steps| - 1];
    }
  }

  /** Each call gets at most one outcome: once it is back, nothing that follows changes what it got. */
  lemma {:induction false} OneOutcomePerCall(before: seq<Step>, steps: seq<Step>, n: nat)
    requires Wire(before) && Wire(steps) && n in Run(NEW_TABLE, before).calls
    ensures n in Run(NEW_TABLE, before + steps).calls
    ensures Keeps(Run(NEW_TABLE, before).calls[n], Run(NEW_TABLE, before + steps).calls[n])
  {
    if |steps| == 0 {
      assert before + steps == before;
    } else {
      var init, last := steps[..|steps| - 1], steps[|steps| - 1];
      OneOutcomePerCall(before, init, n);
      assert before + steps == (before + init) + [last];
      assert ((before + init) + [last])[..|before + init|] == before + init;
      RunHolds(before + init);
      StepKeepsAnswers(Run(NEW_TABLE, before + init), last, n);
    }
  }

  /** A waiting call whose entry and sender were gone without an answer would come back as lost, and only
      such a one; in no reachable state is there any. */
  lemma LostIffUnanswered(t: Table, steps: seq<Step>, n: nat)
    requires Wire(steps) && InPhase(t, n, Waiting) && t.calls[n].slot.None?
    ensures InPhase(OnPoll(t, n), n, Done(ConnectionLost)) <==> CallId(n) !in t.pending
    ensures CallId(n) in t.pending ==> OnPoll(t, n) == t
    ensures t == Run(NEW_TABLE, steps) ==> CallId(n) in t.pending
  {
    RunHolds(steps);
    assert CallHolds(Run(NEW_TABLE, steps), n);
  }

  /** The step that gives the call `n` its answer: the reply with its id, or a close that drains it. */
  predicate Answers(t: Table, step: Step, n: nat, outcome: CallOutcome) {
    CallId(n) in t.pending && (step == Reply(CallId(n), outcome) || (step.FailPending? && outcome == ClosedWith(step.reason)))
  }

  ghost predicate AnsweredAt(steps: seq<Step>, n: nat, outcome: CallOutcome, i: int) {
    0 <= i < |steps| && Answers(Run(NEW_TABLE, steps[..i]), steps[i], n, outcome)
  }

  /** What a step must be to fill a slot. */
  lemma FilledByAnswer(t: Table, step: Step, n: nat)
    requires TableHolds(t) && n in Do(t, step).calls && Do(t, step).calls[n].slot.Some?
    ensures (n in t.calls && t.calls[n].slot == Do(t, step).calls[n].slot)
         || Answers(t, step, n, Do(t, step).calls[n].slot.value)
  {
    assert CallHolds(t, n) && EntryHolds(t, CallId(n));
    if step.Reply? && step.id in t.pending {
      assert EntryHolds(t, step.id);
    } else if step.FailPending? {
      PendingValues(t, n);
    }
  }

  /** Section 5 of the JSON-RPC 2.0 Specification: an answer belongs to the request with its id. Every
      filled slot was filled by a reply with that call's own id, or by a close, that found it pending. */
  lemma {:induction false} EveryAnswerHasItsCause(steps: seq<Step>, n: nat)
    requires Wire(steps)
    requires n in Run(NEW_TABLE, steps).calls && Run(NEW_TABLE, steps).calls[n].slot.Some?
    ensures exists i :: AnsweredAt(steps, n, Run(NEW_TABLE, steps).calls[n].slot.value, i)
  {
    if |steps| > 0 {
      var init, last := steps[..|steps| - 1], steps[|steps| - 1];
      var outcome := Run(NEW_TABLE, steps).calls[n].slot.value;
      RunHolds(init);
      FilledByAnswer(Run(NEW_TABLE, init), last, n);
      if Answers(Run(NEW_TABLE, init), last, n, outcome) {
        assert AnsweredAt(steps, n, outcome, |steps| - 1);
      } else {
        EveryAnswerHasItsCause(init, n);
        var i :| AnsweredAt(init, n, outcome, i);
        assert init[..i] == steps[..i] && init[i] == steps[i];
        assert AnsweredAt(steps, n, outcome, i);
      }
    }
  }

  /** What a caller came back with: what its slot held, a timeout, or the news that the writer is gone. */
  ghost predicate OutcomeFromSlot(t: Table, n: nat) {
    n in t.calls && t.calls[n].phase.Done? ==>
      var outcome := t.calls[n].phase.outcome;
      outcome == TimedOut || outcome == WriterGone || t.calls[n].slot == Some(outcome)
  }

  lemma StepOutcome(t: Table, step: Step, n: nat)
    requires TableHolds(t) && OutcomeFromSlot(t, n)
    ensures OutcomeFromSlot(Do(t, step), n)
  {
    assert CallHolds(t, n);
  }

  lemma {:induction false} OutcomesComeFromSlots(steps: seq<Step>, n: nat)
    requires Wire(steps)
    ensures OutcomeFromSlot(Run(NEW_TABLE, steps), n)
  {
    if |steps| > 0 {
      var init := steps[..|steps| - 1];
      OutcomesComeFromSlots(init, n);
      RunHolds(init);
      StepOutcome(Run(NEW_TABLE, init), steps[|steps| - 1], n);
    }
  }

  /** A call that returned a result got it from a reply with its own id, which found it pending. */
  lemma ResultsAreOwnReplies(steps: seq<Step>, n: nat, value: string)
    requires Wire(steps) && InPhase(Run(NEW_TABLE, steps), n, Done(Returned(value)))
    ensures exists i :: 0 <= i < |steps| && steps[i] == Reply(CallId(n), Returned(value))
                        && CallId(n) in Run(NEW_TABLE, steps[..i]).pending
  {
    OutcomesComeFromSlots(steps, n);
    EveryAnswerHasItsCause(steps, n);
    var i :| AnsweredAt(steps, n, Returned(value), i);
    assert steps[i] == Reply(CallId(n), Returned(value));
  }

  // ── Closing ───────────────────────────────────────────────────────────

  lemma StepStaysClosed(t: Table, step: Step, reason: string)
    requires t.connection == Closed(reason)
    ensures Do(t, step).connection == Closed(reason) <==> step != MarkOpen
  {
  }

  /** The connection stays closed with the first reason through a run if and only if nobody marks it
      open on the way. */
  lemma {:induction false} FirstReasonStaysIff(t: Table, steps: seq<Step>, reason: string)
    requires t.connection == Closed(reason)
    ensures (forall k :: 0 <= k <= |steps| ==> Run(t, steps[..k]).connection == Closed(reason))
       <==> MarkOpen !in steps
  {
    if |steps| == 0 {
      assert steps[..0] == [];
    } else {
      var init, last := steps[..|steps| - 1], steps[|steps| - 1];
      FirstReasonStaysIff(t, init, reason);
      assert steps == init + [last] && steps[..|steps|] == steps && init[..|init|] == init;
      assert forall k :: 0 <= k <= |init| ==> steps[..k] == init[..k];
      if Run(t, init).connection == Closed(reason) {
        StepStaysClosed(Run(t, init), last, reason);
      } else {
        assert Run(t, steps[..|init|]).connection != Closed(reason);
      }
    }
  }

  /** The steps keep to the rule that only `connect` marks the connection open. */
  ghost predicate Lawful(t: Table, steps: seq<Step>) {
    forall i :: 0 <= i < |steps| ==> Allowed(Run(t, steps[..i]), steps[i])
  }

  lemma {:induction false} StaysConnected(t: Table, steps: seq<Step>)
    requires t.connected
    ensures Run(t, steps).connected
  {
    if |steps| > 0 {
      StaysConnected(t, steps[..|steps| - 1]);
    }
  }

  /** Once `connect` has returned, the first close reason is final, whoever closes afterwards. */
  lemma FirstReasonIsFinal(t: Table, steps: seq<Step>, reason: string)
    requires t.connected && t.connection == Closed(reason) && Lawful(t, steps)
    ensures Run(t, steps).connection == Closed(reason)
  {
    forall i | 0 <= i < |steps| ensures steps[i] != MarkOpen {
      StaysConnected(t, steps[..i]);
      assert Allowed(Run(t, steps[..i]), steps[i]);
    }
    FirstReasonStaysIff(t, steps, reason);
    assert steps[..|steps|] == steps;
  }

  /** While `connect` still runs it is not: a close before the ready frame is processed is undone. */
  lemma ConnectReopens(reason: string)
    ensures Lawful(NEW_TABLE, [CloseTerminal(reason), MarkOpen])
    ensures Run(NEW_TABLE, [CloseTerminal(reason)]).connection == Closed(reason)
    ensures Run(NEW_TABLE, [CloseTerminal(reason), MarkOpen]).connection == Open
  {
    var steps := [CloseTerminal(reason), MarkOpen];
    assert steps[..1] == [CloseTerminal(reason)] && [CloseTerminal(reason)][..0] == [] && steps[..0] == [];
    assert Run(NEW_TABLE, []) == NEW_TABLE;
    assert Run(NEW_TABLE, [CloseTerminal(reason)]) == Do(NEW_TABLE, CloseTerminal(reason));
  }

  /** A drain empties the table, and every call that has registered comes back: a waiting one with what
      its slot holds, or else the reason; one that still queues its frame likewise, or with the dead
      writer; one that gives up as timed out. A call on a closed connection leaves no trace. */
  lemma CloseAnswersAll(steps: seq<Step>, reason: string, n: nat)
    requires Wire(steps)
    ensures var t := Run(NEW_TABLE, steps);
            var t' := Do(t, FailPending(reason));
            && t'.pending == map[]
            && (n in t.calls ==>
                  var outcome := if t.calls[n].slot.Some? then t.calls[n].slot.value else ClosedWith(reason);
                  && (t.calls[n].phase.Waiting? ==> InPhase(Do(t', Poll(n)), n, Done(outcome)))
                  && (t.calls[n].phase.Registered? ==>
                        && InPhase(Do(Do(t', Queue(n, true)), Poll(n)), n, Done(outcome))
                        && InPhase(Do(t', Queue(n, false)), n, Done(WriterGone)))
                  && (t.calls[n].phase.GivingUp? ==> InPhase(Do(t', Forget(n)), n, Done(TimedOut))))
            && (t.connection.Closed? ==> Do(t, Begin) == t)
  {
    RunHolds(steps);
    var t := Run(NEW_TABLE, steps);
    assert CallHolds(t, n);
    PendingValues(t, n);
  }

  /** A call on its way: past the closed check, not yet back, and not giving up. */
  predicate InFlight(t: Table, n: nat) {
    n in t.calls && (t.calls[n].phase.Checked? || t.calls[n].phase.Registered? || t.calls[n].phase.Waiting?)
  }

  /** In any reachable state a close and its drain fail an unanswered call in flight, with the close's
      reason, if and only if the call has registered; and a registered call then comes back with it. */
  lemma CloseFailsIffRegistered(steps: seq<Step>, reason: string, n: nat)
    requires Wire(steps)
    requires InFlight(Run(NEW_TABLE, steps), n) && Run(NEW_TABLE, steps).calls[n].slot.None?
    ensures var t := Run(NEW_TABLE, steps);
            var closed := OnFailPending(OnCloseTerminal(t, reason), reason);
            && n in closed.calls && closed.calls[n].phase == t.calls[n].phase
            && (closed.calls[n].slot == Some(ClosedWith(reason)) <==> !t.calls[n].phase.Checked?)
            && (t.calls[n].phase.Checked? ==> closed.calls[n].slot.None?)
            && (t.calls[n].phase.Registered? ==>
                  InPhase(OnPoll(OnQueue(closed, n, true), n), n, Done(ClosedWith(reason))))
            && (t.calls[n].phase.Waiting? ==> InPhase(OnPoll(closed, n), n, Done(ClosedWith(reason))))
  {
    RunHolds(steps);
    var t := Run(NEW_TABLE, steps);
    assert CallHolds(t, n);
    PendingValues(t, n);
  }

  /** A call that passed the closed check before the close, but registered after it was drained, is not
      failed by that close: it stays pending until a reply, its deadline, or another drain. */
  lemma LateRegistrationOutlivesTheClose(t: Table, reason: string, n: nat)
    requires TableHolds(t) && InPhase(t, n, Checked)
    ensures var closed := OnFailPending(OnCloseTerminal(t, reason), reason);
            var late := OnQueue(OnRegister(closed, n), n, true);
            && late.connection.Closed? && InPhase(late, n, Waiting)
            && CallId(n) in late.pending && OnPoll(late, n) == late
            && InPhase(OnForget(OnExpire(late, n), n), n, Done(TimedOut))
  {
    assert CallHolds(t, n);
    PendingValues(t, n);
    var closed := OnFailPending(OnCloseTerminal(t, reason), reason);
    assert closed.pending == map[] && closed.calls[n] == t.calls[n];
  }

  // ── Watermarks ────────────────────────────────────────────────────────

  lemma StepWatermark(t: Table, step: Step, sessionId: string)
    requires sessionId != ""
    ensures SeqOf(Do(t, step).lastSeq, sessionId)
         == var mark := SeqOf(t.lastSeq, sessionId);
            if step.Event? && step.sessionId == sessionId && step.seqNo > mark then step.seqNo else mark
  {
  }

  /** The session's watermark is the highest seq its events carried, or 0. */
  lemma {:induction false} WatermarkIsTheMaximum(steps: seq<Step>, sessionId: string)
    requires sessionId != ""
    ensures var mark := SeqOf(Run(NEW_TABLE, steps).lastSeq, sessionId);
            && mark >= 0
            && (forall i :: 0 <= i < |steps| && steps[i].Event? && steps[i].sessionId == sessionId ==>
                  steps[i].seqNo <= mark)
            && (mark == 0 || Event(sessionId, mark) in steps)
  {
    if |steps| > 0 {
      var init, last := steps[..|steps| - 1], steps[|steps| - 1];
      WatermarkIsTheMaximum(init, sessionId);
      assert steps == init + [last];
      StepWatermark(Run(NEW_TABLE, init), last, sessionId);
    }
  }
}
