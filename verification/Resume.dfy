/** What a (re)connect does, built from the lock-held sections: resume, gap fill, re-emission. */
module ResumeSpec {
  import opened Transcript
  import opened ReducerSpec
  import opened Registry
  import opened CoreSpec

  datatype ReplayedEvent = ReplayedEvent(sessionId: string, seqNo: int, body: EventBody)

  /** The gateway's answer to "which events since this watermark?". */
  datatype Replay = Replay(events: seq<ReplayedEvent>, latestSeq: int, truncated: bool, epoch: string)

  /** Everything the gateway answers for one session; a failed call leaves the session out. */
  datatype Answer = Answer(liveSid: string, messages: seq<ResumeMessage>, replay: Replay)

  /** A pending card: its request id as read from the card, and the card if it is an object. */
  datatype PendingCard = PendingCard(requestId: string, card: Option<ApprovalFields>)

  function AsParams(ev: ReplayedEvent): EventParams {
    EventParams(ev.sessionId, Some(ev.seqNo), ev.body)
  }

  function Then(first: Effect, second: Effect): Effect {
    Effect(second.core, first.dtos + second.dtos)
  }

  /** Push replayed events through the same fan-out live events take. */
  function ReplayEvents(c: Core, events: seq<ReplayedEvent>): (e: Effect)
    requires Sound(c)
    ensures Sound(e.core)
  {
    if |events| == 0 then Effect(c, [])
    else
      var before := ReplayEvents(c, events[..|events| - 1]);
      var ev := AsParams(events[|events| - 1]);
      DeliverSound(before.core, ev);
      Then(before, DeliverEvent(before.core, ev))
  }

  /** A truncated answer or a changed replay epoch means the watermark is worthless. */
  predicate MustRebuild(record: SessionRecord, replay: Replay, freshEpoch: string) {
    || replay.truncated
    || (record.replayEpoch != "" && record.replayEpoch != freshEpoch)
    || (replay.epoch != "" && record.replayEpoch != "" && replay.epoch != record.replayEpoch)
  }

  function NonEmpty(epoch: string): Option<string> {
    if epoch != "" then Some(epoch) else None
  }

  function FillGap(c: Core, key: string, replay: Replay): (e: Effect)
    requires Sound(c)
    ensures Sound(e.core)
  {
    var filled := ReplayEvents(c, replay.events);
    Then(filled, Acknowledge(filled.core, key, replay.latestSeq, replay.epoch))
  }

  /** Resume one registered session: repoint, then rebuild or fill the gap. */
  function ResumeSession(c: Core, key: string, answer: Answer, freshEpoch: string): (e: Effect)
    requires Sound(c)
    ensures Sound(e.core)
  {
    var record := Get(c.registry, key);
    if record.None? then Effect(c, [])
    else
      var pointed := RepointLiveSid(c, key, answer.liveSid).core;
      if MustRebuild(record.value, answer.replay, freshEpoch) then
        RebuildSound(pointed, key, answer.messages, NonEmpty(answer.replay.epoch));
        RebuildSession(pointed, key, answer.messages, NonEmpty(answer.replay.epoch))
      else FillGap(pointed, key, answer.replay)
  }

  /** Resume the listed sessions in turn; a session without an answer is skipped. */
  function ResumeAll(c: Core, keys: seq<string>, answers: map<string, Answer>, freshEpoch: string): (e: Effect)
    requires Sound(c)
    ensures Sound(e.core)
  {
    if |keys| == 0 then Effect(c, [])
    else
      var before := ResumeAll(c, keys[..|keys| - 1], answers, freshEpoch);
      var key := keys[|keys| - 1];
      if key in answers then Then(before, ResumeSession(before.core, key, answers[key], freshEpoch)) else before
  }

  /** One re-emission round over a session's pending list. */
  function ReemitRound(c: Core, key: string, cards: seq<PendingCard>): (e: Effect)
    requires Sound(c)
    ensures Sound(e.core)
  {
    if |cards| == 0 then Effect(c, [])
    else
      var before := ReemitRound(c, key, cards[..|cards| - 1]);
      var p := cards[|cards| - 1];
      ReemitSound(before.core, key, p.requestId, p.card);
      Then(before, ReemitCard(before.core, key, p.requestId, p.card))
  }

  /** The pending lists of all open sessions, one round each. */
  function ReemitAll(c: Core, lists: seq<(string, seq<PendingCard>)>): (e: Effect)
    requires Sound(c)
    ensures Sound(e.core)
  {
    if |lists| == 0 then Effect(c, [])
    else
      var before := ReemitAll(c, lists[..|lists| - 1]);
      var (key, cards) := lists[|lists| - 1];
      Then(before, ReemitRound(before.core, key, cards))
  }

  /** The whole resume phase: every session, then the pending cards. */
  function ResumePhase(
    c: Core, keys: seq<string>, answers: map<string, Answer>, freshEpoch: string,
    lists: seq<(string, seq<PendingCard>)>): (e: Effect)
    requires Sound(c)
    ensures Sound(e.core)
  {
    var resumed := ResumeAll(c, keys, answers, freshEpoch);
    Then(resumed, ReemitAll(resumed.core, lists))
  }

  /** After a lag: the missed events of every listed session; one without an answer is skipped. */
  function CatchUpAll(c: Core, keys: seq<string>, answers: map<string, seq<ReplayedEvent>>): (e: Effect)
    requires Sound(c)
    ensures Sound(e.core)
  {
    if |keys| == 0 then Effect(c, [])
    else
      var before, key := CatchUpAll(c, keys[..|keys| - 1], answers), keys[|keys| - 1];
      if key in answers then Then(before, ReplayEvents(before.core, answers[key])) else before
  }
}
