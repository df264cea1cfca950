/** What a reconnect makes of each chat: when it is rebuilt and when it is told what it missed. */
module Reconnect {
  import opened Transcript
  import opened ReducerSpec
  import opened ReducerInvariants
  import opened Registry
  import opened CoreSpec
  import opened ResumeSpec
  import opened Routing
  import opened Watermarks
  import opened Records
  import opened Gateway

  // ── Replayed events, seen from one chat ───────────────────────────────

  /** The replayed events that the core routes to this chat, in order. */
  function MineOf(c: Core, key: string, events: seq<ReplayedEvent>): seq<ReplayedEvent> {
    if |events| == 0 then []
    else
      var e := events[|events| - 1];
      MineOf(c, key, events[..|events| - 1]) + if Route(c, e.sessionId) == Some(key) then [e] else []
  }

  /** These events, told to a reducer one by one. */
  function Telling(events: seq<ReplayedEvent>): seq<Op> {
    if |events| == 0 then []
    else
      Telling(events[..|events| - 1]) + [ApplyEvent(events[|events| - 1].sessionId, events[|events| - 1].body)]
  }

  /** The mark after these events: the highest seq they carry, never lower than before. */
  function Highest(mark: int, events: seq<ReplayedEvent>): int {
    if |events| == 0 then mark
    else
      var before, seqNo := Highest(mark, events[..|events| - 1]), events[|events| - 1].seqNo;
      if seqNo > before then seqNo else before
  }

  lemma TellingSnoc(s: ReducerState, key: string, events: seq<ReplayedEvent>, e: ReplayedEvent)
    requires InBounds(s)
    ensures var before := Run(s, key, Telling(events));
            Run(s, key, Telling(events + [e])) == Perform(before, key, ApplyEvent(e.sessionId, e.body)).state
  {
    hide Perform;
    var ops, op := Telling(events), ApplyEvent(e.sessionId, e.body);
    assert (events + [e])[..|events|] == events;
    assert Telling(events + [e]) == ops + [op];
    assert (ops + [op])[..|ops|] == ops;
  }

  lemma HighestSnoc(mark: int, events: seq<ReplayedEvent>, e: ReplayedEvent)
    ensures Highest(mark, events + [e]) == Raised(Highest(mark, events), Some(e.seqNo))
  {
    assert (events + [e])[..|events|] == events;
  }

  /** The chat of `a` was told these events on the way to `b`: its transcript and both marks follow, and
      everything else of it but the record's title is as it was. */
  ghost predicate ToldThese(a: Core, b: Core, key: string, events: seq<ReplayedEvent>)
    requires Sound(a) && key in a.sessions && Get(a.registry, key).Some?
  {
    var live, r := a.sessions[key], Get(a.registry, key).value;
    && key in b.sessions && Get(b.registry, key).Some?
    && var live', r' := b.sessions[key], Get(b.registry, key).value;
    && InBounds(live.reducer)
    && live'.reducer == Run(live.reducer, key, Telling(events))
    && live'.lastSeenSeq == Highest(live.lastSeenSeq, events)
    && live'.liveSid == live.liveSid && live'.historyEpoch == live.historyEpoch
    && r'.lastSeenSeq == Highest(r.lastSeenSeq, events)
    && r'.replayEpoch == r.replayEpoch && r'.cols == r.cols && r'.profileName == r.profileName
  }

  /** Routes, open chats and the epoch counter are the same. */
  ghost predicate SameRoutes(a: Core, b: Core) {
    a.sidIndex == b.sidIndex && a.sessions.Keys == b.sessions.Keys && a.historyEpoch == b.historyEpoch
  }

  lemma DeliverKeepsRoutes(c: Core, ev: EventParams)
    requires Sound(c)
    ensures SameRoutes(c, DeliverEvent(c, ev).core)
  {
    if Route(c, ev.sessionId).Some? {
      EventReachesOwner(c, ev, Route(c, ev.sessionId).value);
    }
  }

  lemma DeliverTellsOne(a: Core, b: Core, key: string, told: seq<ReplayedEvent>, e: ReplayedEvent)
    requires Sound(a) && Sound(b) && key in a.sessions && Get(a.registry, key).Some?
    requires ToldThese(a, b, key, told) && Route(b, e.sessionId) == Some(key)
    ensures ToldThese(a, DeliverEvent(b, AsParams(e)).core, key, told + [e])
  {
    hide WellFormed, DeliverEvent, OnEvent, Run;
    EventReachesOwner(b, AsParams(e), key);
    DeliverRecords(b, AsParams(e), key);
    TellingSnoc(a.sessions[key].reducer, key, told, e);
    HighestSnoc(a.sessions[key].lastSeenSeq, told, e);
    HighestSnoc(Get(a.registry, key).value.lastSeenSeq, told, e);
  }

  lemma DeliverTellsOther(a: Core, b: Core, key: string, told: seq<ReplayedEvent>, e: ReplayedEvent)
    requires Sound(a) && Sound(b) && key in a.sessions && Get(a.registry, key).Some?
    requires ToldThese(a, b, key, told) && Route(b, e.sessionId) != Some(key)
    ensures ToldThese(a, DeliverEvent(b, AsParams(e)).core, key, told)
  {
    hide WellFormed, DeliverEvent, Run;
    DeliverTouchesOnlyOwner(b, AsParams(e), key);
  }

  /** A replay tells each open chat the events that route to it, in order, and nothing else. */
  lemma {:induction false} ReplayTellsEach(c: Core, key: string, events: seq<ReplayedEvent>)
    requires Sound(c) && key in c.sessions && Get(c.registry, key).Some?
    ensures SameRoutes(c, ReplayEvents(c, events).core)
    ensures ToldThese(c, ReplayEvents(c, events).core, key, MineOf(c, key, events))
  {
    hide WellFormed, DeliverEvent, ToldThese;
    if |events| == 0 {
      NothingTold(c, key);
    } else {
      var before, e := events[..|events| - 1], events[|events| - 1];
      ReplayTellsEach(c, key, before);
      var b := ReplayEvents(c, before).core;
      DeliverKeepsRoutes(b, AsParams(e));
      if Route(b, e.sessionId) == Some(key) {
        DeliverTellsOne(c, b, key, MineOf(c, key, before), e);
      } else {
        DeliverTellsOther(c, b, key, MineOf(c, key, before), e);
        assert MineOf(c, key, before) + [] == MineOf(c, key, before);
      }
    }
  }

  lemma NothingTold(c: Core, key: string)
    requires Sound(c) && key in c.sessions && Get(c.registry, key).Some?
    ensures ToldThese(c, c, key, [])
  {
    hide WellFormed;
    assert InBounds(c.sessions[key].reducer) by { WellFormedInBounds(c.sessions[key].reducer); }
  }

  // ── One chat resumed ──────────────────────────────────────────────────

  /** The answer is truncated, or the record holds a replay epoch that is not the connection's, or not the
      one the answer names. */
  predicate WatermarkIsWorthless(r: SessionRecord, answer: Answer, freshEpoch: string) {
    answer.replay.truncated
    || (r.replayEpoch != ""
        && (r.replayEpoch != freshEpoch || (answer.replay.epoch != "" && r.replayEpoch != answer.replay.epoch)))
  }

  /** The record learns the epoch the answer names, if it names one. */
  function Learned(was: string, answer: Answer): string {
    if answer.replay.epoch == "" then was else answer.replay.epoch
  }

  /** What a resume makes of an open chat. If the watermark is worthless: the history, both marks at 0, a
      new history epoch. Otherwise the transcript it had, told these events, the record's mark raised to
      what the answer says is latest. */
  ghost predicate ResumedAs(
    a: Core, b: Core, key: string, answer: Answer, freshEpoch: string, mine: seq<ReplayedEvent>)
    requires Sound(a) && key in a.sessions && Get(a.registry, key).Some?
  {
    var live, r := a.sessions[key], Get(a.registry, key).value;
    && InBounds(live.reducer) && key in b.sessions && Get(b.registry, key).Some?
    && var live', r' := b.sessions[key], Get(b.registry, key).value;
    && live'.liveSid == answer.liveSid
    && r'.replayEpoch == Learned(r.replayEpoch, answer) && r'.cols == r.cols && r'.profileName == r.profileName
    && if WatermarkIsWorthless(r, answer, freshEpoch) then
         && live'.reducer == IngestMessages(answer.messages).state
         && live'.lastSeenSeq == 0 && r'.lastSeenSeq == 0 && r'.title == r.title
         && live'.historyEpoch > a.historyEpoch
       else
         && live'.reducer == Run(live.reducer, key, Telling(mine))
         && live'.lastSeenSeq == Highest(live.lastSeenSeq, mine)
         && r'.lastSeenSeq == Max(Highest(r.lastSeenSeq, mine), answer.replay.latestSeq)
         && live'.historyEpoch == live.historyEpoch
  }

  lemma RepointIsSeen(c: Core, key: string, sid: string)
    requires Sound(c) && key in c.sessions
    ensures var p := RepointLiveSid(c, key, sid).core;
            && Sound(p) && key in p.sessions && p.sessions[key] == c.sessions[key].(liveSid := sid)
            && p.registry == c.registry && p.historyEpoch == c.historyEpoch && p.sessions.Keys == c.sessions.Keys
  {
  }

  lemma RebuildResumes(c: Core, key: string, answer: Answer, freshEpoch: string, mine: seq<ReplayedEvent>)
    requires Sound(c) && key in c.sessions && Get(c.registry, key).Some?
    requires WatermarkIsWorthless(Get(c.registry, key).value, answer, freshEpoch)
    ensures var e := ResumeSession(c, key, answer, freshEpoch);
            && ResumedAs(c, e.core, key, answer, freshEpoch, mine)
            && e.core.historyEpoch == c.historyEpoch + 1 == e.core.sessions[key].historyEpoch
  {
    hide WellFormed, IngestMessages, RepointLiveSid;
    RepointIsSeen(c, key, answer.liveSid);
    var pointed := RepointLiveSid(c, key, answer.liveSid).core;
    RestartIsSeen(pointed.registry, key, NonEmpty(answer.replay.epoch), key);
    WellFormedInBounds(c.sessions[key].reducer);
  }

  lemma FillResumes(c: Core, key: string, answer: Answer, freshEpoch: string)
    requires Sound(c) && key in c.sessions && Get(c.registry, key).Some?
    requires !WatermarkIsWorthless(Get(c.registry, key).value, answer, freshEpoch)
    ensures var e := ResumeSession(c, key, answer, freshEpoch);
            var mine := MineOf(RepointLiveSid(c, key, answer.liveSid).core, key, answer.replay.events);
            && ResumedAs(c, e.core, key, answer, freshEpoch, mine) && e.core.historyEpoch == c.historyEpoch
  {
    hide WellFormed, Run, RepointLiveSid, ReplayEvents;
    RepointIsSeen(c, key, answer.liveSid);
    var pointed := RepointLiveSid(c, key, answer.liveSid).core;
    ReplayTellsEach(pointed, key, answer.replay.events);
    var filled := ReplayEvents(pointed, answer.replay.events).core;
    TouchIsSeen(filled.registry, key, answer.replay.latestSeq, answer.replay.epoch, key);
  }

  /** A resume of an open chat builds it anew from the history if and only if the answer is truncated or the
      stored replay epoch is neither empty nor the one in force; otherwise the rows stay and are told the
      replay. What the chat and its record hold afterwards is as stated, exactly. A chat without a record
      is left alone. */
  lemma ResumeRebuildsIff(c: Core, key: string, answer: Answer, freshEpoch: string)
    requires Sound(c)
    ensures var e := ResumeSession(c, key, answer, freshEpoch);
            && (Get(c.registry, key).None? ==> e == Effect(c, []))
            && (Get(c.registry, key).Some? && key in c.sessions ==>
                  var mine := MineOf(RepointLiveSid(c, key, answer.liveSid).core, key, answer.replay.events);
                  && ResumedAs(c, e.core, key, answer, freshEpoch, mine)
                  && (e.core.historyEpoch == c.historyEpoch + 1
                      <==> WatermarkIsWorthless(Get(c.registry, key).value, answer, freshEpoch)))
  {
    if Get(c.registry, key).Some? && key in c.sessions {
      if WatermarkIsWorthless(Get(c.registry, key).value, answer, freshEpoch) {
        RebuildResumes(c, key, answer, freshEpoch,
                       MineOf(RepointLiveSid(c, key, answer.liveSid).core, key, answer.replay.events));
      } else {
        FillResumes(c, key, answer, freshEpoch);
      }
    }
  }

  /** The gateway restarted under another replay epoch, and answers in full from its new log: the chat is
      rebuilt if and only if its record had learned the old epoch. */
  lemma RestartIsCaughtIff(c: Core, key: string, answer: Answer, freshEpoch: string, oldEpoch: string)
    requires Sound(c) && key in c.sessions && Get(c.registry, key).Some?
    requires Get(c.registry, key).value.replayEpoch in {"", oldEpoch}
    requires freshEpoch != oldEpoch && answer.replay.epoch == freshEpoch && !answer.replay.truncated
    ensures ResumeSession(c, key, answer, freshEpoch).core.historyEpoch == c.historyEpoch + 1
       <==> Get(c.registry, key).value.replayEpoch != ""
  {
    ResumeRebuildsIff(c, key, answer, freshEpoch);
  }

  /** A live event raises the mark but teaches no epoch. So a chat that was opened new, heard an event and
      was never resumed does not notice: its rows and mark stay as they were, and none of the new log's
      events, whose seqs are no higher than the mark, is asked for. */
  lemma UnlearnedRestartGoesUnnoticed(
    known: Tabs, key: string, sid: string, cols: int, profile: string, seqNo: nat, text: string,
    log: Log, answer: Answer, freshEpoch: string)
    requires Get(known, key).None? && sid != "" && text != "" && freshEpoch != ""
    requires Dense(log) && log.lastSeq <= seqNo
    requires answer.liveSid == sid && answer.replay == Replay([], log.lastSeq, false, freshEpoch)
    ensures Newer(log.events, seqNo) == []
    ensures var opening := Open(key, sid, [], cols, profile);
            Sound(NewCore(known)) && Sound(Do(NewCore(known), opening).core)
            && var heard := DeliverEvent(Do(NewCore(known), opening).core,
                                         EventParams(sid, Some(seqNo), MessageDelta(text))).core;
               && Sound(heard) && key in heard.sessions && heard.sessions[key].lastSeenSeq == seqNo
               && heard.sessions[key].reducer.rows == [Row(0, Assistant(text, true, "", ""))]
               && var after := ResumeSession(heard, key, answer, freshEpoch).core;
                  && key in after.sessions && after.sessions[key].reducer == heard.sessions[key].reducer
                  && after.sessions[key].lastSeenSeq == seqNo
                  && Get(after.registry, key).Some? && Get(after.registry, key).value.replayEpoch == freshEpoch
  {
    hide ResumeSession, DeliverEvent, Do, WellFormed, Dense, Newer;
    NoneNewer(log, seqNo);
    FirstEventHeard(known, key, sid, cols, profile, seqNo, text);
    var chat := Do(NewCore(known), Open(key, sid, [], cols, profile)).core;
    NoEventsFill(DeliverEvent(chat, EventParams(sid, Some(seqNo), MessageDelta(text))).core, key, answer, freshEpoch);
  }

  lemma NoneNewer(log: Log, seqNo: nat)
    requires Dense(log) && log.lastSeq <= seqNo
    ensures Newer(log.events, seqNo) == []
  {
    NewerIsTheRest(log.events, seqNo);
  }

  /** A chat opened new, after its first event. */
  lemma FirstEventHeard(known: Tabs, key: string, sid: string, cols: int, profile: string, seqNo: nat, text: string)
    requires Get(known, key).None? && sid != "" && text != ""
    ensures var opening := Open(key, sid, [], cols, profile);
            Sound(NewCore(known)) && Sound(Do(NewCore(known), opening).core)
            && var heard := DeliverEvent(Do(NewCore(known), opening).core,
                                         EventParams(sid, Some(seqNo), MessageDelta(text))).core;
               && Sound(heard) && key in heard.sessions && heard.sessions[key].lastSeenSeq == seqNo
               && heard.sessions[key].reducer.rows == [Row(0, Assistant(text, true, "", ""))]
               && Get(heard.registry, key).Some? && Get(heard.registry, key).value.replayEpoch == ""
  {
    hide DeliverEvent, WellFormed;
    var opening := Open(key, sid, [], cols, profile);
    DoSound(NewCore(known), opening);
    var c := Do(NewCore(known), opening).core;
    OpenRecords(NewCore(known), key, sid, [], cols, profile, key);
    var ev := EventParams(sid, Some(seqNo), MessageDelta(text));
    DeliverSound(c, ev);
    EventReachesOwner(c, ev, key);
    DeliverRecords(c, ev, key);
  }

  lemma NoEventsFill(c: Core, key: string, answer: Answer, freshEpoch: string)
    requires Sound(c) && key in c.sessions && Get(c.registry, key).Some?
    requires Get(c.registry, key).value.replayEpoch == "" && !answer.replay.truncated && answer.replay.events == []
    ensures var after := ResumeSession(c, key, answer, freshEpoch).core;
            && key in after.sessions && after.sessions[key].reducer == c.sessions[key].reducer
            && after.sessions[key].lastSeenSeq == c.sessions[key].lastSeenSeq
            && Get(after.registry, key).Some? && Get(after.registry, key).value.replayEpoch == answer.replay.epoch
  {
    hide WellFormed, ResumeSession, RepointLiveSid;
    ResumeRebuildsIff(c, key, answer, freshEpoch);
  }

  // ── All chats resumed ─────────────────────────────────────────────────

  /** Each answer is about its own chat: its events carry the chat's durable key, and its sid is the
      chat's own. */
  ghost predicate AnswersHonest(owner: string -> string, answers: map<string, Answer>) {
    forall key :: key in answers ==>
      && owner(key) == key && (answers[key].liveSid != "" ==> owner(answers[key].liveSid) == key)
      && AddressedTo(answers[key].replay.events, key)
  }

  ghost predicate AddressedTo(events: seq<ReplayedEvent>, key: string) {
    forall i :: 0 <= i < |events| ==> events[i].sessionId == key
  }

  /** A durable key leads to its own chat, if it is open, and to no other. */
  lemma KeyRoutesHome(c: Core, owner: string -> string, key: string)
    requires Routed(c, owner) && owner(key) == key
    ensures Route(c, key).Some? ==> Route(c, key) == Some(key)
    ensures key in c.sessions && key != "" ==> Route(c, key) == Some(key)
  {
  }

  lemma {:induction false} AllMine(c: Core, key: string, events: seq<ReplayedEvent>)
    requires AddressedTo(events, key)
    ensures MineOf(c, key, events) == if Route(c, key) == Some(key) then events else []
  {
    if |events| > 0 {
      var before, e := events[..|events| - 1], events[|events| - 1];
      AllMine(c, key, before);
      assert events == before + [e];
    }
  }

  lemma {:induction false} ReplaySpares(c: Core, events: seq<ReplayedEvent>, owner: string -> string, key: string, other: string)
    requires Sound(c) && Routed(c, owner) && owner(key) == key && AddressedTo(events, key) && other != key
    ensures var c' := ReplayEvents(c, events).core;
            Routed(c', owner) && SameRoutes(c, c') && SameSession(c, c', other)
  {
    hide WellFormed, DeliverEvent, Routed, SameSession;
    if |events| == 0 {
      SameAsItself(c, other);
    } else {
      var before, e := events[..|events| - 1], events[|events| - 1];
      assert AddressedTo(before, key);
      ReplaySpares(c, before, owner, key, other);
      var b := ReplayEvents(c, before).core;
      StepKeepsRouted(b, Deliver(AsParams(e)), owner);
      DeliverKeepsRoutes(b, AsParams(e));
      KeyRoutesHome(b, owner, key);
      DeliverTouchesOnlyOwner(b, AsParams(e), other);
      SameTransitive(c, b, DeliverEvent(b, AsParams(e)).core, other);
    }
  }

  lemma SameAsItself(c: Core, key: string)
    ensures SameSession(c, c, key)
  {
  }

  lemma SameTransitive(a: Core, b: Core, d: Core, key: string)
    requires SameSession(a, b, key) && SameSession(b, d, key)
    ensures SameSession(a, d, key)
  {
  }

  lemma DeliverKeepsRouted(c: Core, ev: EventParams, owner: string -> string)
    requires Sound(c) && Routed(c, owner)
    ensures Routed(DeliverEvent(c, ev).core, owner)
  {
    hide Routed, DeliverEvent, WellFormed;
    StepKeepsRouted(c, Deliver(ev), owner);
  }

  lemma {:induction false} ReplayKeepsRouted(c: Core, events: seq<ReplayedEvent>, owner: string -> string)
    requires Sound(c) && Routed(c, owner)
    ensures Routed(ReplayEvents(c, events).core, owner)
  {
    hide Routed, DeliverEvent, WellFormed;
    if |events| > 0 {
      var before := ReplayEvents(c, events[..|events| - 1]).core;
      ReplayKeepsRouted(c, events[..|events| - 1], owner);
      StepKeepsRouted(before, Deliver(AsParams(events[|events| - 1])), owner);
    }
  }

  lemma ResumeKeepsRouted(c: Core, key: string, answer: Answer, epoch: string, owner: string -> string)
    requires Sound(c) && Routed(c, owner) && (answer.liveSid != "" ==> owner(answer.liveSid) == key)
    ensures Routed(ResumeSession(c, key, answer, epoch).core, owner)
  {
    hide Routed, WellFormed, RepointLiveSid, RebuildSession, Acknowledge, ReplayEvents;
    var replay := answer.replay;
    RepointKeepsRouted(c, key, answer.liveSid, owner);
    assert Sound(RepointLiveSid(c, key, answer.liveSid).core) by { DoSound(c, Repoint(key, answer.liveSid)); }
    var pointed := RepointLiveSid(c, key, answer.liveSid).core;
    StepKeepsRouted(pointed, Rebuild(key, answer.messages, NonEmpty(replay.epoch)), owner);
    ReplayKeepsRouted(pointed, replay.events, owner);
    StepKeepsRouted(ReplayEvents(pointed, replay.events).core, Ack(key, replay.latestSeq, replay.epoch), owner);
  }

  lemma {:induction false} ReplayKeepsEpoch(c: Core, events: seq<ReplayedEvent>)
    requires Sound(c)
    ensures ReplayEvents(c, events).core.historyEpoch == c.historyEpoch
  {
    hide WellFormed, DeliverEvent;
    if |events| > 0 {
      ReplayKeepsEpoch(c, events[..|events| - 1]);
      DeliverKeepsRoutes(ReplayEvents(c, events[..|events| - 1]).core, AsParams(events[|events| - 1]));
    }
  }

  lemma ResumeKeepsEpochOrder(c: Core, key: string, answer: Answer, freshEpoch: string)
    requires Sound(c)
    ensures c.historyEpoch <= ResumeSession(c, key, answer, freshEpoch).core.historyEpoch
  {
    hide WellFormed, ReplayEvents;
    DoSound(c, Repoint(key, answer.liveSid));
    ReplayKeepsEpoch(RepointLiveSid(c, key, answer.liveSid).core, answer.replay.events);
  }

  /** Resuming one chat leaves every other as it is. */
  lemma ResumeSpares(
    c: Core, key: string, answer: Answer, freshEpoch: string, owner: string -> string, other: string)
    requires Sound(c) && Routed(c, owner) && owner(key) == key && AddressedTo(answer.replay.events, key)
    requires (answer.liveSid != "" ==> owner(answer.liveSid) == key) && other != key
    ensures var c' := ResumeSession(c, key, answer, freshEpoch).core;
            SameSession(c, c', other)
  {
    hide WellFormed, Routed, RepointLiveSid, RebuildSession, Acknowledge, ReplayEvents, SameSession;
    SameAsItself(c, other);
    var replay := answer.replay;
    var pointed := RepointLiveSid(c, key, answer.liveSid).core;
    DoSound(c, Repoint(key, answer.liveSid));
    StepSpares(c, Repoint(key, answer.liveSid), other);
    RepointKeepsRouted(c, key, answer.liveSid, owner);
    StepSpares(pointed, Rebuild(key, answer.messages, NonEmpty(replay.epoch)), other);
    SameTransitive(c, pointed, RebuildSession(pointed, key, answer.messages, NonEmpty(replay.epoch)).core, other);
    ReplaySpares(pointed, replay.events, owner, key, other);
    var filled := ReplayEvents(pointed, replay.events).core;
    StepSpares(filled, Ack(key, replay.latestSeq, replay.epoch), other);
    SameTransitive(c, pointed, filled, other);
    SameTransitive(c, filled, Acknowledge(filled, key, replay.latestSeq, replay.epoch).core, other);
  }

  lemma StepSpares(c: Core, step: Step, other: string)
    requires Sound(c) && (step.Repoint? || step.Rebuild? || step.Ack?) && step.key != other
    ensures SameSession(c, Do(c, step).core, other)
  {
    hide WellFormed, SameSession, Do;
    OthersUntouched(c, step, other);
  }

  /** What the resume of a chat does depends on that chat alone. */
  lemma ResumedAlike(
    a: Core, b: Core, after: Core, key: string, answer: Answer, freshEpoch: string, mine: seq<ReplayedEvent>)
    requires Sound(a) && Sound(b) && SameSession(a, b, key) && a.historyEpoch <= b.historyEpoch
    requires key in a.sessions && Get(a.registry, key).Some? && ResumedAs(b, after, key, answer, freshEpoch, mine)
    ensures ResumedAs(a, after, key, answer, freshEpoch, mine)
  {
    hide WellFormed, Run, IngestMessages;
  }

  lemma ResumedStays(
    a: Core, b: Core, d: Core, key: string, answer: Answer, freshEpoch: string, mine: seq<ReplayedEvent>)
    requires Sound(a) && key in a.sessions && Get(a.registry, key).Some?
    requires ResumedAs(a, b, key, answer, freshEpoch, mine) && SameSession(b, d, key)
    ensures ResumedAs(a, d, key, answer, freshEpoch, mine)
  {
    hide WellFormed, Run, IngestMessages;
  }

  /** What a resume phase makes of one chat. */
  ghost predicate PhaseOutcome(
    a: Core, b: Core, keys: seq<string>, answers: map<string, Answer>, freshEpoch: string, key: string)
    requires Sound(a)
  {
    if key in keys && key in answers && key in a.sessions && Get(a.registry, key).Some? then
      ResumedAs(a, b, key, answers[key], freshEpoch, answers[key].replay.events)
    else (key in keys && key in answers) || SameSession(a, b, key)
  }

  lemma ResumeHome(c: Core, key: string, answer: Answer, freshEpoch: string, owner: string -> string)
    requires Sound(c) && Routed(c, owner) && owner(key) == key && AddressedTo(answer.replay.events, key)
    requires (answer.liveSid != "" ==> owner(answer.liveSid) == key)
    requires key != "" && key in c.sessions && Get(c.registry, key).Some?
    ensures ResumedAs(c, ResumeSession(c, key, answer, freshEpoch).core, key, answer, freshEpoch, answer.replay.events)
  {
    hide WellFormed, Routed, ResumeSession, ResumedAs, RepointLiveSid;
    ResumeRebuildsIff(c, key, answer, freshEpoch);
    var pointed := RepointLiveSid(c, key, answer.liveSid).core;
    RepointIsSeen(c, key, answer.liveSid);
    RepointKeepsRouted(c, key, answer.liveSid, owner);
    KeyRoutesHome(pointed, owner, key);
    AllMine(pointed, key, answer.replay.events);
  }

  /** With honest answers a resume phase does to every chat it lists and gets an answer for just what a
      resume of that chat alone would, whatever the order, and leaves every other chat as it is. */
  lemma {:induction false} ResumeAllReachesEach(
    c: Core, keys: seq<string>, answers: map<string, Answer>, freshEpoch: string, owner: string -> string, key: string)
    requires Sound(c) && Routed(c, owner) && AnswersHonest(owner, answers) && key != ""
    requires forall i, j :: 0 <= i < j < |keys| ==> keys[i] != keys[j]
    ensures var c' := ResumeAll(c, keys, answers, freshEpoch).core;
            && Routed(c', owner) && c.historyEpoch <= c'.historyEpoch
            && PhaseOutcome(c, c', keys, answers, freshEpoch, key)
  {
    hide WellFormed, Routed, ResumeSession, SameSession, ResumedAs;
    if |keys| == 0 {
      SameAsItself(c, key);
    } else {
      var before, last := keys[..|keys| - 1], keys[|keys| - 1];
      assert keys == before + [last];
      ResumeAllReachesEach(c, before, answers, freshEpoch, owner, key);
      var b := ResumeAll(c, before, answers, freshEpoch).core;
      if last in answers {
        OneMoreResumed(c, b, before, last, answers, freshEpoch, owner, key);
      }
    }
  }

  lemma OneMoreResumed(
    c: Core, b: Core, before: seq<string>, last: string, answers: map<string, Answer>, freshEpoch: string,
    owner: string -> string, key: string)
    requires Sound(c) && Sound(b) && Routed(b, owner) && AnswersHonest(owner, answers) && key != ""
    requires last in answers && last !in before && c.historyEpoch <= b.historyEpoch
    requires PhaseOutcome(c, b, before, answers, freshEpoch, key)
    ensures var d := ResumeSession(b, last, answers[last], freshEpoch).core;
            && Routed(d, owner) && b.historyEpoch <= d.historyEpoch
            && PhaseOutcome(c, d, before + [last], answers, freshEpoch, key)
  {
    hide WellFormed, Routed, ResumeSession, ResumedAs;
    var d := ResumeSession(b, last, answers[last], freshEpoch).core;
    ResumeKeepsRouted(b, last, answers[last], freshEpoch, owner);
    ResumeKeepsEpochOrder(b, last, answers[last], freshEpoch);
    if key != last {
      ResumeSpares(b, last, answers[last], freshEpoch, owner, key);
      if key in before && key in answers && key in c.sessions && Get(c.registry, key).Some? {
        ResumedStays(c, b, d, key, answers[key], freshEpoch, answers[key].replay.events);
      }
    } else if key in c.sessions && Get(c.registry, key).Some? {
      ResumeHome(b, key, answers[key], freshEpoch, owner);
      ResumedAlike(c, b, d, key, answers[key], freshEpoch, answers[key].replay.events);
    }
  }

  // ── All chats caught up ───────────────────────────────────────────────

  ghost predicate CatchUpOutcome(
    a: Core, b: Core, keys: seq<string>, answers: map<string, seq<ReplayedEvent>>, key: string)
    requires Sound(a)
  {
    if key !in keys || key !in answers then SameSession(a, b, key)
    else key in a.sessions && Get(a.registry, key).Some? ==> ToldThese(a, b, key, answers[key])
  }

  lemma ToldAlike(a: Core, b: Core, d: Core, key: string, events: seq<ReplayedEvent>)
    requires Sound(a) && Sound(b) && SameSession(a, b, key) && key in a.sessions && Get(a.registry, key).Some?
    requires ToldThese(b, d, key, events)
    ensures ToldThese(a, d, key, events)
  {
    hide WellFormed, Run;
  }

  lemma ToldStays(a: Core, b: Core, d: Core, key: string, events: seq<ReplayedEvent>)
    requires Sound(a) && key in a.sessions && Get(a.registry, key).Some?
    requires ToldThese(a, b, key, events) && SameSession(b, d, key)
    ensures ToldThese(a, d, key, events)
  {
    hide WellFormed, Run;
  }

  lemma CaughtUpHome(c: Core, key: string, events: seq<ReplayedEvent>, owner: string -> string)
    requires Sound(c) && Routed(c, owner) && owner(key) == key && AddressedTo(events, key)
    requires key != "" && key in c.sessions && Get(c.registry, key).Some?
    ensures ToldThese(c, ReplayEvents(c, events).core, key, events)
  {
    hide WellFormed, Routed, ReplayEvents, ToldThese;
    ReplayTellsEach(c, key, events);
    KeyRoutesHome(c, owner, key);
    AllMine(c, key, events);
  }

  lemma OneMoreCaughtUp(
    c: Core, b: Core, before: seq<string>, last: string, answers: map<string, seq<ReplayedEvent>>,
    owner: string -> string, key: string)
    requires Sound(c) && Sound(b) && Routed(b, owner) && last in answers && last !in before && key != ""
    requires owner(last) == last && AddressedTo(answers[last], last)
    requires CatchUpOutcome(c, b, before, answers, key)
    ensures Routed(ReplayEvents(b, answers[last]).core, owner)
    ensures CatchUpOutcome(c, ReplayEvents(b, answers[last]).core, before + [last], answers, key)
  {
    hide WellFormed, Routed, ReplayEvents, ToldThese;
    var d := ReplayEvents(b, answers[last]).core;
    ReplayKeepsRouted(b, answers[last], owner);
    if key != last {
      ReplaySpares(b, answers[last], owner, last, key);
      if key in before && key in answers && key in c.sessions && Get(c.registry, key).Some? {
        ToldStays(c, b, d, key, answers[key]);
      }
    } else if key in c.sessions && Get(c.registry, key).Some? {
      CaughtUpHome(b, key, answers[key], owner);
      ToldAlike(c, b, d, key, answers[key]);
    }
  }

  /** After a lag each listed chat is told just the events of its own answer, and no other chat moves. */
  lemma {:induction false} CatchUpReachesEach(
    c: Core, keys: seq<string>, answers: map<string, seq<ReplayedEvent>>, owner: string -> string, key: string)
    requires Sound(c) && Routed(c, owner) && key != ""
    requires forall k :: k in answers ==> owner(k) == k && AddressedTo(answers[k], k)
    requires forall i, j :: 0 <= i < j < |keys| ==> keys[i] != keys[j]
    ensures Routed(CatchUpAll(c, keys, answers).core, owner)
    ensures CatchUpOutcome(c, CatchUpAll(c, keys, answers).core, keys, answers, key)
  {
    hide WellFormed, Routed, ReplayEvents, SameSession, ToldThese, CatchUpOutcome;
    if |keys| == 0 {
      NoneCaughtUp(c, answers, key);
    } else {
      var before, last := keys[..|keys| - 1], keys[|keys| - 1];
      assert keys == before + [last];
      CatchUpReachesEach(c, before, answers, owner, key);
      if last in answers {
        OneMoreCaughtUp(c, CatchUpAll(c, before, answers).core, before, last, answers, owner, key);
      } else {
        UnansweredStays(c, CatchUpAll(c, before, answers).core, before, last, answers, key);
      }
    }
  }

  lemma NoneCaughtUp(c: Core, answers: map<string, seq<ReplayedEvent>>, key: string)
    requires Sound(c)
    ensures CatchUpOutcome(c, c, [], answers, key)
  {
    hide WellFormed;
  }

  lemma UnansweredStays(
    c: Core, b: Core, before: seq<string>, last: string, answers: map<string, seq<ReplayedEvent>>, key: string)
    requires Sound(c) && last !in answers && CatchUpOutcome(c, b, before, answers, key)
    ensures CatchUpOutcome(c, b, before + [last], answers, key)
  {
    hide WellFormed, ToldThese, SameSession;
  }
}

/** The app through a whole reconnect: whatever the phase does to the core, its changes show it. */
module PhaseMirror {
  import opened ReducerInvariants
  import opened Replica
  import opened CoreSpec
  import opened ResumeSpec
  import opened Routing
  import opened SystemMirror
  import opened Approvals

  lemma {:induction false} UiConcat(ui: map<string, seq<RowText>>, a: seq<Dto>, b: seq<Dto>)
    ensures UiReceive(ui, a + b) == UiReceive(UiReceive(ui, a), b)
  {
    if |b| == 0 {
      assert a + b == a;
    } else {
      UiConcat(ui, a, b[..|b| - 1]);
      assert (a + b)[..|a + b| - 1] == a + b[..|b| - 1];
    }
  }

  /** An app that shows the core, and takes in what the effect delivers, shows the core after it. */
  ghost predicate Follows(c: Core, e: Effect) {
    forall ui :: InSync(System(c, ui)) ==> InSync(System(e.core, UiReceive(ui, e.dtos)))
  }

  lemma NothingFollows(c: Core)
    ensures Follows(c, Effect(c, []))
  {
  }

  lemma ThenFollows(c: Core, first: Effect, second: Effect)
    requires Follows(c, first) && Follows(first.core, second)
    ensures Follows(c, Then(first, second))
  {
    hide InSync, UiReceive;
    forall ui | InSync(System(c, ui)) ensures InSync(System(second.core, UiReceive(ui, first.dtos + second.dtos))) {
      UiConcat(ui, first.dtos, second.dtos);
    }
  }

  lemma StepFollows(c: Core, step: Step)
    requires Sound(c) && !step.Open? && !step.CloseTab? && !step.Clear?
    ensures Follows(c, Do(c, step))
  {
    hide InSync, UiReceive, Do, WellFormed;
    forall ui | InSync(System(c, ui)) ensures InSync(System(Do(c, step).core, UiReceive(ui, Do(c, step).dtos))) {
      StepKeepsSync(System(c, ui), step);
    }
  }

  lemma {:induction false} ReplayFollows(c: Core, events: seq<ReplayedEvent>)
    requires Sound(c)
    ensures Follows(c, ReplayEvents(c, events))
  {
    hide Follows, WellFormed, DeliverEvent;
    if |events| == 0 {
      NothingFollows(c);
    } else {
      var before := ReplayEvents(c, events[..|events| - 1]);
      ReplayFollows(c, events[..|events| - 1]);
      var ev := AsParams(events[|events| - 1]);
      DeliverSound(before.core, ev);
      StepFollows(before.core, Deliver(ev));
      ThenFollows(c, before, DeliverEvent(before.core, ev));
    }
  }

  lemma ResumeFollows(c: Core, key: string, answer: Answer, freshEpoch: string)
    requires Sound(c)
    ensures Follows(c, ResumeSession(c, key, answer, freshEpoch))
  {
    hide Follows, WellFormed, RebuildSession, ReplayEvents, Acknowledge, RepointLiveSid, MustRebuild;
    NothingFollows(c);
    DoSound(c, Repoint(key, answer.liveSid));
    StepFollows(c, Repoint(key, answer.liveSid));
    SilentRepoint(c, key, answer.liveSid);
    var pointed, replay := RepointLiveSid(c, key, answer.liveSid), answer.replay;
    var rebuild := Rebuild(key, answer.messages, NonEmpty(replay.epoch));
    DoSound(pointed.core, rebuild);
    StepFollows(pointed.core, rebuild);
    ThenFollows(c, pointed, RebuildSession(pointed.core, key, answer.messages, NonEmpty(replay.epoch)));
    ReplayFollows(pointed.core, replay.events);
    var filled := ReplayEvents(pointed.core, replay.events);
    StepFollows(filled.core, Ack(key, replay.latestSeq, replay.epoch));
    ThenFollows(pointed.core, filled, Acknowledge(filled.core, key, replay.latestSeq, replay.epoch));
    ThenFollows(c, pointed, FillGap(pointed.core, key, replay));
    assert forall e: Effect :: [] + e.dtos == e.dtos;
  }

  lemma SilentRepoint(c: Core, key: string, sid: string)
    ensures RepointLiveSid(c, key, sid).dtos == []
  {
  }

  lemma {:induction false} ResumeAllFollows(
    c: Core, keys: seq<string>, answers: map<string, Answer>, freshEpoch: string)
    requires Sound(c)
    ensures Follows(c, ResumeAll(c, keys, answers, freshEpoch))
  {
    hide Follows, WellFormed, ResumeSession;
    if |keys| == 0 {
      NothingFollows(c);
    } else {
      var before, key := ResumeAll(c, keys[..|keys| - 1], answers, freshEpoch), keys[|keys| - 1];
      ResumeAllFollows(c, keys[..|keys| - 1], answers, freshEpoch);
      if key in answers {
        ResumeFollows(before.core, key, answers[key], freshEpoch);
        ThenFollows(c, before, ResumeSession(before.core, key, answers[key], freshEpoch));
      }
    }
  }

  lemma {:induction false} RoundFollows(c: Core, key: string, cards: seq<PendingCard>)
    requires Sound(c)
    ensures Follows(c, ReemitRound(c, key, cards))
  {
    hide Follows, WellFormed, ReemitCard;
    if |cards| == 0 {
      NothingFollows(c);
    } else {
      var before, p := ReemitRound(c, key, cards[..|cards| - 1]), cards[|cards| - 1];
      RoundFollows(c, key, cards[..|cards| - 1]);
      StepFollows(before.core, Reemit(key, p.requestId, p.card));
      ThenFollows(c, before, ReemitCard(before.core, key, p.requestId, p.card));
    }
  }

  lemma {:induction false} ReemitAllFollows(c: Core, lists: seq<(string, seq<PendingCard>)>)
    requires Sound(c)
    ensures Follows(c, ReemitAll(c, lists))
  {
    hide Follows, WellFormed, ReemitRound;
    if |lists| == 0 {
      NothingFollows(c);
    } else {
      var before, last := ReemitAll(c, lists[..|lists| - 1]), lists[|lists| - 1];
      ReemitAllFollows(c, lists[..|lists| - 1]);
      RoundFollows(before.core, last.0, last.1);
      ThenFollows(c, before, ReemitRound(before.core, last.0, last.1));
    }
  }

  /** Through a whole resume phase, rebuilds, replays and re-emitted cards of any number of chats, an app
      that showed the core before and applies what the phase delivers, in order, shows it afterwards. */
  lemma PhaseShowsTheCore(
    c: Core, keys: seq<string>, answers: map<string, Answer>, freshEpoch: string,
    lists: seq<(string, seq<PendingCard>)>)
    requires Sound(c)
    ensures Follows(c, ResumePhase(c, keys, answers, freshEpoch, lists))
  {
    hide Follows, WellFormed, ResumeAll, ReemitAll;
    ResumeAllFollows(c, keys, answers, freshEpoch);
    var resumed := ResumeAll(c, keys, answers, freshEpoch);
    ReemitAllFollows(resumed.core, lists);
    ThenFollows(c, resumed, ReemitAll(resumed.core, lists));
  }

  /** The same through a catch-up after a lag. */
  lemma {:induction false} CatchUpShowsTheCore(c: Core, keys: seq<string>, answers: map<string, seq<ReplayedEvent>>)
    requires Sound(c)
    ensures Follows(c, CatchUpAll(c, keys, answers))
  {
    hide Follows, WellFormed, ReplayEvents;
    if |keys| == 0 {
      NothingFollows(c);
    } else {
      var before, key := CatchUpAll(c, keys[..|keys| - 1], answers), keys[|keys| - 1];
      CatchUpShowsTheCore(c, keys[..|keys| - 1], answers);
      if key in answers {
        ReplayFollows(before.core, answers[key]);
        ThenFollows(c, before, ReplayEvents(before.core, answers[key]));
      }
    }
  }

  // ── No listed card is missing afterwards ──────────────────────────────

  lemma {:induction false} RoundSparesWanted(c: Core, key: string, cards: seq<PendingCard>, k: string, p: PendingCard)
    requires Sound(c) && !CardWanted(c, k, p.requestId, p.card)
    ensures !CardWanted(ReemitRound(c, key, cards).core, k, p.requestId, p.card)
  {
    hide CardWanted, WellFormed, ReemitCard;
    if |cards| > 0 {
      RoundSparesWanted(c, key, cards[..|cards| - 1], k, p);
      var before, q := ReemitRound(c, key, cards[..|cards| - 1]).core, cards[|cards| - 1];
      if k == key {
        UnwantedStays(before, key, p, q);
      } else {
        OtherChatUnwanted(before, key, q, k, p);
      }
    }
  }

  lemma OtherChatUnwanted(c: Core, key: string, q: PendingCard, k: string, p: PendingCard)
    requires Sound(c) && k != key && !CardWanted(c, k, p.requestId, p.card)
    ensures !CardWanted(ReemitCard(c, key, q.requestId, q.card).core, k, p.requestId, p.card)
  {
    hide WellFormed, ReemitCard;
    OthersUntouched(c, Reemit(key, q.requestId, q.card), k);
    assert Do(c, Reemit(key, q.requestId, q.card)) == ReemitCard(c, key, q.requestId, q.card);
  }

  lemma {:induction false} AllListsSettle(c: Core, lists: seq<(string, seq<PendingCard>)>, i: nat, j: nat)
    requires Sound(c) && i < |lists| && j < |lists[i].1|
    ensures var p := lists[i].1[j]; !CardWanted(ReemitAll(c, lists).core, lists[i].0, p.requestId, p.card)
  {
    hide CardWanted, WellFormed, ReemitRound;
    var n := |lists| - 1;
    var before := ReemitAll(c, lists[..n]).core;
    if i < n {
      AllListsSettle(c, lists[..n], i, j);
      RoundSparesWanted(before, lists[n].0, lists[n].1, lists[i].0, lists[i].1[j]);
    } else {
      RoundLeavesNoneWanted(before, lists[n].0, lists[n].1, j);
    }
  }

  /** After a resume phase no card of the pending lists is missing from its chat: each is on show, answered
      or not, or was re-emitted in this tab. */
  lemma NoneMissingAfterPhase(
    c: Core, keys: seq<string>, answers: map<string, Answer>, freshEpoch: string,
    lists: seq<(string, seq<PendingCard>)>, i: nat, j: nat)
    requires Sound(c) && i < |lists| && j < |lists[i].1|
    ensures var p := lists[i].1[j];
            !Missing(ResumePhase(c, keys, answers, freshEpoch, lists).core, lists[i].0, p.requestId, p.card)
  {
    hide CardWanted, Missing, WellFormed, ResumeAll, ReemitAll;
    var p := lists[i].1[j];
    AllListsSettle(ResumeAll(c, keys, answers, freshEpoch).core, lists, i, j);
    MissingIsWanted(ResumePhase(c, keys, answers, freshEpoch, lists).core, lists[i].0, p.requestId, p.card);
  }
}
