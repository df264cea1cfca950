/** The gateway's per-session event log: the server half of gap fill. */
module Gateway {
  import opened Transcript

  datatype Logged = Logged(seqNo: int, body: EventBody)

  datatype Log = Log(lastSeq: nat, events: seq<Logged>)

  /** The next event takes the next seq and is kept for replay. */
  function Record(log: Log, body: EventBody): Log {
    Log(log.lastSeq + 1, log.events + [Logged(log.lastSeq + 1, body)])
  }

  function Newer(events: seq<Logged>, lastSeen: int): seq<Logged> {
    if |events| == 0 then []
    else
      var e := events[|events| - 1];
      Newer(events[..|events| - 1], lastSeen) + if e.seqNo > lastSeen then [e] else []
  }

  /** Seqs count from one without gaps. */
  ghost predicate Dense(log: Log) {
    |log.events| == log.lastSeq && forall i :: 0 <= i < |log.events| ==> log.events[i].seqNo == i + 1
  }

  lemma RecordKeepsDense(log: Log, body: EventBody)
    requires Dense(log)
    ensures Dense(Record(log, body))
  {
  }

  /** On a gap-free log, "newer than this watermark" is exactly the rest of the log. */
  lemma {:induction false} NewerIsTheRest(events: seq<Logged>, lastSeen: nat)
    requires forall i :: 0 <= i < |events| ==> events[i].seqNo == i + 1
    ensures Newer(events, lastSeen) == if lastSeen <= |events| then events[lastSeen..] else []
  {
    if |events| > 0 {
      var n := |events| - 1;
      NewerIsTheRest(events[..n], lastSeen);
      if lastSeen <= n {
        assert events[lastSeen..] == events[..n][lastSeen..] + [events[n]];
      }
    }
  }

  /** What was just recorded is the one thing newer than the log before it, with the next seq. */
  lemma RecordedIsNewer(log: Log, body: EventBody)
    requires Dense(log)
    ensures Newer(Record(log, body).events, log.lastSeq) == [Logged(log.lastSeq + 1, body)]
    ensures forall seen: nat :: seen <= log.lastSeq ==>
              Newer(Record(log, body).events, seen) == Newer(log.events, seen) + [Logged(log.lastSeq + 1, body)]
  {
    var after := Record(log, body).events;
    NewerIsTheRest(after, log.lastSeq);
    forall seen: nat | seen <= log.lastSeq
      ensures Newer(after, seen) == Newer(log.events, seen) + [Logged(log.lastSeq + 1, body)]
    {
      NewerIsTheRest(after, seen);
      NewerIsTheRest(log.events, seen);
    }
  }

  class GatewayState {
    var sessions: map<string, Log>

    constructor ()
      ensures sessions == map[]
    {
      sessions := map[];
    }

    /** Nothing once the session is gone: a late turn cannot resurrect its record. */
    method NextSeqAndRecord(sessionId: string, body: EventBody) returns (seqNo: Option<int>)
      modifies this
      ensures sessionId !in old(sessions) ==> seqNo == None && sessions == old(sessions)
      ensures sessionId in old(sessions) ==>
                && sessions == old(sessions)[sessionId := Record(old(sessions)[sessionId], body)]
                && seqNo == Some(sessions[sessionId].lastSeq)
    {
      if sessionId !in sessions {
        return None;
      }
      var log := sessions[sessionId];
      var next := log.lastSeq + 1;
      sessions := sessions[sessionId := Log(next, log.events + [Logged(next, body)])];
      seqNo := Some(next);
    }

    /** An unknown session is a gap the reply cannot fill, so it is reported as truncated. */
    method EventsSince(sessionId: string, lastSeen: int)
      returns (events: seq<Logged>, latestSeq: int, truncated: bool)
      ensures truncated <==> sessionId !in sessions
      ensures truncated ==> events == [] && latestSeq == lastSeen
      ensures !truncated ==> events == Newer(sessions[sessionId].events, lastSeen)
      ensures !truncated ==> latestSeq == sessions[sessionId].lastSeq
    {
      if sessionId !in sessions {
        return [], lastSeen, true;
      }
      var log := sessions[sessionId];
      events := [];
      for n := 0 to |log.events|
        invariant events == Newer(log.events[..n], lastSeen)
      {
        assert log.events[..n + 1][..n] == log.events[..n];
        if log.events[n].seqNo > lastSeen {
          events := events + [log.events[n]];
        }
      }
      assert log.events[..|log.events|] == log.events;
      latestSeq, truncated := log.lastSeq, false;
    }
  }
}

/** One chat over a socket that drops: live delivery, reconnect, gap fill from the watermark, rebuild,
    re-open, lag, and whatever else happens to the chat and to others in between. */
module GapFill {
  import opened Transcript
  import opened ReducerSpec
  import opened ReducerInvariants
  import opened Registry
  import opened CoreSpec
  import opened ResumeSpec
  import opened Routing
  import opened Watermarks
  import opened Reconnect
  import opened Gateway

  // ── What a transcript was told ────────────────────────────────────────

  /** An event of the log, or an operation of the app: a user row, an answer, a pending card. */
  datatype Entry = Event(e: Logged) | Local(op: Op)

  /** The transcript after one entry. */
  function Tell(s: ReducerState, key: string, entry: Entry): (r: ReducerState)
    requires InBounds(s)
    ensures InBounds(r)
  {
    if entry.Event? then
      EventInBounds(s, entry.e.body);
      OnEvent(s, entry.e.body).state
    else
      PerformInBounds(s, key, entry.op);
      Perform(s, key, entry.op).state
  }

  /** The transcript after these entries in a row. */
  function Play(s: ReducerState, key: string, entries: seq<Entry>): (r: ReducerState)
    requires InBounds(s)
    ensures InBounds(r)
  {
    if |entries| == 0 then s
    else
      Tell(Play(s, key, entries[..|entries| - 1]), key, entries[|entries| - 1])
  }

  function Events(log: seq<Logged>): seq<Entry> {
    if |log| == 0 then [] else Events(log[..|log| - 1]) + [Event(log[|log| - 1])]
  }

  function EventsOf(entries: seq<Entry>): seq<Logged> {
    if |entries| == 0 then []
    else
      match entries[|entries| - 1]
      case Event(e) => EventsOf(entries[..|entries| - 1]) + [e]
      case Local(_) => EventsOf(entries[..|entries| - 1])
  }

  lemma {:induction false} PlayConcat(s: ReducerState, key: string, a: seq<Entry>, b: seq<Entry>)
    requires InBounds(s)
    ensures Play(s, key, a + b) == Play(Play(s, key, a), key, b)
  {
    hide Tell;
    if |b| == 0 {
      assert a + b == a;
    } else {
      PlayConcat(s, key, a, b[..|b| - 1]);
      assert (a + b)[..|a + b| - 1] == a + b[..|b| - 1];
    }
  }

  lemma PlayOne(s: ReducerState, key: string, entry: Entry)
    requires InBounds(s)
    ensures Play(s, key, [entry]) == Tell(s, key, entry)
  {
    hide Tell;
    assert [entry][..0] == [];
    assert Play(s, key, []) == s;
  }

  lemma {:induction false} EventsOfConcat(a: seq<Entry>, b: seq<Entry>)
    ensures EventsOf(a + b) == EventsOf(a) + EventsOf(b)
  {
    if |b| == 0 {
      assert a + b == a;
    } else {
      EventsOfConcat(a, b[..|b| - 1]);
      assert (a + b)[..|a + b| - 1] == a + b[..|b| - 1];
    }
  }

  lemma {:induction false} EventsRoundTrip(log: seq<Logged>)
    ensures EventsOf(Events(log)) == log
  {
    if |log| > 0 {
      EventsRoundTrip(log[..|log| - 1]);
      EventsOfConcat(Events(log[..|log| - 1]), [Event(log[|log| - 1])]);
      assert [Event(log[|log| - 1])][..0] == [];
      assert log == log[..|log| - 1] + [log[|log| - 1]];
    }
  }

  lemma {:induction false} EventsConcat(a: seq<Logged>, b: seq<Logged>)
    ensures Events(a + b) == Events(a) + Events(b)
  {
    if |b| == 0 {
      assert a + b == a;
    } else {
      EventsConcat(a, b[..|b| - 1]);
      assert (a + b)[..|a + b| - 1] == a + b[..|b| - 1];
    }
  }

  // ── The chat's standing in the core ───────────────────────────────────

  /** The chat `key` is open and registered, both watermarks stand at `mark`, and its durable key and
      its live sid route to it. */
  ghost predicate At(c: Core, key: string, mark: nat) {
    && Sound(c) && key != "" && key in c.sessions && Get(c.registry, key).Some?
    && c.sessions[key].lastSeenSeq == mark && RecordMark(c, key) == mark
    && Route(c, key) == Some(key)
    && c.sessions[key].liveSid != "" && c.sessions[key].liveSid in c.sidIndex
    && c.sidIndex[c.sessions[key].liveSid] == key
  }

  function ReplayEpochOf(c: Core, key: string): string {
    var r := Get(c.registry, key);
    if r.Some? then r.value.replayEpoch else ""
  }

  lemma ChatInBounds(c: Core, key: string)
    requires Sound(c) && key in c.sessions
    ensures InBounds(c.sessions[key].reducer)
  {
    WellFormedInBounds(c.sessions[key].reducer);
  }

  /** `b` is `a` after the chat's transcript was told these entries and its marks moved to `mark`; its
      routes and every other chat's stand. */
  ghost predicate Told(a: Core, b: Core, key: string, mark: nat, entries: seq<Entry>)
    requires Sound(a) && key in a.sessions
  {
    && At(b, key, mark)
    && b.sessions[key].reducer == Play(a.sessions[key].reducer, key, entries)
    && b.sidIndex == a.sidIndex && b.sessions.Keys == a.sessions.Keys
    && b.sessions[key].liveSid == a.sessions[key].liveSid
    && ReplayEpochOf(b, key) == ReplayEpochOf(a, key)
  }

  lemma ToldNothing(a: Core, key: string, mark: nat)
    requires At(a, key, mark)
    ensures Told(a, a, key, mark, [])
  {
  }

  lemma ToldThenTold(a: Core, b: Core, d: Core, key: string, mark: nat, first: seq<Entry>, second: seq<Entry>)
    requires Sound(a) && key in a.sessions && Sound(b) && key in b.sessions
    requires b.sessions[key].reducer == Play(a.sessions[key].reducer, key, first)
    requires b.sidIndex == a.sidIndex && b.sessions.Keys == a.sessions.Keys
    requires b.sessions[key].liveSid == a.sessions[key].liveSid && ReplayEpochOf(b, key) == ReplayEpochOf(a, key)
    requires Told(b, d, key, mark, second)
    ensures Told(a, d, key, mark, first + second)
  {
    hide Play;
    PlayConcat(a.sessions[key].reducer, key, first, second);
  }

  lemma DeliverKeepsEpochName(c: Core, key: string, sid: string, e: Logged)
    requires Sound(c) && Route(c, sid) == Some(key)
    ensures ReplayEpochOf(DeliverEvent(c, EventParams(sid, Some(e.seqNo), e.body)).core, key) == ReplayEpochOf(c, key)
  {
    var o := Perform(c.sessions[key].reducer, sid, ApplyEvent(sid, e.body));
    TouchIsSeen(c.registry, key, e.seqNo, "", key);
    RetitleIsSeen(Touch(c.registry, key, e.seqNo, ""), key, o.state.header.title, key);
  }

  function Params(sid: string, e: Logged): EventParams {
    EventParams(sid, Some(e.seqNo), e.body)
  }

  /** A newer event, delivered. */
  lemma DeliverOne(c: Core, key: string, mark: nat, sid: string, e: Logged)
    requires At(c, key, mark) && Route(c, sid) == Some(key) && e.seqNo > mark
    ensures Told(c, DeliverEvent(c, Params(sid, e)).core, key, e.seqNo, [Event(e)])
  {
    DeliverSound(c, Params(sid, e));
    EventReachesOwner(c, Params(sid, e), key);
    DeliverMarks(c, Params(sid, e), key);
    DeliverKeepsEpochName(c, key, sid, e);
    PlayOne(c.sessions[key].reducer, key, Event(e));
  }

  /** An operation of the app on the chat. */
  lemma LocalOne(c: Core, key: string, mark: nat, op: Op)
    requires At(c, key, mark)
    ensures Told(c, OnSession(c, key, op, "").core, key, mark, [Local(op)])
  {
    hide WellFormed;
    OnSessionSound(c, key, op, "");
    ChatInBounds(c, key);
    PlayOne(c.sessions[key].reducer, key, Local(op));
  }

  /** What a step on the chat tells its transcript. */
  function OwnEntries(c: Core, step: Step): seq<Entry> {
    match Operation(c, step)
    case Some(op) => [Local(op)]
    case None => []
  }

  lemma OwnStep(c: Core, key: string, mark: nat, step: Step)
    requires At(c, key, mark) && RunsReducer(step) && step.key == key
    ensures Told(c, Do(c, step).core, key, mark, OwnEntries(c, step))
    ensures EventsOf(OwnEntries(c, step)) == []
  {
    hide Play, WellFormed;
    ReducerStepIs(c, step);
    match Operation(c, step)
    case Some(op) =>
      assert [Local(op)][..0] == [];
      DoSound(c, step);
      LocalOne(c, key, mark, op);
    case None => ToldNothing(c, key, mark);
  }

  /** Hearing events moves no route and gives no sid away. */
  lemma RouteKept(a: Core, b: Core, key: string, sid: string)
    requires a.sidIndex == b.sidIndex && a.sessions.Keys == b.sessions.Keys
    ensures Route(b, sid) == Route(a, sid) && OwnSid(b, key, sid) == OwnSid(a, key, sid)
  {
  }

  /** No other chat has this sid. */
  predicate OwnSid(c: Core, key: string, sid: string) {
    sid != "" && (sid in c.sidIndex ==> c.sidIndex[sid] == key) && (sid in c.sessions ==> sid == key)
  }

  ghost predicate Consecutive(events: seq<Logged>, from: nat) {
    forall i :: 0 <= i < |events| ==> events[i].seqNo == from + 1 + i
  }

  /** The mark after these events of the log, the first of them following position `from`. */
  function MarkAfter(mark: nat, from: nat, events: seq<Logged>): nat {
    if events == [] then mark else from + |events|
  }

  // ── Replay ────────────────────────────────────────────────────────────

  /** The replay of a stretch of the log, addressed by durable key. */
  function AsReplay(key: string, events: seq<Logged>): seq<ReplayedEvent> {
    if |events| == 0 then []
    else
      var e := events[|events| - 1];
      AsReplay(key, events[..|events| - 1]) + [ReplayedEvent(key, e.seqNo, e.body)]
  }

  lemma ReplaySnoc(c: Core, events: seq<ReplayedEvent>, e: ReplayedEvent)
    requires Sound(c)
    ensures ReplayEvents(c, events + [e]).core == DeliverEvent(ReplayEvents(c, events).core, AsParams(e)).core
  {
    assert (events + [e])[..|events|] == events;
  }

  lemma ToldAs(a: Core, b: Core, d: Core, key: string, mark: nat, xs: seq<Entry>, ys: seq<Entry>)
    requires Sound(a) && key in a.sessions && Told(a, b, key, mark, xs) && b == d && xs == ys
    ensures Told(a, d, key, mark, ys)
  {
  }

  lemma ToldOneMore(a: Core, b: Core, key: string, mark: nat, sid: string, first: seq<Entry>, e: Logged)
    requires Sound(a) && key in a.sessions && Told(a, b, key, mark, first)
    requires Route(b, sid) == Some(key) && e.seqNo > mark
    ensures Told(a, DeliverEvent(b, Params(sid, e)).core, key, e.seqNo, first + [Event(e)])
  {
    hide WellFormed;
    DeliverOne(b, key, mark, sid, e);
    ToldThenTold(a, b, DeliverEvent(b, Params(sid, e)).core, key, e.seqNo, first, [Event(e)]);
  }

  lemma {:induction false} ReplayTells(c: Core, key: string, mark: nat, events: seq<Logged>)
    requires At(c, key, mark) && Consecutive(events, mark)
    ensures Told(c, ReplayEvents(c, AsReplay(key, events)).core, key, mark + |events|, Events(events))
  {
    hide DeliverEvent, WellFormed;
    if |events| == 0 {
      ToldNothing(c, key, mark);
      assert events == [];
    } else {
      var n := |events| - 1;
      var e := events[n];
      ReplayTells(c, key, mark, events[..n]);
      var before := ReplayEvents(c, AsReplay(key, events[..n])).core;
      ToldOneMore(c, before, key, mark + n, key, Events(events[..n]), e);
      ReplaySnoc(c, AsReplay(key, events[..n]), ReplayedEvent(key, e.seqNo, e.body));
      ToldAs(c, DeliverEvent(before, Params(key, e)).core, ReplayEvents(c, AsReplay(key, events)).core,
             key, mark + |events|, Events(events[..n]) + [Event(e)], Events(events));
    }
  }

  // ── The network ───────────────────────────────────────────────────────

  /** The core, the gateway's log of the chat, the frames on the wire, the sid they carry, and whether
      the socket is up and the resume phase over. The transcript was last built from a history that
      covered the first `covered` events of the log, which left the core as `built`, and was told
      `applied` since. */
  datatype Net = Net(
    core: Core, log: Log, wire: seq<Logged>, sid: string, up: bool, ready: bool,
    built: Core, covered: nat, applied: seq<Entry>)

  /** `covers` is how much of the log the history in an answer accounts for. A re-open may land while the
      resume phase runs; it leaves the old sid in the index, so frames that still carry it reach the chat
      just as under the new one. `Skip` is a resume phase that passes over the chat: it was opened after
      the phase listed its chats, or the call for its missed events failed. */
  datatype Action =
    | Emit(body: EventBody)
    | Frame
    | Drop
    | Connect(sid: string)
    | Resume(messages: seq<ResumeMessage>, truncated: bool, covers: nat)
    | Skip
    | Lag(lost: nat)
    | Reopen(open: Step, covers: nat)
    | Own(step: Step)
    | Elsewhere(step: Step)

  function Missed(n: Net, key: string): seq<Logged> {
    Newer(n.log.events, RecordMark(n.core, key))
  }

  function AnswerOf(n: Net, key: string, messages: seq<ResumeMessage>, truncated: bool, epoch: string): Answer {
    Answer(n.sid, messages, Replay(AsReplay(key, Missed(n, key)), n.log.lastSeq, truncated, epoch))
  }

  /** When an action can happen at all. */
  predicate Enabled(n: Net, key: string, action: Action) {
    match action
    case Emit(_) => true
    case Frame => n.up && n.ready && n.wire != []
    case Drop => n.up
    case Connect(_) => !n.up
    case Resume(_, _, covers) => n.up && !n.ready && covers <= |n.log.events|
    case Skip => n.up && !n.ready
    case Lag(lost) => n.up && n.ready && lost <= |n.wire|
    case Reopen(open, covers) => n.up && open.Open? && open.key == key && covers <= |n.log.events|
    case Own(step) => RunsReducer(step) && step.key == key
    case Elsewhere(step) => !step.Clear? && Target(n.core, step) != Some(key)
  }

  /** One action; `epoch` is the gateway's replay epoch, the same before and after a drop. */
  function Act(n: Net, key: string, epoch: string, action: Action): Net
    requires Sound(n.core) && Enabled(n, key, action)
  {
    match action
    case Emit(body) =>
      var log := Record(n.log, body);
      n.(log := log, wire := if n.up then n.wire + [log.events[|log.events| - 1]] else n.wire)
    case Frame =>
      n.(core := DeliverEvent(n.core, Params(n.sid, n.wire[0])).core,
         wire := n.wire[1..], applied := n.applied + [Event(n.wire[0])])
    case Drop => n.(up := false, ready := false, wire := [])
    case Connect(sid) => n.(up := true, ready := false, sid := sid, wire := [])
    case Resume(messages, truncated, covers) =>
      var c := ResumeSession(n.core, key, AnswerOf(n, key, messages, truncated, epoch), epoch).core;
      if truncated then n.(core := c, ready := true, built := c, covered := covers, applied := [])
      else n.(core := c, ready := true, applied := n.applied + Events(Missed(n, key)))
    case Skip => n.(core := RepointLiveSid(n.core, key, n.sid).core, ready := true)
    case Lag(lost) =>
      n.(core := ReplayEvents(n.core, AsReplay(key, Missed(n, key))).core,
         wire := n.wire[lost..], applied := n.applied + Events(Missed(n, key)))
    case Reopen(open, covers) =>
      var c := Do(n.core, open).core;
      n.(core := c, sid := open.liveSid, built := c, covered := covers, applied := [])
    case Own(step) => n.(core := Do(n.core, step).core, applied := n.applied + OwnEntries(n.core, step))
    case Elsewhere(step) => n.(core := Do(n.core, step).core)
  }

  /** The gateway hands a sid only to the chat that owns it. */
  ghost predicate Honestly(owner: string -> string, key: string, action: Action) {
    match action
    case Connect(sid) => sid != "" && owner(sid) == key
    case Reopen(open, _) => open.Open? ==> open.liveSid != "" && Honest(owner, open)
    case Elsewhere(step) => Honest(owner, step)
    case _ => true
  }

  /** So far it has done so, and the connection's sid is this chat's. */
  ghost predicate Owned(n: Net, key: string, owner: string -> string) {
    Routed(n.core, owner) && owner(key) == key && (n.up ==> n.sid != "" && owner(n.sid) == key)
  }

  /** How many events of the log the transcript shows. */
  function Position(n: Net): nat {
    n.covered + |EventsOf(n.applied)|
  }

  /** The events of the log the transcript shows, from its history or told since. */
  function Seen(n: Net): seq<Logged>
    requires n.covered <= |n.log.events|
  {
    n.log.events[..n.covered] + EventsOf(n.applied)
  }

  /** A replay is exact if no frame of the chat is on the wire, or left on it by a lag, and the record's
      watermark stands where the transcript does. A history is exact if it covers just what is not on the
      wire, and a resume phase passes over the chat exactly if the transcript shows just that. */
  predicate Exact(n: Net, key: string, action: Action) {
    match action
    case Resume(_, truncated, covers) =>
      if truncated then covers + |n.wire| == |n.log.events|
      else n.wire == [] && RecordMark(n.core, key) == Position(n)
    case Skip => Position(n) + |n.wire| == |n.log.events|
    case Lag(lost) => lost == |n.wire| && RecordMark(n.core, key) == Position(n)
    case Reopen(_, covers) => covers + |n.wire| == |n.log.events|
    case _ => true
  }

  /** A re-open during the resume phase need not be exact: the rest of the phase may still fill the gap. */
  predicate Clean(n: Net, key: string, action: Action) {
    Exact(n, key, action) || (action.Reopen? && !n.ready)
  }

  // ── The books ─────────────────────────────────────────────────────────

  /** The wire is the end of the log, the transcript shows a beginning of it, and when the socket is up
      and resumed the two make up the whole. The marks stand at 0 until the first event since the
      transcript was built, and where the transcript does from then on. */
  ghost predicate Counted(n: Net, mark: int) {
    && Dense(n.log) && Position(n) <= |n.log.events|
    && EventsOf(n.applied) == n.log.events[n.covered..Position(n)]
    && mark == MarkAfter(0, n.covered, EventsOf(n.applied))
    && |n.wire| <= |n.log.events| && n.wire == n.log.events[|n.log.events| - |n.wire|..]
    && (!n.up ==> n.wire == [])
    && (n.up && n.ready ==> Position(n) + |n.wire| == |n.log.events|)
  }

  /** The chat stands in the core where the books say, and its transcript is what it was built as and
      told since. */
  ghost predicate Standing(n: Net, key: string, epoch: string) {
    && At(n.built, key, 0) && At(n.core, key, MarkAfter(0, n.covered, EventsOf(n.applied)))
    && n.core.sessions[key].reducer == Play(n.built.sessions[key].reducer, key, n.applied)
    && (ReplayEpochOf(n.core, key) == "" || ReplayEpochOf(n.core, key) == epoch)
    && (n.up ==> OwnSid(n.core, key, n.sid))
    && (n.up && n.ready ==> n.core.sessions[key].liveSid == n.sid)
  }

  ghost predicate Booked(n: Net, key: string, epoch: string) {
    Counted(n, RecordMark(n.core, key)) && Standing(n, key, epoch)
  }

  /** The record's watermark stands where the transcript does unless the transcript came from a history
      that covered something and no event has arrived since. */
  lemma MarkTellsIff(n: Net, key: string, epoch: string)
    requires Booked(n, key, epoch)
    ensures 0 <= RecordMark(n.core, key) <= Position(n)
    ensures RecordMark(n.core, key) == Position(n) <==> EventsOf(n.applied) != [] || n.covered == 0
  {
  }

  /** On a gap-free log, what is newer than a watermark follows what is not. */
  lemma RestOfTheLog(log: Log, mark: nat)
    requires Dense(log) && mark <= |log.events|
    ensures Newer(log.events, mark) == log.events[mark..] && Consecutive(log.events[mark..], mark)
    ensures log.events[..mark] + log.events[mark..] == log.events
  {
    NewerIsTheRest(log.events, mark);
  }

  lemma CountEmit(n: Net, n': Net, mark: int, body: EventBody)
    requires Counted(n, mark)
    requires n'.log == Record(n.log, body) && n'.covered == n.covered && n'.applied == n.applied
    requires n'.up == n.up && n'.ready == n.ready
    requires n'.wire == if n.up then n.wire + [n'.log.events[|n.log.events|]] else n.wire
    ensures Counted(n', mark)
  {
    RecordKeepsDense(n.log, body);
    assert n'.log.events[n.covered..Position(n)] == n.log.events[n.covered..Position(n)];
  }

  lemma EmitKeeps(n: Net, key: string, epoch: string, body: EventBody)
    requires Booked(n, key, epoch)
    ensures Booked(Act(n, key, epoch, Emit(body)), key, epoch)
  {
    hide WellFormed, Play;
    CountEmit(n, Act(n, key, epoch, Emit(body)), RecordMark(n.core, key), body);
  }

  /** The books after the transcript was told more. */
  lemma CountMore(n: Net, n': Net, mark: int, more: seq<Entry>)
    requires Counted(n, mark) && n'.log == n.log && n'.covered == n.covered && n'.applied == n.applied + more
    requires EventsOf(more) <= n.log.events[Position(n)..]
    requires |n'.wire| <= |n.log.events| && n'.wire == n.log.events[|n.log.events| - |n'.wire|..]
    requires n'.up == n.up && (!n.up ==> n'.wire == [])
    requires n'.up && n'.ready ==> Position(n) + |EventsOf(more)| + |n'.wire| == |n.log.events|
    ensures Counted(n', MarkAfter(mark, Position(n), EventsOf(more)))
  {
    EventsOfConcat(n.applied, more);
    SliceMore(n.log.events, n.covered, Position(n), EventsOf(more));
  }

  lemma SliceMore(log: seq<Logged>, from: nat, to: nat, more: seq<Logged>)
    requires from <= to <= |log| && more <= log[to..]
    ensures to + |more| <= |log| && log[from..to] + more == log[from..to + |more|]
  {
    assert forall i :: 0 <= i < |more| ==> more[i] == log[to..][i];
  }

  /** The transcript is told more, its marks follow, and the wire shrinks or stays. */
  lemma TellingKeeps(n: Net, n': Net, key: string, epoch: string, more: seq<Entry>)
    requires Booked(n, key, epoch)
    requires n' == n.(core := n'.core, wire := n'.wire, ready := n'.ready, applied := n.applied + more)
    requires EventsOf(more) <= n.log.events[Position(n)..]
    requires |n'.wire| <= |n.log.events| && n'.wire == n.log.events[|n.log.events| - |n'.wire|..]
    requires !n.up ==> n'.wire == []
    requires At(n'.core, key, MarkAfter(RecordMark(n.core, key), Position(n), EventsOf(more)))
    requires n'.core.sessions[key].reducer == Play(n.core.sessions[key].reducer, key, more)
    requires ReplayEpochOf(n'.core, key) == "" || ReplayEpochOf(n'.core, key) == epoch
    requires n.up ==> OwnSid(n'.core, key, n.sid)
    requires n.up && n'.ready ==> Position(n) + |EventsOf(more)| + |n'.wire| == |n.log.events|
                                  && n'.core.sessions[key].liveSid == n.sid
    ensures Booked(n', key, epoch)
  {
    hide Play, WellFormed, EventsOf, Route, OwnSid;
    ChatInBounds(n.built, key);
    PlayConcat(n.built.sessions[key].reducer, key, n.applied, more);
    CountMore(n, n', RecordMark(n.core, key), more);
  }

  lemma FrameKeeps(n: Net, key: string, epoch: string)
    requires Booked(n, key, epoch) && Enabled(n, key, Frame)
    ensures Booked(Act(n, key, epoch, Frame), key, epoch)
  {
    hide Play, WellFormed, DeliverEvent;
    var e, c := n.wire[0], n.core;
    assert e == n.log.events[Position(n)];
    DeliverOne(c, key, RecordMark(c, key), n.sid, e);
    RouteKept(c, DeliverEvent(c, Params(n.sid, e)).core, key, n.sid);
    OneEvent(e);
    TellingKeeps(n, Act(n, key, epoch, Frame), key, epoch, [Event(e)]);
  }

  lemma OneEvent(e: Logged)
    ensures EventsOf([Event(e)]) == [e]
  {
    assert [Event(e)][..0] == [];
  }

  lemma OwnKeeps(n: Net, key: string, epoch: string, step: Step)
    requires Booked(n, key, epoch) && Enabled(n, key, Own(step))
    ensures Booked(Act(n, key, epoch, Own(step)), key, epoch)
  {
    hide Do, Play, WellFormed;
    OwnStep(n.core, key, RecordMark(n.core, key), step);
    RouteKept(n.core, Do(n.core, step).core, key, n.sid);
    TellingKeeps(n, Act(n, key, epoch, Own(step)), key, epoch, OwnEntries(n.core, step));
  }

  /** What an honest gateway gives: the chat's key and live sid route to it, and its sids are its own. */
  lemma OwnedStands(c: Core, key: string, owner: string -> string, sid: string)
    requires Routed(c, owner) && owner(key) == key && key in c.sessions && c.sessions[key].liveSid != ""
    requires sid != "" ==> owner(sid) == key
    ensures key != "" ==> Route(c, key) == Some(key)
    ensures c.sessions[key].liveSid in c.sidIndex && c.sidIndex[c.sessions[key].liveSid] == key
    ensures sid != "" ==> OwnSid(c, key, sid)
  {
  }

  lemma ElsewhereKeeps(n: Net, key: string, epoch: string, owner: string -> string, step: Step)
    requires Booked(n, key, epoch) && Owned(n, key, owner) && Enabled(n, key, Elsewhere(step)) && Honest(owner, step)
    ensures Booked(Act(n, key, epoch, Elsewhere(step)), key, epoch)
  {
    hide Do, Play, WellFormed, Routed, Route, OwnSid;
    DoSound(n.core, step);
    OthersUntouched(n.core, step, key);
    StepKeepsRouted(n.core, step, owner);
    OwnedStands(Do(n.core, step).core, key, owner, if n.up then n.sid else "");
  }

  /** What is newer than the record's watermark. */
  lemma MissedIsLogged(n: Net, key: string)
    requires Counted(n, RecordMark(n.core, key))
    ensures 0 <= RecordMark(n.core, key) <= Position(n) <= |n.log.events|
    ensures Missed(n, key) == n.log.events[RecordMark(n.core, key)..]
  {
    RestOfTheLog(n.log, RecordMark(n.core, key));
  }

  lemma MissedFollows(n: Net, key: string)
    requires Counted(n, RecordMark(n.core, key)) && RecordMark(n.core, key) >= 0
    ensures Consecutive(Missed(n, key), RecordMark(n.core, key))
    ensures RecordMark(n.core, key) + |Missed(n, key)| == |n.log.events|
  {
    RestOfTheLog(n.log, RecordMark(n.core, key));
  }

  // ── Gap fill ──────────────────────────────────────────────────────────

  /** Repointing to a sid of its own keeps the chat's standing and routes the new sid to it. */
  lemma RepointStays(c: Core, key: string, mark: nat, sid: string)
    requires At(c, key, mark) && OwnSid(c, key, sid)
    ensures var c' := RepointLiveSid(c, key, sid).core;
            && At(c', key, mark) && OwnSid(c', key, sid) && Route(c', sid) == Some(key)
            && c'.sessions[key].reducer == c.sessions[key].reducer
            && c'.sessions[key].liveSid == sid && c'.registry == c.registry
  {
  }

  lemma AcknowledgeStays(c: Core, key: string, mark: nat, epoch: string)
    requires At(c, key, mark)
    ensures var c' := Acknowledge(c, key, mark, epoch).core;
            && At(c', key, mark) && c'.sessions == c.sessions && c'.sidIndex == c.sidIndex
            && ReplayEpochOf(c', key) == if epoch != "" then epoch else ReplayEpochOf(c, key)
  {
    TouchIsSeen(c.registry, key, mark, epoch, key);
  }

  /** Whatever the transcript shows, a gap fill tells it the log from the record's watermark on. */
  lemma ResumeReplaysFromTheMark(n: Net, key: string, epoch: string, messages: seq<ResumeMessage>)
    requires Booked(n, key, epoch) && n.up
    ensures var mark := RecordMark(n.core, key);
            var c' := ResumeSession(n.core, key, AnswerOf(n, key, messages, false, epoch), epoch).core;
            && 0 <= mark <= |n.log.events| && Missed(n, key) == n.log.events[mark..]
            && At(c', key, |n.log.events|)
            && c'.sessions[key].reducer == Play(n.core.sessions[key].reducer, key, Events(n.log.events[mark..]))
            && c'.sessions[key].liveSid == n.sid
            && (ReplayEpochOf(c', key) == "" || ReplayEpochOf(c', key) == epoch)
            && (epoch != "" ==> ReplayEpochOf(c', key) == epoch)
            && OwnSid(c', key, n.sid)
  {
    hide Play, WellFormed, ReplayEvents, Events;
    var mark := RecordMark(n.core, key);
    RestOfTheLog(n.log, mark);
    RepointStays(n.core, key, mark, n.sid);
    var pointed := RepointLiveSid(n.core, key, n.sid).core;
    ReplayTells(pointed, key, mark, Missed(n, key));
    var filled := ReplayEvents(pointed, AsReplay(key, Missed(n, key))).core;
    AcknowledgeStays(filled, key, |n.log.events|, epoch);
  }

  lemma CatchUpReplaysFromTheMark(n: Net, key: string, epoch: string)
    requires Booked(n, key, epoch) && n.up && n.ready
    ensures var mark := RecordMark(n.core, key);
            var c' := ReplayEvents(n.core, AsReplay(key, Missed(n, key))).core;
            && 0 <= mark <= |n.log.events| && Missed(n, key) == n.log.events[mark..]
            && At(c', key, |n.log.events|)
            && c'.sessions[key].reducer == Play(n.core.sessions[key].reducer, key, Events(n.log.events[mark..]))
            && ReplayEpochOf(c', key) == ReplayEpochOf(n.core, key)
            && OwnSid(c', key, n.sid) && c'.sessions[key].liveSid == n.sid
  {
    hide Play, WellFormed, ReplayEvents, Events, Newer, AsReplay, OwnSid, Counted;
    MissedIsLogged(n, key);
    MissedFollows(n, key);
    ReplayTells(n.core, key, RecordMark(n.core, key), Missed(n, key));
    RouteKept(n.core, ReplayEvents(n.core, AsReplay(key, Missed(n, key))).core, key, n.sid);
  }

  lemma MissedBooks(n: Net, key: string, epoch: string)
    requires Booked(n, key, epoch) && RecordMark(n.core, key) == Position(n)
    ensures EventsOf(Events(Missed(n, key))) == Missed(n, key) == n.log.events[Position(n)..]
    ensures MarkAfter(RecordMark(n.core, key), Position(n), Missed(n, key)) == |n.log.events|
  {
    RestOfTheLog(n.log, Position(n));
    EventsRoundTrip(Missed(n, key));
  }

  lemma ResumeKeeps(n: Net, key: string, epoch: string, messages: seq<ResumeMessage>, covers: nat)
    requires var action := Resume(messages, false, covers);
             Booked(n, key, epoch) && Enabled(n, key, action) && Clean(n, key, action)
    ensures Booked(Act(n, key, epoch, Resume(messages, false, covers)), key, epoch)
  {
    hide Play, WellFormed, ResumeSession, Events;
    MissedBooks(n, key, epoch);
    ResumeReplaysFromTheMark(n, key, epoch, messages);
    TellingKeeps(n, Act(n, key, epoch, Resume(messages, false, covers)), key, epoch, Events(Missed(n, key)));
  }

  lemma LagKeeps(n: Net, key: string, epoch: string, lost: nat)
    requires Booked(n, key, epoch) && Enabled(n, key, Lag(lost)) && Clean(n, key, Lag(lost))
    ensures Booked(Act(n, key, epoch, Lag(lost)), key, epoch)
  {
    hide Play, WellFormed, ReplayEvents, Events;
    MissedBooks(n, key, epoch);
    CatchUpReplaysFromTheMark(n, key, epoch);
    TellingKeeps(n, Act(n, key, epoch, Lag(lost)), key, epoch, Events(Missed(n, key)));
  }

  // ── Building a transcript from its history ────────────────────────────

  /** A truncated answer rebuilds: the history's rows, and both watermarks back at 0. */
  lemma TruncatedRebuilds(n: Net, key: string, epoch: string, messages: seq<ResumeMessage>)
    requires Booked(n, key, epoch) && n.up
    ensures var c' := ResumeSession(n.core, key, AnswerOf(n, key, messages, true, epoch), epoch).core;
            && At(c', key, 0) && c'.sessions[key].reducer == IngestMessages(messages).state
            && (ReplayEpochOf(c', key) == "" || ReplayEpochOf(c', key) == epoch)
            && OwnSid(c', key, n.sid) && c'.sessions[key].liveSid == n.sid
  {
    hide Play, WellFormed, IngestMessages;
    var mark := RecordMark(n.core, key);
    RepointStays(n.core, key, mark, n.sid);
    var pointed := RepointLiveSid(n.core, key, n.sid).core;
    RebuildSound(pointed, key, messages, NonEmpty(epoch));
    RestartIsSeen(pointed.registry, key, NonEmpty(epoch), key);
  }

  /** So does a re-open; the record keeps its replay epoch. */
  lemma ReopenBuilds(c: Core, key: string, mark: nat, open: Step)
    requires At(c, key, mark) && open.Open? && open.key == key && OwnSid(c, key, open.liveSid)
    ensures var c' := Do(c, open).core;
            && At(c', key, 0) && c'.sessions[key].reducer == OpenedReducer(open.messages).state
            && ReplayEpochOf(c', key) == ReplayEpochOf(c, key)
            && OwnSid(c', key, open.liveSid) && c'.sessions[key].liveSid == open.liveSid
  {
    hide WellFormed, IngestMessages;
    DoSound(c, open);
    UpsertIsSeen(c.registry, OpenRecord(c, key, open.cols, open.profile), key);
  }

  /** A freshly built transcript is booked when its history covers just what is not on the wire, or the
      resume phase is still to come. */
  lemma BuildingKeeps(n: Net, n': Net, key: string, epoch: string)
    requires Booked(n, key, epoch) && n.up && n'.log == n.log && n'.wire == n.wire && n'.up
    requires n'.built == n'.core && n'.applied == [] && n'.covered <= |n.log.events|
    requires n'.ready ==> n'.covered + |n.wire| == |n.log.events|
    requires At(n'.core, key, 0) && OwnSid(n'.core, key, n'.sid) && n'.core.sessions[key].liveSid == n'.sid
    requires ReplayEpochOf(n'.core, key) == "" || ReplayEpochOf(n'.core, key) == epoch
    ensures Booked(n', key, epoch)
  {
    hide WellFormed;
    ChatInBounds(n'.core, key);
    assert Play(n'.core.sessions[key].reducer, key, []) == n'.core.sessions[key].reducer;
  }

  lemma RebuildKeeps(n: Net, key: string, epoch: string, messages: seq<ResumeMessage>, covers: nat)
    requires var action := Resume(messages, true, covers);
             Booked(n, key, epoch) && Enabled(n, key, action) && Clean(n, key, action)
    ensures Booked(Act(n, key, epoch, Resume(messages, true, covers)), key, epoch)
  {
    hide Play, WellFormed, ResumeSession;
    TruncatedRebuilds(n, key, epoch, messages);
    BuildingKeeps(n, Act(n, key, epoch, Resume(messages, true, covers)), key, epoch);
  }

  lemma ReopenKeeps(n: Net, key: string, epoch: string, open: Step, covers: nat)
    requires var action := Reopen(open, covers);
             Booked(n, key, epoch) && Enabled(n, key, action) && Clean(n, key, action)
    requires OwnSid(n.core, key, open.liveSid)
    ensures Booked(Act(n, key, epoch, Reopen(open, covers)), key, epoch)
  {
    hide Play, WellFormed, Do;
    ReopenBuilds(n.core, key, RecordMark(n.core, key), open);
    BuildingKeeps(n, Act(n, key, epoch, Reopen(open, covers)), key, epoch);
  }

  // ── Runs ──────────────────────────────────────────────────────────────

  lemma ActKeeps(n: Net, key: string, epoch: string, owner: string -> string, action: Action)
    requires Booked(n, key, epoch) && Owned(n, key, owner)
    requires Enabled(n, key, action) && Honestly(owner, key, action) && Clean(n, key, action)
    ensures Booked(Act(n, key, epoch, action), key, epoch)
  {
    hide Booked, Owned, Act, Clean;
    match action
    case Emit(body) => EmitKeeps(n, key, epoch, body);
    case Frame => FrameKeeps(n, key, epoch);
    case Drop => SocketKeeps(n, key, epoch, owner, action);
    case Connect(_) => SocketKeeps(n, key, epoch, owner, action);
    case Resume(messages, truncated, covers) =>
      if truncated {
        RebuildKeeps(n, key, epoch, messages, covers);
      } else {
        ResumeKeeps(n, key, epoch, messages, covers);
      }
    case Skip => SkipKeeps(n, key, epoch);
    case Lag(lost) => LagKeeps(n, key, epoch, lost);
    case Reopen(open, covers) =>
      OwnSidOf(n, key, epoch, owner, open.liveSid);
      ReopenKeeps(n, key, epoch, open, covers);
    case Own(step) => OwnKeeps(n, key, epoch, step);
    case Elsewhere(step) => ElsewhereKeeps(n, key, epoch, owner, step);
  }

  /** A sid the gateway hands to this chat is its own. */
  lemma OwnSidOf(n: Net, key: string, epoch: string, owner: string -> string, sid: string)
    requires Booked(n, key, epoch) && Owned(n, key, owner) && sid != "" && owner(sid) == key
    ensures OwnSid(n.core, key, sid)
  {
    hide Play, WellFormed;
    OwnedStands(n.core, key, owner, sid);
  }

  lemma SocketKeeps(n: Net, key: string, epoch: string, owner: string -> string, action: Action)
    requires Booked(n, key, epoch) && Owned(n, key, owner)
    requires (action.Drop? || action.Connect?) && Enabled(n, key, action) && Honestly(owner, key, action)
    ensures Booked(Act(n, key, epoch, action), key, epoch)
  {
    hide Play, WellFormed, OwnSid, Routed;
    if action.Connect? {
      OwnSidOf(n, key, epoch, owner, action.sid);
    }
  }

  lemma SkipKeeps(n: Net, key: string, epoch: string)
    requires Booked(n, key, epoch) && Enabled(n, key, Skip) && Clean(n, key, Skip)
    ensures Booked(Act(n, key, epoch, Skip), key, epoch)
  {
    hide Play, WellFormed, RepointLiveSid;
    RepointStays(n.core, key, RecordMark(n.core, key), n.sid);
  }

  lemma ActSound(n: Net, key: string, epoch: string, action: Action)
    requires Sound(n.core) && Enabled(n, key, action)
    ensures Sound(Act(n, key, epoch, action).core)
  {
    hide WellFormed, Do;
    match action
    case Frame => DeliverSound(n.core, Params(n.sid, n.wire[0]));
    case Reopen(open, _) => DoSound(n.core, open);
    case Own(step) => DoSound(n.core, step);
    case Elsewhere(step) => DoSound(n.core, step);
    case Emit(_) =>
    case Drop =>
    case Connect(_) =>
    case Resume(_, _, _) =>
    case Skip =>
    case Lag(_) =>
  }

  lemma ActOwned(n: Net, key: string, epoch: string, owner: string -> string, action: Action)
    requires Sound(n.core) && Owned(n, key, owner) && Enabled(n, key, action) && Honestly(owner, key, action)
    ensures Owned(Act(n, key, epoch, action), key, owner)
  {
    hide Routed, WellFormed, Do, DeliverEvent, ReplayEvents, ResumeSession, RepointLiveSid;
    match action
    case Frame => DeliverKeepsRouted(n.core, Params(n.sid, n.wire[0]), owner);
    case Resume(messages, truncated, _) =>
      ResumeKeepsRouted(n.core, key, AnswerOf(n, key, messages, truncated, epoch), epoch, owner);
    case Skip => RepointKeepsRouted(n.core, key, n.sid, owner);
    case Lag(_) => ReplayKeepsRouted(n.core, AsReplay(key, Missed(n, key)), owner);
    case Reopen(open, _) => StepKeepsRouted(n.core, open, owner);
    case Own(step) => StepKeepsRouted(n.core, step, owner);
    case Elsewhere(step) => StepKeepsRouted(n.core, step, owner);
    case Emit(_) =>
    case Drop =>
    case Connect(_) =>
  }

  /** The network after a run, or nothing if the run breaks a rule on the way: an action that is not
      enabled, or a replay or history that is not clean. */
  ghost function RunNet(n: Net, key: string, epoch: string, actions: seq<Action>): (r: Option<Net>)
    requires Sound(n.core)
    ensures r.Some? ==> Sound(r.value.core)
    decreases |actions|
  {
    if |actions| == 0 then Some(n)
    else
      var before := RunNet(n, key, epoch, actions[..|actions| - 1]);
      var action := actions[|actions| - 1];
      if before.None? || !Enabled(before.value, key, action) || !Clean(before.value, key, action) then None
      else
        ActSound(before.value, key, epoch, action);
        Some(Act(before.value, key, epoch, action))
  }

  ghost predicate AllHonest(owner: string -> string, key: string, actions: seq<Action>) {
    forall i :: 0 <= i < |actions| ==> Honestly(owner, key, actions[i])
  }

  lemma {:induction false} RunBooked(
    n: Net, key: string, epoch: string, owner: string -> string, actions: seq<Action>)
    requires Booked(n, key, epoch) && Owned(n, key, owner) && AllHonest(owner, key, actions)
    ensures var r := RunNet(n, key, epoch, actions);
            r.Some? ==> Booked(r.value, key, epoch) && Owned(r.value, key, owner)
  {
    hide Act, Booked, Owned, Honestly;
    assert Sound(n.core) by { BookedSound(n, key, epoch); }
    if |actions| > 0 {
      var before := RunNet(n, key, epoch, actions[..|actions| - 1]);
      var action := actions[|actions| - 1];
      RunBooked(n, key, epoch, owner, actions[..|actions| - 1]);
      if before.Some? && Enabled(before.value, key, action) && Clean(before.value, key, action) {
        ActKeeps(before.value, key, epoch, owner, action);
        ActOwned(before.value, key, epoch, owner, action);
      }
    }
  }

  lemma BookedSound(n: Net, key: string, epoch: string)
    requires Booked(n, key, epoch)
    ensures Sound(n.core) && Sound(n.built) && key in n.core.sessions && key in n.built.sessions
  {
  }

  // ── The promise ───────────────────────────────────────────────────────

  /** A chat that was just built from a history, over a live socket, during the resume phase or after it;
      after it, the history covers all of the log but what is on the wire. */
  ghost predicate JustBuilt(n: Net, key: string, epoch: string) {
    && At(n.core, key, 0) && n.built == n.core && n.applied == [] && Dense(n.log) && n.up
    && n.covered <= |n.log.events| && |n.wire| <= |n.log.events|
    && n.wire == n.log.events[|n.log.events| - |n.wire|..]
    && (n.ready ==> n.covered + |n.wire| == |n.log.events|)
    && OwnSid(n.core, key, n.sid) && n.core.sessions[key].liveSid == n.sid
    && (ReplayEpochOf(n.core, key) == "" || ReplayEpochOf(n.core, key) == epoch)
  }

  /** A chat that is opened first from a history, with the end of the log on the wire. */
  function Opened(c: Core, log: Log, onWire: nat, sid: string, ready: bool, covers: nat): Net
    requires onWire <= |log.events|
  {
    Net(c, log, log.events[|log.events| - onWire..], sid, true, ready, c, covers, [])
  }

  /** Opening a chat from any history, on any log, gives such a chat. */
  lemma OpenIsJustBuilt(
    known: Tabs, key: string, epoch: string, owner: string -> string, open: Step, log: Log,
    onWire: nat, covers: nat, ready: bool)
    requires open.Open? && open.key == key && key != "" && open.liveSid != "" && Honest(owner, open)
    requires Dense(log) && onWire <= |log.events| && covers <= |log.events|
    requires ready ==> covers + onWire == |log.events|
    requires Get(known, key).Some? ==> Get(known, key).value.replayEpoch in {"", epoch}
    ensures Sound(NewCore(known))
    ensures var n := Opened(Do(NewCore(known), open).core, log, onWire, open.liveSid, ready, covers);
            JustBuilt(n, key, epoch) && Owned(n, key, owner)
  {
    hide WellFormed, Do, Routed, At, ReplayEpochOf, OwnSid;
    NewIsRouted(known, owner);
    StepKeepsRouted(NewCore(known), open, owner);
    FirstOpen(known, key, open);
  }

  lemma FirstOpen(known: Tabs, key: string, open: Step)
    requires open.Open? && open.key == key && key != "" && open.liveSid != ""
    ensures Sound(NewCore(known))
    ensures var c := Do(NewCore(known), open).core;
            && At(c, key, 0) && OwnSid(c, key, open.liveSid) && c.sessions[key].liveSid == open.liveSid
            && ReplayEpochOf(c, key) == if Get(known, key).Some? then Get(known, key).value.replayEpoch else ""
  {
    hide WellFormed, IngestMessages;
    DoSound(NewCore(known), open);
    UpsertIsSeen(known, OpenRecord(NewCore(known), key, open.cols, open.profile), key);
  }

  lemma NewIsRouted(known: Tabs, owner: string -> string)
    ensures Routed(NewCore(known), owner)
  {
  }

  /** One entry on a socket that never drops. */
  function StraightOn(c: Core, key: string, sid: string, entry: Entry): (r: Core)
    requires Sound(c)
    ensures Sound(r)
  {
    if entry.Event? then
      DeliverSound(c, Params(sid, entry.e));
      DeliverEvent(c, Params(sid, entry.e)).core
    else if key in c.sessions then
      OnSessionSound(c, key, entry.op, "");
      OnSession(c, key, entry.op, "").core
    else c
  }

  /** The same chat had the socket never dropped: every event delivered live, one by one, between the
      same operations of the app. */
  function Straight(c: Core, key: string, sid: string, entries: seq<Entry>): (r: Core)
    requires Sound(c)
    ensures Sound(r)
  {
    if |entries| == 0 then c
    else
      StraightOn(Straight(c, key, sid, entries[..|entries| - 1]), key, sid, entries[|entries| - 1])
  }

  lemma StraightSnoc(c: Core, key: string, sid: string, entries: seq<Entry>, entry: Entry)
    requires Sound(c)
    ensures Straight(c, key, sid, entries + [entry]) == StraightOn(Straight(c, key, sid, entries), key, sid, entry)
  {
    hide StraightOn, WellFormed;
    assert (entries + [entry])[..|entries|] == entries;
  }

  lemma StraightStep(c: Core, before: Core, key: string, sid: string, mark: nat, entries: seq<Entry>, entry: Entry)
    requires Sound(c) && key in c.sessions && Route(c, sid) == Some(key) && Told(c, before, key, mark, entries)
    requires entry.Event? ==> entry.e.seqNo > mark
    ensures Told(c, StraightOn(before, key, sid, entry), key,
                 if entry.Event? then entry.e.seqNo else mark, entries + [entry])
  {
    hide Play, WellFormed, DeliverEvent, OnSession;
    match entry
    case Event(e) =>
      RouteKept(c, before, key, sid);
      ToldOneMore(c, before, key, mark, sid, entries, e);
    case Local(op) =>
      LocalOne(before, key, mark, op);
      ToldThenTold(c, before, OnSession(before, key, op, "").core, key, mark, entries, [entry]);
  }

  lemma LastSeq(entries: seq<Entry>, from: nat)
    requires |entries| > 0 && Consecutive(EventsOf(entries), from)
    ensures var init, entry := entries[..|entries| - 1], entries[|entries| - 1];
            && Consecutive(EventsOf(init), from)
            && (entry.Event? ==> entry.e.seqNo > MarkAfter(0, from, EventsOf(init)))
            && MarkAfter(0, from, EventsOf(entries))
               == if entry.Event? then entry.e.seqNo else MarkAfter(0, from, EventsOf(init))
  {
    var init, entry := entries[..|entries| - 1], entries[|entries| - 1];
    if entry.Event? {
      var events := EventsOf(entries);
      assert events == EventsOf(init) + [entry.e];
      assert forall i :: 0 <= i < |EventsOf(init)| ==> EventsOf(init)[i] == events[i];
      assert events[|events| - 1] == entry.e;
    }
  }

  lemma {:induction false} StraightTells(c: Core, key: string, sid: string, from: nat, entries: seq<Entry>)
    requires At(c, key, 0) && Route(c, sid) == Some(key) && Consecutive(EventsOf(entries), from)
    ensures Told(c, Straight(c, key, sid, entries), key, MarkAfter(0, from, EventsOf(entries)), entries)
  {
    hide Told, StraightOn, WellFormed, Straight, Play, EventsOf, MarkAfter, Consecutive;
    if |entries| == 0 {
      StraightNothing(c, key, sid);
      ToldNothing(c, key, 0);
      NoEvents(from);
      assert entries == [];
    } else {
      var init, entry := entries[..|entries| - 1], entries[|entries| - 1];
      LastSeq(entries, from);
      StraightTells(c, key, sid, from, init);
      StraightStep(c, Straight(c, key, sid, init), key, sid, MarkAfter(0, from, EventsOf(init)), init, entry);
      StraightSnoc(c, key, sid, init, entry);
      assert entries == init + [entry];
    }
  }

  lemma NoEvents(from: nat)
    ensures MarkAfter(0, from, EventsOf([])) == 0
  {
  }

  lemma StraightNothing(c: Core, key: string, sid: string)
    requires Sound(c)
    ensures Straight(c, key, sid, []) == c
  {
  }

  /** From a chat just built from any history, over any number of drops, reconnects under new sids,
      rebuilds, re-opens, sends, answers and cards, with other chats doing what they like: if every
      replay and history on the way was clean, then once the socket is up, resumed and its wire drained,
      the transcript was told each event the last history did not cover exactly once and in order, and
      its rows, header and latches and both watermarks are those of a socket that never dropped. */
  lemma GapFillEqualsUninterrupted(
    n: Net, key: string, epoch: string, owner: string -> string, actions: seq<Action>)
    requires JustBuilt(n, key, epoch) && Owned(n, key, owner) && AllHonest(owner, key, actions)
    ensures var r := RunNet(n, key, epoch, actions);
            r.Some? && r.value.up && r.value.ready && r.value.wire == [] ==>
              var Net(core, log, _, _, _, _, built, covered, applied) := r.value;
              && covered <= |log.events| && EventsOf(applied) == log.events[covered..]
              && Sound(built) && key in built.sessions && key in core.sessions
              && var straight := Straight(built, key, built.sessions[key].liveSid, applied);
                 && key in straight.sessions
                 && core.sessions[key].reducer == straight.sessions[key].reducer
                 && core.sessions[key].lastSeenSeq == straight.sessions[key].lastSeenSeq
                 && RecordMark(core, key) == RecordMark(straight, key)
  {
    JustBuiltBooked(n, key, epoch);
    RunBooked(n, key, epoch, owner, actions);
    var r := RunNet(n, key, epoch, actions);
    if r.Some? && r.value.up && r.value.ready && r.value.wire == [] {
      BookedIsStraight(r.value, key, epoch);
    }
  }

  lemma JustBuiltBooked(n: Net, key: string, epoch: string)
    requires JustBuilt(n, key, epoch)
    ensures Booked(n, key, epoch)
  {
    hide WellFormed;
    ChatInBounds(n.core, key);
    assert Play(n.core.sessions[key].reducer, key, []) == n.core.sessions[key].reducer;
  }

  lemma BookedIsStraight(n: Net, key: string, epoch: string)
    requires Booked(n, key, epoch) && n.up && n.ready && n.wire == []
    ensures n.covered <= |n.log.events| && EventsOf(n.applied) == n.log.events[n.covered..]
    ensures Sound(n.built) && key in n.built.sessions && key in n.core.sessions
    ensures var straight := Straight(n.built, key, n.built.sessions[key].liveSid, n.applied);
            && key in straight.sessions
            && n.core.sessions[key].reducer == straight.sessions[key].reducer
            && n.core.sessions[key].lastSeenSeq == straight.sessions[key].lastSeenSeq
            && RecordMark(n.core, key) == RecordMark(straight, key)
  {
    hide Play, WellFormed, Straight;
    assert Consecutive(EventsOf(n.applied), n.covered);
    StraightTells(n.built, key, n.built.sessions[key].liveSid, n.covered, n.applied);
  }

  /** A second resume right after another changes nothing and delivers nothing. */
  lemma SecondResumeIsSilent(
    n: Net, key: string, epoch: string, m1: seq<ResumeMessage>, covers: nat, m2: seq<ResumeMessage>)
    requires Booked(n, key, epoch) && Enabled(n, key, Resume(m1, false, covers))
    ensures var once := Act(n, key, epoch, Resume(m1, false, covers));
            Sound(once.core)
            && ResumeSession(once.core, key, AnswerOf(once, key, m2, false, epoch), epoch) == Effect(once.core, [])
  {
    hide Play, WellFormed, ResumeSession;
    ResumeReplaysFromTheMark(n, key, epoch, m1);
    var once := Act(n, key, epoch, Resume(m1, false, covers));
    RestOfTheLog(once.log, |once.log.events|);
    UpToDateResume(once, key, epoch, m2);
  }

  /** A resume of a chat whose marks stand at the end of the log, under the sid it has. */
  lemma UpToDateResume(n: Net, key: string, epoch: string, messages: seq<ResumeMessage>)
    requires Dense(n.log) && At(n.core, key, |n.log.events|) && n.core.sessions[key].liveSid == n.sid
    requires ReplayEpochOf(n.core, key) == "" || ReplayEpochOf(n.core, key) == epoch
    requires epoch != "" ==> ReplayEpochOf(n.core, key) == epoch
    requires Missed(n, key) == []
    ensures ResumeSession(n.core, key, AnswerOf(n, key, messages, false, epoch), epoch) == Effect(n.core, [])
  {
    hide WellFormed, Missed;
    assert AsReplay(key, Missed(n, key)) == [];
    var i := Find(n.core.registry.records, key).value;
    var r := n.core.registry.records[i];
    assert Touched(r, n.log.lastSeq, epoch) == r;
    assert n.core.registry.records[i := r] == n.core.registry.records;
  }

  // ── Exactly when it holds ─────────────────────────────────────────────

  /** The actions that build the transcript from a history. */
  predicate Builds(action: Action) {
    action.Reopen? || (action.Resume? && action.truncated)
  }

  /** The actions that replay, or build from a history, or pass over a gap. */
  predicate Fills(action: Action) {
    action.Resume? || action.Skip? || action.Lag? || action.Reopen?
  }

  /** What such an action replays. */
  function Replayed(n: Net, key: string, action: Action): seq<Logged> {
    if Builds(action) || action.Skip? then [] else Missed(n, key)
  }

  /** How much of the log the transcript it starts from shows. */
  function ShownFrom(n: Net, action: Action): nat {
    if Builds(action) then action.covers else Position(n)
  }

  /** The events that transcript does not show yet. */
  function Due(n: Net, action: Action): seq<Logged>
    requires ShownFrom(n, action) <= |n.log.events|
  {
    n.log.events[ShownFrom(n, action)..]
  }

  /** The part of such an action that is bookkeeping. */
  lemma ActBooks(n: Net, key: string, epoch: string, action: Action)
    requires Sound(n.core) && Enabled(n, key, action) && Fills(action)
    ensures var n' := Act(n, key, epoch, action);
            && n'.log == n.log
            && n'.covered == (if Builds(action) then ShownFrom(n, action) else n.covered)
            && n'.applied == (if Builds(action) then [] else n.applied + Events(Replayed(n, key, action)))
            && n'.wire == if action.Lag? then n.wire[action.lost..] else n.wire
  {
    hide WellFormed, ResumeSession, ReplayEvents, RepointLiveSid, Do;
  }

  /** What is left on the wire by such an action. */
  function LeftOn(n: Net, key: string, action: Action): seq<Logged>
    requires Enabled(n, key, action)
  {
    if action.Lag? then n.wire[action.lost..] else n.wire
  }

  /** What is replayed and then still comes over the wire is what was due if and only if it is exact. */
  lemma DueIffExact(n: Net, key: string, action: Action)
    requires Counted(n, RecordMark(n.core, key)) && Enabled(n, key, action) && Fills(action)
    ensures ShownFrom(n, action) <= |n.log.events|
    ensures var told := Replayed(n, key, action) + LeftOn(n, key, action);
            && (|told| == |Due(n, action)| <==> Exact(n, key, action))
            && (Exact(n, key, action) ==> told == Due(n, action))
  {
    hide EventsOf, RecordMark, Newer, Dense;
    MissedIsLogged(n, key);
  }

  lemma ToldIsLogged(n: Net, key: string, action: Action)
    requires Counted(n, RecordMark(n.core, key)) && Enabled(n, key, action) && Fills(action)
    ensures forall e :: e in Replayed(n, key, action) + LeftOn(n, key, action) ==> e in n.log.events
  {
    hide EventsOf, RecordMark, Newer, Dense;
    MissedIsLogged(n, key);
  }

  /** After a replay or a build, each event of the log is shown or on the wire, once and in order, if and
      only if the action was exact: no frame of the chat on the wire, or kept on it by a lag, and the
      record's watermark where the transcript stands; a history, or a transcript passed over, that covers
      just what is not on the wire. */
  lemma CountedOnceIff(n: Net, key: string, epoch: string, action: Action)
    requires Booked(n, key, epoch) && Enabled(n, key, action) && Fills(action)
    ensures var n' := Act(n, key, epoch, action);
            && n'.covered <= |n'.log.events|
            && (Seen(n') + n'.wire == n'.log.events <==> Exact(n, key, action))
  {
    hide Standing, Counted, Act, Exact, Missed, Seen, Replayed;
    BookedSound(n, key, epoch);
    ActBooks(n, key, epoch, action);
    DueIffExact(n, key, action);
    SeenAfter(n, key, epoch, action);
    Rejoins(n.log.events, ShownFrom(n, action), Replayed(n, key, action), LeftOn(n, key, action));
  }

  lemma Rejoins(log: seq<Logged>, from: nat, replayed: seq<Logged>, left: seq<Logged>)
    requires from <= |log|
    requires |replayed + left| == |log[from..]| ==> replayed + left == log[from..]
    ensures log[..from] + replayed + left == log <==> |replayed + left| == |log[from..]|
  {
    assert log[..from] + replayed + left == log[..from] + (replayed + left);
    assert log[..from] + log[from..] == log;
  }

  lemma SeenAfter(n: Net, key: string, epoch: string, action: Action)
    requires Booked(n, key, epoch) && Enabled(n, key, action) && Fills(action)
    requires ShownFrom(n, action) <= |n.log.events|
    ensures var n' := Act(n, key, epoch, action);
            n'.covered <= |n'.log.events|
            && Seen(n') == n.log.events[..ShownFrom(n, action)] + Replayed(n, key, action)
  {
    hide Standing, Act, Replayed, EventsOf, Events, Enabled, Dense;
    BookedSound(n, key, epoch);
    ActBooks(n, key, epoch, action);
    var replayed := Replayed(n, key, action);
    if Builds(action) {
      BuildReplaysNothing(n, key, action);
    } else {
      EventsRoundTrip(replayed);
      EventsOfConcat(n.applied, Events(replayed));
      PrefixSlice(n.log.events, n.covered, Position(n), replayed);
    }
  }

  lemma BuildReplaysNothing(n: Net, key: string, action: Action)
    requires Builds(action)
    ensures Replayed(n, key, action) == [] && EventsOf([]) == []
  {
  }

  lemma PrefixSlice(log: seq<Logged>, from: nat, to: nat, more: seq<Logged>)
    requires from <= to <= |log|
    ensures log[..from] + (log[from..to] + more) == log[..to] + more
  {
    assert log[..from] + log[from..to] == log[..to];
  }

  /** An event that adds one row to any transcript. */
  predicate AddsARow(body: EventBody) {
    match body
    case MessageStart => true
    case ToolGenerating(_) => true
    case ErrorEvent(_) => true
    case StatusUpdate(status, text) => StatusRow(status, text).Some?
    case ApprovalRequest(card) => ApprovalRow(card).Some?
    case ClarifyRequest(id, batch, single) => ClarifyRow(id, batch, single).Some?
    case _ => false
  }

  lemma AddsOne(s: ReducerState, key: string, e: Logged)
    requires InBounds(s) && AddsARow(e.body)
    ensures |Tell(s, key, Event(e)).rows| == |s.rows| + 1
  {
  }

  lemma {:induction false} PlayCounts(s: ReducerState, key: string, events: seq<Logged>)
    requires InBounds(s) && forall e :: e in events ==> AddsARow(e.body)
    ensures |Play(s, key, Events(events)).rows| == |s.rows| + |events|
  {
    hide AddsARow, Tell;
    if |events| > 0 {
      var before, e := events[..|events| - 1], events[|events| - 1];
      assert e in events;
      PlayCounts(s, key, before);
      PlayConcat(s, key, Events(before), [Event(e)]);
      PlayOne(Play(s, key, Events(before)), key, Event(e));
      AddsOne(Play(s, key, Events(before)), key, e);
    }
  }

  /** The transcript the action starts from: what it finds, or what it builds. */
  function Start(n: Net, key: string, epoch: string, action: Action): ReducerState
    requires Sound(n.core) && Enabled(n, key, action) && key in n.core.sessions
    requires key in Act(n, key, epoch, action).core.sessions
  {
    if Builds(action) then Act(n, key, epoch, action).core.sessions[key].reducer
    else n.core.sessions[key].reducer
  }

  lemma ActTells(n: Net, key: string, epoch: string, owner: string -> string, action: Action)
    requires Booked(n, key, epoch) && Enabled(n, key, action) && Fills(action)
    requires Owned(n, key, owner) && Honestly(owner, key, action)
    ensures var n' := Act(n, key, epoch, action);
            && Sound(n'.core) && key in n'.core.sessions
            && n'.core.sessions[key].reducer
               == Play(Start(n, key, epoch, action), key, Events(Replayed(n, key, action)))
  {
    hide Booked, Owned, Honestly, Enabled, Act, Events, Play, WellFormed;
    BookedSound(n, key, epoch);
    ActSound(n, key, epoch, action);
    if Builds(action) {
      BuildOpens(n, key, epoch, owner, action);
      ChatInBounds(Act(n, key, epoch, action).core, key);
      PlayNothing(Act(n, key, epoch, action).core.sessions[key].reducer, key);
    } else {
      FillTells(n, key, epoch, action);
    }
  }

  lemma BuildOpens(n: Net, key: string, epoch: string, owner: string -> string, action: Action)
    requires Booked(n, key, epoch) && Enabled(n, key, action) && Builds(action)
    requires Owned(n, key, owner) && Honestly(owner, key, action)
    ensures key in Act(n, key, epoch, action).core.sessions
  {
    hide WellFormed, ResumeSession, Do, Routed;
    if action.Reopen? {
      OwnSidOf(n, key, epoch, owner, action.open.liveSid);
      ReopenBuilds(n.core, key, RecordMark(n.core, key), action.open);
    } else {
      TruncatedRebuilds(n, key, epoch, action.messages);
    }
  }

  lemma FillTells(n: Net, key: string, epoch: string, action: Action)
    requires Booked(n, key, epoch) && Enabled(n, key, action) && Fills(action) && !Builds(action)
    ensures var n' := Act(n, key, epoch, action);
            && key in n.core.sessions && key in n'.core.sessions
            && n'.core.sessions[key].reducer
               == Play(n.core.sessions[key].reducer, key, Events(Replayed(n, key, action)))
  {
    hide WellFormed, ResumeSession, ReplayEvents, RepointLiveSid, Play, Events;
    match action
    case Resume(messages, _, _) => ResumeReplaysFromTheMark(n, key, epoch, messages);
    case Skip => SkipTells(n, key, epoch);
    case Lag(_) => CatchUpReplaysFromTheMark(n, key, epoch);
  }

  lemma SkipTells(n: Net, key: string, epoch: string)
    requires Booked(n, key, epoch) && n.up
    ensures var c' := RepointLiveSid(n.core, key, n.sid).core;
            && Sound(c') && key in c'.sessions
            && c'.sessions[key].reducer == n.core.sessions[key].reducer
               == Play(n.core.sessions[key].reducer, key, Events([]))
  {
    hide WellFormed, Play;
    RepointStays(n.core, key, RecordMark(n.core, key), n.sid);
    PlayNothing(n.core.sessions[key].reducer, key);
  }

  lemma PlayNothing(s: ReducerState, key: string)
    requires InBounds(s)
    ensures Play(s, key, []) == s && Events([]) == []
  {
  }

  /** Once the wire is drained, an exact action leaves the transcript as if the events due had just been
      delivered, whatever they are. An action that is not exact does not, whenever the events add rows:
      then the rows agree if and only if the action was exact. */
  lemma RowsAgreeIff(n: Net, key: string, epoch: string, owner: string -> string, action: Action)
    requires Booked(n, key, epoch) && Enabled(n, key, action) && Fills(action)
    requires Owned(n, key, owner) && Honestly(owner, key, action)
    ensures ShownFrom(n, action) <= |n.log.events|
    ensures var n' := Act(n, key, epoch, action);
            && Sound(n'.core) && key in n'.core.sessions && key in n.core.sessions
            && var shown := Play(n'.core.sessions[key].reducer, key, Events(n'.wire));
               var due := Play(Start(n, key, epoch, action), key, Events(Due(n, action)));
               && (Exact(n, key, action) ==> shown == due)
               && ((forall e :: e in n.log.events ==> AddsARow(e.body)) ==>
                     (shown.rows == due.rows <==> Exact(n, key, action)))
  {
    hide Act, Standing, Counted, Play, Events, WellFormed, Exact, Missed, Start;
    BookedSound(n, key, epoch);
    ActTells(n, key, epoch, owner, action);
    ActBooks(n, key, epoch, action);
    DueIffExact(n, key, action);
    StartInBounds(n, key, epoch, owner, action);
    var n' := Act(n, key, epoch, action);
    var start, replayed := Start(n, key, epoch, action), Replayed(n, key, action);
    EventsConcat(replayed, n'.wire);
    PlayConcat(start, key, Events(replayed), Events(n'.wire));
    if forall e :: e in n.log.events ==> AddsARow(e.body) {
      ToldIsLogged(n, key, action);
      PlayCounts(start, key, replayed + n'.wire);
      PlayCounts(start, key, Due(n, action));
    }
  }

  lemma StartInBounds(n: Net, key: string, epoch: string, owner: string -> string, action: Action)
    requires Booked(n, key, epoch) && Enabled(n, key, action) && Fills(action)
    requires Owned(n, key, owner) && Honestly(owner, key, action)
    ensures key in n.core.sessions && key in Act(n, key, epoch, action).core.sessions
    ensures InBounds(Start(n, key, epoch, action))
  {
    hide Act;
    ActTells(n, key, epoch, owner, action);
  }

  // ── Where it fails ────────────────────────────────────────────────────

  /** The history is replayed on top of itself: after any open or rebuild, and before an event arrives,
      a resume tells the transcript the whole log from its first event, which the history covered. */
  lemma HistoryIsReplayedOnTop(n: Net, key: string, epoch: string, m: seq<ResumeMessage>, covers: nat)
    requires Booked(n, key, epoch) && EventsOf(n.applied) == [] && Enabled(n, key, Resume(m, false, covers))
    ensures var n' := Act(n, key, epoch, Resume(m, false, covers));
            && key in n'.core.sessions && key in n.core.sessions
            && n'.core.sessions[key].reducer == Play(n.core.sessions[key].reducer, key, Events(n.log.events))
    ensures n.wire == [] ==> (Clean(n, key, Resume(m, false, covers)) <==> n.covered == 0)
  {
    hide Play, WellFormed, ResumeSession, Events;
    ResumeReplaysFromTheMark(n, key, epoch, m);
    assert n.log.events[0..] == n.log.events;
  }

  /** The transcript an open makes of a history. */
  function HistoryShown(messages: seq<ResumeMessage>): (r: ReducerState)
    ensures InBounds(r)
  {
    OpenedWellFormed(messages);
    WellFormedInBounds(OpenedReducer(messages).state);
    OpenedReducer(messages).state
  }

  /** The resume is not clean, and tells a transcript that shows the history the whole log once more. */
  ghost predicate ReplaysOver(n: Net, key: string, epoch: string, m: seq<ResumeMessage>, history: ReducerState)
    requires Sound(n.core) && n.up && !n.ready && InBounds(history)
  {
    var resumed := Act(n, key, epoch, Resume(m, false, 0));
    && key in resumed.core.sessions
    && resumed.core.sessions[key].reducer == Play(history, key, Events(n.log.events))
    && (n.log.events != [] ==> !Clean(n, key, Resume(m, false, 0)))
  }

  /** For one: a chat is opened from its history while the resume phase of the same socket runs, as at
      launch with a saved record of it. The phase then replays the log over the history, with no drop. */
  lemma OpenDuringResumeShowsTwice(
    known: Tabs, key: string, epoch: string, owner: string -> string, open: Step, log: Log, m: seq<ResumeMessage>)
    requires open.Open? && open.key == key && key != "" && open.liveSid != "" && Honest(owner, open)
    requires Dense(log) && (Get(known, key).Some? ==> Get(known, key).value.replayEpoch in {"", epoch})
    ensures Sound(NewCore(known))
    ensures var n := Opened(Do(NewCore(known), open).core, log, 0, open.liveSid, false, |log.events|);
            Sound(n.core) && ReplaysOver(n, key, epoch, m, HistoryShown(open.messages))
  {
    hide Play, WellFormed, Events, ResumeSession, IngestMessages, Act;
    OpenIsJustBuilt(known, key, epoch, owner, open, log, 0, |log.events|, false);
    var n := Opened(Do(NewCore(known), open).core, log, 0, open.liveSid, false, |log.events|);
    JustBuiltBooked(n, key, epoch);
    HistoryIsReplayedOnTop(n, key, epoch, m, 0);
  }

  /** The network after a drop and a reconnect. */
  function Reconnected(n: Net, sid: string): Net {
    n.(up := true, ready := false, sid := sid, wire := [])
  }

  /** Or: open a chat from its history, lose the socket before an event arrives, and reconnect. The rows
      of the history are there, and then everything the log holds once more. */
  lemma ReopenThenDropShowsTwice(
    n: Net, key: string, epoch: string, owner: string -> string, open: Step, sid: string, m: seq<ResumeMessage>)
    requires Booked(n, key, epoch) && Owned(n, key, owner) && n.wire == []
    requires Enabled(n, key, Reopen(open, |n.log.events|))
    requires Honestly(owner, key, Reopen(open, |n.log.events|)) && Honestly(owner, key, Connect(sid))
    ensures var back := Reconnected(Act(n, key, epoch, Reopen(open, |n.log.events|)), sid);
            Sound(back.core) && ReplaysOver(back, key, epoch, m, HistoryShown(open.messages))
  {
    hide Play, WellFormed, Do, Events, ResumeSession, IngestMessages;
    var reopened := Act(n, key, epoch, Reopen(open, |n.log.events|));
    ReopenedKeeps(n, key, epoch, owner, Reopen(open, |n.log.events|));
    OwnSidOf(n, key, epoch, owner, open.liveSid);
    ReopenBuilds(n.core, key, RecordMark(n.core, key), open);
    ReconnectKeeps(reopened, key, epoch, owner, sid);
    HistoryIsReplayedOnTop(Reconnected(reopened, sid), key, epoch, m, 0);
  }

  lemma ReopenedKeeps(n: Net, key: string, epoch: string, owner: string -> string, action: Action)
    requires Booked(n, key, epoch) && Owned(n, key, owner)
    requires action.Reopen? && Enabled(n, key, action) && Honestly(owner, key, action) && Clean(n, key, action)
    ensures Booked(Act(n, key, epoch, action), key, epoch) && Owned(Act(n, key, epoch, action), key, owner)
  {
    hide Booked, Owned, Act, Clean, Honestly, Enabled;
    BookedSound(n, key, epoch);
    ActKeeps(n, key, epoch, owner, action);
    ActOwned(n, key, epoch, owner, action);
  }

  lemma ReconnectKeeps(n: Net, key: string, epoch: string, owner: string -> string, sid: string)
    requires Booked(n, key, epoch) && Owned(n, key, owner) && n.up && Honestly(owner, key, Connect(sid))
    ensures Booked(Reconnected(n, sid), key, epoch)
    ensures Reconnected(n, sid) == Act(Act(n, key, epoch, Drop), key, epoch, Connect(sid))
  {
    hide WellFormed, Play, Routed;
    var dropped := Act(n, key, epoch, Drop);
    SocketKeeps(n, key, epoch, owner, Drop);
    SocketKeeps(dropped, key, epoch, owner, Connect(sid));
  }

  lemma DeltaAgain(c: Core, key: string, sid: string, mark: nat, row: RowKind, e: Logged)
    requires At(c, key, mark) && Route(c, sid) == Some(key) && e.body.MessageDelta? && e.body.text != ""
    requires c.sessions[key].reducer.rows == [Row(0, row)] && c.sessions[key].reducer.streaming == Some(0)
    requires row.Assistant?
    ensures var c' := DeliverEvent(c, Params(sid, e)).core;
            && key in c'.sessions
            && c'.sessions[key].reducer.rows == [Row(0, Assistant(row.text + e.body.text, row.streaming, row.usageJson, row.warning))]
  {
    EventReachesOwner(c, Params(sid, e), key);
  }

  /** A lag with a frame left: two deltas were sent, the first was lost, the second is still on the wire.
      The catch-up replays both, and then the wire delivers the second again. */
  lemma LagDoublesTheText(n: Net, key: string, epoch: string, a: string, b: string)
    requires Booked(n, key, epoch) && n.up && n.ready && a != "" && b != ""
    requires n.core.sessions[key].reducer == EMPTY_STATE && n.covered == 0 && EventsOf(n.applied) == []
    requires n.log.events == [Logged(1, MessageDelta(a)), Logged(2, MessageDelta(b))] && n.wire == n.log.events
    ensures var caught := Act(n, key, epoch, Lag(1));
            && !Clean(n, key, Lag(1)) && Sound(caught.core) && Enabled(caught, key, Frame)
            && var twice := Act(caught, key, epoch, Frame);
               && key in twice.core.sessions
               && twice.core.sessions[key].reducer.rows == [Row(0, Assistant(a + b + b, true, "", ""))]
  {
    hide WellFormed, ReplayEvents, DeliverEvent, Play;
    CatchUpReplaysFromTheMark(n, key, epoch);
    var caught := Act(n, key, epoch, Lag(1));
    assert n.log.events[0..] == n.log.events;
    TwoDeltas(key, a, b);
    DeltaAgain(caught.core, key, n.sid, 2, Assistant(a + b, true, "", ""), Logged(2, MessageDelta(b)));
  }

  lemma TwoDeltas(key: string, a: string, b: string)
    requires a != "" && b != ""
    ensures var s := Play(EMPTY_STATE, key, Events([Logged(1, MessageDelta(a)), Logged(2, MessageDelta(b))]));
            s.rows == [Row(0, Assistant(a + b, true, "", ""))] && s.streaming == Some(0)
  {
    var x, y := Logged(1, MessageDelta(a)), Logged(2, MessageDelta(b));
    assert [x, y][..1] == [x] && [x][..0] == [];
    assert Events([]) == [] && Events([x]) == Events([]) + [Event(x)] && Events([x, y]) == Events([x]) + [Event(y)];
    assert Events([x, y]) == [Event(x)] + [Event(y)];
    PlayConcat(EMPTY_STATE, key, [Event(x)], [Event(y)]);
    PlayOne(EMPTY_STATE, key, Event(x));
    PlayOne(Play(EMPTY_STATE, key, [Event(x)]), key, Event(y));
  }

  /** A frame that was on the wire when a replay was read: one delta, replayed and then delivered, shows
      twice, and the watermark does not tell. */
  lemma OverlapDoublesTheText(c: Core, key: string, sid: string, text: string)
    requires At(c, key, 0) && Route(c, sid) == Some(key) && c.sessions[key].reducer == EMPTY_STATE
    requires text != ""
    ensures var e := Logged(1, MessageDelta(text));
            var replayed := DeliverEvent(c, Params(key, e)).core;
            && Sound(replayed)
            && var twice := DeliverEvent(replayed, Params(sid, e)).core;
               && key in twice.sessions && twice.sessions[key].lastSeenSeq == 1
               && twice.sessions[key].reducer.rows == [Row(0, Assistant(text + text, true, "", ""))]
  {
    hide WellFormed, DeliverEvent;
    var e := Logged(1, MessageDelta(text));
    var replayed := DeliverEvent(c, Params(key, e)).core;
    DeliverOne(c, key, 0, key, e);
    PlayOne(EMPTY_STATE, key, Event(e));
    RouteKept(c, replayed, key, sid);
    DeltaAgain(replayed, key, sid, 1, Assistant(text, true, "", ""), e);
    DeliverMarks(replayed, Params(sid, e), key);
  }
}
