/** The core object: maps updated under a lock, one method per lock-held section. */
module CoreObject {
  import opened Transcript
  import opened ReducerSpec
  import opened Replica
  import opened Registry
  import opened CoreSpec
  import opened ResumeSpec

  class CoreState {
    /** Live sid to session key. */
    var sidIndex: map<string, string>
    /** Durable key to live session. */
    var sessions: map<string, LiveSession>
    var registry: Tabs
    /** Request ids already re-emitted, per session. */
    var emittedApprovals: map<string, seq<string>>
    /** Bumped on every transcript rebuild, never reset. */
    var historyEpoch: nat

    ghost function View(): Core
      reads this
    {
      Core(sidIndex, sessions, registry, emittedApprovals, historyEpoch)
    }

    constructor (known: Tabs)
      ensures View() == NewCore(known) && Sound(View())
    {
      sidIndex, sessions := map[], map[];
      registry := known;
      emittedApprovals := map[];
      historyEpoch := 0;
    }

    method OpenSession(key: string, liveSid: string, messages: seq<ResumeMessage>, cols: int, profile: string)
      returns (dtos: seq<Dto>)
      modifies this
      ensures Effect(View(), dtos) == CoreSpec.OpenSession(old(View()), key, liveSid, messages, cols, profile)
    {
      historyEpoch := historyEpoch + 1;
      var reducer, changes := EMPTY_STATE, [];
      if messages != [] {
        var o := IngestMessages(messages);
        reducer, changes := o.state, o.changes;
      }
      var known := Get(registry, key);
      var record := SessionRecord(key, 0, "", if cols <= 0 then DEFAULT_COLS else cols, "", profile);
      if known.Some? {
        record := record.(replayEpoch := known.value.replayEpoch, title := known.value.title);
        if profile == "" {
          record := record.(profileName := known.value.profileName);
        }
      }
      sessions := sessions[key := LiveSession(liveSid, reducer, 0, historyEpoch)];
      sidIndex := sidIndex[liveSid := key];
      registry := SetActive(Upsert(registry, record), Some(key));
      dtos := ToDtos(key, changes, reducer.rows, "");
    }

    method CloseSession(key: string)
      modifies this
      ensures View() == CoreSpec.CloseSession(old(View()), key).core
    {
      if key in sessions {
        sidIndex := sidIndex - {sessions[key].liveSid};
        sessions := sessions - {key};
      } else {
        assert sessions - {key} == sessions;
      }
      emittedApprovals := emittedApprovals - {key};
      registry := Close(registry, key);
    }

    method ClearSessions()
      modifies this
      ensures View() == CoreSpec.ClearSessions(old(View())).core
    {
      sessions, sidIndex, emittedApprovals := map[], map[], map[];
      registry := NO_TABS;
    }

    method DeliverEvent(ev: EventParams) returns (dtos: seq<Dto>)
      requires Sound(View())
      modifies this
      ensures Effect(View(), dtos) == CoreSpec.DeliverEvent(old(View()), ev)
      ensures Sound(View())
    {
      DeliverSound(View(), ev);
      if ev.sessionId == "" {
        return [];
      }
      var key := ev.sessionId;
      if ev.sessionId in sidIndex {
        key := sidIndex[ev.sessionId];
      }
      if key !in sessions {
        return [];
      }
      var live := sessions[key];
      var o := Perform(live.reducer, ev.sessionId, ApplyEvent(ev.sessionId, ev.body));
      live := live.(reducer := o.state);
      if ev.seqNo.Some? {
        if ev.seqNo.value > live.lastSeenSeq {
          live := live.(lastSeenSeq := ev.seqNo.value);
        }
        registry := Touch(registry, key, ev.seqNo.value, "");
      }
      sessions := sessions[key := live];
      var title := o.state.header.title;
      if HeaderUpdated in o.changes {
        registry := Retitle(registry, key, title);
      }
      dtos := ToDtos(key, o.changes, o.state.rows, title);
    }

    /** The snapshot a send takes before it awaits the submit call. Finishing with it at once appends
        exactly one row; finishing with any other epoch, or without a session, does nothing. */
    method BeginSend(key: string) returns (epoch: Option<nat>)
      requires Sound(View())
      ensures epoch.Some? ==>
                forall text :: |CoreSpec.FinishSend(View(), key, text, epoch.value).dtos| == 1
      ensures forall e: nat, text :: epoch != Some(e) ==>
                CoreSpec.FinishSend(View(), key, text, e) == Effect(View(), [])
    {
      epoch := if key in sessions then Some(sessions[key].historyEpoch) else None;
    }

    method FinishSend(key: string, text: string, epoch: nat) returns (dtos: seq<Dto>)
      requires Sound(View())
      modifies this
      ensures Effect(View(), dtos) == CoreSpec.FinishSend(old(View()), key, text, epoch)
      ensures Sound(View())
    {
      if key in sessions {
        OnSessionSound(View(), key, AppendUser(text), "");
      }
      if key !in sessions || sessions[key].historyEpoch != epoch {
        return [];
      }
      var o := Perform(sessions[key].reducer, key, AppendUser(text));
      sessions := sessions[key := sessions[key].(reducer := o.state)];
      dtos := ToDtos(key, o.changes, o.state.rows, "");
    }

    method RepointLiveSid(key: string, liveSid: string)
      requires Sound(View())
      modifies this
      ensures View() == CoreSpec.RepointLiveSid(old(View()), key, liveSid).core
      ensures Sound(View())
    {
      if key !in sessions || sessions[key].liveSid == liveSid {
        return;
      }
      sidIndex := sidIndex - {sessions[key].liveSid};
      sessions := sessions[key := sessions[key].(liveSid := liveSid)];
      sidIndex := sidIndex[liveSid := key];
    }

    method RebuildSession(key: string, messages: seq<ResumeMessage>, replayEpoch: Option<string>)
      returns (dtos: seq<Dto>)
      requires Sound(View())
      modifies this
      ensures Effect(View(), dtos) == CoreSpec.RebuildSession(old(View()), key, messages, replayEpoch)
      ensures Sound(View())
    {
      RebuildSound(View(), key, messages, replayEpoch);
      historyEpoch := historyEpoch + 1;
      if key !in sessions {
        return [];
      }
      var o := IngestMessages(messages);
      sessions := sessions[key := sessions[key].(historyEpoch := historyEpoch, reducer := o.state, lastSeenSeq := 0)];
      registry := Restart(registry, key, replayEpoch);
      dtos := ToDtos(key, o.changes, o.state.rows, "");
    }

    /** One pending card: dedupe before touching the reducer. */
    method ReemitCard(key: string, requestId: string, card: Option<ApprovalFields>) returns (dtos: seq<Dto>)
      requires Sound(View())
      modifies this
      ensures Effect(View(), dtos) == CoreSpec.ReemitCard(old(View()), key, requestId, card)
      ensures Sound(View())
    {
      ReemitSound(View(), key, requestId, card);
      if requestId == "" {
        return [];
      }
      var already := key in emittedApprovals && requestId in emittedApprovals[key];
      var changes, rows := [], [];
      if !already && key in sessions {
        var live := sessions[key];
        if !HasUnresolvedApproval(live.reducer, requestId) {
          var o := Perform(live.reducer, key, ApplyApprovalCard(requestId, card));
          if o.changes != [] {
            changes, rows := o.changes, o.state.rows;
            sessions := sessions[key := live.(reducer := o.state)];
          }
        }
      }
      if changes != [] {
        var before := if key in emittedApprovals then emittedApprovals[key] else [];
        emittedApprovals := emittedApprovals[key := before + [requestId]];
      }
      dtos := ToDtos(key, changes, rows, "");
    }

    method ReplayThroughFanOut(events: seq<ReplayedEvent>) returns (dtos: seq<Dto>)
      requires Sound(View())
      modifies this
      ensures Effect(View(), dtos) == ReplayEvents(old(View()), events)
      ensures Sound(View())
    {
      dtos := [];
      for n := 0 to |events|
        invariant Sound(View())
        invariant Effect(View(), dtos) == ReplayEvents(old(View()), events[..n])
      {
        assert events[..n + 1][..n] == events[..n];
        var more := DeliverEvent(AsParams(events[n]));
        dtos := dtos + more;
      }
      assert events[..|events|] == events;
    }

    method ResumeSession(key: string, answer: Answer, freshEpoch: string) returns (dtos: seq<Dto>)
      requires Sound(View())
      modifies this
      ensures Effect(View(), dtos) == ResumeSpec.ResumeSession(old(View()), key, answer, freshEpoch)
      ensures Sound(View())
    {
      var record := Get(registry, key);
      if record.None? {
        return [];
      }
      RepointLiveSid(key, answer.liveSid);
      var storedChanged := record.value.replayEpoch != "" && record.value.replayEpoch != freshEpoch;
      var replayChanged :=
        answer.replay.epoch != "" && record.value.replayEpoch != "" && answer.replay.epoch != record.value.replayEpoch;
      if answer.replay.truncated || storedChanged || replayChanged {
        dtos := RebuildSession(key, answer.messages, NonEmpty(answer.replay.epoch));
      } else {
        dtos := ReplayThroughFanOut(answer.replay.events);
        registry := Touch(registry, key, answer.replay.latestSeq, answer.replay.epoch);
      }
    }

    method ResumeAll(keys: seq<string>, answers: map<string, Answer>, freshEpoch: string) returns (dtos: seq<Dto>)
      requires Sound(View())
      modifies this
      ensures Effect(View(), dtos) == ResumeSpec.ResumeAll(old(View()), keys, answers, freshEpoch)
      ensures Sound(View())
    {
      dtos := [];
      for n := 0 to |keys|
        invariant Sound(View())
        invariant Effect(View(), dtos) == ResumeSpec.ResumeAll(old(View()), keys[..n], answers, freshEpoch)
      {
        assert keys[..n + 1][..n] == keys[..n];
        if keys[n] in answers {
          var more := ResumeSession(keys[n], answers[keys[n]], freshEpoch);
          dtos := dtos + more;
        }
      }
      assert keys[..|keys|] == keys;
    }

    method ReemitRound(key: string, cards: seq<PendingCard>) returns (dtos: seq<Dto>)
      requires Sound(View())
      modifies this
      ensures Effect(View(), dtos) == ResumeSpec.ReemitRound(old(View()), key, cards)
      ensures Sound(View())
    {
      dtos := [];
      for n := 0 to |cards|
        invariant Sound(View())
        invariant Effect(View(), dtos) == ResumeSpec.ReemitRound(old(View()), key, cards[..n])
      {
        assert cards[..n + 1][..n] == cards[..n];
        var more := ReemitCard(key, cards[n].requestId, cards[n].card);
        dtos := dtos + more;
      }
      assert cards[..|cards|] == cards;
    }

    method ReemitAll(lists: seq<(string, seq<PendingCard>)>) returns (dtos: seq<Dto>)
      requires Sound(View())
      modifies this
      ensures Effect(View(), dtos) == ResumeSpec.ReemitAll(old(View()), lists)
      ensures Sound(View())
    {
      dtos := [];
      for n := 0 to |lists|
        invariant Sound(View())
        invariant Effect(View(), dtos) == ResumeSpec.ReemitAll(old(View()), lists[..n])
      {
        assert lists[..n + 1][..n] == lists[..n];
        var more := ReemitRound(lists[n].0, lists[n].1);
        dtos := dtos + more;
      }
      assert lists[..|lists|] == lists;
    }

    method ResumePhase(
      keys: seq<string>, answers: map<string, Answer>, freshEpoch: string, lists: seq<(string, seq<PendingCard>)>)
      returns (dtos: seq<Dto>)
      requires Sound(View())
      modifies this
      ensures Effect(View(), dtos) == ResumeSpec.ResumePhase(old(View()), keys, answers, freshEpoch, lists)
      ensures Sound(View())
    {
      var first := ResumeAll(keys, answers, freshEpoch);
      var second := ReemitAll(lists);
      dtos := first + second;
    }

    method CatchUpAll(keys: seq<string>, answers: map<string, seq<ReplayedEvent>>) returns (dtos: seq<Dto>)
      requires Sound(View())
      modifies this
      ensures Effect(View(), dtos) == ResumeSpec.CatchUpAll(old(View()), keys, answers)
      ensures Sound(View())
    {
      dtos := [];
      for n := 0 to |keys|
        invariant Sound(View())
        invariant Effect(View(), dtos) == ResumeSpec.CatchUpAll(old(View()), keys[..n], answers)
      {
        assert keys[..n + 1][..n] == keys[..n];
        if keys[n] in answers {
          var more := ReplayThroughFanOut(answers[keys[n]]);
          dtos := dtos + more;
        }
      }
      assert keys[..|keys|] == keys;
    }
  }
}
