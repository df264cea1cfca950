/** The client's shared state as an object that the facade, reader, writer and heartbeat update. */
module CallTable {
  import opened Transcript
  import Spec = CallSpec

  class Shared {
    var connection: Spec.Connection
    var connected: bool
    var nextId: nat
    var pending: map<Spec.WireId, nat>
    var calls: map<nat, Spec.Call>
    var lastSeq: map<string, int>

    ghost function State(): Spec.Table
      reads this
    {
      Spec.Table(connection, connected, nextId, pending, calls, lastSeq)
    }

    constructor ()
      ensures State() == Spec.NEW_TABLE
    {
      connection, connected, nextId := Spec.Connecting, false, 1;
      pending, calls, lastSeq := map[], map[], map[];
    }

    // ── One call, from its own side ─────────────────────────────────────

    /** Refused on a closed connection, with the reason; otherwise the call has a fresh number. */
    method Begin() returns (refused: Option<string>)
      modifies `nextId, `calls
      ensures State() == Spec.OnBegin(old(State()))
      ensures refused == match connection { case Closed(reason) => Some(reason) case _ => None }
    {
      match connection
      case Closed(reason) =>
        return Some(reason);
      case _ =>
        calls := calls[nextId := Spec.Call(Spec.Checked, None)];
        nextId := nextId + 1;
        return None;
    }

    method Register(n: nat)
      requires Spec.InPhase(State(), n, Spec.Checked)
      modifies `pending, `calls
      ensures State() == Spec.OnRegister(old(State()), n)
    {
      pending := pending[Spec.CallId(n) := n];
      calls := calls[n := calls[n].(phase := Spec.Registered)];
    }

    method Queue(n: nat, writerAlive: bool)
      requires Spec.InPhase(State(), n, Spec.Registered)
      modifies `pending, `calls
      ensures State() == Spec.OnQueue(old(State()), n, writerAlive)
    {
      if !writerAlive {
        pending := pending - {Spec.CallId(n)};
        calls := calls[n := calls[n].(phase := Spec.Done(Spec.WriterGone))];
        return;
      }
      calls := calls[n := calls[n].(phase := Spec.Waiting)];
    }

    /** One poll of `timeout(rx)`: the slot is looked at before the deadline. */
    method Await(n: nat, deadlinePassed: bool)
      requires Spec.InPhase(State(), n, Spec.Waiting)
      modifies `calls
      ensures State() == if deadlinePassed && old(State()) == Spec.OnPoll(old(State()), n)
                         then Spec.OnExpire(old(State()), n)
                         else Spec.OnPoll(old(State()), n)
    {
      match calls[n].slot
      case Some(outcome) =>
        calls := calls[n := calls[n].(phase := Spec.Done(outcome))];
      case None =>
        if Spec.CallId(n) !in pending {
          calls := calls[n := calls[n].(phase := Spec.Done(Spec.ConnectionLost))];
        } else if deadlinePassed {
          calls := calls[n := calls[n].(phase := Spec.GivingUp)];
        }
    }

    method Forget(n: nat)
      requires Spec.InPhase(State(), n, Spec.GivingUp)
      modifies `pending, `calls
      ensures State() == Spec.OnForget(old(State()), n)
    {
      pending := pending - {Spec.CallId(n)};
      calls := calls[n := calls[n].(phase := Spec.Done(Spec.TimedOut))];
    }

    // ── The reader ──────────────────────────────────────────────────────

    method Reply(id: Spec.WireId, answer: Spec.CallOutcome)
      modifies `pending, `calls
      ensures State() == Spec.OnReply(old(State()), id, answer)
    {
      if id in pending {
        var n := pending[id];
        pending := pending - {id};
        Deliver(n, answer);
        assert calls == Spec.FillAll(old(calls), {n}, answer);
      }
    }

    method Deliver(n: nat, outcome: Spec.CallOutcome)
      modifies `calls
      ensures calls == if n in old(calls) then old(calls)[n := Spec.Filled(old(calls)[n], outcome)] else old(calls)
    {
      if n in calls && calls[n].slot.None? {
        calls := calls[n := calls[n].(slot := Some(outcome))];
      }
    }

    method RecordSeq(sessionId: string, seqNo: int)
      modifies `lastSeq
      ensures State() == Spec.OnEvent(old(State()), sessionId, seqNo)
    {
      if sessionId != "" {
        if sessionId !in lastSeq {
          lastSeq := lastSeq[sessionId := 0];
        }
        if seqNo > lastSeq[sessionId] {
          lastSeq := lastSeq[sessionId := seqNo];
        }
      }
    }

    // ── Opening and closing ─────────────────────────────────────────────

    method MarkOpen()
      modifies `connection
      ensures State() == Spec.Do(old(State()), Spec.MarkOpen)
    {
      connection := Spec.Open;
    }

    /** True for the first closer only. */
    method CloseTerminal(reason: string) returns (first: bool)
      modifies `connection
      ensures State() == Spec.OnCloseTerminal(old(State()), reason)
      ensures first == !old(connection).Closed?
    {
      if connection.Closed? {
        return false;
      }
      connection := Spec.Closed(reason);
      return true;
    }

    /** Drain the table, answering each call it held. */
    method FailPending(reason: string)
      modifies `pending, `calls
      ensures State() == Spec.OnFailPending(old(State()), reason)
    {
      ghost var drained: set<nat> := {};
      while pending != map[]
        invariant drained + pending.Values == old(pending).Values
        invariant calls == Spec.FillAll(old(calls), drained, Spec.ClosedWith(reason))
        modifies `pending, `calls
        decreases |pending|
      {
        var id :| id in pending;
        var n := pending[id];
        ValuesWithout(pending, id);
        FillOneMore(old(calls), drained, n, Spec.ClosedWith(reason));
        drained := drained + {n};
        pending := pending - {id};
        Deliver(n, Spec.ClosedWith(reason));
      }
      assert drained == old(pending).Values;
    }

    method Shutdown(reason: string)
      modifies `connection, `pending, `calls
      ensures State() == Spec.OnFailPending(Spec.OnCloseTerminal(old(State()), reason), reason)
    {
      var _ := CloseTerminal(reason);
      FailPending(reason);
    }

    /** A failed write closes, and only the first closer drains. */
    method WriteFailed(reason: string)
      modifies `connection, `pending, `calls
      ensures State() == if old(connection).Closed? then old(State())
                         else Spec.OnFailPending(Spec.OnCloseTerminal(old(State()), reason), reason)
    {
      var first := CloseTerminal(reason);
      if first {
        FailPending(reason);
      }
    }
  }

  lemma ValuesWithout(pending: map<Spec.WireId, nat>, id: Spec.WireId)
    requires id in pending
    ensures (pending - {id}).Values + {pending[id]} == pending.Values
    ensures |pending - {id}| < |pending|
  {
    forall n | n in pending.Values && n != pending[id] ensures n in (pending - {id}).Values {
      var other :| other in pending && pending[other] == n;
      assert (pending - {id})[other] == n;
    }
    assert (pending - {id}).Keys == pending.Keys - {id};
  }

  lemma FillOneMore(calls: map<nat, Spec.Call>, drained: set<nat>, n: nat, outcome: Spec.CallOutcome)
    ensures Spec.FillAll(calls, drained + {n}, outcome)
         == var before := Spec.FillAll(calls, drained, outcome);
            if n in before then before[n := Spec.Filled(before[n], outcome)] else before
  {
  }
}
