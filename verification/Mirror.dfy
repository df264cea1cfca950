/** The replica refines the reducer: the emitted changes alone rebuild the transcript in the app. */
module Mirror {
  import opened Transcript
  import opened ReducerSpec
  import opened ReducerInvariants
  import opened Replica
  import opened DeliveryOrder

  /** Row indices cross the boundary as 32-bit numbers. */
  const ROW_LIMIT: nat := U32_MAX + 1

  /** The changes of one operation as the app receives them. */
  function Emitted(s: ReducerState, key: string, op: Op): seq<Dto>
    requires InBounds(s)
  {
    var o := Perform(s, key, op);
    ToDtos(key, o.changes, o.state.rows, o.state.header.title)
  }

  /** The replica never outgrows the index space, and equals the transcript while that fits. */
  ghost predicate Mirrors(rows: seq<Row>, replica: seq<RowText>) {
    |replica| <= ROW_LIMIT && (|rows| <= ROW_LIMIT ==> replica == Render(rows))
  }

  lemma {:induction false} ReceivedFits(replica: seq<RowText>, dtos: seq<Dto>)
    requires |replica| <= ROW_LIMIT && forall i :: 0 <= i < |dtos| ==> dtos[i].index <= U32_MAX
    ensures |ReceiveAll(replica, dtos)| <= ROW_LIMIT
  {
    if |dtos| > 0 {
      ReceivedFits(replica, dtos[..|dtos| - 1]);
    }
  }

  lemma ReceiveOne(replica: seq<RowText>, d: Dto)
    ensures ReceiveAll(replica, [d]) == Receive(replica, d)
  {
    assert [d][..0] == [];
  }

  /** An announced change carries exactly the row that changed, at its own index. */
  lemma AnnouncedMirrors(s: ReducerState, o: Outcome, key: string, title: string, replica: seq<RowText>)
    requires Announced(s, o) && Mirrors(s.rows, replica)
    ensures Mirrors(o.state.rows, ReceiveAll(replica, ToDtos(key, o.changes, o.state.rows, title)))
  {
    var dtos := ToDtos(key, o.changes, o.state.rows, title);
    ReceivedFits(replica, dtos);
    if o.changes != [] {
      assert dtos == [ChangeToDto(key, o.changes[0], o.state.rows, title)];
      ReceiveOne(replica, dtos[0]);
    }
  }

  // ── A rebuild replays row by row ──────────────────────────────────────

  function Appends(count: nat): seq<Change> {
    seq(count, i requires 0 <= i < count => RowAppended(i))
  }

  lemma {:induction false} IngestAppendsAll(messages: seq<ResumeMessage>)
    ensures IngestRows(messages).changes == Appends(|IngestRows(messages).state.rows|)
  {
    if |messages| > 0 {
      IngestAppendsAll(messages[..|messages| - 1]);
    }
  }

  lemma {:induction false} AppendsRebuild(rows: seq<Row>, key: string, title: string, count: nat)
    requires count <= |rows| <= ROW_LIMIT
    ensures ReceiveAll([], ToDtos(key, Appends(count), rows, title)) == Render(rows[..count])
  {
    if count > 0 {
      AppendsRebuild(rows, key, title, count - 1);
      var dtos := ToDtos(key, Appends(count), rows, title);
      assert dtos[..count - 1] == ToDtos(key, Appends(count - 1), rows, title);
      assert Render(rows[..count]) == Render(rows[..count - 1]) + [JsonOf(rows[count - 1].kind)];
    }
  }

  lemma RebuildShows(rows: seq<Row>, key: string, title: string, replica: seq<RowText>)
    requires |rows| <= ROW_LIMIT
    ensures ReceiveAll(replica, ToDtos(key, [Reset] + Appends(|rows|), rows, title)) == Render(rows)
  {
    var reset := ChangeToDto(key, Reset, rows, title);
    var appends := ToDtos(key, Appends(|rows|), rows, title);
    assert ToDtos(key, [Reset] + Appends(|rows|), rows, title) == [reset] + appends;
    ReceiveAllConcat(replica, [reset], appends);
    ReceiveOne(replica, reset);
    AppendsRebuild(rows, key, title, |rows|);
    assert rows[..|rows|] == rows;
  }

  lemma IngestMirrors(messages: seq<ResumeMessage>, key: string, title: string, replica: seq<RowText>)
    requires |replica| <= ROW_LIMIT
    ensures var o := IngestMessages(messages);
            Mirrors(o.state.rows, ReceiveAll(replica, ToDtos(key, o.changes, o.state.rows, title)))
  {
    var o := IngestMessages(messages);
    ReceivedFits(replica, ToDtos(key, o.changes, o.state.rows, title));
    IngestAppendsAll(messages);
    if |o.state.rows| <= ROW_LIMIT {
      RebuildShows(o.state.rows, key, title, replica);
    }
  }

  // ── Every operation, every run ────────────────────────────────────────

  lemma PerformMirrors(s: ReducerState, key: string, op: Op, replica: seq<RowText>)
    requires WellFormed(s) && Mirrors(s.rows, replica)
    ensures Mirrors(Perform(s, key, op).state.rows, ReceiveAll(replica, Emitted(s, key, op)))
  {
    if op.Ingest? {
      IngestMirrors(op.messages, key, Perform(s, key, op).state.header.title, replica);
    } else if op.ResetFromResume? {
      ReceiveOne(replica, ChangeToDto(key, Reset, [], ""));
      assert Emitted(s, key, op) == [ChangeToDto(key, Reset, [], "")];
    } else {
      PerformAnnounced(s, key, op);
      AnnouncedMirrors(s, Perform(s, key, op), key, Perform(s, key, op).state.header.title, replica);
    }
  }

  /** All changes of a run, in the order the app receives them. */
  function RunEmitted(s: ReducerState, key: string, ops: seq<Op>): seq<Dto>
    requires InBounds(s)
  {
    if |ops| == 0 then []
    else RunEmitted(s, key, ops[..|ops| - 1]) + Emitted(Run(s, key, ops[..|ops| - 1]), key, ops[|ops| - 1])
  }

  lemma {:induction false} RunMirrors(s: ReducerState, key: string, ops: seq<Op>, replica: seq<RowText>)
    requires WellFormed(s) && Mirrors(s.rows, replica)
    ensures Mirrors(Run(s, key, ops).rows, ReceiveAll(replica, RunEmitted(s, key, ops)))
  {
    hide Emitted, Perform, Mirrors;
    if |ops| > 0 {
      var before := ops[..|ops| - 1];
      RunMirrors(s, key, before, replica);
      RunWellFormed(s, key, before);
      PerformMirrors(Run(s, key, before), key, ops[|ops| - 1], ReceiveAll(replica, RunEmitted(s, key, before)));
      ReceiveAllConcat(replica, RunEmitted(s, key, before), Emitted(Run(s, key, before), key, ops[|ops| - 1]));
      RunSnoc(s, key, ops);
    }
  }

  lemma RunSnoc(s: ReducerState, key: string, ops: seq<Op>)
    requires InBounds(s) && |ops| > 0
    ensures Run(s, key, ops) == Perform(Run(s, key, ops[..|ops| - 1]), key, ops[|ops| - 1]).state
  {
    hide Perform;
  }

  /** For every run of events, user rows, answers, pending cards and rebuilds, an app that starts with
      no rows and applies the emitted changes in order shows exactly the core's rows, rendered one by
      one, if and only if the transcript fits the 32-bit index space at that moment. */
  lemma {:induction false} ReplicaRefinesReducer(key: string, ops: seq<Op>)
    ensures var rows := Run(EMPTY_STATE, key, ops).rows;
            ReceiveAll([], RunEmitted(EMPTY_STATE, key, ops)) == Render(rows) <==> |rows| <= 0x1_0000_0000
  {
    RunMirrors(EMPTY_STATE, key, ops, []);
  }

  /** From any transcript that is on show, batches of different operations may overtake each other:
      without a reset, any delivery that keeps each row's own order still shows the transcript. */
  lemma AnyDeliveryMirrors(s: ReducerState, key: string, ops: seq<Op>, delivered: seq<Dto>)
    requires WellFormed(s) && |s.rows| <= ROW_LIMIT && |Run(s, key, ops).rows| <= ROW_LIMIT
    requires ResetFree(RunEmitted(s, key, ops)) && ResetFree(delivered)
    requires SameOrderPerRow(RunEmitted(s, key, ops), delivered)
    ensures ReceiveAll(Render(s.rows), delivered) == Render(Run(s, key, ops).rows)
  {
    RunMirrors(s, key, ops, Render(s.rows));
    ReorderingIsHarmless(Render(s.rows), RunEmitted(s, key, ops), delivered);
  }
}
