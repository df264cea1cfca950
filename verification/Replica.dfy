/** The UI side of the change stream: what one delivered change does to the app's row list. */
module Replica {
  import opened Transcript

  // ── What crosses the boundary ─────────────────────────────────────────

  /** The JSON text of a row stands for the row it was rendered from; `Blank` is the empty text. */
  datatype RowText = Blank | JsonOf(kind: RowKind)

  datatype ChangeKind = Appended | Updated | Cleared | HeaderChanged

  datatype Dto = Dto(key: string, kind: ChangeKind, index: nat, row: RowText, title: string)

  const U32_MAX: nat := 0xFFFF_FFFF
  const INT_MAX: int := 0x7FFF_FFFF_FFFF_FFFF

  function ClampU32(index: nat): nat {
    if index <= U32_MAX then index else U32_MAX
  }

  function RowJson(rows: seq<Row>, index: nat): RowText {
    if index < |rows| then JsonOf(rows[index].kind) else Blank
  }

  /** A change as delivered: rendered against the rows as they are after the operation. */
  function ChangeToDto(key: string, change: Change, rows: seq<Row>, title: string): Dto {
    match change
    case RowAppended(i) => Dto(key, Appended, ClampU32(i), RowJson(rows, i), "")
    case RowUpdated(i) => Dto(key, Updated, ClampU32(i), RowJson(rows, i), "")
    case Reset => Dto(key, Cleared, U32_MAX, Blank, "")
    case HeaderUpdated => Dto(key, HeaderChanged, U32_MAX, Blank, title)
  }

  function ToDtos(key: string, changes: seq<Change>, rows: seq<Row>, title: string): seq<Dto> {
    seq(|changes|, i requires 0 <= i < |changes| => ChangeToDto(key, changes[i], rows, title))
  }

  /** Every row of a transcript, rendered one by one. */
  function Render(rows: seq<Row>): seq<RowText> {
    seq(|rows|, i requires 0 <= i < |rows| => JsonOf(rows[i].kind))
  }

  // ── Applying one change ───────────────────────────────────────────────

  function Padded(rows: seq<RowText>, count: nat): (r: seq<RowText>)
    ensures |r| == if |rows| < count then count else |rows|
    ensures forall j :: 0 <= j < |r| ==> r[j] == if j < |rows| then rows[j] else Blank
  {
    if |rows| >= count then rows else rows + seq(count - |rows|, _ => Blank)
  }

  function ApplyTranscriptChange(rows: seq<RowText>, kind: ChangeKind, index: int, row: RowText): seq<RowText> {
    match kind
    case Cleared => []
    case HeaderChanged => rows
    case _ =>
      if index < 0 || index > INT_MAX then rows else Padded(rows, index + 1)[index := row]
  }

  /** The same, as the app computes it: pad one blank at a time, then overwrite. */
  method ApplyChange(rows: seq<RowText>, kind: ChangeKind, index: int, row: RowText) returns (out: seq<RowText>)
    ensures out == ApplyTranscriptChange(rows, kind, index, row)
  {
    match kind
    case Cleared => return [];
    case HeaderChanged => return rows;
    case _ =>
      if index < 0 || index > INT_MAX {
        return rows;
      }
      out := rows;
      while |out| <= index
        invariant |rows| <= |out|
        invariant |out| > index + 1 ==> out == rows
        invariant forall j :: 0 <= j < |out| ==> out[j] == if j < |rows| then rows[j] else Blank
        decreases index - |out|
      {
        out := out + [Blank];
      }
      out := out[index := row];
  }

  function Receive(rows: seq<RowText>, d: Dto): seq<RowText> {
    ApplyTranscriptChange(rows, d.kind, d.index, d.row)
  }

  function ReceiveAll(rows: seq<RowText>, dtos: seq<Dto>): seq<RowText> {
    if |dtos| == 0 then rows
    else Receive(ReceiveAll(rows, dtos[..|dtos| - 1]), dtos[|dtos| - 1])
  }

  lemma {:induction false} ReceiveAllConcat(rows: seq<RowText>, a: seq<Dto>, b: seq<Dto>)
    ensures ReceiveAll(rows, a + b) == ReceiveAll(ReceiveAll(rows, a), b)
  {
    if |b| == 0 {
      assert a + b == a;
    } else {
      ReceiveAllConcat(rows, a, b[..|b| - 1]);
      assert (a + b)[..|a + b| - 1] == a + b[..|b| - 1];
    }
  }

  // ── The per-key session map ───────────────────────────────────────────

  datatype SessionUi = SessionUi(
    key: string, title: string, model: string, rows: seq<RowText>, running: bool, profile: string)

  function NewSession(key: string): SessionUi {
    SessionUi(key, "", "", [], false, "")
  }

  function SessionOr(sessions: map<string, SessionUi>, key: string): SessionUi {
    if key in sessions then sessions[key] else NewSession(key)
  }

  /** A change for a key that is neither open nor restoring is dropped, never minted. */
  function ApplySessionChange(sessions: map<string, SessionUi>, d: Dto, known: set<string>): map<string, SessionUi> {
    if d.key !in known then sessions
    else
      var current := SessionOr(sessions, d.key);
      if d.kind == HeaderChanged then
        sessions[d.key := if d.title != "" then current.(title := d.title) else current]
      else
        sessions[d.key := current.(rows := Receive(current.rows, d))]
  }

  function EnsureSession(sessions: map<string, SessionUi>, key: string): map<string, SessionUi> {
    if key in sessions then sessions else sessions[key := NewSession(key)]
  }
}

/** Changes are delivered after the state lock is released, so two batches may swap on the way.
    Without a reset among them that is harmless as long as each row sees its own changes in order. */
module DeliveryOrder {
  import opened Transcript
  import opened Replica

  /** A change that overwrites a row. */
  predicate Writes(d: Dto) {
    (d.kind == Appended || d.kind == Updated) && d.index <= INT_MAX
  }

  ghost predicate ResetFree(dtos: seq<Dto>) {
    forall i :: 0 <= i < |dtos| ==> dtos[i].kind != Cleared
  }

  /** The changes of one row, in order of arrival. */
  function OnlyAt(dtos: seq<Dto>, index: nat): (r: seq<Dto>)
    ensures forall i :: 0 <= i < |r| ==> Writes(r[i]) && r[i].index == index
  {
    if |dtos| == 0 then []
    else
      var d := dtos[|dtos| - 1];
      OnlyAt(dtos[..|dtos| - 1], index) + if Writes(d) && d.index == index then [d] else []
  }

  /** The two deliveries agree on the order of changes of every single row. */
  ghost predicate SameOrderPerRow(a: seq<Dto>, b: seq<Dto>) {
    forall index: nat :: OnlyAt(a, index) == OnlyAt(b, index)
  }

  /** Row `j` ends up as its last change left it, or as it was, or blank in a gap. */
  function Settled(rows: seq<RowText>, mine: seq<Dto>, j: nat): RowText {
    if mine != [] then mine[|mine| - 1].row else if j < |rows| then rows[j] else Blank
  }

  lemma OnlyAtSnoc(dtos: seq<Dto>, d: Dto, j: nat)
    ensures OnlyAt(dtos + [d], j) == if Writes(d) && d.index == j then OnlyAt(dtos, j) + [d] else OnlyAt(dtos, j)
  {
    assert (dtos + [d])[..|dtos|] == dtos;
  }

  lemma WriteSets(p: seq<RowText>, d: Dto)
    requires Writes(d)
    ensures Receive(p, d) == Padded(p, d.index + 1)[d.index := d.row]
  {
  }

  /** What a reset-free delivery leaves at row `j`, and that every written row exists afterwards. */
  lemma {:induction false} RowSettles(rows: seq<RowText>, dtos: seq<Dto>, j: nat)
    requires ResetFree(dtos)
    ensures var r := ReceiveAll(rows, dtos);
            && |rows| <= |r|
            && (j < |r| ==> r[j] == Settled(rows, OnlyAt(dtos, j), j))
            && (OnlyAt(dtos, j) != [] ==> j < |r|)
  {
    if |dtos| > 0 {
      var before, d := dtos[..|dtos| - 1], dtos[|dtos| - 1];
      assert dtos == before + [d];
      RowSettles(rows, before, j);
      OnlyAtSnoc(before, d, j);
      if Writes(d) {
        WriteSets(ReceiveAll(rows, before), d);
      }
    }
  }

  /** The list grows only to hold a row that was written. */
  lemma {:induction false} GrowsToWrites(rows: seq<RowText>, dtos: seq<Dto>)
    requires ResetFree(dtos)
    ensures var r := ReceiveAll(rows, dtos);
            |rows| <= |r| && (|r| > |rows| ==> OnlyAt(dtos, |r| - 1) != [])
  {
    if |dtos| > 0 {
      var before, d := dtos[..|dtos| - 1], dtos[|dtos| - 1];
      assert dtos == before + [d];
      GrowsToWrites(rows, before);
      var r := ReceiveAll(rows, dtos);
      if Writes(d) {
        WriteSets(ReceiveAll(rows, before), d);
      }
      if |r| > |rows| {
        OnlyAtSnoc(before, d, |r| - 1);
      }
    }
  }

  lemma NotLonger(rows: seq<RowText>, a: seq<Dto>, b: seq<Dto>)
    requires ResetFree(a) && ResetFree(b) && SameOrderPerRow(a, b)
    ensures |ReceiveAll(rows, a)| <= |ReceiveAll(rows, b)|
  {
    GrowsToWrites(rows, a);
    var n := |ReceiveAll(rows, a)|;
    RowSettles(rows, b, if n > 0 then n - 1 else 0);
  }

  /** Two reset-free deliveries that agree row by row leave the same rows, padding included. */
  lemma ReorderingIsHarmless(rows: seq<RowText>, a: seq<Dto>, b: seq<Dto>)
    requires ResetFree(a) && ResetFree(b) && SameOrderPerRow(a, b)
    ensures ReceiveAll(rows, a) == ReceiveAll(rows, b)
  {
    NotLonger(rows, a, b);
    NotLonger(rows, b, a);
    var ra, rb := ReceiveAll(rows, a), ReceiveAll(rows, b);
    forall j | 0 <= j < |ra| ensures ra[j] == rb[j] {
      RowSettles(rows, a, j);
      RowSettles(rows, b, j);
    }
  }

  /** Two changes of the same row must not swap, nor may a change cross a reset. */
  lemma WhatMayNotSwap(rows: seq<RowText>, x: Dto, y: Dto, reset: Dto)
    requires Writes(x) && Writes(y) && x.index == y.index && x.row != y.row
    requires reset.kind == Cleared
    ensures ReceiveAll(rows, [x, y]) != ReceiveAll(rows, [y, x])
    ensures ReceiveAll(rows, [x, reset]) != ReceiveAll(rows, [reset, x])
  {
    assert [x, y][..1] == [x] && [y, x][..1] == [y] && [x][..0] == [] && [y][..0] == [];
    assert [x, reset][..1] == [x] && [reset, x][..1] == [reset] && [reset][..0] == [];
    assert ReceiveAll(rows, []) == rows;
    assert ReceiveAll(rows, [x]) == Receive(rows, x) && ReceiveAll(rows, [y]) == Receive(rows, y);
    assert ReceiveAll(rows, [reset]) == [];
    assert ReceiveAll(rows, [x, y]) == Receive(Receive(rows, x), y);
    assert ReceiveAll(rows, [y, x]) == Receive(Receive(rows, y), x);
    assert ReceiveAll(rows, [x, y])[x.index] == y.row && ReceiveAll(rows, [y, x])[x.index] == x.row;
    assert |ReceiveAll(rows, [reset, x])| > 0;
  }
}
