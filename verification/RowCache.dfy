/** The app's incremental transcript parser: a cache keyed by row index. */
module RowCache {
  import opened Transcript

  /** A parsed row: what the row's text says, under the index it was parsed at. */
  datatype ChatRow<V> = ChatRow(id: nat, content: V)

  /** Parsing one text, from scratch. An empty text is a gap and shows nothing. */
  function ParseOne<V>(parse: string -> V, index: nat, json: string): Option<ChatRow<V>> {
    if json == "" then None else Some(ChatRow(index, parse(json)))
  }

  /** Parsing every text, from scratch. */
  function ParseEach<V>(parse: string -> V, raw: seq<string>): seq<Option<ChatRow<V>>> {
    seq(|raw|, i requires 0 <= i < |raw| => ParseOne(parse, i, raw[i]))
  }

  /** The rows that are there, in order. */
  function Present<V>(parsed: seq<Option<ChatRow<V>>>): seq<ChatRow<V>> {
    if |parsed| == 0 then []
    else
      Present(parsed[..|parsed| - 1])
      + match parsed[|parsed| - 1] { case Some(row) => [row] case None => [] }
  }

  /** What the chat shows for a row list: every non-empty row parsed afresh. */
  function Shown<V>(parse: string -> V, raw: seq<string>): seq<ChatRow<V>> {
    Present(ParseEach(parse, raw))
  }

  lemma ShownSnoc<V>(parse: string -> V, raw: seq<string>)
    requires |raw| > 0
    ensures Shown(parse, raw)
         == Shown(parse, raw[..|raw| - 1])
            + if raw[|raw| - 1] == "" then [] else [ChatRow(|raw| - 1, parse(raw[|raw| - 1]))]
  {
    assert ParseEach(parse, raw)[..|raw| - 1] == ParseEach(parse, raw[..|raw| - 1]);
  }

  ghost predicate StrictlyIncreasing<V>(rows: seq<ChatRow<V>>) {
    forall i, j :: 0 <= i < j < |rows| ==> rows[i].id < rows[j].id
  }

  /** Row ids are the transcript indices of the non-empty texts: distinct, in order, and stable when
      a gap before or after them fills in. */
  lemma {:induction false} IdsIncrease<V>(parse: string -> V, raw: seq<string>)
    ensures StrictlyIncreasing(Shown(parse, raw))
    ensures forall row :: row in Shown(parse, raw) ==>
              row.id < |raw| && raw[row.id] != "" && row.content == parse(raw[row.id])
    ensures forall i :: 0 <= i < |raw| && raw[i] != "" ==> ChatRow(i, parse(raw[i])) in Shown(parse, raw)
  {
    if |raw| > 0 {
      var before := raw[..|raw| - 1];
      IdsIncrease(parse, before);
      ShownSnoc(parse, raw);
      forall i | 0 <= i < |raw| && raw[i] != ""
        ensures ChatRow(i, parse(raw[i])) in Shown(parse, raw)
      {
        if i < |before| {
          assert before[i] == raw[i];
          assert ChatRow(i, parse(before[i])) in Shown(parse, before);
        }
      }
    }
  }

  /** Filling one gap adds exactly that row's id and moves no other. */
  lemma GapFillKeepsIds<V>(parse: string -> V, raw: seq<string>, gap: nat, json: string)
    requires gap < |raw| && raw[gap] == "" && json != ""
    ensures forall row :: row in Shown(parse, raw[gap := json])
              <==> row in Shown(parse, raw) || row == ChatRow(gap, parse(json))
  {
    var filled := raw[gap := json];
    IdsIncrease(parse, raw);
    IdsIncrease(parse, filled);
    forall row
      ensures row in Shown(parse, filled) <==> row in Shown(parse, raw) || row == ChatRow(gap, parse(json))
    {
      if row in Shown(parse, filled) && row.id != gap {
        assert raw[row.id] == filled[row.id];
      }
      if row in Shown(parse, raw) {
        assert row.id != gap && filled[row.id] == raw[row.id];
      }
      if row == ChatRow(gap, parse(json)) {
        assert filled[gap] == json;
      }
    }
  }

  class TranscriptRows<V> {
    const parse: string -> V
    var lastRaw: seq<string>
    var lastParsed: seq<Option<ChatRow<V>>>

    /** The cache holds what parsing the last list from scratch gives. */
    ghost predicate Valid()
      reads this
    {
      lastParsed == ParseEach(parse, lastRaw)
    }

    constructor (parse: string -> V)
      ensures Valid() && this.parse == parse && lastRaw == []
    {
      this.parse := parse;
      lastRaw := [];
      lastParsed := [];
    }

    /** Whatever lists came before, however they grew, shrank or were padded: the answer is that of a
        fresh parse. */
    method Of(raw: seq<string>) returns (rows: seq<ChatRow<V>>)
      requires Valid()
      modifies this
      ensures Valid() && lastRaw == raw
      ensures rows == Shown(parse, raw) && StrictlyIncreasing(rows)
    {
      var parsed: seq<Option<ChatRow<V>>> := [];
      for index := 0 to |raw|
        invariant parsed == ParseEach(parse, raw)[..index]
        invariant lastParsed == ParseEach(parse, lastRaw)
      {
        var json := raw[index];
        if index < |lastRaw| && lastRaw[index] == json {
          parsed := parsed + [lastParsed[index]];
        } else if json == "" {
          parsed := parsed + [None];
        } else {
          parsed := parsed + [Some(ChatRow(index, parse(json)))];
        }
      }
      lastRaw := raw;
      lastParsed := parsed;
      rows := Compact(parsed);
      IdsIncrease(parse, raw);
    }

    static method Compact(parsed: seq<Option<ChatRow<V>>>) returns (rows: seq<ChatRow<V>>)
      ensures rows == Present(parsed)
    {
      rows := [];
      for i := 0 to |parsed|
        invariant rows == Present(parsed[..i])
      {
        assert parsed[..i + 1][..i] == parsed[..i];
        if parsed[i].Some? {
          rows := rows + [parsed[i].value];
        }
      }
      assert parsed[..|parsed|] == parsed;
    }
  }
}
