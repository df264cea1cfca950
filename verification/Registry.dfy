/** The durable list of open tabs: one record per session, plus the active key. */
module Registry {
  import opened Transcript

  datatype SessionRecord = SessionRecord(
    storedId: string, lastSeenSeq: int, replayEpoch: string, cols: int, title: string, profileName: string)

  datatype Tabs = Tabs(activeKey: Option<string>, records: seq<SessionRecord>)

  const NO_TABS := Tabs(None, [])

  /** Position of the first record of `key`. */
  function Find(records: seq<SessionRecord>, key: string): (r: Option<nat>)
    ensures r.Some? ==>
              && r.value < |records| && records[r.value].storedId == key
              && forall j :: 0 <= j < r.value ==> records[j].storedId != key
    ensures r.None? ==> forall j :: 0 <= j < |records| ==> records[j].storedId != key
  {
    if |records| == 0 then None
    else if records[0].storedId == key then Some(0)
    else
      var r := Find(records[1..], key);
      assert forall j :: 1 <= j < |records| ==> records[j] == records[1..][j - 1];
      if r.Some? then Some(r.value + 1) else None
  }

  function Get(t: Tabs, key: string): Option<SessionRecord> {
    var i := Find(t.records, key);
    if i.Some? then Some(t.records[i.value]) else None
  }

  /** Replace in place or append. */
  function Upsert(t: Tabs, record: SessionRecord): Tabs {
    var i := Find(t.records, record.storedId);
    t.(records := if i.Some? then t.records[i.value := record] else t.records + [record])
  }

  function Without(records: seq<SessionRecord>, key: string): seq<SessionRecord> {
    if |records| == 0 then []
    else Without(records[..|records| - 1], key)
         + if records[|records| - 1].storedId == key then [] else [records[|records| - 1]]
  }

  function Close(t: Tabs, key: string): Tabs {
    Tabs(if t.activeKey == Some(key) then None else t.activeKey, Without(t.records, key))
  }

  function SetActive(t: Tabs, key: Option<string>): Tabs {
    t.(activeKey := key)
  }

  function Touched(r: SessionRecord, seqNo: int, replayEpoch: string): SessionRecord {
    r.(lastSeenSeq := if seqNo > r.lastSeenSeq then seqNo else r.lastSeenSeq,
       replayEpoch := if replayEpoch != "" then replayEpoch else r.replayEpoch)
  }

  function Touch(t: Tabs, key: string, seqNo: int, replayEpoch: string): Tabs {
    var i := Find(t.records, key);
    if i.Some? then t.(records := t.records[i.value := Touched(t.records[i.value], seqNo, replayEpoch)]) else t
  }

  function Retitle(t: Tabs, key: string, title: string): Tabs {
    var i := Find(t.records, key);
    if i.Some? then t.(records := t.records[i.value := t.records[i.value].(title := title)]) else t
  }

  /** A rebuild restarts the watermark and may learn a new replay epoch. */
  function Restart(t: Tabs, key: string, replayEpoch: Option<string>): Tabs {
    var i := Find(t.records, key);
    if i.Some? then
      var r := t.records[i.value];
      t.(records := t.records[i.value := r.(
           lastSeenSeq := 0, replayEpoch := if replayEpoch.Some? then replayEpoch.value else r.replayEpoch)])
    else t
  }

  // ── What lookups see afterwards ───────────────────────────────────────

  lemma FoundAt(records: seq<SessionRecord>, key: string, i: nat)
    requires i < |records| && records[i].storedId == key
    requires forall j :: 0 <= j < i ==> records[j].storedId != key
    ensures Find(records, key) == Some(i)
  {
  }

  /** Replacing the record of one key, keeping its id, is seen under that key and no other. */
  lemma ReplacedIsSeen(t: Tabs, i: nat, record: SessionRecord, key: string)
    requires Find(t.records, record.storedId) == Some(i)
    ensures Get(t.(records := t.records[i := record]), key)
         == if key == record.storedId then Some(record) else Get(t, key)
  {
    var records := t.records[i := record];
    var was := Find(t.records, key);
    if key == record.storedId {
      FoundAt(records, key, i);
    } else if was.Some? {
      FoundAt(records, key, was.value);
    }
  }

  lemma UpsertIsSeen(t: Tabs, record: SessionRecord, key: string)
    ensures Get(Upsert(t, record), key) == if key == record.storedId then Some(record) else Get(t, key)
  {
    var i := Find(t.records, record.storedId);
    if i.Some? {
      ReplacedIsSeen(t, i.value, record, key);
    } else {
      var records := t.records + [record];
      var was := Find(t.records, key);
      if key == record.storedId {
        FoundAt(records, key, |t.records|);
      } else if was.Some? {
        FoundAt(records, key, was.value);
      }
    }
  }

  lemma {:induction false} WithoutKeeps(records: seq<SessionRecord>, gone: string, r: SessionRecord)
    ensures r in Without(records, gone) <==> r in records && r.storedId != gone
  {
    if |records| > 0 {
      var n := |records| - 1;
      WithoutKeeps(records[..n], gone, r);
      assert records == records[..n] + [records[n]];
    }
  }

  lemma {:induction false} FindSnoc(records: seq<SessionRecord>, r: SessionRecord, key: string)
    ensures Find(records + [r], key)
         == if Find(records, key).Some? then Find(records, key)
            else if r.storedId == key then Some(|records|) else None
  {
    var was := Find(records, key);
    if was.Some? {
      FoundAt(records + [r], key, was.value);
    } else if r.storedId == key {
      FoundAt(records + [r], key, |records|);
    }
  }

  function Lookup(records: seq<SessionRecord>, key: string): Option<SessionRecord> {
    Get(Tabs(None, records), key)
  }

  /** Closing a tab forgets that key and no other. */
  lemma {:induction false} WithoutIsSeen(records: seq<SessionRecord>, gone: string, key: string)
    ensures Lookup(Without(records, gone), key) == if key == gone then None else Lookup(records, key)
  {
    if |records| > 0 {
      var n := |records| - 1;
      WithoutIsSeen(records[..n], gone, key);
      assert records == records[..n] + [records[n]];
      FindSnoc(records[..n], records[n], key);
      if records[n].storedId != gone {
        FindSnoc(Without(records[..n], gone), records[n], key);
      } else {
        assert Without(records, gone) == Without(records[..n], gone);
      }
    }
  }

  lemma CloseIsSeen(t: Tabs, gone: string, key: string)
    ensures Get(Close(t, gone), key) == if key == gone then None else Get(t, key)
  {
    WithoutIsSeen(t.records, gone, key);
  }

  /** Closing a tab undoes the opening that added it. */
  lemma CloseUndoesUpsert(t: Tabs, record: SessionRecord)
    requires Get(t, record.storedId).None?
    ensures Close(Upsert(t, record), record.storedId).records == t.records
  {
    assert (t.records + [record])[..|t.records|] == t.records;
    WithoutAbsent(t.records, record.storedId);
  }

  lemma {:induction false} WithoutAbsent(records: seq<SessionRecord>, key: string)
    requires forall r :: r in records ==> r.storedId != key
    ensures Without(records, key) == records
  {
    if |records| > 0 {
      var before, last := records[..|records| - 1], records[|records| - 1];
      assert records == before + [last];
      assert last in records;
      WithoutAbsent(before, key);
    }
  }

  lemma TouchIsSeen(t: Tabs, touched: string, seqNo: int, replayEpoch: string, key: string)
    ensures var r := Get(t, key);
            Get(Touch(t, touched, seqNo, replayEpoch), key)
            == if key == touched && r.Some? then Some(Touched(r.value, seqNo, replayEpoch)) else r
  {
    var i := Find(t.records, touched);
    if i.Some? {
      ReplacedIsSeen(t, i.value, Touched(t.records[i.value], seqNo, replayEpoch), key);
    }
  }

  lemma RetitleIsSeen(t: Tabs, named: string, title: string, key: string)
    ensures var r := Get(t, key);
            Get(Retitle(t, named, title), key)
            == if key == named && r.Some? then Some(r.value.(title := title)) else r
  {
    var i := Find(t.records, named);
    if i.Some? {
      ReplacedIsSeen(t, i.value, t.records[i.value].(title := title), key);
    }
  }

  lemma RestartIsSeen(t: Tabs, restarted: string, replayEpoch: Option<string>, key: string)
    ensures var r := Get(t, key);
            Get(Restart(t, restarted, replayEpoch), key)
            == if key == restarted && r.Some? then
                 Some(r.value.(lastSeenSeq := 0,
                               replayEpoch := if replayEpoch.Some? then replayEpoch.value else r.value.replayEpoch))
               else r
  {
    var i := Find(t.records, restarted);
    if i.Some? {
      var r := t.records[i.value];
      ReplacedIsSeen(t, i.value, r.(
        lastSeenSeq := 0, replayEpoch := if replayEpoch.Some? then replayEpoch.value else r.replayEpoch), key);
    }
  }

}

/** The registry object, whose methods update the record vector in place. */
module RegistryObject {
  import opened Transcript
  import opened Registry

  class SessionRegistry {
    var activeKey: Option<string>
    var records: seq<SessionRecord>

    ghost function View(): Tabs
      reads this
    {
      Tabs(activeKey, records)
    }

    constructor ()
      ensures View() == NO_TABS
    {
      activeKey, records := None, [];
    }

    method Position(key: string) returns (found: Option<nat>)
      ensures found == Find(records, key)
    {
      var i := 0;
      while i < |records|
        invariant 0 <= i <= |records|
        invariant forall j :: 0 <= j < i ==> records[j].storedId != key
      {
        if records[i].storedId == key {
          FoundAt(records, key, i);
          return Some(i);
        }
        i := i + 1;
      }
      found := None;
    }

    method Upsert(record: SessionRecord)
      modifies this
      ensures View() == Registry.Upsert(old(View()), record)
    {
      var slot := Position(record.storedId);
      if slot.Some? {
        records := records[slot.value := record];
      } else {
        records := records + [record];
      }
    }

    /** True when the tab was there. */
    method Close(key: string) returns (present: bool)
      modifies this
      ensures View() == Registry.Close(old(View()), key)
      ensures present <==> Get(old(View()), key).Some?
    {
      var kept := [];
      for i := 0 to |records|
        invariant kept == Without(records[..i], key)
        invariant |kept| <= i
        invariant |kept| == i <==> forall j :: 0 <= j < i ==> records[j].storedId != key
      {
        assert records[..i + 1][..i] == records[..i];
        if records[i].storedId != key {
          kept := kept + [records[i]];
        }
      }
      assert records[..|records|] == records;
      present := |kept| != |records|;
      records := kept;
      if activeKey == Some(key) {
        activeKey := None;
      }
    }

    method Touch(key: string, seqNo: int, replayEpoch: string)
      modifies this
      ensures View() == Registry.Touch(old(View()), key, seqNo, replayEpoch)
    {
      var slot := Position(key);
      if slot.Some? {
        var r := records[slot.value];
        if seqNo > r.lastSeenSeq {
          r := r.(lastSeenSeq := seqNo);
        }
        if replayEpoch != "" {
          r := r.(replayEpoch := replayEpoch);
        }
        records := records[slot.value := r];
      }
    }

    method SetActive(key: Option<string>)
      modifies this
      ensures View() == Registry.SetActive(old(View()), key)
    {
      activeKey := key;
    }
  }
}
