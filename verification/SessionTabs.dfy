/** The tab strip as a value: open keys in order, and the one that is shown. */
module SessionTabs {
  import opened Transcript

  datatype TabSet = TabSet(keys: seq<string>, current: Option<string>)

  const NO_TAB_SET := TabSet([], None)

  function Select(tabs: TabSet, key: string): TabSet {
    if key in tabs.keys then TabSet(tabs.keys, Some(key)) else tabs
  }

  function Add(tabs: TabSet, key: string): TabSet {
    if key in tabs.keys then TabSet(tabs.keys, Some(key)) else TabSet(tabs.keys + [key], Some(key))
  }

  function FirstIndex(keys: seq<string>, key: string): (index: nat)
    requires key in keys
    ensures index < |keys| && keys[index] == key && key !in keys[..index]
  {
    if keys[0] == key then 0
    else
      var index := FirstIndex(keys[1..], key) + 1;
      assert keys[..index] == [keys[0]] + keys[1..][..index - 1];
      index
  }

  /** The left neighbour of a closed current tab is shown next, or the new first one. */
  function Close(tabs: TabSet, key: string): TabSet {
    if key !in tabs.keys then tabs
    else
      var index := FirstIndex(tabs.keys, key);
      var remaining := tabs.keys[..index] + tabs.keys[index + 1..];
      TabSet(
        remaining,
        if tabs.current != Some(key) then tabs.current
        else if index > 0 then Some(remaining[index - 1])
        else if remaining != [] then Some(remaining[0])
        else None)
  }

  datatype RestorePlan = RestorePlan(resumeKeys: seq<string>, current: Option<string>)

  /** `None` means that there is no last active key, or that it is none of the planned ones. */
  function Chosen(wanted: Option<string>, keys: seq<string>): Option<string> {
    if wanted.Some? && wanted.value in keys then wanted
    else if keys != [] then Some(keys[|keys| - 1])
    else None
  }

  function PlanRestore(keys: seq<string>, lastActive: Option<string>): RestorePlan {
    RestorePlan(keys, Chosen(lastActive, keys))
  }

  function TabTap(tabs: TabSet, currentKey: Option<string>, key: string): Option<TabSet> {
    if Some(key) == currentKey || key !in tabs.keys then None else Some(Select(tabs, key))
  }

  ghost predicate Distinct(keys: seq<string>) {
    forall i, j :: 0 <= i < j < |keys| ==> keys[i] != keys[j]
  }

  /** No key twice; one tab is shown exactly when there are tabs. */
  ghost predicate Proper(tabs: TabSet) {
    && Distinct(tabs.keys)
    && (tabs.current.None? <==> tabs.keys == [])
    && (tabs.current.Some? ==> tabs.current.value in tabs.keys)
  }

  /** Adding a key puts it at the end of the strip, or leaves the strip if it is there, and shows it;
      selecting shows it only if it is there. */
  lemma AddKeepsProper(tabs: TabSet, key: string)
    requires Proper(tabs)
    ensures Proper(Add(tabs, key)) && Add(tabs, key).current == Some(key)
    ensures Add(tabs, key).keys == if key in tabs.keys then tabs.keys else tabs.keys + [key]
    ensures Proper(Select(tabs, key)) && Select(tabs, key).keys == tabs.keys
    ensures Select(tabs, key).current == if key in tabs.keys then Some(key) else tabs.current
  {
  }

  /** Closing takes out that key and no other, and keeps the order. */
  lemma CloseKeepsProper(tabs: TabSet, key: string)
    requires Proper(tabs)
    ensures Proper(Close(tabs, key))
    ensures forall k :: k in Close(tabs, key).keys <==> k in tabs.keys && k != key
    ensures tabs.current != Some(key) ==> Close(tabs, key).current == tabs.current
  {
    if key in tabs.keys {
      var keys, index := tabs.keys, FirstIndex(tabs.keys, key);
      var remaining := Close(tabs, key).keys;
      assert forall i :: 0 <= i < |remaining| ==> remaining[i] == keys[if i < index then i else i + 1];
      forall k | k in keys && k != key ensures k in remaining {
        var i :| 0 <= i < |keys| && keys[i] == k;
        assert remaining[if i < index then i else i - 1] == k;
      }
    }
  }

  lemma FirstIndexIs(keys: seq<string>, i: nat)
    requires Distinct(keys) && i < |keys|
    ensures FirstIndex(keys, keys[i]) == i
  {
  }

  /** Closing tab `i` takes it out of the strip. If it was the one shown, its left neighbour is shown next;
      the first tab has none, so the next one is shown, or nothing if it was the only one. */
  lemma CloseShows(tabs: TabSet, i: nat)
    requires Distinct(tabs.keys) && i < |tabs.keys|
    ensures var keys, closed := tabs.keys, Close(tabs, tabs.keys[i]);
            && closed.keys == keys[..i] + keys[i + 1..]
            && (tabs.current != Some(keys[i]) ==> closed.current == tabs.current)
            && (tabs.current == Some(keys[i]) ==>
                  && (i > 0 ==> closed.current == Some(keys[i - 1]))
                  && (i == 0 && |keys| > 1 ==> closed.current == Some(keys[1]))
                  && (i == 0 && |keys| == 1 ==> closed.current == None))
  {
    FirstIndexIs(tabs.keys, i);
  }

  /** Only closing the one tab there is empties the strip. */
  lemma CloseEmptiesIff(tabs: TabSet, key: string)
    ensures Close(tabs, key).keys == [] <==> tabs.keys == [] || tabs.keys == [key]
  {
    if key in tabs.keys {
      assert |Close(tabs, key).keys| == |tabs.keys| - 1;
      assert tabs.keys[FirstIndex(tabs.keys, key)] == key;
    }
  }

  /** Closing a tab just added gives back the strip, showing its last tab. */
  lemma CloseUndoesAdd(tabs: TabSet, key: string)
    requires key !in tabs.keys
    ensures Close(Add(tabs, key), key) == TabSet(tabs.keys, Chosen(None, tabs.keys))
  {
    var keys := tabs.keys + [key];
    var index := FirstIndex(keys, key);
    assert forall i :: 0 <= i < |tabs.keys| ==> keys[i] == tabs.keys[i] && tabs.keys[i] in tabs.keys;
    assert keys[..index] + keys[index + 1..] == tabs.keys;
  }

  /** A tap that does something shows the tapped tab, and tapping it again does nothing. */
  lemma TapSettles(tabs: TabSet, key: string)
    requires Proper(tabs)
    ensures TabTap(tabs, tabs.current, key).Some? <==> key in tabs.keys && tabs.current != Some(key)
    ensures TabTap(tabs, tabs.current, key).Some? ==>
              var next := TabTap(tabs, tabs.current, key).value;
              && Proper(next) && next.keys == tabs.keys && next.current == Some(key)
              && TabTap(next, next.current, key).None?
  {
  }
}
