/** The `receivedCanMessages` object every receiver keeps: a JavaScript object
    whose keys are formatted identifiers and whose values are arrays, one element
    per frame. A JavaScript object remembers the order its keys were created in
    (what `Object.keys` and `for…in` visit), so the model keeps that order as a
    sequence beside the map. */
module KeyedLists {

  predicate Distinct(s: seq<string>) {
    forall i, j :: 0 <= i < j < |s| ==> s[i] != s[j]
  }

  /** `order` lists the keys of `lists`, each once, in creation order. */
  ghost predicate OrderedKeys<E>(order: seq<string>, lists: map<string, seq<E>>) {
    Distinct(order) && (forall k :: k in lists <==> k in order)
  }

  /** `if (!table[key]) table[key] = []; table[key].push(e)`: the key is created
      empty when new, then gains exactly one element, `e`, at the end; no other
      key changes and none disappears. */
  function Append<E>(lists: map<string, seq<E>>, key: string, e: E): (r: map<string, seq<E>>)
    ensures r.Keys == lists.Keys + {key}
    ensures r[key] == (if key in lists then lists[key] else []) + [e]
    ensures forall k :: k in lists && k != key ==> r[k] == lists[k]
  {
    lists[key := (if key in lists then lists[key] else []) + [e]]
  }

  /** `Append` adds one key exactly when the key is new. */
  lemma AppendKeyCount<E>(lists: map<string, seq<E>>, key: string, e: E)
    ensures |Append(lists, key, e).Keys| == |lists.Keys| + (if key in lists then 0 else 1)
  {
    var r := Append(lists, key, e);
    if key in lists {
      assert r.Keys == lists.Keys;
    } else {
      assert r.Keys == lists.Keys + {key};
    }
  }

  /** The key order after `Append`: a new key goes last. */
  function AddKey(order: seq<string>, key: string): seq<string> {
    if key in order then order else order + [key]
  }

  lemma AppendKeepsOrder<E>(order: seq<string>, lists: map<string, seq<E>>, key: string, e: E)
    requires OrderedKeys(order, lists)
    ensures OrderedKeys(AddKey(order, key), Append(lists, key, e))
  {
    if key !in order {
      var o := order + [key];
      forall i, j | 0 <= i < j < |o| ensures o[i] != o[j] {
        if j == |order| {
          assert o[i] == order[i];
        }
      }
    }
  }

  /** The JavaScript steps `if (!lists[key]) lists[key] = []` and
      `lists[key].push(e)`, done one after the other, are `Append` and `AddKey`. */
  lemma PushStep<E>(order: seq<string>, lists: map<string, seq<E>>, key: string, e: E)
    requires OrderedKeys(order, lists)
    ensures var created := if key in lists then lists else lists[key := []];
      created[key := created[key] + [e]] == Append(lists, key, e)
    ensures (if key in lists then order else order + [key]) == AddKey(order, key)
  {
  }

  /** The counts view: every key mapped to the length of its list. */
  function Counts<E>(lists: map<string, seq<E>>): map<string, nat> {
    map k | k in lists :: |lists[k]|
  }

  /** The `for (const id in receivedCanMessages) stats[id] = receivedCanMessages[id].length`
      loop: the snapshot has exactly the table's keys, each with its list's length. */
  method LengthSnapshot<E>(order: seq<string>, lists: map<string, seq<E>>) returns (stats: map<string, nat>)
    requires OrderedKeys(order, lists)
    ensures stats.Keys == lists.Keys
    ensures forall k :: k in stats ==> stats[k] == |lists[k]|
    ensures stats == Counts(lists)
  {
    stats := map[];
    var i := 0;
    while i < |order|
      invariant 0 <= i <= |order|
      invariant forall k :: k in stats <==> k in order[..i]
      invariant forall k :: k in stats ==> k in lists && stats[k] == |lists[k]|
    {
      assert order[..i + 1] == order[..i] + [order[i]];
      stats := stats[order[i] := |lists[order[i]]|];
      i := i + 1;
    }
    assert order[..i] == order;
  }

  /** `Object.keys(table).length` is the number of distinct keys. */
  lemma {:induction false} KeyCount<E>(order: seq<string>, lists: map<string, seq<E>>)
    requires OrderedKeys(order, lists)
    ensures |lists.Keys| == |order|
  {
    if order == [] {
      assert lists.Keys == {};
    } else {
      var last := order[|order| - 1];
      var rest := order[..|order| - 1];
      var smaller := lists - {last};
      assert forall k :: k in smaller <==> k in rest by {
        forall k ensures k in smaller <==> k in rest {
          if k in rest {
            var j :| 0 <= j < |rest| && rest[j] == k;
            assert order[j] == k;
          }
          if k in order && k != last {
            var j :| 0 <= j < |order| && order[j] == k;
            assert j < |order| - 1;
            assert rest[j] == k;
          }
        }
      }
      KeyCount(rest, smaller);
      assert lists.Keys == smaller.Keys + {last};
    }
  }
}
