/**
 * Python dictionaries as the bots use them: string keys, insertion order
 * kept, `d[key]` to read and `d[key] = value` to write. A dictionary is the
 * sequence of its items in insertion order.
 */
module Dicts {
  import opened Wrappers

  /** The keys in insertion order. */
  function Keys<V>(items: seq<(string, V)>): (ks: seq<string>)
    ensures |ks| == |items|
    ensures forall i :: 0 <= i < |items| ==> ks[i] == items[i].0
  {
    if items == [] then [] else [items[0].0] + Keys(items[1..])
  }

  /** No key occurs twice, as in any dictionary. */
  predicate UniqueKeys<V>(items: seq<(string, V)>) {
    forall i, j :: 0 <= i < j < |items| ==> items[i].0 != items[j].0
  }

  /** `d[key]`, with `None` where Python raises `KeyError`. */
  function Find<V>(items: seq<(string, V)>, key: string): (r: Option<V>)
    ensures r.Some? <==> key in Keys(items)
    ensures r.Some? ==> exists i :: 0 <= i < |items| && items[i] == (key, r.value)
  {
    if |items| == 0 then None
    else if items[0].0 == key then Some(items[0].1)
    else
      assert Keys(items) == [items[0].0] + Keys(items[1..]);
      Find(items[1..], key)
  }

  /** `d[key] = value`: replaces the value in place when the key is present, appends a new item otherwise. */
  function Put<V>(items: seq<(string, V)>, key: string, value: V): (r: seq<(string, V)>)
  {
    if items == [] then [(key, value)]
    else if items[0].0 == key then [(key, value)] + items[1..]
    else [items[0]] + Put(items[1..], key, value)
  }

  /** The lookup returns the value of the first item carrying the key. */
  lemma {:induction false} FindFirst<V>(items: seq<(string, V)>, i: nat)
    requires i < |items|
    requires forall j :: 0 <= j < i ==> items[j].0 != items[i].0
    ensures Find(items, items[i].0) == Some(items[i].1)
  {
    if i > 0 {
      FindFirst(items[1..], i - 1);
    }
  }

  /** After `d[key] = value`, `d[key]` is `value` and every other key reads as before. */
  lemma {:induction false} FindPut<V>(items: seq<(string, V)>, key: string, value: V, other: string)
    ensures Find(Put(items, key, value), other) == if other == key then Some(value) else Find(items, other)
  {
    if items != [] && items[0].0 != key {
      FindPut(items[1..], key, value, other);
    }
  }

  /** Assignment keeps the order of the keys, and a new key goes last. */
  lemma {:induction false} KeysPut<V>(items: seq<(string, V)>, key: string, value: V)
    ensures Keys(Put(items, key, value)) == if key in Keys(items) then Keys(items) else Keys(items) + [key]
  {
    if items != [] && items[0].0 != key {
      KeysPut(items[1..], key, value);
      assert Keys(items) == [items[0].0] + Keys(items[1..]);
      assert Keys(Put(items, key, value)) == [items[0].0] + Keys(Put(items[1..], key, value));
    } else if items != [] {
      assert Keys(items) == [items[0].0] + Keys(items[1..]);
      assert Keys(Put(items, key, value)) == [key] + Keys(items[1..]);
    }
  }

  /** Assignment never makes a key occur twice. */
  lemma {:induction false} PutUnique<V>(items: seq<(string, V)>, key: string, value: V)
    requires UniqueKeys(items)
    ensures UniqueKeys(Put(items, key, value))
  {
    KeysPut(items, key, value);
    var r := Put(items, key, value);
    forall i, j | 0 <= i < j < |r| ensures r[i].0 != r[j].0 {
      assert Keys(r)[i] == r[i].0 && Keys(r)[j] == r[j].0;
      if key !in Keys(items) && j == |items| {
        assert Keys(items)[i] == r[i].0;
      } else {
        assert Keys(items)[i] == r[i].0 && Keys(items)[j] == r[j].0;
        assert items[i].0 != items[j].0;
      }
    }
  }

  /** Assigning the same key twice leaves what the second assignment alone would. */
  lemma {:induction false} PutPut<V>(items: seq<(string, V)>, key: string, first: V, second: V)
    ensures Put(Put(items, key, first), key, second) == Put(items, key, second)
  {
    if items != [] && items[0].0 != key {
      PutPut(items[1..], key, first, second);
    }
  }

  /** Every item after an assignment was already there, or is the assigned one. */
  lemma {:induction false} PutItems<V>(items: seq<(string, V)>, key: string, value: V)
    ensures forall x :: x in Put(items, key, value) ==> x in items || x == (key, value)
  {
    if items != [] && items[0].0 != key {
      PutItems(items[1..], key, value);
    }
  }
}
