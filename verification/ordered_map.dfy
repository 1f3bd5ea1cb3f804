/** The insertion-ordered map (`java.util.LinkedHashMap`) that collects sessions per user:
    a sequence of entries with distinct keys, kept in the order keys were first put. */
module OrderedMap {
  import opened Optional

  datatype Entry<V> = Entry(key: string, value: V)

  type OrderedMap<V> = seq<Entry<V>>

  /** The keys in iteration order (`keySet()`). */
  function Keys<V>(m: OrderedMap<V>): (ks: seq<string>)
    ensures |ks| == |m|
    ensures forall i :: 0 <= i < |m| ==> ks[i] == m[i].key
  {
    if |m| == 0 then [] else [m[0].key] + Keys(m[1..])
  }

  predicate Distinct(xs: seq<string>) {
    forall i, j :: 0 <= i < j < |xs| ==> xs[i] != xs[j]
  }

  /** `get(key)`: the value stored under `key`, or `None` (Java's `null`) when absent. */
  function Get<V>(m: OrderedMap<V>, key: string): (r: Option<V>)
    ensures r.None? <==> key !in Keys(m)
    ensures r.Some? ==> exists i :: 0 <= i < |m| && m[i] == Entry(key, r.value)
  {
    if |m| == 0 then None
    else if m[0].key == key then Some(m[0].value)
    else Get(m[1..], key)
  }

  /** Putting into the tail behind a front entry with another key extends the keys of
      the whole map the same way. */
  lemma KeysBehind<V>(m: OrderedMap<V>, t: OrderedMap<V>, key: string)
    requires |m| > 0 && m[0].key != key
    requires Keys(t) == if key in Keys(m[1..]) then Keys(m[1..]) else Keys(m[1..]) + [key]
    ensures Keys([m[0]] + t) == if key in Keys(m) then Keys(m) else Keys(m) + [key]
  {
    var r := [m[0]] + t;
    assert r[1..] == t;
    assert Keys(r) == [m[0].key] + Keys(t);
    assert Keys(m) == [m[0].key] + Keys(m[1..]);
    assert key in Keys(m) <==> key in Keys(m[1..]);
    if key !in Keys(m) {
      assert Keys(r) == [m[0].key] + (Keys(m[1..]) + [key]) == Keys(m) + [key];
    }
  }

  /** Putting into the tail behind a front entry with another key changes the lookups of
      the whole map the same way. */
  lemma GetBehind<V>(m: OrderedMap<V>, t: OrderedMap<V>, key: string, value: V)
    requires |m| > 0 && m[0].key != key
    requires Get(t, key) == Some(value)
    requires forall k :: k != key ==> Get(t, k) == Get(m[1..], k)
    ensures Get([m[0]] + t, key) == Some(value)
    ensures forall k :: k != key ==> Get([m[0]] + t, k) == Get(m, k)
  {
    var r := [m[0]] + t;
    assert r[1..] == t;
  }

  /** Replacing the value of the front entry keeps the keys and the other lookups. */
  lemma ReplaceFront<V>(m: OrderedMap<V>, value: V)
    requires |m| > 0
    ensures var r := [Entry(m[0].key, value)] + m[1..];
      && Keys(r) == Keys(m)
      && Get(r, m[0].key) == Some(value)
      && forall k :: k != m[0].key ==> Get(r, k) == Get(m, k)
  {
    var r := [Entry(m[0].key, value)] + m[1..];
    assert r[1..] == m[1..];
    assert Keys(r) == [m[0].key] + Keys(m[1..]);
    assert Keys(m) == [m[0].key] + Keys(m[1..]);
  }

  /** `put(key, value)`: an existing key keeps its place and gets the new value;
      a new key goes last. */
  function Put<V>(m: OrderedMap<V>, key: string, value: V): (r: OrderedMap<V>)
    ensures Keys(r) == if key in Keys(m) then Keys(m) else Keys(m) + [key]
    ensures Get(r, key) == Some(value)
    ensures forall k :: k != key ==> Get(r, k) == Get(m, k)
  {
    if |m| == 0 then [Entry(key, value)]
    else if m[0].key == key then
      ReplaceFront(m, value);
      assert key in Keys(m);
      [Entry(key, value)] + m[1..]
    else
      var tail := Put(m[1..], key, value);
      KeysBehind(m, tail, key);
      GetBehind(m, tail, key, value);
      [m[0]] + tail
  }

  /** A lookup finds the first entry carrying the key. */
  lemma {:induction false} GetFirst<V>(m: OrderedMap<V>, i: nat)
    requires i < |m|
    requires forall j :: 0 <= j < i ==> m[j].key != m[i].key
    ensures Get(m, m[i].key) == Some(m[i].value)
  {
    if i > 0 {
      assert m[1..][i - 1] == m[i];
      GetFirst(m[1..], i - 1);
    }
  }

  /** With distinct keys, a lookup sees the value of the entry at hand. */
  lemma GetAt<V>(m: OrderedMap<V>, i: nat)
    requires i < |m| && Distinct(Keys(m))
    ensures Get(m, m[i].key) == Some(m[i].value)
  {
    assert forall j :: 0 <= j < i ==> Keys(m)[j] != Keys(m)[i];
    GetFirst(m, i);
  }
}
