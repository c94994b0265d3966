// Values shared by every component: an optional value, and a map that, like the JavaScript Map
// the repository uses, remembers the order in which its keys were first inserted.

module Options {
  datatype Option<+T> = None | Some(value: T) {
    function GetOr(default: T): T {
      match this
      case Some(v) => v
      case None => default
    }
  }

  // A text that is there and not empty.
  predicate Given(o: Option<string>) {
    match o case Some(text) => text != "" case None => false
  }
}

module Sequences {
  // The last n elements, or all of them when there are fewer.
  function LastOf<T>(s: seq<T>, n: nat): seq<T> {
    if |s| > n then s[|s| - n..] else s
  }

  ghost predicate Distinct<T>(s: seq<T>) {
    forall i, j :: 0 <= i < j < |s| ==> s[i] != s[j]
  }
}

module OrderedMaps {
  import opened Sequences
  import opened Options

  datatype RawMap<K(==,!new), V> = RawMap(keys: seq<K>, vals: map<K, V>)

  // Each key is listed once, and exactly the listed keys have a value.
  ghost predicate Consistent<K(!new), V>(m: RawMap<K, V>) {
    && Distinct(m.keys)
    && (forall k :: k in m.keys <==> k in m.vals)
  }

  type OrderedMap<K(==,!new), V> = m: RawMap<K, V> | Consistent(m) witness RawMap([], map[])

  function Empty<K(==,!new), V>(): OrderedMap<K, V> {
    RawMap([], map[])
  }

  function Lookup<K(==,!new), V>(m: OrderedMap<K, V>, k: K): (r: Option<V>) {
    if k in m.vals then Some(m.vals[k]) else None
  }

  // Setting a key that is already there keeps its place in the order.
  function Put<K(==,!new), V>(m: OrderedMap<K, V>, k: K, v: V): (r: OrderedMap<K, V>)
    ensures r.vals == m.vals[k := v]
  {
    RawMap(if k in m.vals then m.keys else m.keys + [k], m.vals[k := v])
  }

  function Without<K(==,!new)>(keys: seq<K>, k: K): (r: seq<K>)
    ensures forall x :: x in r <==> x in keys && x != k
    ensures k !in keys ==> r == keys
  {
    if keys == [] then []
    else if keys[0] == k then Without(keys[1..], k)
    else [keys[0]] + Without(keys[1..], k)
  }

  lemma {:induction false} WithoutKeepsDistinct<K(!new)>(keys: seq<K>, k: K)
    requires Distinct(keys)
    ensures Distinct(Without(keys, k))
    ensures |Without(keys, k)| == if k in keys then |keys| - 1 else |keys|
  {
    if keys != [] {
      WithoutKeepsDistinct(keys[1..], k);
      var w := Without(keys[1..], k);
      assert keys[0] !in w;
      assert forall j :: 0 < j <= |w| ==> ([keys[0]] + w)[j] == w[j - 1] && w[j - 1] in w;
    }
  }

  function Remove<K(==,!new), V>(m: OrderedMap<K, V>, k: K): (r: OrderedMap<K, V>)
    ensures r.vals == m.vals - {k}
    ensures k !in m.vals ==> r == m
    ensures k in m.vals ==> |r.keys| == |m.keys| - 1
  {
    WithoutKeepsDistinct(m.keys, k);
    RawMap(Without(m.keys, k), m.vals - {k})
  }

  function ValuesOf<K(==,!new), V>(m: OrderedMap<K, V>): (vs: seq<V>)
    ensures |vs| == |m.keys| && forall i :: 0 <= i < |vs| ==> vs[i] == m.vals[m.keys[i]]
  {
    seq(|m.keys|, i requires 0 <= i < |m.keys| => m.vals[m.keys[i]])
  }

  lemma InValuesOf<K(!new), V>(m: OrderedMap<K, V>, v: V)
    ensures v in ValuesOf(m) <==> exists k :: k in m.vals && m.vals[k] == v
  {
    var vs := ValuesOf(m);
    if v in vs {
      var i :| 0 <= i < |vs| && vs[i] == v;
      assert m.keys[i] in m.keys;
    }
    if k :| k in m.vals && m.vals[k] == v {
      var i :| 0 <= i < |m.keys| && m.keys[i] == k;
      assert vs[i] == v;
    }
  }

  // A loop over `keys` that deletes every key whose value satisfies `drop`.
  function Sweep<K(==,!new), V>(m: OrderedMap<K, V>, keys: seq<K>, drop: (K, V) -> bool): OrderedMap<K, V> {
    if keys == [] then m
    else
      var m' := Sweep(m, keys[..|keys| - 1], drop);
      var k := keys[|keys| - 1];
      if k in m'.vals && drop(k, m'.vals[k]) then Remove(m', k) else m'
  }

  // The loop itself: visit the keys present at the start, deleting as it goes.
  method DeleteWhere<K(==,!new), V>(m: OrderedMap<K, V>, drop: (K, V) -> bool) returns (kept: OrderedMap<K, V>)
    ensures kept == Sweep(m, m.keys, drop)
  {
    kept := m;
    var keys := m.keys;
    for i := 0 to |keys|
      invariant kept == Sweep(m, keys[..i], drop)
    {
      assert keys[..i + 1][..i] == keys[..i];
      if keys[i] in kept.vals && drop(keys[i], kept.vals[keys[i]]) { kept := Remove(kept, keys[i]); }
    }
    assert keys[..|keys|] == keys;
  }

  lemma {:induction false} SweepMeaning<K(!new), V>(m: OrderedMap<K, V>, keys: seq<K>, drop: (K, V) -> bool)
    ensures forall k :: k in Sweep(m, keys, drop).vals <==>
                        k in m.vals && !(k in keys && drop(k, m.vals[k]))
    ensures forall k :: k in Sweep(m, keys, drop).vals ==> Sweep(m, keys, drop).vals[k] == m.vals[k]
  {
    if keys != [] {
      var front, last := keys[..|keys| - 1], keys[|keys| - 1];
      SweepMeaning(m, front, drop);
      assert keys == front + [last];
    }
  }
}
