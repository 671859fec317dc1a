/** A JavaScript Map: setting a present key keeps its place, a new key goes last. */
module OrderedMap {
  import opened Prelude

  type Entries<K, V> = seq<(K, V)>

  predicate Has<K(==), V>(m: Entries<K, V>, key: K) {
    exists i :: 0 <= i < |m| && m[i].0 == key
  }

  function Get<K(==), V>(m: Entries<K, V>, key: K): (found: Option<V>)
    ensures found.Some? ==> (key, found.value) in m
    ensures found.None? <==> !Has(m, key)
  {
    if m == [] then None
    else if m[0].0 == key then Some(m[0].1)
    else
      assert forall i :: 0 <= i < |m[1..]| ==> m[1..][i] == m[i + 1];
      Get(m[1..], key)
  }

  function Set<K(==), V>(m: Entries<K, V>, key: K, value: V): Entries<K, V> {
    if m == [] then [(key, value)]
    else if m[0].0 == key then [(key, value)] + m[1..]
    else [m[0]] + Set(m[1..], key, value)
  }

  function Delete<K(==), V>(m: Entries<K, V>, key: K): Entries<K, V> {
    if m == [] then []
    else if m[0].0 == key then Delete(m[1..], key)
    else [m[0]] + Delete(m[1..], key)
  }

  function Keys<K, V>(m: Entries<K, V>): seq<K> {
    if m == [] then [] else [m[0].0] + Keys(m[1..])
  }

  lemma {:induction false} KeysAt<K, V>(m: Entries<K, V>)
    ensures |Keys(m)| == |m| && forall i :: 0 <= i < |m| ==> Keys(m)[i] == m[i].0
  {
    if m != [] { KeysAt(m[1..]); }
  }

  // Set: the key keeps its place or goes last, and nothing else moves.
  lemma {:induction false} SetKeys<K, V>(m: Entries<K, V>, key: K, value: V)
    ensures Keys(Set(m, key, value)) == if key in Keys(m) then Keys(m) else Keys(m) + [key]
    ensures (key, value) in Set(m, key, value)
    ensures forall e :: e in Set(m, key, value) ==> e == (key, value) || e in m
  {
    if m != [] && m[0].0 != key {
      SetKeys(m[1..], key, value);
      assert Set(m, key, value)[1..] == Set(m[1..], key, value);
    } else if m != [] {
      assert Set(m, key, value)[1..] == m[1..];
    }
  }

  lemma {:induction false} GetSet<K, V>(m: Entries<K, V>, key: K, value: V, other: K)
    ensures Get(Set(m, key, value), other) == if other == key then Some(value) else Get(m, other)
  {
    if m != [] {
      GetSet(m[1..], key, value, other);
      assert Set(m, key, value)[1..] == if m[0].0 == key then m[1..] else Set(m[1..], key, value);
    }
  }

  function Without<K(==)>(keys: seq<K>, key: K): seq<K> {
    if keys == [] then []
    else (if keys[0] == key then [] else [keys[0]]) + Without(keys[1..], key)
  }

  lemma {:induction false} WithoutMembers<K>(keys: seq<K>, key: K)
    ensures forall k :: k in Without(keys, key) <==> k in keys && k != key
  {
    if keys != [] {
      WithoutMembers(keys[1..], key);
      assert keys == [keys[0]] + keys[1..];
    }
  }

  lemma {:induction false} DeleteKeys<K, V>(m: Entries<K, V>, key: K)
    ensures Keys(Delete(m, key)) == Without(Keys(m), key)
    ensures forall e :: e in Delete(m, key) <==> e in m && e.0 != key
  {
    if m != [] {
      DeleteKeys(m[1..], key);
      assert m == [m[0]] + m[1..];
      if m[0].0 != key { assert Delete(m, key)[1..] == Delete(m[1..], key); }
    }
  }
}
