/** The JavaScript `Map` that MapLoader keeps its entries in: entries are
    enumerated in insertion order, `set` on a key that is present replaces
    its value where it stands, and `set` on a new key appends it. */
module JsMaps {
  import opened Common

  type Entries<K, V> = seq<(K, V)>

  /** No key occurs twice, as in every JavaScript `Map`: the first key is
      not among the others, and so on down the sequence. */
  predicate KeysUnique<K(==), V>(entries: Entries<K, V>)
    decreases |entries|
  {
    entries == [] || (!HasKey(entries[1..], entries[0].0) && KeysUnique(entries[1..]))
  }

  /** `map.has(key)`. */
  predicate HasKey<K(==), V>(entries: Entries<K, V>, key: K)
    decreases |entries|
  {
    entries != [] && (entries[0].0 == key || HasKey(entries[1..], key))
  }

  /** `has` finds the key exactly when some entry holds it. */
  lemma {:induction false} HasKeyAt<K, V>(entries: Entries<K, V>, key: K)
    ensures HasKey(entries, key) <==> exists i :: 0 <= i < |entries| && entries[i].0 == key
    decreases |entries|
  {
    if entries != [] {
      HasKeyAt(entries[1..], key);
      assert forall i :: 1 <= i < |entries| ==> entries[i] == entries[1..][i - 1];
    }
  }

  /** `map.get(key)`: the value stored under `key`, or `None` for undefined. */
  function Get<K(==), V>(entries: Entries<K, V>, key: K): (r: Option<V>)
    ensures r.Some? <==> HasKey(entries, key)
    ensures r.Some? ==> (key, r.value) in entries
    ensures r.None? ==> forall i :: 0 <= i < |entries| ==> entries[i].0 != key
    ensures KeysUnique(entries) ==> forall i :: 0 <= i < |entries| && entries[i].0 == key ==> r == Some(entries[i].1)
  {
    if entries == [] then None
    else
      assert forall i :: 1 <= i < |entries| ==> entries[i] == entries[1..][i - 1];
      if entries[0].0 == key then HasKeyAt(entries[1..], key); Some(entries[0].1)
      else Get(entries[1..], key)
  }

  /** `map.set(key, value)`. */
  function Set<K(==), V>(entries: Entries<K, V>, key: K, value: V): (r: Entries<K, V>)
    ensures Get(r, key) == Some(value)
    ensures |r| == if HasKey(entries, key) then |entries| else |entries| + 1
    ensures forall i :: 0 <= i < |entries| ==> r[i].0 == entries[i].0
  {
    if entries == [] then [(key, value)]
    else if entries[0].0 == key then [(key, value)] + entries[1..]
    else
      [entries[0]] + Set(entries[1..], key, value)
  }

  /** `map.values()` in enumeration order. */
  function Values<K, V>(entries: Entries<K, V>): (r: seq<V>)
    ensures |r| == |entries|
    ensures forall i :: 0 <= i < |entries| ==> r[i] == entries[i].1
  {
    if entries == [] then [] else [entries[0].1] + Values(entries[1..])
  }

  /** Setting one key leaves what every other key maps to unchanged. */
  lemma {:induction false} GetSetOther<K, V>(entries: Entries<K, V>, key: K, value: V, other: K)
    requires other != key
    ensures Get(Set(entries, key, value), other) == Get(entries, other)
  {
    if entries != [] && entries[0].0 != key {
      GetSetOther(entries[1..], key, value, other);
      assert Set(entries, key, value)[1..] == Set(entries[1..], key, value);
    }
  }

  /** A new key goes at the end. */
  lemma {:induction false} SetNewKeyAppends<K, V>(entries: Entries<K, V>, key: K, value: V)
    requires !HasKey(entries, key)
    ensures Set(entries, key, value) == entries + [(key, value)]
  {
    if entries != [] {
      SetNewKeyAppends(entries[1..], key, value);
      calc {
        Set(entries, key, value);
        [entries[0]] + Set(entries[1..], key, value);
        [entries[0]] + (entries[1..] + [(key, value)]);
        { assert entries == [entries[0]] + entries[1..]; }
        entries + [(key, value)];
      }
    }
  }

  /** After `set`, the keys are the old ones and the key set. */
  lemma {:induction false} SetKeys<K, V>(entries: Entries<K, V>, key: K, value: V, other: K)
    ensures HasKey(Set(entries, key, value), other) <==> HasKey(entries, other) || other == key
  {
    var r := Set(entries, key, value);
    if entries != [] && entries[0].0 != key {
      SetKeys(entries[1..], key, value, other);
      assert r == [entries[0]] + Set(entries[1..], key, value);
      assert forall i :: 1 <= i < |r| ==> r[i] == r[1..][i - 1];
      assert forall i :: 1 <= i < |entries| ==> entries[i] == entries[1..][i - 1];
    }
  }

  /** `set` never makes a key occur twice. */
  lemma {:induction false} SetKeepsKeysUnique<K, V>(entries: Entries<K, V>, key: K, value: V)
    requires KeysUnique(entries)
    ensures KeysUnique(Set(entries, key, value))
  {
    var r := Set(entries, key, value);
    if entries == [] {
      assert r == [(key, value)];
    } else if entries[0].0 == key {
      assert r[1..] == entries[1..];
    } else {
      SetKeepsKeysUnique(entries[1..], key, value);
      SetKeys(entries[1..], key, value, entries[0].0);
      assert r[1..] == Set(entries[1..], key, value);
    }
  }
}
