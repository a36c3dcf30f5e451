/** The map-backed store (TieredCaching::HashStore), which answers `get`
    and `set` only, and the getset of the map-backed test double. The tiers
    and buckets of the other components are generic map stores that also
    answer `delete` and `clear`. */
module HashStores {

  import opened Optional

  /** Ruby's `hash[key]`: the stored value, or nil for a missing key. */
  function Lookup<K, V>(m: map<K, V>, key: K): (r: Option<V>)
    ensures r.Some? <==> key in m
    ensures r.Some? ==> r.value == m[key]
  {
    if key in m then Some(m[key]) else None
  }

  /** `@store[key] ||= yield` of the map-backed test double: keep the value
      already stored, otherwise store the candidate; answer what is now stored. */
  function GetOrInsert<K, V>(m: map<K, V>, key: K, candidate: V): (r: (map<K, V>, V))
    ensures key in r.0 && r.0[key] == r.1
    ensures key in m ==> r == (m, m[key])
    ensures key !in m ==> r.1 == candidate && r.0 == m[key := candidate]
  {
    if key in m then (m, m[key]) else (m[key := candidate], candidate)
  }

  /** Asking again, with any other candidate, answers the first answer and
      changes nothing. */
  lemma GetOrInsertIdempotent<K, V>(m: map<K, V>, key: K, first: V, second: V)
    ensures GetOrInsert(GetOrInsert(m, key, first).0, key, second)
            == (GetOrInsert(m, key, first).0, GetOrInsert(m, key, first).1)
  {
  }

  class HashStore<K(==), V> {
    /** The wrapped Ruby Hash. */
    var hash: map<K, V>

    constructor (hash: map<K, V>)
      ensures this.hash == hash
    {
      this.hash := hash;
    }

    /** `set` is the Hash's `[]=`, which answers the value it stored. */
    method Set(key: K, value: V) returns (r: V)
      modifies this
      ensures r == value
      ensures hash == old(hash)[key := value]
      ensures forall other :: other != key ==> Lookup(hash, other) == Lookup(old(hash), other)
    {
      hash := hash[key := value];
      r := value;
    }

    /** `get` is the Hash's `[]`: nil for a key never set; the map is left alone. */
    method Get(key: K) returns (r: Option<V>)
      ensures r.Some? <==> key in hash
      ensures r.Some? ==> r.value == hash[key]
    {
      if key in hash {
        r := Some(hash[key]);
      } else {
        r := None;
      }
    }
  }

  /** A value written through `set` is what `get` reads back, and a key
      that was never written reads back as nil. */
  method SetThenGet<K(==), V>(initial: map<K, V>, key: K, value: V, other: K)
    returns (written: Option<V>, untouched: Option<V>)
    requires other != key && other !in initial
    ensures written == Some(value)
    ensures untouched == None
  {
    var store := new HashStore(initial);
    var _ := store.Set(key, value);
    written := store.Get(key);
    untouched := store.Get(other);
  }
}
