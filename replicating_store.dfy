/** The replicating store (TieredCaching::ReplicatingStore): a fixed array
    of N backing stores and a replication factor R. A key's primary bucket
    is its hash modulo N; `set` and `delete` touch the R consecutive buckets
    from there (modulo N), and `get` scans forward from the primary bucket,
    back-filling every bucket that missed before a hit. Each bucket is a
    generic map store answering get, set, delete and clear. */
module Replication {

  import opened Optional
  import opened Promotion
  import HashStores

  /** `store_index`: Ruby's `index % count`, never negative for a positive count. */
  function StoreIndex(index: int, count: nat): (b: nat)
    requires count > 0
    ensures b < count
  {
    index % count
  }

  /** The bucket `i` steps after the primary bucket of a key hashing to `h`. */
  function Bucket(h: nat, i: nat, count: nat): (b: nat)
    requires count > 0
    ensures b < count
    ensures b == (h + i) % count
  {
    StoreIndex(h + i, count)
  }

  /** The buckets `set` and `delete` touch for a key hashing to `h`:
      `store_index(h + i)` for every `i` in `0...factor`, a range that is
      empty when the factor is zero or negative. */
  ghost function Replicas(h: nat, factor: int, count: nat): (r: set<nat>)
    requires count > 0
    ensures forall p :: p in r ==> p < count
    ensures forall i :: 0 <= i < factor ==> Bucket(h, i, count) in r
    ensures forall p :: p in r ==> exists i :: 0 <= i < factor && p == Bucket(h, i, count)
  {
    set i: nat | i < factor :: Bucket(h, i, count)
  }

  /** How many buckets `get` visits. It stops once the next index equals
      `store_index(h + factor)` after visiting at least one, so it visits
      `factor % count` buckets (Ruby's modulo, never negative here, so a
      negative factor counts back from `count`), or all `count` of them
      when that is 0. */
  function ScanLength(factor: int, count: nat): (k: nat)
    requires count > 0
    ensures 1 <= k <= count
  {
    if factor % count == 0 then count else factor % count
  }

  /** The buckets `get` visits, in order, for a key hashing to `h`. */
  function ScanOrder(h: nat, k: nat, count: nat): (order: seq<nat>)
    requires count > 0
    ensures |order| == k && ValidOrder(order, count)
    ensures forall i :: 0 <= i < k ==> order[i] == Bucket(h, i, count)
  {
    var order: seq<nat> := seq(k, (i: int) requires 0 <= i < k => Bucket(h, i, count));
    order
  }

  // ----- arithmetic on bucket indices -----

  /** Helper for `ModUnique`: a positive multiple is at least the divisor. */
  lemma AtLeastOnce(n: int, d: int)
    requires n > 0 && d >= 1
    ensures n * d >= n
  {
    assert n * d == n * (d - 1) + n;
  }

  lemma ModUnique(x: int, n: int, q: int, r: int)
    requires n > 0 && 0 <= r < n && x == n * q + r
    ensures x % n == r
  {
    var q' := x / n;
    var r' := x % n;
    assert n * q' + r' == n * q + r;
    if q > q' {
      assert n * (q - q') == n * q - n * q';
      AtLeastOnce(n, q - q');
    } else if q < q' {
      assert n * (q' - q) == n * q' - n * q;
      AtLeastOnce(n, q' - q);
    }
  }

  lemma ModShift(h: int, i: int, n: int)
    requires n > 0
    ensures (h + i) % n == (h % n + i) % n
  {
    var q := h / n;
    var t := (h % n + i) / n;
    assert h == n * q + h % n;
    assert h % n + i == n * t + (h % n + i) % n;
    assert h + i == n * (q + t) + (h % n + i) % n;
    ModUnique(h + i, n, q + t, (h % n + i) % n);
  }

  /** Offset `i` (at most one full turn) from the primary bucket, in closed form. */
  lemma BucketAt(h: nat, i: nat, n: nat)
    requires n > 0 && i <= n
    ensures Bucket(h, i, n) == if h % n + i < n then h % n + i else h % n + i - n
  {
    ModShift(h, i, n);
    if h % n + i < n {
      ModUnique(h % n + i, n, 0, h % n + i);
    } else {
      ModUnique(h % n + i, n, 1, h % n + i - n);
    }
  }

  /** Two offsets less than a full turn apart name different buckets. */
  lemma DistinctOffsets(h: nat, a: nat, b: nat, n: nat)
    requires n > 0 && a < b <= n && b - a < n
    ensures Bucket(h, a, n) != Bucket(h, b, n)
  {
    BucketAt(h, a, n);
    BucketAt(h, b, n);
  }

  /** `store_index(index + 1)` steps from offset `j` to offset `j + 1`. */
  lemma NextBucket(h: nat, j: nat, n: nat)
    requires n > 0
    ensures StoreIndex(Bucket(h, j, n) + 1, n) == Bucket(h, j + 1, n)
  {
    ModShift(h + j, 1, n);
  }

  /** The end index `store_index(h + factor)` is the bucket at offset `ScanLength`. */
  lemma EndBucket(h: nat, factor: int, n: nat)
    requires n > 0
    ensures StoreIndex(h + factor, n) == Bucket(h, ScanLength(factor, n), n)
  {
    ModShift(factor, h, n);
    ModShift(ScanLength(factor, n), h, n);
    if factor % n == 0 {
      ModUnique(n, n, 1, 0);
    } else {
      ModUnique(factor % n, n, 0, factor % n);
    }
  }

  /** After the visit at offset `j`, the next index equals the end index
      exactly when `j` was the last offset of the scan. */
  lemma {:induction false} ScanStop(h: nat, factor: int, n: nat, j: nat)
    requires n > 0 && j < ScanLength(factor, n)
    ensures Bucket(h, j + 1, n) == StoreIndex(h + factor, n) <==> j + 1 == ScanLength(factor, n)
  {
    EndBucket(h, factor, n);
    var k := ScanLength(factor, n);
    if j + 1 < k {
      DistinctOffsets(h, j + 1, k, n);
    }
  }

  lemma {:induction false} ReplicasStep(h: nat, factor: nat, n: nat)
    requires n > 0
    ensures Replicas(h, factor + 1, n) == Replicas(h, factor, n) + {Bucket(h, factor, n)}
  {
    var b := Bucket(h, factor, n);
    assert b in Replicas(h, factor + 1, n);
    forall p | p in Replicas(h, factor + 1, n)
      ensures p in Replicas(h, factor, n) + {b}
    {
      var i: nat :| i < factor + 1 && p == Bucket(h, i, n);
      if i < factor {
        assert p in Replicas(h, factor, n);
      }
    }
    forall p | p in Replicas(h, factor, n)
      ensures p in Replicas(h, factor + 1, n)
    {
      var i: nat :| i < factor && p == Bucket(h, i, n);
    }
  }

  // ----- properties of placement -----

  /** With R <= 0 the replication range is empty: `set` and `delete` touch
      no bucket at all. */
  lemma NoReplicas(h: nat, factor: int, n: nat)
    requires n > 0 && factor <= 0
    ensures Replicas(h, factor, n) == {}
  {
  }

  /** With a negative R above -N, `get` still scans: N + R buckets from the
      primary one, although `set` wrote none of them. */
  lemma NegativeFactorScan(factor: int, n: nat)
    requires n > 0 && 0 < n + factor && factor < 0
    ensures ScanLength(factor, n) == n + factor
  {
    ModUnique(factor, n, -1, n + factor);
  }

  /** With R <= N, `set` writes exactly R distinct buckets. */
  lemma {:induction false} ReplicaCount(h: nat, factor: nat, n: nat)
    requires 0 < n && factor <= n
    ensures |Replicas(h, factor, n)| == factor
  {
    if factor > 0 {
      ReplicaCount(h, factor - 1, n);
      ReplicasStep(h, factor - 1, n);
      var b := Bucket(h, factor - 1, n);
      if b in Replicas(h, factor - 1, n) {
        var i: nat :| i < factor - 1 && b == Bucket(h, i, n);
        DistinctOffsets(h, i, factor - 1, n);
      }
    } else {
      assert Replicas(h, 0, n) == {};
    }
  }

  /** With R >= N, and so with the default R = N, every bucket is written. */
  lemma {:induction false} FullFactorCoversAll(h: nat, factor: nat, n: nat)
    requires 0 < n <= factor
    ensures forall p :: 0 <= p < n ==> p in Replicas(h, factor, n)
  {
    forall p | 0 <= p < n
      ensures p in Replicas(h, factor, n)
    {
      var r := h % n;
      var i: nat := if p >= r then p - r else p - r + n;
      BucketAt(h, i, n);
      assert Bucket(h, i, n) == p;
    }
  }

  /** With 1 <= R <= N, `get` visits exactly the R buckets `set` writes,
      starting at the primary bucket. */
  lemma ScanMatchesReplicas(h: nat, factor: nat, n: nat)
    requires 1 <= factor <= n
    ensures ScanLength(factor, n) == factor
    ensures forall p :: p in ScanOrder(h, factor, n) <==> p in Replicas(h, factor, n)
    ensures ScanOrder(h, factor, n)[0] == StoreIndex(h, n)
  {
    if factor < n {
      ModUnique(factor, n, 0, factor);
    } else {
      ModUnique(factor, n, 1, 0);
    }
    var order := ScanOrder(h, factor, n);
    forall p | p in Replicas(h, factor, n)
      ensures p in order
    {
      var i: nat :| i < factor && p == Bucket(h, i, n);
      assert order[i] == p;
    }
    forall p | p in order
      ensures p in Replicas(h, factor, n)
    {
      var i :| 0 <= i < factor && order[i] == p;
      assert Bucket(h, i, n) in Replicas(h, factor, n);
    }
  }

  /** The first bucket `get` visits is the primary bucket `store_index(hash)`,
      which `set` writes whenever R >= 1. */
  lemma PrimaryIsReplica(h: nat, factor: nat, n: nat)
    requires n > 0 && factor >= 1
    ensures StoreIndex(h, n) in Replicas(h, factor, n)
    ensures ScanOrder(h, ScanLength(factor, n), n)[0] == StoreIndex(h, n)
  {
    assert Bucket(h, 0, n) in Replicas(h, factor, n);
  }

  /** The origin named in the store's miss warnings. */
  const Origin := "ReplicatingStore"

  class ReplicatingStore<K(==), V> {
    /** `hash_for_key`: the first four bytes of the MD5 digest of the key's
        string form, read as an unsigned integer; kept abstract. */
    const keyHash: K -> nat
    /** The replication factor R: any integer, as Ruby does not check it. */
    const factor: int
    /** The N backing stores, bucket 0 first. */
    const stores: array<map<K, V>>
    /** The warnings logged so far, in order. */
    ghost var warnings: seq<Warning>

    /** `initialize(internal_stores, replication_factor = nil)`: R defaults to N. */
    constructor (internal: seq<map<K, V>>, replicationFactor: Option<int>, keyHash: K -> nat)
      requires |internal| > 0
      ensures fresh(stores) && stores[..] == internal && this.keyHash == keyHash
      ensures factor == if replicationFactor.Some? then replicationFactor.value else |internal|
      ensures warnings == []
    {
      this.keyHash := keyHash;
      factor := if replicationFactor.Some? then replicationFactor.value else |internal|;
      stores := new map<K, V>[|internal|](i requires 0 <= i < |internal| => internal[i]);
      warnings := [];
    }

    /** `set(key, value)`: write the value to every bucket of the key's
        replication range, leave every other bucket alone, answer the value. */
    method Set(key: K, value: V) returns (r: V)
      requires stores.Length > 0
      modifies stores
      ensures r == value
      ensures forall p :: 0 <= p < stores.Length ==>
                stores[p] == if p in Replicas(keyHash(key), factor, stores.Length)
                             then old(stores[p])[key := value] else old(stores[p])
    {
      var n, h := stores.Length, keyHash(key);
      var upper: nat := if factor > 0 then factor else 0;
      NoReplicas(h, 0, n);
      for i := 0 to upper
        invariant forall p :: 0 <= p < n ==>
                    stores[p] == if p in Replicas(h, i, n) then old(stores[p])[key := value] else old(stores[p])
      {
        ReplicasStep(h, i, n);
        var b := StoreIndex(h + i, n);
        stores[b] := stores[b][key := value];
      }
      if factor <= 0 {
        NoReplicas(h, factor, n);
      }
      r := value;
    }

    /** `delete(key)`: remove the key from exactly the buckets `set` writes. */
    method Delete(key: K)
      requires stores.Length > 0
      modifies stores
      ensures forall p :: 0 <= p < stores.Length ==>
                stores[p] == if p in Replicas(keyHash(key), factor, stores.Length)
                             then old(stores[p]) - {key} else old(stores[p])
    {
      var n, h := stores.Length, keyHash(key);
      var upper: nat := if factor > 0 then factor else 0;
      NoReplicas(h, 0, n);
      for i := 0 to upper
        invariant forall p :: 0 <= p < n ==>
                    stores[p] == if p in Replicas(h, i, n) then old(stores[p]) - {key} else old(stores[p])
      {
        ReplicasStep(h, i, n);
        var b := StoreIndex(h + i, n);
        stores[b] := stores[b] - {key};
      }
      if factor <= 0 {
        NoReplicas(h, factor, n);
      }
    }

    /** `clear`: empty every one of the N backing stores, whatever R is. */
    method Clear()
      modifies stores
      ensures forall p :: 0 <= p < stores.Length ==> stores[p] == map[]
    {
      for p := 0 to stores.Length
        invariant forall q :: 0 <= q < p ==> stores[q] == map[]
      {
        stores[p] := map[];
      }
    }

    /** How many buckets the scan of `get` passes before it stops: it visits
        the primary bucket, then steps with `store_index(index + 1)` and
        stops at the first hit or when the index reaches
        `store_index(hash + R)`. `visited` logs each bucket as it is read. */
    method ScanMisses(key: K) returns (misses: nat, ghost visited: seq<nat>)
      requires stores.Length > 0
      ensures var h, n := keyHash(key), stores.Length;
              var k := ScanLength(factor, n);
              && misses <= k
              && (forall i :: 0 <= i < misses ==> key !in stores[Bucket(h, i, n)])
              && (misses < k ==> key in stores[Bucket(h, misses, n)])
      ensures var h, n := keyHash(key), stores.Length;
              var k := ScanLength(factor, n);
              visited == ScanOrder(h, k, n)[..if misses < k then misses + 1 else misses]
    {
      var n, h := stores.Length, keyHash(key);
      var endIndex := StoreIndex(h + factor, n);
      ghost var k := ScanLength(factor, n);
      ghost var order := ScanOrder(h, k, n);
      var index := StoreIndex(h, n);
      var scanning, hit := true, false;
      misses, visited := 0, [];
      while scanning && !hit
        invariant misses <= k && (scanning <==> misses < k)
        invariant scanning ==> index == Bucket(h, misses, n)
        invariant forall i :: 0 <= i < misses ==> key !in stores[Bucket(h, i, n)]
        invariant hit ==> scanning && key in stores[index]
        invariant visited == order[..if hit then misses + 1 else misses]
        decreases k - misses, if hit then 0 else 1
      {
        visited := visited + [index];
        if key in stores[index] {
          hit := true;
        } else {
          NextBucket(h, misses, n);
          ScanStop(h, factor, n, misses);
          index := StoreIndex(index + 1, n);
          misses := misses + 1;
          scanning := index != endIndex;
        }
      }
    }

    /** The writes `get` makes on its way back from a hit after `misses`
        misses: the buckets at offsets `misses-1`, …, 1, 0 receive the value. */
    method Repair(key: K, v: V, misses: nat)
      requires stores.Length > 0
      modifies stores
      ensures forall p :: 0 <= p < stores.Length ==>
                stores[p] == if p in ScanOrder(keyHash(key), misses, stores.Length)
                             then old(stores[p])[key := v] else old(stores[p])
    {
      var n, h := stores.Length, keyHash(key);
      ghost var order := ScanOrder(h, misses, n);
      var i := misses;
      while i > 0
        invariant 0 <= i <= misses
        invariant forall p :: 0 <= p < n ==>
                    stores[p] == if p in order[i..] then old(stores[p])[key := v] else old(stores[p])
      {
        i := i - 1;
        var b := StoreIndex(h + i, n);
        assert order[i..] == [b] + order[i + 1..];
        stores[b] := stores[b][key := v];
      }
    }

    /** `get(key)`: scan the key's window from its primary bucket, log a miss
        per empty bucket, and on a hit write the value back into every bucket
        that missed (read-repair). `probed` lists the buckets read. */
    method Get(key: K) returns (r: Option<V>, ghost probed: seq<nat>)
      requires stores.Length > 0
      modifies this, stores
      ensures var order := ScanOrder(keyHash(key), ScanLength(factor, stores.Length), stores.Length);
              var o := ReadThrough(old(stores[..]), key, order, 0);
              && r == o.value
              && stores[..] == o.stores
              && warnings == old(warnings) + MissWarnings(Origin, o.misses)
              && probed == Probed(o, order, 0)
    {
      var n, h := stores.Length, keyHash(key);
      ghost var before := stores[..];
      ghost var order := ScanOrder(h, ScanLength(factor, n), n);
      var misses;
      misses, probed := ScanMisses(key);
      StopsAtFirstHit(before, key, order, 0, misses);
      ghost var o := ReadThrough(before, key, order, 0);
      assert o.misses == order[..misses];
      if misses == ScanLength(factor, n) {
        r := None;
      } else {
        var v := stores[Bucket(h, misses, n)][key];
        assert o.value == Some(v);
        assert ScanOrder(h, misses, n) == o.misses;
        Repair(key, v, misses);
        assert stores[..] == o.stores;
        r := Some(v);
      }
      warnings := warnings + MissWarnings(Origin, o.misses);
      assert probed == Probed(o, order, 0);
    }
  }

  /** With R >= 1, a value `set` has just written is what `get` answers,
      from the primary bucket, with no miss logged and no bucket written. */
  lemma GetAfterSet<K, V>(before: seq<map<K, V>>, after: seq<map<K, V>>, key: K, v: V, h: nat, factor: nat)
    requires |before| == |after| > 0 && factor >= 1
    requires forall p :: 0 <= p < |after| ==>
               after[p] == if p in Replicas(h, factor, |after|) then before[p][key := v] else before[p]
    ensures ReadThrough(after, key, ScanOrder(h, ScanLength(factor, |after|), |after|), 0)
            == Outcome(Some(v), [], after)
  {
    var order := ScanOrder(h, ScanLength(factor, |after|), |after|);
    PrimaryIsReplica(h, factor, |after|);
    FirstProbeHit(after, key, order);
  }

  /** With 1 <= R <= N, a key that no bucket of its window holds is not
      found, even when a bucket outside the window holds it: `get` answers
      nil, logs a miss for each of the R buckets and writes nothing. */
  lemma OutsideWindowNotFound<K, V>(stores: seq<map<K, V>>, key: K, h: nat, factor: nat)
    requires 1 <= factor <= |stores|
    requires forall p :: 0 <= p < |stores| && p in Replicas(h, factor, |stores|) ==> key !in stores[p]
    ensures ScanLength(factor, |stores|) == factor
    ensures var order := ScanOrder(h, factor, |stores|);
            ReadThrough(stores, key, order, 0) == Outcome(None, order, stores)
  {
    var order := ScanOrder(h, factor, |stores|);
    ScanMatchesReplicas(h, factor, |stores|);
    forall i | 0 <= i < |order|
      ensures key !in stores[order[i]]
    {
      assert order[i] in order;
    }
    NothingFoundNothingWritten(stores, key, order, 0);
  }

  /** The walk of `get` over five buckets for a key whose primary bucket
      is 2, when bucket 0 is the only one holding it: buckets 2, 3 and 4
      miss, bucket 0 answers, and 2, 3 and 4 receive the value. */
  lemma FiveBucketWalk<K, V>(initial: seq<map<K, V>>, key: K, h: nat)
    requires h % 5 == 2 && |initial| == 5 && key in initial[0]
    requires key !in initial[2] && key !in initial[3] && key !in initial[4]
    ensures var o := ReadThrough(initial, key, ScanOrder(h, 5, 5), 0);
            && o.value == Some(initial[0][key])
            && o.misses == [2, 3, 4]
            && o.stores[0] == initial[0] && o.stores[1] == initial[1]
            && o.stores[2] == initial[2][key := initial[0][key]]
            && o.stores[3] == initial[3][key := initial[0][key]]
            && o.stores[4] == initial[4][key := initial[0][key]]
  {
    var order := ScanOrder(h, 5, 5);
    FiveBucketOrder(h);
    StopsAtFirstHit(initial, key, order, 0, 3);
    var o := ReadThrough(initial, key, order, 0);
    assert o.misses == order[..3];
    assert |o.misses| == 3 && o.misses[0] == 2 && o.misses[1] == 3 && o.misses[2] == 4;
    assert o.misses == [2, 3, 4];
    assert o.value == Some(initial[0][key]);
  }

  /** Helper for `FiveBucketWalk`: the scan order over five buckets from
      primary bucket 2 is 2, 3, 4, 0, 1. */
  lemma FiveBucketOrder(h: nat)
    requires h % 5 == 2
    ensures var order := ScanOrder(h, 5, 5);
            order[0] == 2 && order[1] == 3 && order[2] == 4 && order[3] == 0 && order[4] == 1
  {
    BucketAt(h, 0, 5); BucketAt(h, 1, 5); BucketAt(h, 2, 5); BucketAt(h, 3, 5); BucketAt(h, 4, 5);
  }

  /** Helper for `ReadRepairScenario`: the warnings for three misses. */
  lemma ThreeMisses(origin: string, a: nat, b: nat, c: nat)
    ensures MissWarnings(origin, [a, b, c]) == [CacheMiss(origin, a), CacheMiss(origin, b), CacheMiss(origin, c)]
  {
    var w := MissWarnings(origin, [a, b, c]);
    assert |w| == 3 && w[0] == CacheMiss(origin, a) && w[1] == CacheMiss(origin, b) && w[2] == CacheMiss(origin, c);
  }

  /** Five buckets, every key hashing to h with h % 5 == 2 (the primary
      bucket is 2) and the value held by bucket 0 only: with the default
      factor R = 5, `get` visits buckets 2, 3, 4 and 0, logs misses at 2, 3
      and 4, answers the value and writes it back into 2, 3 and 4, leaving
      bucket 1 without it. */
  method ReadRepairScenario<K(==), V>(key: K, x: V, h: nat, initial: seq<map<K, V>>)
    returns (answer: Option<V>, holders: seq<Option<V>>, ghost logged: seq<Warning>)
    requires h % 5 == 2 && |initial| == 5 && key in initial[0] && initial[0][key] == x
    requires key !in initial[1] && key !in initial[2] && key !in initial[3] && key !in initial[4]
    ensures answer == Some(x)
    ensures holders == [Some(x), None, Some(x), Some(x), Some(x)]
    ensures logged == [CacheMiss(Origin, 2), CacheMiss(Origin, 3), CacheMiss(Origin, 4)]
  {
    var store := new ReplicatingStore<K, V>(initial, None, k => h);
    assert store.keyHash(key) == h && store.factor == 5 && store.stores.Length == 5;
    assert ScanLength(5, 5) == 5;
    ghost var probed;
    answer, probed := store.Get(key);
    FiveBucketWalk(initial, key, h);
    ghost var o := ReadThrough(initial, key, ScanOrder(h, 5, 5), 0);
    ThreeMisses(Origin, 2, 3, 4);
    var t := store.stores[..];
    assert t == o.stores;
    holders := [HashStores.Lookup(t[0], key), HashStores.Lookup(t[1], key), HashStores.Lookup(t[2], key),
                HashStores.Lookup(t[3], key), HashStores.Lookup(t[4], key)];
    logged := store.warnings;
  }

  /** The same five buckets with R = 1 and the value one bucket past the
      primary one: `get` reads bucket 2 only, logs one miss there and
      answers nil, writing nothing. */
  method NarrowWindowScenario<K(==), V>(key: K, x: V, initial: seq<map<K, V>>)
    returns (answer: Option<V>, ghost after: seq<map<K, V>>, ghost logged: seq<Warning>)
    requires |initial| == 5 && key in initial[3] && initial[3][key] == x && key !in initial[2]
    ensures answer == None
    ensures after == initial
    ensures logged == [CacheMiss(Origin, 2)]
  {
    var store := new ReplicatingStore<K, V>(initial, Some(1), k => 7);
    assert store.keyHash(key) == 7 && store.factor == 1;
    ModUnique(1, 5, 0, 1);
    BucketAt(7, 0, 5);
    assert ScanOrder(7, 1, 5) == [2];
    NothingFoundNothingWritten(initial, key, ScanOrder(7, 1, 5), 0);
    ghost var probed;
    answer, probed := store.Get(key);
    after := store.stores[..];
    logged := store.warnings;
  }
}
