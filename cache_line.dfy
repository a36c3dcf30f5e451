/** The tiered cache line (TieredCaching::CacheLine): an ordered list of
    tier stores, written to all at once and read top-down with promotion of
    a deeper hit into every shallower tier that missed. Each tier is a
    generic map store answering get, set and clear. */
module CacheLines {

  import opened Optional
  import opened Promotion
  import HashStores

  /** The probe order of a line with `n` tiers: tier 0 first, then 1, 2, … */
  function Levels(n: nat): (order: seq<nat>)
    ensures |order| == n
    ensures forall i :: 0 <= i < n ==> order[i] == i
  {
    seq(n, i => i)
  }

  /** The tiers after `set(key, v)`: every tier maps `key` to `v`. */
  function WriteAll<K, V>(tiers: seq<map<K, V>>, key: K, v: V): (t: seq<map<K, V>>)
    ensures |t| == |tiers|
    ensures forall i :: 0 <= i < |tiers| ==> t[i] == tiers[i][key := v]
  {
    seq(|tiers|, i requires 0 <= i < |tiers| => tiers[i][key := v])
  }

  /** How many tiers Ruby's slice `tiers[0...depth]` selects out of `count`:
      `depth` of them when it is in range, all of them when it is larger,
      and for a negative `depth` all but the last `-depth` (none if that
      leaves nothing). */
  function ClearedCount(depth: int, count: nat): (c: nat)
    ensures c <= count
    ensures 0 <= depth <= count ==> c == depth
    ensures depth >= count ==> c == count
    ensures depth < 0 ==> c == if count + depth > 0 then count + depth else 0
  {
    if depth >= 0 then (if depth < count then depth else count)
    else if count + depth > 0 then count + depth else 0
  }

  class CacheLine<K(==), V> {
    /** The name used in miss warnings. */
    const name: string
    /** The tier stores, tier 0 first. */
    var tiers: seq<map<K, V>>
    /** The warnings logged so far, in order. */
    ghost var warnings: seq<Warning>

    constructor (name: string)
      ensures this.name == name && tiers == [] && warnings == []
    {
      this.name := name;
      tiers := [];
      warnings := [];
    }

    /** `<<`: the new tier goes last; the existing tiers keep their order. */
    method Append(tier: map<K, V>)
      modifies this
      ensures tiers == old(tiers) + [tier]
      ensures warnings == old(warnings)
    {
      tiers := tiers + [tier];
    }

    /** `set(key, value = nil) { block }`: the value is the given one, or
        else the block's, which is then evaluated exactly once; it is written
        to every tier, in order, and returned. */
    method Set(key: K, value: Option<V>, block: V) returns (r: V, blockRuns: nat)
      modifies this
      ensures value.Some? ==> r == value.value && blockRuns == 0
      ensures value.None? ==> r == block && blockRuns == 1
      ensures tiers == WriteAll(old(tiers), key, r)
      ensures warnings == old(warnings)
    {
      if value.Some? {
        r, blockRuns := value.value, 0;
      } else {
        r, blockRuns := block, 1;
      }
      var i := 0;
      while i < |tiers|
        invariant 0 <= i <= |tiers| == |old(tiers)| && warnings == old(warnings)
        invariant forall j :: 0 <= j < i ==> tiers[j] == old(tiers)[j][key := r]
        invariant forall j :: i <= j < |tiers| ==> tiers[j] == old(tiers)[j]
      {
        tiers := tiers[i := tiers[i][key := r]];
        i := i + 1;
      }
    }

    /** The first tier holding `key`, or the number of tiers if none does:
        the point where the top-down walk of `get` stops. `probed` logs each
        tier as it is read. */
    method FirstHolder(key: K) returns (i: nat, ghost probed: seq<nat>)
      ensures i <= |tiers|
      ensures forall j :: 0 <= j < i ==> key !in tiers[j]
      ensures i < |tiers| ==> key in tiers[i]
      ensures probed == Levels(|tiers|)[..if i < |tiers| then i + 1 else i]
    {
      ghost var order := Levels(|tiers|);
      i, probed := 0, [];
      var hit := false;
      while i < |tiers| && !hit
        invariant i <= |tiers|
        invariant forall j :: 0 <= j < i ==> key !in tiers[j]
        invariant hit ==> i < |tiers| && key in tiers[i]
        invariant probed == order[..if hit then i + 1 else i]
        decreases |tiers| - i, if hit then 0 else 1
      {
        probed := probed + [i];
        if key in tiers[i] {
          hit := true;
        } else {
          i := i + 1;
        }
      }
    }

    /** The writes `get` makes on its way back up from a hit at tier `hit`:
        tiers `hit-1`, …, 1, 0 each receive the value. */
    method PromoteAbove(key: K, v: V, hit: nat)
      requires hit <= |tiers|
      modifies this
      ensures |tiers| == |old(tiers)| && warnings == old(warnings)
      ensures forall p :: 0 <= p < |tiers| ==>
                tiers[p] == if p < hit then old(tiers)[p][key := v] else old(tiers)[p]
    {
      var j := hit;
      while j > 0
        invariant 0 <= j <= hit <= |tiers| == |old(tiers)| && warnings == old(warnings)
        invariant forall p :: 0 <= p < |tiers| ==>
                    tiers[p] == if j <= p < hit then old(tiers)[p][key := v] else old(tiers)[p]
      {
        j := j - 1;
        tiers := tiers[j := tiers[j][key := v]];
      }
    }

    /** `get(key)`: walk the tiers from tier 0, logging one miss per empty
        tier, and promote a hit into every tier above it. `probed` lists the
        tiers whose `get` was called. */
    method Get(key: K) returns (r: Option<V>, ghost probed: seq<nat>)
      modifies this
      ensures var o := ReadThrough(old(tiers), key, Levels(|old(tiers)|), 0);
              && r == o.value
              && tiers == o.stores
              && warnings == old(warnings) + MissWarnings(name, o.misses)
              && probed == Probed(o, Levels(|old(tiers)|), 0)
    {
      ghost var order := Levels(|tiers|);
      var i;
      i, probed := FirstHolder(key);
      StopsAtFirstHit(tiers, key, order, 0, i);
      ghost var o := ReadThrough(tiers, key, order, 0);
      assert o.misses == order[..i];
      if i == |tiers| {
        r := None;
      } else {
        var v := tiers[i][key];
        forall p | 0 <= p < |tiers|
          ensures p in o.misses <==> p < i
        {
          if p < i { assert order[p] == p; }
        }
        PromoteAbove(key, v, i);
        r := Some(v);
      }
      warnings := warnings + MissWarnings(name, o.misses);
      assert probed == Probed(o, order, 0);
    }

    /** `getset(key) { block }`: the cached value if any tier holds it,
        without evaluating the block; otherwise the block's value, written to
        every tier. */
    method GetSet(key: K, block: V) returns (r: V, blockRuns: nat)
      modifies this
      ensures var o := ReadThrough(old(tiers), key, Levels(|old(tiers)|), 0);
              && (o.value.Some? ==> r == o.value.value && blockRuns == 0 && tiers == o.stores)
              && (o.value.None? ==> r == block && blockRuns == 1 && tiers == WriteAll(old(tiers), key, block))
              && warnings == old(warnings) + MissWarnings(name, o.misses)
    {
      var found, _ := Get(key);
      if found.Some? {
        r, blockRuns := found.value, 0;
      } else {
        r, blockRuns := Set(key, None, block);
      }
    }

    /** `clear(depth)`: empty the tiers `tiers[0...depth]` selects and
        leave the deeper ones untouched. */
    method Clear(depth: int)
      modifies this
      ensures |tiers| == |old(tiers)|
      ensures forall i :: 0 <= i < |tiers| ==>
                tiers[i] == if i < ClearedCount(depth, |tiers|) then map[] else old(tiers)[i]
      ensures warnings == old(warnings)
    {
      var c := ClearedCount(depth, |tiers|);
      var i := 0;
      while i < c
        invariant 0 <= i <= c && |tiers| == |old(tiers)| && warnings == old(warnings)
        invariant forall j :: 0 <= j < |tiers| ==> tiers[j] == if j < i then map[] else old(tiers)[j]
      {
        tiers := tiers[i := map[]];
        i := i + 1;
      }
    }
  }

  /** After `get` finds the key at tier j (the number of misses it logged),
      the misses were logged at levels 0, 1, …, j-1 in that order, tiers
      0..j-1 all hold the value found, and tiers j.. are unchanged. */
  lemma {:induction false} GetPromotesAbove<K, V>(tiers: seq<map<K, V>>, key: K)
    ensures var o := ReadThrough(tiers, key, Levels(|tiers|), 0);
            var j := |o.misses|;
            && o.misses == Levels(j)
            && (o.value.Some? ==>
                  && j < |tiers| && key in tiers[j] && o.value.value == tiers[j][key]
                  && (forall i :: 0 <= i < j ==> key in o.stores[i] && o.stores[i][key] == o.value.value)
                  && (forall i :: j <= i < |tiers| ==> o.stores[i] == tiers[i]))
            && (o.value.None? ==> j == |tiers| && o.stores == tiers)
  {
    var order := Levels(|tiers|);
    var o := ReadThrough(tiers, key, order, 0);
    var j := |o.misses|;
    assert o.misses == order[..j] == Levels(j);
    if o.value.Some? {
      assert order[j] == j;
      forall i | 0 <= i < j
        ensures key in o.stores[i] && o.stores[i][key] == o.value.value
      {
        assert o.misses[i] == i;
      }
      forall i | j <= i < |tiers|
        ensures o.stores[i] == tiers[i]
      {
        assert forall k :: 0 <= k < j ==> o.misses[k] != i;
      }
    }
  }

  /** On a line with at least one tier, a value written by `set` is what
      `get` answers, from tier 0, with no miss and no write; on a line with
      no tiers `get` answers nil. */
  lemma SetThenGet<K, V>(tiers: seq<map<K, V>>, key: K, v: V)
    ensures var written := WriteAll(tiers, key, v);
            ReadThrough(written, key, Levels(|tiers|), 0)
            == if |tiers| == 0 then Outcome(None, [], written) else Outcome(Some(v), [], written)
  {
    if |tiers| > 0 {
      FirstProbeHit(WriteAll(tiers, key, v), key, Levels(|tiers|));
    }
  }

  /** The end-to-end promotion scenario: three empty tiers, `set` writes
      all three, `clear(2)` empties tiers 0 and 1, and a `get` then answers
      the value from tier 2 after logging misses at levels 0 and 1, leaving
      all three tiers holding it again. */
  method PromotionScenario<K(==), V>(key: K, x: V)
    returns (answer: Option<V>, holders: seq<Option<V>>, ghost logged: seq<Warning>)
    ensures answer == Some(x)
    ensures holders == [Some(x), Some(x), Some(x)]
    ensures logged == [CacheMiss("line", 0), CacheMiss("line", 1)]
  {
    var line := new CacheLine<K, V>("line");
    line.Append(map[]);
    line.Append(map[]);
    line.Append(map[]);
    var _, _ := line.Set(key, Some(x), x);
    assert line.tiers == [map[key := x], map[key := x], map[key := x]];
    line.Clear(2);
    ghost var cleared := line.tiers;
    assert cleared == [map[], map[], map[key := x]];
    ghost var probed;
    answer, probed := line.Get(key);
    StopsAtFirstHit(cleared, key, Levels(3), 0, 2);
    GetPromotesAbove(cleared, key);
    ghost var o := ReadThrough(cleared, key, Levels(3), 0);
    assert o.misses == Levels(2);
    assert o.misses[0] == 0 && o.misses[1] == 1;
    ghost var w := MissWarnings("line", o.misses);
    assert |w| == 2 && w[0] == CacheMiss("line", 0) && w[1] == CacheMiss("line", 1);
    var t := line.tiers;
    holders := [HashStores.Lookup(t[0], key), HashStores.Lookup(t[1], key), HashStores.Lookup(t[2], key)];
    logged := line.warnings;
  }

  /** `getset` on a key already written answers the stored value and leaves
      the block unevaluated; on a fresh line it answers the block's value and
      caches it, so a second `getset` answers that value again. */
  method GetSetScenario<K(==), V>(key: K, stored: V, block: V)
    returns (cached: V, cachedRuns: nat, first: V, firstRuns: nat, again: V, againRuns: nat)
    ensures cached == stored && cachedRuns == 0
    ensures first == block && firstRuns == 1
    ensures again == block && againRuns == 0
  {
    var line := new CacheLine<K, V>("line");
    line.Append(map[]);
    var _, _ := line.Set(key, Some(stored), stored);
    SetThenGet([map[]], key, stored);
    cached, cachedRuns := line.GetSet(key, block);

    var empty := new CacheLine<K, V>("empty");
    empty.Append(map[]);
    StopsAtFirstHit(empty.tiers, key, Levels(1), 0, 1);
    first, firstRuns := empty.GetSet(key, block);
    SetThenGet([map[]], key, block);
    again, againRuns := empty.GetSet(key, stored);
  }
}
