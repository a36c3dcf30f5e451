/** The read-through walk shared by the tiered cache line and the
    replicating store: probe stores in a fixed order, log a miss for each
    store that does not hold the key, and on a hit write the value back
    ("promote" or "self-heal") into every store that missed, on the way
    back out of the recursion. */
module Promotion {

  import opened Optional

  /** A warning logged by the walk: "<origin>: Cache miss at level <level>". */
  datatype Warning = CacheMiss(origin: string, level: nat)

  /** What one walk produces: the answer, the positions it logged a miss
      for (in order), and the contents of every store afterwards. */
  datatype Outcome<K, V> = Outcome(value: Option<V>, misses: seq<nat>, stores: seq<map<K, V>>)

  /** Every position of the probe order names a store. */
  ghost predicate ValidOrder(order: seq<nat>, count: nat)
  {
    forall i :: 0 <= i < |order| ==> order[i] < count
  }

  /** The warnings logged for a run of misses. */
  function MissWarnings(origin: string, levels: seq<nat>): (w: seq<Warning>)
    ensures |w| == |levels|
    ensures forall i :: 0 <= i < |levels| ==> w[i] == CacheMiss(origin, levels[i])
  {
    if levels == [] then [] else [CacheMiss(origin, levels[0])] + MissWarnings(origin, levels[1..])
  }

  /** What a walk from probe step `at` that produced `o` logged: the
      misses are the probe steps from `at` on, none of them holds the key,
      and there is an answer exactly when the walk stopped before the end. */
  ghost predicate Probing<K, V>(stores: seq<map<K, V>>, key: K, order: seq<nat>, at: nat, o: Outcome<K, V>)
    requires ValidOrder(order, |stores|) && at <= |order|
  {
    && at + |o.misses| <= |order| && o.misses == order[at..at + |o.misses|]
    && (forall i :: at <= i < at + |o.misses| ==> key !in stores[order[i]])
    && (o.value.Some? <==> at + |o.misses| < |order|)
  }

  /** What a walk from probe step `at` that produced `o` answered and wrote:
      the answer is what the store at the stopping step holds, and exactly
      the missed stores receive it; nothing else changes. */
  ghost predicate Answering<K, V>(stores: seq<map<K, V>>, key: K, order: seq<nat>, at: nat, o: Outcome<K, V>)
    requires ValidOrder(order, |stores|) && at <= |order|
  {
    && |o.stores| == |stores|
    && (o.value.Some? ==>
          at + |o.misses| < |order| && key in stores[order[at + |o.misses|]]
          && o.value.value == stores[order[at + |o.misses|]][key])
    && (forall p :: 0 <= p < |stores| ==>
          o.stores[p] == if o.value.Some? && p in o.misses then stores[p][key := o.value.value] else stores[p])
  }

  /** The recursive walk, from probe step `at` on. The answer is the value
      held by the first store in the order that holds the key; the stores
      probed before it are exactly the logged misses; each of them ends up
      holding the answer and every other store is unchanged. When no store
      holds the key the answer is nil and nothing is written. */
  function ReadThrough<K, V>(stores: seq<map<K, V>>, key: K, order: seq<nat>, at: nat): (o: Outcome<K, V>)
    requires ValidOrder(order, |stores|) && at <= |order|
    decreases |order| - at
    ensures Probing(stores, key, order, at, o)
    ensures Answering(stores, key, order, at, o)
  {
    if at == |order| then Outcome(None, [], stores)
    else if key in stores[order[at]] then Outcome(Some(stores[order[at]][key]), [], stores)
    else
      var rest := ReadThrough(stores, key, order, at + 1);
      ProbingStep(stores, key, order, at, rest);
      AnsweringStep(stores, key, order, at, rest);
      AfterMiss(rest, order[at], key)
  }

  /** The outcome of a walk whose step at store `p` missed, given the
      outcome `rest` of the walk from the next step: `p` is logged first,
      and on a hit the answer is also written back into `p`. */
  function AfterMiss<K, V>(rest: Outcome<K, V>, p: nat, key: K): (o: Outcome<K, V>)
    requires p < |rest.stores|
    ensures o.value == rest.value && o.misses == [p] + rest.misses && |o.stores| == |rest.stores|
    ensures forall q :: 0 <= q < |o.stores| && q != p ==> o.stores[q] == rest.stores[q]
    ensures o.stores[p] == if rest.value.Some? then rest.stores[p][key := rest.value.value] else rest.stores[p]
  {
    match rest.value
    case None => Outcome(None, [p] + rest.misses, rest.stores)
    case Some(v) => Outcome(Some(v), [p] + rest.misses, rest.stores[p := rest.stores[p][key := v]])
  }

  /** A miss at step `at` followed by a walk from `at + 1` logs that miss
      first, then the later ones. */
  lemma ProbingStep<K, V>(stores: seq<map<K, V>>, key: K, order: seq<nat>, at: nat, rest: Outcome<K, V>)
    requires ValidOrder(order, |stores|) && at < |order| && key !in stores[order[at]]
    requires Probing(stores, key, order, at + 1, rest) && |rest.stores| == |stores|
    ensures Probing(stores, key, order, at, AfterMiss(rest, order[at], key))
  {
    var o := AfterMiss(rest, order[at], key);
    assert o.misses == order[at..at + |o.misses|];
  }

  /** A miss at step `at` followed by a walk from `at + 1` answers what that
      walk answers and also writes the answer back into the missed store. */
  lemma AnsweringStep<K, V>(stores: seq<map<K, V>>, key: K, order: seq<nat>, at: nat, rest: Outcome<K, V>)
    requires ValidOrder(order, |stores|) && at < |order| && key !in stores[order[at]]
    requires Probing(stores, key, order, at + 1, rest) && Answering(stores, key, order, at + 1, rest)
    ensures Answering(stores, key, order, at, AfterMiss(rest, order[at], key))
  {
  }

  /** The walk stops at the first probe step that hits: if the steps
      `at..hit-1` all miss and step `hit` holds the key (or is past the end),
      the walk logged exactly those misses. */
  lemma StopsAtFirstHit<K, V>(stores: seq<map<K, V>>, key: K, order: seq<nat>, at: nat, hit: nat)
    requires ValidOrder(order, |stores|) && at <= hit <= |order|
    requires forall i :: at <= i < hit ==> key !in stores[order[i]]
    requires hit < |order| ==> key in stores[order[hit]]
    ensures ReadThrough(stores, key, order, at).misses == order[at..hit]
  {
  }

  /** The stores the walk reads, in order: the misses, then the store that hit. */
  function Probed<K, V>(o: Outcome<K, V>, order: seq<nat>, at: nat): seq<nat>
    requires at + |o.misses| <= |order|
  {
    order[at..at + |o.misses| + (if o.value.Some? && at + |o.misses| < |order| then 1 else 0)]
  }

  /** A key that no probed store holds is answered with nil, and the walk
      writes nothing. */
  lemma {:induction false} NothingFoundNothingWritten<K, V>(stores: seq<map<K, V>>, key: K, order: seq<nat>, at: nat)
    requires ValidOrder(order, |stores|) && at <= |order|
    requires forall i :: at <= i < |order| ==> key !in stores[order[i]]
    ensures ReadThrough(stores, key, order, at) == Outcome(None, order[at..], stores)
  {
    var o := ReadThrough(stores, key, order, at);
    assert o.value.None?;
    assert o.stores == stores;
  }

  /** When the first probed store holds the key the walk logs nothing,
      writes nothing and reads no other store. */
  lemma FirstProbeHit<K, V>(stores: seq<map<K, V>>, key: K, order: seq<nat>)
    requires ValidOrder(order, |stores|) && |order| > 0 && key in stores[order[0]]
    ensures ReadThrough(stores, key, order, 0) == Outcome(Some(stores[order[0]][key]), [], stores)
    ensures Probed(ReadThrough(stores, key, order, 0), order, 0) == [order[0]]
  {
  }
}
