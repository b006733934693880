/**
 The engine's memory: two maps from a state's key to its visit count and to
 its evaluation entry, read by `Estimate` and written by `Update`.

 `Update` is modelled exactly as the engine writes it: each credited key gets
 its count raised by one and its evaluation entry REPLACED by the new count
 plus the latest evaluation, so the estimate is not a running mean.
 */
module ValueStore {

  /** An estimate: `Unknown` plays the role of the `-inf` sentinel. */
  datatype Value = Unknown | Known(ratio: real)

  /** `a` ranks strictly above `b`; `Unknown` is below every known value. */
  predicate Above(a: Value, b: Value) {
    match a
    case Unknown => false
    case Known(x) => b.Unknown? || x > b.ratio
  }

  datatype Store<K> = Store(counters: map<K, nat>, evals: map<K, real>)

  /** The store an engine starts with. */
  function Empty<K(!new)>(): (st: Store<K>)
    ensures Valid(st)
    ensures forall k :: Visits(st, k) == 0
  {
    Store(map[], map[])
  }

  /** What every reachable store keeps: both maps share their keys, and every counted key was visited. */
  predicate Valid<K>(st: Store<K>) {
    && st.counters.Keys == st.evals.Keys
    && forall k | k in st.counters :: st.counters[k] >= 1
  }

  /** The visit count with missing keys read as zero, as `counters.get(s, 0)` does. */
  function Visits<K>(st: Store<K>, k: K): nat {
    if k in st.counters then st.counters[k] else 0
  }

  /** The estimate of a key: evaluation entry over visit count, or `Unknown` when never credited. */
  function Estimate<K>(st: Store<K>, k: K): (r: Value)
    requires Valid(st)
    ensures r.Unknown? <==> Visits(st, k) == 0
  {
    if k in st.counters then Known(st.evals[k] / st.counters[k] as real) else Unknown
  }

  /** One pass of the update loop: count one more visit, overwrite the evaluation entry. */
  function Credit<K(!new)>(st: Store<K>, k: K, evaluation: real): (r: Store<K>)
    ensures Visits(r, k) == Visits(st, k) + 1
    ensures k in r.evals && r.evals[k] == Visits(r, k) as real + evaluation
    ensures forall k' | k' != k :: Visits(r, k') == Visits(st, k')
    ensures forall k' | k' != k :: (k' in r.evals <==> k' in st.evals)
    ensures forall k' | k' != k && k' in st.evals :: r.evals[k'] == st.evals[k']
  {
    var n := Visits(st, k) + 1;
    Store(st.counters[k := n], st.evals[k := n as real + evaluation])
  }

  /**
   Credit every key of `keys`, in order, with the same evaluation. A key
   listed m times gains m visits; its evaluation entry ends up as its final
   count plus `evaluation`, whatever it held before. Keys not listed keep
   both entries.
   */
  function Update<K(!new)>(st: Store<K>, keys: seq<K>, evaluation: real): (r: Store<K>)
    ensures forall k :: k in r.counters <==> k in st.counters || k in keys
    ensures forall k :: k in r.evals <==> k in st.evals || k in keys
    ensures forall k :: Visits(r, k) == Visits(st, k) + multiset(keys)[k]
    ensures forall k | k in keys :: r.evals[k] == Visits(r, k) as real + evaluation
    ensures forall k | k !in keys && k in st.evals :: r.evals[k] == st.evals[k]
    ensures Valid(st) ==> Valid(r)
    decreases |keys|
  {
    if |keys| == 0 then st
    else
      var r := Update(Credit(st, keys[0], evaluation), keys[1..], evaluation);
      SplitHead(keys);
      r
  }

  /** How membership and multiplicity in `keys` split over its head and tail. */
  lemma SplitHead<K>(keys: seq<K>)
    requires |keys| > 0
    ensures forall k :: k in keys <==> k == keys[0] || k in keys[1..]
    ensures forall k :: multiset(keys)[k] == multiset(keys[1..])[k] + (if k == keys[0] then 1 else 0)
  {
    assert keys == [keys[0]] + keys[1..];
  }

  /** Nothing is ever removed: the keys after an update are the old keys plus the credited ones. */
  lemma UpdateKeys<K(!new)>(st: Store<K>, keys: seq<K>, evaluation: real)
    ensures Update(st, keys, evaluation).counters.Keys == st.counters.Keys + set k | k in keys
    ensures Update(st, keys, evaluation).evals.Keys == st.evals.Keys + set k | k in keys
  {
  }

  /**
   After an update, the estimate of a credited key is its new count plus the
   latest evaluation, divided by the new count.
   */
  lemma EstimateAfterUpdate<K(!new)>(st: Store<K>, keys: seq<K>, evaluation: real, k: K)
    requires Valid(st)
    requires k in keys
    ensures var n := (Visits(st, k) + multiset(keys)[k]) as real;
            Estimate(Update(st, keys, evaluation), k) == Known((n + evaluation) / n)
  {
    var r := Update(st, keys, evaluation);
    var n := (Visits(st, k) + multiset(keys)[k]) as real;
    assert Visits(r, k) as real == n;
    assert r.evals[k] == n + evaluation;
  }

  /** The first credit of a fresh key with evaluation `v` makes its estimate `1 + v`. */
  lemma FirstUpdate<K(!new)>(st: Store<K>, k: K, v: real)
    requires Valid(st)
    requires Visits(st, k) == 0
    ensures Estimate(Update(st, [k], v), k) == Known(1.0 + v)
  {
    assert multiset([k])[k] == 1;
    EstimateAfterUpdate(st, [k], v, k);
  }

  /**
   Crediting a fresh key twice leaves an estimate that ignores the first
   evaluation entirely; it equals the mean of the two evaluations only when
   the first one happens to be 2.
   */
  lemma SecondUpdateOverwrites<K(!new)>(st: Store<K>, k: K, v1: real, v2: real)
    requires Valid(st)
    requires Visits(st, k) == 0
    ensures Estimate(Update(Update(st, [k], v1), [k], v2), k) == Known((2.0 + v2) / 2.0)
    ensures Estimate(Update(Update(st, [k], v1), [k], v2), k) == Known((v1 + v2) / 2.0) <==> v1 == 2.0
  {
    TwiceCredited(st, k, v1, v2);
  }

  /** A fresh key credited twice: two visits, and the entry written by the second credit. */
  lemma TwiceCredited<K(!new)>(st: Store<K>, k: K, v1: real, v2: real)
    requires Valid(st)
    requires Visits(st, k) == 0
    ensures var twice := Update(Update(st, [k], v1), [k], v2);
      Valid(twice) && k in twice.counters && twice.counters[k] == 2 && twice.evals[k] == 2.0 + v2
  {
    var once := Update(st, [k], v1);
    UpdateSingle(st, k, v1);
    UpdateSingle(once, k, v2);
  }

  /** Updating with a one-key list is a single credit. */
  lemma UpdateSingle<K(!new)>(st: Store<K>, k: K, v: real)
    ensures Update(st, [k], v) == Credit(st, k, v)
  {
    assert [k][1..] == [];
  }
}
