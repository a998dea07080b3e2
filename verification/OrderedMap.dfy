/**
  An insertion-ordered dictionary, the way a Python `dict` behaves: iteration
  follows the order in which keys were first inserted, and assigning to an
  existing key replaces its value without moving it.
 */
module OrderedMap {
  import opened Wrappers

  type OMap<K, V> = seq<(K, V)>

  function Keys<K, V>(m: OMap<K, V>): (ks: seq<K>)
    ensures |ks| == |m|
    ensures forall i | 0 <= i < |m| :: ks[i] == m[i].0
  {
    if |m| == 0 then [] else [m[0].0] + Keys(m[1..])
  }

  /** The values in key order (Python's `d.values()`). */
  function Values<K, V>(m: OMap<K, V>): (vs: seq<V>)
    ensures |vs| == |m|
    ensures forall i | 0 <= i < |m| :: vs[i] == m[i].1
  {
    seq(|m|, i requires 0 <= i < |m| => m[i].1)
  }

  /** No key occurs twice; every dictionary built with `Put` has this shape. */
  predicate Distinct<K(==)>(ks: seq<K>) {
    forall i, j | 0 <= i < j < |ks| :: ks[i] != ks[j]
  }

  /** `m[k]` if present (Python's `d.get(k)`). */
  function Get<K(==,!new), V>(m: OMap<K, V>, k: K): (r: Option<V>)
    ensures r.Some? <==> k in Keys(m)
    ensures r.Some? ==> (k, r.value) in m
  {
    if |m| == 0 then None
    else if m[0].0 == k then Some(m[0].1)
    else Get(m[1..], k)
  }

  /** A value found by `Get` is one of the map's values. */
  lemma ValuesOfGet<K(!new), V>(m: OMap<K, V>, k: K)
    requires k in Keys(m)
    ensures Get(m, k).value in Values(m)
  {
    var i :| 0 <= i < |m| && m[i] == (k, Get(m, k).value);
    assert Values(m)[i] == m[i].1;
  }

  /** `d[k] = v`: the value of an existing key is replaced in place, a new key goes last. */
  function Put<K(==,!new), V>(m: OMap<K, V>, k: K, v: V): (r: OMap<K, V>)
    ensures Keys(r) == if k in Keys(m) then Keys(m) else Keys(m) + [k]
    ensures Get(r, k) == Some(v)
    ensures forall k' | k' != k :: Get(r, k') == Get(m, k')
  {
    AssignKeys(m, k, v);
    forall k' ensures Get(Assign(m, k, v), k') == if k' == k then Some(v) else Get(m, k') {
      AssignGet(m, k, v, k');
    }
    Assign(m, k, v)
  }

  /** The assignment itself, walking the entries in order. */
  function Assign<K(==), V>(m: OMap<K, V>, k: K, v: V): OMap<K, V>
    decreases |m|
  {
    if |m| == 0 then [(k, v)]
    else if m[0].0 == k then [(k, v)] + m[1..]
    else [m[0]] + Assign(m[1..], k, v)
  }

  lemma ConsKeys<K, V>(e: (K, V), m: OMap<K, V>)
    ensures Keys([e] + m) == [e.0] + Keys(m)
  {
    assert ([e] + m)[1..] == m;
  }

  lemma ConsGet<K(!new), V>(e: (K, V), m: OMap<K, V>, k: K)
    ensures Get([e] + m, k) == if e.0 == k then Some(e.1) else Get(m, k)
  {
    assert ([e] + m)[1..] == m;
  }

  lemma {:induction false} AssignKeys<K(!new), V>(m: OMap<K, V>, k: K, v: V)
    ensures Keys(Assign(m, k, v)) == if k in Keys(m) then Keys(m) else Keys(m) + [k]
    decreases |m|
  {
    if |m| > 0 {
      assert m == [m[0]] + m[1..];
      ConsKeys(m[0], m[1..]);
      if m[0].0 == k {
        ConsKeys((k, v), m[1..]);
      } else {
        AssignKeys(m[1..], k, v);
        ConsKeys(m[0], Assign(m[1..], k, v));
      }
    }
  }

  lemma {:induction false} AssignGet<K(!new), V>(m: OMap<K, V>, k: K, v: V, k': K)
    ensures Get(Assign(m, k, v), k') == if k' == k then Some(v) else Get(m, k')
    decreases |m|
  {
    if |m| > 0 {
      assert m == [m[0]] + m[1..];
      ConsGet(m[0], m[1..], k');
      if m[0].0 == k {
        ConsGet((k, v), m[1..], k');
      } else {
        AssignGet(m[1..], k, v, k');
        ConsGet(m[0], Assign(m[1..], k, v), k');
      }
    }
  }

  /** Assignment adds no entry but the assigned one. */
  lemma {:induction false} PutFrom<K(!new), V>(m: OMap<K, V>, k: K, v: V, e: (K, V))
    requires e in Put(m, k, v)
    ensures e in m || e == (k, v)
    decreases |m|
  {
    if |m| > 0 && m[0].0 != k && e != m[0] {
      assert e in Put(m[1..], k, v);
      PutFrom(m[1..], k, v, e);
    }
  }

  /** Assignment keeps the keys distinct. */
  lemma PutDistinct<K(!new), V>(m: OMap<K, V>, k: K, v: V)
    requires Distinct(Keys(m))
    ensures Distinct(Keys(Put(m, k, v)))
  {
  }

  /** Assigning every entry of `es` in turn, as a Python `for` loop of `d[k] = v` does. */
  function PutAll<K(==,!new), V>(m: OMap<K, V>, es: seq<(K, V)>): OMap<K, V>
    decreases |es|
  {
    if |es| == 0 then m else PutAll(Put(m, es[0].0, es[0].1), es[1..])
  }

  /** The value of the last entry of `es` whose key is `k`: the one that wins. */
  function LastValue<K(==,!new), V>(es: seq<(K, V)>, k: K): Option<V>
    decreases |es|
  {
    if |es| == 0 then None
    else
      var later := LastValue(es[1..], k);
      if later.Some? then later
      else if es[0].0 == k then Some(es[0].1)
      else None
  }

  /** The keys of `ks` in order of first occurrence, each once, appended to `seen`. */
  function AppendNew<K(==)>(seen: seq<K>, ks: seq<K>): seq<K>
    decreases |ks|
  {
    if |ks| == 0 then seen
    else AppendNew(if ks[0] in seen then seen else seen + [ks[0]], ks[1..])
  }

  /** After a run of assignments, a key holds the value last assigned to it, or its old value. */
  lemma {:induction false} PutAllGet<K(!new), V>(m: OMap<K, V>, es: seq<(K, V)>, k: K)
    ensures Get(PutAll(m, es), k) == if LastValue(es, k).Some? then LastValue(es, k) else Get(m, k)
    decreases |es|
  {
    if |es| > 0 {
      PutAllGet(Put(m, es[0].0, es[0].1), es[1..], k);
    }
  }

  /** After a run of assignments, the keys are the old keys followed by each new key once, in first-assignment order. */
  lemma {:induction false} PutAllKeys<K(!new), V>(m: OMap<K, V>, es: seq<(K, V)>)
    ensures Keys(PutAll(m, es)) == AppendNew(Keys(m), Keys(es))
    ensures Distinct(Keys(m)) ==> Distinct(Keys(PutAll(m, es)))
    decreases |es|
  {
    if |es| > 0 {
      PutAllKeys(Put(m, es[0].0, es[0].1), es[1..]);
      if Distinct(Keys(m)) {
        PutDistinct(m, es[0].0, es[0].1);
      }
      assert Keys(es)[1..] == Keys(es[1..]);
    }
  }

  /** A key is present after a run of assignments exactly when it was present before or was assigned. */
  lemma {:induction false} AppendNewMembers<K>(seen: seq<K>, ks: seq<K>, k: K)
    ensures k in AppendNew(seen, ks) <==> k in seen || k in ks
    decreases |ks|
  {
    if |ks| > 0 {
      AppendNewMembers(if ks[0] in seen then seen else seen + [ks[0]], ks[1..], k);
      assert ks == [ks[0]] + ks[1..];
    }
  }

  /** A dictionary built from nothing by assignments holds exactly the assigned keys, each once, each with its last value. */
  lemma BuiltMap<K(!new), V>(es: seq<(K, V)>, k: K)
    ensures Distinct(Keys(PutAll([], es)))
    ensures k in Keys(PutAll([], es)) <==> k in Keys(es)
    ensures Get(PutAll([], es), k) == LastValue(es, k)
  {
    PutAllKeys([], es);
    AppendNewMembers([], Keys(es), k);
    PutAllGet([], es, k);
  }

  /** `LastValue` finds a value exactly for the keys that occur, and that value was assigned to the key. */
  lemma {:induction false} LastValueSpec<K(!new), V>(es: seq<(K, V)>, k: K)
    ensures LastValue(es, k).Some? <==> k in Keys(es)
    ensures LastValue(es, k).Some? ==> (k, LastValue(es, k).value) in es
    decreases |es|
  {
    if |es| > 0 {
      LastValueSpec(es[1..], k);
      assert Keys(es) == [es[0].0] + Keys(es[1..]);
    }
  }

  /** In a concatenation of assignment runs, the second run's last value for a key wins over the first's. */
  lemma {:induction false} LastValueAppend<K(!new), V>(a: seq<(K, V)>, b: seq<(K, V)>, k: K)
    ensures LastValue(a + b, k) == if LastValue(b, k).Some? then LastValue(b, k) else LastValue(a, k)
    decreases |a|
  {
    if |a| > 0 {
      assert (a + b)[1..] == a[1..] + b;
      LastValueAppend(a[1..], b, k);
    } else {
      assert a + b == b;
    }
  }

  /** Every entry of a dictionary built by assignments was one of the assignments. */
  lemma {:induction false} PutAllFrom<K(!new), V>(m: OMap<K, V>, es: seq<(K, V)>, e: (K, V))
    requires e in PutAll(m, es)
    ensures e in m || e in es
    decreases |es|
  {
    if |es| > 0 {
      PutAllFrom(Put(m, es[0].0, es[0].1), es[1..], e);
      if e in Put(m, es[0].0, es[0].1) {
        PutFrom(m, es[0].0, es[0].1, e);
      }
    }
  }

  /** `f` produces an entry with key `k` for `x`. */
  predicate Emits<T, K(==), V>(f: T -> Option<(K, V)>, x: T, k: K) {
    f(x).Some? && f(x).value.0 == k
  }

  /** Some element of `xs` makes `f` produce key `k`. */
  predicate SomeEmitter<T, K(==), V>(xs: seq<T>, f: T -> Option<(K, V)>, k: K) {
    exists i | 0 <= i < |xs| :: Emits(f, xs[i], k)
  }

  /**
    The entries a loop over `xs` assigns, when it assigns `f(x)` for each `x` for
    which `f` produces one and skips the others (a `continue`).
   */
  function Collect<T, K, V>(xs: seq<T>, f: T -> Option<(K, V)>): seq<(K, V)>
    decreases |xs|
  {
    if |xs| == 0 then []
    else (if f(xs[0]).Some? then [f(xs[0]).value] else []) + Collect(xs[1..], f)
  }

  /** Index `i` holds the last element of `xs` for which `f` produces key `k`. */
  predicate IsLastEmitter<T, K(==), V>(xs: seq<T>, f: T -> Option<(K, V)>, k: K, i: int) {
    0 <= i < |xs| && Emits(f, xs[i], k) && forall j | i < j < |xs| :: !Emits(f, xs[j], k)
  }

  lemma {:induction false} CollectKeys<T, K(!new), V>(xs: seq<T>, f: T -> Option<(K, V)>, k: K)
    ensures k in Keys(Collect(xs, f)) <==> exists i | 0 <= i < |xs| :: Emits(f, xs[i], k)
    decreases |xs|
  {
    if |xs| > 0 {
      CollectKeys(xs[1..], f, k);
      var head := if f(xs[0]).Some? then [f(xs[0]).value] else [];
      assert Keys(head + Collect(xs[1..], f)) == Keys(head) + Keys(Collect(xs[1..], f));
      if exists i | 0 <= i < |xs| :: Emits(f, xs[i], k) {
        var i :| 0 <= i < |xs| && Emits(f, xs[i], k);
        if i > 0 {
          assert xs[1..][i - 1] == xs[i];
        }
      }
    }
  }

  lemma {:induction false} CollectLastValue<T, K(!new), V>(xs: seq<T>, f: T -> Option<(K, V)>, k: K, i: int)
    requires IsLastEmitter(xs, f, k, i)
    ensures LastValue(Collect(xs, f), k) == Some(f(xs[i]).value.1)
    decreases |xs|
  {
    var head := if f(xs[0]).Some? then [f(xs[0]).value] else [];
    LastValueAppend(head, Collect(xs[1..], f), k);
    if i > 0 {
      assert IsLastEmitter(xs[1..], f, k, i - 1);
      CollectLastValue(xs[1..], f, k, i - 1);
    } else {
      CollectKeys(xs[1..], f, k);
      LastValueSpec(Collect(xs[1..], f), k);
      assert forall j | 0 <= j < |xs[1..]| :: xs[1..][j] == xs[j + 1];
    }
  }

  /** Every collected entry is what `f` produced for some element. */
  lemma {:induction false} CollectFrom<T, K, V>(xs: seq<T>, f: T -> Option<(K, V)>, e: (K, V))
    requires e in Collect(xs, f)
    ensures exists i | 0 <= i < |xs| :: f(xs[i]) == Some(e)
    decreases |xs|
  {
    var head := if f(xs[0]).Some? then [f(xs[0]).value] else [];
    if e !in head {
      CollectFrom(xs[1..], f, e);
      var i :| 0 <= i < |xs[1..]| && f(xs[1..][i]) == Some(e);
      assert f(xs[i + 1]) == Some(e);
    }
  }

  /** The keys of a dictionary filled by such a loop are distinct and are exactly the keys produced. */
  lemma CollectedKey<T, K(!new), V>(xs: seq<T>, f: T -> Option<(K, V)>, k: K)
    ensures Distinct(Keys(PutAll([], Collect(xs, f))))
    ensures k in Keys(PutAll([], Collect(xs, f))) <==> SomeEmitter(xs, f, k)
  {
    BuiltMap(Collect(xs, f), k);
    CollectKeys(xs, f, k);
  }

  /** Every entry of a dictionary filled by such a loop was produced by some element. */
  lemma CollectedEntry<T, K(!new), V>(xs: seq<T>, f: T -> Option<(K, V)>, e: (K, V))
    requires e in PutAll([], Collect(xs, f))
    ensures exists i | 0 <= i < |xs| :: f(xs[i]) == Some(e)
  {
    PutAllFrom([], Collect(xs, f), e);
    CollectFrom(xs, f, e);
  }

  /**
    A dictionary filled by such a loop: its keys are distinct and are exactly the keys
    produced, a key holds the value produced by the last element producing it, and
    every entry was produced by some element.
   */
  lemma CollectedMap<T, K(!new), V>(xs: seq<T>, f: T -> Option<(K, V)>, k: K)
    ensures Distinct(Keys(PutAll([], Collect(xs, f))))
    ensures k in Keys(PutAll([], Collect(xs, f))) <==> SomeEmitter(xs, f, k)
    ensures forall i | IsLastEmitter(xs, f, k, i) :: Get(PutAll([], Collect(xs, f)), k) == Some(f(xs[i]).value.1)
    ensures forall e | e in PutAll([], Collect(xs, f)) :: exists i | 0 <= i < |xs| :: f(xs[i]) == Some(e)
  {
    BuiltMap(Collect(xs, f), k);
    CollectKeys(xs, f, k);
    forall i | IsLastEmitter(xs, f, k, i)
      ensures Get(PutAll([], Collect(xs, f)), k) == Some(f(xs[i]).value.1)
    {
      CollectLastValue(xs, f, k, i);
    }
    forall e | e in PutAll([], Collect(xs, f))
      ensures exists i | 0 <= i < |xs| :: f(xs[i]) == Some(e)
    {
      PutAllFrom([], Collect(xs, f), e);
      CollectFrom(xs, f, e);
    }
  }
}
