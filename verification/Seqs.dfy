/** Order-preserving filtering of sequences (Python list and dict comprehensions with an `if`). */
module Seqs {
  import opened Wrappers

  function Filter<T>(xs: seq<T>, keep: T -> bool): seq<T>
    decreases |xs|
  {
    if |xs| == 0 then []
    else (if keep(xs[0]) then [xs[0]] else []) + Filter(xs[1..], keep)
  }

  /** The kept elements are exactly the elements that pass the test. */
  lemma {:induction false} FilterMembers<T>(xs: seq<T>, keep: T -> bool, x: T)
    ensures x in Filter(xs, keep) <==> x in xs && keep(x)
    decreases |xs|
  {
    if |xs| > 0 {
      FilterMembers(xs[1..], keep, x);
      assert xs == [xs[0]] + xs[1..];
    }
  }

  lemma {:induction false} FilterAppend<T>(a: seq<T>, b: seq<T>, keep: T -> bool)
    ensures Filter(a + b, keep) == Filter(a, keep) + Filter(b, keep)
    decreases |a|
  {
    if |a| == 0 {
      assert a + b == b;
    } else {
      assert (a + b)[1..] == a[1..] + b;
      FilterAppend(a[1..], b, keep);
    }
  }

  /** Filtering keeps everything when everything is kept and nothing when nothing is. */
  lemma {:induction false} FilterAllOrNone<T>(xs: seq<T>, keep: T -> bool)
    ensures (forall x | x in xs :: keep(x)) ==> Filter(xs, keep) == xs
    ensures (forall x | x in xs :: !keep(x)) ==> Filter(xs, keep) == []
    decreases |xs|
  {
    if |xs| > 0 {
      FilterAllOrNone(xs[1..], keep);
      assert forall x | x in xs[1..] :: x in xs;
      assert xs == [xs[0]] + xs[1..];
    }
  }

  /** The results `f` produces, in order, for the elements it does not skip (a loop that appends only non-empty results). */
  function FilterMap<T, U>(xs: seq<T>, f: T -> Option<U>): (r: seq<U>)
    ensures |r| <= |xs|
    decreases |xs|
  {
    if |xs| == 0 then []
    else (if f(xs[0]).Some? then [f(xs[0]).value] else []) + FilterMap(xs[1..], f)
  }

  lemma {:induction false} FilterMapMembers<T, U>(xs: seq<T>, f: T -> Option<U>, y: U)
    ensures y in FilterMap(xs, f) <==> exists x | x in xs :: f(x) == Some(y)
    decreases |xs|
  {
    if |xs| > 0 {
      FilterMapMembers(xs[1..], f, y);
      assert xs == [xs[0]] + xs[1..];
    }
  }
}
