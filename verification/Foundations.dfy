/** Option and Result values, and ordered selection from finite sets of row ids. */
module Foundations {

  datatype Option<+T> = None | Some(value: T)

  /** The outcome of an operation that either produces a value or raises. */
  datatype Result<+T, +E> = Ok(value: T) | Err(error: E) {
    predicate IsFailure() {
      Err?
    }

    function PropagateFailure<U>(): Result<U, E>
      requires Err?
    {
      Err(error)
    }

    function Extract(): T
      requires Ok?
    {
      value
    }
  }

  predicate IsLeast(m: nat, s: set<nat>) {
    m in s && forall x <- s :: m <= x
  }

  lemma LeastExists(s: set<nat>)
    requires s != {}
    ensures exists m :: IsLeast(m, s)
  {
    var y :| y in s;
    var rest := s - {y};
    if rest == {} {
      assert s == {y};
      assert IsLeast(y, s);
    } else {
      LeastExists(rest);
      var m :| IsLeast(m, rest);
      assert forall x <- s :: x == y || x in rest;
      assert IsLeast(if y <= m then y else m, s);
    }
  }

  /** The smallest id of a non-empty set. */
  function Least(s: set<nat>): (m: nat)
    requires s != {}
    ensures m in s && forall x <- s :: m <= x
  {
    LeastExists(s);
    var m :| m in s && IsLeast(m, s);
    m
  }

  ghost predicate Ascending(xs: seq<nat>) {
    forall a, b | 0 <= a < b < |xs| :: xs[a] < xs[b]
  }

  /** The query `ORDER BY id LIMIT count` over the rows whose ids form `pool`. */
  function FirstIds(pool: set<nat>, count: nat): (ids: seq<nat>)
    ensures |ids| == if count <= |pool| then count else |pool|
    ensures forall x <- ids :: x in pool
    ensures Ascending(ids)
    ensures forall x, y | x in ids && y in pool && y !in ids :: x < y
    decreases count
  {
    if count == 0 || pool == {} then []
    else
      var m := Least(pool);
      var rest := FirstIds(pool - {m}, count - 1);
      assert forall a | 0 <= a < |rest| :: rest[a] in pool - {m};
      [m] + rest
  }

  /** The query `ORDER BY id` over the rows whose ids form `pool`. */
  function AllIds(pool: set<nat>): (ids: seq<nat>)
    ensures |ids| == |pool| && Ascending(ids)
    ensures forall x :: x in ids <==> x in pool
  {
    var ids := FirstIds(pool, |pool|);
    DistinctCount(ids);
    assert SeqSet(ids) <= pool;
    SubsetEqual(SeqSet(ids), pool);
    ids
  }

  function SeqSet<T>(xs: seq<T>): set<T> {
    set x | x in xs
  }

  lemma DistinctCount(xs: seq<nat>)
    requires Ascending(xs)
    ensures |SeqSet(xs)| == |xs|
  {
    if xs != [] {
      var last := |xs| - 1;
      DistinctCount(xs[..last]);
      assert xs == xs[..last] + [xs[last]];
      assert SeqSet(xs) == SeqSet(xs[..last]) + {xs[last]};
    }
  }

  lemma SubsetEqual<T>(small: set<T>, large: set<T>)
    requires small <= large && |small| == |large|
    ensures small == large
  {
    assert |large - small| == |large| - |small|;
  }

  lemma SubsetCount<T>(small: set<T>, large: set<T>)
    requires small <= large
    ensures |small| <= |large|
  {
    assert |large - small| == |large| - |small|;
  }
}
