/** Option and Result, left folds over event histories, and sums over finite sets of keys. */
module Basics {

  datatype Option<+T> = None | Some(value: T)

  datatype Result<+T, +E> = Ok(value: T) | Err(error: E)

  function OrElse<A>(a: Option<A>, b: Option<A>): Option<A> { if a.Some? then a else b }

  /** Left fold: the state after `events`, oldest first. */
  function Fold<S, E>(step: (S, E) -> S, init: S, events: seq<E>): S
  {
    if events == [] then init
    else step(Fold(step, init, events[..|events| - 1]), events[|events| - 1])
  }

  lemma FoldSnoc<S, E>(step: (S, E) -> S, init: S, events: seq<E>, e: E)
    ensures Fold(step, init, events + [e]) == step(Fold(step, init, events), e)
  {
    assert (events + [e])[..|events|] == events;
  }

  lemma {:induction false} FoldConcat<S, E>(step: (S, E) -> S, init: S, xs: seq<E>, ys: seq<E>)
    ensures Fold(step, init, xs + ys) == Fold(step, Fold(step, init, xs), ys)
    decreases |ys|
  {
    if ys == [] {
      assert xs + ys == xs;
    } else {
      var n := |ys| - 1;
      assert (xs + ys)[..|xs| + n] == xs + ys[..n];
      FoldConcat(step, init, xs, ys[..n]);
    }
  }

  /** 0, 1, ..., n - 1. */
  function UpTo(n: nat): (keys: set<int>)
    ensures forall i :: i in keys <==> 0 <= i < n
  {
    if n == 0 then {} else UpTo(n - 1) + {n - 1}
  }

  /** The sum of f over a finite set of keys. */
  ghost function Sum<K(!new)>(keys: set<K>, f: K -> int): int
    decreases |keys|
  {
    if keys == {} then 0
    else
      var k :| k in keys;
      f(k) + Sum(keys - {k}, f)
  }

  /** Any key can be taken out first. */
  lemma {:induction false} SumExtract<K(!new)>(keys: set<K>, f: K -> int, k: K)
    requires k in keys
    ensures Sum(keys, f) == f(k) + Sum(keys - {k}, f)
    decreases |keys|
  {
    var j :| j in keys && Sum(keys, f) == f(j) + Sum(keys - {j}, f);
    if j != k {
      SumExtract(keys - {j}, f, k);
      SumExtract(keys - {k}, f, j);
      assert keys - {j} - {k} == keys - {k} - {j};
    }
  }

  lemma {:induction false} SumSame<K(!new)>(keys: set<K>, f: K -> int, g: K -> int)
    requires forall k :: k in keys ==> f(k) == g(k)
    ensures Sum(keys, f) == Sum(keys, g)
    decreases |keys|
  {
    if keys != {} {
      var k :| k in keys;
      SumExtract(keys, f, k);
      SumExtract(keys, g, k);
      SumSame(keys - {k}, f, g);
    }
  }

  lemma {:induction false} SumNonNegative<K(!new)>(keys: set<K>, f: K -> int)
    requires forall k :: k in keys ==> f(k) >= 0
    ensures Sum(keys, f) >= 0
    decreases |keys|
  {
    if keys != {} {
      var k :| k in keys;
      SumExtract(keys, f, k);
      SumNonNegative(keys - {k}, f);
    }
  }

  /** Changing f at a single key k (which may be new) changes the sum by the difference at k. */
  lemma SumUpdate<K(!new)>(keys: set<K>, f: K -> int, g: K -> int, k: K)
    requires forall j :: j in keys && j != k ==> f(j) == g(j)
    requires k !in keys ==> f(k) == 0
    ensures Sum(keys + {k}, g) == Sum(keys, f) + g(k) - f(k)
  {
    SumExtract(keys + {k}, g, k);
    assert keys + {k} - {k} == keys - {k};
    if k in keys { SumExtract(keys, f, k); } else { assert keys - {k} == keys; }
    SumSame(keys - {k}, f, g);
  }
}
