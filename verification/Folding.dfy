/** Left folds, and when their result does not depend on the order. */
module Folding {

  function FoldLeft<A, P>(f: (A, P) -> A, a: A, ps: seq<P>): A {
    if ps == [] then a else f(FoldLeft(f, a, ps[..|ps| - 1]), ps[|ps| - 1])
  }

  lemma FoldSnoc<A, P>(f: (A, P) -> A, a: A, ps: seq<P>, p: P)
    ensures FoldLeft(f, a, ps + [p]) == f(FoldLeft(f, a, ps), p)
  {
    assert (ps + [p])[..|ps|] == ps;
  }

  /** On values that are `ok`, steps with `good` elements commute and stay `ok`. */
  ghost predicate Commuting<A(!new), P(!new)>(f: (A, P) -> A, ok: A -> bool, good: P -> bool) {
    && (forall a, p :: Stays(f, ok, good, a, p))
    && (forall a, p, q :: Swaps(f, ok, good, a, p, q))
  }

  ghost predicate Stays<A, P>(f: (A, P) -> A, ok: A -> bool, good: P -> bool, a: A, p: P) {
    ok(a) && good(p) ==> ok(f(a, p))
  }

  ghost predicate Swaps<A, P>(f: (A, P) -> A, ok: A -> bool, good: P -> bool, a: A, p: P, q: P) {
    ok(a) && good(p) && good(q) ==> f(f(a, p), q) == f(f(a, q), p)
  }

  ghost predicate AllGood<P>(good: P -> bool, ps: seq<P>) {
    forall i :: 0 <= i < |ps| ==> good(ps[i])
  }

  lemma {:induction false} FoldOk<A(!new), P(!new)>(f: (A, P) -> A, ok: A -> bool, good: P -> bool, a: A, ps: seq<P>)
    requires Commuting(f, ok, good) && ok(a) && AllGood(good, ps)
    ensures ok(FoldLeft(f, a, ps))
  {
    if ps != [] {
      var init := ps[..|ps| - 1];
      FoldOk(f, ok, good, a, init);
      assert Stays(f, ok, good, FoldLeft(f, a, init), ps[|ps| - 1]);
    }
  }

  function Without<P>(ps: seq<P>, i: nat): seq<P>
    requires i < |ps|
  {
    ps[..i] + ps[i + 1..]
  }

  lemma WithoutBeforeLast<P>(ps: seq<P>, i: nat)
    requires i < |ps| - 1
    ensures Without(ps, i) == Without(ps[..|ps| - 1], i) + [ps[|ps| - 1]]
  {
  }

  /** An element may as well come last. */
  lemma {:induction false} MoveToEnd<A(!new), P(!new)>(f: (A, P) -> A, ok: A -> bool, good: P -> bool, a: A,
                                                       ps: seq<P>, i: nat)
    requires Commuting(f, ok, good) && ok(a) && AllGood(good, ps) && i < |ps|
    ensures FoldLeft(f, a, ps) == f(FoldLeft(f, a, Without(ps, i)), ps[i])
  {
    var n := |ps| - 1;
    var init, last := ps[..n], ps[n];
    if i == n {
      assert Without(ps, i) == init;
    } else {
      var rest := Without(init, i);
      MoveToEnd(f, ok, good, a, init, i);
      WithoutBeforeLast(ps, i);
      FoldSnoc(f, a, rest, last);
      forall j | 0 <= j < |rest| ensures good(rest[j]) {
        assert rest[j] == ps[if j < i then j else j + 1];
      }
      FoldOk(f, ok, good, a, rest);
      assert Swaps(f, ok, good, FoldLeft(f, a, rest), ps[i], last);
    }
  }

  lemma RemoveOne<P>(qs: seq<P>, i: nat)
    requires i < |qs|
    ensures multiset(qs) == multiset(Without(qs, i)) + multiset{qs[i]}
  {
    assert qs == qs[..i] + [qs[i]] + qs[i + 1..];
  }

  lemma Cancel<P>(a: multiset<P>, b: multiset<P>, x: P)
    requires a + multiset{x} == b + multiset{x}
    ensures a == b
  {
    assert a == (a + multiset{x}) - multiset{x};
    assert b == (b + multiset{x}) - multiset{x};
  }

  lemma {:induction false} FoldIgnoresOrder<A(!new), P(!new)>(f: (A, P) -> A, ok: A -> bool, good: P -> bool, a: A,
                                                              ps: seq<P>, qs: seq<P>)
    requires Commuting(f, ok, good) && ok(a) && AllGood(good, ps) && multiset(ps) == multiset(qs)
    ensures FoldLeft(f, a, ps) == FoldLeft(f, a, qs)
  {
    if ps == [] {
      assert |multiset(qs)| == 0;
    } else {
      var n := |ps| - 1;
      assert ps == ps[..n] + [ps[n]];
      assert ps[n] in multiset(qs);
      var i :| 0 <= i < |qs| && qs[i] == ps[n];
      RemoveOne(qs, i);
      Cancel(multiset(ps[..n]), multiset(Without(qs, i)), ps[n]);
      forall j | 0 <= j < |qs| ensures good(qs[j]) {
        assert qs[j] in multiset(ps);
      }
      FoldIgnoresOrder(f, ok, good, a, ps[..n], Without(qs, i));
      MoveToEnd(f, ok, good, a, qs, i);
    }
  }
}
