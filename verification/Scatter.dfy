/** Results that arrive in any order and are put into the slots they name. */
module Scatter {

  ghost predicate Fits<X>(n: nat, q: seq<X>, at: X -> nat) {
    forall j :: 0 <= j < |q| ==> at(q[j]) < n
  }

  ghost predicate Distinct<X>(q: seq<X>, at: X -> nat) {
    forall i, j :: 0 <= i < j < |q| ==> at(q[i]) != at(q[j])
  }

  /** The slots after all results have been stored, later results overwriting earlier ones. */
  ghost function Scattered<X, U>(base: seq<U>, q: seq<X>, at: X -> nat, f: X -> U): (r: seq<U>)
    requires Fits(|base|, q, at)
    ensures |r| == |base|
  {
    if q == [] then base
    else Scattered(base, q[..|q| - 1], at, f)[at(q[|q| - 1]) := f(q[|q| - 1])]
  }

  lemma {:induction false} ScatteredSnoc<X, U>(base: seq<U>, q: seq<X>, x: X, at: X -> nat, f: X -> U)
    requires Fits(|base|, q, at) && at(x) < |base|
    ensures Fits(|base|, q + [x], at)
    ensures Scattered(base, q + [x], at, f) == Scattered(base, q, at, f)[at(x) := f(x)]
  {
    assert (q + [x])[..|q|] == q;
  }

  /** Distinct results never overwrite each other. */
  lemma {:induction false} ScatteredHit<X, U>(base: seq<U>, q: seq<X>, at: X -> nat, f: X -> U, j: nat)
    requires Fits(|base|, q, at) && Distinct(q, at) && j < |q|
    ensures Scattered(base, q, at, f)[at(q[j])] == f(q[j])
  {
    if j < |q| - 1 {
      ScatteredHit(base, q[..|q| - 1], at, f, j);
    }
  }

  lemma {:induction false} ScatteredMiss<X, U>(base: seq<U>, q: seq<X>, at: X -> nat, f: X -> U, i: nat)
    requires Fits(|base|, q, at) && i < |base|
    requires forall j :: 0 <= j < |q| ==> at(q[j]) != i
    ensures Scattered(base, q, at, f)[i] == base[i]
  {
    if q != [] {
      ScatteredMiss(base, q[..|q| - 1], at, f, i);
    }
  }

  /** The slots that results were put into. */
  ghost function Hits<X>(q: seq<X>, at: X -> nat): set<nat> {
    set j | 0 <= j < |q| :: at(q[j])
  }

  /** As many distinct results as slots fill every slot. */
  lemma {:induction false} FullCoverage<X>(q: seq<X>, at: X -> nat, n: nat, i: nat)
    requires Fits(n, q, at) && Distinct(q, at) && |q| == n && i < n
    ensures exists j :: 0 <= j < |q| && at(q[j]) == i
  {
    var hits := Hits(q, at);
    DistinctCount(q, at);
    if i !in hits {
      BelowSize(n);
      assert hits <= Below(n) - {i};
      SubsetSize(hits, Below(n) - {i});
    }
  }

  lemma {:induction false} DistinctCount<X>(q: seq<X>, at: X -> nat)
    requires Distinct(q, at)
    ensures |Hits(q, at)| == |q|
  {
    var hits := Hits(q, at);
    if q == [] {
      assert hits == {};
    } else {
      var p := q[..|q| - 1];
      DistinctCount(p, at);
      var earlier := Hits(p, at);
      assert forall j :: 0 <= j < |p| ==> p[j] == q[j];
      assert hits == earlier + {at(q[|q| - 1])};
    }
  }

  /** The indices below n. */
  function Below(n: nat): set<nat> {
    if n == 0 then {} else Below(n - 1) + {n - 1}
  }

  lemma {:induction false} BelowSize(n: nat)
    ensures |Below(n)| == n
    ensures forall i: nat :: i in Below(n) <==> i < n
  {
    if n > 0 {
      BelowSize(n - 1);
    }
  }

  lemma {:induction false} SubsetSize<A>(a: set<A>, b: set<A>)
    requires a <= b
    ensures |a| <= |b|
  {
    if a != {} {
      var x :| x in a;
      SubsetSize(a - {x}, b - {x});
    }
  }
}
