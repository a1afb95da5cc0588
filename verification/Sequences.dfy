/** A few notions on sequences shared by the other modules. */
module Sequences {
  // list.pop(i)
  function Without<T>(xs: seq<T>, i: nat): (r: seq<T>)
    requires i < |xs|
    ensures |r| == |xs| - 1
  {
    xs[..i] + xs[i + 1..]
  }

  predicate Distinct<T(==)>(xs: seq<T>) {
    forall i, j :: 0 <= i < j < |xs| ==> xs[i] != xs[j]
  }

  lemma DistinctAppend<T>(xs: seq<T>, x: T)
    requires Distinct(xs) && x !in xs
    ensures Distinct(xs + [x])
  {
    assert forall i :: 0 <= i < |xs| ==> xs[i] in xs && xs[i] != x;
  }

  function Elements<T(==)>(xs: seq<T>): set<T> {
    set x | x in xs
  }

  // The places list, in order and once each, exactly the numbers below n with the property
  ghost predicate Picks(places: seq<nat>, n: nat, p: nat -> bool) {
    && (forall i, j :: 0 <= i < j < |places| ==> places[i] < places[j])
    && (forall k: nat :: k in places <==> k < n && p(k))
  }

  // Those numbers
  function Where(n: nat, p: nat -> bool): (places: seq<nat>)
    ensures forall i :: 0 <= i < |places| ==> places[i] < n
  {
    if n == 0 then [] else Where(n - 1, p) + if p(n - 1) then [n - 1] else []
  }

  lemma {:induction false} WherePicks(n: nat, p: nat -> bool)
    ensures Picks(Where(n, p), n, p)
  {
    if n > 0 { WherePicks(n - 1, p); }
  }

  function Images<T>(places: seq<nat>, f: nat -> T): (r: seq<T>)
    ensures |r| == |places| && forall i :: 0 <= i < |r| ==> r[i] == f(places[i])
  {
    seq(|places|, i requires 0 <= i < |places| => f(places[i]))
  }

  lemma ImagesOneMore<T>(n: nat, p: nat -> bool, f: nat -> T)
    ensures Images(Where(n + 1, p), f) == Images(Where(n, p), f) + if p(n) then [f(n)] else []
  {
  }
}
