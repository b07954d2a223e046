/** Sums of multisets over sequences and maps, and what one change does to them. */
module Sums {
  function Sum<X, Y>(xs: seq<X>, f: X -> multiset<Y>): multiset<Y> {
    if xs == [] then multiset{} else Sum(xs[..|xs| - 1], f) + f(xs[|xs| - 1])
  }

  lemma SumLast<X, Y>(xs: seq<X>, last: nat, f: X -> multiset<Y>)
    requires |xs| == last + 1
    ensures Sum(xs, f) == Sum(xs[..last], f) + f(xs[last])
  {}

  lemma Regroup<Y>(a: multiset<Y>, b: multiset<Y>, c: multiset<Y>)
    ensures (a + b) + c == a + (b + c)
  {}

  lemma {:induction false} SumConcat<X, Y>(xs: seq<X>, ys: seq<X>, f: X -> multiset<Y>)
    ensures Sum(xs + ys, f) == Sum(xs, f) + Sum(ys, f)
  {
    if ys == [] {
      assert xs + ys == xs;
    } else {
      var last := |ys| - 1;
      SumConcat(xs, ys[..last], f);
      SumLast(xs + ys, |xs| + last, f);
      SumLast(ys, last, f);
      hide Sum;
      assert (xs + ys)[..|xs| + last] == xs + ys[..last];
      Regroup(Sum(xs, f), Sum(ys[..last], f), f(ys[last]));
    }
  }

  lemma SumOne<X, Y>(x: X, f: X -> multiset<Y>)
    ensures Sum([x], f) == f(x)
  {
    assert [x][..0] == [];
  }

  lemma SumAround<X, Y>(a: seq<X>, zs: seq<X>, b: seq<X>, f: X -> multiset<Y>)
    ensures Sum(a + zs + b, f) == Sum(a, f) + Sum(zs, f) + Sum(b, f)
  {
    SumConcat(a + zs, b, f);
    SumConcat(a, zs, f);
  }

  lemma Shuffle<Y>(a: multiset<Y>, z: multiset<Y>, b: multiset<Y>, x: multiset<Y>)
    ensures (a + z) + b + x == ((a + x) + b) + z
  {}

  /** Taking out the element at i and putting zs there. */
  lemma SumSplice<X, Y>(xs: seq<X>, i: nat, zs: seq<X>, f: X -> multiset<Y>)
    requires i < |xs|
    ensures Sum(xs[..i] + zs + xs[i+1..], f) + f(xs[i]) == Sum(xs, f) + Sum(zs, f)
  {
    hide Sum;
    var a, b := xs[..i], xs[i+1..];
    SumAround(a, zs, b, f);
    SumAround(a, [xs[i]], b, f);
    SumOne(xs[i], f);
    assert xs == a + [xs[i]] + b;
    Shuffle(Sum(a, f), Sum(zs, f), Sum(b, f), f(xs[i]));
  }

  lemma SumUpdate<X, Y>(xs: seq<X>, i: nat, x: X, f: X -> multiset<Y>)
    requires i < |xs|
    ensures Sum(xs[i := x], f) + f(xs[i]) == Sum(xs, f) + f(x)
  {
    SumSplice(xs, i, [x], f);
    SumOne(x, f);
    assert xs[i := x] == xs[..i] + [x] + xs[i+1..];
  }

  lemma SumRemove<X, Y>(xs: seq<X>, i: nat, f: X -> multiset<Y>)
    requires i < |xs|
    ensures Sum(xs[..i] + xs[i+1..], f) + f(xs[i]) == Sum(xs, f)
  {
    SumSplice(xs, i, [], f);
    assert xs[..i] + [] + xs[i+1..] == xs[..i] + xs[i+1..];
  }

  /** Two elements contribute side by side. */
  lemma SumTwo<X, Y>(xs: seq<X>, i: nat, j: nat, f: X -> multiset<Y>)
    requires i < j < |xs|
    ensures f(xs[i]) + f(xs[j]) <= Sum(xs, f)
  {
    SumRemove(xs, j, f);
    var rest := xs[..j] + xs[j+1..];
    SumRemove(rest, i, f);
    assert rest[i] == xs[i];
  }

  lemma SumMember<X, Y>(xs: seq<X>, i: nat, f: X -> multiset<Y>)
    requires i < |xs|
    ensures f(xs[i]) <= Sum(xs, f)
  {
    SumRemove(xs, i, f);
  }

  lemma {:induction false} SumEmpty<X, Y>(xs: seq<X>, f: X -> multiset<Y>)
    requires forall i :: 0 <= i < |xs| ==> f(xs[i]) == multiset{}
    ensures Sum(xs, f) == multiset{}
  {
    if xs != [] {
      SumEmpty(xs[..|xs| - 1], f);
    }
  }

  // ---------------------------------------------------------------- over the values of a map

  ghost function SumMap<K, X, Y>(m: map<K, X>, f: X -> multiset<Y>): multiset<Y> {
    if m == map[] then multiset{}
    else
      var k :| k in m;
      f(m[k]) + SumMap(m - {k}, f)
  }

  lemma {:induction false} SumMapTake<K, X, Y>(m: map<K, X>, k: K, f: X -> multiset<Y>)
    requires k in m
    ensures SumMap(m, f) == f(m[k]) + SumMap(m - {k}, f)
    decreases |m|
  {
    var j :| j in m && SumMap(m, f) == f(m[j]) + SumMap(m - {j}, f);
    if j != k {
      SumMapTake(m - {j}, k, f);
      SumMapTake(m - {k}, j, f);
      assert m - {j} - {k} == m - {k} - {j};
    }
  }

  lemma SumMapPut<K, X, Y>(m: map<K, X>, k: K, x: X, f: X -> multiset<Y>)
    requires k !in m
    ensures SumMap(m[k := x], f) == f(x) + SumMap(m, f)
  {
    SumMapTake(m[k := x], k, f);
    assert m[k := x] - {k} == m;
  }
}
