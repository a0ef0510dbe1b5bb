/** Shared vocabulary: optional values and sums over finite maps. */
module Common {

  datatype Option<+T> = None | Some(value: T)

  predicate Distinct<T(==)>(s: seq<T>) {
    forall i, j :: 0 <= i < j < |s| ==> s[i] != s[j]
  }

  /** Position of the first occurrence of `x`, or the length when it does not occur. */
  function IndexOf<T(==)>(s: seq<T>, x: T): (i: nat)
    ensures i <= |s|
    ensures i < |s| <==> x in s
    ensures i < |s| ==> s[i] == x
  {
    if s == [] then 0 else if s[0] == x then 0 else 1 + IndexOf(s[1..], x)
  }

  /** `s` with every occurrence of `x` removed, order kept. */
  function Without<T(==, !new)>(s: seq<T>, x: T): (r: seq<T>)
    ensures forall y :: y in r <==> y in s && y != x
  {
    if s == [] then []
    else
      var rest := Without(s[1..], x);
      assert forall y :: y in s <==> y == s[0] || y in s[1..];
      if s[0] == x then rest else [s[0]] + rest
  }

  lemma {:induction false} WithoutDistinct<T(!new)>(s: seq<T>, x: T)
    requires Distinct(s)
    ensures Distinct(Without(s, x))
  {
    if s != [] {
      WithoutDistinct(s[1..], x);
      assert s[0] !in s[1..];
      assert s[0] !in Without(s[1..], x);
    }
  }

  ghost function AnyKey<K, V>(m: map<K, V>): (k: K)
    requires m.Keys != {}
    ensures k in m
  {
    var k :| k in m.Keys;
    k
  }

  /** Sum of `f` over the values of a finite map. */
  ghost function SumBy<K, V>(m: map<K, V>, f: V -> nat): nat
    decreases m.Keys
  {
    if m.Keys == {} then 0
    else
      var k := AnyKey(m);
      f(m[k]) + SumBy(m - {k}, f)
  }

  lemma {:induction false} SumRemove<K, V>(m: map<K, V>, k: K, f: V -> nat)
    requires k in m
    ensures SumBy(m, f) == f(m[k]) + SumBy(m - {k}, f)
    decreases m.Keys
  {
    var j := AnyKey(m);
    if j != k {
      var withoutJ, withoutK := m - {j}, m - {k};
      assert withoutJ.Keys == m.Keys - {j} && withoutK.Keys == m.Keys - {k};
      assert withoutJ - {k} == withoutK - {j};
      SumRemove(withoutJ, k, f);
      SumRemove(withoutK, j, f);
    }
  }

  lemma SumUpdate<K, V>(m: map<K, V>, k: K, v: V, f: V -> nat)
    ensures SumBy(m[k := v], f) == f(v) + SumBy(m - {k}, f)
    ensures k !in m ==> SumBy(m[k := v], f) == f(v) + SumBy(m, f)
    ensures k in m ==> SumBy(m[k := v], f) + f(m[k]) == f(v) + SumBy(m, f)
  {
    SumRemove(m[k := v], k, f);
    assert m[k := v] - {k} == m - {k};
    if k in m {
      SumRemove(m, k, f);
    } else {
      assert m - {k} == m;
    }
  }

  /** Two maps with the same keys whose values are pointwise equal under `f` have the same sum. */
  lemma {:induction false} SumSame<K, V>(m: map<K, V>, n: map<K, V>, f: V -> nat)
    requires m.Keys == n.Keys
    requires forall k :: k in m ==> f(m[k]) == f(n[k])
    ensures SumBy(m, f) == SumBy(n, f)
    decreases m.Keys
  {
    if m.Keys != {} {
      var k := AnyKey(m);
      SumRemove(m, k, f);
      SumRemove(n, k, f);
      assert (m - {k}).Keys == (n - {k}).Keys;
      SumSame(m - {k}, n - {k}, f);
    }
  }

  /** Pointwise domination lifts to sums. */
  lemma {:induction false} SumBelow<K, V>(m: map<K, V>, f: V -> nat, g: V -> nat)
    requires forall k :: k in m ==> f(m[k]) <= g(m[k])
    ensures SumBy(m, f) <= SumBy(m, g)
    decreases m.Keys
  {
    if m.Keys != {} {
      var k := AnyKey(m);
      SumRemove(m, k, f);
      SumRemove(m, k, g);
      SumBelow(m - {k}, f, g);
    }
  }

  /** Dropping keys and lowering values lowers the sum. */
  lemma {:induction false} SumShrinks<K, V>(m: map<K, V>, n: map<K, V>, f: V -> nat)
    requires n.Keys <= m.Keys
    requires forall k :: k in n ==> f(n[k]) <= f(m[k])
    ensures SumBy(n, f) <= SumBy(m, f)
    decreases m.Keys
  {
    if m.Keys != {} {
      var k := AnyKey(m);
      SumRemove(m, k, f);
      if k in n {
        SumRemove(n, k, f);
        SumShrinks(m - {k}, n - {k}, f);
      } else {
        SumShrinks(m - {k}, n, f);
      }
    }
  }

  /** Maps that agree under `f`, absent keys counting zero, have the same sum. */
  lemma {:induction false} SumAgrees<K, V>(m: map<K, V>, n: map<K, V>, f: V -> nat)
    requires forall k :: k in m && k in n ==> f(m[k]) == f(n[k])
    requires forall k :: k in m && k !in n ==> f(m[k]) == 0
    requires forall k :: k in n && k !in m ==> f(n[k]) == 0
    ensures SumBy(m, f) == SumBy(n, f)
    decreases m.Keys + n.Keys
  {
    if m.Keys != {} {
      var k := AnyKey(m);
      SumRemove(m, k, f);
      if k in n { SumRemove(n, k, f); }
      assert (m - {k}).Keys + (n - {k}).Keys < m.Keys + n.Keys;
      SumAgrees(m - {k}, n - {k}, f);
      if k !in n { assert n - {k} == n; }
    } else if n.Keys != {} {
      var k := AnyKey(n);
      SumRemove(n, k, f);
      assert m - {k} == m;
      assert (n - {k}).Keys < n.Keys;
      SumAgrees(m, n - {k}, f);
    }
  }

  /** The loop that adds `f` up over a table, in whatever order the table is walked. */
  method Total<K(==), V>(m: map<K, V>, f: V -> nat) returns (sum: nat)
    ensures sum == SumBy(m, f)
  {
    var rest := m;
    sum := 0;
    while rest.Keys != {}
      invariant sum + SumBy(rest, f) == SumBy(m, f)
      decreases rest.Keys
    {
      var k :| k in rest.Keys;
      SumRemove(rest, k, f);
      sum := sum + f(rest[k]);
      rest := rest - {k};
    }
  }

  /** The elements of a set, each once, in some order. */
  method Listing<T(==)>(s: set<T>) returns (listed: seq<T>)
    ensures Distinct(listed) && forall x :: x in listed <==> x in s
  {
    var rest := s;
    listed := [];
    while rest != {}
      invariant rest <= s && Distinct(listed)
      invariant forall x :: x in listed <==> x in s && x !in rest
      decreases rest
    {
      var x :| x in rest;
      assert x !in listed;
      rest := rest - {x};
      listed := listed + [x];
    }
  }

  /** `s` without the first occurrence of `x`. */
  function RemoveFirst<T(==)>(s: seq<T>, x: T): seq<T> {
    if s == [] then [] else if s[0] == x then s[1..] else [s[0]] + RemoveFirst(s[1..], x)
  }

  lemma {:induction false} RemoveFirstOfDistinct<T(!new)>(s: seq<T>, x: T)
    requires Distinct(s)
    ensures RemoveFirst(s, x) == Without(s, x)
  {
    if s != [] {
      RemoveFirstOfDistinct(s[1..], x);
      if s[0] == x { WithoutAbsent(s[1..], x); }
    }
  }

  lemma {:induction false} WithoutAbsent<T(!new)>(s: seq<T>, x: T)
    requires x !in s
    ensures Without(s, x) == s
  {
    if s != [] { WithoutAbsent(s[1..], x); }
  }
}
