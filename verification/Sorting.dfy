/** Python's `sorted(..., key=...)`: the stable sort by a pair of integers, with what the
    callers rely on: it permutes, it orders, equal keys keep their order, and on distinct keys
    the outcome does not depend on the order of arrival. */
module Sorting {
  predicate LessEq(a: (int, int), b: (int, int)) {
    a.0 < b.0 || (a.0 == b.0 && a.1 <= b.1)
  }

  function Insert<T>(x: T, s: seq<T>, key: T -> (int, int)): seq<T> {
    if s == [] || LessEq(key(x), key(s[0])) then [x] + s
    else [s[0]] + Insert(x, s[1..], key)
  }

  function Sort<T>(s: seq<T>, key: T -> (int, int)): seq<T> {
    if s == [] then [] else Insert(s[0], Sort(s[1..], key), key)
  }

  function WithKey<T>(s: seq<T>, key: T -> (int, int), k: (int, int)): seq<T> {
    if s == [] then []
    else (if key(s[0]) == k then [s[0]] else []) + WithKey(s[1..], key, k)
  }

  ghost predicate Ordered<T>(s: seq<T>, key: T -> (int, int)) {
    forall i, j :: 0 <= i < j < |s| ==> LessEq(key(s[i]), key(s[j]))
  }

  ghost predicate DistinctKeys<T>(s: seq<T>, key: T -> (int, int)) {
    forall i, j :: 0 <= i < j < |s| ==> key(s[i]) != key(s[j])
  }

  lemma {:induction false} InsertPermutes<T>(x: T, s: seq<T>, key: T -> (int, int))
    ensures multiset(Insert(x, s, key)) == multiset(s) + multiset{x}
  {
    if !(s == [] || LessEq(key(x), key(s[0]))) {
      InsertPermutes(x, s[1..], key);
      assert s == [s[0]] + s[1..];
    }
  }

  lemma {:induction false} SortPermutes<T>(s: seq<T>, key: T -> (int, int))
    ensures multiset(Sort(s, key)) == multiset(s)
    ensures |Sort(s, key)| == |s|
  {
    if s != [] {
      SortPermutes(s[1..], key);
      InsertPermutes(s[0], Sort(s[1..], key), key);
      assert s == [s[0]] + s[1..];
      assert |multiset(Sort(s, key))| == |multiset(s)|;
    }
  }

  lemma SameMembers<T>(a: seq<T>, b: seq<T>)
    requires multiset(a) == multiset(b)
    ensures forall x :: x in a <==> x in b
    ensures |a| == |b|
  {
    forall x
      ensures x in a <==> x in b
    {
      assert x in a <==> x in multiset(a);
      assert x in b <==> x in multiset(b);
    }
    assert |a| == |multiset(a)| && |b| == |multiset(b)|;
  }

  lemma ConsOrders<T>(x: T, s: seq<T>, key: T -> (int, int))
    requires Ordered(s, key) && forall y :: y in s ==> LessEq(key(x), key(y))
    ensures Ordered([x] + s, key)
  {
    var t := [x] + s;
    forall i, j | 0 <= i < j < |t|
      ensures LessEq(key(t[i]), key(t[j]))
    {
      assert t[j] == s[j - 1];
      assert i > 0 ==> t[i] == s[i - 1];
    }
  }

  lemma {:induction false} InsertMembers<T>(x: T, s: seq<T>, key: T -> (int, int))
    ensures forall y :: y in Insert(x, s, key) ==> y == x || y in s
  {
    if !(s == [] || LessEq(key(x), key(s[0]))) {
      InsertMembers(x, s[1..], key);
    }
  }

  lemma {:induction false} InsertOrders<T>(x: T, s: seq<T>, key: T -> (int, int))
    requires Ordered(s, key)
    ensures Ordered(Insert(x, s, key), key)
  {
    if s == [] || LessEq(key(x), key(s[0])) {
      forall y | y in s
        ensures LessEq(key(x), key(y))
      {
        assert LessEq(key(s[0]), key(s[0]));
      }
      ConsOrders(x, s, key);
    } else {
      InsertOrders(x, s[1..], key);
      InsertMembers(x, s[1..], key);
      ConsOrders(s[0], Insert(x, s[1..], key), key);
    }
  }

  lemma {:induction false} SortOrders<T>(s: seq<T>, key: T -> (int, int))
    ensures Ordered(Sort(s, key), key)
  {
    if s != [] {
      SortOrders(s[1..], key);
      InsertOrders(s[0], Sort(s[1..], key), key);
    }
  }

  lemma {:induction false} InsertIsStable<T>(x: T, s: seq<T>, key: T -> (int, int), k: (int, int))
    ensures WithKey(Insert(x, s, key), key, k) == (if key(x) == k then [x] else []) + WithKey(s, key, k)
  {
    if s == [] || LessEq(key(x), key(s[0])) {
      assert Insert(x, s, key)[1..] == s;
    } else {
      assert Insert(x, s, key)[1..] == Insert(x, s[1..], key);
      InsertIsStable(x, s[1..], key, k);
    }
  }

  /** Elements with the same key stay in the order they came in. */
  lemma {:induction false} SortIsStable<T>(s: seq<T>, key: T -> (int, int), k: (int, int))
    ensures WithKey(Sort(s, key), key, k) == WithKey(s, key, k)
  {
    if s != [] {
      SortIsStable(s[1..], key, k);
      InsertIsStable(s[0], Sort(s[1..], key), key, k);
    }
  }

  lemma DistinctKeysPermute<T>(a: seq<T>, b: seq<T>, key: T -> (int, int))
    requires multiset(a) == multiset(b) && DistinctKeys(a, key)
    ensures DistinctKeys(b, key)
  {
    forall i, j | 0 <= i < j < |b|
      ensures key(b[i]) != key(b[j])
    {
      if key(b[i]) == key(b[j]) {
        SameMembers(a, b);
        assert b[i] in a && b[j] in a;
        var p :| 0 <= p < |a| && a[p] == b[i];
        var q :| 0 <= q < |a| && a[q] == b[j];
        assert p == q;
        assert b == b[..i] + ([b[i]] + (b[i + 1..j] + ([b[j]] + b[j + 1..])));
        assert multiset(b)[b[i]] >= 2;
        OnceByKey(a, key, p);
      }
    }
  }

  lemma OnceByKey<T>(a: seq<T>, key: T -> (int, int), p: nat)
    requires DistinctKeys(a, key) && p < |a|
    ensures multiset(a)[a[p]] == 1
  {
    var before, after := a[..p], a[p + 1..];
    assert a == before + ([a[p]] + after);
    assert forall x :: x in before ==> key(x) != key(a[p]);
    assert forall x :: x in after ==> key(x) != key(a[p]);
    assert a[p] !in before && a[p] !in after;
  }

  /** Two ordered arrangements of the same elements with distinct keys are the same. */
  lemma {:induction false} OrderedIsUnique<T>(a: seq<T>, b: seq<T>, key: T -> (int, int))
    requires multiset(a) == multiset(b) && DistinctKeys(a, key)
    requires Ordered(a, key) && Ordered(b, key)
    ensures a == b
    decreases |a|
  {
    SameMembers(a, b);
    if a != [] {
      HeadsAgree(a, b, key);
      TailMembers(a);
      TailMembers(b);
      TailIsOrdered(a, key);
      TailIsOrdered(b, key);
      OrderedIsUnique(a[1..], b[1..], key);
    }
  }

  lemma TailMembers<T>(s: seq<T>)
    requires s != []
    ensures s == [s[0]] + s[1..]
    ensures multiset(s[1..]) == multiset(s) - multiset{s[0]}
  {
    assert s == [s[0]] + s[1..];
    assert multiset(s) == multiset{s[0]} + multiset(s[1..]);
  }

  lemma TailIsOrdered<T>(s: seq<T>, key: T -> (int, int))
    requires s != [] && Ordered(s, key)
    ensures Ordered(s[1..], key)
    ensures DistinctKeys(s, key) ==> DistinctKeys(s[1..], key)
  {
    var t := s[1..];
    assert forall i :: 0 <= i < |t| ==> t[i] == s[i + 1];
  }

  lemma HeadsAgree<T>(a: seq<T>, b: seq<T>, key: T -> (int, int))
    requires |a| == |b| > 0 && (forall x :: x in a <==> x in b) && DistinctKeys(a, key)
    requires Ordered(a, key) && Ordered(b, key)
    ensures a[0] == b[0]
  {
    assert a[0] in b && b[0] in a;
    var i :| 0 <= i < |a| && a[i] == b[0];
    var j :| 0 <= j < |b| && b[j] == a[0];
  }

  /** On distinct keys, the order of arrival does not matter. */
  lemma SortIgnoresArrival<T>(a: seq<T>, b: seq<T>, key: T -> (int, int))
    requires multiset(a) == multiset(b) && DistinctKeys(a, key)
    ensures Sort(a, key) == Sort(b, key)
  {
    SortPermutes(a, key);
    SortPermutes(b, key);
    SortOrders(a, key);
    SortOrders(b, key);
    DistinctKeysPermute(a, Sort(a, key), key);
    OrderedIsUnique(Sort(a, key), Sort(b, key), key);
  }

  function Backwards<T>(s: seq<T>): (r: seq<T>)
    ensures multiset(r) == multiset(s)
    ensures |r| == |s| && forall i :: 0 <= i < |s| ==> r[i] == s[|s| - 1 - i]
  {
    if s == [] then []
    else
      assert s == [s[0]] + s[1..];
      Backwards(s[1..]) + [s[0]]
  }

  lemma {:induction false} WithKeyConcat<T>(a: seq<T>, b: seq<T>, key: T -> (int, int), k: (int, int))
    ensures WithKey(a + b, key, k) == WithKey(a, key, k) + WithKey(b, key, k)
  {
    if a == [] {
      assert a + b == b;
    } else {
      assert (a + b)[1..] == a[1..] + b;
      WithKeyConcat(a[1..], b, key, k);
    }
  }

  /** With two different elements of equal key, reversing the arrivals changes the outcome. */
  lemma ReversalShows<T>(s: seq<T>, key: T -> (int, int), i: nat, j: nat)
    requires i < j < |s| && key(s[i]) == key(s[j])
    requires forall p, q :: 0 <= p < q < |s| ==> s[p] != s[q]
    ensures Sort(s, key) != Sort(Backwards(s), key)
  {
    var k := key(s[i]);
    var hits := WithKey(s, key, k);
    SortIsStable(s, key, k);
    SortIsStable(Backwards(s), key, k);
    BackwardsWithKey(s, key, k);
    WithKeySplits(s, key, i, j);
    WithKeyDistinct(s, key, k);
    assert Backwards(hits)[0] == hits[|hits| - 1] != hits[0];
  }

  lemma {:induction false} BackwardsWithKey<T>(s: seq<T>, key: T -> (int, int), k: (int, int))
    ensures WithKey(Backwards(s), key, k) == Backwards(WithKey(s, key, k))
  {
    if s != [] {
      BackwardsWithKey(s[1..], key, k);
      WithKeyConcat(Backwards(s[1..]), [s[0]], key, k);
      OneWithKey(s[0], key, k);
      BackwardsCons(s[0], WithKey(s[1..], key, k));
    }
  }

  lemma OneWithKey<T>(x: T, key: T -> (int, int), k: (int, int))
    ensures WithKey([x], key, k) == if key(x) == k then [x] else []
  {
    assert [x][1..] == [];
  }

  lemma BackwardsCons<T>(x: T, s: seq<T>)
    ensures Backwards([x] + s) == Backwards(s) + [x]
    ensures Backwards([] + s) == Backwards(s) + []
  {
    assert ([x] + s)[1..] == s;
    assert [] + s == s;
  }

  lemma WithKeySplits<T>(s: seq<T>, key: T -> (int, int), i: nat, j: nat)
    requires i < j < |s| && key(s[i]) == key(s[j])
    ensures |WithKey(s, key, key(s[i]))| >= 2
  {
    var k := key(s[i]);
    assert s == s[..i] + s[i..];
    WithKeyConcat(s[..i], s[i..], key, k);
    assert s[i..][1..] == s[i + 1..];
    assert s[i + 1..] == s[i + 1..j] + s[j..];
    WithKeyConcat(s[i + 1..j], s[j..], key, k);
  }

  lemma {:induction false} WithKeyDistinct<T>(s: seq<T>, key: T -> (int, int), k: (int, int))
    requires forall p, q :: 0 <= p < q < |s| ==> s[p] != s[q]
    ensures forall p, q :: 0 <= p < q < |WithKey(s, key, k)| ==> WithKey(s, key, k)[p] != WithKey(s, key, k)[q]
    ensures forall x :: x in WithKey(s, key, k) ==> x in s
  {
    if s != [] {
      WithKeyDistinct(s[1..], key, k);
      assert s[0] !in s[1..];
    }
  }
}
