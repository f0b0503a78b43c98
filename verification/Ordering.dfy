/** Sorting by a total order, and what makes its result unique. */
module Ordering {

  ghost predicate IsOrder<T(!new)>(atMost: (T, T) -> bool) {
    && (forall a, b :: atMost(a, b) || atMost(b, a))
    && (forall a, b, c :: atMost(a, b) && atMost(b, c) ==> atMost(a, c))
  }

  ghost predicate Ordered<T>(s: seq<T>, atMost: (T, T) -> bool) {
    forall i, j :: 0 <= i < j < |s| ==> atMost(s[i], s[j])
  }

  ghost predicate SameItems<T>(a: seq<T>, b: seq<T>) {
    multiset(a) == multiset(b)
  }

  lemma SameItemsSay<T>(a: seq<T>, b: seq<T>)
    requires SameItems(a, b)
    ensures |a| == |b| && forall x :: x in a <==> x in b
  {
    assert |multiset(a)| == |multiset(b)|;
    forall x
      ensures x in a <==> x in b
    {
      assert x in multiset(a) <==> x in multiset(b);
    }
  }

  ghost predicate NoRepeats<T>(s: seq<T>) {
    forall i, j :: 0 <= i < j < |s| ==> s[i] != s[j]
  }

  lemma RepeatsCount<T>(s: seq<T>, i: nat, j: nat)
    requires i < j < |s|
    ensures s[i] == s[j] ==> multiset(s)[s[i]] >= 2
  {
    assert s == s[..j] + [s[j]] + s[j + 1..];
    assert s[i] in s[..j];
  }

  lemma NowhereElse<T>(s: seq<T>, k: nat)
    requires NoRepeats(s) && k < |s|
    ensures s[k] !in s[..k] && s[k] !in s[k + 1..]
  {
  }

  lemma OnceEach<T>(s: seq<T>, x: T)
    requires NoRepeats(s)
    ensures multiset(s)[x] <= 1
  {
    if x in s {
      var k :| 0 <= k < |s| && s[k] == x;
      NowhereElse(s, k);
      assert s == s[..k] + [x] + s[k + 1..];
      assert multiset(s) == multiset(s[..k]) + multiset{x} + multiset(s[k + 1..]);
    }
  }

  lemma SameItemsNoRepeats<T>(a: seq<T>, b: seq<T>)
    requires SameItems(a, b) && NoRepeats(a)
    ensures NoRepeats(b)
  {
    forall i, j | 0 <= i < j < |b|
      ensures b[i] != b[j]
    {
      RepeatsCount(b, i, j);
      OnceEach(a, b[i]);
    }
  }

  lemma HasElement<T(!new)>(s: set<T>)
    requires s != {}
    ensures exists x :: x in s
  {
    assert (forall x :: x !in s) ==> s == {};
  }

  lemma TwoElements<T(!new)>(s: set<T>) returns (a: T, b: T)
    requires |s| > 1
    ensures a in s && b in s && a != b
  {
    HasElement(s);
    a :| a in s;
    assert |s - {a}| > 0 && s - {a} != {};
    HasElement(s - {a});
    b :| b in s - {a};
  }

  lemma AtLeastTwo<T>(s: set<T>, a: T, b: T)
    requires a in s && b in s && a != b
    ensures |s| > 1
  {
    assert s == {a, b} + (s - {a, b});
  }

  lemma WithoutOne<T>(a: seq<T>, b: seq<T>, k: nat)
    requires SameItems(a, b) && a != [] && k < |b| && b[k] == a[|a| - 1]
    ensures SameItems(a[..|a| - 1], b[..k] + b[k + 1..])
  {
    assert a == a[..|a| - 1] + [b[k]];
    assert b == b[..k] + [b[k]] + b[k + 1..];
    assert multiset(a[..|a| - 1]) == multiset(a) - multiset{b[k]};
    assert multiset(b[..k] + b[k + 1..]) == multiset(b) - multiset{b[k]};
  }

  // ---------- filtering ----------

  function Filter<T>(s: seq<T>, p: T -> bool): seq<T> {
    if s == [] then []
    else Filter(s[..|s| - 1], p) + if p(s[|s| - 1]) then [s[|s| - 1]] else []
  }

  lemma FilterAppend<T>(s: seq<T>, x: T, p: T -> bool)
    ensures Filter(s + [x], p) == if p(x) then Filter(s, p) + [x] else Filter(s, p)
  {
    assert (s + [x])[..|s|] == s;
  }

  lemma {:induction false} FilterHas<T>(s: seq<T>, p: T -> bool)
    ensures forall x :: x in Filter(s, p) <==> x in s && p(x)
    decreases |s|
  {
    if s != [] {
      FilterHas(s[..|s| - 1], p);
      assert s == s[..|s| - 1] + [s[|s| - 1]];
    }
  }

  /** What a filter keeps is part of the whole, in order. */
  lemma {:induction false} FilterIsPart<T>(s: seq<T>, p: T -> bool)
    ensures multiset(Filter(s, p)) <= multiset(s)
    decreases |s|
  {
    if s != [] {
      var init, x := s[..|s| - 1], s[|s| - 1];
      FilterIsPart(init, p);
      assert s == init + [x];
      FilterAppend(init, x, p);
      PartGrows(multiset(Filter(init, p)), multiset(init), x);
    }
  }

  lemma PartGrows<T>(part: multiset<T>, whole: multiset<T>, x: T)
    requires part <= whole
    ensures part + multiset{x} <= whole + multiset{x} && part <= whole + multiset{x}
  {
  }

  lemma {:induction false} FilterPrefix<T>(s: seq<T>, n: nat, p: T -> bool)
    requires n <= |s|
    ensures Filter(s[..n], p) <= Filter(s, p)
    decreases |s|
  {
    if n == |s| {
      assert s[..n] == s;
    } else {
      assert s[..|s| - 1][..n] == s[..n];
      FilterPrefix(s[..|s| - 1], n, p);
    }
  }

  // ---------- counting ----------

  function Count<T>(s: seq<T>, p: T -> bool): nat {
    if s == [] then 0
    else Count(s[..|s| - 1], p) + if p(s[|s| - 1]) then 1 else 0
  }

  lemma {:induction false} CountConcat<T>(a: seq<T>, b: seq<T>, p: T -> bool)
    ensures Count(a + b, p) == Count(a, p) + Count(b, p)
    decreases |b|
  {
    if b == [] {
      assert a + b == a;
    } else {
      assert (a + b)[..|a + b| - 1] == a + b[..|b| - 1];
      CountConcat(a, b[..|b| - 1], p);
    }
  }

  lemma {:induction false} CountIgnoresOrder<T>(a: seq<T>, b: seq<T>, p: T -> bool)
    requires SameItems(a, b)
    ensures Count(a, p) == Count(b, p)
    decreases |a|
  {
    SameItemsSay(a, b);
    if a != [] {
      var last := |a| - 1;
      assert a[last] in a && a[last] in b;
      var k :| 0 <= k < |b| && b[k] == a[last];
      WithoutOne(a, b, k);
      CountIgnoresOrder(a[..last], b[..k] + b[k + 1..], p);
      assert b == b[..k] + ([b[k]] + b[k + 1..]);
      CountConcat(b[..k], [b[k]] + b[k + 1..], p);
      CountConcat([b[k]], b[k + 1..], p);
      CountConcat(b[..k], b[k + 1..], p);
      assert Count([b[k]], p) == if p(b[k]) then 1 else 0;
    }
  }

  // ---------- distinct attributes ----------

  ghost predicate DistinctBy<T, K>(s: seq<T>, f: T -> K) {
    forall i, j :: 0 <= i < j < |s| ==> f(s[i]) != f(s[j])
  }

  function Image<T(==), K(==)>(s: seq<T>, f: T -> K): set<K> {
    set x | x in s :: f(x)
  }

  lemma OneMoreInImage<T, K>(s: seq<T>, x: T, f: T -> K)
    ensures Image(s + [x], f) == Image(s, f) + {f(x)}
    ensures DistinctBy(s + [x], f) <==> DistinctBy(s, f) && f(x) !in Image(s, f)
  {
    var all := s + [x];
    if DistinctBy(all, f) {
      assert forall i :: 0 <= i < |s| ==> all[i] == s[i] && all[|s|] == x;
    }
  }

  /** Comparing a list's length with its set of attributes tells whether these are distinct. */
  lemma {:induction false} CountingDecides<T, K>(s: seq<T>, f: T -> K)
    ensures |Image(s, f)| <= |s|
    ensures |Image(s, f)| == |s| <==> DistinctBy(s, f)
    decreases |s|
  {
    if s != [] {
      hide Image, DistinctBy;
      var last := |s| - 1;
      CountingDecides(s[..last], f);
      OneMoreInImage(s[..last], s[last], f);
      assert s == s[..last] + [s[last]];
    }
  }

  /** What is distinct stays distinct in every part, in whatever order. */
  lemma PartsStayDistinct<T, K>(part: seq<T>, whole: seq<T>, f: T -> K)
    requires multiset(part) <= multiset(whole) && DistinctBy(whole, f)
    ensures DistinctBy(part, f)
  {
    assert NoRepeats(whole);
    forall i, j | 0 <= i < j < |part|
      ensures f(part[i]) != f(part[j])
    {
      RepeatsCount(part, i, j);
      OnceEach(whole, part[i]);
      assert part[i] in multiset(part) && part[j] in multiset(part);
      var k :| 0 <= k < |whole| && whole[k] == part[i];
      var l :| 0 <= l < |whole| && whole[l] == part[j];
      assert k != l;
    }
  }

  lemma DistinctIgnoresOrder<T, K>(a: seq<T>, b: seq<T>, f: T -> K)
    requires SameItems(a, b)
    ensures DistinctBy(a, f) <==> DistinctBy(b, f)
  {
    if DistinctBy(a, f) { PartsStayDistinct(b, a, f); }
    if DistinctBy(b, f) { PartsStayDistinct(a, b, f); }
  }

  // ---------- sorting ----------

  method Insert<T(!new)>(x: T, s: seq<T>, atMost: (T, T) -> bool) returns (r: seq<T>)
    requires IsOrder(atMost) && Ordered(s, atMost)
    ensures Ordered(r, atMost) && SameItems(r, s + [x])
  {
    hide IsOrder, Ordered;
    var i := 0;
    while i < |s| && atMost(s[i], x)
      invariant 0 <= i <= |s|
      invariant forall k :: 0 <= k < i ==> atMost(s[k], x)
    {
      i := i + 1;
    }
    r := s[..i] + [x] + s[i..];
    StillOrdered(x, s, i, atMost);
    assert s == s[..i] + s[i..];
  }

  lemma StillOrdered<T(!new)>(x: T, s: seq<T>, i: nat, atMost: (T, T) -> bool)
    requires IsOrder(atMost) && Ordered(s, atMost) && i <= |s|
    requires forall k :: 0 <= k < i ==> atMost(s[k], x)
    requires i < |s| ==> !atMost(s[i], x)
    ensures Ordered(s[..i] + [x] + s[i..], atMost)
  {
    var r := s[..i] + [x] + s[i..];
    forall j, k | 0 <= j < k < |r|
      ensures atMost(r[j], r[k])
    {
      if j == i {
        assert r[k] == s[k - 1];
        assert atMost(x, s[i]);
        assert k - 1 == i || atMost(s[i], s[k - 1]);
      } else {
        var before := if j < i then j else j - 1;
        assert r[j] == s[before];
        if k != i {
          var after := if k < i then k else k - 1;
          assert r[k] == s[after] && before < after;
        }
      }
    }
  }

  method Sort<T(!new)>(s: seq<T>, atMost: (T, T) -> bool) returns (r: seq<T>)
    requires IsOrder(atMost)
    ensures Ordered(r, atMost) && SameItems(r, s)
  {
    hide IsOrder, Ordered;
    r := [];
    NothingIsOrdered(atMost);
    for i := 0 to |s|
      invariant Ordered(r, atMost) && SameItems(r, s[..i])
    {
      r := Insert(s[i], r, atMost);
      assert s[..i + 1] == s[..i] + [s[i]];
    }
    assert s[..|s|] == s;
  }

  lemma NothingIsOrdered<T>(atMost: (T, T) -> bool)
    ensures Ordered([], atMost)
  {
  }

  /** Two sequences in strict order with the same elements are equal. */
  lemma {:induction false} StrictOrderIsUnique<T(!new)>(a: seq<T>, b: seq<T>, rank: T -> int)
    requires forall i, j :: 0 <= i < j < |a| ==> rank(a[i]) < rank(a[j])
    requires forall i, j :: 0 <= i < j < |b| ==> rank(b[i]) < rank(b[j])
    requires forall x :: x in a <==> x in b
    ensures a == b
    decreases |a|
  {
    FirstInside(a);
    FirstInside(b);
    if a != [] && b != [] {
      SameFirst(a, b, rank);
      StrictOrderIsUnique(a[1..], b[1..], rank);
      assert a == [a[0]] + a[1..] && b == [b[0]] + b[1..];
    }
  }

  lemma SameFirst<T(!new)>(a: seq<T>, b: seq<T>, rank: T -> int)
    requires forall i, j :: 0 <= i < j < |a| ==> rank(a[i]) < rank(a[j])
    requires forall i, j :: 0 <= i < j < |b| ==> rank(b[i]) < rank(b[j])
    requires a != [] && b != [] && forall x :: x in a <==> x in b
    ensures a[0] == b[0] && forall x :: x in a[1..] <==> x in b[1..]
  {
    FirstIsLeast(a, rank);
    FirstIsLeast(b, rank);
    assert a[0] in b && b[0] in a;
  }

  lemma FirstIsLeast<T(!new)>(a: seq<T>, rank: T -> int)
    requires a != [] && forall i, j :: 0 <= i < j < |a| ==> rank(a[i]) < rank(a[j])
    ensures a[0] in a && forall x :: x in a ==> x == a[0] || rank(a[0]) < rank(x)
    ensures forall x :: x in a[1..] <==> x in a && x != a[0]
  {
    var rest := a[1..];
    assert a == [a[0]] + rest;
    forall i | 0 <= i < |rest|
      ensures rank(a[0]) < rank(rest[i])
    {
      assert rest[i] == a[i + 1];
    }
    assert a[0] !in rest;
  }

  lemma FirstInside<T(!new)>(s: seq<T>)
    ensures s != [] ==> exists x :: x in s
  {
    if s != [] {
      assert s[0] in s;
    }
  }

  lemma NothingInside<T(!new)>(s: seq<T>)
    requires forall x :: x !in s
    ensures s == []
  {
    FirstInside(s);
  }
}
