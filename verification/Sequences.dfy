/** Sequences without repetition, and how often an element occurs. */
module Sequences {
  predicate Distinct<X(==)>(s: seq<X>) {
    forall i, j :: 0 <= i < j < |s| ==> s[i] != s[j]
  }

  // No element of one occurs in the other, and neither repeats one.
  predicate Apart<X(==)>(a: seq<X>, b: seq<X>) {
    && Distinct(a) && Distinct(b)
    && (forall k, m :: 0 <= k < |a| && 0 <= m < |b| ==> a[k] != b[m])
  }

  function Elements<X>(s: seq<X>): set<X> { set x | x in s }

  function Times<X(==)>(s: seq<X>, x: X): nat { multiset(s)[x] }

  function Reversed<X>(s: seq<X>): (r: seq<X>)
  {
    seq(|s|, k requires 0 <= k < |s| => s[|s| - 1 - k])
  }

  function Repeat<X>(x: X, n: nat): seq<X> { seq(n, _ => x) }

  lemma {:induction false} DistinctCount<X>(s: seq<X>)
    requires Distinct(s)
    ensures |Elements(s)| == |s|
  {
    if s == [] {
      assert Elements(s) == {};
    } else {
      var n := |s| - 1;
      DistinctCount(s[..n]);
      ElementsSnoc(s[..n], s[n]);
      assert s[..n] + [s[n]] == s;
    }
  }

  lemma ElementsSnoc<X>(s: seq<X>, x: X)
    ensures Elements(s + [x]) == Elements(s) + {x}
  {
    forall y ensures y in Elements(s + [x]) <==> y in Elements(s) + {x} {
      assert y in s + [x] <==> y in s || y == x;
    }
  }

  lemma {:induction false} SubsetOfSameSize<X>(a: set<X>, b: set<X>)
    requires a <= b && |a| == |b|
    ensures a == b
  {
    if a != {} {
      var x :| x in a;
      SubsetOfSameSize(a - {x}, b - {x});
    }
  }

  lemma {:induction false} SubsetSize<X>(a: set<X>, b: set<X>)
    requires a <= b
    ensures |a| <= |b|
  {
    if a != {} {
      var x :| x in a;
      SubsetSize(a - {x}, b - {x});
    }
  }

  lemma {:induction false} ElementsBound<X>(s: seq<X>)
    ensures |Elements(s)| <= |s|
  {
    if s == [] {
      assert Elements(s) == {};
    } else {
      var n := |s| - 1;
      ElementsBound(s[..n]);
      ElementsSnoc(s[..n], s[n]);
      assert s[..n] + [s[n]] == s;
    }
  }

  lemma {:induction false} Backwards<X>(a: seq<X>, b: seq<X>)
    requires |a| == |b|
    requires forall i :: 0 <= i < |a| ==> a[i] == b[|b| - 1 - i]
    ensures multiset(a) == multiset(b)
  {
    if a != [] {
      var n := |b| - 1;
      Backwards(a[1..], b[..n]);
      assert a == [a[0]] + a[1..] && b == b[..n] + [a[0]];
    }
  }

  lemma SameElements<X>(a: seq<X>, b: seq<X>)
    requires multiset(a) == multiset(b)
    ensures Elements(a) == Elements(b) && (Distinct(b) ==> Distinct(a))
  {
    forall x ensures x in a <==> x in b {
      assert x in multiset(a) <==> x in multiset(b);
    }
    forall i, j | 0 <= i < j < |a| && a[i] == a[j] ensures !Distinct(b) {
      Twice(a, i, j);
      if Distinct(b) { OnceEach(b, a[i]); }
    }
  }

  lemma Permuted<X>(a: seq<X>, b: seq<X>)
    requires multiset(a) == multiset(b)
    ensures Elements(a) == Elements(b) && (Distinct(a) <==> Distinct(b))
  {
    SameElements(a, b);
    SameElements(b, a);
  }

  lemma Twice<X>(s: seq<X>, i: int, j: int)
    requires 0 <= i < j < |s| && s[i] == s[j]
    ensures multiset(s)[s[i]] >= 2
  {
    assert s == s[..i] + [s[i]] + s[i + 1..j] + [s[j]] + s[j + 1..];
  }

  lemma {:induction false} OnceEach<X>(s: seq<X>, x: X)
    requires Distinct(s)
    ensures multiset(s)[x] <= 1
  {
    if s != [] {
      var n := |s| - 1;
      OnceEach(s[..n], x);
      assert s == s[..n] + [s[n]];
      assert s[n] !in multiset(s[..n]);
    }
  }

  lemma TimesMore<X>(s: seq<X>, y: X, x: X)
    ensures Times(s + [y], x) == Times(s, x) + if y == x then 1 else 0
    ensures Times(s, x) > 0 <==> x in s
  {
  }

  lemma TimesLess<X>(s: seq<X>, x: X)
    requires s != []
    ensures Times(s, x) == (if s[0] == x then 1 else 0) + Times(s[1..], x)
  {
    assert s == [s[0]] + s[1..];
  }

  lemma TimesUpdate<X>(s: seq<X>, k: nat, y: X, x: X)
    requires k < |s|
    ensures Times(s[k := y], x) + (if s[k] == x then 1 else 0) == Times(s, x) + (if y == x then 1 else 0)
  {
    assert s == s[..k] + [s[k]] + s[k + 1..];
    assert s[k := y] == s[..k] + [y] + s[k + 1..];
  }
}
