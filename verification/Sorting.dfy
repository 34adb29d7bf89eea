/** Python's ordering of strings (code point by code point) and the built-in `sorted`. */
module Sorting {
  /** `a <= b` on Python strings. */
  predicate Leq(a: string, b: string) {
    |a| == 0 || (|b| > 0 && (a[0] < b[0] || (a[0] == b[0] && Leq(a[1..], b[1..]))))
  }

  lemma {:induction false} LeqTotal(a: string, b: string)
    ensures Leq(a, b) || Leq(b, a)
  {
    if |a| > 0 && |b| > 0 && a[0] == b[0] {
      LeqTotal(a[1..], b[1..]);
    }
  }

  lemma {:induction false} LeqAntisymmetric(a: string, b: string)
    requires Leq(a, b) && Leq(b, a)
    ensures a == b
  {
    if |a| > 0 {
      LeqAntisymmetric(a[1..], b[1..]);
      assert a == [a[0]] + a[1..] && b == [b[0]] + b[1..];
    }
  }

  lemma {:induction false} LeqTransitive(a: string, b: string, c: string)
    requires Leq(a, b) && Leq(b, c)
    ensures Leq(a, c)
  {
    if |a| > 0 && a[0] == b[0] && b[0] == c[0] {
      LeqTransitive(a[1..], b[1..], c[1..]);
    }
  }

  ghost predicate Sorted(s: seq<string>) {
    forall i, j :: 0 <= i < j < |s| ==> Leq(s[i], s[j])
  }

  function Insert(x: string, s: seq<string>): seq<string> {
    if s == [] then [x]
    else if Leq(x, s[0]) then [x] + s
    else [s[0]] + Insert(x, s[1..])
  }

  lemma {:induction false} InsertAdds(x: string, s: seq<string>)
    ensures multiset(Insert(x, s)) == multiset(s) + multiset{x}
    ensures forall y :: y in Insert(x, s) ==> y == x || y in s
  {
    if s != [] {
      InsertAdds(x, s[1..]);
      assert s == [s[0]] + s[1..];
    }
  }

  lemma SortedCons(x: string, s: seq<string>)
    requires Sorted(s) && forall y :: y in s ==> Leq(x, y)
    ensures Sorted([x] + s)
  {
  }

  lemma {:induction false} InsertSorted(x: string, s: seq<string>)
    requires Sorted(s)
    ensures Sorted(Insert(x, s))
    ensures multiset(Insert(x, s)) == multiset(s) + multiset{x}
  {
    InsertAdds(x, s);
    if s == [] {
    } else if Leq(x, s[0]) {
      forall y | y in s ensures Leq(x, y) {
        LeqTotal(s[0], s[0]);
        LeqTransitive(x, s[0], y);
      }
      SortedCons(x, s);
    } else {
      LeqTotal(x, s[0]);
      InsertSorted(x, s[1..]);
      InsertAdds(x, s[1..]);
      assert forall y :: y in s[1..] ==> Leq(s[0], y);
      SortedCons(s[0], Insert(x, s[1..]));
    }
  }

  /** `sorted(xs)` on a list of strings. */
  function SortList(xs: seq<string>): seq<string> {
    if xs == [] then [] else Insert(xs[0], SortList(xs[1..]))
  }

  lemma {:induction false} SortListSorts(xs: seq<string>)
    ensures Sorted(SortList(xs)) && multiset(SortList(xs)) == multiset(xs)
  {
    if xs != [] {
      SortListSorts(xs[1..]);
      InsertSorted(xs[0], SortList(xs[1..]));
      assert xs == [xs[0]] + xs[1..];
    }
  }

  /** A sorted sequence is determined by the multiset of its elements. */
  lemma {:induction false} SortedIsUnique(s: seq<string>, t: seq<string>)
    requires Sorted(s) && Sorted(t) && multiset(s) == multiset(t)
    ensures s == t
  {
    assert |multiset(s)| == |s| && |multiset(t)| == |t|;
    if s != [] {
      SameHead(s, t);
      TailMultiset(s);
      TailMultiset(t);
      SortedIsUnique(s[1..], t[1..]);
      assert s == [s[0]] + s[1..] && t == [t[0]] + t[1..];
    }
  }

  lemma TailMultiset(s: seq<string>)
    requires s != []
    ensures multiset(s[1..]) == multiset(s) - multiset{s[0]}
  {
    assert s == [s[0]] + s[1..];
  }

  lemma SameHead(s: seq<string>, t: seq<string>)
    requires Sorted(s) && Sorted(t) && s != [] && t != [] && multiset(s) == multiset(t)
    ensures s[0] == t[0]
  {
    assert s[0] in multiset(t) && t[0] in multiset(s);
    LeqTotal(s[0], s[0]);
    LeqTotal(t[0], t[0]);
    var i :| 0 <= i < |t| && t[i] == s[0];
    var j :| 0 <= j < |s| && s[j] == t[0];
    assert Leq(t[0], t[i]) && Leq(s[0], s[j]);
    LeqAntisymmetric(s[0], t[0]);
  }

  /** Two lists sort to the same list exactly when one permutes the other. */
  lemma SameSortExactly(xs: seq<string>, ys: seq<string>)
    ensures SortList(xs) == SortList(ys) <==> multiset(xs) == multiset(ys)
  {
    SortListSorts(xs);
    SortListSorts(ys);
    if multiset(xs) == multiset(ys) {
      SortedIsUnique(SortList(xs), SortList(ys));
    }
  }

  /** `sorted(s)` on a set of strings: the one sorted listing of its elements. */
  ghost function SortSet(s: set<string>): (r: seq<string>)
    ensures Sorted(r) && multiset(r) == multiset(s)
    ensures forall x :: x in r <==> x in s
  {
    if s == {} then []
    else
      var x :| x in s;
      var rest := SortSet(s - {x});
      InsertSorted(x, rest);
      assert multiset(s) == multiset(s - {x}) + multiset{x};
      var r := Insert(x, rest);
      assert forall y :: y in r <==> y in multiset(r);
      r
  }

  /** Sorting a set needs no canonical order of extraction. */
  method Sort(s: set<string>) returns (r: seq<string>)
    ensures r == SortSet(s)
  {
    r := [];
    var rest := s;
    while rest != {}
      invariant rest <= s
      invariant Sorted(r) && multiset(r) == multiset(s - rest)
    {
      var x :| x in rest;
      InsertSorted(x, r);
      assert s - (rest - {x}) == (s - rest) + {x};
      r := Insert(x, r);
      rest := rest - {x};
    }
    assert s - rest == s;
    SortedIsUnique(r, SortSet(s));
  }
}
