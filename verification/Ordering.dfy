/** Lexicographic keys, and the stable sort by them. */
module Ordering {

  /** Lexicographic order of keys; a proper prefix comes first. */
  predicate Leq(a: seq<int>, b: seq<int>) {
    a == [] || (b != [] && (a[0] < b[0] || (a[0] == b[0] && Leq(a[1..], b[1..]))))
  }

  lemma {:induction false} LeqTotal(a: seq<int>, b: seq<int>)
    ensures Leq(a, b) || Leq(b, a)
  {
    if a != [] && b != [] {
      LeqTotal(a[1..], b[1..]);
    }
  }

  lemma {:induction false} LeqTransitive(a: seq<int>, b: seq<int>, c: seq<int>)
    requires Leq(a, b) && Leq(b, c)
    ensures Leq(a, c)
  {
    if a != [] && a[0] == b[0] && b[0] == c[0] {
      LeqTransitive(a[1..], b[1..], c[1..]);
    }
  }

  lemma {:induction false} LeqAntisymmetric(a: seq<int>, b: seq<int>)
    requires Leq(a, b) && Leq(b, a)
    ensures a == b
  {
    if a != [] {
      LeqAntisymmetric(a[1..], b[1..]);
      assert a == [a[0]] + a[1..] && b == [b[0]] + b[1..];
    }
  }

  // ----- sorting

  ghost predicate Sorted<T>(key: T -> seq<int>, s: seq<T>) {
    forall i, j :: 0 <= i < j < |s| ==> Leq(key(s[i]), key(s[j]))
  }

  /** Puts `x` after every element whose key is no greater. */
  function Insert<T>(key: T -> seq<int>, s: seq<T>, x: T): seq<T> {
    if s == [] || Leq(key(s[|s| - 1]), key(x)) then s + [x]
    else Insert(key, s[..|s| - 1], x) + [s[|s| - 1]]
  }

  /** The stable sort. */
  function SortBy<T>(key: T -> seq<int>, s: seq<T>): seq<T> {
    if s == [] then [] else Insert(key, SortBy(key, s[..|s| - 1]), s[|s| - 1])
  }

  lemma SortOne<T>(key: T -> seq<int>, x: T)
    ensures SortBy(key, [x]) == [x]
  {
    assert [x][..0] == [];
    assert SortBy(key, []) == [];
  }

  lemma {:induction false} InsertSorted<T>(key: T -> seq<int>, s: seq<T>, x: T)
    requires Sorted(key, s)
    ensures Sorted(key, Insert(key, s, x))
    ensures multiset(Insert(key, s, x)) == multiset(s) + multiset{x}
  {
    if s == [] {
    } else if Leq(key(s[|s| - 1]), key(x)) {
      forall i | 0 <= i < |s| ensures Leq(key(s[i]), key(x)) {
        if i < |s| - 1 {
          LeqTransitive(key(s[i]), key(s[|s| - 1]), key(x));
        }
      }
    } else {
      var front, last := s[..|s| - 1], s[|s| - 1];
      InsertSorted(key, front, x);
      assert s == front + [last];
      LeqTotal(key(last), key(x));
      var r := Insert(key, front, x);
      forall i | 0 <= i < |r| ensures Leq(key(r[i]), key(last)) {
        assert r[i] in multiset(r);
        if r[i] != x {
          assert r[i] in front;
        }
      }
    }
  }

  lemma {:induction false} SortBySorts<T>(key: T -> seq<int>, s: seq<T>)
    ensures Sorted(key, SortBy(key, s))
    ensures multiset(SortBy(key, s)) == multiset(s)
    ensures |SortBy(key, s)| == |s|
  {
    if s != [] {
      hide Sorted, Insert;
      SortBySorts(key, s[..|s| - 1]);
      InsertSorted(key, SortBy(key, s[..|s| - 1]), s[|s| - 1]);
      assert s == s[..|s| - 1] + [s[|s| - 1]];
    }
    assert |multiset(SortBy(key, s))| == |multiset(s)|;
  }

  /** Sorting keeps membership. */
  lemma SortedMembers<T>(key: T -> seq<int>, s: seq<T>, x: T)
    ensures x in SortBy(key, s) <==> x in s
  {
    SortBySorts(key, s);
    assert x in SortBy(key, s) <==> x in multiset(SortBy(key, s));
    assert x in s <==> x in multiset(s);
  }

  /** Elements with equal keys are equal. */
  ghost predicate TiesEqual<T>(key: T -> seq<int>, s: seq<T>) {
    forall x, y | x in s && y in s :: key(x) == key(y) ==> x == y
  }

  lemma SameHead<T>(key: T -> seq<int>, a: seq<T>, b: seq<T>)
    requires Sorted(key, a) && Sorted(key, b) && multiset(a) == multiset(b) && a != [] && b != [] && TiesEqual(key, a)
    ensures a[0] == b[0]
  {
    assert a[0] in multiset(b) && b[0] in multiset(a);
    var i :| 0 <= i < |b| && b[i] == a[0];
    var j :| 0 <= j < |a| && a[j] == b[0];
    if i > 0 && j > 0 {
      LeqAntisymmetric(key(a[0]), key(b[0]));
    }
  }

  lemma Cons<T>(a: seq<T>, b: seq<T>)
    requires a != [] && b != [] && a[0] == b[0] && a[1..] == b[1..]
    ensures a == b
  {
    assert a == [a[0]] + a[1..] && b == [b[0]] + b[1..];
  }

  lemma Uncons<T>(s: seq<T>)
    requires s != []
    ensures multiset(s[1..]) == multiset(s) - multiset{s[0]}
  {
    assert s == [s[0]] + s[1..];
  }

  lemma TailFits<T>(key: T -> seq<int>, s: seq<T>)
    requires s != [] && Sorted(key, s)
    ensures Sorted(key, s[1..]) && multiset(s[1..]) == multiset(s) - multiset{s[0]}
    ensures TiesEqual(key, s) ==> TiesEqual(key, s[1..])
  {
    Uncons(s);
    forall x | x in s[1..] ensures x in s {
    }
  }

  /** Two sorted arrangements of the same elements agree when equal keys mean equal elements. */
  lemma {:induction false} SortedIsUnique<T>(key: T -> seq<int>, a: seq<T>, b: seq<T>)
    requires Sorted(key, a) && Sorted(key, b) && multiset(a) == multiset(b) && TiesEqual(key, a)
    ensures a == b
  {
    hide Sorted, TiesEqual;
    assert |multiset(a)| == |multiset(b)|;
    if a != [] {
      SameHead(key, a, b);
      TailFits(key, a);
      TailFits(key, b);
      SortedIsUnique(key, a[1..], b[1..]);
      Cons(a, b);
    }
  }

  /** Sorting does not see the order of its input when equal keys mean equal elements. */
  lemma SortIgnoresOrder<T>(key: T -> seq<int>, a: seq<T>, b: seq<T>)
    requires multiset(a) == multiset(b) && TiesEqual(key, a)
    ensures SortBy(key, a) == SortBy(key, b)
  {
    SortBySorts(key, a);
    SortBySorts(key, b);
    forall x | x in SortBy(key, a) ensures x in a {
      SortedMembers(key, a, x);
    }
    SortedIsUnique(key, SortBy(key, a), SortBy(key, b));
  }
}
