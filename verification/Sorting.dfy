/** Sorting by a text key, and distinct keys in lists and multisets. */
module Sorting {
  import opened Identifiers

  predicate NotAfter(a: string, b: string) {
    !StringLess(b, a)
  }

  lemma NotAfterTransitive(a: string, b: string, c: string)
    requires NotAfter(a, b) && NotAfter(b, c)
    ensures NotAfter(a, c)
  {
    StringLessTotal(a, b);
    StringLessTotal(b, c);
    StringLessIrreflexive(a);
    if a != b && b != c {
      StringLessTransitive(a, b, c);
      StringLessAsymmetric(a, c);
    }
  }

  predicate SortedBy<T>(items: seq<T>, key: T -> string) {
    forall i, j | 0 <= i < j < |items| :: NotAfter(key(items[i]), key(items[j]))
  }

  method SortClone<T>(items: seq<T>, key: T -> string) returns (r: seq<T>)
    ensures SortedBy(r, key) && multiset(r) == multiset(items)
  {
    hide StringLess;
    r := [];
    for n := 0 to |items|
      invariant SortedBy(r, key) && multiset(r) == multiset(items[..n])
    {
      var x := items[n];
      assert items[..n + 1] == items[..n] + [x];
      var i := 0;
      while i < |r| && NotAfter(key(r[i]), key(x))
        invariant 0 <= i <= |r| && forall j | 0 <= j < i :: NotAfter(key(r[j]), key(x))
      {
        i := i + 1;
      }
      InsertSorted(r, key, x, i);
      assert r == r[..i] + r[i..];
      r := r[..i] + [x] + r[i..];
    }
    assert items[..|items|] == items;
  }

  lemma InsertSorted<T>(r: seq<T>, key: T -> string, x: T, i: nat)
    requires SortedBy(r, key) && i <= |r| && (forall j | 0 <= j < i :: NotAfter(key(r[j]), key(x)))
    requires i < |r| ==> !NotAfter(key(r[i]), key(x))
    ensures SortedBy(r[..i] + [x] + r[i..], key)
  {
    if i < |r| {
      StringLessAsymmetric(key(x), key(r[i]));
    }
    hide StringLess;
    var s := r[..i] + [x] + r[i..];
    forall j | i <= j < |r|
      ensures NotAfter(key(x), key(r[j]))
    {
      if i < j {
        NotAfterTransitive(key(x), key(r[i]), key(r[j]));
      }
    }
  }

  // Distinct keys in a list are unique keys in its multiset.

  /** No key occurs twice, said of a collection without order. */
  ghost predicate UniqueKeys<T(!new)>(m: multiset<T>, key: T -> string) {
    && (forall x | x in m :: m[x] == 1)
    && forall x, y | x in m && y in m && key(x) == key(y) :: x == y
  }

  ghost predicate KeysDistinct<T>(s: seq<T>, key: T -> string) {
    forall i, j | 0 <= i < j < |s| :: key(s[i]) != key(s[j])
  }

  lemma {:induction false} DistinctCount<T(!new)>(s: seq<T>, key: T -> string, x: T)
    requires KeysDistinct(s, key) && x in s
    ensures multiset(s)[x] == 1
  {
    var init, last := s[..|s| - 1], s[|s| - 1];
    assert s == init + [last];
    if x in init {
      DistinctCount(init, key, x);
      assert key(last) != key(x);
    } else {
      assert x !in multiset(init);
    }
  }

  lemma TwiceCount<T(!new)>(s: seq<T>, i: int, j: int)
    requires 0 <= i < j < |s| && s[i] == s[j]
    ensures multiset(s)[s[i]] >= 2
  {
    assert s == s[..i] + [s[i]] + s[i + 1..j] + [s[j]] + s[j + 1..];
  }

  lemma DistinctIsUnique<T(!new)>(s: seq<T>, key: T -> string)
    ensures KeysDistinct(s, key) <==> UniqueKeys(multiset(s), key)
  {
    if KeysDistinct(s, key) {
      forall x | x in multiset(s)
        ensures multiset(s)[x] == 1
      {
        DistinctCount(s, key, x);
      }
    }
    if UniqueKeys(multiset(s), key) {
      forall i, j | 0 <= i < j < |s|
        ensures key(s[i]) != key(s[j])
      {
        assert s[i] in multiset(s) && s[j] in multiset(s);
        if s[i] == s[j] {
          TwiceCount(s, i, j);
        }
      }
    }
  }
}
