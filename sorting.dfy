/**
 * LINQ's `OrderBy(...).ThenBy(...)` chains, as a stable insertion sort over a
 * "comes strictly before" relation, and `Take(n)`.
 */
module Sorting {

  /** `before` is a strict weak order: irreflexive, transitive, and "neither
      before the other" is transitive too (keys compared field by field). */
  ghost predicate StrictWeakOrder<T(!new)>(before: (T, T) -> bool) {
    && (forall a :: !before(a, a))
    && (forall a, b, c :: before(a, b) && before(b, c) ==> before(a, c))
    && (forall a, b, c :: before(a, c) ==> before(a, b) || before(b, c))
  }

  /** No element is strictly before one that precedes it. */
  ghost predicate SortedBy<T>(s: seq<T>, before: (T, T) -> bool) {
    forall i, j :: 0 <= i < j < |s| ==> !before(s[j], s[i])
  }

  /** Puts `x` in front of the first element that does not come strictly before it,
      so that `x` stays ahead of the elements that tie with it. */
  function Insert<T>(x: T, s: seq<T>, before: (T, T) -> bool): seq<T> {
    if |s| == 0 then [x]
    else if !before(s[0], x) then [x] + s
    else [s[0]] + Insert(x, s[1..], before)
  }

  /** A stable sort: ties keep their order of appearance in `s`. */
  function SortBy<T>(s: seq<T>, before: (T, T) -> bool): seq<T> {
    if |s| == 0 then [] else Insert(s[0], SortBy(s[1..], before), before)
  }

  /** `Enumerable.Take(n)`. */
  function Take<T>(s: seq<T>, n: nat): (r: seq<T>)
    ensures |r| == if |s| < n then |s| else n
    ensures r == s[..|r|]
  {
    if |s| <= n then s else s[..n]
  }

  lemma {:induction false} InsertPermutes<T>(x: T, s: seq<T>, before: (T, T) -> bool)
    ensures multiset(Insert(x, s, before)) == multiset(s) + multiset{x}
    decreases |s|
  {
    if |s| > 0 && before(s[0], x) {
      InsertPermutes(x, s[1..], before);
      assert s == [s[0]] + s[1..];
    }
  }

  /** Inserting adds `x` and nothing else. */
  lemma {:induction false} InsertMembers<T>(x: T, s: seq<T>, before: (T, T) -> bool)
    ensures forall e :: e in Insert(x, s, before) ==> e == x || e in s
    decreases |s|
  {
    if |s| > 0 && before(s[0], x) {
      InsertMembers(x, s[1..], before);
      forall e | e in Insert(x, s, before) ensures e == x || e in s {
        if e != s[0] {
          assert e in Insert(x, s[1..], before);
        }
      }
    }
  }

  lemma {:induction false} InsertSorted<T(!new)>(x: T, s: seq<T>, before: (T, T) -> bool)
    requires StrictWeakOrder(before)
    requires SortedBy(s, before)
    ensures SortedBy(Insert(x, s, before), before)
    decreases |s|
  {
    if |s| > 0 && before(s[0], x) {
      var t := Insert(x, s[1..], before);
      InsertSorted(x, s[1..], before);
      InsertMembers(x, s[1..], before);
      var r := [s[0]] + t;
      assert Insert(x, s, before) == r;
      assert !before(x, s[0]);
      forall j | 0 < j < |r| ensures !before(r[j], s[0]) {
        assert r[j] == t[j - 1] && t[j - 1] in t;
        if r[j] != x {
          var k :| 0 <= k < |s[1..]| && s[1..][k] == r[j];
          assert s[k + 1] == r[j];
        }
      }
      forall i, j | 0 <= i < j < |r| ensures !before(r[j], r[i]) {
        if i > 0 {
          assert r[i] == t[i - 1] && r[j] == t[j - 1];
        }
      }
    } else if |s| > 0 {
      var r := [x] + s;
      forall j | 0 <= j < |s| ensures !before(s[j], x) {
        if j > 0 {
          assert !before(s[j], s[0]);
        }
      }
      forall i, j | 0 <= i < j < |r| ensures !before(r[j], r[i]) {
        assert r[j] == s[j - 1];
        if i > 0 {
          assert r[i] == s[i - 1];
        }
      }
    }
  }

  /** `SortBy` rearranges its input and orders it. */
  lemma {:induction false} SortByCorrect<T(!new)>(s: seq<T>, before: (T, T) -> bool)
    requires StrictWeakOrder(before)
    ensures SortedBy(SortBy(s, before), before)
    ensures multiset(SortBy(s, before)) == multiset(s)
    ensures |SortBy(s, before)| == |s|
    decreases |s|
  {
    if |s| > 0 {
      SortByCorrect(s[1..], before);
      InsertSorted(s[0], SortBy(s[1..], before), before);
      InsertPermutes(s[0], SortBy(s[1..], before), before);
      assert s == [s[0]] + s[1..];
    }
    assert |SortBy(s, before)| == |multiset(SortBy(s, before))|;
  }

  /** Neither of `a` and `b` comes strictly before the other. */
  predicate Tied<T>(before: (T, T) -> bool, a: T, b: T) {
    !before(a, b) && !before(b, a)
  }

  /** The elements of `s` that tie with `y`, in their order in `s`. */
  function TiedWith<T>(s: seq<T>, before: (T, T) -> bool, y: T): (r: seq<T>)
    ensures |r| <= |s|
    ensures forall i :: 0 <= i < |r| ==> Tied(before, r[i], y)
  {
    if |s| == 0 then [] else (if Tied(before, s[0], y) then [s[0]] else []) + TiedWith(s[1..], before, y)
  }

  /** Under a strict weak order, what comes strictly before `x` does not tie
      with anything `x` ties with. */
  lemma OutrankedNotTied<T(!new)>(before: (T, T) -> bool, a: T, x: T, y: T)
    requires StrictWeakOrder(before)
    requires before(a, x) && Tied(before, x, y)
    ensures !Tied(before, a, y)
  {
    assert before(a, y) || before(y, x);
  }

  /** The ties of a sequence with one element in front. */
  lemma TiedWithCons<T>(a: T, s: seq<T>, before: (T, T) -> bool, y: T)
    ensures TiedWith([a] + s, before, y) == (if Tied(before, a, y) then [a] else []) + TiedWith(s, before, y)
  {
    assert ([a] + s)[1..] == s;
  }

  /** Inserting `x` only adds `x`, at the front, to the elements tied with `y`:
      every element `x` is moved past comes strictly before it, so none of them
      ties with `y` when `x` does. */
  lemma {:induction false} InsertKeepsTies<T>(x: T, s: seq<T>, before: (T, T) -> bool, y: T)
    requires Tied(before, x, y) ==> forall a :: before(a, x) ==> !Tied(before, a, y)
    ensures TiedWith(Insert(x, s, before), before, y) == (if Tied(before, x, y) then [x] else []) + TiedWith(s, before, y)
    decreases |s|
  {
    if |s| == 0 {
      TiedWithCons(x, s, before, y);
    } else if !before(s[0], x) {
      TiedWithCons(x, s, before, y);
    } else {
      var t := Insert(x, s[1..], before);
      assert Insert(x, s, before) == [s[0]] + t;
      assert s == [s[0]] + s[1..];
      InsertKeepsTies(x, s[1..], before, y);
      TiedWithCons(s[0], t, before, y);
      TiedWithCons(s[0], s[1..], before, y);
    }
  }

  /** `SortBy` is stable, as LINQ's `OrderBy` is: the elements that tie with
      any given element come out in the order they went in. */
  lemma {:induction false} SortByStable<T(!new)>(s: seq<T>, before: (T, T) -> bool, y: T)
    requires StrictWeakOrder(before)
    ensures TiedWith(SortBy(s, before), before, y) == TiedWith(s, before, y)
    decreases |s|
  {
    if |s| > 0 {
      SortByStable(s[1..], before, y);
      forall a | before(a, s[0]) && Tied(before, s[0], y) ensures !Tied(before, a, y) {
        OutrankedNotTied(before, a, s[0], y);
      }
      InsertKeepsTies(s[0], SortBy(s[1..], before), before, y);
    }
  }

  /** Taking a prefix only drops elements. */
  lemma TakeSubMultiset<T>(s: seq<T>, n: nat)
    ensures multiset(Take(s, n)) <= multiset(s)
  {
    var r := Take(s, n);
    assert s == r + s[|r|..];
  }

  /** Taking a prefix of a sorted sequence keeps the elements that come first:
      none of the dropped elements comes strictly before a kept one. */
  lemma TakeKeepsFirst<T>(s: seq<T>, n: nat, before: (T, T) -> bool)
    requires SortedBy(s, before)
    ensures SortedBy(Take(s, n), before)
    ensures forall i, j :: 0 <= i < |Take(s, n)| <= j < |s| ==> !before(s[j], Take(s, n)[i])
  {
  }

  /** Sorting only rearranges: it needs no property of `before` for that. */
  lemma {:induction false} SortByPermutes<T>(s: seq<T>, before: (T, T) -> bool)
    ensures multiset(SortBy(s, before)) == multiset(s)
    decreases |s|
  {
    if |s| > 0 {
      SortByPermutes(s[1..], before);
      InsertPermutes(s[0], SortBy(s[1..], before), before);
      assert s == [s[0]] + s[1..];
    }
  }

  /** No two elements of `s` share a key. */
  ghost predicate KeysUnique<T, K>(s: seq<T>, key: T -> K) {
    forall i, j :: 0 <= i < j < |s| ==> key(s[i]) != key(s[j])
  }

  /** In a sequence with unique keys, no later element shares the first one's key. */
  lemma TailKeysDiffer<T, K>(s: seq<T>, key: T -> K)
    requires |s| > 0 && KeysUnique(s, key)
    ensures forall y :: y in s[1..] ==> key(y) != key(s[0])
  {
    forall y | y in s[1..] ensures key(y) != key(s[0]) {
      var k :| 0 <= k < |s[1..]| && s[1..][k] == y;
      assert s[k + 1] == y;
    }
  }

  /** Putting an element with a fresh key in front of unique keys keeps them unique. */
  lemma ConsKeysUnique<T, K>(x: T, s: seq<T>, key: T -> K)
    requires KeysUnique(s, key)
    requires forall y :: y in s ==> key(y) != key(x)
    ensures KeysUnique([x] + s, key)
  {
    forall i, j | 0 <= i < j < |s| + 1 ensures key(([x] + s)[i]) != key(([x] + s)[j]) {
      assert ([x] + s)[j] == s[j - 1];
      if i > 0 {
        assert ([x] + s)[i] == s[i - 1];
      }
    }
  }

  /** Keys unique in `s` and absent from it for `x` stay unique after inserting `x`. */
  lemma {:induction false} InsertKeepsKeysUnique<T, K>(x: T, s: seq<T>, before: (T, T) -> bool, key: T -> K)
    requires KeysUnique(s, key)
    requires forall y :: y in s ==> key(y) != key(x)
    ensures KeysUnique(Insert(x, s, before), key)
    decreases |s|
  {
    if |s| > 0 && before(s[0], x) {
      var tail := s[1..];
      var t := Insert(x, tail, before);
      assert KeysUnique(tail, key) by {
        forall i, j | 0 <= i < j < |tail| ensures key(tail[i]) != key(tail[j]) {
          assert tail[i] == s[i + 1] && tail[j] == s[j + 1];
        }
      }
      InsertKeepsKeysUnique(x, tail, before, key);
      InsertPermutes(x, tail, before);
      TailKeysDiffer(s, key);
      forall y | y in t ensures key(y) != key(s[0]) {
        assert y in multiset(t);
        assert y == x || y in multiset(tail);
      }
      ConsKeysUnique(s[0], t, key);
    } else if |s| > 0 {
      ConsKeysUnique(x, s, key);
    }
  }

  /** Keys unique in `s` stay unique once it is sorted. */
  lemma {:induction false} SortByKeepsKeysUnique<T, K>(s: seq<T>, before: (T, T) -> bool, key: T -> K)
    requires KeysUnique(s, key)
    ensures KeysUnique(SortBy(s, before), key)
    decreases |s|
  {
    if |s| > 0 {
      var tail := s[1..];
      var r := SortBy(tail, before);
      assert KeysUnique(tail, key) by {
        forall i, j | 0 <= i < j < |tail| ensures key(tail[i]) != key(tail[j]) {
          assert tail[i] == s[i + 1] && tail[j] == s[j + 1];
        }
      }
      SortByKeepsKeysUnique(tail, before, key);
      SortByPermutes(tail, before);
      TailKeysDiffer(s, key);
      forall y | y in r ensures key(y) != key(s[0]) {
        assert y in multiset(r);
        assert y in multiset(tail);
      }
      InsertKeepsKeysUnique(s[0], r, before, key);
    }
  }

  /** An element of a sorted sequence is either kept by `Take(n)`, or `n` elements were
      kept and it comes strictly before none of them. */
  lemma TakeOrOutranked<T>(s: seq<T>, n: nat, before: (T, T) -> bool, p: int)
    requires SortedBy(s, before) && 0 <= p < |s|
    ensures p < |Take(s, n)| || (|Take(s, n)| == n && forall x :: x in Take(s, n) ==> !before(s[p], x))
  {
    if p >= |Take(s, n)| {
      forall x | x in Take(s, n) ensures !before(s[p], x) {
        var q :| 0 <= q < |Take(s, n)| && Take(s, n)[q] == x;
        assert x == s[q];
      }
    }
  }
}
