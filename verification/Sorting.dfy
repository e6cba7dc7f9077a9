/** Rust's stable `sort_by_key`, which four of the modelled paths rely on for
    their order, together with the facts those paths need from it:

    - it permutes, orders, and keeps elements with equal keys in their order;
    - a sequence already in order is left alone;
    - the order sorted is forgotten when the keys tell the elements apart, and
      shows when two different elements share one. */
module Sorting {

  ghost predicate SortedBy<T>(s: seq<T>, key: T -> int) {
    forall i, j :: 0 <= i < j < |s| ==> key(s[i]) <= key(s[j])
  }

  /** Elements with equal keys are equal. */
  ghost predicate KeyDetermines<T>(s: seq<T>, key: T -> int) {
    forall i, j :: 0 <= i < |s| && 0 <= j < |s| && key(s[i]) == key(s[j]) ==> s[i] == s[j]
  }

  /** Put `x` before the first element whose key is not smaller, so that of two
      equal keys the one inserted later comes first. */
  function Insert<T>(x: T, s: seq<T>, key: T -> int): seq<T> {
    if s == [] || key(x) <= key(s[0]) then [x] + s
    else [s[0]] + Insert(x, s[1..], key)
  }

  /** The stable sort: equal keys keep the order they had in `s`. */
  function SortBy<T>(s: seq<T>, key: T -> int): seq<T> {
    if s == [] then [] else Insert(s[0], SortBy(s[1..], key), key)
  }

  lemma {:induction false} InsertElements<T>(x: T, s: seq<T>, key: T -> int)
    ensures multiset(Insert(x, s, key)) == multiset([x]) + multiset(s)
  {
    if s == [] || key(x) <= key(s[0]) {
    } else {
      InsertElements(x, s[1..], key);
      assert s == [s[0]] + s[1..];
    }
  }

  lemma {:induction false} InsertSorted<T>(x: T, s: seq<T>, key: T -> int)
    requires SortedBy(s, key)
    ensures SortedBy(Insert(x, s, key), key)
  {
    if s == [] || key(x) <= key(s[0]) {
    } else {
      var rest := Insert(x, s[1..], key);
      InsertSorted(x, s[1..], key);
      forall k | 0 <= k < |rest| ensures key(s[0]) <= key(rest[k]) {
        InsertElements(x, s[1..], key);
        assert rest[k] in multiset(rest);
        if rest[k] != x {
          assert rest[k] in multiset(s[1..]);
        }
      }
    }
  }

  lemma {:induction false} SortByCorrect<T>(s: seq<T>, key: T -> int)
    ensures multiset(SortBy(s, key)) == multiset(s)
    ensures |SortBy(s, key)| == |s|
    ensures SortedBy(SortBy(s, key), key)
  {
    assert |multiset(SortBy(s, key))| == |SortBy(s, key)|;
    if s == [] {
    } else {
      SortByCorrect(s[1..], key);
      InsertElements(s[0], SortBy(s[1..], key), key);
      InsertSorted(s[0], SortBy(s[1..], key), key);
      assert s == [s[0]] + s[1..];
    }
  }

  /** A sequence already in order is left alone, ties included. */
  lemma {:induction false} SortOfSorted<T>(s: seq<T>, key: T -> int)
    requires SortedBy(s, key)
    ensures SortBy(s, key) == s
  {
    if s == [] {
    } else {
      SortOfSorted(s[1..], key);
      assert s == [s[0]] + s[1..];
    }
  }

  lemma TailElements<T>(a: seq<T>, b: seq<T>)
    requires multiset(a) == multiset(b)
    requires a != [] && b != [] && a[0] == b[0]
    ensures multiset(a[1..]) == multiset(b[1..])
  {
    assert a == [a[0]] + a[1..] && b == [b[0]] + b[1..];
    assert multiset(a[1..]) == multiset(a) - multiset{a[0]};
    assert multiset(b[1..]) == multiset(b) - multiset{b[0]};
  }

  lemma LeastFirst<T>(a: seq<T>, b: seq<T>, key: T -> int)
    requires a != [] && b != [] && a[0] in b && b[0] in a
    requires SortedBy(a, key) && SortedBy(b, key) && KeyDetermines(a, key)
    ensures a[0] == b[0]
  {
    var p :| 0 <= p < |a| && a[p] == b[0];
    var q :| 0 <= q < |b| && b[q] == a[0];
    assert key(a[0]) == key(a[p]);
  }

  /** Two ordered sequences over the same elements are equal when the keys tell the
      elements apart. */
  lemma {:induction false} OrderUnique<T>(a: seq<T>, b: seq<T>, key: T -> int)
    requires multiset(a) == multiset(b)
    requires SortedBy(a, key) && SortedBy(b, key) && KeyDetermines(a, key)
    ensures a == b
    decreases |a|
  {
    assert |a| == |multiset(a)| == |multiset(b)| == |b|;
    if a != [] {
      assert a[0] in multiset(a) && b[0] in multiset(b);
      LeastFirst(a, b, key);
      TailElements(a, b);
      OrderUnique(a[1..], b[1..], key);
      assert a == [a[0]] + a[1..] && b == [b[0]] + b[1..];
    }
  }

  lemma DeterminesByMultiset<T>(a: seq<T>, b: seq<T>, key: T -> int)
    requires multiset(a) == multiset(b) && KeyDetermines(a, key)
    ensures KeyDetermines(b, key)
  {
    forall i, j | 0 <= i < |b| && 0 <= j < |b| && key(b[i]) == key(b[j]) ensures b[i] == b[j] {
      assert b[i] in multiset(b) && b[j] in multiset(b);
      assert b[i] in a && b[j] in a;
    }
  }

  /** Then sorting forgets the order it was given. */
  lemma SortIgnoresOrder<T>(a: seq<T>, b: seq<T>, key: T -> int)
    requires multiset(a) == multiset(b) && KeyDetermines(a, key)
    ensures SortBy(a, key) == SortBy(b, key)
  {
    SortByCorrect(a, key);
    SortByCorrect(b, key);
    DeterminesByMultiset(a, SortBy(a, key), key);
    OrderUnique(SortBy(a, key), SortBy(b, key), key);
  }

  /** The elements with key `k`, in order. */
  function WithKey<T>(s: seq<T>, key: T -> int, k: int): seq<T> {
    if s == [] then []
    else if key(s[0]) == k then [s[0]] + WithKey(s[1..], key, k)
    else WithKey(s[1..], key, k)
  }

  lemma {:induction false} InsertStable<T>(x: T, s: seq<T>, key: T -> int, k: int)
    ensures WithKey(Insert(x, s, key), key, k) == WithKey([x] + s, key, k)
  {
    assert ([x] + s)[1..] == s;
    if s != [] && key(s[0]) < key(x) {
      InsertStable(x, s[1..], key, k);
      assert ([x] + s[1..])[1..] == s[1..];
    }
  }

  /** Elements with equal keys keep their order. */
  lemma {:induction false} SortStable<T>(s: seq<T>, key: T -> int, k: int)
    ensures WithKey(SortBy(s, key), key, k) == WithKey(s, key, k)
  {
    if s != [] {
      SortStable(s[1..], key, k);
      InsertStable(s[0], SortBy(s[1..], key), key, k);
      assert ([s[0]] + SortBy(s[1..], key))[1..] == SortBy(s[1..], key);
    }
  }

  ghost predicate SameKeys<T>(a: seq<T>, b: seq<T>, key: T -> int) {
    |a| == |b| && forall i :: 0 <= i < |a| ==> key(a[i]) == key(b[i])
  }

  lemma {:induction false} InsertSameKeys<T>(x: T, y: T, a: seq<T>, b: seq<T>, key: T -> int)
    requires key(x) == key(y) && SameKeys(a, b, key)
    ensures SameKeys(Insert(x, a, key), Insert(y, b, key), key)
  {
    if a != [] && key(a[0]) < key(x) { InsertSameKeys(x, y, a[1..], b[1..], key); }
  }

  lemma {:induction false} SortSameKeys<T>(a: seq<T>, b: seq<T>, key: T -> int)
    requires SameKeys(a, b, key)
    ensures SameKeys(SortBy(a, key), SortBy(b, key), key)
  {
    if a != [] {
      SortSameKeys(a[1..], b[1..], key);
      InsertSameKeys(a[0], b[0], SortBy(a[1..], key), SortBy(b[1..], key), key);
    }
  }

  lemma {:induction false} WithKeyConcat<T>(a: seq<T>, b: seq<T>, key: T -> int, k: int)
    ensures WithKey(a + b, key, k) == WithKey(a, key, k) + WithKey(b, key, k)
  {
    if a == [] {
      assert a + b == b;
    } else {
      WithKeyConcat(a[1..], b, key, k);
      assert (a + b)[1..] == a[1..] + b;
    }
  }

  /** Where an element stands among those with its key. */
  lemma WithKeyAt<T>(s: seq<T>, key: T -> int, i: nat)
    requires i < |s|
    ensures var before := |WithKey(s[..i], key, key(s[i]))|;
      before < |WithKey(s, key, key(s[i]))| && WithKey(s, key, key(s[i]))[before] == s[i]
  {
    WithKeyConcat(s[..i], s[i..], key, key(s[i]));
    assert s == s[..i] + s[i..];
    assert s[i..][0] == s[i];
  }

  function Swapped<T>(s: seq<T>, i: nat, j: nat): (t: seq<T>)
    requires i < j < |s|
    ensures |t| == |s| && multiset(t) == multiset(s)
  {
    s[i := s[j]][j := s[i]]
  }

  /** Swapping two different elements with one key shows after sorting. */
  lemma SwapShows<T>(s: seq<T>, key: T -> int, i: nat, j: nat)
    requires i < j < |s| && key(s[i]) == key(s[j]) && s[i] != s[j]
    ensures SortBy(Swapped(s, i, j), key) != SortBy(s, key)
  {
    var t := Swapped(s, i, j);
    SortStable(s, key, key(s[i]));
    SortStable(t, key, key(s[i]));
    WithKeyAt(s, key, i);
    WithKeyAt(t, key, i);
    assert s[..i] == t[..i];
  }
}
