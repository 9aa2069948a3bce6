/**
 * `Array.prototype.sort` with a numeric comparator `(a, b) => key(a) - key(b)`,
 * as an insertion sort: each element goes after every element whose key is
 * not larger, which keeps equal keys in their original order.
 */
module Sorting {
  import Seqs

  /** Keys never decrease along `xs`. */
  predicate SortedBy<T>(xs: seq<T>, key: T -> int) {
    forall i, j :: 0 <= i < j < |xs| ==> key(xs[i]) <= key(xs[j])
  }

  /** Places `x` in `xs`, after the leading elements whose key is at most its own. */
  function Insert<T>(x: T, xs: seq<T>, key: T -> int): seq<T> {
    if xs == [] then [x]
    else if key(x) < key(xs[0]) then [x] + xs
    else [xs[0]] + Insert(x, xs[1..], key)
  }

  /** Every key along `xs` is at least `b`. */
  predicate AllAtLeast<T>(xs: seq<T>, key: T -> int, b: int) {
    forall i :: 0 <= i < |xs| ==> b <= key(xs[i])
  }

  /** Inserting adds exactly `x`. */
  lemma {:induction false} InsertPermutes<T>(x: T, xs: seq<T>, key: T -> int)
    ensures multiset(Insert(x, xs, key)) == multiset(xs) + multiset{x}
  {
    if xs != [] && key(x) >= key(xs[0]) {
      InsertPermutes(x, xs[1..], key);
      assert xs == [xs[0]] + xs[1..];
    }
  }

  /** Inserting a key of at least `b` among keys of at least `b` keeps every key at least `b`. */
  lemma {:induction false} InsertAtLeast<T>(x: T, xs: seq<T>, key: T -> int, b: int)
    requires AllAtLeast(xs, key, b) && b <= key(x)
    ensures AllAtLeast(Insert(x, xs, key), key, b)
  {
    if xs != [] && key(x) >= key(xs[0]) {
      InsertAtLeast(x, xs[1..], key, b);
    }
  }

  /** Inserting into a sorted sequence keeps it sorted. */
  lemma {:induction false} InsertSorted<T>(x: T, xs: seq<T>, key: T -> int)
    requires SortedBy(xs, key)
    ensures SortedBy(Insert(x, xs, key), key)
  {
    if xs == [] {
    } else if key(x) < key(xs[0]) {
      assert AllAtLeast(xs, key, key(x));
    } else {
      var rest := xs[1..];
      assert SortedBy(rest, key);
      assert AllAtLeast(rest, key, key(xs[0]));
      InsertSorted(x, rest, key);
      InsertAtLeast(x, rest, key, key(xs[0]));
    }
  }

  /** Inserting into a sorted sequence adds exactly `x` and keeps it sorted. */
  lemma InsertCorrect<T>(x: T, xs: seq<T>, key: T -> int)
    requires SortedBy(xs, key)
    ensures multiset(Insert(x, xs, key)) == multiset(xs) + multiset{x}
    ensures SortedBy(Insert(x, xs, key), key)
  {
    InsertPermutes(x, xs, key);
    InsertSorted(x, xs, key);
  }

  /** The elements of `xs`, rearranged so their keys never decrease. */
  function SortBy<T>(xs: seq<T>, key: T -> int): seq<T> {
    if xs == [] then [] else Insert(xs[|xs| - 1], SortBy(xs[..|xs| - 1], key), key)
  }

  /** Sorting is a permutation whose keys never decrease. */
  lemma {:induction false} SortByCorrect<T>(xs: seq<T>, key: T -> int)
    ensures multiset(SortBy(xs, key)) == multiset(xs)
    ensures SortedBy(SortBy(xs, key), key)
  {
    if xs != [] {
      var init := xs[..|xs| - 1];
      SortByCorrect(init, key);
      InsertCorrect(xs[|xs| - 1], SortBy(init, key), key);
      assert xs == init + [xs[|xs| - 1]];
    }
  }

  /** Whether an element's key is `v`. */
  function KeyIs<T>(key: T -> int, v: int): T -> bool {
    y => key(y) == v
  }

  /** The elements of a sorted sequence with keys larger than `v` include none with key `v`. */
  lemma NoneWithKey<T(!new)>(ys: seq<T>, key: T -> int, v: int)
    requires forall i :: 0 <= i < |ys| ==> v < key(ys[i])
    ensures Seqs.Filter(ys, KeyIs(key, v)) == []
  {
  }

  /** Inserting into a sorted sequence puts `x` after every element with the same key. */
  lemma {:induction false} InsertAfterEqualKeys<T(!new)>(x: T, ys: seq<T>, key: T -> int, v: int)
    requires SortedBy(ys, key)
    ensures Seqs.Filter(Insert(x, ys, key), KeyIs(key, v)) == Seqs.Filter(ys, KeyIs(key, v)) + (if key(x) == v then [x] else [])
  {
    var p := KeyIs(key, v);
    if ys == [] {
      Seqs.FilterCons(x, [], p);
    } else if key(x) < key(ys[0]) {
      Seqs.FilterCons(x, ys, p);
      if key(x) == v {
        NoneWithKey(ys, key, v);
      }
    } else {
      var rest := ys[1..];
      assert ys == [ys[0]] + rest;
      assert SortedBy(rest, key);
      InsertAfterEqualKeys(x, rest, key, v);
      Seqs.FilterCons(ys[0], Insert(x, rest, key), p);
      Seqs.FilterCons(ys[0], rest, p);
      Seqs.AppendAssoc(if p(ys[0]) then [ys[0]] else [], Seqs.Filter(rest, p), if key(x) == v then [x] else []);
    }
  }

  /**
   * Sorting is stable: the elements sharing any one key come out in the
   * order they had in `xs`.
   */
  lemma {:induction false} SortByStable<T(!new)>(xs: seq<T>, key: T -> int, v: int)
    ensures Seqs.Filter(SortBy(xs, key), KeyIs(key, v)) == Seqs.Filter(xs, KeyIs(key, v))
  {
    if xs != [] {
      var init, last := xs[..|xs| - 1], xs[|xs| - 1];
      var p, tail := KeyIs(key, v), if key(last) == v then [last] else [];
      assert Seqs.Filter(SortBy(xs, key), p) == Seqs.Filter(init, p) + tail by {
        SortByStable(init, key, v);
        SortByCorrect(init, key);
        InsertAfterEqualKeys(last, SortBy(init, key), key, v);
      }
      assert Seqs.Filter(xs, p) == Seqs.Filter(init, p) + tail by {
        assert xs == init + [last];
        Seqs.FilterConcat(init, [last], p);
        Seqs.FilterCons(last, [], p);
      }
    }
  }
}
