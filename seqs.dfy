/**
 * The array pipelines the application builds its views and updates from:
 * `filter`, a by-id `map` replacement and `reduce` sums, with the facts the
 * rest of the model uses about them.
 */
module Seqs {

  /** `xs.filter(p)`. */
  function Filter<T(!new)>(xs: seq<T>, p: T -> bool): (r: seq<T>)
    ensures |r| <= |xs|
    ensures forall x {:trigger x in r} :: x in r <==> x in xs && p(x)
  {
    if xs == [] then []
    else if p(xs[0]) then [xs[0]] + Filter(xs[1..], p)
    else Filter(xs[1..], p)
  }

  /** Filtering a sequence with a known first element. */
  lemma FilterCons<T(!new)>(h: T, t: seq<T>, p: T -> bool)
    ensures Filter([h] + t, p) == (if p(h) then [h] else []) + Filter(t, p)
  {
    assert ([h] + t)[0] == h;
    assert ([h] + t)[1..] == t;
  }

  /** Concatenation is associative. */
  lemma AppendAssoc<T>(x: seq<T>, y: seq<T>, z: seq<T>)
    ensures x + (y + z) == (x + y) + z
  {
  }

  /** The second part of a concatenation starts right after the first. */
  lemma AppendIndex<T>(a: seq<T>, b: seq<T>, k: int)
    requires 0 <= k < |b|
    ensures (a + b)[|a| + k] == b[k]
  {
  }

  /** Filtering works piecewise, so it keeps the relative order of what it keeps. */
  lemma {:induction false} FilterConcat<T(!new)>(a: seq<T>, b: seq<T>, p: T -> bool)
    ensures Filter(a + b, p) == Filter(a, p) + Filter(b, p)
  {
    if a == [] {
      assert a + b == b;
    } else {
      var h, t := a[0], a[1..];
      FilterConcat(t, b, p);
      assert a == [h] + t;
      assert a + b == [h] + (t + b);
      FilterCons(h, t + b, p);
      FilterCons(h, t, p);
      AppendAssoc(if p(h) then [h] else [], Filter(t, p), Filter(b, p));
    }
  }

  /** A filter whose predicate holds everywhere returns its input unchanged. */
  lemma {:induction false} FilterAll<T(!new)>(xs: seq<T>, p: T -> bool)
    requires forall x :: x in xs ==> p(x)
    ensures Filter(xs, p) == xs
  {
    if xs != [] {
      FilterAll(xs[1..], p);
    }
  }

  /** A predicate and its negation split a sequence in two: disjoint, together everything. */
  lemma {:induction false} FilterPartition<T(!new)>(xs: seq<T>, p: T -> bool)
    ensures |Filter(xs, p)| + |Filter(xs, x => !p(x))| == |xs|
    ensures multiset(Filter(xs, p)) + multiset(Filter(xs, x => !p(x))) == multiset(xs)
  {
    if xs != [] {
      FilterPartition(xs[1..], p);
      assert xs == [xs[0]] + xs[1..];
    }
  }

  /** `xs.map(x => idOf(x) === idOf(updated) ? updated : x)`. */
  function ReplaceById<T>(xs: seq<T>, idOf: T -> string, updated: T): (r: seq<T>)
    ensures |r| == |xs|
    ensures forall i :: 0 <= i < |xs| && idOf(xs[i]) == idOf(updated) ==> r[i] == updated
    ensures forall i :: 0 <= i < |xs| && idOf(xs[i]) != idOf(updated) ==> r[i] == xs[i]
  {
    if xs == [] then []
    else [if idOf(xs[0]) == idOf(updated) then updated else xs[0]] + ReplaceById(xs[1..], idOf, updated)
  }

  /** Updating an id that nothing carries changes nothing. */
  lemma ReplaceMissingIdIsIdentity<T>(xs: seq<T>, idOf: T -> string, updated: T)
    requires forall x :: x in xs ==> idOf(x) != idOf(updated)
    ensures ReplaceById(xs, idOf, updated) == xs
  {
    var r := ReplaceById(xs, idOf, updated);
    assert forall i :: 0 <= i < |xs| ==> r[i] == xs[i];
  }

  /** `after` is `before` with `x` added at its end. */
  predicate Appended<T(==)>(before: seq<T>, after: seq<T>, x: T) {
    |after| == |before| + 1 && after[..|before|] == before && after[|before|] == x
  }

  /** `xs.filter(x => idOf(x) !== id)`. */
  function RemoveById<T(!new)>(xs: seq<T>, idOf: T -> string, id: string): (r: seq<T>)
    ensures forall x {:trigger x in r} :: x in r <==> x in xs && idOf(x) != id
  {
    Filter(xs, x => idOf(x) != id)
  }

  /** Deleting an id that nothing carries changes nothing; deleting one that is carried shortens the list. */
  lemma RemoveByIdLength<T(!new)>(xs: seq<T>, idOf: T -> string, id: string)
    ensures (forall x :: x in xs ==> idOf(x) != id) ==> RemoveById(xs, idOf, id) == xs
    ensures (exists x :: x in xs && idOf(x) == id) ==> |RemoveById(xs, idOf, id)| < |xs|
  {
    if forall x :: x in xs ==> idOf(x) != id {
      FilterAll(xs, x => idOf(x) != id);
    }
    if exists x :: x in xs && idOf(x) == id {
      var p := (x: T) => idOf(x) != id;
      FilterPartition(xs, p);
      var x :| x in xs && idOf(x) == id;
      assert x in Filter(xs, y => !p(y));
    }
  }

  /** `xs.findIndex(p)`: the first position whose element satisfies `p`, or -1. */
  function FirstIndex<T>(xs: seq<T>, p: T -> bool): (r: int)
    ensures -1 <= r < |xs|
    ensures r >= 0 ==> p(xs[r]) && forall j :: 0 <= j < r ==> !p(xs[j])
    ensures r == -1 <==> forall j :: 0 <= j < |xs| ==> !p(xs[j])
  {
    if xs == [] then -1
    else if p(xs[0]) then 0
    else
      var k := FirstIndex(xs[1..], p);
      if k == -1 then -1 else k + 1
  }

  /** `xs.map(f)`. */
  function Map<T, U>(xs: seq<T>, f: T -> U): (r: seq<U>)
    ensures |r| == |xs|
    ensures forall i :: 0 <= i < |xs| ==> r[i] == f(xs[i])
  {
    seq(|xs|, i requires 0 <= i < |xs| => f(xs[i]))
  }

  /** Mapping works piecewise. */
  lemma MapConcat<T, U>(a: seq<T>, b: seq<T>, f: T -> U)
    ensures Map(a + b, f) == Map(a, f) + Map(b, f)
  {
  }

  /** Filtering on a property of `f(x)` and then mapping `f` is mapping and then filtering the images. */
  lemma {:induction false} MapFilterCommute<T(!new), U(!new)>(xs: seq<T>, f: T -> U, p: T -> bool, q: U -> bool)
    requires forall x :: p(x) == q(f(x))
    ensures Map(Filter(xs, p), f) == Filter(Map(xs, f), q)
  {
    if xs != [] {
      var rest := xs[1..];
      MapFilterCommute(rest, f, p, q);
      var m := Map(xs, f);
      assert m[0] == f(xs[0]) && m[1..] == Map(rest, f);
      if p(xs[0]) {
        assert Filter(xs, p) == [xs[0]] + Filter(rest, p);
        MapConcat([xs[0]], Filter(rest, p), f);
        assert Map([xs[0]], f) == [f(xs[0])];
        assert Filter(m, q) == [m[0]] + Filter(m[1..], q);
      } else {
        assert Filter(xs, p) == Filter(rest, p);
        assert Filter(m, q) == Filter(m[1..], q);
      }
    }
  }

  /** Replacing by id never changes the sequence of ids. */
  lemma ReplaceByIdKeepsIds<T>(xs: seq<T>, idOf: T -> string, updated: T)
    ensures Map(ReplaceById(xs, idOf, updated), idOf) == Map(xs, idOf)
  {
  }

  /** The sequence of ids without `id`, the others in their order. */
  function Without(ids: seq<string>, id: string): (r: seq<string>)
    ensures id !in r
    ensures forall k {:trigger k in r} :: k in r <==> k in ids && k != id
  {
    Filter(ids, (k: string) => k != id)
  }

  /** Deleting by id removes exactly that id from the sequence of ids and keeps the others in order. */
  lemma RemoveByIdIds<T(!new)>(xs: seq<T>, idOf: T -> string, id: string)
    ensures Map(RemoveById(xs, idOf, id), idOf) == Without(Map(xs, idOf), id)
  {
    MapFilterCommute(xs, idOf, x => idOf(x) != id, (k: string) => k != id);
  }

  /** `xs.reduce((sum, x) => sum + f(x), 0)`. */
  function SumOf<T>(xs: seq<T>, f: T -> real): real {
    if xs == [] then 0.0 else SumOf(xs[..|xs| - 1], f) + f(xs[|xs| - 1])
  }

  /** The amount of a plain number: itself. */
  function Identity(x: real): real {
    x
  }

  /** Summing mapped values is summing through the map. */
  lemma {:induction false} SumOfMap<T>(xs: seq<T>, f: T -> real)
    ensures SumOf(Map(xs, f), Identity) == SumOf(xs, f)
  {
    if xs != [] {
      SumOfMap(xs[..|xs| - 1], f);
      assert Map(xs, f)[..|xs| - 1] == Map(xs[..|xs| - 1], f);
    }
  }

  /** Sums add up piecewise. */
  lemma {:induction false} SumOfConcat<T>(a: seq<T>, b: seq<T>, f: T -> real)
    ensures SumOf(a + b, f) == SumOf(a, f) + SumOf(b, f)
    decreases |b|
  {
    if b != [] {
      SumOfConcat(a, b[..|b| - 1], f);
      assert (a + b)[..|a + b| - 1] == a + b[..|b| - 1];
    } else {
      assert a + b == a;
    }
  }

  /** The sum of the filtered part and of the rest is the sum of the whole. */
  lemma {:induction false} SumOfPartition<T(!new)>(xs: seq<T>, p: T -> bool, f: T -> real)
    ensures SumOf(Filter(xs, p), f) + SumOf(Filter(xs, x => !p(x)), f) == SumOf(xs, f)
  {
    if xs != [] {
      SumOfPartition(xs[1..], p, f);
      assert xs == [xs[0]] + xs[1..];
      SumOfConcat([xs[0]], xs[1..], f);
      FilterConcat([xs[0]], xs[1..], p);
      FilterConcat([xs[0]], xs[1..], x => !p(x));
      if p(xs[0]) {
        SumOfConcat([xs[0]], Filter(xs[1..], p), f);
      } else {
        SumOfConcat([xs[0]], Filter(xs[1..], x => !p(x)), f);
      }
    }
  }

  /** `xs.slice(-n)`: the last `n` elements, or all of them when there are fewer. */
  function LastN<T>(xs: seq<T>, n: nat): (r: seq<T>)
    ensures |r| == if |xs| < n then |xs| else n
    ensures forall k :: 0 <= k < |r| ==> r[k] == xs[|xs| - |r| + k]
  {
    if |xs| <= n then xs else xs[|xs| - n..]
  }
}
