/**
 * The dictionary accumulation several views perform,
 * `acc[k] = (acc[k] || 0) + v` over a list of `(key, amount)` pairs,
 * read back in key insertion order (`Object.keys` / `Object.values` /
 * `Object.entries` order for non-numeric keys).
 */
module Grouping {
  import Seqs

  /** A dictionary: its keys in insertion order, and the value of each. */
  datatype Groups = Groups(keys: seq<string>, sums: map<string, real>)

  /** The total of the amounts paired with `k`: the independent meaning of a group. */
  function SumFor(pairs: seq<(string, real)>, k: string): real {
    if pairs == [] then 0.0
    else SumFor(pairs[..|pairs| - 1], k) + (if pairs[|pairs| - 1].0 == k then pairs[|pairs| - 1].1 else 0.0)
  }

  /** The total of all the amounts. */
  function Total(pairs: seq<(string, real)>): real {
    if pairs == [] then 0.0 else Total(pairs[..|pairs| - 1]) + pairs[|pairs| - 1].1
  }

  /** One step of the accumulation: `acc[k] = (acc[k] || 0) + v`. */
  function AddTo(g: Groups, k: string, v: real): Groups {
    if k in g.sums then Groups(g.keys, g.sums[k := g.sums[k] + v])
    else Groups(g.keys + [k], g.sums[k := v])
  }

  /** No key occurs twice. */
  predicate DistinctKeys(keys: seq<string>) {
    forall i, j :: 0 <= i < j < |keys| ==> keys[i] != keys[j]
  }

  /**
   * The dictionary built from `pairs`, one pair after the other: its keys
   * are exactly the keys it holds values for, and none is repeated.
   */
  function GroupSums(pairs: seq<(string, real)>): (g: Groups)
    ensures forall k :: k in g.sums <==> k in g.keys
    ensures DistinctKeys(g.keys)
  {
    if pairs == [] then Groups([], map[])
    else AddTo(GroupSums(pairs[..|pairs| - 1]), pairs[|pairs| - 1].0, pairs[|pairs| - 1].1)
  }

  /** A key that no pair carries sums to zero, which is the `|| 0` default. */
  lemma {:induction false} SumForAbsent(pairs: seq<(string, real)>, k: string)
    requires forall i :: 0 <= i < |pairs| ==> pairs[i].0 != k
    ensures SumFor(pairs, k) == 0.0
  {
    if pairs != [] {
      SumForAbsent(pairs[..|pairs| - 1], k);
    }
  }

  /** The dictionary has one key per distinct key of the pairs, and no other. */
  lemma {:induction false} GroupSumsKeys(pairs: seq<(string, real)>)
    ensures forall k :: k in GroupSums(pairs).keys <==> exists i :: 0 <= i < |pairs| && pairs[i].0 == k
  {
    if pairs != [] {
      var init := pairs[..|pairs| - 1];
      GroupSumsKeys(init);
      assert forall i :: 0 <= i < |init| ==> init[i] == pairs[i];
    }
  }

  /** The value under each key is the sum of the amounts paired with that key. */
  lemma {:induction false} GroupSumsValues(pairs: seq<(string, real)>, k: string)
    requires k in GroupSums(pairs).sums
    ensures GroupSums(pairs).sums[k] == SumFor(pairs, k)
  {
    var init := pairs[..|pairs| - 1];
    var last := pairs[|pairs| - 1];
    var g := GroupSums(init);
    if k in g.sums {
      GroupSumsValues(init, k);
    } else {
      assert k == last.0;
      GroupSumsKeys(init);
      SumForAbsent(init, k);
    }
  }

  /** `acc[k] || 0`: the accumulated value of `k`, or 0 when it never occurred. */
  function Lookup(g: Groups, k: string): real {
    if k in g.sums then g.sums[k] else 0.0
  }

  /** The looked-up value is the sum of the amounts paired with `k`, whether or not `k` occurred. */
  lemma LookupIsSumFor(pairs: seq<(string, real)>, k: string)
    ensures Lookup(GroupSums(pairs), k) == SumFor(pairs, k)
  {
    if k in GroupSums(pairs).sums {
      GroupSumsValues(pairs, k);
    } else {
      GroupSumsKeys(pairs);
      SumForAbsent(pairs, k);
    }
  }

  /** The sum of the values stored under `keys`. */
  function SumOverKeys(keys: seq<string>, sums: map<string, real>): real
    requires forall k :: k in keys ==> k in sums
  {
    if keys == [] then 0.0 else SumOverKeys(keys[..|keys| - 1], sums) + sums[keys[|keys| - 1]]
  }

  /** Changing the value of a key outside `keys` does not change their sum. */
  lemma {:induction false} SumOverKeysUnaffected(keys: seq<string>, sums: map<string, real>, k: string, w: real)
    requires forall x :: x in keys ==> x in sums
    requires k !in keys
    ensures SumOverKeys(keys, sums[k := w]) == SumOverKeys(keys, sums)
  {
    if keys != [] {
      SumOverKeysUnaffected(keys[..|keys| - 1], sums, k, w);
    }
  }

  /** Adding `v` to the value of one of the (distinct) keys adds `v` to their sum. */
  lemma {:induction false} SumOverKeysBump(keys: seq<string>, sums: map<string, real>, k: string, v: real)
    requires forall x :: x in keys ==> x in sums
    requires DistinctKeys(keys) && k in keys
    ensures SumOverKeys(keys, sums[k := sums[k] + v]) == SumOverKeys(keys, sums) + v
  {
    var init := keys[..|keys| - 1];
    if keys[|keys| - 1] == k {
      assert k !in init by {
        forall i | 0 <= i < |init| ensures init[i] != k {
          assert keys[i] != keys[|keys| - 1];
        }
      }
      SumOverKeysUnaffected(init, sums, k, sums[k] + v);
    } else {
      assert k in init by {
        var i :| 0 <= i < |keys| && keys[i] == k;
        assert init[i] == k;
      }
      SumOverKeysBump(init, sums, k, v);
    }
  }

  /** One accumulation step adds its amount to the sum of the values. */
  lemma AddToTotal(g: Groups, k: string, v: real)
    requires forall x :: x in g.keys <==> x in g.sums
    requires DistinctKeys(g.keys)
    ensures var r := AddTo(g, k, v);
      (forall x :: x in r.keys ==> x in r.sums) && SumOverKeys(r.keys, r.sums) == SumOverKeys(g.keys, g.sums) + v
  {
    var r := AddTo(g, k, v);
    if k in g.sums {
      SumOverKeysBump(g.keys, g.sums, k, v);
    } else {
      assert r.keys[..|r.keys| - 1] == g.keys;
      SumOverKeysUnaffected(g.keys, g.sums, k, v);
    }
  }

  /** The values of the dictionary add up to the total of all the amounts: nothing is lost or counted twice. */
  lemma {:induction false} GroupSumsTotal(pairs: seq<(string, real)>)
    ensures SumOverKeys(GroupSums(pairs).keys, GroupSums(pairs).sums) == Total(pairs)
  {
    if pairs != [] {
      var init := pairs[..|pairs| - 1];
      GroupSumsTotal(init);
      AddToTotal(GroupSums(init), pairs[|pairs| - 1].0, pairs[|pairs| - 1].1);
    }
  }

  /**
   * The imperative accumulation: one pass over `pairs`, updating the
   * dictionary in place. It builds exactly `GroupSums(pairs)`.
   */
  method Accumulate(pairs: seq<(string, real)>) returns (keys: seq<string>, sums: map<string, real>)
    ensures Groups(keys, sums) == GroupSums(pairs)
  {
    keys := [];
    sums := map[];
    var i := 0;
    while i < |pairs|
      invariant 0 <= i <= |pairs|
      invariant Groups(keys, sums) == GroupSums(pairs[..i])
    {
      keys, sums := AddPair(keys, sums, pairs[i].0, pairs[i].1);
      assert pairs[..i + 1][..i] == pairs[..i];
      i := i + 1;
    }
    assert pairs[..|pairs|] == pairs;
  }

  /** The loop body of `Accumulate`: `acc[k] = (acc[k] || 0) + v` on the dictionary. */
  method AddPair(keys: seq<string>, sums: map<string, real>, k: string, v: real)
    returns (keys': seq<string>, sums': map<string, real>)
    ensures Groups(keys', sums') == AddTo(Groups(keys, sums), k, v)
  {
    if k in sums {
      keys', sums' := keys, sums[k := sums[k] + v];
    } else {
      keys', sums' := keys + [k], sums[k := v];
    }
  }

  /** `Object.values(acc)`: the values in key order. */
  function Values(g: Groups): (vs: seq<real>)
    requires forall k :: k in g.keys ==> k in g.sums
    ensures |vs| == |g.keys|
    ensures forall i :: 0 <= i < |vs| ==> vs[i] == g.sums[g.keys[i]]
  {
    Seqs.Map(g.keys, k => Lookup(g, k))
  }

  /** Summing the listed values is summing over the keys. */
  lemma {:induction false} ValuesSum(keys: seq<string>, sums: map<string, real>)
    requires forall k :: k in keys ==> k in sums
    ensures Seqs.SumOf(Values(Groups(keys, sums)), Seqs.Identity) == SumOverKeys(keys, sums)
  {
    if keys != [] {
      var init := keys[..|keys| - 1];
      ValuesSum(init, sums);
      var vs := Values(Groups(keys, sums));
      assert vs[..|vs| - 1] == Values(Groups(init, sums));
    }
  }

  /** The `(key, amount)` pairs a view accumulates from its records. */
  function Pairs<T>(xs: seq<T>, key: T -> string, amount: T -> real): (ps: seq<(string, real)>)
    ensures |ps| == |xs|
    ensures forall i :: 0 <= i < |xs| ==> ps[i] == (key(xs[i]), amount(xs[i]))
  {
    Seqs.Map(xs, x => (key(x), amount(x)))
  }

  /** A record passes the key test. */
  function HasKey<T>(key: T -> string, k: string): T -> bool {
    x => key(x) == k
  }

  /**
   * The group of `k` holds the sum of the amounts of exactly the records
   * whose key is `k`: the same figure a filter-then-sum would give.
   */
  lemma {:induction false} SumForIsFilteredSum<T(!new)>(xs: seq<T>, key: T -> string, amount: T -> real, k: string)
    ensures SumFor(Pairs(xs, key, amount), k) == Seqs.SumOf(Seqs.Filter(xs, HasKey(key, k)), amount)
  {
    if xs != [] {
      var init := xs[..|xs| - 1];
      var last := xs[|xs| - 1];
      SumForIsFilteredSum(init, key, amount, k);
      assert Pairs(xs, key, amount)[..|xs| - 1] == Pairs(init, key, amount);
      assert xs == init + [last];
      Seqs.FilterConcat(init, [last], HasKey(key, k));
      Seqs.SumOfConcat(Seqs.Filter(init, HasKey(key, k)), Seqs.Filter([last], HasKey(key, k)), amount);
      if key(last) == k {
        assert Seqs.Filter([last], HasKey(key, k)) == [last];
        assert Seqs.SumOf([last], amount) == amount(last);
      } else {
        assert Seqs.Filter([last], HasKey(key, k)) == [];
      }
    }
  }

  /** The amounts of the pairs add up to the amounts of the records. */
  lemma {:induction false} PairsTotal<T>(xs: seq<T>, key: T -> string, amount: T -> real)
    ensures Total(Pairs(xs, key, amount)) == Seqs.SumOf(xs, amount)
  {
    if xs != [] {
      PairsTotal(xs[..|xs| - 1], key, amount);
      assert Pairs(xs, key, amount)[..|xs| - 1] == Pairs(xs[..|xs| - 1], key, amount);
    }
  }

  /** The keys of the dictionary, and their order, depend only on the keys of the pairs. */
  lemma {:induction false} GroupSumsSameKeys(p: seq<(string, real)>, q: seq<(string, real)>)
    requires |p| == |q|
    requires forall i :: 0 <= i < |p| ==> p[i].0 == q[i].0
    ensures GroupSums(p).keys == GroupSums(q).keys
    ensures forall k :: k in GroupSums(p).sums <==> k in GroupSums(q).sums
  {
    if p != [] {
      GroupSumsSameKeys(p[..|p| - 1], q[..|q| - 1]);
    }
  }

  /** Per key, the sums of two amount functions over the same records subtract like the functions. */
  lemma {:induction false} SumForDifference<T>(xs: seq<T>, key: T -> string, f: T -> real, g: T -> real, h: T -> real, k: string)
    requires forall x :: h(x) == f(x) - g(x)
    ensures SumFor(Pairs(xs, key, h), k) == SumFor(Pairs(xs, key, f), k) - SumFor(Pairs(xs, key, g), k)
  {
    if xs != [] {
      var init := xs[..|xs| - 1];
      SumForDifference(init, key, f, g, h, k);
      assert Pairs(xs, key, h)[..|xs| - 1] == Pairs(init, key, h);
      assert Pairs(xs, key, f)[..|xs| - 1] == Pairs(init, key, f);
      assert Pairs(xs, key, g)[..|xs| - 1] == Pairs(init, key, g);
    }
  }

  /** One more pair is one more accumulation step. */
  lemma GroupSumsSnoc(pairs: seq<(string, real)>, k: string, v: real)
    ensures GroupSums(pairs + [(k, v)]) == AddTo(GroupSums(pairs), k, v)
  {
    assert (pairs + [(k, v)])[..|pairs|] == pairs;
  }

  /** `Object.entries(acc)`: each key with its value, in key order. */
  function Entries(g: Groups): (es: seq<(string, real)>)
    ensures |es| == |g.keys|
    ensures forall i :: 0 <= i < |es| ==> es[i] == (g.keys[i], Lookup(g, g.keys[i]))
  {
    Seqs.Map(g.keys, k => (k, Lookup(g, k)))
  }

  /** Grouping one more record adds its amount to its key. */
  lemma GroupedSnoc<T>(xs: seq<T>, x: T, key: T -> string, amount: T -> real)
    ensures GroupSums(Pairs(xs + [x], key, amount)) == AddTo(GroupSums(Pairs(xs, key, amount)), key(x), amount(x))
  {
    assert Pairs(xs + [x], key, amount)[..|xs|] == Pairs(xs, key, amount);
  }

  /** The keys of grouped records are exactly the keys some record carries. */
  lemma GroupedKeys<T>(xs: seq<T>, key: T -> string, amount: T -> real)
    ensures forall c :: c in GroupSums(Pairs(xs, key, amount)).keys <==> exists x :: x in xs && key(x) == c
  {
    var pairs := Pairs(xs, key, amount);
    GroupSumsKeys(pairs);
    forall c ensures c in GroupSums(pairs).keys <==> exists x :: x in xs && key(x) == c {
      if c in GroupSums(pairs).keys {
        var i :| 0 <= i < |pairs| && pairs[i].0 == c;
        assert xs[i] in xs;
      }
      if exists x :: x in xs && key(x) == c {
        var x :| x in xs && key(x) == c;
        var i :| 0 <= i < |xs| && xs[i] == x;
        assert pairs[i].0 == c;
      }
    }
  }

  /** Each entry of grouped records is its key with the total amount of the records carrying that key. */
  lemma GroupedEntries<T(!new)>(xs: seq<T>, key: T -> string, amount: T -> real)
    ensures var es := Entries(GroupSums(Pairs(xs, key, amount)));
      forall i :: 0 <= i < |es| ==> es[i].1 == Seqs.SumOf(Seqs.Filter(xs, HasKey(key, es[i].0)), amount)
  {
    var pairs := Pairs(xs, key, amount);
    var g := GroupSums(pairs);
    forall i | 0 <= i < |g.keys|
      ensures Entries(g)[i].1 == Seqs.SumOf(Seqs.Filter(xs, HasKey(key, g.keys[i])), amount)
    {
      LookupIsSumFor(pairs, g.keys[i]);
      SumForIsFilteredSum(xs, key, amount, g.keys[i]);
    }
  }

  /** The values of grouped records add up to the total amount of all of them. */
  lemma GroupedTotal<T>(xs: seq<T>, key: T -> string, amount: T -> real)
    ensures Seqs.SumOf(Values(GroupSums(Pairs(xs, key, amount))), Seqs.Identity) == Seqs.SumOf(xs, amount)
  {
    var g := GroupSums(Pairs(xs, key, amount));
    ValuesSum(g.keys, g.sums);
    GroupSumsTotal(Pairs(xs, key, amount));
    PairsTotal(xs, key, amount);
  }
}
