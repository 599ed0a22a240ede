/** Count tables: sequences of (key, count) pairs, as pandas produces them with
    `value_counts().reset_index()` and with `groupby(key).sum().reset_index()`. */
module Tally {
  import opened Collections

  /** Some entry of `t` has key `k`. */
  ghost predicate HasKey<K>(t: seq<(K, nat)>, k: K)
  {
    exists i :: 0 <= i < |t| && t[i].0 == k
  }

  /** No key occurs in two entries of `t`. */
  ghost predicate UniqueKeys<K>(t: seq<(K, nat)>)
  {
    forall i, j :: 0 <= i < j < |t| ==> t[i].0 != t[j].0
  }

  /** The sum of the counts whose key satisfies `keep`. */
  function SumWhere<K>(t: seq<(K, nat)>, keep: K -> bool): nat
    decreases |t|
  {
    if t == [] then 0 else (if keep(t[0].0) then t[0].1 else 0) + SumWhere(t[1..], keep)
  }

  /** The sum of the counts filed under key `k`. */
  function SumFor<K(==)>(t: seq<(K, nat)>, k: K): (n: nat)
    ensures n > 0 ==> HasKey(t, k)
    decreases |t|
  {
    if t == [] then 0
    else
      var rest := SumFor(t[1..], k);
      assert rest > 0 ==> HasKey(t, k) by {
        if rest > 0 {
          var i :| 0 <= i < |t[1..]| && t[1..][i].0 == k;
          assert t[i + 1].0 == k;
        }
      }
      (if t[0].0 == k then t[0].1 else 0) + rest
  }

  /** The sum of all counts. */
  function Total<K>(t: seq<(K, nat)>): nat
    decreases |t|
  {
    if t == [] then 0 else t[0].1 + Total(t[1..])
  }

  /** The entries of `t` whose key is not `k`. */
  function WithoutKey<K(==,!new)>(t: seq<(K, nat)>, k: K): (r: seq<(K, nat)>)
    ensures |r| <= |t|
    ensures forall k' :: HasKey(r, k') <==> HasKey(t, k') && k' != k
  {
    var r := KeepIf(t, (e: (K, nat)) => e.0 != k);
    assert forall k' :: HasKey(r, k') ==> HasKey(t, k') && k' != k by {
      forall k' | HasKey(r, k') ensures HasKey(t, k') && k' != k {
        var i :| 0 <= i < |r| && r[i].0 == k';
        var j :| 0 <= j < |t| && t[j] == r[i];
      }
    }
    assert forall k' :: HasKey(t, k') && k' != k ==> HasKey(r, k') by {
      forall k' | HasKey(t, k') && k' != k ensures HasKey(r, k') {
        var j :| 0 <= j < |t| && t[j].0 == k';
        var i :| 0 <= i < |r| && r[i] == t[j];
      }
    }
    r
  }

  /** The keys of a non-empty table: its first key and the keys of its tail. */
  lemma HasKeyUncons<K>(t: seq<(K, nat)>)
    requires t != []
    ensures forall k :: HasKey(t, k) <==> t[0].0 == k || HasKey(t[1..], k)
  {
    forall k | HasKey(t, k) && t[0].0 != k ensures HasKey(t[1..], k) {
      var i :| 0 <= i < |t| && t[i].0 == k;
      assert t[1..][i - 1] == t[i];
    }
    forall k | HasKey(t[1..], k) ensures HasKey(t, k) {
      var i :| 0 <= i < |t[1..]| && t[1..][i].0 == k;
      assert t[i + 1] == t[1..][i];
    }
  }

  /** A table with a first entry whose key is not in the rest, and unique
      keys in the rest, has unique keys. */
  lemma UniqueKeysCons<K>(e: (K, nat), rest: seq<(K, nat)>)
    requires UniqueKeys(rest) && !HasKey(rest, e.0)
    ensures UniqueKeys([e] + rest)
  {
    var g := [e] + rest;
    forall i, j | 0 <= i < j < |g| ensures g[i].0 != g[j].0 {
      assert g[j] == rest[j - 1];
      if i > 0 {
        assert g[i] == rest[i - 1];
      }
    }
  }

  /** Entries with equal keys merged into one entry holding the sum of their
      counts: a `groupby(key).sum()`. Keys keep the order of their first
      appearance. */
  function GroupSum<K(==,!new)>(t: seq<(K, nat)>): (g: seq<(K, nat)>)
    ensures |g| <= |t|
    ensures UniqueKeys(g)
    ensures forall k :: HasKey(g, k) <==> HasKey(t, k)
    decreases |t|
  {
    if t == [] then []
    else
      var k := t[0].0;
      var rest := GroupSum(WithoutKey(t[1..], k));
      var g := [(k, t[0].1 + SumFor(t[1..], k))] + rest;
      HasKeyUncons(t);
      HasKeyUncons(g);
      assert g[1..] == rest;
      UniqueKeysCons(g[0], rest);
      g
  }

  /** Splitting off the entries of one key from any filtered sum. */
  lemma {:induction false} SplitByKey<K(!new)>(t: seq<(K, nat)>, k: K, keep: K -> bool)
    ensures SumWhere(t, keep) == (if keep(k) then SumFor(t, k) else 0) + SumWhere(WithoutKey(t, k), keep)
    decreases |t|
  {
    if t != [] {
      SplitByKey(t[1..], k, keep);
    }
  }

  /** Grouping keeps every filtered sum: no count is lost or counted twice. */
  lemma {:induction false} GroupSumKeepsSums<K(!new)>(t: seq<(K, nat)>, keep: K -> bool)
    ensures SumWhere(GroupSum(t), keep) == SumWhere(t, keep)
    decreases |t|
  {
    if t != [] {
      var k := t[0].0;
      GroupSumKeepsSums(WithoutKey(t[1..], k), keep);
      SplitByKey(t[1..], k, keep);
    }
  }

  /** `SumFor` is `SumWhere` with the predicate "the key is `k`". */
  lemma {:induction false} SumForIsSumWhere<K>(t: seq<(K, nat)>, k: K, isK: K -> bool)
    requires forall x :: isK(x) == (x == k)
    ensures SumFor(t, k) == SumWhere(t, isK)
    decreases |t|
  {
    if t != [] {
      SumForIsSumWhere(t[1..], k, isK);
    }
  }

  /** `Total` is `SumWhere` with a predicate that always holds. */
  lemma {:induction false} TotalIsSumWhere<K>(t: seq<(K, nat)>, always: K -> bool)
    requires forall x :: always(x)
    ensures Total(t) == SumWhere(t, always)
    decreases |t|
  {
    if t != [] {
      TotalIsSumWhere(t[1..], always);
    }
  }

  /** Grouping keeps each key's sum and the total. */
  lemma GroupSumKeepsCounts<K(!new)>(t: seq<(K, nat)>)
    ensures Total(GroupSum(t)) == Total(t)
    ensures forall k :: SumFor(GroupSum(t), k) == SumFor(t, k)
  {
    var always := (x: K) => true;
    TotalIsSumWhere(t, always);
    TotalIsSumWhere(GroupSum(t), always);
    GroupSumKeepsSums(t, always);
    forall k ensures SumFor(GroupSum(t), k) == SumFor(t, k) {
      var isK := (x: K) => x == k;
      SumForIsSumWhere(t, k, isK);
      SumForIsSumWhere(GroupSum(t), k, isK);
      GroupSumKeepsSums(t, isK);
    }
  }

  /** In a table with unique keys, an entry's count is its key's sum. */
  lemma {:induction false} UniqueEntry<K>(t: seq<(K, nat)>, i: nat)
    requires UniqueKeys(t) && i < |t|
    ensures SumFor(t, t[i].0) == t[i].1
    decreases |t|
  {
    if i == 0 {
      forall j | 0 <= j < |t[1..]| ensures t[1..][j].0 != t[0].0 {
        assert t[1..][j] == t[j + 1];
      }
    } else {
      UniqueEntry(t[1..], i - 1);
    }
  }

  /** Every element of `s` paired with the count 1. */
  function Ones<T>(s: seq<T>): (t: seq<(T, nat)>)
    ensures |t| == |s| && forall i :: 0 <= i < |s| ==> t[i] == (s[i], 1)
  {
    seq(|s|, i requires 0 <= i < |s| => (s[i], 1))
  }

  /** A filtered sum over `Ones(s)` counts the elements that pass the filter. */
  lemma {:induction false} OnesSumWhere<T>(s: seq<T>, keep: T -> bool)
    ensures SumWhere(Ones(s), keep) == |KeepIf(s, keep)|
    decreases |s|
  {
    if s != [] {
      assert Ones(s)[1..] == Ones(s[1..]);
      OnesSumWhere(s[1..], keep);
    }
  }

  /** The number of occurrences of `x` is its sum in `Ones(s)`. */
  lemma {:induction false} OnesSumFor<T>(s: seq<T>, x: T)
    ensures SumFor(Ones(s), x) == Count(s, x)
    decreases |s|
  {
    if s != [] {
      assert Ones(s)[1..] == Ones(s[1..]);
      OnesSumFor(s[1..], x);
    }
  }

  /** The number of occurrences of each distinct value: `value_counts()`. */
  function ValueCounts<T(==,!new)>(s: seq<T>): (t: seq<(T, nat)>)
    ensures |t| <= |s| && UniqueKeys(t)
    ensures forall x :: HasKey(t, x) <==> x in s
  {
    assert forall x :: HasKey(Ones(s), x) <==> x in s by {
      forall x ensures HasKey(Ones(s), x) <==> x in s {
        if x in s {
          var i :| 0 <= i < |s| && s[i] == x;
          assert Ones(s)[i].0 == x;
        }
      }
    }
    GroupSum(Ones(s))
  }

  /** One entry per distinct value, the entry for `x` counts the occurrences of
      `x`, and the counts add up to the length of the column. */
  lemma ValueCountsSpec<T(!new)>(s: seq<T>)
    ensures UniqueKeys(ValueCounts(s))
    ensures forall x :: HasKey(ValueCounts(s), x) <==> x in s
    ensures forall x :: SumFor(ValueCounts(s), x) == Count(s, x)
    ensures forall i :: 0 <= i < |ValueCounts(s)| ==> ValueCounts(s)[i].1 == Count(s, ValueCounts(s)[i].0) > 0
    ensures Total(ValueCounts(s)) == |s|
  {
    var vc := ValueCounts(s);
    GroupSumKeepsCounts(Ones(s));
    forall x ensures SumFor(vc, x) == Count(s, x) {
      OnesSumFor(s, x);
    }
    forall x ensures HasKey(vc, x) <==> x in s {
      if x in s {
        var i :| 0 <= i < |s| && s[i] == x;
        assert Ones(s)[i].0 == x;
      }
      if HasKey(Ones(s), x) {
        var i :| 0 <= i < |Ones(s)| && Ones(s)[i].0 == x;
        assert s[i] == x;
      }
    }
    forall i | 0 <= i < |vc| ensures vc[i].1 == Count(s, vc[i].0) > 0 {
      UniqueEntry(vc, i);
      assert HasKey(vc, vc[i].0);
    }
    var always := (x: T) => true;
    TotalIsSumWhere(Ones(s), always);
    OnesSumWhere(s, always);
    KeepIfAll(s, always);
  }

  /** Every key replaced by `f` of it, counts kept: relabelling a key column
      in place. */
  function Relabel<K, L>(t: seq<(K, nat)>, f: K -> L): (r: seq<(L, nat)>)
    ensures |r| == |t| && forall i :: 0 <= i < |t| ==> r[i] == (f(t[i].0), t[i].1)
  {
    seq(|t|, i requires 0 <= i < |t| => (f(t[i].0), t[i].1))
  }

  /** A filtered sum after relabelling is a filtered sum before it. */
  lemma {:induction false} RelabelSumWhere<K, L>(t: seq<(K, nat)>, f: K -> L, keep: L -> bool, keepBefore: K -> bool)
    requires forall x :: keepBefore(x) == keep(f(x))
    ensures SumWhere(Relabel(t, f), keep) == SumWhere(t, keepBefore)
    decreases |t|
  {
    if t != [] {
      assert Relabel(t, f)[1..] == Relabel(t[1..], f);
      RelabelSumWhere(t[1..], f, keep, keepBefore);
    }
  }
}
