/** Sequences used as tables: selection by a row predicate (a boolean mask or a
    `WHERE` clause), counting, and the order-preserving subsequence relation. */
module Collections {

  datatype Option<T> = None | Some(value: T)

  datatype Result<T, E> = Ok(value: T) | Err(error: E)

  /** `a` is `b` with some elements left out and the rest kept in order. */
  ghost predicate Subsequence<T>(a: seq<T>, b: seq<T>)
    decreases |b|
  {
    if a == [] then true
    else if b == [] then false
    else (a[0] == b[0] && Subsequence(a[1..], b[1..])) || Subsequence(a, b[1..])
  }

  /** The rows of `s` for which `keep` holds, in their original order. */
  function KeepIf<T>(s: seq<T>, keep: T -> bool): (r: seq<T>)
    ensures |r| <= |s|
    ensures forall i :: 0 <= i < |r| ==> r[i] in s && keep(r[i])
    ensures forall i :: 0 <= i < |s| && keep(s[i]) ==> s[i] in r
    ensures Subsequence(r, s)
    decreases |s|
  {
    if s == [] then []
    else
      assert s == [s[0]] + s[1..];
      if keep(s[0]) then [s[0]] + KeepIf(s[1..], keep) else KeepIf(s[1..], keep)
  }

  /** Selecting from a concatenation selects from each part. */
  lemma {:induction false} KeepIfConcat<T>(s: seq<T>, t: seq<T>, keep: T -> bool)
    ensures KeepIf(s + t, keep) == KeepIf(s, keep) + KeepIf(t, keep)
    decreases |s|
  {
    if s == [] {
      assert s + t == t;
    } else {
      assert (s + t)[0] == s[0];
      assert (s + t)[1..] == s[1..] + t;
      KeepIfConcat(s[1..], t, keep);
    }
  }

  /** Two selections in a row are one selection by the conjunction. */
  lemma {:induction false} KeepIfFuse<T>(s: seq<T>, first: T -> bool, second: T -> bool, both: T -> bool)
    requires forall x :: both(x) == (first(x) && second(x))
    ensures KeepIf(KeepIf(s, first), second) == KeepIf(s, both)
    decreases |s|
  {
    if s != [] {
      KeepIfFuse(s[1..], first, second, both);
    }
  }

  /** A selection that every row passes returns the rows unchanged. */
  lemma {:induction false} KeepIfAll<T>(s: seq<T>, keep: T -> bool)
    requires forall x :: x in s ==> keep(x)
    ensures KeepIf(s, keep) == s
    decreases |s|
  {
    if s != [] {
      assert s[0] in s;
      forall x | x in s[1..] ensures keep(x) {
        assert x in s;
      }
      KeepIfAll(s[1..], keep);
    }
  }

  /** Every sequence is a subsequence of itself. */
  lemma {:induction false} SubsequenceRefl<T>(s: seq<T>)
    ensures Subsequence(s, s)
    decreases |s|
  {
    if s != [] {
      SubsequenceRefl(s[1..]);
    }
  }

  /** A selection that no row passes returns nothing. */
  lemma {:induction false} KeepIfNone<T>(s: seq<T>, keep: T -> bool)
    requires forall i :: 0 <= i < |s| ==> !keep(s[i])
    ensures KeepIf(s, keep) == []
    decreases |s|
  {
    if s != [] {
      KeepIfNone(s[1..], keep);
    }
  }

  /** Selections by pointwise equal predicates are equal. */
  lemma {:induction false} KeepIfSame<T>(s: seq<T>, p: T -> bool, q: T -> bool)
    requires forall x :: p(x) == q(x)
    ensures KeepIf(s, p) == KeepIf(s, q)
    decreases |s|
  {
    if s != [] {
      KeepIfSame(s[1..], p, q);
    }
  }

  /** `f` applied to every element, as a pandas `apply` over a column. */
  function MapSeq<A, B>(s: seq<A>, f: A -> B): (r: seq<B>)
    ensures |r| == |s|
  {
    seq(|s|, i requires 0 <= i < |s| => f(s[i]))
  }

  /** The number of occurrences of `x` in `s`. */
  function Count<T(==)>(s: seq<T>, x: T): (n: nat)
    ensures n <= |s|
    ensures n > 0 <==> x in s
    decreases |s|
  {
    if s == [] then 0
    else
      assert s == [s[0]] + s[1..];
      (if s[0] == x then 1 else 0) + Count(s[1..], x)
  }
}
