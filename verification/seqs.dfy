/** Order-preserving filtering over sequences: the `Array.prototype.filter`
    that the storefront uses for removal, search and catalogue views. */
module Seqs {

  /** The elements of `s` that satisfy `keep`, in their original order. */
  function Filter<T(==, !new)>(s: seq<T>, keep: T -> bool): (r: seq<T>)
    ensures |r| <= |s|
    ensures forall i :: 0 <= i < |r| ==> keep(r[i])
  {
    if s == [] then []
    else (if keep(s[0]) then [s[0]] else []) + Filter(s[1..], keep)
  }

  /** The filtered sequence holds exactly the elements of `s` that pass. */
  lemma {:induction false} FilterMembers<T(!new)>(s: seq<T>, keep: T -> bool)
    ensures forall x :: x in Filter(s, keep) <==> x in s && keep(x)
  {
    if s != [] {
      FilterMembers(s[1..], keep);
      assert s == [s[0]] + s[1..];
    }
  }

  /** Filtering distributes over concatenation: the relative order of the
      kept elements is that of the input. */
  lemma {:induction false} FilterAppend<T(!new)>(a: seq<T>, b: seq<T>, keep: T -> bool)
    ensures Filter(a + b, keep) == Filter(a, keep) + Filter(b, keep)
  {
    if a == [] {
      assert a + b == b;
    } else {
      assert (a + b)[0] == a[0];
      assert (a + b)[1..] == a[1..] + b;
      FilterAppend(a[1..], b, keep);
    }
  }

  lemma FilterSingleton<T(!new)>(x: T, keep: T -> bool)
    ensures Filter([x], keep) == if keep(x) then [x] else []
  {
    assert [x][1..] == [];
  }

  /** A filter that every element passes returns its input unchanged. */
  lemma {:induction false} FilterKeepsAll<T(!new)>(s: seq<T>, keep: T -> bool)
    requires forall i :: 0 <= i < |s| ==> keep(s[i])
    ensures Filter(s, keep) == s
  {
    if s != [] {
      FilterKeepsAll(s[1..], keep);
    }
  }

  /** No two elements of `s` share a key. */
  predicate DistinctKeys<T, K(==)>(s: seq<T>, key: T -> K) {
    forall i, j :: 0 <= i < j < |s| ==> key(s[i]) != key(s[j])
  }

  /** Filtering never creates two elements with the same key. */
  lemma {:induction false} FilterKeepsDistinct<T(!new), K>(s: seq<T>, keep: T -> bool, key: T -> K)
    requires DistinctKeys(s, key)
    ensures DistinctKeys(Filter(s, keep), key)
  {
    if s != [] {
      var tail := Filter(s[1..], keep);
      assert DistinctKeys(s[1..], key) by {
        forall i, j | 0 <= i < j < |s[1..]| ensures key(s[1..][i]) != key(s[1..][j]) {
          assert s[1..][i] == s[i + 1] && s[1..][j] == s[j + 1];
        }
      }
      FilterKeepsDistinct(s[1..], keep, key);
      if keep(s[0]) {
        var r := [s[0]] + tail;
        forall i, j | 0 <= i < j < |r| ensures key(r[i]) != key(r[j]) {
          if i == 0 {
            FilterMembers(s[1..], keep);
            assert r[j] in s[1..];
            var k :| 0 <= k < |s[1..]| && s[1..][k] == r[j];
            assert s[k + 1] == r[j];
          } else {
            assert r[i] == tail[i - 1] && r[j] == tail[j - 1];
          }
        }
      }
    }
  }

  /** Two tests that agree on every element select the same elements. */
  lemma {:induction false} FilterCongruent<T(!new)>(s: seq<T>, k1: T -> bool, k2: T -> bool)
    requires forall i :: 0 <= i < |s| ==> k1(s[i]) == k2(s[i])
    ensures Filter(s, k1) == Filter(s, k2)
  {
    if s != [] {
      FilterCongruent(s[1..], k1, k2);
    }
  }

  /** Filtering by a stricter test after a looser one is filtering by the
      stricter test alone. */
  lemma {:induction false} FilterNarrows<T(!new)>(s: seq<T>, loose: T -> bool, strict: T -> bool)
    requires forall i :: 0 <= i < |s| && strict(s[i]) ==> loose(s[i])
    ensures Filter(Filter(s, loose), strict) == Filter(s, strict)
  {
    if s != [] {
      FilterNarrows(s[1..], loose, strict);
      var tail := Filter(s[1..], loose);
      if loose(s[0]) {
        assert Filter(s, loose) == [s[0]] + tail;
        FilterAppend([s[0]], tail, strict);
        FilterSingleton(s[0], strict);
      } else {
        assert Filter(s, loose) == tail;
      }
    }
  }
}
