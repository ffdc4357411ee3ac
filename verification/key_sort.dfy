/** A stable sort by an integer key, the outcome that JavaScript's stable
    `Array.prototype.sort` gives for a comparator `(a, b) => key(a) - key(b)`
    (ascending) or `key(b) - key(a)` (descending). Computed as an insertion
    sort that puts an element before the first one it may precede. */
module KeySort {
  import Seqs

  datatype Direction = Ascending | Descending

  /** The comparator does not put a key `b` before a key `a`. */
  predicate InOrder(a: int, b: int, d: Direction) {
    match d
    case Ascending => a <= b
    case Descending => a >= b
  }

  predicate Sorted<T>(s: seq<T>, key: T -> int, d: Direction) {
    forall i, j :: 0 <= i < j < |s| ==> InOrder(key(s[i]), key(s[j]), d)
  }

  /** A sorted list stays sorted when an element that may precede all of
      it is put in front. */
  lemma SortedCons<T>(a: T, s: seq<T>, key: T -> int, d: Direction)
    requires Sorted(s, key, d)
    requires forall j :: 0 <= j < |s| ==> InOrder(key(a), key(s[j]), d)
    ensures Sorted([a] + s, key, d)
  {
    var r := [a] + s;
    forall i, j | 0 <= i < j < |r| ensures InOrder(key(r[i]), key(r[j]), d) {
      assert r[j] == s[j - 1];
      if i > 0 {
        assert r[i] == s[i - 1];
      }
    }
  }

  /** Places `x` in front of the first element it may precede. */
  function Insert<T(==)>(x: T, s: seq<T>, key: T -> int, d: Direction): (r: seq<T>)
    ensures multiset(r) == multiset(s) + multiset{x}
    ensures Sorted(s, key, d) ==> Sorted(r, key, d)
  {
    if s == [] || InOrder(key(x), key(s[0]), d) then
      assert Sorted(s, key, d) ==> Sorted([x] + s, key, d) by {
        if Sorted(s, key, d) {
          SortedCons(x, s, key, d);
        }
      }
      [x] + s
    else
      assert s == [s[0]] + s[1..];
      var rest := Insert(x, s[1..], key, d);
      assert Sorted(s, key, d) ==> Sorted([s[0]] + rest, key, d) by {
        if Sorted(s, key, d) {
          assert Sorted(s[1..], key, d) by {
            forall i, j | 0 <= i < j < |s[1..]| ensures InOrder(key(s[1..][i]), key(s[1..][j]), d) {
              assert s[1..][i] == s[i + 1] && s[1..][j] == s[j + 1];
            }
          }
          forall j | 0 <= j < |rest| ensures InOrder(key(s[0]), key(rest[j]), d) {
            assert rest[j] in multiset(rest);
            if rest[j] != x {
              assert rest[j] in multiset(s[1..]);
              var k :| 0 <= k < |s[1..]| && s[1..][k] == rest[j];
              assert s[k + 1] == rest[j];
            }
          }
          SortedCons(s[0], rest, key, d);
        }
      }
      [s[0]] + rest
  }

  /** The stable sort: a permutation of the input, ordered by the key. */
  function Sort<T(==)>(s: seq<T>, key: T -> int, d: Direction): (r: seq<T>)
    ensures multiset(r) == multiset(s)
    ensures |r| == |s|
    ensures Sorted(r, key, d)
  {
    if s == [] then []
    else
      var r := Insert(s[0], Sort(s[1..], key, d), key, d);
      assert multiset(s) == multiset{s[0]} + multiset(s[1..]) by {
        assert s == [s[0]] + s[1..];
      }
      assert |r| == |multiset(r)|;
      r
  }

  /** Selects the elements whose key is exactly `v`. */
  function KeyIs<T>(key: T -> int, v: int): T -> bool {
    y => key(y) == v
  }

  /** Insertion past the head: the head stays in front of the rest. */
  lemma InsertPastHead<T>(x: T, s: seq<T>, key: T -> int, d: Direction)
    requires s != [] && !InOrder(key(x), key(s[0]), d)
    ensures Insert(x, s, key, d) == [s[0]] + Insert(x, s[1..], key, d)
  {
  }

  /** Putting `y` in front of both sides keeps `x` in front of the kept
      elements, when at most one of `x` and `y` is kept. */
  lemma FilterConsSwap<T(!new)>(x: T, y: T, rest: seq<T>, tail: seq<T>, keep: T -> bool)
    requires !(keep(x) && keep(y))
    requires Seqs.Filter(rest, keep) == Seqs.Filter([x], keep) + Seqs.Filter(tail, keep)
    ensures Seqs.Filter([y] + rest, keep) == Seqs.Filter([x], keep) + Seqs.Filter([y] + tail, keep)
  {
    Seqs.FilterAppend([y], rest, keep);
    Seqs.FilterAppend([y], tail, keep);
    Seqs.FilterSingleton(x, keep);
    Seqs.FilterSingleton(y, keep);
    SwapFront(Seqs.Filter([x], keep), Seqs.Filter([y], keep), Seqs.Filter(tail, keep),
              Seqs.Filter([y] + rest, keep), Seqs.Filter([y] + tail, keep));
  }

  /** Of two pieces of which one is empty, either may go first. */
  lemma SwapFront<T>(fx: seq<T>, fy: seq<T>, ft: seq<T>, a: seq<T>, b: seq<T>)
    requires fx == [] || fy == []
    requires a == fy + (fx + ft) && b == fy + ft
    ensures a == fx + b
  {
    if fx == [] {
      assert fx + ft == ft;
    } else {
      assert fy + (fx + ft) == fx + ft;
      assert fy + ft == ft;
    }
  }

  /** Insertion in front keeps the order of equal keys. */
  lemma InsertAtHeadIsStable<T(!new)>(x: T, s: seq<T>, key: T -> int, d: Direction, keep: T -> bool)
    requires s == [] || InOrder(key(x), key(s[0]), d)
    ensures Seqs.Filter(Insert(x, s, key, d), keep) == Seqs.Filter([x], keep) + Seqs.Filter(s, keep)
  {
    assert Insert(x, s, key, d) == [x] + s;
    Seqs.FilterAppend([x], s, keep);
  }

  /** Insertion keeps the order of equal keys: `x` goes in front of every
      element with its key. */
  lemma {:induction false} InsertIsStable<T(!new)>(x: T, s: seq<T>, key: T -> int, d: Direction, v: int)
    ensures Seqs.Filter(Insert(x, s, key, d), KeyIs(key, v))
         == Seqs.Filter([x], KeyIs(key, v)) + Seqs.Filter(s, KeyIs(key, v))
  {
    if s == [] || InOrder(key(x), key(s[0]), d) {
      InsertAtHeadIsStable(x, s, key, d, KeyIs(key, v));
    } else {
      InsertIsStable(x, s[1..], key, d, v);
      InsertPastHead(x, s, key, d);
      // x and s[0] have different keys, so at most one of them is kept
      FilterConsSwap(x, s[0], Insert(x, s[1..], key, d), s[1..], KeyIs(key, v));
      assert [s[0]] + s[1..] == s;
    }
  }

  /** Stability: among the elements of any one key, the sorted list keeps
      the input order. */
  lemma {:induction false} SortIsStable<T(!new)>(s: seq<T>, key: T -> int, d: Direction, v: int)
    ensures Seqs.Filter(Sort(s, key, d), KeyIs(key, v)) == Seqs.Filter(s, KeyIs(key, v))
  {
    if s != [] {
      var keep := KeyIs(key, v);
      assert Seqs.Filter(Sort(s, key, d), keep)
          == Seqs.Filter([s[0]], keep) + Seqs.Filter(Sort(s[1..], key, d), keep) by {
        InsertIsStable(s[0], Sort(s[1..], key, d), key, d, v);
      }
      assert Seqs.Filter(s, keep) == Seqs.Filter([s[0]], keep) + Seqs.Filter(s[1..], keep) by {
        Seqs.FilterAppend([s[0]], s[1..], keep);
        assert [s[0]] + s[1..] == s;
      }
      SortIsStable(s[1..], key, d, v);
    }
  }
}
