/**
 * The meaning of an SQL `ORDER BY`: the result is a permutation of the
 * selected rows that is sorted by the ordering. The order in which SQLite
 * returns rows that tie is unspecified, so the model promises only these two
 * facts; `SortBy` (an insertion sort) is one function that meets them.
 */
module Sorting {
  import opened Strings
  import ListOps

  ghost predicate Total<T(!new)>(le: (T, T) -> bool)
  {
    forall a, b :: le(a, b) || le(b, a)
  }

  ghost predicate Transitive<T(!new)>(le: (T, T) -> bool)
  {
    forall a, b, c :: le(a, b) && le(b, c) ==> le(a, c)
  }

  ghost predicate Sorted<T>(s: seq<T>, le: (T, T) -> bool)
  {
    forall i, j :: 0 <= i < j < |s| ==> le(s[i], s[j])
  }

  /** Inserts `x` before the first element it is `le` to. */
  function Insert<T>(x: T, s: seq<T>, le: (T, T) -> bool): (r: seq<T>)
    ensures multiset(r) == multiset(s) + multiset{x}
    ensures |r| == |s| + 1
    decreases |s|
  {
    if |s| == 0 then [x]
    else if le(x, s[0]) then [x] + s
    else
      assert s == [s[0]] + s[1..];
      [s[0]] + Insert(x, s[1..], le)
  }

  function SortBy<T>(s: seq<T>, le: (T, T) -> bool): (r: seq<T>)
    ensures multiset(r) == multiset(s)
    ensures |r| == |s|
    decreases |s|
  {
    if |s| == 0 then []
    else
      assert s == [s[0]] + s[1..];
      Insert(s[0], SortBy(s[1..], le), le)
  }

  lemma {:induction false} InsertSorted<T(!new)>(x: T, s: seq<T>, le: (T, T) -> bool)
    requires Total(le) && Transitive(le)
    requires Sorted(s, le)
    ensures Sorted(Insert(x, s, le), le)
    decreases |s|
  {
    if |s| > 0 && !le(x, s[0]) {
      var tail := Insert(x, s[1..], le);
      InsertSorted(x, s[1..], le);
      assert le(s[0], x);
      forall k | 0 <= k < |tail|
        ensures le(s[0], tail[k])
      {
        assert tail[k] in multiset(tail);
        assert tail[k] in multiset(s[1..]) + multiset{x};
        if tail[k] != x {
          assert tail[k] in s[1..];
          var m :| 0 <= m < |s[1..]| && s[1..][m] == tail[k];
          assert s[m + 1] == tail[k];
        }
      }
    }
  }

  /** `SortBy` returns its input, ordered. */
  lemma {:induction false} SortBySorted<T(!new)>(s: seq<T>, le: (T, T) -> bool)
    requires Total(le) && Transitive(le)
    ensures Sorted(SortBy(s, le), le)
    decreases |s|
  {
    if |s| > 0 {
      SortBySorted(s[1..], le);
      InsertSorted(s[0], SortBy(s[1..], le), le);
    }
  }

  // --------------------------------------------------------------- sums

  function SumOf<T>(s: seq<T>, f: T -> nat): nat
    decreases |s|
  {
    if |s| == 0 then 0 else f(s[0]) + SumOf(s[1..], f)
  }

  lemma {:induction false} SumOfInsert<T>(x: T, s: seq<T>, le: (T, T) -> bool, f: T -> nat)
    ensures SumOf(Insert(x, s, le), f) == f(x) + SumOf(s, f)
    decreases |s|
  {
    if |s| > 0 && !le(x, s[0]) {
      SumOfInsert(x, s[1..], le, f);
      assert ([s[0]] + Insert(x, s[1..], le))[1..] == Insert(x, s[1..], le);
    } else if |s| > 0 {
      assert ([x] + s)[1..] == s;
    }
  }

  /** Sorting does not change a sum. */
  lemma {:induction false} SumOfSortBy<T>(s: seq<T>, le: (T, T) -> bool, f: T -> nat)
    ensures SumOf(SortBy(s, le), f) == SumOf(s, f)
    decreases |s|
  {
    if |s| > 0 {
      SumOfSortBy(s[1..], le, f);
      SumOfInsert(s[0], SortBy(s[1..], le), le, f);
    }
  }

  // ------------------------------------------------------- orderings

  /** `ORDER BY key DESC` on a TEXT column. */
  function KeyDesc<T>(key: T -> string): (T, T) -> bool
  {
    (a: T, b: T) => StrLe(key(b), key(a))
  }

  /** `ORDER BY key` (ascending) on a TEXT column. */
  function KeyAsc<T>(key: T -> string): (T, T) -> bool
  {
    (a: T, b: T) => StrLe(key(a), key(b))
  }

  /** `ORDER BY key DESC` on an INTEGER column. */
  function IntDesc<T>(key: T -> int): (T, T) -> bool
  {
    (a: T, b: T) => key(b) <= key(a)
  }

  /** `ORDER BY first, second`: the second ordering breaks the first one's ties. */
  function Then<T>(first: (T, T) -> bool, second: (T, T) -> bool): (T, T) -> bool
  {
    (a: T, b: T) => first(a, b) && (!first(b, a) || second(a, b))
  }

  lemma KeyDescOrder<T(!new)>(key: T -> string)
    ensures Total(KeyDesc(key)) && Transitive(KeyDesc(key))
  {
    forall a: T, b: T ensures KeyDesc(key)(a, b) || KeyDesc(key)(b, a) {
      StrLeTotal(key(a), key(b));
    }
    forall a: T, b: T, c: T | KeyDesc(key)(a, b) && KeyDesc(key)(b, c) ensures KeyDesc(key)(a, c) {
      StrLeTrans(key(c), key(b), key(a));
    }
  }

  lemma KeyAscOrder<T(!new)>(key: T -> string)
    ensures Total(KeyAsc(key)) && Transitive(KeyAsc(key))
  {
    forall a: T, b: T ensures KeyAsc(key)(a, b) || KeyAsc(key)(b, a) {
      StrLeTotal(key(a), key(b));
    }
    forall a: T, b: T, c: T | KeyAsc(key)(a, b) && KeyAsc(key)(b, c) ensures KeyAsc(key)(a, c) {
      StrLeTrans(key(a), key(b), key(c));
    }
  }

  lemma IntDescOrder<T(!new)>(key: T -> int)
    ensures Total(IntDesc(key)) && Transitive(IntDesc(key))
  {
  }

  /** Breaking ties of a total preorder with another total preorder gives a total preorder. */
  lemma ThenOrder<T(!new)>(first: (T, T) -> bool, second: (T, T) -> bool)
    requires Total(first) && Transitive(first) && Total(second) && Transitive(second)
    ensures Total(Then(first, second)) && Transitive(Then(first, second))
  {
    var le := Then(first, second);
    forall a: T, b: T, c: T | le(a, b) && le(b, c) ensures le(a, c) {
      assert first(a, c);
      if first(c, a) {
        assert first(b, a) && first(c, b);
        assert second(a, b) && second(b, c);
      }
    }
  }

  // ------------------------------------------------------- distinct keys

  lemma {:induction false} InsertDistinct<T, K>(x: T, s: seq<T>, le: (T, T) -> bool, key: T -> K)
    requires ListOps.DistinctKeys(s, key)
    requires forall i :: 0 <= i < |s| ==> key(s[i]) != key(x)
    ensures ListOps.DistinctKeys(Insert(x, s, le), key)
    decreases |s|
  {
    if |s| > 0 && !le(x, s[0]) {
      var tail := Insert(x, s[1..], le);
      InsertDistinct(x, s[1..], le, key);
      forall k | 0 <= k < |tail|
        ensures key(s[0]) != key(tail[k])
      {
        assert tail[k] in multiset(s[1..]) + multiset{x};
        if tail[k] != x {
          assert tail[k] in s[1..];
          var m :| 0 <= m < |s[1..]| && s[1..][m] == tail[k];
          assert s[m + 1] == tail[k];
        }
      }
    }
  }

  /** Sorting never makes two elements share a key. */
  lemma {:induction false} SortByDistinct<T, K>(s: seq<T>, le: (T, T) -> bool, key: T -> K)
    requires ListOps.DistinctKeys(s, key)
    ensures ListOps.DistinctKeys(SortBy(s, le), key)
    decreases |s|
  {
    if |s| > 0 {
      var rest := SortBy(s[1..], le);
      SortByDistinct(s[1..], le, key);
      forall k | 0 <= k < |rest|
        ensures key(rest[k]) != key(s[0])
      {
        assert rest[k] in multiset(s[1..]);
        var m :| 0 <= m < |s[1..]| && s[1..][m] == rest[k];
        assert s[m + 1] == rest[k];
      }
      InsertDistinct(s[0], rest, le, key);
    }
  }
}
