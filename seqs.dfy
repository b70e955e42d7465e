/**
  Generic operations on sequences. A database table is modelled as a sequence
  of rows in storage order; these functions play the part of the scans that
  SQLite performs for `WHERE`, `DELETE ... WHERE`, `UNIQUE` and `ORDER BY`.
 */
module Seqs {
  import opened Base

  /** The index of the first element satisfying `p`, if there is one. */
  function IndexWhere<T>(s: seq<T>, p: T -> bool): (r: Option<nat>)
    ensures r.Some? ==> r.value < |s| && p(s[r.value])
    ensures r.Some? ==> forall j :: 0 <= j < r.value ==> !p(s[j])
    ensures r.None? <==> forall j :: 0 <= j < |s| ==> !p(s[j])
  {
    if |s| == 0 then None
    else if p(s[0]) then Some(0)
    else match IndexWhere(s[1..], p)
      case None => None
      case Some(k) => Some(k + 1)
  }

  /** The elements of `s` that satisfy `keep`, in their original order. */
  function Filter<T(!new)>(s: seq<T>, keep: T -> bool): (r: seq<T>)
    ensures |r| <= |s|
    ensures forall x :: x in r <==> x in s && keep(x)
  {
    if |s| == 0 then []
    else
      assert s == [s[0]] + s[1..];
      if keep(s[0]) then [s[0]] + Filter(s[1..], keep)
      else Filter(s[1..], keep)
  }

  /** No two positions of `s` share a key: the shape of a PRIMARY KEY or UNIQUE constraint. */
  predicate DistinctBy<T, K(==)>(s: seq<T>, key: T -> K) {
    forall i, j :: 0 <= i < j < |s| ==> key(s[i]) != key(s[j])
  }

  /** Each kept value occurs in the result as often as in the input; no other value occurs. */
  lemma {:induction false} FilterMultiset<T(!new)>(s: seq<T>, keep: T -> bool)
    ensures forall x :: multiset(Filter(s, keep))[x] == if keep(x) then multiset(s)[x] else 0
  {
    if |s| > 0 {
      FilterMultiset(s[1..], keep);
      assert s == [s[0]] + s[1..];
      if keep(s[0]) {
        assert Filter(s, keep) == [s[0]] + Filter(s[1..], keep);
      }
    }
  }

  /** A filter that keeps every element changes nothing. */
  lemma {:induction false} FilterKeepsAll<T(!new)>(s: seq<T>, keep: T -> bool)
    requires forall j :: 0 <= j < |s| ==> keep(s[j])
    ensures Filter(s, keep) == s
  {
    if |s| > 0 {
      FilterKeepsAll(s[1..], keep);
    }
  }

  /** A filter that rejects exactly position `i` deletes that one element and nothing else. */
  lemma {:induction false} FilterDropsOne<T(!new)>(s: seq<T>, keep: T -> bool, i: nat)
    requires i < |s|
    requires forall j :: 0 <= j < |s| ==> (keep(s[j]) <==> j != i)
    ensures Filter(s, keep) == s[..i] + s[i + 1..]
    ensures |Filter(s, keep)| == |s| - 1
  {
    var t := s[1..];
    if i == 0 {
      assert Filter(t, keep) == t by {
        assert forall j :: 0 <= j < |t| ==> keep(t[j]) by {
          forall j | 0 <= j < |t| ensures keep(t[j]) {
            assert t[j] == s[j + 1];
          }
        }
        FilterKeepsAll(t, keep);
      }
      assert s[..0] + s[1..] == t;
    } else {
      assert Filter(t, keep) == t[..i - 1] + t[i..] by {
        assert forall j :: 0 <= j < |t| ==> (keep(t[j]) <==> j != i - 1) by {
          forall j | 0 <= j < |t| ensures keep(t[j]) <==> j != i - 1 {
            assert t[j] == s[j + 1];
          }
        }
        FilterDropsOne(t, keep, i - 1);
      }
      assert keep(s[0]);
      assert s[..i] + s[i + 1..] == [s[0]] + (t[..i - 1] + t[i..]);
    }
  }

  /** Dropping the first element keeps distinct keys distinct. */
  lemma TailDistinct<T, K>(s: seq<T>, key: T -> K)
    requires |s| > 0 && DistinctBy(s, key)
    ensures DistinctBy(s[1..], key)
  {
    forall i, j | 0 <= i < j < |s[1..]|
      ensures key(s[1..][i]) != key(s[1..][j])
    {
      assert s[1..][i] == s[i + 1] && s[1..][j] == s[j + 1];
    }
  }

  /** Prefixing an element whose key is new keeps the keys distinct. */
  lemma ConsDistinct<T, K>(x: T, t: seq<T>, key: T -> K)
    requires DistinctBy(t, key)
    requires forall j :: 0 <= j < |t| ==> key(t[j]) != key(x)
    ensures DistinctBy([x] + t, key)
  {
    forall i, j | 0 <= i < j < |[x] + t|
      ensures key(([x] + t)[i]) != key(([x] + t)[j])
    {
      assert ([x] + t)[j] == t[j - 1];
      if i > 0 {
        assert ([x] + t)[i] == t[i - 1];
      }
    }
  }

  /** Keeping only some positions keeps distinct keys distinct. */
  lemma {:induction false} FilterDistinct<T(!new), K>(s: seq<T>, keep: T -> bool, key: T -> K)
    requires DistinctBy(s, key)
    ensures DistinctBy(Filter(s, keep), key)
  {
    if |s| > 0 {
      TailDistinct(s, key);
      FilterDistinct(s[1..], keep, key);
      var rest := Filter(s[1..], keep);
      if keep(s[0]) {
        forall j | 0 <= j < |rest| ensures key(rest[j]) != key(s[0]) {
          assert rest[j] in s[1..];
          var k :| 0 <= k < |s[1..]| && s[1..][k] == rest[j];
          assert s[k + 1] == rest[j];
        }
        ConsDistinct(s[0], rest, key);
      }
    }
  }

  /** Appending an element whose key is new keeps the keys distinct. */
  lemma AppendDistinct<T, K>(s: seq<T>, x: T, key: T -> K)
    requires DistinctBy(s, key)
    requires forall j :: 0 <= j < |s| ==> key(s[j]) != key(x)
    ensures DistinctBy(s + [x], key)
  {
    forall i, j | 0 <= i < j < |s + [x]|
      ensures key((s + [x])[i]) != key((s + [x])[j])
    {
      assert (s + [x])[i] == s[i];
      if j < |s| {
        assert (s + [x])[j] == s[j];
      }
    }
  }

  /** `s` is in ascending order of `key`. */
  predicate SortedBy<T>(s: seq<T>, key: T -> real) {
    forall i, j :: 0 <= i < j < |s| ==> key(s[i]) <= key(s[j])
  }

  /** Inserts `x` into the sorted `s` just before the first element whose key is not smaller than its own. */
  function InsertSorted<T(!new)>(x: T, s: seq<T>, key: T -> real): (r: seq<T>)
    requires SortedBy(s, key)
    ensures SortedBy(r, key)
    ensures multiset(r) == multiset(s) + multiset{x}
    ensures |r| == |s| + 1
    ensures forall y :: y in r <==> y == x || y in s
  {
    if |s| == 0 then [x]
    else if key(x) <= key(s[0]) then
      var r := [x] + s;
      assert forall j :: 0 < j < |r| ==> r[j] == s[j - 1];
      r
    else
      var rest := InsertSorted(x, s[1..], key);
      assert multiset(s) == multiset{s[0]} + multiset(s[1..]) by {
        assert s == [s[0]] + s[1..];
      }
      var r := [s[0]] + rest;
      assert forall j :: 0 < j < |r| ==> key(s[0]) <= key(r[j]) by {
        forall j | 0 < j < |r| ensures key(s[0]) <= key(r[j]) {
          assert r[j] == rest[j - 1];
          assert rest[j - 1] in rest;
          if rest[j - 1] != x {
            var k :| 0 <= k < |s[1..]| && s[1..][k] == rest[j - 1];
            assert s[k + 1] == rest[j - 1];
          }
        }
      }
      r
  }

  /**
    Insertion sort by `key`: ascending and a permutation of the input. Each
    element is inserted ahead of the later elements with an equal key, so ties
    keep their input order.
   */
  function SortBy<T(!new)>(s: seq<T>, key: T -> real): (r: seq<T>)
    ensures SortedBy(r, key)
    ensures multiset(r) == multiset(s)
    ensures |r| == |s|
  {
    if |s| == 0 then []
    else
      assert s == [s[0]] + s[1..];
      InsertSorted(s[0], SortBy(s[1..], key), key)
  }
}
