/**
 * The two array operations the service's queries are built from:
 * `Array.prototype.filter` and `Array.prototype.sort` with a numeric
 * comparator `(a, b) => key(a) - key(b)`, which orders by ascending key.
 */
module Seqs {
  import opened Domain

  /** The index of the first element satisfying `p` (`Array.prototype.findIndex`), or None for -1. */
  function FindIndex<T(!new)>(s: seq<T>, p: T -> bool): (r: Option<nat>)
    ensures r.Some? ==> r.value < |s| && p(s[r.value]) && forall k :: 0 <= k < r.value ==> !p(s[k])
    ensures r.None? <==> forall k :: 0 <= k < |s| ==> !p(s[k])
  {
    if s == [] then None
    else if p(s[0]) then Some(0)
    else match FindIndex(s[1..], p)
      case Some(i) => Some(i + 1)
      case None => None
  }

  /** The first element satisfying `p` (`Array.prototype.find`), or None for undefined. */
  function Find<T(!new)>(s: seq<T>, p: T -> bool): (r: Option<T>)
    ensures r.Some? <==> FindIndex(s, p).Some?
    ensures r.Some? ==> r.value == s[FindIndex(s, p).value]
  {
    match FindIndex(s, p)
    case Some(i) => Some(s[i])
    case None => None
  }


  /** The elements of `s` satisfying `p`, in their original order. */
  function Filter<T(!new)>(s: seq<T>, p: T -> bool): (r: seq<T>)
    ensures |r| <= |s|
    ensures forall x :: x in r <==> x in s && p(x)
    ensures multiset(r) <= multiset(s)
  {
    if s == [] then []
    else
      assert s == s[..|s| - 1] + [s[|s| - 1]];
      Filter(s[..|s| - 1], p) + (if p(s[|s| - 1]) then [s[|s| - 1]] else [])
  }

  /** Filtering distributes over concatenation, so the kept elements stay in order. */
  lemma {:induction false} FilterAppend<T(!new)>(a: seq<T>, b: seq<T>, p: T -> bool)
    ensures Filter(a + b, p) == Filter(a, p) + Filter(b, p)
  {
    if b == [] {
      assert a + b == a;
    } else {
      calc {
        Filter(a + b, p);
        { assert (a + b)[..|a + b| - 1] == a + b[..|b| - 1]; }
        Filter(a + b[..|b| - 1], p) + (if p(b[|b| - 1]) then [b[|b| - 1]] else []);
        { FilterAppend(a, b[..|b| - 1], p); }
        Filter(a, p) + Filter(b[..|b| - 1], p) + (if p(b[|b| - 1]) then [b[|b| - 1]] else []);
      }
    }
  }

  /** A filter every element passes keeps the whole sequence. */
  lemma {:induction false} FilterAll<T(!new)>(s: seq<T>, p: T -> bool)
    requires forall k :: 0 <= k < |s| ==> p(s[k])
    ensures Filter(s, p) == s
  {
    if s != [] {
      FilterAll(s[..|s| - 1], p);
      assert s == s[..|s| - 1] + [s[|s| - 1]];
    }
  }

  /** A filter no element passes keeps nothing. */
  lemma FilterNone<T(!new)>(s: seq<T>, p: T -> bool)
    requires forall k :: 0 <= k < |s| ==> !p(s[k])
    ensures Filter(s, p) == []
  {
  }

  /** Filtering a sequence whose elements all pass except possibly one keeps all but that one, which it keeps iff it passes. */
  lemma FilterAroundOne<T(!new)>(before: seq<T>, x: T, after: seq<T>, p: T -> bool)
    requires forall k :: 0 <= k < |before| ==> p(before[k])
    requires forall k :: 0 <= k < |after| ==> p(after[k])
    ensures Filter(before + [x] + after, p) == before + (if p(x) then [x] else []) + after
  {
    FilterAppend(before + [x], after, p);
    FilterAppend(before, [x], p);
    FilterAll(before, p);
    FilterAll(after, p);
    assert Filter([x], p) == Filter([], p) + (if p(x) then [x] else []);
  }

  /** A filter that keeps nothing new the second time: filtering is idempotent. */
  lemma {:induction false} FilterIdempotent<T(!new)>(s: seq<T>, p: T -> bool)
    ensures Filter(Filter(s, p), p) == Filter(s, p)
  {
    if s != [] {
      var init, last := s[..|s| - 1], s[|s| - 1];
      FilterIdempotent(init, p);
      FilterAppend(Filter(init, p), if p(last) then [last] else [], p);
      if p(last) {
        assert Filter([last], p) == Filter([], p) + [last];
      } else {
        assert Filter([], p) == [];
      }
    }
  }

  ghost predicate SortedBy<T(!new)>(s: seq<T>, key: T -> int) {
    forall i, j :: 0 <= i < j < |s| ==> key(s[i]) <= key(s[j])
  }

  /** Inserts `x` before the first element whose key is larger, keeping equal keys in order. */
  function InsertBy<T(!new)>(x: T, s: seq<T>, key: T -> int): (r: seq<T>)
    requires SortedBy(s, key)
    ensures SortedBy(r, key)
    ensures multiset(r) == multiset(s) + multiset{x}
  {
    if s == [] then [x]
    else if key(x) < key(s[0]) then [x] + s
    else
      var rest := InsertBy(x, s[1..], key);
      assert s == [s[0]] + s[1..];
      assert forall k :: 0 <= k < |rest| ==> key(s[0]) <= key(rest[k]) by {
        forall k | 0 <= k < |rest| ensures key(s[0]) <= key(rest[k]) {
          assert rest[k] in multiset(rest);
          assert rest[k] == x || rest[k] in s[1..];
        }
      }
      [s[0]] + rest
  }

  /** A stable sort by ascending key (insertion sort). */
  function SortBy<T(!new)>(s: seq<T>, key: T -> int): (r: seq<T>)
    ensures SortedBy(r, key)
    ensures multiset(r) == multiset(s)
    ensures |r| == |s|
    ensures forall x :: x in r <==> x in s
  {
    if s == [] then []
    else
      var r := InsertBy(s[|s| - 1], SortBy(s[..|s| - 1], key), key);
      assert s == s[..|s| - 1] + [s[|s| - 1]];
      assert |r| == |multiset(r)|;
      assert forall x :: x in r <==> x in multiset(r);
      r
  }
}
