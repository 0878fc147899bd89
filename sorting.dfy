/**
 * `Array.prototype.sort` with a comparator, and Python's `list.sort(key=...)`: both are
 * stable sorts. The model is a stable insertion sort over a "may precede" relation.
 */
module Sorting {

  /**
   * On the values `dom` admits, `le` orders every pair and is transitive: what a
   * comparator consistent on those values induces.
   */
  ghost predicate TotalPreorderOn<T(!new)>(le: (T, T) -> bool, dom: T -> bool) {
    (forall a, b :: dom(a) && dom(b) ==> le(a, b) || le(b, a)) &&
    (forall a, b, c :: dom(a) && dom(b) && dom(c) && le(a, b) && le(b, c) ==> le(a, c))
  }

  ghost predicate AllIn<T>(s: seq<T>, dom: T -> bool) {
    forall i :: 0 <= i < |s| ==> dom(s[i])
  }

  ghost predicate Sorted<T>(s: seq<T>, le: (T, T) -> bool) {
    forall i, j :: 0 <= i < j < |s| ==> le(s[i], s[j])
  }

  /** Inserts `x` before the first element it may precede. */
  function Insert<T>(x: T, s: seq<T>, le: (T, T) -> bool): (r: seq<T>)
    ensures multiset(r) == multiset(s) + multiset{x}
    ensures |r| == |s| + 1
  {
    if s == [] then [x]
    else if le(x, s[0]) then [x] + s
    else
      assert s == [s[0]] + s[1..];
      [s[0]] + Insert(x, s[1..], le)
  }

  /** Insertion sort: each element is inserted into the sorted rest, so ties keep their order. */
  function SortBy<T>(s: seq<T>, le: (T, T) -> bool): (r: seq<T>)
    ensures multiset(r) == multiset(s)
    ensures |r| == |s|
  {
    if s == [] then []
    else
      assert s == [s[0]] + s[1..];
      Insert(s[0], SortBy(s[1..], le), le)
  }

  lemma {:induction false} InsertSorted<T(!new)>(x: T, s: seq<T>, le: (T, T) -> bool, dom: T -> bool)
    requires TotalPreorderOn(le, dom)
    requires dom(x) && AllIn(s, dom)
    requires Sorted(s, le)
    ensures Sorted(Insert(x, s, le), le)
  {
    if s != [] && !le(x, s[0]) {
      var tail := Insert(x, s[1..], le);
      InsertSorted(x, s[1..], le, dom);
      assert dom(s[0]);
      assert le(s[0], x);
      forall k | 0 <= k < |tail|
        ensures le(s[0], tail[k])
      {
        assert tail[k] in multiset(tail);
        if tail[k] != x {
          assert tail[k] in multiset(s[1..]);
          var j :| 0 <= j < |s[1..]| && s[1..][j] == tail[k];
          assert s[j + 1] == tail[k];
        }
      }
      assert Insert(x, s, le) == [s[0]] + tail;
    }
  }

  /** The sorted output is ordered by `le` and is a permutation of the input. */
  lemma {:induction false} SortBySorted<T(!new)>(s: seq<T>, le: (T, T) -> bool, dom: T -> bool)
    requires TotalPreorderOn(le, dom)
    requires AllIn(s, dom)
    ensures Sorted(SortBy(s, le), le)
    ensures multiset(SortBy(s, le)) == multiset(s)
  {
    if s != [] {
      SortBySorted(s[1..], le, dom);
      var rest := SortBy(s[1..], le);
      forall i | 0 <= i < |rest|
        ensures dom(rest[i])
      {
        assert rest[i] in multiset(s[1..]);
        var j :| 0 <= j < |s[1..]| && s[1..][j] == rest[i];
        assert s[j + 1] == rest[i];
      }
      InsertSorted(s[0], rest, le, dom);
    }
  }
}
