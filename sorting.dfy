/**
 * Python's `sorted` / `list.sort`, which are stable: an insertion sort by a
 * "comes no later than" relation `le`. The engine sorts timestamps, strings and
 * (count, type) pairs with it.
 */
module Sorting {

  /** `le` orders any two elements of `s`, one way or the other. */
  ghost predicate TotalOn<T>(s: seq<T>, le: (T, T) -> bool) {
    forall a, b :: a in s && b in s ==> le(a, b) || le(b, a)
  }

  ghost predicate TransitiveOn<T>(s: seq<T>, le: (T, T) -> bool) {
    forall a, b, c :: a in s && b in s && c in s && le(a, b) && le(b, c) ==> le(a, c)
  }

  predicate SortedBy<T>(s: seq<T>, le: (T, T) -> bool) {
    forall i, j :: 0 <= i < j < |s| ==> le(s[i], s[j])
  }

  /** `x` placed before the first element of `s` it comes no later than. */
  function Insert<T(==)>(x: T, s: seq<T>, le: (T, T) -> bool): (r: seq<T>)
    ensures |r| == |s| + 1
    ensures multiset(r) == multiset(s) + multiset{x}
  {
    if s == [] || le(x, s[0]) then [x] + s
    else
      assert s == [s[0]] + s[1..];
      [s[0]] + Insert(x, s[1..], le)
  }

  /** The stable sort of `s` by `le`. */
  function SortBy<T(==)>(s: seq<T>, le: (T, T) -> bool): (r: seq<T>)
    ensures |r| == |s|
    ensures multiset(r) == multiset(s)
  {
    if s == [] then []
    else
      assert s == [s[0]] + s[1..];
      Insert(s[0], SortBy(s[1..], le), le)
  }

  lemma {:induction false} InsertSorted<T>(x: T, s: seq<T>, le: (T, T) -> bool)
    requires SortedBy(s, le)
    requires TotalOn(s + [x], le) && TransitiveOn(s + [x], le)
    ensures SortedBy(Insert(x, s, le), le)
  {
    if s != [] && !le(x, s[0]) {
      assert s[0] in s + [x] && x in s + [x];
      assert le(s[0], x);
      var t := s[1..];
      assert forall a :: a in t + [x] ==> a in s + [x] by {
        forall a | a in t + [x] ensures a in s + [x] {
          if a != x {
            var k :| 0 <= k < |t| && t[k] == a;
            assert s[k + 1] == a;
          }
        }
      }
      InsertSorted(x, t, le);
      var r := Insert(x, t, le);
      assert multiset(r) == multiset(t) + multiset{x};
      forall j | 0 <= j < |r| ensures le(s[0], r[j]) {
        assert r[j] in multiset(r);
        if r[j] == x {
        } else {
          assert r[j] in multiset(t);
          var k :| 0 <= k < |t| && t[k] == r[j];
          assert s[k + 1] == r[j];
        }
      }
    }
  }

  /** `SortBy` sorts whenever `le` is a total preorder on the elements. */
  lemma {:induction false} SortBySorted<T>(s: seq<T>, le: (T, T) -> bool)
    requires TotalOn(s, le) && TransitiveOn(s, le)
    ensures SortedBy(SortBy(s, le), le)
  {
    if s != [] {
      var t := s[1..];
      assert forall a :: a in t ==> a in s;
      SortBySorted(t, le);
      var st := SortBy(t, le);
      forall a | a in st + [s[0]] ensures a in s {
        if a != s[0] {
          assert a in multiset(st);
        }
      }
      InsertSorted(s[0], st, le);
    }
  }
}
