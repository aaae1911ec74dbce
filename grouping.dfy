/**
 * Grouping a sequence by a key, as both evaluation paths do with a
 * dictionary from a key (a calendar day, an issue type, a department) to the list of its elements: each element
 * is appended, in input order, to the list of its key; an element without a key
 * is dropped.
 */
module Grouping {
  import opened Wrappers

  /** The dictionary after appending the elements of `xs`, first to last. */
  function GroupBy<K(==), T>(xs: seq<T>, key: T -> Option<K>): map<K, seq<T>> {
    if xs == [] then map[]
    else
      var g := GroupBy(xs[..|xs| - 1], key);
      var x := xs[|xs| - 1];
      match key(x)
      case None => g
      case Some(k) => g[k := (if k in g then g[k] else []) + [x]]
  }

  /** The elements of `xs` that have a key, in order. */
  function Kept<K(==), T>(xs: seq<T>, key: T -> Option<K>): (r: seq<T>)
    ensures |r| <= |xs|
  {
    if xs == [] then []
    else Kept(xs[..|xs| - 1], key) + (if key(xs[|xs| - 1]).Some? then [xs[|xs| - 1]] else [])
  }

  /** The elements of `xs` whose key is `k`, in order. */
  function WithKey<K(==), T>(xs: seq<T>, key: T -> Option<K>, k: K): (r: seq<T>)
    ensures |r| <= |xs|
    ensures forall x :: x in r ==> x in xs && key(x) == Some(k)
  {
    if xs == [] then []
    else WithKey(xs[..|xs| - 1], key, k) + (if key(xs[|xs| - 1]) == Some(k) then [xs[|xs| - 1]] else [])
  }

  /**
   * The group of key `k` holds exactly the elements whose key is `k`, in input
   * order, and a key has a group exactly when some element has that key.
   */
  lemma {:induction false} GroupByMembers<K, T>(xs: seq<T>, key: T -> Option<K>, k: K)
    ensures k in GroupBy(xs, key) <==> WithKey(xs, key, k) != []
    ensures k in GroupBy(xs, key) ==> GroupBy(xs, key)[k] == WithKey(xs, key, k)
  {
    if xs != [] {
      GroupByMembers(xs[..|xs| - 1], key, k);
    }
  }

  /** Every key of the dictionary is the key of some element. */
  lemma GroupByKeys<K, T>(xs: seq<T>, key: T -> Option<K>)
    ensures forall k :: k in GroupBy(xs, key) <==> exists x :: x in xs && key(x) == Some(k)
  {
    forall k ensures k in GroupBy(xs, key) <==> exists x :: x in xs && key(x) == Some(k) {
      GroupByMembers(xs, key, k);
      if exists x :: x in xs && key(x) == Some(k) {
        var x :| x in xs && key(x) == Some(k);
        WithKeyHas(xs, key, x);
      }
    }
  }

  lemma {:induction false} WithKeyHas<K, T>(xs: seq<T>, key: T -> Option<K>, x: T)
    requires x in xs && key(x).Some?
    ensures x in WithKey(xs, key, key(x).value)
  {
    var init := xs[..|xs| - 1];
    if x != xs[|xs| - 1] {
      assert x in init by {
        var i :| 0 <= i < |xs| && xs[i] == x;
        assert init[i] == x;
      }
      WithKeyHas(init, key, x);
    }
  }

  /**
   * The keys in the order they were first met: the iteration order of a Python
   * dictionary filled by `GroupBy`.
   */
  function KeyOrder<K(==), T>(xs: seq<T>, key: T -> Option<K>): seq<K> {
    if xs == [] then []
    else
      var ks := KeyOrder(xs[..|xs| - 1], key);
      match key(xs[|xs| - 1])
      case None => ks
      case Some(k) => if k in ks then ks else ks + [k]
  }

  predicate Distinct<K(==)>(ks: seq<K>) {
    forall i, j :: 0 <= i < j < |ks| ==> ks[i] != ks[j]
  }

  /** The key order lists each key of the dictionary once, and nothing else. */
  lemma {:induction false} KeyOrderListsKeys<K, T>(xs: seq<T>, key: T -> Option<K>)
    ensures Distinct(KeyOrder(xs, key))
    ensures forall k :: k in KeyOrder(xs, key) <==> k in GroupBy(xs, key)
  {
    if xs != [] {
      KeyOrderListsKeys(xs[..|xs| - 1], key);
    }
  }

  /** The total length of the groups named in `ks`. */
  function SizeSum<K(==), T>(g: map<K, seq<T>>, ks: seq<K>): nat {
    if ks == [] then 0
    else SizeSum(g, ks[..|ks| - 1]) + (if ks[|ks| - 1] in g then |g[ks[|ks| - 1]]| else 0)
  }

  lemma {:induction false} SizeSumFrame<K, T>(g: map<K, seq<T>>, ks: seq<K>, k: K, v: seq<T>)
    requires k !in ks
    ensures SizeSum(g[k := v], ks) == SizeSum(g, ks)
  {
    if ks != [] {
      SizeSumFrame(g, ks[..|ks| - 1], k, v);
    }
  }

  lemma {:induction false} SizeSumUpdate<K, T>(g: map<K, seq<T>>, ks: seq<K>, k: K, v: seq<T>)
    requires Distinct(ks) && k in ks && k in g
    ensures SizeSum(g[k := v], ks) == SizeSum(g, ks) - |g[k]| + |v|
  {
    var init := ks[..|ks| - 1];
    if ks[|ks| - 1] == k {
      assert k !in init;
      SizeSumFrame(g, init, k, v);
    } else {
      assert k in init by {
        var i :| 0 <= i < |ks| && ks[i] == k;
        assert init[i] == k;
      }
      SizeSumUpdate(g, init, k, v);
    }
  }

  /** Every kept element lands in exactly one group: the group lengths add up to the number kept. */
  lemma {:induction false} GroupSizesSumToKept<K, T>(xs: seq<T>, key: T -> Option<K>)
    ensures SizeSum(GroupBy(xs, key), KeyOrder(xs, key)) == |Kept(xs, key)|
  {
    if xs != [] {
      var init := xs[..|xs| - 1];
      var x := xs[|xs| - 1];
      assert xs == init + [x];
      assert (init + [x])[..|init|] == init;
      GroupSizesSumToKept(init, key);
      if key(x).Some? {
        AppendSum(init, key, x, key(x).value);
      }
    }
  }

  /** Appending an element with key `k` adds one to the total of the groups. */
  lemma AppendSum<K, T>(xs: seq<T>, key: T -> Option<K>, x: T, k: K)
    requires key(x) == Some(k)
    ensures SizeSum(GroupBy(xs + [x], key), KeyOrder(xs + [x], key))
         == SizeSum(GroupBy(xs, key), KeyOrder(xs, key)) + 1
  {
    var g := GroupBy(xs, key);
    var ks := KeyOrder(xs, key);
    KeyOrderListsKeys(xs, key);
    assert (xs + [x])[..|xs|] == xs;
    if k in ks {
      assert GroupBy(xs + [x], key) == g[k := g[k] + [x]];
      SizeSumUpdate(g, ks, k, g[k] + [x]);
    } else {
      assert GroupBy(xs + [x], key) == g[k := [] + [x]];
      assert [] + [x] == [x];
      SizeSumFrame(g, ks, k, [x]);
      assert (ks + [k])[..|ks|] == ks;
    }
  }

  /** The dictionary has as many keys as the key order lists. */
  lemma {:induction false} KeyOrderCount<K, T>(xs: seq<T>, key: T -> Option<K>)
    ensures |KeyOrder(xs, key)| == |GroupBy(xs, key)|
  {
    if xs != [] {
      var init := xs[..|xs| - 1];
      KeyOrderCount(init, key);
      if key(xs[|xs| - 1]).Some? {
        AppendCount(init, key, xs[|xs| - 1], key(xs[|xs| - 1]).value);
        assert xs == init + [xs[|xs| - 1]];
      }
    }
  }

  lemma AppendCount<K, T>(xs: seq<T>, key: T -> Option<K>, x: T, k: K)
    requires key(x) == Some(k)
    requires |KeyOrder(xs, key)| == |GroupBy(xs, key)|
    ensures |KeyOrder(xs + [x], key)| == |GroupBy(xs + [x], key)|
  {
    KeyOrderListsKeys(xs, key);
    assert (xs + [x])[..|xs|] == xs;
  }

  /** Appending an element without a key changes nothing. */
  lemma AppendUnkeyed<K, T>(xs: seq<T>, key: T -> Option<K>, x: T)
    requires key(x).None?
    ensures GroupBy(xs + [x], key) == GroupBy(xs, key)
    ensures KeyOrder(xs + [x], key) == KeyOrder(xs, key)
    ensures Kept(xs + [x], key) == Kept(xs, key)
  {
    assert (xs + [x])[..|xs|] == xs;
  }

  /** Appending an element with key `k` appends it to the group of `k`, opening the group if needed. */
  lemma AppendKeyed<K, T>(xs: seq<T>, key: T -> Option<K>, x: T, k: K)
    requires key(x) == Some(k)
    ensures GroupBy(xs + [x], key)
         == GroupBy(xs, key)[k := (if k in GroupBy(xs, key) then GroupBy(xs, key)[k] else []) + [x]]
    ensures KeyOrder(xs + [x], key) == if k in KeyOrder(xs, key) then KeyOrder(xs, key) else KeyOrder(xs, key) + [k]
    ensures Kept(xs + [x], key) == Kept(xs, key) + [x]
  {
    assert (xs + [x])[..|xs|] == xs;
  }

  /** Appending an element extends the elements of its own key only. */
  lemma WithKeyAppend<K, T>(xs: seq<T>, key: T -> Option<K>, x: T, k: K)
    ensures WithKey(xs + [x], key, k) == WithKey(xs, key, k) + (if key(x) == Some(k) then [x] else [])
  {
    assert (xs + [x])[..|xs|] == xs;
  }

  /** Whether `acc` holds, for each key met in `xs` and no other, `f` of the elements with that key. */
  ghost predicate AccumulatedBy<K, T, V>(xs: seq<T>, key: T -> Option<K>, acc: map<K, V>, f: seq<T> -> V) {
    && acc.Keys == GroupBy(xs, key).Keys
    && forall k :: k in acc ==> acc[k] == f(WithKey(xs, key, k))
  }

  /** Storing `f` of its grown group under the key of one more element keeps every accumulator right. */
  lemma AccumulatedStep<K, T, V>(xs: seq<T>, key: T -> Option<K>, x: T, k: K, acc: map<K, V>, f: seq<T> -> V, v: V)
    requires key(x) == Some(k)
    requires AccumulatedBy(xs, key, acc, f)
    requires v == f(WithKey(xs + [x], key, k))
    ensures AccumulatedBy(xs + [x], key, acc[k := v], f)
  {
    AppendKeyed(xs, key, x, k);
    var next := acc[k := v];
    assert next.Keys == GroupBy(xs + [x], key).Keys;
    forall d | d in next
      ensures next[d] == f(WithKey(xs + [x], key, d))
    {
      if d != k {
        assert d in GroupBy(xs, key);
        WithKeyAppend(xs, key, x, d);
        assert WithKey(xs + [x], key, d) == WithKey(xs, key, d);
        assert next[d] == acc[d];
      }
    }
  }

  /** A sequence without repetitions has as many distinct elements as positions. */
  lemma {:induction false} DistinctCard<K>(ks: seq<K>)
    requires Distinct(ks)
    ensures |(set k | k in ks)| == |ks|
  {
    if ks != [] {
      var init := ks[..|ks| - 1];
      var last := ks[|ks| - 1];
      assert ks == init + [last];
      DistinctCard(init);
      assert last !in init;
      assert (set k | k in ks) == (set k | k in init) + {last};
    }
  }

  /** Whether `ks` lists the keys of `g`, each once: a dictionary with its iteration order. */
  ghost predicate ListsKeys<K, V>(g: map<K, V>, ks: seq<K>) {
    Distinct(ks) && (set k | k in ks) == g.Keys
  }

  lemma KeyOrderIsListing<K, T>(xs: seq<T>, key: T -> Option<K>)
    ensures ListsKeys(GroupBy(xs, key), KeyOrder(xs, key))
  {
    KeyOrderListsKeys(xs, key);
  }

  /** A key order that lists each key of a dictionary once is as long as the dictionary. */
  lemma ListedKeysCount<K, V>(g: map<K, V>, ks: seq<K>)
    requires ListsKeys(g, ks)
    ensures |ks| == |g|
  {
    DistinctCard(ks);
  }
}
