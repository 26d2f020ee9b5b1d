/**
 * Filtering and ordering of record lists, the two things ActiveRecord scopes
 * do here: `where` keeps the records that satisfy a condition, in table
 * order, and `order` sorts them by a key, keeping equal keys in table order.
 */
module Ordering {

  /** `where(...)`: the records satisfying `p`, in their original order. */
  function Filter<T>(xs: seq<T>, p: T -> bool): (r: seq<T>)
    ensures |r| <= |xs|
  {
    if |xs| == 0 then []
    else if p(xs[0]) then [xs[0]] + Filter(xs[1..], p)
    else Filter(xs[1..], p)
  }

  /** `where` keeps exactly the records that satisfy the condition. */
  lemma {:induction false} FilterMembers<T>(xs: seq<T>, p: T -> bool)
    ensures forall i :: 0 <= i < |Filter(xs, p)| ==> p(Filter(xs, p)[i]) && Filter(xs, p)[i] in xs
    ensures forall i :: 0 <= i < |xs| && p(xs[i]) ==> xs[i] in Filter(xs, p)
  {
    if |xs| > 0 {
      var tail := xs[1..];
      FilterMembers(tail, p);
      forall i | 0 <= i < |xs| && p(xs[i])
        ensures xs[i] in Filter(xs, p)
      {
        if i > 0 {
          assert xs[i] == tail[i - 1];
        }
      }
    }
  }

  /** Filtering two orderings of the same records keeps the same records. */
  lemma {:induction false} FilterPermutation<T>(xs: seq<T>, ys: seq<T>, p: T -> bool)
    requires multiset(xs) == multiset(ys)
    ensures multiset(Filter(xs, p)) == multiset(Filter(ys, p))
    decreases |xs|
  {
    if |xs| == 0 {
      assert |ys| == |multiset(ys)| == 0;
    } else {
      var x := xs[0];
      assert x in multiset(ys);
      var k :| 0 <= k < |ys| && ys[k] == x;
      var before, after := ys[..k], ys[k + 1..];
      RemoveOne(xs, ys, k);
      FilterPermutation(xs[1..], before + after, p);
      FilterAround(before, x, after, p);
      FilterAppend([x], xs[1..], p);
      assert [x] + xs[1..] == xs;
    }
  }

  lemma RemoveOne<T>(xs: seq<T>, ys: seq<T>, k: nat)
    requires multiset(xs) == multiset(ys) && 0 < |xs| && k < |ys| && ys[k] == xs[0]
    ensures ys == ys[..k] + [xs[0]] + ys[k + 1..]
    ensures multiset(xs[1..]) == multiset(ys[..k] + ys[k + 1..])
  {
    var before, after := ys[..k], ys[k + 1..];
    assert ys == before + [xs[0]] + after;
    assert multiset(ys) == multiset(before) + multiset{xs[0]} + multiset(after);
    assert xs == [xs[0]] + xs[1..];
    assert multiset(xs) == multiset{xs[0]} + multiset(xs[1..]);
    assert multiset(xs[1..]) == multiset(xs) - multiset{xs[0]};
    assert multiset(before + after) == multiset(ys) - multiset{xs[0]};
  }

  lemma FilterAround<T>(before: seq<T>, x: T, after: seq<T>, p: T -> bool)
    ensures multiset(Filter(before + [x] + after, p)) == multiset(Filter([x], p)) + multiset(Filter(before + after, p))
  {
    FilterAppend(before + [x], after, p);
    FilterAppend(before, [x], p);
    FilterAppend(before, after, p);
  }

  /** Two `where`s in a row are one `where` on both conditions. */
  lemma {:induction false} FilterFilter<T>(xs: seq<T>, p: T -> bool, q: T -> bool, both: T -> bool)
    requires forall x :: both(x) == (p(x) && q(x))
    ensures Filter(Filter(xs, p), q) == Filter(xs, both)
  {
    if |xs| > 0 {
      FilterFilter(xs[1..], p, q, both);
    }
  }

  lemma FilterKeeps<T>(xs: seq<T>, p: T -> bool, x: T)
    requires x in xs && p(x)
    ensures x in Filter(xs, p)
  {
    FilterMembers(xs, p);
    var i :| 0 <= i < |xs| && xs[i] == x;
  }

  lemma {:induction false} FilterAppend<T>(xs: seq<T>, ys: seq<T>, p: T -> bool)
    ensures Filter(xs + ys, p) == Filter(xs, p) + Filter(ys, p)
  {
    if |xs| > 0 {
      assert (xs + ys)[1..] == xs[1..] + ys;
      FilterAppend(xs[1..], ys, p);
    } else {
      assert xs + ys == ys;
    }
  }

  lemma {:induction false} FilterAll<T>(xs: seq<T>, p: T -> bool)
    requires forall i :: 0 <= i < |xs| ==> p(xs[i])
    ensures Filter(xs, p) == xs
  {
    if |xs| > 0 {
      FilterAll(xs[1..], p);
    }
  }

  lemma {:induction false} FilterNone<T>(xs: seq<T>, p: T -> bool)
    requires forall i :: 0 <= i < |xs| ==> !p(xs[i])
    ensures Filter(xs, p) == []
  {
    if |xs| > 0 {
      FilterNone(xs[1..], p);
    }
  }

  predicate SortedBy<T>(xs: seq<T>, key: T -> int) {
    forall i, j :: 0 <= i < j < |xs| ==> key(xs[i]) <= key(xs[j])
  }

  /** Places `x` after every element whose key is at most its own. */
  function Insert<T>(ys: seq<T>, x: T, key: T -> int): (r: seq<T>)
    ensures multiset(r) == multiset(ys) + multiset{x}
    ensures |r| == |ys| + 1
    decreases |ys|
  {
    if |ys| == 0 then [x]
    else if key(ys[|ys| - 1]) <= key(x) then ys + [x]
    else
      assert ys == ys[..|ys| - 1] + [ys[|ys| - 1]];
      Insert(ys[..|ys| - 1], x, key) + [ys[|ys| - 1]]
  }

  /** Inserting into a sorted list keeps it sorted. */
  lemma {:induction false} InsertSorted<T>(ys: seq<T>, x: T, key: T -> int)
    requires SortedBy(ys, key)
    ensures SortedBy(Insert(ys, x, key), key)
    decreases |ys|
  {
    if |ys| > 0 && key(x) < key(ys[|ys| - 1]) {
      var init := ys[..|ys| - 1];
      var last := ys[|ys| - 1];
      var s := Insert(init, x, key);
      assert SortedBy(init, key);
      InsertSorted(init, x, key);
      assert forall i :: 0 <= i < |s| ==> key(s[i]) <= key(last) by {
        forall i | 0 <= i < |s|
          ensures key(s[i]) <= key(last)
        {
          assert s[i] in multiset(s);
          assert s[i] in multiset(init) || s[i] == x;
          if s[i] != x {
            var k :| 0 <= k < |init| && init[k] == s[i];
          }
        }
      }
    }
  }

  /** `order(key: :asc)`, a stable insertion sort. */
  function SortBy<T>(xs: seq<T>, key: T -> int): (r: seq<T>)
    ensures SortedBy(r, key)
    ensures multiset(r) == multiset(xs)
    ensures |r| == |xs|
  {
    if |xs| == 0 then []
    else
      assert xs == xs[..|xs| - 1] + [xs[|xs| - 1]];
      InsertSorted(SortBy(xs[..|xs| - 1], key), xs[|xs| - 1], key);
      Insert(SortBy(xs[..|xs| - 1], key), xs[|xs| - 1], key)
  }

  /** Sorting a list that is already in key order changes nothing. */
  lemma {:induction false} SortBySorted<T>(xs: seq<T>, key: T -> int)
    requires SortedBy(xs, key)
    ensures SortBy(xs, key) == xs
  {
    if |xs| > 0 {
      var init := xs[..|xs| - 1];
      var last := xs[|xs| - 1];
      assert SortedBy(init, key);
      SortBySorted(init, key);
      assert SortBy(xs, key) == Insert(init, last, key);
      if |init| > 0 {
        assert key(init[|init| - 1]) <= key(last);
      }
      SplitLast(xs);
    }
  }

  lemma SplitLast<T>(xs: seq<T>)
    requires |xs| > 0
    ensures xs == xs[..|xs| - 1] + [xs[|xs| - 1]]
  { }

  /** Keeping some of the records of a sorted list keeps it sorted. */
  lemma {:induction false} FilterSorted<T>(xs: seq<T>, p: T -> bool, key: T -> int)
    requires SortedBy(xs, key)
    ensures SortedBy(Filter(xs, p), key)
  {
    if |xs| > 0 {
      var tail := xs[1..];
      assert SortedBy(tail, key);
      FilterSorted(tail, p, key);
      FilterMembers(tail, p);
      if p(xs[0]) {
        var rest := Filter(tail, p);
        forall i | 0 <= i < |rest|
          ensures key(xs[0]) <= key(rest[i])
        {
          var k :| 0 <= k < |tail| && tail[k] == rest[i];
          assert tail[k] == xs[k + 1];
        }
        ConsSorted(xs[0], rest, key);
      }
    }
  }

  lemma ConsSorted<T>(x: T, rest: seq<T>, key: T -> int)
    requires SortedBy(rest, key)
    requires forall i :: 0 <= i < |rest| ==> key(x) <= key(rest[i])
    ensures SortedBy([x] + rest, key)
  {
    var s := [x] + rest;
    forall i, j | 0 <= i < j < |s|
      ensures key(s[i]) <= key(s[j])
    {
      assert s[j] == rest[j - 1];
      if i > 0 {
        assert s[i] == rest[i - 1];
      }
    }
  }

  /**
   * `where` on an `order`ed relation: sorted by the key, and exactly the
   * records satisfying the condition, each as often as it occurs.
   */
  lemma SortThenFilter<T>(xs: seq<T>, key: T -> int, p: T -> bool)
    ensures SortedBy(Filter(SortBy(xs, key), p), key)
    ensures multiset(Filter(SortBy(xs, key), p)) == multiset(Filter(xs, p))
    ensures forall i :: 0 <= i < |Filter(SortBy(xs, key), p)| ==>
      p(Filter(SortBy(xs, key), p)[i]) && Filter(SortBy(xs, key), p)[i] in xs
    ensures forall i :: 0 <= i < |xs| && p(xs[i]) ==> xs[i] in Filter(SortBy(xs, key), p)
  {
    var sorted := SortBy(xs, key);
    var r := Filter(sorted, p);
    FilterSorted(sorted, p, key);
    FilterPermutation(sorted, xs, p);
    FilterMembers(xs, p);
    forall i | 0 <= i < |r|
      ensures p(r[i]) && r[i] in xs
    {
      assert r[i] in multiset(Filter(xs, p));
    }
    forall i | 0 <= i < |xs| && p(xs[i])
      ensures xs[i] in r
    {
      assert xs[i] in multiset(Filter(xs, p));
    }
  }

  /** Two lists with the same multiset hold the same elements. */
  lemma SameMembers<T>(a: seq<T>, b: seq<T>)
    requires multiset(a) == multiset(b)
    ensures forall i :: 0 <= i < |a| ==> a[i] in b
  {
    forall i | 0 <= i < |a|
      ensures a[i] in b
    {
      assert a[i] in multiset(a);
    }
  }

  /** Regrouping a concatenation of four sequences. */
  lemma AppendAssoc<T>(a: seq<T>, b: seq<T>, c: seq<T>, d: seq<T>)
    ensures a + b + c + d == a + (b + c + d)
  {
  }
}
