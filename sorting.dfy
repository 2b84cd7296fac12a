/**
 * A stable sort by an integer key. JavaScript's `Array.prototype.sort` is
 * stable, so sorting with the comparator `(a, b) => key(a) - key(b)` is this
 * function; SQL's `ORDER BY` is modelled with it too.
 */
module Sorting {

  ghost predicate Sorted<T>(s: seq<T>, key: T -> int) {
    forall i, j :: 0 <= i < j < |s| ==> key(s[i]) <= key(s[j])
  }

  /** The elements of `s` whose key is `k`, in their order in `s`. */
  function WithKey<T>(s: seq<T>, key: T -> int, k: int): (r: seq<T>)
    ensures |r| <= |s|
  {
    if s == [] then []
    else if key(s[0]) == k then [s[0]] + WithKey(s[1..], key, k)
    else WithKey(s[1..], key, k)
  }

  /** Places `x` before the first element whose key is not smaller than its own. */
  function Insert<T>(x: T, s: seq<T>, key: T -> int): (r: seq<T>)
    ensures multiset(r) == multiset(s) + multiset{x}
    ensures |r| == |s| + 1
  {
    if s == [] || key(x) <= key(s[0]) then
      [x] + s
    else
      assert s == [s[0]] + s[1..];
      [s[0]] + Insert(x, s[1..], key)
  }

  lemma {:induction false} InsertSorted<T>(x: T, s: seq<T>, key: T -> int)
    requires Sorted(s, key)
    ensures Sorted(Insert(x, s, key), key)
  {
    if s == [] || key(x) <= key(s[0]) {
      var r := [x] + s;
      forall i, j | 0 <= i < j < |r| ensures key(r[i]) <= key(r[j]) {
        if i > 0 {
          assert r[i] == s[i - 1] && r[j] == s[j - 1];
        } else {
          assert r[j] == s[j - 1];
        }
      }
    } else {
      var tail := s[1..];
      var rest := Insert(x, tail, key);
      InsertSorted(x, tail, key);
      assert s == [s[0]] + tail;
      forall j | 0 <= j < |rest| ensures key(s[0]) <= key(rest[j]) {
        assert rest[j] in multiset(rest);
        assert rest[j] == x || rest[j] in multiset(tail);
        if rest[j] != x {
          var m :| 0 <= m < |tail| && tail[m] == rest[j];
          assert tail[m] == s[m + 1];
        }
      }
      var r := [s[0]] + rest;
      forall i, j | 0 <= i < j < |r| ensures key(r[i]) <= key(r[j]) {
        assert r[j] == rest[j - 1];
        if i > 0 {
          assert r[i] == rest[i - 1];
        }
      }
    }
  }

  lemma {:induction false} InsertWithKey<T>(x: T, s: seq<T>, key: T -> int, k: int)
    ensures WithKey(Insert(x, s, key), key, k) == if key(x) == k then [x] + WithKey(s, key, k) else WithKey(s, key, k)
  {
    if s == [] || key(x) <= key(s[0]) {
      assert ([x] + s)[1..] == s;
    } else {
      var rest := Insert(x, s[1..], key);
      InsertWithKey(x, s[1..], key, k);
      assert ([s[0]] + rest)[1..] == rest;
    }
  }

  /** Insertion sort: ascending by key, elements with equal keys keep their input order. */
  function SortBy<T(!new)>(s: seq<T>, key: T -> int): (r: seq<T>)
    ensures multiset(r) == multiset(s) && |r| == |s|
    ensures forall x :: x in r <==> x in s
    ensures Sorted(r, key)
    ensures forall k :: WithKey(r, key, k) == WithKey(s, key, k)
  {
    if s == [] then []
    else
      var rest := SortBy(s[1..], key);
      assert s == [s[0]] + s[1..];
      InsertSorted(s[0], rest, key);
      assert forall k :: WithKey(Insert(s[0], rest, key), key, k) == WithKey(s, key, k) by {
        forall k ensures WithKey(Insert(s[0], rest, key), key, k) == WithKey(s, key, k) {
          InsertWithKey(s[0], rest, key, k);
        }
      }
      var r := Insert(s[0], rest, key);
      assert forall x :: x in r <==> x in s by {
        forall x ensures x in r <==> x in s {
          assert x in r <==> x in multiset(r);
          assert x in s <==> x in multiset(s);
        }
      }
      r
  }

  /** The head of a sorted sequence has the least key. */
  lemma SortedHeadLeast<T(!new)>(s: seq<T>, key: T -> int)
    requires Sorted(s, key) && s != []
    ensures forall x :: x in s ==> key(s[0]) <= key(x)
  {
    forall x | x in s ensures key(s[0]) <= key(x) {
      var j :| 0 <= j < |s| && s[j] == x;
    }
  }

  /** `s.slice(offset, offset + limit)`. */
  function Window<T>(s: seq<T>, offset: nat, limit: nat): (r: seq<T>)
    ensures |r| <= limit
    ensures forall x :: x in r ==> x in s
    ensures offset <= |s| ==> r <= s[offset..]
    ensures offset <= |s| ==> |r| == (if |s| - offset <= limit then |s| - offset else limit)
    ensures multiset(r) <= multiset(s)
  {
    if offset >= |s| then []
    else
      var end := if |s| - offset <= limit then |s| else offset + limit;
      assert s == s[..offset] + s[offset..end] + s[end..];
      s[offset..end]
  }

  /** Two adjacent windows make up the window that spans both. */
  lemma WindowsAdjacent<T>(s: seq<T>, offset: nat, a: nat, b: nat)
    ensures Window(s, offset, a) + Window(s, offset + a, b) == Window(s, offset, a + b)
  {
    if offset < |s| && offset + a < |s| {
      var end := if |s| - (offset + a) <= b then |s| else offset + a + b;
      assert s[offset..end] == s[offset..offset + a] + s[offset + a..end];
    }
  }

  /** `s.filter(p)`: the elements satisfying `p`, in their order in `s`. */
  function Filter<T(!new)>(s: seq<T>, p: T -> bool): (r: seq<T>)
    ensures |r| <= |s|
    ensures forall x :: x in r <==> x in s && p(x)
  {
    if s == [] then []
    else if p(s[0]) then [s[0]] + Filter(s[1..], p)
    else Filter(s[1..], p)
  }

  /** A window of a sorted sequence is sorted. */
  lemma SortedWindow<T>(s: seq<T>, key: T -> int, offset: nat, limit: nat)
    requires Sorted(s, key)
    ensures Sorted(Window(s, offset, limit), key)
  {
    var r := Window(s, offset, limit);
    if offset < |s| {
      forall i, j | 0 <= i < j < |r| ensures key(r[i]) <= key(r[j]) {
        assert r[i] == s[offset + i] && r[j] == s[offset + j];
      }
    }
  }

  /**
   * A leading window of a sorted sequence holds its least keys: an element
   * the window leaves out has a key no smaller than any element in it.
   */
  lemma LeadingWindowLeast<T>(s: seq<T>, key: T -> int, limit: nat)
    requires Sorted(s, key)
    ensures var r := Window(s, 0, limit);
      forall x, y :: x in s && x !in r && y in r ==> key(y) <= key(x)
  {
    var r := Window(s, 0, limit);
    forall x, y | x in s && x !in r && y in r ensures key(y) <= key(x) {
      var k :| 0 <= k < |s| && s[k] == x;
      var i :| 0 <= i < |r| && r[i] == y;
      assert r[i] == s[i];
    }
  }

  /** The elements of `s` without repeats, each where it first occurs: what a JavaScript `Set` filled from `s` in order lists. */
  function Dedup<T(==,!new)>(s: seq<T>): (r: seq<T>)
    ensures forall x :: x in r <==> x in s
    decreases |s|
  {
    if s == [] then []
    else
      var d := Dedup(s[..|s| - 1]);
      if s[|s| - 1] in d then d else d + [s[|s| - 1]]
  }

  /** Where `x` first occurs in `s`. */
  function FirstAt<T(==)>(s: seq<T>, x: T): (r: nat)
    requires x in s
    ensures r < |s| && s[r] == x
    ensures forall i :: 0 <= i < r ==> s[i] != x
  {
    if s[0] == x then 0 else 1 + FirstAt(s[1..], x)
  }

  /** `r` lists elements of `s`, once each, in the order they first occur in `s`. */
  predicate FirstSeenOrder<T(==)>(r: seq<T>, s: seq<T>) {
    && (forall k :: 0 <= k < |r| ==> r[k] in s)
    && (forall i, j :: 0 <= i < j < |r| ==> FirstAt(s, r[i]) < FirstAt(s, r[j]))
  }

  /** A de-duplicated sequence keeps first occurrences in order, so in particular it has no repeats. */
  lemma {:induction false} DedupFirstSeen<T(!new)>(s: seq<T>)
    ensures FirstSeenOrder(Dedup(s), s)
    ensures forall i, j :: 0 <= i < j < |Dedup(s)| ==> Dedup(s)[i] != Dedup(s)[j]
    decreases |s|
  {
    if s != [] {
      var init, x := s[..|s| - 1], s[|s| - 1];
      assert s == init + [x];
      DedupFirstSeen(init);
      var d := Dedup(init);
      forall y | y in init
        ensures FirstAt(s, y) == FirstAt(init, y)
      {
        FirstAtAppend(init, x, y);
      }
      if x !in d {
        FirstAtNew(init, x);
        var d' := d + [x];
        forall i, j | 0 <= i < j < |d'|
          ensures FirstAt(s, d'[i]) < FirstAt(s, d'[j])
        {
          assert d'[i] == d[i];
          if j < |d| {
            assert d'[j] == d[j];
          }
        }
      }
    }
  }

  lemma {:induction false} FirstAtAppend<T>(s: seq<T>, v: T, x: T)
    requires x in s
    ensures FirstAt(s + [v], x) == FirstAt(s, x)
    decreases |s|
  {
    if s[0] != x {
      assert (s + [v])[1..] == s[1..] + [v];
      FirstAtAppend(s[1..], v, x);
    }
  }

  lemma {:induction false} FirstAtNew<T>(s: seq<T>, x: T)
    requires x !in s
    ensures FirstAt(s + [x], x) == |s|
    decreases |s|
  {
    if s != [] {
      assert (s + [x])[1..] == s[1..] + [x];
      FirstAtNew(s[1..], x);
    }
  }

  /** Adding an element to the end adds it to the de-duplicated sequence unless it is already there. */
  lemma DedupAppend<T(!new)>(s: seq<T>, x: T)
    ensures Dedup(s + [x]) == if x in Dedup(s) then Dedup(s) else Dedup(s) + [x]
  {
    assert (s + [x])[..|s|] == s;
  }

  /** Filtering distributes over appending one element. */
  lemma {:induction false} FilterAppend<T(!new)>(s: seq<T>, x: T, p: T -> bool)
    ensures Filter(s + [x], p) == Filter(s, p) + (if p(x) then [x] else [])
    decreases |s|
  {
    if s != [] {
      assert (s + [x])[1..] == s[1..] + [x];
      FilterAppend(s[1..], x, p);
    }
  }

  /** A sequence without repeats is its own de-duplication. */
  lemma {:induction false} DedupDistinct<T(!new)>(s: seq<T>)
    requires forall i, j :: 0 <= i < j < |s| ==> s[i] != s[j]
    ensures Dedup(s) == s
    decreases |s|
  {
    if s != [] {
      var init := s[..|s| - 1];
      DedupDistinct(init);
      assert s[|s| - 1] !in init;
      assert init + [s[|s| - 1]] == s;
    }
  }

  /** Filtering keeps a sequence whose every element passes. */
  lemma {:induction false} FilterAll<T(!new)>(s: seq<T>, p: T -> bool)
    requires forall x :: x in s ==> p(x)
    ensures Filter(s, p) == s
    decreases |s|
  {
    if s != [] {
      assert forall x :: x in s[1..] ==> x in s;
      FilterAll(s[1..], p);
    }
  }
}
