/** `xs.sort((a, b) => key(b) - key(a))`: JavaScript's stable sort with a
    newest-first comparator, over a sequence. */
module Sorting {

  /** Keys never increase from left to right. */
  ghost predicate NewestFirst<T>(xs: seq<T>, key: T -> int) {
    forall i, j | 0 <= i < j < |xs| :: key(xs[i]) >= key(xs[j])
  }

  /** Puts `x` in front of the first element whose key is not larger, so that
      elements with equal keys keep their original order. */
  function Insert<T>(x: T, ys: seq<T>, key: T -> int): (r: seq<T>)
    ensures |r| == |ys| + 1
  {
    if ys == [] || key(ys[0]) <= key(x) then [x] + ys
    else [ys[0]] + Insert(x, ys[1..], key)
  }

  /** Insertion into a sorted sequence keeps it sorted and adds exactly `x`. */
  lemma {:induction false} InsertSorted<T>(x: T, ys: seq<T>, key: T -> int)
    requires NewestFirst(ys, key)
    ensures NewestFirst(Insert(x, ys, key), key)
    ensures multiset(Insert(x, ys, key)) == multiset(ys) + multiset{x}
  {
    if ys == [] || key(ys[0]) <= key(x) {
      PrependSorted(x, ys, key);
    } else {
      var rest := Insert(x, ys[1..], key);
      InsertSorted(x, ys[1..], key);
      assert ys == [ys[0]] + ys[1..];
      RestBelowHead(ys, x, rest, key);
      PrependSorted(ys[0], rest, key);
    }
  }

  /** An element at least as new as the head of a sorted sequence can go in front. */
  lemma PrependSorted<T>(h: T, rest: seq<T>, key: T -> int)
    requires NewestFirst(rest, key)
    requires rest != [] ==> key(rest[0]) <= key(h)
    ensures NewestFirst([h] + rest, key)
  {
    var r := [h] + rest;
    forall i, j | 0 <= i < j < |r| ensures key(r[i]) >= key(r[j]) {
      if i == 0 && j > 1 {
        assert key(rest[0]) >= key(rest[j - 1]);
      }
    }
  }

  /** Inserting an element no newer than the head keeps everything below the head. */
  lemma RestBelowHead<T>(ys: seq<T>, x: T, rest: seq<T>, key: T -> int)
    requires NewestFirst(ys, key) && |ys| > 0 && key(x) < key(ys[0])
    requires multiset(rest) == multiset(ys[1..]) + multiset{x}
    ensures rest != [] ==> key(rest[0]) <= key(ys[0])
  {
    if rest != [] {
      assert rest[0] in multiset(rest);
      if rest[0] != x {
        assert rest[0] in multiset(ys[1..]);
        var k :| 0 <= k < |ys[1..]| && ys[1..][k] == rest[0];
        assert ys[k + 1] == rest[0];
      }
    }
  }

  /** The sorted sequence, by insertion from the back. */
  function SortNewestFirst<T>(xs: seq<T>, key: T -> int): (r: seq<T>)
    ensures |r| == |xs|
  {
    if xs == [] then [] else Insert(xs[0], SortNewestFirst(xs[1..], key), key)
  }

  /** The sort's promise: newest first, and a permutation of the input. */
  lemma {:induction false} SortedPermutation<T>(xs: seq<T>, key: T -> int)
    ensures NewestFirst(SortNewestFirst(xs, key), key)
    ensures multiset(SortNewestFirst(xs, key)) == multiset(xs)
  {
    if xs != [] {
      SortedPermutation(xs[1..], key);
      InsertSorted(xs[0], SortNewestFirst(xs[1..], key), key);
      assert xs == [xs[0]] + xs[1..];
    }
  }

  /** The elements of `xs` whose key is `k`, in order. */
  function WithKey<T>(xs: seq<T>, key: T -> int, k: int): (r: seq<T>)
    ensures |r| <= |xs|
    ensures forall i | 0 <= i < |r| :: key(r[i]) == k
  {
    if xs == [] then [] else (if key(xs[0]) == k then [xs[0]] else []) + WithKey(xs[1..], key, k)
  }

  /** Insertion puts `x` ahead of every element with the same key. */
  lemma {:induction false} InsertWithKey<T>(x: T, ys: seq<T>, key: T -> int, k: int)
    ensures WithKey(Insert(x, ys, key), key, k) == (if key(x) == k then [x] else []) + WithKey(ys, key, k)
  {
    if ys == [] || key(ys[0]) <= key(x) {
      assert ([x] + ys)[1..] == ys;
    } else {
      InsertWithKey(x, ys[1..], key, k);
      assert Insert(x, ys, key)[1..] == Insert(x, ys[1..], key);
    }
  }

  /** Stability: elements with equal keys come out in their input order. */
  lemma {:induction false} SortStable<T>(xs: seq<T>, key: T -> int, k: int)
    ensures WithKey(SortNewestFirst(xs, key), key, k) == WithKey(xs, key, k)
  {
    if xs != [] {
      SortStable(xs[1..], key, k);
      InsertWithKey(xs[0], SortNewestFirst(xs[1..], key), key, k);
    }
  }

  /** The first element of a sorted non-empty sequence has the largest key. */
  lemma HeadIsNewest<T>(xs: seq<T>, key: T -> int)
    requires |xs| > 0
    ensures var r := SortNewestFirst(xs, key);
      forall i | 0 <= i < |xs| :: key(r[0]) >= key(xs[i])
  {
    var r := SortNewestFirst(xs, key);
    SortedPermutation(xs, key);
    forall i | 0 <= i < |xs| ensures key(r[0]) >= key(xs[i]) {
      assert xs[i] in multiset(r);
      var j :| 0 <= j < |r| && r[j] == xs[i];
    }
  }

  /** A prefix of a newest-first sequence holds its newest elements: nothing
      after the prefix has a larger key than anything in it. */
  lemma PrefixHoldsNewest<T>(xs: seq<T>, key: T -> int, n: nat)
    requires NewestFirst(xs, key) && n <= |xs|
    ensures forall r, s | r in xs[..n] && s in multiset(xs) - multiset(xs[..n]) :: key(s) <= key(r)
  {
    assert xs == xs[..n] + xs[n..];
    assert multiset(xs) - multiset(xs[..n]) == multiset(xs[n..]);
    forall r, s | r in xs[..n] && s in multiset(xs) - multiset(xs[..n]) ensures key(s) <= key(r) {
      assert s in xs[n..];
      var i :| 0 <= i < n && xs[i] == r;
      var j :| 0 <= j < |xs| - n && xs[n..][j] == s;
      assert xs[n + j] == s;
    }
  }
}
