/**
 * Counting, "first maximum" and bounded FIFO helpers shared by the detector,
 * the analyzer and the conversation engine.
 *
 * Python's `max(xs, key=f)` returns the FIRST element whose key is maximal;
 * `collections.Counter.most_common(1)` and `max(d, key=d.get)` over a dict
 * built in first-seen order therefore both break ties in favour of the label
 * seen first.  `list.append` followed by `pop(0)` when the list outgrows its
 * size keeps the newest entries.
 */
module Tally {

  /** Index of the first maximal element of `xs` (Python's `max(range, key=...)`). */
  function FirstMax(xs: seq<real>): (i: nat)
    requires |xs| > 0
    ensures i < |xs|
    ensures forall j :: 0 <= j < |xs| ==> xs[j] <= xs[i]
    ensures forall j :: 0 <= j < i ==> xs[j] < xs[i]
  {
    if |xs| == 1 then 0
    else
      var i := FirstMax(xs[..|xs| - 1]);
      if xs[|xs| - 1] > xs[i] then |xs| - 1 else i
  }

  /** The first maximum depends only on how the elements compare. */
  lemma FirstMaxOrderInvariant(xs: seq<real>, ys: seq<real>)
    requires |xs| == |ys| > 0
    requires forall i, j :: 0 <= i < |xs| && 0 <= j < |xs| ==> (xs[i] < xs[j] <==> ys[i] < ys[j])
    ensures FirstMax(xs) == FirstMax(ys)
  {
  }

  /** Number of occurrences of `x` in `s`. */
  function Count(s: seq<string>, x: string): (n: nat)
    ensures n <= |s|
    ensures n > 0 <==> x in s
  {
    if |s| == 0 then 0
    else Count(s[..|s| - 1], x) + (if s[|s| - 1] == x then 1 else 0)
  }

  /** Position of the first occurrence of `x` in `s`. */
  function FirstIndex(s: seq<string>, x: string): (i: nat)
    requires x in s
    ensures i < |s| && s[i] == x && x !in s[..i]
  {
    if s[0] == x then 0
    else
      var i := FirstIndex(s[1..], x);
      assert s[1..][..i] == s[1..i + 1];
      1 + i
  }

  /** The distinct elements of `s` in the order they are first seen (the key order of a dict filled from `s`). */
  function FirstSeen(s: seq<string>): (d: seq<string>)
    ensures forall x :: x in d <==> x in s
    ensures forall i, j :: 0 <= i < j < |d| ==> d[i] != d[j]
  {
    if |s| == 0 then []
    else
      var d := FirstSeen(s[..|s| - 1]);
      assert forall x :: x in s <==> x in s[..|s| - 1] || x == s[|s| - 1] by {
        assert s == s[..|s| - 1] + [s[|s| - 1]];
      }
      if s[|s| - 1] in d then d else d + [s[|s| - 1]]
  }

  /** The occurrence counts in `s` of each element of `keys`. */
  function CountsOf(keys: seq<string>, s: seq<string>): (c: seq<real>)
    ensures |c| == |keys|
    ensures forall i :: 0 <= i < |keys| ==> c[i] == Count(s, keys[i]) as real
  {
    seq(|keys|, i requires 0 <= i < |keys| => Count(s, keys[i]) as real)
  }

  /**
   * `m` is a most frequent element of `s` and, among the elements just as
   * frequent, the one whose first occurrence comes earliest.
   */
  ghost predicate IsMode(s: seq<string>, m: string) {
    && m in s
    && (forall x :: x in s ==> Count(s, x) <= Count(s, m))
    && (forall x :: x in s && Count(s, x) == Count(s, m) ==> FirstIndex(s, m) <= FirstIndex(s, x))
  }

  /** Most frequent element of `s`, ties going to the one seen first. */
  function Mode(s: seq<string>): (m: string)
    requires |s| > 0
    ensures IsMode(s, m)
  {
    var d := FirstSeen(s);
    var i := FirstMax(CountsOf(d, s));
    ModeOfFirstSeen(s, i);
    d[i]
  }

  /** The first maximum over the first-seen keys is the mode. */
  lemma ModeOfFirstSeen(s: seq<string>, i: nat)
    requires |s| > 0
    requires i < |FirstSeen(s)|
    requires forall j :: 0 <= j < |FirstSeen(s)| ==> CountsOf(FirstSeen(s), s)[j] <= CountsOf(FirstSeen(s), s)[i]
    requires forall j :: 0 <= j < i ==> CountsOf(FirstSeen(s), s)[j] < CountsOf(FirstSeen(s), s)[i]
    ensures IsMode(s, FirstSeen(s)[i])
  {
    var d := FirstSeen(s);
    var m := d[i];
    forall x | x in s
      ensures Count(s, x) <= Count(s, m)
      ensures Count(s, x) == Count(s, m) ==> FirstIndex(s, m) <= FirstIndex(s, x)
    {
      var j :| 0 <= j < |d| && d[j] == x;
      assert CountsOf(d, s)[j] <= CountsOf(d, s)[i];
      if Count(s, x) == Count(s, m) && j != i {
        assert j > i;
        FirstSeenOrder(s, i, j);
      }
    }
  }

  /** A label seen earlier in `s` comes earlier in `FirstSeen(s)`. */
  lemma {:induction false} FirstSeenOrder(s: seq<string>, i: nat, j: nat)
    requires i < j < |FirstSeen(s)|
    ensures FirstIndex(s, FirstSeen(s)[i]) < FirstIndex(s, FirstSeen(s)[j])
  {
    var p := s[..|s| - 1];
    var z := s[|s| - 1];
    var dp := FirstSeen(p);
    var x, y := FirstSeen(s)[i], FirstSeen(s)[j];
    if z in dp {
      FirstSeenOrder(p, i, j);
      FirstIndexInPrefix(s, x);
      FirstIndexInPrefix(s, y);
    } else if j < |dp| {
      FirstSeenOrder(p, i, j);
      FirstIndexInPrefix(s, x);
      FirstIndexInPrefix(s, y);
    } else {
      assert y == z && z !in p;
      FirstIndexInPrefix(s, x);
      assert s[..|s| - 1] == p;
      assert FirstIndex(s, y) == |s| - 1;
    }
  }

  /** The first occurrence of an element of the prefix lies in the prefix. */
  lemma FirstIndexInPrefix(s: seq<string>, x: string)
    requires |s| > 0 && x in s[..|s| - 1]
    ensures FirstIndex(s, x) == FirstIndex(s[..|s| - 1], x)
  {
    var p := s[..|s| - 1];
    assert s[..FirstIndex(p, x)] == p[..FirstIndex(p, x)];
  }

  /** Two modes of one sequence are the same element. */
  lemma ModeUnique(s: seq<string>, m1: string, m2: string)
    requires IsMode(s, m1) && IsMode(s, m2)
    ensures m1 == m2
  {
    assert FirstIndex(s, m1) == FirstIndex(s, m2);
  }

  /** How counting and first-seen order change when one more element of `s` is taken. */
  lemma TallyStep(s: seq<string>, i: nat)
    requires i < |s|
    ensures FirstSeen(s[..i + 1]) == if s[i] in s[..i] then FirstSeen(s[..i]) else FirstSeen(s[..i]) + [s[i]]
    ensures forall k :: Count(s[..i + 1], k) == Count(s[..i], k) + (if s[i] == k then 1 else 0)
  {
    assert s[..i + 1][..i] == s[..i];
  }

  /** The last `min(n, |s|)` elements of `s` (Python's `s[-n:]` for `n >= 1`, and `[]` for `n <= 0`). */
  function LastN<T>(s: seq<T>, n: int): (r: seq<T>)
    ensures |r| == if n <= 0 then 0 else if n < |s| then n else |s|
  {
    if n <= 0 then [] else if n < |s| then s[|s| - n..] else s
  }

  /** `s.append(x)` followed by `s.pop(0)` when the list then holds more than `cap` entries. */
  function BoundedAppend<T>(s: seq<T>, x: T, cap: int): (r: seq<T>)
    ensures |r| <= |s| + 1
    ensures 0 <= cap && |s| <= cap ==> |r| == if |s| < cap then |s| + 1 else cap
  {
    var t := s + [x];
    if |t| > cap then t[1..] else t
  }

  /** After a bounded append the newest entry is last, preceded by the newest entries of `s`. */
  lemma BoundedAppendTail<T>(s: seq<T>, x: T, cap: int)
    requires cap >= 1
    ensures var r := BoundedAppend(s, x, cap);
      && |r| >= (if |s| + 1 <= cap then |s| + 1 else cap)
      && r[|r| - 1] == x
      && (|r| >= 2 ==> r[|r| - 2] == s[|s| - 1])
      && (|r| >= 3 ==> r[|r| - 3] == s[|s| - 2])
  {
  }

  /**
   * A buffer that holds the last `cap` entries of a stream still does after
   * one more bounded append: the oldest entry is the one evicted.
   */
  lemma {:induction false} BoundedAppendKeepsWindow<T>(stream: seq<T>, x: T, cap: int)
    ensures BoundedAppend(LastN(stream, cap), x, cap) == LastN(stream + [x], cap)
  {
    var b := LastN(stream, cap);
    var s2 := stream + [x];
    if cap <= 0 {
    } else if cap < |stream| {
      assert b + [x] == s2[|stream| - cap..];
      assert (b + [x])[1..] == s2[|s2| - cap..];
    } else if cap == |stream| {
      assert b == stream;
      assert (b + [x])[1..] == s2[|s2| - cap..];
    } else {
      assert b == stream;
    }
  }
}
