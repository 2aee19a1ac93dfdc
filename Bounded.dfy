/**
 * Python's `collections.deque(maxlen=n)` as a value: a sequence that never
 * holds more than `n` items.  `append` (and `+=` with a one-item list) adds on
 * the right and drops from the left when full; `appendleft` adds on the left
 * and drops from the right when full.
 */
module Bounded {

  /** The last `min(|s|, n)` items of `s`. */
  function LastN<T>(s: seq<T>, n: nat): (r: seq<T>)
    ensures |r| == if |s| <= n then |s| else n
    ensures forall k :: 0 <= k < |r| ==> r[k] == s[|s| - |r| + k]
  {
    if |s| <= n then s else s[|s| - n..]
  }

  /** The first `min(|s|, n)` items of `s`. */
  function FirstN<T>(s: seq<T>, n: nat): (r: seq<T>)
    ensures |r| == if |s| <= n then |s| else n
    ensures forall k :: 0 <= k < |r| ==> r[k] == s[k]
  {
    if |s| <= n then s else s[..n]
  }

  /** `d.append(x)` on a deque `d` with contents `s` and the given maxlen. */
  function Append<T>(s: seq<T>, x: T, maxlen: nat): (r: seq<T>)
    requires |s| <= maxlen
    ensures |r| <= maxlen
    ensures |s| < maxlen ==> r == s + [x]
    ensures 0 < maxlen == |s| ==> r == s[1..] + [x]
    ensures maxlen == 0 ==> r == []
  {
    LastN(s + [x], maxlen)
  }

  /** `d.appendleft(x)` on a deque `d` with contents `s` and the given maxlen. */
  function Prepend<T>(s: seq<T>, x: T, maxlen: nat): (r: seq<T>)
    requires |s| <= maxlen
    ensures |r| <= maxlen
    ensures |s| < maxlen ==> r == [x] + s
    ensures 0 < maxlen == |s| ==> r == [x] + s[..|s| - 1]
    ensures maxlen == 0 ==> r == []
  {
    FirstN([x] + s, maxlen)
  }

  /** Appending every item of `xs` in turn. */
  function AppendAll<T>(s: seq<T>, xs: seq<T>, maxlen: nat): (r: seq<T>)
    requires |s| <= maxlen
    ensures |r| <= maxlen
    decreases |xs|
  {
    if xs == [] then s else AppendAll(Append(s, xs[0], maxlen), xs[1..], maxlen)
  }

  /** Prepending every item of `xs` in turn. */
  function PrependAll<T>(s: seq<T>, xs: seq<T>, maxlen: nat): (r: seq<T>)
    requires |s| <= maxlen
    ensures |r| <= maxlen
    decreases |xs|
  {
    if xs == [] then s else PrependAll(Prepend(s, xs[0], maxlen), xs[1..], maxlen)
  }

  function Reverse<T>(s: seq<T>): (r: seq<T>)
    ensures |r| == |s|
  {
    if s == [] then [] else Reverse(s[1..]) + [s[0]]
  }

  lemma LastNOfLastN<T>(s: seq<T>, x: T, n: nat)
    ensures LastN(LastN(s, n) + [x], n) == LastN(s + [x], n)
  {
    var a, b := LastN(LastN(s, n) + [x], n), LastN(s + [x], n);
    assert |a| == |b|;
    forall k | 0 <= k < |a| ensures a[k] == b[k] {
      if k == |a| - 1 {
      } else {
        assert a[k] == LastN(s, n)[|LastN(s, n)| + 1 - |a| + k];
      }
    }
  }

  lemma FirstNOfFirstN<T>(s: seq<T>, x: T, n: nat)
    ensures FirstN([x] + FirstN(s, n), n) == FirstN([x] + s, n)
  {
    var a, b := FirstN([x] + FirstN(s, n), n), FirstN([x] + s, n);
    assert |a| == |b|;
    forall k | 0 <= k < |a| ensures a[k] == b[k] {
      if k > 0 {
        assert a[k] == FirstN(s, n)[k - 1];
      }
    }
  }

  /**
   * However many items are appended, the deque holds exactly the `maxlen`
   * most recent items of everything ever put in, oldest first.
   */
  lemma {:induction false} AppendAllKeepsNewest<T>(s: seq<T>, xs: seq<T>, maxlen: nat)
    ensures AppendAll(LastN(s, maxlen), xs, maxlen) == LastN(s + xs, maxlen)
    decreases |xs|
  {
    if xs == [] {
      assert s + xs == s;
    } else {
      LastNOfLastN(s, xs[0], maxlen);
      AppendAllKeepsNewest(s + [xs[0]], xs[1..], maxlen);
      assert s + [xs[0]] + xs[1..] == s + xs;
    }
  }

  /**
   * However many items are prepended, the deque holds the `maxlen` most
   * recent items, newest first.
   */
  lemma {:induction false} PrependAllKeepsNewestFirst<T>(s: seq<T>, xs: seq<T>, maxlen: nat)
    ensures PrependAll(FirstN(s, maxlen), xs, maxlen) == FirstN(Reverse(xs) + s, maxlen)
    decreases |xs|
  {
    if xs == [] {
    } else {
      FirstNOfFirstN(s, xs[0], maxlen);
      PrependAllKeepsNewestFirst([xs[0]] + s, xs[1..], maxlen);
      assert Reverse(xs[1..]) + ([xs[0]] + s) == Reverse(xs) + s;
    }
  }
}
