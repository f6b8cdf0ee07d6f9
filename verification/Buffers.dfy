/** Bounded and time-filtered sequences: what a deque with a maximal length retains of its log. */
module Buffers {
  /** What a deque of maximal length n holds after everything in s was appended. */
  function LastN<T>(s: seq<T>, n: nat): (r: seq<T>)
    ensures |r| <= n && |r| <= |s|
    ensures |s| <= n ==> r == s
    ensures |s| >= n ==> |r| == n
  {
    if |s| <= n then s else s[|s| - n..]
  }

  /** Appending to the bounded copy or to the whole log comes to the same. */
  lemma LastNAppend<T>(s: seq<T>, x: T, n: nat)
    requires n > 0
    ensures LastN(LastN(s, n) + [x], n) == LastN(s + [x], n)
  {
  }

  /** A long suffix decides what is retained. */
  lemma LastNOfSuffix<T>(a: seq<T>, b: seq<T>, n: nat)
    ensures |b| >= n ==> LastN(a + b, n) == LastN(b, n)
    ensures |b| < n < |a| + |b| ==> LastN(a + b, n) == a[|a| + |b| - n..] + b
    ensures |a| + |b| <= n ==> LastN(a + b, n) == a + b
  {
  }
}
