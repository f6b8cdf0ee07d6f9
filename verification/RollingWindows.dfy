/**
 A pruned deque of timed entries against the unbounded log of everything ever appended: on each append the oldest
 entries are dropped when they are over an hour older than the new one, or when a maximal length is exceeded.
 */
module RollingWindows {
  import opened Options

  datatype Entry = Entry(ts: real, usd: real)

  const RETAIN_SECONDS := 3600.0

  /** The first position from i on whose entry is not too old. */
  function FirstRecent(s: seq<Entry>, i: nat, cutoff: real): (k: nat)
    requires i <= |s|
    ensures i <= k <= |s| && (forall j :: i <= j < k ==> s[j].ts < cutoff) && (k < |s| ==> s[k].ts >= cutoff)
    decreases |s| - i
  {
    if i < |s| && s[i].ts < cutoff then FirstRecent(s, i + 1, cutoff) else i
  }

  /** Dropping from the left while the leftmost entry is too old. */
  function DropOld(s: seq<Entry>, cutoff: real): seq<Entry> { s[FirstRecent(s, 0, cutoff)..] }

  /** How many entries exceed the maximal length, if there is one. */
  function Excess(length: nat, cap: Option<nat>): (n: nat)
    ensures n <= length
  {
    if cap.Some? && length > cap.value then length - cap.value else 0
  }

  function Capped(s: seq<Entry>, cap: Option<nat>): seq<Entry> { s[Excess(|s|, cap)..] }

  /** The deque after a log of appends. */
  function Retained(log: seq<Entry>, cap: Option<nat>): seq<Entry> {
    if log == [] then []
    else
      var last := log[|log| - 1];
      DropOld(Capped(Retained(log[..|log| - 1], cap) + [last], cap), last.ts - RETAIN_SECONDS)
  }

  /** The latest time in a log, which need not be its last entry's. */
  function Peak(log: seq<Entry>): (p: real)
    requires log != []
    ensures forall i :: 0 <= i < |log| ==> log[i].ts <= p
  {
    if |log| == 1 then log[0].ts
    else
      var p, last := Peak(log[..|log| - 1]), log[|log| - 1].ts;
      assert forall i :: 0 <= i < |log| - 1 ==> log[..|log| - 1][i] == log[i];
      if last > p then last else p
  }

  /** The entries of a window, in order. */
  function Recent(s: seq<Entry>, cutoff: real): seq<Entry> {
    if s == [] then []
    else if s[|s| - 1].ts >= cutoff then Recent(s[..|s| - 1], cutoff) + [s[|s| - 1]]
    else Recent(s[..|s| - 1], cutoff)
  }

  function Total(s: seq<Entry>): real {
    if s == [] then 0.0 else Total(s[..|s| - 1]) + s[|s| - 1].usd
  }

  /** A window holds exactly the entries that are not older than its cutoff, as often as they occur. */
  lemma {:induction false} RecentMeans(s: seq<Entry>, cutoff: real, e: Entry)
    ensures multiset(Recent(s, cutoff))[e] == if e.ts >= cutoff then multiset(s)[e] else 0
  {
    if s != [] {
      RecentMeans(s[..|s| - 1], cutoff, e);
      assert s == s[..|s| - 1] + [s[|s| - 1]];
    }
  }

  /** Totals add up, and that of one entry is its amount. */
  lemma {:induction false} TotalMeans(a: seq<Entry>, b: seq<Entry>)
    ensures Total(a + b) == Total(a) + Total(b)
    ensures |b| == 1 ==> Total(b) == b[0].usd
    decreases |b|
  {
    if b == [] {
      assert a + b == a;
    } else {
      TotalMeans(a, b[..|b| - 1]);
      assert (a + b)[..|a + b| - 1] == a + b[..|b| - 1];
    }
  }

  lemma TailOfTail(s: seq<Entry>, i: nat, j: nat)
    requires i <= |s| && j <= |s| - i
    ensures s[i..][j..] == s[i + j..]
  {
  }

  function Later(a: nat, b: nat): nat { if a >= b then a else b }

  /** Capping a suffix of the log gives the shorter of the suffix and what the cap keeps of the log. */
  lemma CapSuffix(log: seq<Entry>, j: nat, cap: Option<nat>)
    requires j <= |log|
    ensures Capped(log[j..], cap) == log[Later(j, Excess(|log|, cap))..]
  {
    TailOfTail(log, j, Excess(|log| - j, cap));
  }

  /** Pruning a suffix of the log gives a suffix of the log. */
  lemma PruneSuffix(log: seq<Entry>, a: nat, cutoff: real) returns (k: nat)
    requires a <= |log|
    ensures a <= k <= |log| && DropOld(log[a..], cutoff) == log[k..]
    ensures forall i :: a <= i < k ==> log[i].ts < cutoff
  {
    var dropped := FirstRecent(log[a..], 0, cutoff);
    TailOfTail(log, a, dropped);
    k := a + dropped;
    forall i | a <= i < k
      ensures log[i].ts < cutoff
    {
      assert log[a..][i - a] == log[i];
    }
  }

  lemma PeakGrows(log: seq<Entry>)
    requires log != []
    ensures |log| > 1 ==> Peak(log[..|log| - 1]) <= Peak(log)
  {
  }

  /** One append to a deque that holds the log from position j on. */
  lemma AppendStep(log: seq<Entry>, j: nat, cap: Option<nat>, bound: real) returns (k: nat)
    requires j < |log| && log[|log| - 1].ts - RETAIN_SECONDS <= bound
    requires forall i :: Excess(|log| - 1, cap) <= i < j ==> log[i].ts < bound
    ensures Excess(|log|, cap) <= k <= |log|
    ensures DropOld(Capped(log[j..], cap), log[|log| - 1].ts - RETAIN_SECONDS) == log[k..]
    ensures forall i :: Excess(|log|, cap) <= i < k ==> log[i].ts < bound
  {
    hide DropOld, Capped;
    CapSuffix(log, j, cap);
    k := PruneSuffix(log, Later(j, Excess(|log|, cap)), log[|log| - 1].ts - RETAIN_SECONDS);
  }

  lemma InitTail(log: seq<Entry>, j: nat)
    requires j < |log|
    ensures log[..|log| - 1][j..] + [log[|log| - 1]] == log[j..]
  {
  }

  /** The deque is a suffix of the log; of the entries the cap would keep it misses only some over an hour old. */
  lemma {:induction false} RetainedIsSuffix(log: seq<Entry>, cap: Option<nat>) returns (k: nat)
    requires log != []
    ensures Excess(|log|, cap) <= k <= |log| && Retained(log, cap) == log[k..]
    ensures forall i :: Excess(|log|, cap) <= i < k ==> log[i].ts < Peak(log) - 3600.0
    decreases |log|
  {
    hide DropOld, Capped, Peak, Excess;
    PeakGrows(log);
    var init := log[..|log| - 1];
    var j := 0;
    if init != [] {
      j := RetainedIsSuffix(init, cap);
      forall i | Excess(|init|, cap) <= i < j
        ensures log[i].ts < Peak(log) - RETAIN_SECONDS
      {
        assert init[i] == log[i];
      }
    }
    InitTail(log, j);
    k := AppendStep(log, j, cap, Peak(log) - RETAIN_SECONDS);
  }

  lemma {:induction false} RecentSkipsOld(s: seq<Entry>, cutoff: real)
    requires s != [] && s[0].ts < cutoff
    ensures Recent(s[1..], cutoff) == Recent(s, cutoff)
  {
    if |s| == 1 {
      assert s[..0] == s[1..] == [];
    } else {
      RecentSkipsOld(s[..|s| - 1], cutoff);
      assert s[1..][..|s| - 2] == s[..|s| - 1][1..];
    }
  }

  lemma {:induction false} RecentOfSuffix(s: seq<Entry>, m: nat, k: nat, cutoff: real)
    requires m <= k <= |s| && forall i :: m <= i < k ==> s[i].ts < cutoff
    ensures Recent(s[k..], cutoff) == Recent(s[m..], cutoff)
    decreases k - m
  {
    if m < k {
      RecentOfSuffix(s, m + 1, k, cutoff);
      RecentSkipsOld(s[m..], cutoff);
      assert s[m..][1..] == s[m + 1..];
    }
  }

  /**
   Whatever the clock did, a window that starts no earlier than an hour before the latest time seen holds exactly the
   same entries in the deque as in the log itself, cut to its maximal length.
   */
  lemma WindowsSurvivePruning(log: seq<Entry>, cap: Option<nat>, cutoff: real)
    requires log != [] ==> cutoff >= Peak(log) - 3600.0
    ensures Recent(Retained(log, cap), cutoff) == Recent(Capped(log, cap), cutoff)
  {
    if log != [] {
      var k := RetainedIsSuffix(log, cap);
      RecentOfSuffix(log, Excess(|log|, cap), k, cutoff);
    }
  }

  /** With a clock that never runs backwards every window of at most an hour is such a window. */
  lemma MonotoneClockSuffices(log: seq<Entry>, now: real, window: real)
    requires log != [] && window <= RETAIN_SECONDS
    requires forall i, j :: 0 <= i < j < |log| ==> log[i].ts <= log[j].ts
    requires log[|log| - 1].ts <= now
    ensures now - window >= Peak(log) - RETAIN_SECONDS
  {
    PeakIsLast(log);
  }

  lemma PeakIsLast(log: seq<Entry>)
    requires log != [] && forall i, j :: 0 <= i < j < |log| ==> log[i].ts <= log[j].ts
    ensures Peak(log) == log[|log| - 1].ts
  {
    if |log| > 1 {
      PeakIsLast(log[..|log| - 1]);
      assert log[|log| - 2].ts <= log[|log| - 1].ts;
    }
  }

  /** What is retained is no longer than the cap, and its front is within an hour of the newest entry. */
  lemma FrontIsRecent(log: seq<Entry>, cap: Option<nat>)
    requires log != [] && Retained(log, cap) != []
    ensures Retained(log, cap)[0].ts >= log[|log| - 1].ts - 3600.0
    ensures cap.Some? ==> |Retained(log, cap)| <= cap.value
  {
  }

  /** The newest entry is always retained. */
  lemma NewestRetained(log: seq<Entry>, cap: Option<nat>)
    requires log != [] && cap != Some(0)
    ensures Retained(log, cap) != []
  {
    var capped := Capped(Retained(log[..|log| - 1], cap) + [log[|log| - 1]], cap);
    assert capped[|capped| - 1] == log[|log| - 1];
  }

  /** Appending with pruning, as the stream handlers do it. */
  method AppendAndPrune(d: seq<Entry>, e: Entry, cap: Option<nat>, ghost log: seq<Entry>) returns (r: seq<Entry>)
    requires d == Retained(log, cap)
    ensures r == Retained(log + [e], cap)
  {
    assert (log + [e])[..|log|] == log;
    var cutoff := e.ts - RETAIN_SECONDS;
    r := Capped(d + [e], cap);
    ghost var capped, i := r, 0;
    while r != [] && r[0].ts < cutoff
      invariant 0 <= i <= |capped| && r == capped[i..]
      invariant FirstRecent(capped, i, cutoff) == FirstRecent(capped, 0, cutoff)
      decreases |r|
    {
      r, i := r[1..], i + 1;
    }
  }

  /** Summing the entries at or after a cutoff. */
  method SumSince(d: seq<Entry>, cutoff: real) returns (sum: real, count: nat)
    ensures sum == Total(Recent(d, cutoff)) && count == |Recent(d, cutoff)|
  {
    sum, count := 0.0, 0;
    for i := 0 to |d|
      invariant sum == Total(Recent(d[..i], cutoff)) && count == |Recent(d[..i], cutoff)|
    {
      assert d[..i + 1][..i] == d[..i];
      if d[i].ts >= cutoff {
        var w := Recent(d[..i], cutoff);
        assert (w + [d[i]])[..|w|] == w;
        sum, count := sum + d[i].usd, count + 1;
      }
    }
    assert d[..|d|] == d;
  }
}
