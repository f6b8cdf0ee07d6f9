/**
 Loading a range of candles from a server that answers at most 1000 at a time: the cursor loop, the probe for where
 the data begins, the removal of duplicates, and exactly when nothing is missing from the result.
 */
module Pagination {
  /** Only the times matter here. */
  datatype Candle = Candle(openTime: int, closeTime: int)

  const MAX_PER_REQUEST := 1000

  /** The server's history: disjoint candles in order, none before the epoch. */
  ghost predicate History(h: seq<Candle>) {
    && (forall i :: 0 <= i < |h| ==> 0 <= h[i].openTime <= h[i].closeTime)
    && forall i, j :: 0 <= i < j < |h| ==> h[i].closeTime < h[j].openTime
  }

  /** How many candles open before a time. */
  function Before(h: seq<Candle>, t: int): (n: nat)
    ensures n <= |h|
  {
    if h == [] then 0 else if h[|h| - 1].openTime < t then |h| else Before(h[..|h| - 1], t)
  }

  lemma {:induction false} BeforeSplits(h: seq<Candle>, t: int)
    requires History(h)
    ensures forall i :: 0 <= i < |h| ==> (i < Before(h, t) <==> h[i].openTime < t)
  {
    if h != [] && h[|h| - 1].openTime >= t {
      BeforeSplits(h[..|h| - 1], t);
      assert forall i :: 0 <= i < |h| - 1 ==> h[..|h| - 1][i] == h[i];
    }
  }

  function Earlier(a: int, b: int): int { if a <= b then a else b }

  /** Where the server's answer ends. */
  function AnswerEnd(h: seq<Candle>, from: int, to: int): (n: nat)
    ensures Before(h, from) <= n <= |h| && n <= Before(h, from) + MAX_PER_REQUEST
  {
    var a, b := Before(h, from), Before(h, to + 1);
    if b <= a then a else Earlier(b, a + MAX_PER_REQUEST)
  }

  /** The server: the first 1000 candles that open in a range, both ends included. */
  function Fetch(h: seq<Candle>, from: int, to: int): seq<Candle> { h[Before(h, from)..AnswerEnd(h, from, to)] }

  // ---------- duplicates, order, range ----------

  function OpenTimes(s: seq<Candle>): set<int> { set i | 0 <= i < |s| :: s[i].openTime }

  ghost predicate Increasing(s: seq<Candle>) {
    forall i, j :: 0 <= i < j < |s| ==> s[i].openTime < s[j].openTime
  }

  /** The first candle of every open time, in order. */
  function Firsts(all: seq<Candle>): seq<Candle> {
    if all == [] then []
    else
      var init, last := all[..|all| - 1], all[|all| - 1];
      if last.openTime in OpenTimes(init) then Firsts(init) else Firsts(init) + [last]
  }

  /** Position i holds the first candle of its open time. */
  ghost predicate IsFirst(all: seq<Candle>, i: nat)
    requires i < |all|
  {
    forall j :: 0 <= j < i ==> all[j].openTime != all[i].openTime
  }

  /** Every first candle is kept. */
  lemma {:induction false} FirstIsKept(all: seq<Candle>, i: nat)
    requires i < |all| && IsFirst(all, i)
    ensures all[i] in Firsts(all)
    decreases |all|
  {
    var init := all[..|all| - 1];
    if i < |init| {
      FirstIsKept(init, i);
    } else {
      assert forall j :: 0 <= j < |init| ==> init[j] == all[j];
    }
  }

  /** Whatever is kept is a first candle. */
  lemma {:induction false} KeptIsFirst(all: seq<Candle>, c: Candle) returns (i: nat)
    requires c in Firsts(all)
    ensures i < |all| && all[i] == c && IsFirst(all, i)
    decreases |all|
  {
    var init := all[..|all| - 1];
    if c in Firsts(init) {
      i := KeptIsFirst(init, c);
      assert forall j :: 0 <= j < |init| ==> init[j] == all[j];
    } else {
      i := |init|;
      forall j | 0 <= j < i
        ensures all[j].openTime != all[i].openTime
      {
        assert init[j].openTime in OpenTimes(init);
      }
    }
  }

  /** Keeps the first candle of every open time, in order. */
  method Dedupe(all: seq<Candle>) returns (deduped: seq<Candle>)
    ensures deduped == Firsts(all)
    ensures forall c :: c in deduped ==> c in all
    ensures OpenTimes(deduped) == OpenTimes(all)
    ensures forall i, j :: 0 <= i < j < |deduped| ==> deduped[i].openTime != deduped[j].openTime
    ensures Increasing(all) ==> deduped == all
  {
    var seen: set<int> := {};
    deduped := [];
    for i := 0 to |all|
      invariant deduped == Firsts(all[..i])
      invariant seen == OpenTimes(deduped) == OpenTimes(all[..i])
      invariant forall c :: c in deduped ==> c in all
      invariant forall i, j :: 0 <= i < j < |deduped| ==> deduped[i].openTime != deduped[j].openTime
      invariant Increasing(all) ==> deduped == all[..i]
    {
      GrowOpenTimes(deduped, all[i]);
      GrowOpenTimes(all[..i], all[i]);
      assert all[..i + 1] == all[..i] + [all[i]] && all[..i + 1][..i] == all[..i];
      if all[i].openTime !in seen {
        seen := seen + {all[i].openTime};
        deduped := deduped + [all[i]];
      } else {
        assert exists j :: 0 <= j < i && all[..i][j].openTime == all[i].openTime;
      }
    }
    assert all[..|all|] == all;
  }

  lemma GrowOpenTimes(s: seq<Candle>, c: Candle)
    ensures OpenTimes(s + [c]) == OpenTimes(s) + {c.openTime}
  {
    assert forall i :: 0 <= i < |s| ==> (s + [c])[i] == s[i];
    assert (s + [c])[|s|] == c;
  }

  /** A stable sort by open time. */
  function Insert(s: seq<Candle>, c: Candle): seq<Candle> {
    if s == [] || s[|s| - 1].openTime <= c.openTime then s + [c] else Insert(s[..|s| - 1], c) + [s[|s| - 1]]
  }

  function SortByOpen(s: seq<Candle>): seq<Candle> {
    if s == [] then [] else Insert(SortByOpen(s[..|s| - 1]), s[|s| - 1])
  }

  lemma {:induction false} SortedStays(s: seq<Candle>)
    requires Increasing(s)
    ensures SortByOpen(s) == s
  {
    if |s| > 1 {
      SortedStays(s[..|s| - 1]);
      assert s[..|s| - 1][|s| - 2] == s[|s| - 2];
      assert s[|s| - 2].openTime < s[|s| - 1].openTime;
    }
  }

  function InRange(s: seq<Candle>, start: int, end: int): seq<Candle> {
    if s == [] then []
    else
      var last := s[|s| - 1];
      if start <= last.openTime <= end then InRange(s[..|s| - 1], start, end) + [last]
      else InRange(s[..|s| - 1], start, end)
  }

  lemma {:induction false} RangeStays(s: seq<Candle>, start: int, end: int)
    requires forall i :: 0 <= i < |s| ==> start <= s[i].openTime <= end
    ensures InRange(s, start, end) == s
  {
    if s != [] { RangeStays(s[..|s| - 1], start, end); }
  }

  /** Duplicates out, sorted, cut to the range. */
  method CleanUp(all: seq<Candle>, start: int, end: int) returns (r: seq<Candle>)
    ensures Increasing(all) && (forall i :: 0 <= i < |all| ==> start <= all[i].openTime <= end) ==> r == all
  {
    r := Dedupe(all);
    if Increasing(all) && forall i :: 0 <= i < |all| ==> start <= all[i].openTime <= end {
      SortedStays(all);
      RangeStays(all, start, end);
    }
    r := InRange(SortByOpen(r), start, end);
  }

  // ---------- when a candle is reached ----------

  /** Where the loop would stand just before candle k: past the previous candle in range, or at the start. */
  function CursorBefore(h: seq<Candle>, start: int, k: nat): int
    requires k < |h|
  {
    if k > 0 && h[k - 1].openTime >= start then h[k - 1].closeTime + 1 else start
  }

  /** Candle k opens within one request's span of the candle before it, or of the start if it is the first. */
  predicate Near(h: seq<Candle>, interval: int, start: int, k: nat)
    requires k < |h|
  {
    h[k].openTime <= CursorBefore(h, start, k) + MAX_PER_REQUEST * interval
  }

  /** Every candle wanted is near the one before it. */
  ghost predicate NoHole(h: seq<Candle>, interval: int, start: int, end: int) {
    forall k :: 0 <= k < |h| && start <= h[k].openTime < end ==> Near(h, interval, start, k)
  }

  /** The first request finds nothing. */
  predicate StartsEmpty(h: seq<Candle>, interval: int, start: int, end: int) {
    Fetch(h, start, Earlier(start + MAX_PER_REQUEST * interval, end)) == []
  }

  /** As NoHole, except that the probe also finds the first 1000 candles ever when the first request found nothing. */
  ghost predicate NoHoleOrProbed(h: seq<Candle>, interval: int, start: int, end: int) {
    forall k :: 0 <= k < |h| && start <= h[k].openTime < end ==>
      Near(h, interval, start, k) || (k < MAX_PER_REQUEST && StartsEmpty(h, interval, start, end))
  }

  ghost predicate Complete(h: seq<Candle>, start: int, end: int, r: seq<Candle>) {
    forall k :: 0 <= k < |h| && start <= h[k].openTime < end ==> h[k] in r
  }

  /** Everything opening before the cursor comes before candle k, and the cursor is where candle k is judged from. */
  ghost predicate Standing(h: seq<Candle>, start: int, cursor: int, k: nat) {
    cursor >= start && Before(h, cursor) == k && (k < |h| ==> cursor == CursorBefore(h, start, k))
  }

  lemma Start(h: seq<Candle>, start: int)
    requires History(h)
    ensures Standing(h, start, start, Before(h, start))
  {
    BeforeSplits(h, start);
  }

  /** Past candle k - 1, the cursor stands before candle k. */
  lemma PastCandle(h: seq<Candle>, start: int, k: nat)
    requires History(h) && 0 < k <= |h| && h[k - 1].openTime >= start
    ensures Standing(h, start, h[k - 1].closeTime + 1, k)
  {
    BeforeSplits(h, h[k - 1].closeTime + 1);
    if k < |h| { assert h[k - 1].closeTime < h[k].openTime; }
  }

  /** What one request from a standing cursor gets. */
  lemma OneRequest(h: seq<Candle>, interval: int, start: int, end: int, cursor: int, k: nat) returns (next: nat)
    requires History(h) && interval > 0 && Standing(h, start, cursor, k)
    ensures k <= next <= |h|
    ensures Fetch(h, cursor, Earlier(cursor + MAX_PER_REQUEST * interval, end)) == h[k..next]
    ensures forall i :: k <= i < next ==> start <= h[i].openTime <= end && Near(h, interval, start, i)
    ensures next == k < |h| && h[k].openTime < end ==> !Near(h, interval, start, k)
  {
    var chunkEnd := Earlier(cursor + MAX_PER_REQUEST * interval, end);
    next := AnswerEnd(h, cursor, chunkEnd);
    BeforeSplits(h, cursor);
    BeforeSplits(h, chunkEnd + 1);
    forall i | k <= i < next
      ensures start <= h[i].openTime <= end && Near(h, interval, start, i)
    {
      if i > k { assert h[k].openTime <= h[i - 1].openTime; }
    }
  }

  /** The candle that comes after a stretch taken from the first candle in range. */
  function NextAfter(h: seq<Candle>, start: int, taken: seq<Candle>): nat { Before(h, start) + |taken| }

  /** The stretch is taken from the history. */
  ghost predicate Stretch(h: seq<Candle>, start: int, taken: seq<Candle>) {
    NextAfter(h, start, taken) <= |h| && taken == h[Before(h, start)..NextAfter(h, start, taken)]
  }

  /**
   The cursor loop. It extends the stretch of candles taken up to a candle that is no longer wanted, or is wanted but
   not near; and it never passes a candle that is not near.
   */
  method Page(h: seq<Candle>, interval: int, start: int, end: int, cursor0: int, all0: seq<Candle>)
    returns (all: seq<Candle>)
    requires History(h) && interval > 0
    requires Stretch(h, start, all0) && Standing(h, start, cursor0, NextAfter(h, start, all0))
    ensures Stretch(h, start, all) && |all0| <= |all|
    ensures forall i :: NextAfter(h, start, all0) <= i < NextAfter(h, start, all) ==>
              start <= h[i].openTime <= end && Near(h, interval, start, i)
    ensures var k := NextAfter(h, start, all);
            k < |h| && h[k].openTime < end ==> !Near(h, interval, start, k)
  {
    hide Before, AnswerEnd, Fetch, Near;
    var cursor := cursor0;
    all := all0;
    ghost var k0 := NextAfter(h, start, all0);
    ghost var k := k0;
    while cursor < end
      invariant k0 <= k <= |h| && k == NextAfter(h, start, all) && all == h[Before(h, start)..k]
      invariant Standing(h, start, cursor, k)
      invariant forall i :: k0 <= i < k ==> start <= h[i].openTime <= end && Near(h, interval, start, i)
      decreases end - cursor
    {
      var chunk := Fetch(h, cursor, Earlier(cursor + MAX_PER_REQUEST * interval, end));
      ghost var next := OneRequest(h, interval, start, end, cursor, k);
      if chunk == [] {
        break;
      }
      Glue(h, Before(h, start), k, next);
      all, k := all + chunk, next;
      PastCandle(h, start, k);
      var lastClose := chunk[|chunk| - 1].closeTime;
      if lastClose >= end {
        break;
      }
      Advanced(h, cursor, k);
      cursor := lastClose + 1;
    }
    if cursor >= end { BeforeSplits(h, cursor); }
  }

  lemma Glue(h: seq<Candle>, a: nat, k: nat, next: nat)
    requires a <= k <= next <= |h|
    ensures h[a..k] + h[k..next] == h[a..next]
  {
  }

  lemma Advanced(h: seq<Candle>, cursor: int, k: nat)
    requires History(h) && 0 < k <= |h| && Before(h, cursor) < k
    ensures cursor <= h[k - 1].closeTime
  {
    BeforeSplits(h, cursor);
  }

  /** A stretch of the history from the first candle in range is clean already. */
  lemma StretchIsClean(h: seq<Candle>, start: int, end: int, k: nat)
    requires History(h) && Before(h, start) <= k <= |h|
    requires forall i :: Before(h, start) <= i < k ==> h[i].openTime <= end
    ensures Increasing(h[Before(h, start)..k])
    ensures forall c :: c in h[Before(h, start)..k] ==> c in h && start <= c.openTime <= end
    ensures h[Before(h, start)..k] <= h[Before(h, start)..]
  {
    BeforeSplits(h, start);
    hide Before;
  }

  /** It is complete when the next candle is no longer wanted. */
  lemma StretchIsComplete(h: seq<Candle>, start: int, end: int, k: nat)
    requires History(h) && Before(h, start) <= k <= |h|
    ensures Complete(h, start, end, h[Before(h, start)..k]) <==> (k < |h| ==> h[k].openTime >= end)
  {
    BeforeSplits(h, start);
    hide Before;
    var a := Before(h, start);
    if k < |h| && h[k].openTime < end {
      forall c | c in h[a..k]
        ensures c.openTime < h[k].openTime
      {
      }
      assert start <= h[k].openTime;
    } else {
      assert k < |h| ==> forall i :: k <= i < |h| ==> h[k].openTime <= h[i].openTime;
      forall i | 0 <= i < |h| && start <= h[i].openTime < end
        ensures h[i] in h[a..k]
      {
        assert h[a..k][i - a] == h[i];
      }
    }
  }

  /** The futures loader: complete exactly when no candle wanted follows a hole of more than 1000 intervals. */
  method LoadFuturesKlines(h: seq<Candle>, interval: int, start: int, end: int) returns (r: seq<Candle>)
    requires History(h) && interval > 0
    ensures Increasing(r) && forall c :: c in r ==> c in h && start <= c.openTime <= end
    ensures r <= h[Before(h, start)..]
    ensures Complete(h, start, end, r) <==> NoHole(h, interval, start, end)
  {
    Start(h, start);
    assert h[Before(h, start)..Before(h, start)] == [];
    var all := Page(h, interval, start, end, start, []);
    ghost var k := NextAfter(h, start, all);
    StretchIsClean(h, start, end, k);
    StretchIsComplete(h, start, end, k);
    BeforeSplits(h, start);
    r := CleanUp(all, start, end);
  }

  lemma {:induction false} RangeOfPrefix(h: seq<Candle>, start: int, end: int, p: nat)
    requires History(h) && p <= |h| && forall i :: 0 <= i < p ==> h[i].openTime <= end
    ensures InRange(h[..p], start, end) == if p <= Before(h, start) then [] else h[Before(h, start)..p]
    decreases p
  {
    if p > 0 {
      assert h[..p][..p - 1] == h[..p - 1];
      RangeOfPrefix(h, start, end, p - 1);
      BeforeSplits(h, start);
    }
  }

  lemma NoneBeforeEpoch(h: seq<Candle>)
    requires History(h)
    ensures Before(h, 0) == 0
  {
    BeforeSplits(h, 0);
    assert |h| > 0 ==> h[0].openTime >= 0;
  }

  /** The probe's candles in range: everything from the first one up to the 1000th candle ever, or to the end. */
  lemma ProbeFinds(h: seq<Candle>, start: int, end: int) returns (p: nat)
    requires History(h)
    ensures p == AnswerEnd(h, 0, end) && p <= |h| && p <= MAX_PER_REQUEST
    ensures forall i :: 0 <= i < p ==> h[i].openTime <= end
    ensures Fetch(h, 0, end) == h[..p]
    ensures InRange(h[..p], start, end) == if p <= Before(h, start) then [] else h[Before(h, start)..p]
    ensures p < MAX_PER_REQUEST && p < |h| ==> h[p].openTime > end
  {
    NoneBeforeEpoch(h);
    BeforeSplits(h, end + 1);
    p := AnswerEnd(h, 0, end);
    hide Before, InRange;
    RangeOfPrefix(h, start, end, p);
  }

  /** What the spot loader has before its loop. */
  method FirstRequests(h: seq<Candle>, interval: int, start: int, end: int)
    returns (all: seq<Candle>, cursor: int, ghost k: nat)
    requires History(h) && interval > 0
    ensures Before(h, start) <= k && Standing(h, start, cursor, k) && all == h[Before(h, start)..k]
    ensures forall i :: Before(h, start) <= i < k ==> start <= h[i].openTime <= end
    ensures forall i :: Before(h, start) <= i < k ==>
              Near(h, interval, start, i) || (i < MAX_PER_REQUEST && StartsEmpty(h, interval, start, end))
    ensures StartsEmpty(h, interval, start, end) && k < MAX_PER_REQUEST && k < |h| ==> h[k].openTime >= end
  {
    hide Before, AnswerEnd, Fetch, Near, InRange, CursorBefore;
    all, cursor, k := [], start, Before(h, start);
    Start(h, start);
    BeforeSplits(h, start);
    var firstChunk := Fetch(h, start, Earlier(start + MAX_PER_REQUEST * interval, end));
    ghost var next := OneRequest(h, interval, start, end, start, k);
    if firstChunk == [] {
      ghost var p := ProbeFinds(h, start, end);
      var probe := Fetch(h, 0, end);
      if probe != [] {
        var actualStart := probe[0].openTime;
        if actualStart <= end {
          cursor := if actualStart >= start then actualStart else start;
          var inRange := InRange(probe, start, end);
          if inRange != [] {
            all, k := inRange, p;
            cursor := inRange[|inRange| - 1].closeTime + 1;
            PastCandle(h, start, k);
          }
        }
      }
    } else {
      all, k := firstChunk, next;
      cursor := firstChunk[|firstChunk| - 1].closeTime + 1;
      PastCandle(h, start, k);
    }
  }

  /** The spot loader: where the first request finds nothing, a probe from the epoch may still bridge the hole. */
  method LoadKlines(h: seq<Candle>, interval: int, start: int, end: int) returns (r: seq<Candle>)
    requires History(h) && interval > 0
    ensures Increasing(r) && forall c :: c in r ==> c in h && start <= c.openTime <= end
    ensures r <= h[Before(h, start)..]
    ensures Complete(h, start, end, r) <==> NoHoleOrProbed(h, interval, start, end)
  {
    var all, cursor, k0 := FirstRequests(h, interval, start, end);
    all := Page(h, interval, start, end, cursor, all);
    ghost var k := NextAfter(h, start, all);
    StretchIsClean(h, start, end, k);
    StretchIsComplete(h, start, end, k);
    SpotVerdict(h, interval, start, end, k0, k);
    r := CleanUp(all, start, end);
  }

  lemma SpotVerdict(h: seq<Candle>, interval: int, start: int, end: int, k0: nat, k: nat)
    requires History(h) && Before(h, start) <= k0 <= k <= |h|
    requires forall i :: Before(h, start) <= i < k0 ==>
               Near(h, interval, start, i) || (i < MAX_PER_REQUEST && StartsEmpty(h, interval, start, end))
    requires StartsEmpty(h, interval, start, end) && k0 < MAX_PER_REQUEST && k0 < |h| ==> h[k0].openTime >= end
    requires forall i :: k0 <= i < k ==> Near(h, interval, start, i)
    requires k < |h| && h[k].openTime < end ==> !Near(h, interval, start, k)
    ensures NoHoleOrProbed(h, interval, start, end) <==> (k < |h| ==> h[k].openTime >= end)
  {
    hide Near, StartsEmpty;
    BeforeSplits(h, start);
    if k < |h| && h[k].openTime < end {
      assert h[k].openTime >= start;
      assert k0 < k ==> h[k0].openTime < end;
    }
  }

  /**
   A symbol listed well after the start: the spot loader's probe bridges the leading gap, the futures loader, which
   has no probe, misses every candle.
   */
  lemma LateListing(h: seq<Candle>, interval: int, start: int, end: int)
    requires History(h) && interval > 0 && h != [] && |h| <= MAX_PER_REQUEST && 0 <= start
    requires start + MAX_PER_REQUEST * interval < h[0].openTime < end
    ensures NoHoleOrProbed(h, interval, start, end) && !NoHole(h, interval, start, end)
  {
    assert start <= h[0].openTime < end && !Near(h, interval, start, 0);
    BeforeSplits(h, start);
    BeforeSplits(h, start + MAX_PER_REQUEST * interval + 1);
  }
}
