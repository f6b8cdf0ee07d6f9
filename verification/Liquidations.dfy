/**
 Liquidations per symbol and side: the live tracker's pruned deques, its window queries and cascade score, and the
 offline aggregation of recorded events that is meant to give the same answer.
 */
module Liquidations {
  import opened Options
  import opened Reals
  import opened RollingWindows
  import opened TrailingStop

  /** A liquidation of a long or of a short. */
  datatype Event = Event(symbol: string, side: Side, entry: Entry)

  /** The same, as the offline files record it, in milliseconds. */
  datatype Recorded = Recorded(symbol: string, side: Side, timestamp: int, sizeUsd: real)

  datatype Cascade = Cascade(longUsd: real, shortUsd: real, dominant: Option<Side>, imbalance: real)

  function CascadeOf(longUsd: real, shortUsd: real): Cascade {
    if longUsd > 0.0 || shortUsd > 0.0 then
      if longUsd > shortUsd then Cascade(longUsd, shortUsd, Some(Long), longUsd / Max(shortUsd, 1.0))
      else Cascade(longUsd, shortUsd, Some(Short), shortUsd / Max(longUsd, 1.0))
    else Cascade(longUsd, shortUsd, None, 1.0)
  }

  /**
   The cascade of two totals, in plain arithmetic: nothing where there were none; else the longs dominate exactly if
   their total is larger, and the imbalance times the other total, or 1 if that is larger, is the dominant total.
   */
  ghost predicate CascadeMeans(c: Cascade, longUsd: real, shortUsd: real) {
    && c.longUsd == longUsd && c.shortUsd == shortUsd
    && if longUsd <= 0.0 && shortUsd <= 0.0 then c.dominant == None && c.imbalance == 1.0
       else
         var more, less := if longUsd > shortUsd then longUsd else shortUsd, if longUsd > shortUsd then shortUsd
                                                                             else longUsd;
         && c.dominant == Some(if longUsd > shortUsd then Long else Short)
         && c.imbalance * (if less > 1.0 then less else 1.0) == more
  }

  lemma CascadeOfMeans(longUsd: real, shortUsd: real)
    ensures CascadeMeans(CascadeOf(longUsd, shortUsd), longUsd, shortUsd)
  {
    var more, less := Max(longUsd, shortUsd), Min(longUsd, shortUsd);
    Undivide(more, Max(less, 1.0), more / Max(less, 1.0));
  }

  /** All entries of one symbol and side. */
  function SideLog(events: seq<Event>, symbol: string, side: Side): seq<Entry> {
    if events == [] then []
    else
      var last := events[|events| - 1];
      if last.symbol == symbol && last.side == side then SideLog(events[..|events| - 1], symbol, side) + [last.entry]
      else SideLog(events[..|events| - 1], symbol, side)
  }

  /** The window starts no earlier than an hour before the latest entry. */
  ghost predicate WithinReach(log: seq<Entry>, now: real, window: real) {
    log != [] ==> now - window >= Peak(log) - RETAIN_SECONDS
  }

  lemma PrunedWindow(log: seq<Entry>, now: real, window: real)
    requires WithinReach(log, now, window)
    ensures Recent(Retained(log, None), now - window) == Recent(log, now - window)
  {
    WindowsSurvivePruning(log, None, now - window);
  }

  function DequeOf(deques: map<string, seq<Entry>>, symbol: string): seq<Entry> {
    if symbol in deques then deques[symbol] else []
  }

  function Largest(s: seq<Entry>): (m: real)
    ensures m >= 0.0 && forall i :: 0 <= i < |s| ==> s[i].usd <= m
    ensures m == 0.0 || exists i :: 0 <= i < |s| && s[i].usd == m
  {
    if s == [] then 0.0 else Max(Largest(s[..|s| - 1]), s[|s| - 1].usd)
  }

  ghost predicate Pruned(deques: map<string, seq<Entry>>, events: seq<Event>, side: Side) {
    forall s :: DequeOf(deques, s) == Retained(SideLog(events, s, side), None)
  }

  lemma PrunedAfter(deques: map<string, seq<Entry>>, events: seq<Event>, e: Event, side: Side, bucket: seq<Entry>)
    requires Pruned(deques, events, side)
    requires bucket == Retained(SideLog(events, e.symbol, e.side) + [e.entry], None)
    ensures Pruned(if e.side == side then deques[e.symbol := bucket] else deques, events + [e], side)
  {
    hide Retained;
    assert (events + [e])[..|events|] == events;
    var after := if e.side == side then deques[e.symbol := bucket] else deques;
    forall s
      ensures DequeOf(after, s) == Retained(SideLog(events + [e], s, side), None)
    {
      assert DequeOf(deques, s) == Retained(SideLog(events, s, side), None);
    }
  }

  lemma BucketOf(longs: map<string, seq<Entry>>, shorts: map<string, seq<Entry>>, events: seq<Event>, symbol: string,
                 side: Side)
    requires Pruned(longs, events, Long) && Pruned(shorts, events, Short)
    ensures DequeOf(if side.Long? then longs else shorts, symbol) == Retained(SideLog(events, symbol, side), None)
  {
  }

  class LiquidationTracker {
    var longLiqs: map<string, seq<Entry>>
    var shortLiqs: map<string, seq<Entry>>
    var totalEvents: nat
    ghost var events: seq<Event>

    /** Every deque is what pruning leaves of its side's entries. */
    ghost predicate Valid()
      reads this
    {
      && totalEvents == |events|
      && Pruned(longLiqs, events, Long) && Pruned(shortLiqs, events, Short)
    }

    constructor ()
      ensures Valid() && events == []
    {
      longLiqs, shortLiqs, totalEvents, events := map[], map[], 0, [];
    }

    /** Appends and prunes; messages without a positive notional are ignored. */
    method OnMessage(symbol: string, side: Side, usd: real, ts: real)
      requires Valid()
      modifies this
      ensures Valid()
      ensures events == if usd <= 0.0 then old(events) else old(events) + [Event(symbol, side, Entry(ts, usd))]
    {
      if usd <= 0.0 {
        return;
      }
      Append(Event(symbol, side, Entry(ts, usd)));
    }

    method Append(e: Event)
      requires Valid()
      modifies this
      ensures Valid() && events == old(events) + [e]
    {
      hide Retained, SideLog, Pruned;
      var bucket := DequeOf(if e.side.Long? then longLiqs else shortLiqs, e.symbol);
      BucketOf(longLiqs, shortLiqs, events, e.symbol, e.side);
      bucket := AppendAndPrune(bucket, e.entry, None, SideLog(events, e.symbol, e.side));
      PrunedAfter(longLiqs, events, e, Long, bucket);
      PrunedAfter(shortLiqs, events, e, Short, bucket);
      if e.side.Long? {
        longLiqs := longLiqs[e.symbol := bucket];
      } else {
        shortLiqs := shortLiqs[e.symbol := bucket];
      }
      events, totalEvents := events + [e], totalEvents + 1;
    }

    /** One side over a window: exactly the whole log's answer whenever the window is within reach. */
    method RecentLiquidations(symbol: string, side: Side, window: real, now: real) returns (usd: real, count: nat)
      requires Valid()
      ensures WithinReach(SideLog(events, symbol, side), now, window) ==>
                usd == Total(Recent(SideLog(events, symbol, side), now - window))
                && count == |Recent(SideLog(events, symbol, side), now - window)|
    {
      hide Retained, Recent, Total, SideLog, WithinReach;
      BucketOf(longLiqs, shortLiqs, events, symbol, side);
      usd, count := SumSince(DequeOf(if side.Long? then longLiqs else shortLiqs, symbol), now - window);
      if WithinReach(SideLog(events, symbol, side), now, window) {
        PrunedWindow(SideLog(events, symbol, side), now, window);
      }
    }

    /** The larger side, by how much, and the two totals; the clock is read once for each side. */
    method CascadeScore(symbol: string, window: real, nowLong: real, nowShort: real) returns (c: Cascade)
      requires Valid()
      ensures WithinReach(SideLog(events, symbol, Long), nowLong, window)
              && WithinReach(SideLog(events, symbol, Short), nowShort, window) ==>
                CascadeMeans(c, Total(Recent(SideLog(events, symbol, Long), nowLong - window)),
                             Total(Recent(SideLog(events, symbol, Short), nowShort - window)))
    {
      hide Retained, Recent, Total, SideLog, WithinReach, CascadeMeans;
      var longUsd, _ := RecentLiquidations(symbol, Long, window, nowLong);
      var shortUsd, _ := RecentLiquidations(symbol, Short, window, nowShort);
      c := CascadeOf(longUsd, shortUsd);
      CascadeOfMeans(longUsd, shortUsd);
    }

    /** The largest single liquidation of a window, over both sides. */
    method LargestSingle(symbol: string, window: real, now: real) returns (biggest: real)
      requires Valid()
      ensures WithinReach(SideLog(events, symbol, Long), now, window)
              && WithinReach(SideLog(events, symbol, Short), now, window) ==>
                biggest == Max(Largest(Recent(SideLog(events, symbol, Long), now - window)),
                               Largest(Recent(SideLog(events, symbol, Short), now - window)))
    {
      hide Retained, Recent, SideLog, WithinReach, Largest;
      biggest := RaiseToLargest(0.0, DequeOf(longLiqs, symbol), now - window);
      biggest := RaiseToLargest(biggest, DequeOf(shortLiqs, symbol), now - window);
      if WithinReach(SideLog(events, symbol, Long), now, window)
         && WithinReach(SideLog(events, symbol, Short), now, window) {
        PrunedWindow(SideLog(events, symbol, Long), now, window);
        PrunedWindow(SideLog(events, symbol, Short), now, window);
      }
    }
  }

  method RaiseToLargest(floor: real, d: seq<Entry>, cutoff: real) returns (biggest: real)
    requires floor >= 0.0
    ensures biggest == Max(floor, Largest(Recent(d, cutoff)))
  {
    biggest := floor;
    for i := 0 to |d|
      invariant biggest == Max(floor, Largest(Recent(d[..i], cutoff)))
    {
      assert d[..i + 1][..i] == d[..i];
      if d[i].ts >= cutoff {
        var w := Recent(d[..i], cutoff);
        assert (w + [d[i]])[..|w|] == w;
        if d[i].usd > biggest {
          biggest := d[i].usd;
        }
      }
    }
    assert d[..|d|] == d;
  }

  // ---------- offline ----------

  predicate InWindow(r: Recorded, symbol: string, cutoff: int, end: int) {
    r.symbol == symbol && cutoff <= r.timestamp <= end
  }

  function RecordedUsd(rs: seq<Recorded>, symbol: string, side: Side, cutoff: int, end: int): real {
    if rs == [] then 0.0
    else
      var last := rs[|rs| - 1];
      RecordedUsd(rs[..|rs| - 1], symbol, side, cutoff, end)
      + if InWindow(last, symbol, cutoff, end) && last.side == side then last.sizeUsd else 0.0
  }

  function RecordedCount(rs: seq<Recorded>, symbol: string, cutoff: int, end: int): nat {
    if rs == [] then 0
    else
      RecordedCount(rs[..|rs| - 1], symbol, cutoff, end)
      + if InWindow(rs[|rs| - 1], symbol, cutoff, end) then 1 else 0
  }

  /** The offline loop over all recorded events. */
  method Aggregate5mWindow(rs: seq<Recorded>, symbol: string, end: int, windowMs: int) returns (c: Cascade, count: nat)
    ensures c == CascadeOf(RecordedUsd(rs, symbol, Long, end - windowMs, end),
                           RecordedUsd(rs, symbol, Short, end - windowMs, end))
    ensures CascadeMeans(c, RecordedUsd(rs, symbol, Long, end - windowMs, end),
                         RecordedUsd(rs, symbol, Short, end - windowMs, end))
    ensures count == RecordedCount(rs, symbol, end - windowMs, end)
  {
    var cutoff, longUsd, shortUsd := end - windowMs, 0.0, 0.0;
    count := 0;
    for i := 0 to |rs|
      invariant longUsd == RecordedUsd(rs[..i], symbol, Long, cutoff, end)
      invariant shortUsd == RecordedUsd(rs[..i], symbol, Short, cutoff, end)
      invariant count == RecordedCount(rs[..i], symbol, cutoff, end)
    {
      assert rs[..i + 1][..i] == rs[..i];
      var r := rs[i];
      if r.symbol != symbol || r.timestamp < cutoff || r.timestamp > end {
        continue;
      }
      count := count + 1;
      if r.side.Long? {
        longUsd := longUsd + r.sizeUsd;
      } else {
        shortUsd := shortUsd + r.sizeUsd;
      }
    }
    assert rs[..|rs|] == rs;
    c := CascadeOf(longUsd, shortUsd);
    CascadeOfMeans(longUsd, shortUsd);
  }

  // ---------- the two agree ----------

  /** The same event, once in seconds and once in milliseconds. */
  ghost predicate SameEvent(e: Event, r: Recorded) {
    e.symbol == r.symbol && e.side == r.side && e.entry.usd == r.sizeUsd && r.timestamp as real == 1000.0 * e.entry.ts
  }

  ghost predicate SameEvents(events: seq<Event>, rs: seq<Recorded>) {
    |events| == |rs| && forall i :: 0 <= i < |rs| ==> SameEvent(events[i], rs[i])
  }

  lemma SameWindow(e: Event, r: Recorded, cutoff: real, cutoffMs: int)
    requires SameEvent(e, r) && cutoffMs as real == 1000.0 * cutoff
    ensures r.timestamp >= cutoffMs <==> e.entry.ts >= cutoff
  {
    assert r.timestamp >= cutoffMs <==> r.timestamp as real >= cutoffMs as real;
  }

  lemma LastSide(events: seq<Event>, symbol: string, side: Side)
    requires events != []
    ensures var e := events[|events| - 1];
            SideLog(events, symbol, side) == SideLog(events[..|events| - 1], symbol, side)
              + if e.symbol == symbol && e.side == side then [e.entry] else []
  {
  }

  lemma LastRecorded(rs: seq<Recorded>, symbol: string, side: Side, cutoff: int, end: int)
    requires rs != []
    ensures var r := rs[|rs| - 1];
            RecordedUsd(rs, symbol, side, cutoff, end) == RecordedUsd(rs[..|rs| - 1], symbol, side, cutoff, end)
              + if InWindow(r, symbol, cutoff, end) && r.side == side then r.sizeUsd else 0.0
  {
  }

  lemma {:induction false} SameTotals(events: seq<Event>, rs: seq<Recorded>, symbol: string, side: Side,
                                      cutoff: real, cutoffMs: int, end: int)
    requires SameEvents(events, rs) && cutoffMs as real == 1000.0 * cutoff
    requires forall i :: 0 <= i < |rs| ==> rs[i].timestamp <= end
    ensures RecordedUsd(rs, symbol, side, cutoffMs, end) == Total(Recent(SideLog(events, symbol, side), cutoff))
    decreases |rs|
  {
    if rs != [] {
      var e, r := events[|events| - 1], rs[|rs| - 1];
      var log := SideLog(events[..|events| - 1], symbol, side);
      LastSide(events, symbol, side);
      LastRecorded(rs, symbol, side, cutoffMs, end);
      hide Recent, Total, SideLog, RecordedUsd;
      SameTotals(events[..|events| - 1], rs[..|rs| - 1], symbol, side, cutoff, cutoffMs, end);
      assert SameEvent(e, r);
      SameWindow(e, r, cutoff, cutoffMs);
      AppendRecent(log, e.entry, cutoff);
    }
  }

  lemma {:induction false} SameCounts(events: seq<Event>, rs: seq<Recorded>, symbol: string,
                                      cutoff: real, cutoffMs: int, end: int)
    requires SameEvents(events, rs) && cutoffMs as real == 1000.0 * cutoff
    requires forall i :: 0 <= i < |rs| ==> rs[i].timestamp <= end
    ensures RecordedCount(rs, symbol, cutoffMs, end)
         == |Recent(SideLog(events, symbol, Long), cutoff)| + |Recent(SideLog(events, symbol, Short), cutoff)|
    decreases |rs|
  {
    if rs != [] {
      var e, r := events[|events| - 1], rs[|rs| - 1];
      SameCounts(events[..|events| - 1], rs[..|rs| - 1], symbol, cutoff, cutoffMs, end);
      assert SameEvent(e, r);
      SameWindow(e, r, cutoff, cutoffMs);
      AppendRecent(SideLog(events[..|events| - 1], symbol, e.side), e.entry, cutoff);
    }
  }

  lemma AppendRecent(log: seq<Entry>, e: Entry, cutoff: real)
    ensures Total(Recent(log + [e], cutoff)) == Total(Recent(log, cutoff)) + if e.ts >= cutoff then e.usd else 0.0
    ensures |Recent(log + [e], cutoff)| == |Recent(log, cutoff)| + if e.ts >= cutoff then 1 else 0
  {
    assert (log + [e])[..|log|] == log;
    var w := Recent(log, cutoff);
    assert (w + [e])[..|w|] == w;
  }

  /**
   At one instant, on the same events and a window of at most an hour, the live tracker's two totals and its count are
   the offline ones, so both give the same cascade; the live clock must not have run backwards.
   */
  lemma LiveMatchesOffline(events: seq<Event>, rs: seq<Recorded>, symbol: string, now: real, window: real,
                           end: int, windowMs: int)
    requires SameEvents(events, rs)
    requires end as real == 1000.0 * now && windowMs as real == 1000.0 * window && window <= RETAIN_SECONDS
    requires forall i :: 0 <= i < |events| ==> events[i].entry.ts <= now
    ensures var long := Recent(Retained(SideLog(events, symbol, Long), None), now - window);
            var short := Recent(Retained(SideLog(events, symbol, Short), None), now - window);
            && CascadeOf(Total(long), Total(short))
               == CascadeOf(RecordedUsd(rs, symbol, Long, end - windowMs, end),
                            RecordedUsd(rs, symbol, Short, end - windowMs, end))
            && |long| + |short| == RecordedCount(rs, symbol, end - windowMs, end)
  {
    hide Retained, Recent, Total, RecordedUsd, RecordedCount, CascadeOf;
    AllWithinReach(events, symbol, Long, now, window);
    AllWithinReach(events, symbol, Short, now, window);
    PrunedWindow(SideLog(events, symbol, Long), now, window);
    PrunedWindow(SideLog(events, symbol, Short), now, window);
    forall i | 0 <= i < |rs|
      ensures rs[i].timestamp <= end
    {
      assert SameEvent(events[i], rs[i]);
    }
    SameTotals(events, rs, symbol, Long, now - window, end - windowMs, end);
    SameTotals(events, rs, symbol, Short, now - window, end - windowMs, end);
    SameCounts(events, rs, symbol, now - window, end - windowMs, end);
  }

  lemma {:induction false} SideLogFromEvents(events: seq<Event>, symbol: string, side: Side, now: real)
    requires forall i :: 0 <= i < |events| ==> events[i].entry.ts <= now
    ensures forall i :: 0 <= i < |SideLog(events, symbol, side)| ==> SideLog(events, symbol, side)[i].ts <= now
  {
    if events != [] { SideLogFromEvents(events[..|events| - 1], symbol, side, now); }
  }

  lemma {:induction false} PeakBelow(log: seq<Entry>, now: real)
    requires log != [] && forall i :: 0 <= i < |log| ==> log[i].ts <= now
    ensures Peak(log) <= now
  {
    if |log| > 1 { PeakBelow(log[..|log| - 1], now); }
  }

  /** While no entry is dated after now, every window of at most an hour is within reach. */
  lemma AllWithinReach(events: seq<Event>, symbol: string, side: Side, now: real, window: real)
    requires window <= RETAIN_SECONDS && forall i :: 0 <= i < |events| ==> events[i].entry.ts <= now
    ensures WithinReach(SideLog(events, symbol, side), now, window)
  {
    SideLogFromEvents(events, symbol, side, now);
    if SideLog(events, symbol, side) != [] { PeakBelow(SideLog(events, symbol, side), now); }
  }
}
