/**
 One-hour price changes from a ring of 120 throttled snapshots per symbol, and why the ring answers exactly as the
 unbounded history would.
 */
module Acceleration {
  import opened Buffers
  import opened Options
  import opened Reals

  datatype Snap = Snap(ts: real, price: real)

  /** A tick of the price stream; the clock may step back from one tick to the next. */
  datatype Tick = Tick(symbol: string, snap: Snap)

  const MAX_SNAPSHOTS := 120
  const SNAP_INTERVAL := 60.0
  const MIN_HISTORY := 3300.0
  const LOOKBACK := 3600.0

  function LastTs(log: seq<Snap>): real { if log == [] then 0.0 else log[|log| - 1].ts }

  /** The snapshots the throttle lets through, from the whole stream. */
  function Accepted(ticks: seq<Tick>, symbol: string): seq<Snap> {
    if ticks == [] then []
    else
      var earlier, last := Accepted(ticks[..|ticks| - 1], symbol), ticks[|ticks| - 1];
      if last.symbol == symbol && last.snap.ts - LastTs(earlier) >= SNAP_INTERVAL
      then earlier + [last.snap]
      else earlier
  }

  function Distance(ts: real, target: real): real { if ts >= target then ts - target else target - ts }

  /** The earliest snapshot among those closest to the target. */
  function Closest(log: seq<Snap>, target: real): (k: nat)
    requires log != []
    ensures k < |log|
    ensures forall j :: 0 <= j < |log| ==> Distance(log[k].ts, target) <= Distance(log[j].ts, target)
    ensures forall j :: 0 <= j < k ==> Distance(log[k].ts, target) < Distance(log[j].ts, target)
  {
    if |log| == 1 then 0
    else
      var k, last := Closest(log[..|log| - 1], target), |log| - 1;
      assert log[..|log| - 1][k] == log[k];
      assert forall j :: 0 <= j < last ==> log[..last][j] == log[j];
      if Distance(log[last].ts, target) < Distance(log[k].ts, target) then last else k
  }

  /** The percentage change between two snapshots; none from a price of zero. */
  function PctChange(past: Snap, now: Snap): Option<real> {
    if past.price == 0.0 then None else Some((now.price - past.price) / past.price * 100.0)
  }

  /** The one-hour change as a function of every snapshot ever accepted. */
  function HourChange(log: seq<Snap>): Option<real> {
    if |log| < 2 || LastTs(log) - log[0].ts < MIN_HISTORY then None
    else
      var now := log[|log| - 1];
      PctChange(log[Closest(log, now.ts - LOOKBACK)], now)
  }

  /** The snapshot is the earliest of those whose time is closest to an hour before the latest. */
  ghost predicate HourBefore(log: seq<Snap>, k: nat)
    requires log != []
  {
    var target := log[|log| - 1].ts - 3600.0;
    && k < |log|
    && (forall j :: 0 <= j < |log| ==> Abs(log[k].ts - target) <= Abs(log[j].ts - target))
    && (forall j :: 0 <= j < k ==> Abs(log[k].ts - target) < Abs(log[j].ts - target))
  }

  /** The percentage by which the price has moved from a snapshot to another; none from a price of zero. */
  ghost predicate MovedBy(past: Snap, now: Snap, change: Option<real>) {
    && (change.Some? <==> past.price != 0.0)
    && (change.Some? ==> change.value * past.price == 100.0 * (now.price - past.price))
  }

  /**
   The one-hour change in plain arithmetic: there is one exactly if the history spans 55 minutes and the snapshot of an
   hour before has a price, and it is the percentage by which the price has moved from there.
   */
  ghost predicate ChangeMeans(log: seq<Snap>, change: Option<real>) {
    if |log| < 2 || log[|log| - 1].ts - log[0].ts < 3300.0 then change == None
    else exists k: nat :: k < |log| && HourBefore(log, k) && MovedBy(log[k], log[|log| - 1], change)
  }

  lemma HourChangeMeans(log: seq<Snap>)
    ensures ChangeMeans(log, HourChange(log))
  {
    hide Closest, PctChange, HourBefore, MovedBy;
    if |log| >= 2 && log[|log| - 1].ts - log[0].ts >= 3300.0 {
      var now := log[|log| - 1];
      ClosestIsHourBefore(log);
      PctMeans(log[Closest(log, now.ts - LOOKBACK)], now);
    }
  }

  lemma ClosestIsHourBefore(log: seq<Snap>)
    requires log != []
    ensures HourBefore(log, Closest(log, log[|log| - 1].ts - LOOKBACK))
  {
    hide Closest, Distance, Abs;
    var target := log[|log| - 1].ts - LOOKBACK;
    var k := Closest(log, target);
    DistanceIsAbs(log[k].ts, target);
    forall j | 0 <= j < |log|
      ensures Distance(log[j].ts, target) == Abs(log[j].ts - target)
    {
      DistanceIsAbs(log[j].ts, target);
    }
  }

  lemma DistanceIsAbs(ts: real, target: real)
    ensures Distance(ts, target) == Abs(ts - target)
  {
  }

  lemma PctMeans(past: Snap, now: Snap)
    ensures MovedBy(past, now, PctChange(past, now))
  {
    if past.price != 0.0 {
      var r := (now.price - past.price) / past.price;
      assert r * past.price == now.price - past.price;
      assert r * 100.0 * past.price == 100.0 * (r * past.price);
    }
  }

  /** There is only one snapshot closest to an hour before, so the change is determined. */
  lemma ChangeIsDetermined(log: seq<Snap>, a: Option<real>, b: Option<real>)
    requires ChangeMeans(log, a) && ChangeMeans(log, b)
    ensures a == b
  {
    hide HourBefore, MovedBy;
    if |log| >= 2 && log[|log| - 1].ts - log[0].ts >= 3300.0 {
      var now := log[|log| - 1];
      var k: nat :| k < |log| && HourBefore(log, k) && MovedBy(log[k], now, a);
      var n: nat :| n < |log| && HourBefore(log, n) && MovedBy(log[n], now, b);
      HourBeforeIsUnique(log, k, n);
      MovedOnce(log[k], now, a, b);
    }
  }

  lemma HourBeforeIsUnique(log: seq<Snap>, k: nat, n: nat)
    requires log != [] && HourBefore(log, k) && HourBefore(log, n)
    ensures k == n
  {
    hide Abs;
  }

  lemma MovedOnce(past: Snap, now: Snap, a: Option<real>, b: Option<real>)
    requires MovedBy(past, now, a) && MovedBy(past, now, b)
    ensures a == b
  {
    if a.Some? {
      assert (a.value - b.value) * past.price == 0.0;
      ZeroFactor(past.price, a.value - b.value);
    }
  }

  /** The throttle lets through all it may: a tick it drops comes less than a minute after the last one accepted. */
  lemma {:induction false} ThrottleIsGreedy(ticks: seq<Tick>, symbol: string, i: nat)
    requires i < |ticks| && ticks[i].symbol == symbol
    ensures var earlier := Accepted(ticks[..i], symbol);
            Accepted(ticks[..i + 1], symbol) ==
            if ticks[i].snap.ts - (if earlier == [] then 0.0 else earlier[|earlier| - 1].ts) < 60.0 then earlier
            else earlier + [ticks[i].snap]
  {
    assert ticks[..i + 1][..i] == ticks[..i];
  }

  ghost predicate Spaced(log: seq<Snap>) {
    forall i, j :: 0 <= i < j < |log| ==> log[i].ts + SNAP_INTERVAL <= log[j].ts
  }

  /** Accepted snapshots are at least a minute apart, however the clock jumps. */
  lemma {:induction false} AcceptedAreSpaced(ticks: seq<Tick>, symbol: string)
    ensures Spaced(Accepted(ticks, symbol))
  {
    if ticks != [] {
      AcceptedAreSpaced(ticks[..|ticks| - 1], symbol);
    }
  }

  /** n minutes at least pass over n snapshots. */
  lemma {:induction false} SpanOf(log: seq<Snap>, first: nat, n: nat)
    requires Spaced(log) && first + n < |log|
    ensures log[first + n].ts - log[first].ts >= SNAP_INTERVAL * n as real
    decreases n
  {
    if n > 0 {
      SpanOf(log, first, n - 1);
      assert log[first + (n - 1)].ts + SNAP_INTERVAL <= log[first + n].ts;
    }
  }

  /** What pins the chosen snapshot down. */
  lemma ClosestIsUnique(log: seq<Snap>, target: real, k: nat)
    requires k < |log|
    requires forall j :: 0 <= j < |log| ==> Distance(log[k].ts, target) <= Distance(log[j].ts, target)
    requires forall j :: 0 <= j < k ==> Distance(log[k].ts, target) < Distance(log[j].ts, target)
    ensures k == Closest(log, target)
  {
    var c := Closest(log, target);
    assert Distance(log[k].ts, target) <= Distance(log[c].ts, target);
    assert Distance(log[c].ts, target) <= Distance(log[k].ts, target);
  }

  /** With a full ring and a target inside it, the ring's choice is the whole history's choice. */
  lemma RingHoldsClosest(log: seq<Snap>, cut: nat, target: real)
    requires Spaced(log) && cut < |log| && log[cut].ts <= target
    ensures cut + Closest(log[cut..], target) == Closest(log, target)
  {
    var ring := log[cut..];
    var k := Closest(ring, target);
    assert forall i :: 0 <= i < |ring| ==> ring[i] == log[cut + i];
    forall j | 0 <= j < |log|
      ensures Distance(log[cut + k].ts, target) <= Distance(log[j].ts, target)
      ensures j < cut + k ==> Distance(log[cut + k].ts, target) < Distance(log[j].ts, target)
    {
      if j < cut {
        assert log[j].ts < log[cut].ts;
        assert Distance(ring[k].ts, target) <= Distance(ring[0].ts, target);
      } else {
        assert log[j] == ring[j - cut];
      }
    }
    ClosestIsUnique(log, target, cut + k);
  }

  /** The 120 latest snapshots decide the change: nothing the ring has dropped could have been chosen. */
  lemma RingAgreesWithLog(log: seq<Snap>)
    requires Spaced(log)
    ensures HourChange(LastN(log, MAX_SNAPSHOTS)) == HourChange(log)
  {
    hide PctChange, Closest;
    if |log| > MAX_SNAPSHOTS {
      var ring, cut := LastN(log, MAX_SNAPSHOTS), |log| - MAX_SNAPSHOTS;
      var now := log[|log| - 1];
      SpanOf(log, cut, MAX_SNAPSHOTS - 1);
      assert now.ts - log[cut].ts >= 7140.0;
      assert log[0].ts < log[cut].ts;
      RingHoldsClosest(log, cut, now.ts - LOOKBACK);
      assert ring == log[cut..];
      var k := Closest(ring, now.ts - LOOKBACK);
      assert ring[k] == log[cut + k] && ring[|ring| - 1] == now && ring[0] == log[cut];
    }
  }

  class AccelerationTracker {
    var snapshots: map<string, seq<Snap>>
    var lastSnapTs: map<string, real>
    ghost var ticks: seq<Tick>

    /** Every ring is the tail of what the throttle accepted from all ticks so far. */
    ghost predicate Valid()
      reads this
    {
      && snapshots.Keys == lastSnapTs.Keys
      && forall s :: (s in snapshots <==> Accepted(ticks, s) != []) && (s in snapshots ==>
           snapshots[s] == LastN(Accepted(ticks, s), MAX_SNAPSHOTS) && lastSnapTs[s] == LastTs(Accepted(ticks, s)))
    }

    constructor ()
      ensures Valid() && ticks == []
    {
      snapshots, lastSnapTs, ticks := map[], map[], [];
    }

    /** Records a tick unless the symbol's last snapshot is less than a minute older. */
    method Update(symbol: string, price: real, ts: real)
      requires Valid()
      modifies this
      ensures Valid() && ticks == old(ticks) + [Tick(symbol, Snap(ts, price))]
    {
      ghost var before := ticks;
      ticks := ticks + [Tick(symbol, Snap(ts, price))];
      assert ticks[..|ticks| - 1] == before;
      var last := if symbol in lastSnapTs then lastSnapTs[symbol] else 0.0;
      if ts - last < SNAP_INTERVAL {
        return;
      }
      var ring := if symbol in snapshots then snapshots[symbol] else [];
      LastNAppend(Accepted(before, symbol), Snap(ts, price), MAX_SNAPSHOTS);
      snapshots := snapshots[symbol := LastN(ring + [Snap(ts, price)], MAX_SNAPSHOTS)];
      lastSnapTs := lastSnapTs[symbol := ts];
    }

    /** The scan of the ring, with its early exit, finds what the whole history would give. */
    method Get1hChange(symbol: string) returns (r: Option<real>)
      requires Valid()
      ensures r == HourChange(Accepted(ticks, symbol)) && ChangeMeans(Accepted(ticks, symbol), r)
    {
      ghost var log := Accepted(ticks, symbol);
      HourChangeMeans(log);
      hide ChangeMeans;
      AcceptedAreSpaced(ticks, symbol);
      RingAgreesWithLog(log);
      RingIsSpaced(log);
      hide HourChange, Accepted, Spaced;
      var ring := if symbol in snapshots then snapshots[symbol] else [];
      assert ring == LastN(log, MAX_SNAPSHOTS);
      hide LastN;
      r := RingChange(ring);
    }

    /** Every symbol whose change is large enough, with its change. */
    method GetAllAccelerations(minAbsPct: real) returns (r: map<string, real>)
      requires Valid()
      ensures forall s :: s in r <==> HourChange(Accepted(ticks, s)).Some?
                                      && Distance(HourChange(Accepted(ticks, s)).value, 0.0) >= minAbsPct
      ensures forall s :: s in r ==> HourChange(Accepted(ticks, s)) == Some(r[s])
    {
      assert HourChange([]) == None;
      assert forall s :: s !in snapshots ==> HourChange(Accepted(ticks, s)).None?;
      hide Valid, HourChange, Accepted, LastN, LastTs;
      r := map[];
      var todo := snapshots.Keys;
      while todo != {}
        invariant todo <= snapshots.Keys
        invariant forall s :: s in r <==> s in snapshots.Keys - todo && HourChange(Accepted(ticks, s)).Some?
                                          && Distance(HourChange(Accepted(ticks, s)).value, 0.0) >= minAbsPct
        invariant forall s :: s in r ==> HourChange(Accepted(ticks, s)) == Some(r[s])
        decreases todo
      {
        var symbol :| symbol in todo;
        todo := todo - {symbol};
        var change := Get1hChange(symbol);
        if change.Some? && Distance(change.value, 0.0) >= minAbsPct {
          r := r[symbol := change.value];
        }
      }
    }
  }

  lemma RingIsSpaced(log: seq<Snap>)
    requires Spaced(log)
    ensures Spaced(LastN(log, MAX_SNAPSHOTS))
  {
  }

  /** The change over one ring. */
  method RingChange(ring: seq<Snap>) returns (r: Option<real>)
    requires Spaced(ring)
    ensures r == HourChange(ring)
  {
    hide PctChange, Closest, Spaced;
    if |ring| < 2 {
      return None;
    }
    var now := ring[|ring| - 1];
    if now.ts - ring[0].ts < MIN_HISTORY {
      return None;
    }
    var best := FindClosest(ring, now.ts - LOOKBACK);
    return PctChange(ring[best], now);
  }

  /** The linear scan that stops at the first snapshot past the target. */
  method FindClosest(ring: seq<Snap>, target: real) returns (best: nat)
    requires ring != [] && Spaced(ring)
    ensures best == Closest(ring, target)
  {
    best := 0;
    var i := 0;
    while i < |ring|
      invariant 0 <= i <= |ring|
      invariant i == 0 ==> best == 0
      invariant i > 0 ==> best == Closest(ring[..i], target) && ring[i - 1].ts <= target
    {
      if i == 0 || Distance(ring[i].ts, target) < Distance(ring[best].ts, target) {
        best := i;
      }
      assert ring[..i + 1][..i] == ring[..i];
      i := i + 1;
      if ring[i - 1].ts > target {
        break;
      }
    }
    PastTheTarget(ring, target, i, best);
  }

  /** Once past the target, later snapshots are only further away. */
  lemma PastTheTarget(ring: seq<Snap>, target: real, i: nat, best: nat)
    requires 0 < i <= |ring| && Spaced(ring)
    requires best == Closest(ring[..i], target) && (i == |ring| || ring[i - 1].ts > target)
    ensures best == Closest(ring, target)
  {
    forall j | 0 <= j < |ring|
      ensures Distance(ring[best].ts, target) <= Distance(ring[j].ts, target)
      ensures j < best ==> Distance(ring[best].ts, target) < Distance(ring[j].ts, target)
    {
      if j < i {
        assert ring[..i][j] == ring[j];
      } else {
        assert ring[j].ts > ring[i - 1].ts;
        assert ring[..i][i - 1] == ring[i - 1];
      }
    }
    ClosestIsUnique(ring, target, best);
  }
}
