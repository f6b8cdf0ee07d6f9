/**
 A live position and what one price tick does to it: watermarks, samples, ratchet, and the
 ordered exit checks stop, target, timeout, fast cut.
 */
module Positions {
  import opened Buffers
  import opened Options
  import opened Reals
  import opened TrailingStop

  datatype Reason = StopHit | TrailHit | TargetHit | Timeout | FastCut | MaxHold

  /** A price sample; times are in seconds. */
  datatype Sample = Sample(time: real, price: real)

  /** A price tick and the wall clock, in seconds, while it is handled. */
  datatype Tick = Tick(price: real, now: real)

  const FAST_CUT_EXEMPT: set<string> := {"BTC", "ETH", "SOL", "BNB", "XRP"}
  const MAX_SAMPLES := 600
  const MAX_HOLD_HOURS := 48.0

  /** The value of a position; `low` is None while it stands for plus infinity. openedAt is in ms. */
  datatype Pos = Pos(
    id: nat, symbol: string, terms: Terms, size: real, quantity: real, openedAt: real,
    entryCommission: real, currentPrice: real, high: real, low: Option<real>, trail: real,
    recent: seq<Sample>)

  // ---------- one tick ----------

  /** The samples not older than the cutoff, in order. */
  function Since(samples: seq<Sample>, cutoff: real): seq<Sample> {
    if samples == [] then []
    else
      var last := samples[|samples| - 1];
      Since(samples[..|samples| - 1], cutoff) + if last.time >= cutoff then [last] else []
  }

  /** Relative change over the last five minutes, None when the samples are too few, too old or too close. */
  function Velocity(samples: seq<Sample>, now: real): Option<real> {
    WindowVelocity(Since(samples, now - 300.0), now)
  }

  function WindowVelocity(w: seq<Sample>, now: real): Option<real> {
    if |w| < 3 then None
    else if now - w[|w| - 1].time > 60.0 then None
    else if w[0].price <= 0.0 || w[|w| - 1].time - w[0].time < 60.0 then None
    else Some((w[|w| - 1].price - w[0].price) / w[0].price)
  }

  function HoldHours(p: Pos, now: real): real {
    (now * 1000.0 - p.openedAt) / 3600000.0
  }

  function UnrealizedPct(p: Pos): real {
    if p.terms.entry == 0.0 then 0.0 else Profit(p.terms, p.currentPrice)
  }

  /** What a fast cut asks for before it looks at the samples. */
  predicate FastCutGates(p: Pos, now: real) {
    p.symbol !in FAST_CUT_EXEMPT && HoldHours(p, now) >= 0.5 && UnrealizedPct(p) <= -0.02
  }

  /** Samples that show no recovery. */
  predicate NotRecovering(side: Side, samples: seq<Sample>, now: real) {
    var v := Velocity(samples, now);
    v.Some? && if side.Long? then v.value <= 0.0 else v.value >= 0.0
  }

  predicate FastCutAllowed(p: Pos, now: real) {
    FastCutGates(p, now) && NotRecovering(p.terms.side, p.recent, now)
  }

  /** Bookkeeping of a tick: current price, watermarks, sample and ratchet. */
  function Observe(p: Pos, t: Tick): Pos
    requires p.terms.entry != 0.0
  {
    p.(currentPrice := t.price,
       high := Max(p.high, t.price),
       low := Some(if p.low.None? then t.price else Min(p.low.value, t.price)),
       recent := LastN(p.recent + [Sample(t.now, t.price)], MAX_SAMPLES),
       trail := Ratchet(p.terms, p.trail, t.price))
  }

  /** Whether the price has reached the stop in force. */
  predicate StopTriggered(t: Terms, trail: real, price: real) {
    AtLeastAsGood(t.side, EffectiveStop(t, trail), price)
  }

  predicate TargetTriggered(t: Terms, price: real) {
    AtLeastAsGood(t.side, price, t.TargetPrice())
  }

  /** The exit checks that do not look at the samples, in order. */
  function RiskVerdict(p: Pos, t: Tick): Option<Reason> {
    if StopTriggered(p.terms, p.trail, t.price) then Some(if p.trail > 0.0 then TrailHit else StopHit)
    else if TargetTriggered(p.terms, t.price) then Some(TargetHit)
    else if HoldHours(p, t.now) > MAX_HOLD_HOURS then Some(Timeout)
    else None
  }

  /** The exit checks, in order, on a position that has already observed the tick. */
  function Verdict(p: Pos, t: Tick): Option<Reason> {
    var risk := RiskVerdict(p, t);
    if risk.Some? then risk
    else if FastCutAllowed(p, t.now) then Some(FastCut)
    else None
  }

  // ---------- what each exit means, in plain arithmetic ----------

  /** The price is strictly better than the stop in force. */
  ghost predicate InsideStop(p: Pos, price: real) {
    var stop := if p.trail > 0.0 then p.trail
                else if p.terms.side.Long? then p.terms.entry - p.terms.stopPct * p.terms.entry
                else p.terms.entry + p.terms.stopPct * p.terms.entry;
    if p.terms.side.Long? then price > stop else price < stop
  }

  /** The price has not come as far as the target. */
  ghost predicate ShortOfTarget(p: Pos, price: real) {
    if p.terms.side.Long? then price < p.terms.entry + p.terms.targetPct * p.terms.entry
    else price > p.terms.entry - p.terms.targetPct * p.terms.entry
  }

  /** How long the position has been held, in milliseconds. */
  function HeldMs(p: Pos, now: real): real { now * 1000.0 - p.openedAt }

  /** The first and the last sample of the last five minutes. */
  ghost predicate Window(samples: seq<Sample>, now: real, first: nat, last: nat) {
    && first <= last < |samples| && samples[first].time >= now - 300.0 && samples[last].time >= now - 300.0
    && (forall i :: 0 <= i < first ==> samples[i].time < now - 300.0)
    && (forall i :: last < i < |samples| ==> samples[i].time < now - 300.0)
  }

  /**
   Three samples at least in the last five minutes, the last of them at most a minute old and a minute at least after
   the first, and the last price not better than the first.
   */
  ghost predicate Fading(side: Side, samples: seq<Sample>, now: real) {
    exists first: nat, last: nat ::
      && Window(samples, now, first, last)
      && (exists mid: nat :: first < mid < last && samples[mid].time >= now - 300.0)
      && now - samples[last].time <= 60.0 && samples[last].time - samples[first].time >= 60.0
      && samples[first].price > 0.0
      && if side.Long? then samples[last].price <= samples[first].price else samples[last].price >= samples[first].price
  }

  /** Not one of five exempt symbols, held for half an hour, at least 2% under water, and no recovery in sight. */
  ghost predicate CutDue(p: Pos, t: Tick) {
    && p.symbol !in {"BTC", "ETH", "SOL", "BNB", "XRP"} && HeldMs(p, t.now) >= 1800000.0
    && (if p.terms.side.Long? then 100.0 * t.price <= 98.0 * p.terms.entry
        else 100.0 * t.price >= 102.0 * p.terms.entry)
    && Fading(p.terms.side, p.recent, t.now)
  }

  /** What an exit of a position that has observed the tick, or the lack of one, says about price, clock and samples. */
  ghost predicate ExitMeans(p: Pos, t: Tick, exit: Option<Reason>) {
    match exit
    case Some(StopHit) => p.trail <= 0.0 && !InsideStop(p, t.price)
    case Some(TrailHit) => p.trail > 0.0 && !InsideStop(p, t.price)
    case Some(TargetHit) => InsideStop(p, t.price) && !ShortOfTarget(p, t.price)
    case Some(Timeout) =>
      InsideStop(p, t.price) && ShortOfTarget(p, t.price) && HeldMs(p, t.now) > 48.0 * 3600000.0
    case Some(FastCut) =>
      InsideStop(p, t.price) && ShortOfTarget(p, t.price) && HeldMs(p, t.now) <= 48.0 * 3600000.0 && CutDue(p, t)
    case Some(MaxHold) => false
    case None =>
      InsideStop(p, t.price) && ShortOfTarget(p, t.price) && HeldMs(p, t.now) <= 48.0 * 3600000.0 && !CutDue(p, t)
  }

  /** The filtered window: its ends, and whether there is a sample between them. */
  lemma {:induction false} SinceEnds(samples: seq<Sample>, now: real) returns (first: nat, last: nat)
    requires Since(samples, now - 300.0) != []
    ensures var w := Since(samples, now - 300.0);
            && Window(samples, now, first, last) && w[0] == samples[first] && w[|w| - 1] == samples[last]
            && (|w| == 1 <==> first == last)
            && (|w| >= 3 <==> exists mid: nat :: first < mid < last && samples[mid].time >= now - 300.0)
  {
    var init, n := samples[..|samples| - 1], |samples| - 1;
    var w := Since(init, now - 300.0);
    if samples[n].time < now - 300.0 {
      first, last := SinceEnds(init, now);
      assert forall i :: 0 <= i < n ==> init[i] == samples[i];
    } else if w == [] {
      NoneSince(init, now);
      first, last := n, n;
      assert forall i :: 0 <= i < n ==> init[i] == samples[i];
    } else {
      var mid: nat;
      first, mid := SinceEnds(init, now);
      last := n;
      assert forall i :: 0 <= i < n ==> init[i] == samples[i];
      if |w| >= 2 { assert first < mid < last && samples[mid].time >= now - 300.0; }
    }
  }

  lemma {:induction false} NoneSince(samples: seq<Sample>, now: real)
    ensures Since(samples, now - 300.0) == [] <==> forall i :: 0 <= i < |samples| ==> samples[i].time < now - 300.0
  {
    if samples != [] {
      var init := samples[..|samples| - 1];
      NoneSince(init, now);
      assert forall i :: 0 <= i < |init| ==> init[i] == samples[i];
    }
  }

  lemma WindowIsUnique(samples: seq<Sample>, now: real, a: nat, b: nat, c: nat, d: nat)
    requires Window(samples, now, a, b) && Window(samples, now, c, d)
    ensures a == c && b == d
  {
  }

  lemma ChangeSign(first: real, last: real)
    requires first > 0.0
    ensures (last - first) / first <= 0.0 <==> last <= first
    ensures (last - first) / first >= 0.0 <==> last >= first
  {
    QuotientAgainst(last - first, first, 0.0);
  }

  lemma NotRecoveringMeans(side: Side, samples: seq<Sample>, now: real)
    ensures NotRecovering(side, samples, now) <==> Fading(side, samples, now)
  {
    NoneSince(samples, now);
    var w := Since(samples, now - 300.0);
    if w == [] {
      assert forall a: nat, b: nat :: !Window(samples, now, a, b);
    } else {
      var first, last := SinceEnds(samples, now);
      if samples[first].price > 0.0 { ChangeSign(samples[first].price, samples[last].price); }
      forall a: nat, b: nat | Window(samples, now, a, b)
        ensures a == first && b == last
      {
        WindowIsUnique(samples, now, a, b, first, last);
      }
      assert last < |samples| && first <= last;
      hide Since, Window;
      assert NotRecovering(side, samples, now) <==>
        && |w| >= 3 && now - samples[last].time <= 60.0 && samples[last].time - samples[first].time >= 60.0
        && samples[first].price > 0.0
        && if side.Long? then samples[last].price <= samples[first].price
           else samples[last].price >= samples[first].price;
      hide NotRecovering;
    }
  }

  lemma StopMeans(p: Pos, price: real)
    ensures StopTriggered(p.terms, p.trail, price) <==> !InsideStop(p, price)
    ensures TargetTriggered(p.terms, price) <==> !ShortOfTarget(p, price)
  {
    ExitPrices(p.terms);
    hide Terms.HardStop, Terms.TargetPrice;
  }

  lemma GatesMean(p: Pos, t: Tick)
    requires p.terms.entry > 0.0 && p.currentPrice == t.price
    ensures FastCutGates(p, t.now) <==>
            && p.symbol !in {"BTC", "ETH", "SOL", "BNB", "XRP"} && HeldMs(p, t.now) >= 1800000.0
            && if p.terms.side.Long? then 100.0 * t.price <= 98.0 * p.terms.entry
               else 100.0 * t.price >= 102.0 * p.terms.entry
    ensures HoldHours(p, t.now) > MAX_HOLD_HOURS <==> HeldMs(p, t.now) > 48.0 * 3600000.0
  {
    QuotientAgainst(Gained(p.terms, t.price), p.terms.entry, -0.02);
  }

  /** Every exit, and staying open, happens exactly under its condition on price, clock and samples. */
  lemma VerdictMeans(p: Pos, t: Tick, exit: Option<Reason>)
    requires p.terms.entry > 0.0 && p.currentPrice == t.price
    ensures Verdict(p, t) == exit <==> ExitMeans(p, t, exit)
  {
    StopMeans(p, t.price);
    GatesMean(p, t);
    NotRecoveringMeans(p.terms.side, p.recent, t.now);
    hide StopTriggered, TargetTriggered, InsideStop, ShortOfTarget, FastCutGates, HoldHours, HeldMs, NotRecovering;
    hide Fading;
  }

  /** The position object: the fields a tick updates in place, and the ones it never touches. */
  class Position {
    const id: nat
    const symbol: string
    const terms: Terms
    const size: real
    const quantity: real
    const openedAt: real
    const entryCommission: real
    var currentPrice: real
    var high: real
    var low: Option<real>
    var trail: real
    var recent: seq<Sample>

    constructor (id: nat, symbol: string, terms: Terms, size: real, quantity: real, openedAt: real,
                 entryCommission: real)
      ensures View() == Opened(id, symbol, terms, size, quantity, openedAt, entryCommission)
    {
      this.id, this.symbol, this.terms := id, symbol, terms;
      this.size, this.quantity, this.openedAt, this.entryCommission := size, quantity, openedAt, entryCommission;
      currentPrice, high, low := terms.entry, terms.entry, None;
      trail, recent := 0.0, [];
    }

    function View(): Pos
      reads this
    {
      Pos(id, symbol, terms, size, quantity, openedAt, entryCommission, currentPrice, high, low, trail, recent)
    }

    /** The ratchet, in place: a new trail is taken only if it improves the stop in force. */
    method MoveTrail(price: real)
      requires terms.entry != 0.0
      modifies this`trail
      ensures trail == Ratchet(terms, old(trail), price)
    {
      var factor := TrailFactor(Profit(terms, price), terms.stopPct);
      if factor.Some? {
        var newTrail := TrailPrice(terms.side, price, terms.stopPct, factor.value);
        if terms.side.Long? {
          if newTrail > trail {
            trail := newTrail;
          }
        } else {
          var current := if trail > 0.0 then trail else terms.HardStop();
          if newTrail < current {
            trail := newTrail;
          }
        }
      }
    }

    /** The bookkeeping of a tick. */
    method Watch(price: real, now: real)
      requires terms.entry != 0.0
      modifies this
      ensures View() == Observe(old(View()), Tick(price, now))
    {
      currentPrice := price;
      high := if high >= price then high else price;
      low := Some(if low.None? || price < low.value then price else low.value);
      recent := LastN(recent + [Sample(now, price)], MAX_SAMPLES);
      MoveTrail(price);
    }

    /** The part of a price update that concerns one position; the caller closes it for the returned reason. */
    method Track(price: real, now: real) returns (exit: Option<Reason>)
      requires terms.entry != 0.0
      modifies this
      ensures View() == Observe(old(View()), Tick(price, now))
      ensures exit == Verdict(View(), Tick(price, now))
      ensures terms.entry > 0.0 ==> ExitMeans(View(), Tick(price, now), exit)
    {
      Watch(price, now);
      if terms.entry > 0.0 { VerdictMeans(View(), Tick(price, now), Verdict(View(), Tick(price, now))); }
      hide ExitMeans;
      hide Observe, FastCutAllowed, HoldHours, Terms.HardStop, Terms.TargetPrice;
      var stopPrice := if trail > 0.0 then trail else terms.HardStop();
      if terms.side.Long? && price <= stopPrice {
        return Some(if trail > 0.0 then TrailHit else StopHit);
      } else if terms.side.Short? && price >= stopPrice {
        return Some(if trail > 0.0 then TrailHit else StopHit);
      } else if terms.side.Long? && price >= terms.TargetPrice() {
        return Some(TargetHit);
      } else if terms.side.Short? && price <= terms.TargetPrice() {
        return Some(TargetHit);
      } else if HoldHours(View(), now) > MAX_HOLD_HOURS {
        return Some(Timeout);
      } else if FastCutAllowed(View(), now) {
        return Some(FastCut);
      }
      return None;
    }
  }

  /** A position as the engine opens it. */
  function Opened(id: nat, symbol: string, terms: Terms, size: real, quantity: real, openedAt: real,
                  entryCommission: real): Pos {
    Pos(id, symbol, terms, size, quantity, openedAt, entryCommission, terms.entry, terms.entry, None, 0.0, [])
  }

  // ---------- a whole stream of ticks ----------

  datatype Outcome = Outcome(pos: Pos, exit: Option<(nat, Reason)>)

  /** Feeds ticks[i..] until the first exit; the exit carries the index of its tick. */
  function Run(p: Pos, ticks: seq<Tick>, i: nat): Outcome
    requires p.terms.entry != 0.0 && i <= |ticks|
    decreases |ticks| - i
  {
    if i == |ticks| then Outcome(p, None)
    else
      var q := Observe(p, ticks[i]);
      match Verdict(q, ticks[i])
      case Some(r) => Outcome(q, Some((i, r)))
      case None => Run(q, ticks, i + 1)
  }

  function Prices(ticks: seq<Tick>): seq<real> {
    seq(|ticks|, i requires 0 <= i < |ticks| => ticks[i].price)
  }

  ghost predicate PositivePrices(ticks: seq<Tick>) {
    forall i :: 0 <= i < |ticks| ==> ticks[i].price > 0.0
  }

  lemma ObserveLocksBest(p: Pos, ticks: seq<Tick>, i: nat)
    requires p.terms.Valid() && i < |ticks| && PositivePrices(ticks)
    requires p.trail == Locked(p.terms, Best(p.terms, Prices(ticks[..i])))
    ensures Observe(p, ticks[i]).trail == Locked(p.terms, Best(p.terms, Prices(ticks[..i + 1])))
  {
    var before, after := Prices(ticks[..i]), Prices(ticks[..i + 1]);
    assert after[..|after| - 1] == before && after[|after| - 1] == ticks[i].price;
    RatchetStep(p.terms, Best(p.terms, before), ticks[i].price);
  }

  /** As long as an engine-opened position is open, its trail is the tier function at the best price seen. */
  lemma {:induction false} OpenPositionLocksBest(p: Pos, ticks: seq<Tick>, i: nat)
    requires p.terms.Valid() && i <= |ticks| && PositivePrices(ticks)
    requires p.trail == Locked(p.terms, Best(p.terms, Prices(ticks[..i])))
    ensures Run(p, ticks, i).exit.Some? ==> i <= Run(p, ticks, i).exit.value.0 < |ticks|
    ensures var o := Run(p, ticks, i);
            var seen := if o.exit.None? then ticks else ticks[..o.exit.value.0 + 1];
            o.pos.trail == Locked(p.terms, Best(p.terms, Prices(seen)))
    decreases |ticks| - i
  {
    if i == |ticks| {
      assert ticks[..|ticks|] == ticks;
    } else {
      ObserveLocksBest(p, ticks, i);
      var q := Observe(p, ticks[i]);
      if Verdict(q, ticks[i]).None? {
        OpenPositionLocksBest(q, ticks, i + 1);
      }
    }
  }

  /** The stop and target rules never fire on a tick that moved the trail, unless the target is reached. */
  lemma MovingTickDoesNotStop(p: Pos, ticks: seq<Tick>, i: nat)
    requires p.terms.Valid() && i < |ticks| && PositivePrices(ticks)
    requires p.trail == Locked(p.terms, Best(p.terms, Prices(ticks[..i])))
    ensures var q := Observe(p, ticks[i]);
            q.trail != p.trail ==> Verdict(q, ticks[i]) !in {Some(StopHit), Some(TrailHit)}
  {
    var before := Prices(ticks[..i]);
    RatchetIsClosedForm(p.terms, before);
    StopNeverLoosens(p.terms, before, ticks[i].price);
  }

  // ---------- save and restart ----------

  /** What the state file keeps of a position: neither the low watermark nor the samples. */
  datatype Saved = Saved(
    id: nat, symbol: string, terms: Terms, size: real, quantity: real, openedAt: real,
    entryCommission: real, currentPrice: real, high: real, trail: real)

  function Save(p: Pos): Saved {
    Saved(p.id, p.symbol, p.terms, p.size, p.quantity, p.openedAt, p.entryCommission, p.currentPrice, p.high, p.trail)
  }

  function Load(s: Saved): Pos {
    Pos(s.id, s.symbol, s.terms, s.size, s.quantity, s.openedAt, s.entryCommission, s.currentPrice, s.high, None,
        s.trail, [])
  }

  /** A restart from a save of the moment forgets the low watermark and the samples, and nothing else. */
  lemma LoadOfSave(p: Pos)
    ensures Load(Save(p)) == p.(low := None, recent := [])
  {
  }

  lemma SinceConcat(a: seq<Sample>, b: seq<Sample>, cutoff: real)
    ensures Since(a + b, cutoff) == Since(a, cutoff) + Since(b, cutoff)
    decreases |b|
  {
    if b == [] {
      assert a + b == a;
    } else {
      var init := b[..|b| - 1];
      SinceConcat(a, init, cutoff);
      assert (a + b)[..|a + b| - 1] == a + init;
    }
  }

  lemma SinceDropsStale(a: seq<Sample>, cutoff: real)
    requires forall s :: s in a ==> s.time < cutoff
    ensures Since(a, cutoff) == []
  {
    if a != [] { SinceDropsStale(a[..|a| - 1], cutoff); }
  }

  /** Samples older than the window do not influence the velocity, whatever the bounded buffer kept of them. */
  lemma StaleSamplesAreInvisible(stale: seq<Sample>, live: seq<Sample>, now: real)
    requires forall s :: s in stale ==> s.time < now - 300.0
    ensures Velocity(LastN(stale + live, MAX_SAMPLES), now) == Velocity(LastN(live, MAX_SAMPLES), now)
  {
    hide WindowVelocity;
    LastNOfSuffix(stale, live, MAX_SAMPLES);
    if |live| < MAX_SAMPLES {
      var kept := if |stale| + |live| <= MAX_SAMPLES then stale else stale[|stale| + |live| - MAX_SAMPLES..];
      assert LastN(stale + live, MAX_SAMPLES) == kept + live;
      SinceConcat(kept, live, now - 300.0);
      SinceDropsStale(kept, now - 300.0);
      assert Since(kept + live, now - 300.0) == Since(live, now - 300.0);
      assert LastN(live, MAX_SAMPLES) == live;
    }
  }

  /** Positions that agree on everything the stop, trail, target and timeout rules read. */
  ghost predicate SameRisk(p: Pos, q: Pos) {
    p.symbol == q.symbol && p.terms == q.terms && p.openedAt == q.openedAt && p.trail == q.trail
  }

  /** The first trail is the second, or is a price no worse than the second and than the hard stop. */
  ghost predicate TrailAhead(t: Terms, a: real, b: real) {
    || a == b
    || (a > 0.0 && b >= 0.0 && AtLeastAsGood(t.side, a, t.HardStop()) && (b > 0.0 ==> AtLeastAsGood(t.side, a, b)))
  }

  /** Positions that agree on everything those rules read but the trail, on which the first may be ahead. */
  ghost predicate Ahead(p: Pos, q: Pos) {
    p.symbol == q.symbol && p.terms == q.terms && p.openedAt == q.openedAt && TrailAhead(p.terms, p.trail, q.trail)
  }

  /** One tick keeps a trail ahead; equal trails stay equal. */
  lemma RatchetKeepsAhead(t: Terms, a: real, b: real, price: real)
    requires t.entry != 0.0 && TrailAhead(t, a, b) && (a == b || (t.Valid() && price > 0.0))
    ensures TrailAhead(t, Ratchet(t, a, price), Ratchet(t, b, price))
    ensures a == b ==> Ratchet(t, a, price) == Ratchet(t, b, price)
  {
    if a != b && Candidate(t, price).Some? { LockedBetweenHardStopAndPrice(t, price); }
  }

  /** The position after ticks[i..j], whatever the exit rules say. */
  function Fed(p: Pos, ticks: seq<Tick>, i: nat, j: nat): Pos
    requires p.terms.entry != 0.0 && i <= j <= |ticks|
    decreases j - i
  {
    if i == j then p else Fed(Observe(p, ticks[i]), ticks, i + 1, j)
  }

  /** No exit rule fires on ticks[i..j]. */
  predicate StaysOpen(p: Pos, ticks: seq<Tick>, i: nat, j: nat)
    requires p.terms.entry != 0.0 && i <= j <= |ticks|
    decreases j - i
  {
    i == j || (Verdict(Observe(p, ticks[i]), ticks[i]).None? && StaysOpen(Observe(p, ticks[i]), ticks, i + 1, j))
  }

  /** The tick reaches the first one's trail, and not a trail of the second one's. */
  predicate TrailSplit(p: Pos, q: Pos, t: Tick) {
    && p.trail > 0.0 && StopTriggered(p.terms, p.trail, t.price)
    && !(q.trail > 0.0 && StopTriggered(q.terms, q.trail, t.price))
  }

  /** Only the fast cut is in question, and the two sets of samples answer differently. */
  predicate CutSplit(p: Pos, q: Pos, t: Tick) {
    && RiskVerdict(p, t).None? && FastCutGates(p, t.now)
    && NotRecovering(p.terms.side, p.recent, t.now) != NotRecovering(q.terms.side, q.recent, t.now)
  }

  /** At a tick both have observed, the trails or the samples tell them apart. */
  predicate SplitAt(p: Pos, q: Pos, t: Tick) { TrailSplit(p, q, t) || CutSplit(p, q, t) }

  /** Tick j is the first exit of one of the two, and they do not exit alike. */
  predicate FirstSplit(p: Pos, q: Pos, ticks: seq<Tick>, i: nat, j: nat)
    requires p.terms.entry != 0.0 && q.terms.entry != 0.0 && i <= j < |ticks|
  {
    && StaysOpen(p, ticks, i, j) && StaysOpen(q, ticks, i, j)
    && SplitAt(Fed(p, ticks, i, j + 1), Fed(q, ticks, i, j + 1), ticks[j])
  }

  ghost predicate SplitsSomewhere(p: Pos, q: Pos, ticks: seq<Tick>, i: nat)
    requires p.terms.entry != 0.0 && q.terms.entry != 0.0 && i <= |ticks|
  {
    exists j :: i <= j < |ticks| && FirstSplit(p, q, ticks, i, j)
  }

  lemma VerdictsDifferIff(p: Pos, q: Pos, t: Tick)
    requires p.terms.entry != 0.0 && Ahead(p, q) && p.currentPrice == q.currentPrice == t.price
    ensures Verdict(p, t) != Verdict(q, t) <==> SplitAt(p, q, t)
  {
    hide NotRecovering, Terms.HardStop, Terms.TargetPrice, Profit;
  }

  lemma ObserveKeepsAhead(p: Pos, q: Pos, t: Tick)
    requires p.terms.entry != 0.0 && Ahead(p, q) && (p.trail == q.trail || (p.terms.Valid() && t.price > 0.0))
    ensures Ahead(Observe(p, t), Observe(q, t))
    ensures SameRisk(p, q) ==> SameRisk(Observe(p, t), Observe(q, t))
    ensures Verdict(Observe(p, t), t) != Verdict(Observe(q, t), t) <==> SplitAt(Observe(p, t), Observe(q, t), t)
  {
    RatchetKeepsAhead(p.terms, p.trail, q.trail, t.price);
    VerdictsDifferIff(Observe(p, t), Observe(q, t), t);
  }

  lemma FedOne(p: Pos, ticks: seq<Tick>, i: nat)
    requires p.terms.entry != 0.0 && i < |ticks|
    ensures Fed(p, ticks, i, i + 1) == Observe(p, ticks[i])
  {
    assert Fed(Observe(p, ticks[i]), ticks, i + 1, i + 1) == Observe(p, ticks[i]);
  }

  /** A split is either now, or is seen from the next tick while neither has exited. */
  lemma SplitNowOrLater(p: Pos, q: Pos, ticks: seq<Tick>, i: nat, j: nat)
    requires p.terms.entry != 0.0 && q.terms.entry != 0.0 && i <= j < |ticks|
    ensures var p', q', t := Observe(p, ticks[i]), Observe(q, ticks[i]), ticks[i];
            FirstSplit(p, q, ticks, i, j) <==>
            if i == j then SplitAt(p', q', t)
            else Verdict(p', t).None? && Verdict(q', t).None? && FirstSplit(p', q', ticks, i + 1, j)
  {
    ObserveKeepsTerms(p, ticks[i]);
    ObserveKeepsTerms(q, ticks[i]);
    FedOne(p, ticks, i);
    FedOne(q, ticks, i);
    hide Observe, Verdict, SplitAt;
  }

  lemma SplitsSomewhereStep(p: Pos, q: Pos, ticks: seq<Tick>, i: nat)
    requires p.terms.entry != 0.0 && q.terms.entry != 0.0 && i < |ticks|
    ensures var p', q', t := Observe(p, ticks[i]), Observe(q, ticks[i]), ticks[i];
            SplitsSomewhere(p, q, ticks, i) <==>
            || SplitAt(p', q', t)
            || (Verdict(p', t).None? && Verdict(q', t).None? && SplitsSomewhere(p', q', ticks, i + 1))
  {
    var p', q', t := Observe(p, ticks[i]), Observe(q, ticks[i]), ticks[i];
    forall j | i <= j < |ticks|
      ensures FirstSplit(p, q, ticks, i, j) <==>
              if i == j then SplitAt(p', q', t)
              else Verdict(p', t).None? && Verdict(q', t).None? && FirstSplit(p', q', ticks, i + 1, j)
    {
      SplitNowOrLater(p, q, ticks, i, j);
    }
    hide Observe, Verdict, SplitAt, FirstSplit;
    if SplitAt(p', q', t) {
      assert FirstSplit(p, q, ticks, i, i);
    } else if Verdict(p', t).None? && Verdict(q', t).None? && SplitsSomewhere(p', q', ticks, i + 1) {
      var j :| i + 1 <= j < |ticks| && FirstSplit(p', q', ticks, i + 1, j);
      assert FirstSplit(p, q, ticks, i, j);
    }
  }

  lemma ObserveKeepsTerms(p: Pos, t: Tick)
    requires p.terms.entry != 0.0
    ensures Observe(p, t).terms == p.terms && Observe(p, t).symbol == p.symbol && Observe(p, t).openedAt == p.openedAt
  {
  }

  /**
   Exactly when two positions exit differently, of which the first has the better trail or the same and which agree on
   the other risk fields: there is a first tick that reaches the first one's trail and not a trail of the second one's,
   or at which stop, target and timeout are silent, the gates of the fast cut are open, and the samples of exactly one
   of them show no recovery. While they exit alike, the first stays ahead, and equal trails stay equal.
   */
  lemma {:induction false} ExitsDifferIff(p: Pos, q: Pos, ticks: seq<Tick>, i: nat)
    requires p.terms.entry != 0.0 && i <= |ticks| && Ahead(p, q)
    requires p.trail == q.trail || (p.terms.Valid() && PositivePrices(ticks))
    ensures Run(p, ticks, i).exit != Run(q, ticks, i).exit <==> SplitsSomewhere(p, q, ticks, i)
    ensures Run(p, ticks, i).exit == Run(q, ticks, i).exit ==>
              && Ahead(Run(p, ticks, i).pos, Run(q, ticks, i).pos)
              && (SameRisk(p, q) ==> SameRisk(Run(p, ticks, i).pos, Run(q, ticks, i).pos))
    decreases |ticks| - i
  {
    if i < |ticks| {
      var t := ticks[i];
      var p', q' := Observe(p, t), Observe(q, t);
      ObserveKeepsAhead(p, q, t);
      ObserveKeepsTerms(p, t);
      ExitIndex(p', ticks, i + 1);
      ExitIndex(q', ticks, i + 1);
      SplitsSomewhereStep(p, q, ticks, i);
      hide Observe, Verdict, SplitAt, SplitsSomewhere, TrailAhead;
      if Verdict(p', t).None? && Verdict(q', t).None? {
        ExitsDifferIff(p', q', ticks, i + 1);
      }
    }
  }

  // ---------- a whole run, in plain arithmetic ----------

  /** A run exits at tick j for a reason exactly if its condition holds there and no tick before had one. */
  lemma {:induction false} RunExitMeans(p: Pos, ticks: seq<Tick>, i: nat, j: nat, r: Reason)
    requires p.terms.entry > 0.0 && i <= j < |ticks|
    ensures Run(p, ticks, i).exit == Some((j, r)) <==>
            && ExitMeans(Fed(p, ticks, i, j + 1), ticks[j], Some(r))
            && forall k | i <= k < j :: ExitMeans(Fed(p, ticks, i, k + 1), ticks[k], None)
    decreases j - i
  {
    var q, t := Observe(p, ticks[i]), ticks[i];
    ObserveKeepsTerms(p, t);
    assert q.currentPrice == t.price;
    FedOne(p, ticks, i);
    VerdictMeans(q, t, Some(r));
    VerdictMeans(q, t, None);
    ExitIndex(q, ticks, i + 1);
    hide Observe, Verdict, ExitMeans;
    if i < j {
      RunExitMeans(q, ticks, i + 1, j, r);
      assert forall n | i < n <= |ticks| :: Fed(p, ticks, i, n) == Fed(q, ticks, i + 1, n);
    }
  }

  /** As long as a position is open, every tick has left it inside stop and target and within 48 hours. */
  lemma {:induction false} OpenPositionIsInside(p: Pos, ticks: seq<Tick>, i: nat, j: nat, k: nat)
    requires p.terms.entry > 0.0 && i <= k < j <= |ticks| && StaysOpen(p, ticks, i, j)
    ensures var q, t := Fed(p, ticks, i, k + 1), ticks[k];
            && InsideStop(q, t.price) && ShortOfTarget(q, t.price) && HeldMs(q, t.now) <= 48.0 * 3600000.0
            && !CutDue(q, t)
    decreases k - i
  {
    var q, t := Observe(p, ticks[i]), ticks[i];
    ObserveKeepsTerms(p, t);
    if i == k {
      FedOne(p, ticks, i);
      VerdictMeans(q, t, None);
    } else {
      hide Observe, Verdict, CutDue, InsideStop, ShortOfTarget, HeldMs;
      OpenPositionIsInside(q, ticks, i + 1, j, k);
    }
  }

  /** The marks after ticks[i..j]: the extremes of what was there and of the prices since, and the latest price. */
  ghost predicate MarksOf(p: Pos, q: Pos, ticks: seq<Tick>, i: nat, j: nat)
    requires i < j <= |ticks|
  {
    && q.currentPrice == ticks[j - 1].price
    && q.high >= p.high && (forall k | i <= k < j :: q.high >= ticks[k].price)
    && (q.high == p.high || exists k | i <= k < j :: q.high == ticks[k].price)
    && q.low.Some? && (p.low.Some? ==> q.low.value <= p.low.value)
    && (forall k | i <= k < j :: q.low.value <= ticks[k].price)
    && (q.low == p.low || exists k | i <= k < j :: q.low.value == ticks[k].price)
  }

  lemma {:induction false} FedKeepsMarks(p: Pos, ticks: seq<Tick>, i: nat, j: nat)
    requires p.terms.entry != 0.0 && i < j <= |ticks|
    ensures MarksOf(p, Fed(p, ticks, i, j), ticks, i, j)
    decreases j - i
  {
    var q := Observe(p, ticks[i]);
    FedOne(p, ticks, i);
    assert MarksOf(p, q, ticks, i, i + 1);
    if i + 1 < j {
      FedKeepsMarks(q, ticks, i + 1, j);
      hide Ratchet, LastN;
    }
  }

  lemma {:induction false} FedKeepsSameRisk(p: Pos, q: Pos, ticks: seq<Tick>, i: nat, j: nat)
    requires p.terms.entry != 0.0 && i <= j <= |ticks| && SameRisk(p, q)
    ensures SameRisk(Fed(p, ticks, i, j), Fed(q, ticks, i, j))
    decreases j - i
  {
    if i < j { FedKeepsSameRisk(Observe(p, ticks[i]), Observe(q, ticks[i]), ticks, i + 1, j); }
  }

  lemma ExitIndex(p: Pos, ticks: seq<Tick>, i: nat)
    requires p.terms.entry != 0.0 && i <= |ticks|
    ensures Run(p, ticks, i).exit.Some? ==> i <= Run(p, ticks, i).exit.value.0 < |ticks|
    decreases |ticks| - i
  {
    if i < |ticks| && Verdict(Observe(p, ticks[i]), ticks[i]).None? { ExitIndex(Observe(p, ticks[i]), ticks, i + 1); }
  }

  // ---------- what the samples are ----------

  /** The samples ticks[i..j] leave. */
  function Samples(ticks: seq<Tick>, i: nat, j: nat): seq<Sample>
    requires i <= j <= |ticks|
    decreases j - i
  {
    if i == j then [] else [Sample(ticks[i].now, ticks[i].price)] + Samples(ticks, i + 1, j)
  }

  lemma ObservedSample(p: Pos, t: Tick)
    requires p.terms.entry != 0.0
    ensures Observe(p, t).recent == LastN(p.recent + [Sample(t.now, t.price)], MAX_SAMPLES)
  {
  }

  lemma Regrouped(log: seq<Sample>, x: Sample, rest: seq<Sample>)
    ensures log + [x] + rest == log + ([x] + rest)
  {
  }

  lemma {:induction false} FedKeeps(p: Pos, ticks: seq<Tick>, i: nat, j: nat, log: seq<Sample>)
    requires p.terms.entry != 0.0 && i <= j <= |ticks| && p.recent == LastN(log, MAX_SAMPLES)
    ensures Fed(p, ticks, i, j).recent == LastN(log + Samples(ticks, i, j), 600)
    ensures Fed(p, ticks, i, j).symbol == p.symbol && Fed(p, ticks, i, j).terms == p.terms
    decreases j - i
  {
    if i == j {
      assert log + [] == log;
    } else {
      var sample := Sample(ticks[i].now, ticks[i].price);
      LastNAppend(log, sample, MAX_SAMPLES);
      ObserveKeepsTerms(p, ticks[i]);
      ObservedSample(p, ticks[i]);
      Regrouped(log, sample, Samples(ticks, i + 1, j));
      hide LastN, Observe;
      FedKeeps(Observe(p, ticks[i]), ticks, i + 1, j, log + [sample]);
    }
  }

  /** The samples of the two can tell them apart at tick j: one was restarted at tick i, the other was not. */
  predicate LostSamplesDecide(p: Pos, ticks: seq<Tick>, i: nat, j: nat)
    requires i <= j < |ticks|
  {
    var since := Samples(ticks, i, j + 1);
    NotRecovering(p.terms.side, LastN(p.recent + since, MAX_SAMPLES), ticks[j].now)
    != NotRecovering(p.terms.side, LastN(since, MAX_SAMPLES), ticks[j].now)
  }

  /** Up to tick j nothing exits, at tick j only a fast cut can, and the samples lost decide whether it does. */
  predicate RestartMatters(p: Pos, ticks: seq<Tick>, i: nat, j: nat)
    requires p.terms.entry != 0.0 && i <= j < |ticks|
  {
    && StaysOpen(p, ticks, i, j) && StaysOpen(Load(Save(p)), ticks, i, j)
    && RiskVerdict(Fed(p, ticks, i, j + 1), ticks[j]).None? && FastCutGates(Fed(p, ticks, i, j + 1), ticks[j].now)
    && LostSamplesDecide(p, ticks, i, j)
  }

  lemma LostSamplesSplit(p: Pos, ticks: seq<Tick>, i: nat, j: nat)
    requires p.terms.entry != 0.0 && i <= j < |ticks| && |p.recent| <= MAX_SAMPLES
    ensures FirstSplit(p, Load(Save(p)), ticks, i, j) <==> RestartMatters(p, ticks, i, j)
  {
    FedKeeps(p, ticks, i, j + 1, p.recent);
    FedKeeps(Load(Save(p)), ticks, i, j + 1, []);
    FedKeepsSameRisk(p, Load(Save(p)), ticks, i, j + 1);
    assert [] + Samples(ticks, i, j + 1) == Samples(ticks, i, j + 1);
    hide Fed, StaysOpen, RiskVerdict, FastCutGates, NotRecovering, Samples, LastN;
  }

  /**
   Exactly when a restart changes the exit: at the first tick where the two could part, stop, target and timeout are
   silent, the fast cut's gates are open, and the samples since the restart alone and those together with the lost
   ones disagree on whether the price is recovering.
   */
  lemma RestartChangesExitIff(p: Pos, ticks: seq<Tick>, i: nat)
    requires p.terms.entry != 0.0 && i <= |ticks| && |p.recent| <= MAX_SAMPLES
    ensures Run(Load(Save(p)), ticks, i).exit != Run(p, ticks, i).exit <==>
            exists j :: i <= j < |ticks| && RestartMatters(p, ticks, i, j)
  {
    ExitsDifferIff(p, Load(Save(p)), ticks, i);
    hide Run, FirstSplit, RestartMatters;
    forall j | i <= j < |ticks|
      ensures FirstSplit(p, Load(Save(p)), ticks, i, j) <==> RestartMatters(p, ticks, i, j)
    {
      LostSamplesSplit(p, ticks, i, j);
    }
  }

  /**
   Two positions with the same risk fields, the first carrying extra old samples, exit on the same
   tick for the same reason, if the symbol is exempt from the fast cut or the extra samples have
   left the five-minute window.
   */
  lemma {:induction false} OldSamplesDoNotMatter(
      p: Pos, q: Pos, stale: seq<Sample>, live: seq<Sample>, ticks: seq<Tick>, i: nat)
    requires p.terms.entry != 0.0 && i <= |ticks| && SameRisk(p, q)
    requires p.recent == LastN(stale + live, MAX_SAMPLES) && q.recent == LastN(live, MAX_SAMPLES)
    requires p.symbol in FAST_CUT_EXEMPT
             || forall s, j :: s in stale && i <= j < |ticks| ==> s.time < ticks[j].now - 300.0
    ensures Run(p, ticks, i).exit == Run(q, ticks, i).exit
    ensures SameRisk(Run(p, ticks, i).pos, Run(q, ticks, i).pos)
  {
    ExitsDifferIff(p, q, ticks, i);
    forall j | i <= j < |ticks|
      ensures !FirstSplit(p, q, ticks, i, j)
    {
      OldSamplesDoNotSplit(p, q, stale, live, ticks, i, j);
    }
  }

  lemma OldSamplesDoNotSplit(
      p: Pos, q: Pos, stale: seq<Sample>, live: seq<Sample>, ticks: seq<Tick>, i: nat, j: nat)
    requires p.terms.entry != 0.0 && i <= j < |ticks| && SameRisk(p, q)
    requires p.recent == LastN(stale + live, MAX_SAMPLES) && q.recent == LastN(live, MAX_SAMPLES)
    requires p.symbol in FAST_CUT_EXEMPT || forall s :: s in stale ==> s.time < ticks[j].now - 300.0
    ensures !SplitAt(Fed(p, ticks, i, j + 1), Fed(q, ticks, i, j + 1), ticks[j])
  {
    var since := Samples(ticks, i, j + 1);
    FedKeepsSameRisk(p, q, ticks, i, j + 1);
    FedKeeps(p, ticks, i, j + 1, stale + live);
    FedKeeps(q, ticks, i, j + 1, live);
    assert stale + live + since == stale + (live + since);
    if p.symbol !in FAST_CUT_EXEMPT { StaleSamplesAreInvisible(stale, live + since, ticks[j].now); }
    hide Fed, Velocity, LastN, Samples, RiskVerdict, HoldHours, UnrealizedPct;
  }

  /**
   Restart transparency: a save and a load at any point of a tick stream leave every later exit as it
   was, for symbols exempt from the fast cut always, for the others once the samples lost are older
   than five minutes.
   */
  lemma {:induction false} RestartTransparent(p: Pos, ticks: seq<Tick>, i: nat)
    requires p.terms.entry != 0.0 && i <= |ticks| && |p.recent| <= MAX_SAMPLES
    requires p.symbol in FAST_CUT_EXEMPT
             || forall s, j :: s in p.recent && i <= j < |ticks| ==> s.time < ticks[j].now - 300.0
    ensures Run(Load(Save(p)), ticks, i).exit == Run(p, ticks, i).exit
    ensures SameRisk(Run(p, ticks, i).pos, Run(Load(Save(p)), ticks, i).pos)
  {
    assert p.recent + [] == p.recent;
    OldSamplesDoNotMatter(p, Load(Save(p)), p.recent, [], ticks, i);
  }

  /** Without that wait a restart can suppress a fast cut: the lost samples were the evidence for it. */
  lemma RestartCanSuppressFastCut() returns (p: Pos, ticks: seq<Tick>)
    ensures p.terms.Valid() && |p.recent| <= MAX_SAMPLES && PositivePrices(ticks)
    ensures Run(p, ticks, 0).exit == Some((0, FastCut))
    ensures Run(Load(Save(p)), ticks, 0).exit == None
  {
    var samples := [Sample(1800.0, 97.0), Sample(1900.0, 97.0)];
    p := Pos(0, "DOGE", Terms(Long, 100.0, 0.5, 0.5), 50.0, 0.5, 0.0, 0.02, 97.0, 100.0, Some(97.0), 0.0, samples);
    ticks := [Tick(97.0, 2000.0)];
    var q := Observe(p, ticks[0]);
    var all := samples + [Sample(2000.0, 97.0)];
    assert q.recent == all;
    assert all[..2] == samples && samples[..1] == [samples[0]];
    assert Since([samples[0]], 1700.0) == [samples[0]] by { assert [samples[0]][..0] == []; }
    assert Since(samples, 1700.0) == samples;
    assert Since(all, 1700.0) == all;
    assert Velocity(q.recent, 2000.0) == Some(0.0);
    assert Verdict(q, ticks[0]) == Some(FastCut);
    var r := Observe(Load(Save(p)), ticks[0]);
    assert r.recent == [Sample(2000.0, 97.0)];
    assert |Since(r.recent, 1700.0)| <= 1 by { assert r.recent[..0] == []; }
    assert Verdict(r, ticks[0]) == None;
  }

  /** It can also cause one: the lost sample was the evidence of a recovery. */
  lemma RestartCanCauseFastCut() returns (p: Pos, ticks: seq<Tick>)
    ensures p.terms.Valid() && |p.recent| <= MAX_SAMPLES && PositivePrices(ticks)
    ensures Run(p, ticks, 0).exit == None
    ensures Run(Load(Save(p)), ticks, 0).exit == Some((2, FastCut))
  {
    var low := Sample(2000.0, 90.0);
    p := FlatLong(low);
    ticks := [Tick(95.0, 2010.0), Tick(95.0, 2040.0), Tick(95.0, 2100.0)];
    FlatLongIsFlat(low);
    assert PositivePrices(ticks);
    hide *;
    FlatSamples(low);
    ThreeFlatTicks(p, ticks);
    ThreeFlatTicks(Load(Save(p)), ticks);
  }

  function FlatLong(low: Sample): Pos {
    Pos(0, "DOGE", Terms(Long, 100.0, 0.5, 0.5), 50.0, 0.5, 0.0, 0.02, 90.0, 100.0, Some(90.0), 0.0, [low])
  }

  lemma FlatLongIsFlat(low: Sample)
    ensures FlatLong(low).terms.Valid() && FlatLong(low).terms.entry != 0.0 && FlatLong(low).recent == [low]
    ensures Load(Save(FlatLong(low))).recent == [] && Load(Save(FlatLong(low))).terms == FlatLong(low).terms
    ensures Flat(FlatLong(low)) && Flat(Load(Save(FlatLong(low))))
  {
  }

  /** A long from 100 that stands at 95 and has not trailed. */
  ghost predicate Flat(p: Pos) {
    p.symbol == "DOGE" && p.terms == Terms(Long, 100.0, 0.5, 0.5) && p.openedAt == 0.0 && p.trail == 0.0
  }

  /** Between half an hour and two days only the fast cut can close it, on the samples. */
  lemma FlatTick(p: Pos, now: real)
    requires Flat(p) && 2000.0 <= now <= 3000.0 && |p.recent| < MAX_SAMPLES
    ensures var q := Observe(p, Tick(95.0, now));
            && Flat(q) && q.recent == p.recent + [Sample(now, 95.0)]
            && Verdict(q, Tick(95.0, now)) == if NotRecovering(Long, q.recent, now) then Some(FastCut) else None
  {
    var q := Observe(p, Tick(95.0, now));
    assert Candidate(p.terms, 95.0) == None;
    assert HoldHours(q, now) == now / 3600.0;
    hide Velocity;
  }

  lemma ThreeFlatTicks(p: Pos, ticks: seq<Tick>)
    requires Flat(p) && |p.recent| <= 1
    requires ticks == [Tick(95.0, 2010.0), Tick(95.0, 2040.0), Tick(95.0, 2100.0)]
    requires var a, b := Sample(2010.0, 95.0), Sample(2040.0, 95.0);
             !NotRecovering(Long, p.recent + [a], 2010.0) && !NotRecovering(Long, p.recent + [a, b], 2040.0)
    ensures var a, b, c := Sample(2010.0, 95.0), Sample(2040.0, 95.0), Sample(2100.0, 95.0);
            Run(p, ticks, 0).exit ==
            if NotRecovering(Long, p.recent + [a, b, c], 2100.0) then Some((2, FastCut)) else None
  {
    FlatTick(p, 2010.0);
    var p1 := Observe(p, ticks[0]);
    FlatTick(p1, 2040.0);
    var p2 := Observe(p1, ticks[1]);
    FlatTick(p2, 2100.0);
    var p3 := Observe(p2, ticks[2]);
    assert p2.recent == p.recent + [Sample(2010.0, 95.0), Sample(2040.0, 95.0)];
    assert p3.recent == p.recent + [Sample(2010.0, 95.0), Sample(2040.0, 95.0), Sample(2100.0, 95.0)];
    hide Observe, Verdict, NotRecovering, Flat;
    assert Run(p3, ticks, 3).exit == None;
    assert Run(p2, ticks, 2).exit == if Verdict(p3, ticks[2]).Some? then Some((2, FastCut)) else None;
    assert Run(p1, ticks, 1) == Run(p2, ticks, 2);
  }

  lemma AllRecent(samples: seq<Sample>, cutoff: real)
    requires forall i :: 0 <= i < |samples| ==> samples[i].time >= cutoff
    ensures Since(samples, cutoff) == samples
  {
    if samples != [] { AllRecent(samples[..|samples| - 1], cutoff); }
  }

  /** When every sample is recent, the first and the last decide. */
  lemma RecentSamples(w: seq<Sample>, now: real)
    requires forall i :: 0 <= i < |w| ==> w[i].time >= now - 300.0
    ensures NotRecovering(Long, w, now) <==> WindowVelocity(w, now).Some? && WindowVelocity(w, now).value <= 0.0
  {
    AllRecent(w, now - 300.0);
    hide Since, WindowVelocity;
  }

  lemma FlatSamples(low: Sample)
    requires low == Sample(2000.0, 90.0)
    ensures var a, b, c := Sample(2010.0, 95.0), Sample(2040.0, 95.0), Sample(2100.0, 95.0);
            && !NotRecovering(Long, [low] + [a], 2010.0) && !NotRecovering(Long, [low] + [a, b], 2040.0)
            && !NotRecovering(Long, [low] + [a, b, c], 2100.0)
            && !NotRecovering(Long, [] + [a], 2010.0) && !NotRecovering(Long, [] + [a, b], 2040.0)
            && NotRecovering(Long, [] + [a, b, c], 2100.0)
  {
    hide NotRecovering;
    var a, b, c := Sample(2010.0, 95.0), Sample(2040.0, 95.0), Sample(2100.0, 95.0);
    RecentSamples([low] + [a], 2010.0);
    RecentSamples([low] + [a, b], 2040.0);
    RecentSamples([low] + [a, b, c], 2100.0);
    RecentSamples([] + [a], 2010.0);
    RecentSamples([] + [a, b], 2040.0);
    RecentSamples([] + [a, b, c], 2100.0);
  }
}
