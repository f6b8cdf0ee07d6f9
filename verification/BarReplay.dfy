/**
 The backtest's exit simulation on one-hour bars, and how it relates to the live tick rules:
 it never exits later than any tick path inside the bars, exactly as early as the worst such path,
 and at the same bar for the same reason when every bar is a single tick.
 */
module BarReplay {
  import opened Options
  import opened Positions
  import opened Reals
  import opened TrailingStop

  datatype Bar = Bar(openTime: int, open: real, high: real, low: real, close: real, volume: real, closeTime: int)

  datatype SimExit = SimExit(idx: nat, price: real, reason: Reason)

  const MAX_HOLD_BARS := 48
  const FAST_CUT_MIN_BARS := 2
  const FAST_CUT_PNL := -0.02

  /** Prices are positive and the extremes of a bar bound its close. */
  ghost predicate SaneBar(b: Bar) {
    0.0 < b.low <= b.close <= b.high && b.low <= b.open <= b.high
  }

  ghost predicate SaneBars(bars: seq<Bar>) {
    forall i :: 0 <= i < |bars| ==> SaneBar(bars[i])
  }

  /** The bar's best price for the holder; the trail is ratcheted with it. */
  function BestOf(side: Side, b: Bar): real { if side.Long? then b.high else b.low }

  /** The bar's worst price for the holder; the stop is tested with it. */
  function WorstOf(side: Side, b: Bar): real { if side.Long? then b.low else b.high }

  function Better(side: Side, a: real, b: real): real { if AtLeastAsGood(side, a, b) then a else b }

  /** The trail starts from 0 for a long, from the hard stop for a short. */
  function InitialTrail(t: Terms): real { if t.side.Long? then 0.0 else t.HardStop() }

  function SimRatchet(t: Terms, trail: real, b: Bar): real
    requires t.entry != 0.0
  {
    match Candidate(t, BestOf(t.side, b))
    case None => trail
    case Some(c) => if AtLeastAsGood(t.side, trail, c) then trail else c
  }

  function SimStop(t: Terms, trail: real): real { Better(t.side, t.HardStop(), trail) }

  predicate UsingTrail(t: Terms, trail: real) { !AtLeastAsGood(t.side, t.HardStop(), trail) }

  predicate Underwater(t: Terms, b: Bar) {
    if t.side.Long? then b.close <= t.entry * (1.0 + FAST_CUT_PNL) else b.close >= t.entry * (1.0 - FAST_CUT_PNL)
  }

  /** The stop or target exit of one bar, given the trail already ratcheted with it. */
  function BarExit(t: Terms, trail: real, b: Bar): Option<(real, Reason)> {
    if AtLeastAsGood(t.side, SimStop(t, trail), WorstOf(t.side, b)) then
      Some((SimStop(t, trail), if UsingTrail(t, trail) then TrailHit else StopHit))
    else if AtLeastAsGood(t.side, BestOf(t.side, b), t.TargetPrice()) then Some((t.TargetPrice(), TargetHit))
    else None
  }

  /** The last bar a position may be held in. */
  function LastBar(bars: seq<Bar>, entryIdx: nat): nat
    requires entryIdx < |bars|
  {
    if entryIdx + MAX_HOLD_BARS <= |bars| - 1 then entryIdx + MAX_HOLD_BARS else |bars| - 1
  }

  /** The walk from bar i on, with the trail and the underwater streak reached so far. */
  function Walk(t: Terms, bars: seq<Bar>, entryIdx: nat, fastCut: bool, i: nat, trail: real, streak: nat): SimExit
    requires t.entry != 0.0 && entryIdx < |bars| && entryIdx <= i <= LastBar(bars, entryIdx) + 1
    decreases |bars| - i
  {
    if i > LastBar(bars, entryIdx) then
      SimExit(LastBar(bars, entryIdx), bars[LastBar(bars, entryIdx)].close, MaxHold)
    else
      var trail' := SimRatchet(t, trail, bars[i]);
      match BarExit(t, trail', bars[i])
      case Some((price, reason)) => SimExit(i, price, reason)
      case None =>
        var streak' := if fastCut && Underwater(t, bars[i]) then streak + 1 else 0;
        if fastCut && i - entryIdx + 1 >= FAST_CUT_MIN_BARS && streak' >= FAST_CUT_MIN_BARS then
          SimExit(i, bars[i].close, FastCut)
        else Walk(t, bars, entryIdx, fastCut, i + 1, trail', streak')
  }

  function Simulated(t: Terms, bars: seq<Bar>, entryIdx: nat, fastCut: bool): SimExit
    requires t.entry != 0.0 && entryIdx < |bars|
  {
    Walk(t, bars, entryIdx, fastCut, entryIdx, InitialTrail(t), 0)
  }

  // ---------- what each simulated exit means, in plain arithmetic ----------

  /** The best extreme of each bar. */
  function Extremes(side: Side, bars: seq<Bar>): seq<real> {
    seq(|bars|, i requires 0 <= i < |bars| => if side.Long? then bars[i].high else bars[i].low)
  }

  /** The trail that the best extreme since the entry locks in by bar j; 0 if it locks in none. */
  function TrailIn(t: Terms, bars: seq<Bar>, entryIdx: nat, j: nat): real
    requires t.entry != 0.0 && entryIdx <= j < |bars|
  {
    Locked(t, Best(t, Extremes(t.side, bars[entryIdx..j + 1])))
  }

  /** The worst price of the bar reaches the trail, or the hard stop while there is no trail. */
  ghost predicate StopReached(t: Terms, b: Bar, trail: real) {
    if t.side.Long? then b.low <= (if trail > 0.0 then trail else t.entry - t.stopPct * t.entry)
    else b.high >= if trail > 0.0 then trail else t.entry + t.stopPct * t.entry
  }

  ghost predicate TargetReached(t: Terms, b: Bar) {
    if t.side.Long? then b.high >= t.entry + t.targetPct * t.entry else b.low <= t.entry - t.targetPct * t.entry
  }

  /** The bar closes at least 2% under water. */
  ghost predicate ClosesUnder(t: Terms, b: Bar) {
    if t.side.Long? then 100.0 * b.close <= 98.0 * t.entry else 100.0 * b.close >= 102.0 * t.entry
  }

  /** This bar and the one before it, both since the entry, close under water. */
  ghost predicate TwoUnder(t: Terms, bars: seq<Bar>, entryIdx: nat, fastCut: bool, j: nat)
    requires j < |bars|
  {
    fastCut && entryIdx < j && ClosesUnder(t, bars[j - 1]) && ClosesUnder(t, bars[j])
  }

  /** Nothing ends the trade in bar j. */
  ghost predicate QuietBar(t: Terms, bars: seq<Bar>, entryIdx: nat, fastCut: bool, j: nat)
    requires t.entry != 0.0 && entryIdx <= j < |bars|
  {
    && !StopReached(t, bars[j], TrailIn(t, bars, entryIdx, j)) && !TargetReached(t, bars[j])
    && !TwoUnder(t, bars, entryIdx, fastCut, j)
  }

  /** Why the trade ends in the bar of a simulated exit, and at which price. */
  ghost predicate ExitsIn(t: Terms, bars: seq<Bar>, entryIdx: nat, fastCut: bool, e: SimExit)
    requires t.entry != 0.0 && entryIdx <= e.idx < |bars|
  {
    var b, trail := bars[e.idx], TrailIn(t, bars, entryIdx, e.idx);
    match e.reason
    case StopHit =>
      && StopReached(t, b, trail) && trail == 0.0
      && e.price == if t.side.Long? then t.entry - t.stopPct * t.entry else t.entry + t.stopPct * t.entry
    case TrailHit => StopReached(t, b, trail) && trail > 0.0 && e.price == trail
    case TargetHit =>
      && !StopReached(t, b, trail) && TargetReached(t, b)
      && e.price == if t.side.Long? then t.entry + t.targetPct * t.entry else t.entry - t.targetPct * t.entry
    case FastCut =>
      && !StopReached(t, b, trail) && !TargetReached(t, b) && TwoUnder(t, bars, entryIdx, fastCut, e.idx)
      && e.price == b.close
    case MaxHold =>
      && QuietBar(t, bars, entryIdx, fastCut, e.idx) && (e.idx == entryIdx + 48 || e.idx == |bars| - 1)
      && e.price == b.close
    case Timeout => false
  }

  /** An exit as the simulation may report it: within 48 bars, after quiet bars only, for a reason that holds. */
  ghost predicate SimMeans(t: Terms, bars: seq<Bar>, entryIdx: nat, fastCut: bool, e: SimExit)
    requires t.entry != 0.0
  {
    && entryIdx <= e.idx < |bars| && e.idx <= entryIdx + 48
    && (forall j | entryIdx <= j < e.idx :: QuietBar(t, bars, entryIdx, fastCut, j))
    && ExitsIn(t, bars, entryIdx, fastCut, e)
  }

  /** The prices the walk can see are positive. */
  ghost predicate PositiveBars(bars: seq<Bar>, entryIdx: nat)
    requires entryIdx < |bars|
  {
    forall j :: entryIdx <= j <= LastBar(bars, entryIdx) ==> bars[j].low > 0.0 && bars[j].high > 0.0
  }

  /** The simulated trail stands for what a price locks in. */
  ghost predicate Stands(t: Terms, trail: real, locked: real) {
    locked >= 0.0 && trail == if locked > 0.0 then locked else InitialTrail(t)
  }

  /** The closed form after one more bar. */
  lemma BarMovesLocked(t: Terms, trail: real, best: real, b: Bar)
    requires t.Valid() && best > 0.0 && BestOf(t.side, b) > 0.0 && Stands(t, trail, Locked(t, best))
    ensures var next := Better(t.side, best, BestOf(t.side, b));
            next > 0.0 && Stands(t, SimRatchet(t, trail, b), Locked(t, next))
  {
    if Candidate(t, best).Some? { LockedBetweenHardStopAndPrice(t, best); }
    assert Corresponds(t, trail, Locked(t, best));
    BestTickCorresponds(t, trail, Locked(t, best), b);
    RatchetStep(t, best, BestOf(t.side, b));
    hide Locked, Ratchet, SimRatchet, Terms.HardStop;
  }

  /** The best price, the entry counted, after bars[entryIdx..j]. */
  function BestBy(t: Terms, bars: seq<Bar>, entryIdx: nat, j: nat): real
    requires entryIdx <= j <= |bars|
  {
    Best(t, Extremes(t.side, bars[entryIdx..j]))
  }

  lemma BestByMore(t: Terms, bars: seq<Bar>, entryIdx: nat, j: nat)
    requires entryIdx <= j < |bars|
    ensures BestBy(t, bars, entryIdx, entryIdx) == t.entry
    ensures BestBy(t, bars, entryIdx, j + 1) == Better(t.side, BestBy(t, bars, entryIdx, j), BestOf(t.side, bars[j]))
  {
    var more := Extremes(t.side, bars[entryIdx..j + 1]);
    assert bars[entryIdx..j + 1] == bars[entryIdx..j] + [bars[j]];
    assert more[..|more| - 1] == Extremes(t.side, bars[entryIdx..j]);
    assert more[|more| - 1] == BestOf(t.side, bars[j]);
  }

  /** What a stop or target exit of one bar, or the lack of one, says about its prices. */
  ghost predicate BarSays(t: Terms, b: Bar, locked: real, exit: Option<(real, Reason)>) {
    match exit
    case Some((price, StopHit)) =>
      && StopReached(t, b, locked) && locked == 0.0
      && price == if t.side.Long? then t.entry - t.stopPct * t.entry else t.entry + t.stopPct * t.entry
    case Some((price, TrailHit)) => StopReached(t, b, locked) && locked > 0.0 && price == locked
    case Some((price, TargetHit)) =>
      && !StopReached(t, b, locked) && TargetReached(t, b)
      && price == if t.side.Long? then t.entry + t.targetPct * t.entry else t.entry - t.targetPct * t.entry
    case Some(_) => false
    case None => !StopReached(t, b, locked) && !TargetReached(t, b)
  }

  /** One bar: its stop, target and fast cut are what the arithmetic says. */
  lemma BarMeans(t: Terms, b: Bar, trail: real, locked: real)
    requires t.Valid() && Stands(t, trail, locked) && b.low > 0.0
    requires locked > 0.0 ==> !AtLeastAsGood(t.side, t.HardStop(), locked)
    ensures BarSays(t, b, locked, BarExit(t, trail, b))
    ensures Underwater(t, b) <==> ClosesUnder(t, b)
  {
    StopInForce(t, trail, locked);
    ExitPrices(t);
    hide Terms.HardStop, Terms.TargetPrice, SimStop, UsingTrail, Stands;
  }

  /** The simulated stop is the trail once there is one; before, a long's is never below zero. */
  lemma StopInForce(t: Terms, trail: real, locked: real)
    requires t.Valid() && Stands(t, trail, locked)
    requires locked > 0.0 ==> !AtLeastAsGood(t.side, t.HardStop(), locked)
    ensures locked > 0.0 ==> SimStop(t, trail) == locked && UsingTrail(t, trail)
    ensures locked == 0.0 && t.side.Short? ==> SimStop(t, trail) == t.HardStop() && !UsingTrail(t, trail)
    ensures locked == 0.0 && t.side.Long? ==>
              SimStop(t, trail) == Max(t.HardStop(), 0.0) && (UsingTrail(t, trail) <==> t.HardStop() < 0.0)
  {
    hide Terms.HardStop;
  }

  /** One bar of the walk: the trail it leaves and what its exit says. */
  lemma WalkBar(t: Terms, bars: seq<Bar>, entryIdx: nat, i: nat, trail: real)
    requires t.Valid() && entryIdx <= i < |bars| && bars[i].low > 0.0 && bars[i].high > 0.0
    requires BestBy(t, bars, entryIdx, i) > 0.0 && Stands(t, trail, Locked(t, BestBy(t, bars, entryIdx, i)))
    ensures var b, trail' := bars[i], SimRatchet(t, trail, bars[i]);
            && BestBy(t, bars, entryIdx, i + 1) > 0.0 && Stands(t, trail', Locked(t, BestBy(t, bars, entryIdx, i + 1)))
            && BarSays(t, b, TrailIn(t, bars, entryIdx, i), BarExit(t, trail', b))
            && (Underwater(t, b) <==> ClosesUnder(t, b))
  {
    BestByMore(t, bars, entryIdx, i);
    BarMovesLocked(t, trail, BestBy(t, bars, entryIdx, i), bars[i]);
    var best := BestBy(t, bars, entryIdx, i + 1);
    assert TrailIn(t, bars, entryIdx, i) == Locked(t, best);
    if Candidate(t, best).Some? { LockedBetweenHardStopAndPrice(t, best); }
    BarMeans(t, bars[i], SimRatchet(t, trail, bars[i]), Locked(t, best));
  }

  /** The walk ends in bar i, by its stop or target or by a second bar under water. */
  lemma WalkExits(t: Terms, bars: seq<Bar>, entryIdx: nat, fastCut: bool, i: nat, trail: real, streak: nat)
    requires t.entry != 0.0 && entryIdx < |bars| && entryIdx <= i <= LastBar(bars, entryIdx)
    requires streak == if fastCut && entryIdx < i && ClosesUnder(t, bars[i - 1]) then 1 else 0
    requires var exit := BarExit(t, SimRatchet(t, trail, bars[i]), bars[i]);
             && BarSays(t, bars[i], TrailIn(t, bars, entryIdx, i), exit)
             && (exit.Some? || (fastCut && Underwater(t, bars[i]) && streak >= 1))
    requires Underwater(t, bars[i]) <==> ClosesUnder(t, bars[i])
    ensures var e := Walk(t, bars, entryIdx, fastCut, i, trail, streak);
            e.idx == i && ExitsIn(t, bars, entryIdx, fastCut, e)
  {
    hide SimRatchet, BarExit, StopReached, TargetReached, ClosesUnder, Underwater, TrailIn;
  }

  lemma {:induction false} WalkMeans(t: Terms, bars: seq<Bar>, entryIdx: nat, fastCut: bool, i: nat, trail: real,
                                     streak: nat)
    requires t.Valid() && entryIdx < |bars| && PositiveBars(bars, entryIdx)
    requires entryIdx <= i <= LastBar(bars, entryIdx) + 1
    requires BestBy(t, bars, entryIdx, i) > 0.0 && Stands(t, trail, Locked(t, BestBy(t, bars, entryIdx, i)))
    requires streak == if fastCut && entryIdx < i && ClosesUnder(t, bars[i - 1]) then 1 else 0
    requires forall j | entryIdx <= j < i :: QuietBar(t, bars, entryIdx, fastCut, j)
    ensures SimMeans(t, bars, entryIdx, fastCut, Walk(t, bars, entryIdx, fastCut, i, trail, streak))
    decreases |bars| - i
  {
    hide SimRatchet, BarExit, StopReached, TargetReached, ClosesUnder, Underwater, Stands, BestBy, TrailIn;
    hide InitialTrail;
    if i > LastBar(bars, entryIdx) {
      assert QuietBar(t, bars, entryIdx, fastCut, i - 1);
    } else {
      var b, trail' := bars[i], SimRatchet(t, trail, bars[i]);
      WalkBar(t, bars, entryIdx, i, trail);
      var exit := BarExit(t, trail', b);
      var streak' := if fastCut && Underwater(t, b) then streak + 1 else 0;
      if exit.None? && streak' < 2 {
        assert QuietBar(t, bars, entryIdx, fastCut, i);
        WalkMeans(t, bars, entryIdx, fastCut, i + 1, trail', streak');
      } else {
        WalkExits(t, bars, entryIdx, fastCut, i, trail, streak);
      }
    }
  }

  /** There is only one exit such that only quiet bars lie before it and its reason holds. */
  lemma SimMeansOneExit(t: Terms, bars: seq<Bar>, entryIdx: nat, fastCut: bool, e: SimExit, f: SimExit)
    requires t.entry != 0.0 && SimMeans(t, bars, entryIdx, fastCut, e) && SimMeans(t, bars, entryIdx, fastCut, f)
    ensures e == f
  {
    hide StopReached, TargetReached, ClosesUnder, TrailIn;
    assert e.idx < f.idx ==> QuietBar(t, bars, entryIdx, fastCut, e.idx);
    assert f.idx < e.idx ==> QuietBar(t, bars, entryIdx, fastCut, f.idx);
  }

  /**
   The simulated exit is exactly the one that arithmetic on the entry, the two percentages and the bars describes: in
   the first bar that is not quiet, at the stop, the trail, the target or the close, or else at the last close.
   */
  lemma SimulatedMeans(t: Terms, bars: seq<Bar>, entryIdx: nat, fastCut: bool, e: SimExit)
    requires t.Valid() && entryIdx < |bars| && PositiveBars(bars, entryIdx)
    ensures Simulated(t, bars, entryIdx, fastCut) == e <==> SimMeans(t, bars, entryIdx, fastCut, e)
  {
    BestByMore(t, bars, entryIdx, entryIdx);
    NothingLockedAtEntry(t);
    var r := Simulated(t, bars, entryIdx, fastCut);
    WalkMeans(t, bars, entryIdx, fastCut, entryIdx, InitialTrail(t), 0);
    hide SimMeans;
    if SimMeans(t, bars, entryIdx, fastCut, e) { SimMeansOneExit(t, bars, entryIdx, fastCut, e, r); }
  }

  /** The trail after a bar's best price. */
  method RaiseTrail(t: Terms, trail: real, k: Bar) returns (r: real)
    requires t.entry != 0.0
    ensures r == SimRatchet(t, trail, k)
  {
    r := trail;
    var price := if t.side.Long? then k.high else k.low;
    var f := TrailFactor(Profit(t, price), t.stopPct);
    if f.Some? {
      var newTrail := TrailPrice(t.side, price, t.stopPct, f.value);
      if (t.side.Long? && newTrail > trail) || (t.side.Short? && newTrail < trail) {
        r := newTrail;
      }
    }
  }

  /** On positive prices the exit is the one plain arithmetic describes; five symbols are exempt from the fast cut. */
  ghost predicate Explained(t: Terms, bars: seq<Bar>, entryIdx: nat, symbol: string, applyFastCut: bool, e: SimExit)
    requires t.entry != 0.0 && entryIdx < |bars|
  {
    t.Valid() && PositiveBars(bars, entryIdx) ==>
      SimMeans(t, bars, entryIdx, applyFastCut && symbol !in {"BTC", "ETH", "SOL", "BNB", "XRP"}, e)
  }

  lemma SimulatedIsExplained(t: Terms, bars: seq<Bar>, entryIdx: nat, symbol: string, applyFastCut: bool)
    requires t.entry != 0.0 && entryIdx < |bars|
    ensures Explained(t, bars, entryIdx, symbol, applyFastCut,
                      Simulated(t, bars, entryIdx, applyFastCut && symbol !in FAST_CUT_EXEMPT))
  {
    var fastCut := applyFastCut && symbol !in FAST_CUT_EXEMPT;
    if t.Valid() && PositiveBars(bars, entryIdx) {
      SimulatedMeans(t, bars, entryIdx, fastCut, Simulated(t, bars, entryIdx, fastCut));
    }
  }

  /** The simulation loop; the fast cut applies to symbols that are not exempt. */
  method SimulateExit(bars: seq<Bar>, entryIdx: nat, t: Terms, symbol: string, applyFastCut: bool) returns (r: SimExit)
    requires t.entry != 0.0 && entryIdx < |bars|
    ensures r == Simulated(t, bars, entryIdx, applyFastCut && symbol !in FAST_CUT_EXEMPT)
    ensures Explained(t, bars, entryIdx, symbol, applyFastCut, r)
  {
    SimulatedIsExplained(t, bars, entryIdx, symbol, applyFastCut);
    hide SimRatchet, HardFraction, Explained;
    var maxIdx := if entryIdx + MAX_HOLD_BARS <= |bars| - 1 then entryIdx + MAX_HOLD_BARS else |bars| - 1;
    var hardStop := t.HardStop();
    var trail := if t.side.Long? then 0.0 else hardStop;
    var target := t.TargetPrice();
    var streak: nat := 0;
    var exempt := symbol in FAST_CUT_EXEMPT;
    ghost var fastCut := applyFastCut && !exempt;
    var i := entryIdx;
    while i <= maxIdx
      invariant entryIdx <= i <= maxIdx + 1
      invariant Walk(t, bars, entryIdx, fastCut, i, trail, streak) == Simulated(t, bars, entryIdx, fastCut)
    {
      var k := bars[i];
      var effectiveStop: real;
      var usingTrail: bool;
      trail := RaiseTrail(t, trail, k);
      if t.side.Long? {
        effectiveStop := if hardStop >= trail then hardStop else trail;
        usingTrail := trail > hardStop;
      } else {
        effectiveStop := if hardStop <= trail then hardStop else trail;
        usingTrail := trail < hardStop;
      }
      if t.side.Long? && k.low <= effectiveStop {
        return SimExit(i, effectiveStop, if usingTrail then TrailHit else StopHit);
      }
      if t.side.Short? && k.high >= effectiveStop {
        return SimExit(i, effectiveStop, if usingTrail then TrailHit else StopHit);
      }
      if t.side.Long? && k.high >= target {
        return SimExit(i, target, TargetHit);
      }
      if t.side.Short? && k.low <= target {
        return SimExit(i, target, TargetHit);
      }
      if applyFastCut && !exempt {
        var underwater := if t.side.Long? then k.close <= t.entry * (1.0 + FAST_CUT_PNL)
                          else k.close >= t.entry * (1.0 - FAST_CUT_PNL);
        if underwater {
          streak := streak + 1;
        } else {
          streak := 0;
        }
        if i - entryIdx + 1 >= FAST_CUT_MIN_BARS && streak >= FAST_CUT_MIN_BARS {
          return SimExit(i, k.close, FastCut);
        }
      } else {
        streak := 0;
      }
      i := i + 1;
    }
    return SimExit(maxIdx, bars[maxIdx].close, MaxHold);
  }

  // ---------- the live rules on the ticks of each bar ----------

  /** The ticks of every bar, one sequence a bar, each price within the bar. */
  ghost predicate PathInside(bars: seq<Bar>, paths: seq<seq<Tick>>) {
    |paths| == |bars| &&
    forall i, j :: 0 <= i < |bars| && 0 <= j < |paths[i]| ==> bars[i].low <= paths[i][j].price <= bars[i].high
  }

  /** Bar and reason of the live exit on ticks fed from bar i on. */
  function LiveExit(p: Pos, paths: seq<seq<Tick>>, i: nat): Option<(nat, Reason)>
    requires p.terms.entry != 0.0 && i <= |paths|
    decreases |paths| - i
  {
    if i == |paths| then None
    else
      RunKeepsTerms(p, paths[i], 0);
      var o := Run(p, paths[i], 0);
      if o.exit.Some? then Some((i, o.exit.value.1)) else LiveExit(o.pos, paths, i + 1)
  }

  predicate PriceExit(r: Reason) { r in {StopHit, TrailHit, TargetHit} }

  lemma RunKeepsTerms(p: Pos, ticks: seq<Tick>, i: nat)
    requires p.terms.entry != 0.0 && i <= |ticks|
    ensures var q := Run(p, ticks, i).pos;
            q.terms == p.terms && q.symbol == p.symbol && q.openedAt == p.openedAt
    ensures Run(p, ticks, i).exit.Some? ==> i <= Run(p, ticks, i).exit.value.0 < |ticks|
    decreases |ticks| - i
  {
    if i < |ticks| && Verdict(Observe(p, ticks[i]), ticks[i]).None? {
      RunKeepsTerms(Observe(p, ticks[i]), ticks, i + 1);
    }
  }

  /** The simulated stop covers the live one: a live stop at `price` is a simulated stop at any worse price. */
  ghost predicate Covers(t: Terms, simTrail: real, liveTrail: real) {
    liveTrail > 0.0 ==> AtLeastAsGood(t.side, simTrail, liveTrail)
  }

  /** A candidate from inside the bar is covered by the trail ratcheted with the bar's best price. */
  lemma TickCovered(t: Terms, simTrail: real, liveTrail: real, b: Bar, price: real)
    requires t.Valid() && SaneBar(b) && b.low <= price <= b.high
    requires Covers(t, SimRatchet(t, simTrail, b), liveTrail) && liveTrail >= 0.0
    ensures Covers(t, SimRatchet(t, simTrail, b), Ratchet(t, liveTrail, price)) && Ratchet(t, liveTrail, price) >= 0.0
  {
    var best := BestOf(t.side, b);
    LockedMonotone(t, price, best);
    if Candidate(t, price).Some? { LockedBetweenHardStopAndPrice(t, price); }
  }

  lemma CoveredStop(t: Terms, simTrail: real, liveTrail: real, b: Bar, price: real)
    requires Covers(t, simTrail, liveTrail) && b.low <= price <= b.high
    requires StopTriggered(t, liveTrail, price) || TargetTriggered(t, price)
    ensures BarExit(t, simTrail, b).Some?
  {
  }

  /** Within one bar: any live stop or target exit means the simulation exits in this bar. */
  lemma {:induction false} BarDominates(p: Pos, simTrail: real, b: Bar, ticks: seq<Tick>, j: nat)
    requires p.terms.Valid() && SaneBar(b) && j <= |ticks|
    requires forall k :: 0 <= k < |ticks| ==> b.low <= ticks[k].price <= b.high
    requires Covers(p.terms, SimRatchet(p.terms, simTrail, b), p.trail) && p.trail >= 0.0
    ensures var o := Run(p, ticks, j);
            && Covers(p.terms, SimRatchet(p.terms, simTrail, b), o.pos.trail) && o.pos.trail >= 0.0
            && (o.exit.Some? && PriceExit(o.exit.value.1) ==>
                  BarExit(p.terms, SimRatchet(p.terms, simTrail, b), b).Some?)
    decreases |ticks| - j
  {
    if j < |ticks| {
      var q := Observe(p, ticks[j]);
      TickCovered(p.terms, simTrail, p.trail, b, ticks[j].price);
      if Verdict(q, ticks[j]).None? {
        BarDominates(q, simTrail, b, ticks, j + 1);
      } else if PriceExit(Verdict(q, ticks[j]).value) {
        CoveredStop(p.terms, SimRatchet(p.terms, simTrail, b), q.trail, b, ticks[j].price);
      }
    }
  }

  lemma {:induction false} WalkDominates(p: Pos, bars: seq<Bar>, paths: seq<seq<Tick>>, entryIdx: nat, fastCut: bool,
                                         i: nat, trail: real, streak: nat)
    requires p.terms.Valid() && SaneBars(bars) && PathInside(bars, paths)
    requires entryIdx < |bars| && entryIdx <= i <= LastBar(bars, entryIdx) + 1
    requires Covers(p.terms, trail, p.trail) && p.trail >= 0.0
    ensures var live := LiveExit(p, paths, i);
            live.Some? && PriceExit(live.value.1) ==>
              Walk(p.terms, bars, entryIdx, fastCut, i, trail, streak).idx <= live.value.0
    decreases |bars| - i
  {
    WalkIndex(p.terms, bars, entryIdx, fastCut, i, trail, streak);
    if i <= LastBar(bars, entryIdx) {
      var trail' := SimRatchet(p.terms, trail, bars[i]);
      assert Covers(p.terms, trail', p.trail);
      BarDominates(p, trail, bars[i], paths[i], 0);
      RunKeepsTerms(p, paths[i], 0);
      LiveExitIndex(p, paths, i);
      var o := Run(p, paths[i], 0);
      var streak' := if fastCut && Underwater(p.terms, bars[i]) then streak + 1 else 0;
      if o.exit.None? && BarExit(p.terms, trail', bars[i]).None? {
        WalkDominates(o.pos, bars, paths, entryIdx, fastCut, i + 1, trail', streak');
        LiveExitIndex(o.pos, paths, i + 1);
      }
    } else {
      LiveExitIndex(p, paths, i);
    }
  }

  lemma LiveExitIndex(p: Pos, paths: seq<seq<Tick>>, i: nat)
    requires p.terms.entry != 0.0 && i <= |paths|
    ensures LiveExit(p, paths, i).Some? ==> i <= LiveExit(p, paths, i).value.0 < |paths|
    decreases |paths| - i
  {
    if i < |paths| {
      RunKeepsTerms(p, paths[i], 0);
      if Run(p, paths[i], 0).exit.None? { LiveExitIndex(Run(p, paths[i], 0).pos, paths, i + 1); }
    }
  }

  lemma WalkIndex(t: Terms, bars: seq<Bar>, entryIdx: nat, fastCut: bool, i: nat, trail: real, streak: nat)
    requires t.entry != 0.0 && entryIdx < |bars| && entryIdx <= i <= LastBar(bars, entryIdx) + 1
    ensures entryIdx <= Walk(t, bars, entryIdx, fastCut, i, trail, streak).idx <= LastBar(bars, entryIdx)
    ensures i <= LastBar(bars, entryIdx) ==> i <= Walk(t, bars, entryIdx, fastCut, i, trail, streak).idx
    decreases |bars| - i
  {
    if i <= LastBar(bars, entryIdx) {
      var trail' := SimRatchet(t, trail, bars[i]);
      var streak' := if fastCut && Underwater(t, bars[i]) then streak + 1 else 0;
      if BarExit(t, trail', bars[i]).None? { WalkIndex(t, bars, entryIdx, fastCut, i + 1, trail', streak'); }
    }
  }

  /**
   Dominance: whatever ticks the bars hid, if the live rules exit on a stop, trail or target during
   bar i, the simulation has exited by bar i. Holds with the fast cut on or off, for both sides.
   */
  lemma {:induction false} BarReplayDominatesTicks(p: Pos, bars: seq<Bar>, paths: seq<seq<Tick>>, entryIdx: nat,
                                                   fastCut: bool)
    requires p.terms.Valid() && p.trail == 0.0 && SaneBars(bars) && PathInside(bars, paths) && entryIdx < |bars|
    ensures var live := LiveExit(p, paths, entryIdx);
            live.Some? && PriceExit(live.value.1) ==> Simulated(p.terms, bars, entryIdx, fastCut).idx <= live.value.0
  {
    WalkDominates(p, bars, paths, entryIdx, fastCut, entryIdx, InitialTrail(p.terms), 0);
  }

  // ---------- tightness: the path that visits the best price of each bar, then the worst ----------

  /** The simulated and the live trail are the same stop, though one starts from 0 and the other may not. */
  ghost predicate Corresponds(t: Terms, simTrail: real, liveTrail: real) {
    && liveTrail >= 0.0
    && (liveTrail > 0.0 ==> simTrail == liveTrail && !AtLeastAsGood(t.side, t.HardStop(), liveTrail))
    && (liveTrail == 0.0 ==> simTrail == InitialTrail(t))
  }

  /** A tick at the bar's best price moves both trails alike. */
  lemma BestTickCorresponds(t: Terms, simTrail: real, liveTrail: real, b: Bar)
    requires t.Valid() && BestOf(t.side, b) > 0.0 && Corresponds(t, simTrail, liveTrail)
    ensures Corresponds(t, SimRatchet(t, simTrail, b), Ratchet(t, liveTrail, BestOf(t.side, b)))
  {
    var best := BestOf(t.side, b);
    if Candidate(t, best).Some? { LockedBetweenHardStopAndPrice(t, best); }
  }

  /** After the best price, a worse one does not move the trail. */
  lemma WorseTickDoesNotRatchet(t: Terms, liveTrail: real, best: real, worse: real)
    requires t.Valid() && liveTrail >= 0.0 && best > 0.0 && worse > 0.0 && AtLeastAsGood(t.side, best, worse)
    ensures Ratchet(t, Ratchet(t, liveTrail, best), worse) == Ratchet(t, liveTrail, best)
  {
    LockedMonotone(t, worse, best);
    if Candidate(t, worse).Some? { LockedBetweenHardStopAndPrice(t, worse); }
    if Candidate(t, best).Some? { LockedBetweenHardStopAndPrice(t, best); }
  }

  /** On corresponding trails both programs test the same stop, at any positive price, under the same name. */
  lemma SameStop(t: Terms, simTrail: real, liveTrail: real, price: real)
    requires t.Valid() && price > 0.0 && Corresponds(t, simTrail, liveTrail)
    ensures StopTriggered(t, liveTrail, price) <==> AtLeastAsGood(t.side, SimStop(t, simTrail), price)
    ensures StopTriggered(t, liveTrail, price) ==> (UsingTrail(t, simTrail) <==> liveTrail > 0.0)
  {
  }

  /** A clock reading at which neither the timeout nor the fast cut can fire. */
  function QuietClock(p: Pos): real { p.openedAt / 1000.0 }

  lemma QuietVerdict(p: Pos, price: real)
    ensures Verdict(p, Tick(price, QuietClock(p))) ==
            if StopTriggered(p.terms, p.trail, price) then Some(if p.trail > 0.0 then TrailHit else StopHit)
            else if TargetTriggered(p.terms, price) then Some(TargetHit)
            else None
  {
    assert HoldHours(p, QuietClock(p)) == 0.0;
  }

  function WorstTicks(p: Pos, b: Bar): seq<Tick> {
    [Tick(BestOf(p.terms.side, b), QuietClock(p)), Tick(WorstOf(p.terms.side, b), QuietClock(p))]
  }

  function WorstPath(p: Pos, bars: seq<Bar>): seq<seq<Tick>> {
    seq(|bars|, i requires 0 <= i < |bars| => WorstTicks(p, bars[i]))
  }

  /** A quiet tick at `price` stops or targets exactly when the simulated trail says so. */
  ghost predicate ExitsAt(t: Terms, simTrail: real, price: real) {
    AtLeastAsGood(t.side, SimStop(t, simTrail), price) || TargetTriggered(t, price)
  }

  lemma BestTick(p: Pos, simTrail: real, b: Bar)
    requires p.terms.Valid() && SaneBar(b) && Corresponds(p.terms, simTrail, p.trail)
    ensures var tick, trail' := WorstTicks(p, b)[0], SimRatchet(p.terms, simTrail, b);
            var q := Observe(p, tick);
            && Corresponds(p.terms, trail', q.trail) && q.trail == Ratchet(p.terms, p.trail, BestOf(p.terms.side, b))
            && (Verdict(q, tick).Some? <==> ExitsAt(p.terms, trail', tick.price))
            && (Verdict(q, tick).Some? ==> PriceExit(Verdict(q, tick).value))
  {
    var best := BestOf(p.terms.side, b);
    var q := Observe(p, WorstTicks(p, b)[0]);
    BestTickCorresponds(p.terms, simTrail, p.trail, b);
    SameStop(p.terms, SimRatchet(p.terms, simTrail, b), q.trail, best);
    QuietVerdict(q, best);
  }

  lemma WorstTick(p: Pos, q: Pos, trail': real, liveTrail: real, b: Bar)
    requires p.terms.Valid() && SaneBar(b) && q.terms == p.terms && q.openedAt == p.openedAt && liveTrail >= 0.0
    requires Corresponds(p.terms, trail', q.trail) && q.trail == Ratchet(p.terms, liveTrail, BestOf(p.terms.side, b))
    ensures var tick := WorstTicks(p, b)[1];
            var r := Observe(q, tick);
            && r.trail == q.trail
            && (Verdict(r, tick).Some? <==> ExitsAt(p.terms, trail', tick.price))
            && (Verdict(r, tick).Some? ==> PriceExit(Verdict(r, tick).value))
  {
    var best, worst := BestOf(p.terms.side, b), WorstOf(p.terms.side, b);
    WorseTickDoesNotRatchet(p.terms, liveTrail, best, worst);
    SameStop(p.terms, trail', q.trail, worst);
    QuietVerdict(Observe(q, WorstTicks(p, b)[1]), worst);
  }

  lemma ExtremesDecide(t: Terms, simTrail: real, b: Bar)
    requires SaneBar(b)
    ensures BarExit(t, simTrail, b).Some? <==>
            ExitsAt(t, simTrail, BestOf(t.side, b)) || ExitsAt(t, simTrail, WorstOf(t.side, b))
  {
  }

  lemma WorstBar(p: Pos, simTrail: real, b: Bar)
    requires p.terms.Valid() && SaneBar(b) && Corresponds(p.terms, simTrail, p.trail)
    ensures var o, trail' := Run(p, WorstTicks(p, b), 0), SimRatchet(p.terms, simTrail, b);
            && (o.exit.Some? <==> BarExit(p.terms, trail', b).Some?)
            && (o.exit.Some? ==> PriceExit(o.exit.value.1))
            && Corresponds(p.terms, trail', o.pos.trail)
            && o.pos.openedAt == p.openedAt && o.pos.terms == p.terms
  {
    var ticks, trail' := WorstTicks(p, b), SimRatchet(p.terms, simTrail, b);
    BestTick(p, simTrail, b);
    var q := Observe(p, ticks[0]);
    WorstTick(p, q, trail', p.trail, b);
    ExtremesDecide(p.terms, trail', b);
    TwoTicks(p, ticks);
  }

  lemma TwoTicks(p: Pos, ticks: seq<Tick>)
    requires p.terms.entry != 0.0 && |ticks| == 2
    ensures var q := Observe(p, ticks[0]);
            var r := Observe(q, ticks[1]);
            && q.terms == r.terms == p.terms && q.openedAt == r.openedAt == p.openedAt
            && Run(p, ticks, 0) ==
               match Verdict(q, ticks[0])
               case Some(reason) => Outcome(q, Some((0, reason)))
               case None => match Verdict(r, ticks[1])
                 case Some(reason) => Outcome(r, Some((1, reason)))
                 case None => Outcome(r, None)
  {
    var q := Observe(p, ticks[0]);
    var r := Observe(q, ticks[1]);
    if Verdict(q, ticks[0]).None? {
      assert Run(p, ticks, 0) == Run(q, ticks, 1);
      assert Run(r, ticks, 2) == Outcome(r, None);
    }
  }

  lemma {:induction false} WalkIsTight(p: Pos, clock: Pos, bars: seq<Bar>, entryIdx: nat, i: nat, trail: real)
    requires p.terms.Valid() && SaneBars(bars)
    requires clock.terms == p.terms && clock.openedAt == p.openedAt
    requires entryIdx < |bars| && entryIdx <= i <= LastBar(bars, entryIdx) + 1
    requires Corresponds(p.terms, trail, p.trail)
    ensures var sim, live := Walk(p.terms, bars, entryIdx, false, i, trail, 0), LiveExit(p, WorstPath(clock, bars), i);
            if sim.reason == MaxHold then live.Some? ==> live.value.0 > LastBar(bars, entryIdx)
            else live.Some? && live.value.0 == sim.idx && PriceExit(live.value.1)
    decreases |bars| - i
  {
    var paths := WorstPath(clock, bars);
    LiveExitIndex(p, paths, i);
    if i <= LastBar(bars, entryIdx) {
      assert paths[i] == WorstTicks(p, bars[i]);
      WorstBar(p, trail, bars[i]);
      var o, trail' := Run(p, paths[i], 0), SimRatchet(p.terms, trail, bars[i]);
      if o.exit.None? {
        WalkIsTight(o.pos, clock, bars, entryIdx, i + 1, trail');
      }
    }
  }

  /**
   Tightness: without the fast cut the simulated bar of a stop, trail or target exit is the bar in which
   the live rules exit when each bar first visits its best price and then its worst. So, by dominance, it
   is the earliest bar over all tick paths; and a position held to the end has such a path without exit.
   */
  lemma BarReplayIsTight(p: Pos, bars: seq<Bar>, entryIdx: nat)
    requires p.terms.Valid() && p.trail == 0.0 && SaneBars(bars) && entryIdx < |bars|
    ensures PathInside(bars, WorstPath(p, bars))
    ensures var sim, live := Simulated(p.terms, bars, entryIdx, false), LiveExit(p, WorstPath(p, bars), entryIdx);
            if sim.reason == MaxHold then live.Some? ==> live.value.0 > LastBar(bars, entryIdx)
            else live.Some? && live.value.0 == sim.idx && PriceExit(live.value.1)
  {
    WalkIsTight(p, p, bars, entryIdx, entryIdx, InitialTrail(p.terms));
  }

  // ---------- parity on one-tick bars ----------

  /** Every bar the replay can walk is a single tick, and the clock keeps the timeout and the fast cut out of play. */
  ghost predicate OneTickBars(p: Pos, bars: seq<Bar>, paths: seq<seq<Tick>>, entryIdx: nat)
    requires entryIdx < |bars|
  {
    && |paths| == |bars| && p.symbol in FAST_CUT_EXEMPT
    && forall i :: entryIdx <= i <= LastBar(bars, entryIdx) ==>
         && bars[i].high == bars[i].low == bars[i].close > 0.0
         && |paths[i]| == 1 && paths[i][0].price == bars[i].close
         && HoldHours(p, paths[i][0].now) <= MAX_HOLD_HOURS
  }

  lemma OneTickBar(p: Pos, simTrail: real, b: Bar, tick: Tick)
    requires p.terms.Valid() && b.high == b.low == b.close == tick.price > 0.0
    requires Corresponds(p.terms, simTrail, p.trail)
    requires p.symbol in FAST_CUT_EXEMPT && HoldHours(p, tick.now) <= MAX_HOLD_HOURS
    ensures var q, trail' := Observe(p, tick), SimRatchet(p.terms, simTrail, b);
            && Corresponds(p.terms, trail', q.trail)
            && Verdict(q, tick) == match BarExit(p.terms, trail', b) case None => None case Some((_, r)) => Some(r)
  {
    var c := b.(open := b.close);
    BestTickCorresponds(p.terms, simTrail, p.trail, c);
    SameStop(p.terms, SimRatchet(p.terms, simTrail, b), Observe(p, tick).trail, tick.price);
  }

  lemma {:induction false} WalkHasParity(p: Pos, bars: seq<Bar>, paths: seq<seq<Tick>>, entryIdx: nat, i: nat,
                                         trail: real)
    requires entryIdx < |bars| && entryIdx <= i <= LastBar(bars, entryIdx) + 1
    requires p.terms.Valid() && OneTickBars(p, bars, paths, entryIdx)
    requires Corresponds(p.terms, trail, p.trail)
    ensures var sim, live := Walk(p.terms, bars, entryIdx, false, i, trail, 0), LiveExit(p, paths, i);
            if sim.reason == MaxHold then live.Some? ==> live.value.0 > LastBar(bars, entryIdx)
            else live == Some((sim.idx, sim.reason))
    decreases |bars| - i
  {
    LiveExitIndex(p, paths, i);
    if i <= LastBar(bars, entryIdx) {
      var tick := paths[i][0];
      OneTickBar(p, trail, bars[i], tick);
      var q, trail' := Observe(p, tick), SimRatchet(p.terms, trail, bars[i]);
      assert paths[i] == [tick];
      if Verdict(q, tick).None? {
        assert Run(p, paths[i], 0) == Run(q, paths[i], 1);
        WalkHasParity(q, bars, paths, entryIdx, i + 1, trail');
      }
    }
  }

  /** Parity: on one-tick bars both programs exit at the same index for the same reason, or neither exits. */
  lemma ParityOnOneTickBars(p: Pos, bars: seq<Bar>, paths: seq<seq<Tick>>, entryIdx: nat)
    requires entryIdx < |bars| && p.terms.Valid() && p.trail == 0.0 && OneTickBars(p, bars, paths, entryIdx)
    ensures var sim, live := Simulated(p.terms, bars, entryIdx, false), LiveExit(p, paths, entryIdx);
            if sim.reason == MaxHold then live.Some? ==> live.value.0 > LastBar(bars, entryIdx)
            else live == Some((sim.idx, sim.reason))
  {
    WalkHasParity(p, bars, paths, entryIdx, entryIdx, InitialTrail(p.terms));
  }

  // ---------- the worst simulated price ----------

  /** The price a trade cannot do worse than the hard stop; a long's is also positive. */
  ghost predicate NoWorseThanStop(t: Terms, price: real) {
    (t.side.Long? ==> price > 0.0) && AtLeastAsGood(t.side, price, t.HardStop())
  }

  lemma {:induction false} WalkNeverBelowStop(t: Terms, bars: seq<Bar>, entryIdx: nat, fastCut: bool, i: nat,
                                              trail: real, streak: nat)
    requires t.Valid() && t.targetPct >= 0.0 && SaneBars(bars)
    requires entryIdx < |bars| && entryIdx <= i <= LastBar(bars, entryIdx) + 1
    requires i > entryIdx ==> NoWorseThanStop(t, bars[i - 1].close)
    ensures NoWorseThanStop(t, Walk(t, bars, entryIdx, fastCut, i, trail, streak).price)
    decreases |bars| - i
  {
    if i <= LastBar(bars, entryIdx) {
      var trail' := SimRatchet(t, trail, bars[i]);
      TargetBeyondStop(t);
      if BarExit(t, trail', bars[i]).None? {
        assert NoWorseThanStop(t, bars[i].close);
        var streak' := if fastCut && Underwater(t, bars[i]) then streak + 1 else 0;
        WalkNeverBelowStop(t, bars, entryIdx, fastCut, i + 1, trail', streak');
      }
    }
  }

  lemma TargetBeyondStop(t: Terms)
    requires t.Valid() && t.targetPct >= 0.0
    ensures AtLeastAsGood(t.side, t.TargetPrice(), t.HardStop())
    ensures t.side.Long? ==> t.TargetPrice() > 0.0
    ensures t.side.Short? ==> t.HardStop() > 0.0
  {
    var up, down := 1.0 + t.targetPct, 1.0 - t.targetPct;
    MulMonotone(1.0, up, t.entry);
    MulMonotone(down, 1.0, t.entry);
    MulStrict(1.0 - t.stopPct, 1.0, t.entry);
    MulStrict(1.0, 1.0 + t.stopPct, t.entry);
  }

  /** On sane bars no simulated exit, for any of the five reasons, is at a price worse than the hard stop. */
  lemma NeverWorseThanHardStop(t: Terms, bars: seq<Bar>, entryIdx: nat, fastCut: bool)
    requires t.Valid() && t.targetPct >= 0.0 && SaneBars(bars) && entryIdx < |bars|
    ensures NoWorseThanStop(t, Simulated(t, bars, entryIdx, fastCut).price)
  {
    WalkNeverBelowStop(t, bars, entryIdx, fastCut, entryIdx, InitialTrail(t), 0);
  }
}
