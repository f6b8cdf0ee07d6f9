/**
 The offline entry-filter chain and what it may know: its verdict at a time depends only on bars closed before that
 time and on rows dated up to it, with one exception, the fallback of the flow filter to another list.
 */
module ReplayFilters {
  import opened Options
  import opened Reals
  import opened TrailingStop

  datatype Bar = Bar(closeTime: int, high: real, low: real, close: real, takerBuy: real, takerSell: real)

  /** An open-interest value or a long/short ratio at a time. */
  datatype Row = Row(timestamp: int, value: real)

  datatype Rule = Regime | TimeOfDay | Correlation | Volatility | OiDelta | Basis | TopCrowding | CvdFlow
                | StableFlowBypass | ChainFlowBypass | FundingCarryBypass | AllPassed

  datatype Check = Check(allowed: bool, rule: Rule)

  const HOUR_MS := 3600000
  const MAJOR_SYMBOLS := {"BTC", "ETH", "SOL", "BNB", "XRP"}
  const TIER_MAJORS := {"BTC", "ETH"}
  const TIER_LARGE := {"SOL", "BNB", "XRP", "AVAX", "MATIC", "LINK", "DOT", "UNI", "ATOM"}
  const MEAN_REVERT_TYPES := {"funding_squeeze", "fgi_contrarian", "stable_flow_bull", "stable_flow_bear",
                              "funding_carry", "funding_carry_long", "funding_carry_short"}
  const TREND_TYPES := {"large_move", "major_pump", "listing_pump", "chain_flow_bull", "chain_flow_bear"}
  const ATR_LOOKBACK := 14
  const CVD_WINDOW := 4

  // ---------- what is known at a time ----------

  ghost predicate SortedBars(bars: seq<Bar>) {
    forall i, j :: 0 <= i < j < |bars| ==> bars[i].closeTime <= bars[j].closeTime
  }

  ghost predicate SortedRows(rows: seq<Row>) {
    forall i, j :: 0 <= i < j < |rows| ==> rows[i].timestamp <= rows[j].timestamp
  }

  /** The bars closed before a time. */
  function ClosedBefore(bars: seq<Bar>, ts: int): seq<Bar> {
    if bars == [] then []
    else if bars[|bars| - 1].closeTime < ts then ClosedBefore(bars[..|bars| - 1], ts) + [bars[|bars| - 1]]
    else ClosedBefore(bars[..|bars| - 1], ts)
  }

  /** The rows dated up to a time. */
  function DatedUpTo(rows: seq<Row>, ts: int): seq<Row> {
    if rows == [] then []
    else if rows[|rows| - 1].timestamp <= ts then DatedUpTo(rows[..|rows| - 1], ts) + [rows[|rows| - 1]]
    else DatedUpTo(rows[..|rows| - 1], ts)
  }

  /** The last bar closed before a time, scanning backwards. */
  function LastClosed(bars: seq<Bar>, ts: int): (k: Option<nat>)
    ensures k.Some? ==> k.value < |bars| && bars[k.value].closeTime < ts
  {
    if bars == [] then None
    else if bars[|bars| - 1].closeTime < ts then Some(|bars| - 1)
    else LastClosed(bars[..|bars| - 1], ts)
  }

  /** The leading rows dated up to a time: where a forward scan stops. */
  function Leading(rows: seq<Row>, ts: int): (n: nat)
    ensures n <= |rows|
  {
    if rows == [] then 0
    else
      var n := Leading(rows[..|rows| - 1], ts);
      if n == |rows| - 1 && rows[|rows| - 1].timestamp <= ts then |rows| else n
  }

  /** The last of some rows dated up to a time. */
  function LastDated(rows: seq<Row>, ts: int): Option<Row> {
    if rows == [] then None
    else if rows[|rows| - 1].timestamp <= ts then Some(rows[|rows| - 1])
    else LastDated(rows[..|rows| - 1], ts)
  }

  // ---------- the filters ----------

  function TimeOfDayCheck(symbol: string, ts: int, fundingRate: real): Check {
    var hour := ts / HOUR_MS % 24;
    Check(!(2 <= hour < 7) || symbol in MAJOR_SYMBOLS || Abs(fundingRate) > 0.002, TimeOfDay)
  }

  predicate SmallAlt(symbol: string) { symbol !in TIER_MAJORS && symbol !in TIER_LARGE }

  function CorrelationCheck(symbol: string, held: seq<string>): Check {
    Check(!SmallAlt(symbol) || forall i :: 0 <= i < |held| ==> !SmallAlt(held[i]), Correlation)
  }

  function TrueRange(bar: Bar, previousClose: real): real {
    Max(Max(bar.high - bar.low, Abs(bar.high - previousClose)), Abs(bar.low - previousClose))
  }

  /** The sum of the true ranges of the n bars that end at position idx. */
  function RangeSum(bars: seq<Bar>, idx: nat, n: nat): real
    requires n <= idx < |bars|
  {
    if n == 0 then 0.0
    else TrueRange(bars[idx - n + 1], bars[idx - n].close) + RangeSum(bars, idx, n - 1)
  }

  function AtrPct(bars: seq<Bar>, idx: nat): Option<real>
    requires idx < |bars|
  {
    if idx < ATR_LOOKBACK || bars[idx].close <= 0.0 then None
    else Some(RangeSum(bars, idx, ATR_LOOKBACK) / 14.0 / bars[idx].close)
  }

  function VolatilityAt(bars: seq<Bar>, k: Option<nat>): Check
    requires k.Some? ==> k.value < |bars|
  {
    var atr := if k.None? then None else AtrPct(bars, k.value);
    Check(atr.None? || 0.005 <= atr.value <= 0.08, Volatility)
  }

  function VolatilityCheck(bars: seq<Bar>, ts: int): Check { VolatilityAt(bars, LastClosed(bars, ts)) }

  function OiVerdict(cur: Option<Row>, past: Option<Row>): Check {
    if cur.None? || past.None? || past.value.value <= 0.0 then Check(true, OiDelta)
    else
      var change := (cur.value.value - past.value.value) / past.value.value;
      Check(change >= 0.03, OiDelta)
  }

  /** Both sides are refused on flat and on falling open interest; the side itself never matters. */
  function OiDeltaCheck(ts: int, rows: seq<Row>): Check {
    var seen := rows[..Leading(rows, ts)];
    OiVerdict(if seen == [] then None else Some(seen[|seen| - 1]), LastDated(seen, ts - HOUR_MS))
  }

  function BasisVerdict(side: Side, spot: Option<real>, futures: Option<real>): Check {
    if spot.None? || futures.None? || spot.value <= 0.0 then Check(true, Basis)
    else
      var basis := (futures.value - spot.value) / spot.value;
      Check(if side.Long? then basis <= 0.001 else basis >= -0.001, Basis)
  }

  function CloseAt(bars: seq<Bar>, k: Option<nat>): Option<real>
    requires k.Some? ==> k.value < |bars|
  {
    if k.None? then None else Some(bars[k.value].close)
  }

  function BasisCheck(side: Side, ts: int, spot: seq<Bar>, futures: seq<Bar>): Check {
    BasisVerdict(side, CloseAt(spot, LastClosed(spot, ts)), CloseAt(futures, LastClosed(futures, ts)))
  }

  function TopLsVerdict(side: Side, cur: Option<Row>): Check {
    if cur.None? || cur.value.value <= 0.0 then Check(true, TopCrowding)
    else Check(if side.Long? then cur.value.value <= 2.5 else cur.value.value >= 0.5, TopCrowding)
  }

  function TopLsCheck(side: Side, ts: int, rows: seq<Row>): Check {
    var seen := rows[..Leading(rows, ts)];
    TopLsVerdict(side, if seen == [] then None else Some(seen[|seen| - 1]))
  }

  function Flow(bar: Bar): real { (bar.takerBuy - bar.takerSell) * bar.close }

  function FlowSum(window: seq<Bar>): real {
    if window == [] then 0.0 else FlowSum(window[..|window| - 1]) + Flow(window[|window| - 1])
  }

  predicate HasTaker(window: seq<Bar>) {
    window != [] && (HasTaker(window[..|window| - 1])
                     || window[|window| - 1].takerBuy > 0.0 || window[|window| - 1].takerSell > 0.0)
  }

  function CvdVerdict(side: Side, window: seq<Bar>): Check {
    Check(!HasTaker(window) || (if side.Long? then FlowSum(window) >= -500.0 else FlowSum(window) <= 500.0), CvdFlow)
  }

  function CvdAt(side: Side, bars: seq<Bar>, k: Option<nat>): Check
    requires k.Some? ==> k.value < |bars|
  {
    if k.None? || k.value < CVD_WINDOW - 1 then Check(true, CvdFlow)
    else CvdVerdict(side, bars[k.value - CVD_WINDOW + 1..k.value + 1])
  }

  function CvdCheck(side: Side, ts: int, bars: seq<Bar>): Check { CvdAt(side, bars, LastClosed(bars, ts)) }

  function RegimeCheck(strategy: string, regime: string): Check {
    if regime == "calm" then Check(strategy !in TREND_TYPES, Regime)
    else if regime == "hot" then
      Check(strategy !in MEAN_REVERT_TYPES && !("stable_flow" <= strategy) && !("funding_carry" <= strategy), Regime)
    else Check(true, Regime)
  }

  // ---------- the chain ----------

  /** The lists the chain reads; a list that was not given is empty. */
  datatype Market = Market(bars15m: seq<Bar>, oi: seq<Row>, spot: seq<Bar>, futures: seq<Bar>, ls: seq<Row>,
                           bars1h: seq<Bar>)

  /** A signal at a time, with everything else the chain is told. */
  datatype Ask = Ask(symbol: string, side: Side, ts: int, fundingRate: real, held: seq<string>, signalType: string,
                     regimeStrategy: string, regime: string)

  function FlowBars(m: Market): seq<Bar> { if m.bars1h != [] then m.bars1h else m.spot }

  /** Everything the chain decides before the flow filter: a block, a bypass, or nothing yet. */
  function BeforeFlow(a: Ask, m: Market): Option<Check> {
    var regime := RegimeCheck(if a.regimeStrategy != "" then a.regimeStrategy else a.signalType, a.regime);
    if !regime.allowed then Some(regime)
    else if "stable_flow" <= a.signalType then Some(Check(true, StableFlowBypass))
    else if "chain_flow" <= a.signalType then Some(Check(true, ChainFlowBypass))
    else if "funding_carry" <= a.signalType then Some(Check(true, FundingCarryBypass))
    else
      FirstBlock([TimeOfDayCheck(a.symbol, a.ts, a.fundingRate), CorrelationCheck(a.symbol, a.held),
                  VolatilityCheck(m.bars15m, a.ts), OiDeltaCheck(a.ts, m.oi),
                  BasisCheck(a.side, a.ts, m.spot, m.futures), TopLsCheck(a.side, a.ts, m.ls)])
  }

  function FirstBlock(checks: seq<Check>): (r: Option<Check>)
    ensures r.None? <==> forall i :: 0 <= i < |checks| ==> checks[i].allowed
    ensures r.Some? ==> exists i :: 0 <= i < |checks| && checks[i] == r.value && !checks[i].allowed
                                    && forall j :: 0 <= j < i ==> checks[j].allowed
  {
    if checks == [] then None
    else
      match FirstBlock(checks[..|checks| - 1])
      case Some(c) => Some(c)
      case None => if checks[|checks| - 1].allowed then None else Some(checks[|checks| - 1])
  }

  function Run(a: Ask, m: Market): Check {
    match BeforeFlow(a, m)
    case Some(c) => c
    case None =>
      var flow := CvdCheck(a.side, a.ts, FlowBars(m));
      if flow.allowed then Check(true, AllPassed) else flow
  }

  /** The market as it was known at a time. */
  function Known(m: Market, ts: int): Market {
    Market(ClosedBefore(m.bars15m, ts), DatedUpTo(m.oi, ts), ClosedBefore(m.spot, ts), ClosedBefore(m.futures, ts),
           DatedUpTo(m.ls, ts), ClosedBefore(m.bars1h, ts))
  }

  ghost predicate Sorted(m: Market) {
    && SortedBars(m.bars15m) && SortedBars(m.spot) && SortedBars(m.futures) && SortedBars(m.bars1h)
    && SortedRows(m.oi) && SortedRows(m.ls)
  }

  // ---------- what each block means, in plain arithmetic ----------

  /** The last bar in the list that closed before a time. */
  ghost predicate LatestClosed(bars: seq<Bar>, ts: int, k: nat) {
    && k < |bars| && bars[k].closeTime < ts
    && forall j :: k < j < |bars| ==> bars[j].closeTime >= ts
  }

  /** The last of the leading rows that are dated up to a time. */
  ghost predicate LatestRow(rows: seq<Row>, ts: int, k: nat) {
    && k < |rows| && (forall j :: 0 <= j <= k ==> rows[j].timestamp <= ts)
    && (k + 1 < |rows| ==> rows[k + 1].timestamp > ts)
  }

  /** The last row up to another that is dated at least an hour before a time. */
  ghost predicate HourOld(rows: seq<Row>, ts: int, k: nat, past: nat)
    requires k < |rows|
  {
    && past <= k && rows[past].timestamp <= ts - 3600000
    && forall j :: past < j <= k ==> rows[j].timestamp > ts - 3600000
  }

  /** Between two and seven in the morning, universal time, only majors and extreme funding pass. */
  ghost predicate BlocksHour(symbol: string, ts: int, fundingRate: real) {
    && 7200000 <= ts % 86400000 < 25200000 && symbol !in {"BTC", "ETH", "SOL", "BNB", "XRP"}
    && -0.002 <= fundingRate <= 0.002
  }

  ghost predicate Small(symbol: string) {
    symbol !in {"BTC", "ETH", "SOL", "BNB", "XRP", "AVAX", "MATIC", "LINK", "DOT", "UNI", "ATOM"}
  }

  /** One small coin at a time. */
  ghost predicate BlocksSmall(symbol: string, held: seq<string>) {
    Small(symbol) && exists i :: 0 <= i < |held| && Small(held[i])
  }

  /** The range of a bar: the largest of its height and the distances of its extremes from the close before it. */
  ghost predicate IsRange(r: real, bar: Bar, close: real) {
    && r >= bar.high - bar.low && r >= bar.high - close && r >= close - bar.high && r >= bar.low - close
    && r >= close - bar.low
    && (r == bar.high - bar.low || r == bar.high - close || r == close - bar.high || r == bar.low - close
        || r == close - bar.low)
  }

  function SumOf(xs: seq<real>): real { if xs == [] then 0.0 else SumOf(xs[..|xs| - 1]) + xs[|xs| - 1] }

  /** The ranges of the 14 bars up to bar k. */
  ghost predicate Ranges(bars: seq<Bar>, k: nat, xs: seq<real>)
    requires 14 <= k < |bars|
  {
    |xs| == 14 && forall i :: 0 <= i < 14 ==> IsRange(xs[i], bars[k - 13 + i], bars[k - 14 + i].close)
  }

  /** Fourteen ranges have a mean under 0.5% or over 8% of a price. */
  ghost predicate Unusual(xs: seq<real>, close: real) {
    close > 0.0 && (1000.0 * SumOf(xs) < 70.0 * close || 1000.0 * SumOf(xs) > 1120.0 * close)
  }

  /** The mean range of the last 14 closed bars is unusual for the last close. */
  ghost predicate BlocksVolatility(bars: seq<Bar>, ts: int) {
    exists k: nat, xs :: 14 <= k && LatestClosed(bars, ts, k) && Ranges(bars, k, xs) && Unusual(xs, bars[k].close)
  }

  /** Open interest has not grown by 3%. */
  ghost predicate Flat(cur: Row, past: Row) { past.value > 0.0 && 100.0 * cur.value < 103.0 * past.value }

  ghost predicate BlocksOi(ts: int, rows: seq<Row>) {
    exists k: nat, past: nat :: LatestRow(rows, ts, k) && HourOld(rows, ts, k, past) && Flat(rows[k], rows[past])
  }

  /** The future is over 0.1% above spot for a long, below it for a short. */
  ghost predicate Stretched(side: Side, spot: real, futures: real) {
    spot > 0.0 && if side.Long? then 1000.0 * futures > 1001.0 * spot else 1000.0 * futures < 999.0 * spot
  }

  ghost predicate BlocksBasis(side: Side, ts: int, spot: seq<Bar>, futures: seq<Bar>) {
    exists s: nat, f: nat ::
      LatestClosed(spot, ts, s) && LatestClosed(futures, ts, f) && Stretched(side, spot[s].close, futures[f].close)
  }

  /** Top traders are crowded on the same side. */
  ghost predicate Crowded(side: Side, ratio: real) {
    ratio > 0.0 && if side.Long? then ratio > 2.5 else ratio < 0.5
  }

  ghost predicate BlocksCrowd(side: Side, ts: int, rows: seq<Row>) {
    exists k: nat :: LatestRow(rows, ts, k) && Crowded(side, rows[k].value)
  }

  /** What takers bought less what they sold over four bars, in money. */
  function FourBarFlow(bars: seq<Bar>, k: nat): real
    requires 3 <= k < |bars|
  {
    (bars[k - 3].takerBuy - bars[k - 3].takerSell) * bars[k - 3].close
    + (bars[k - 2].takerBuy - bars[k - 2].takerSell) * bars[k - 2].close
    + (bars[k - 1].takerBuy - bars[k - 1].takerSell) * bars[k - 1].close
    + (bars[k].takerBuy - bars[k].takerSell) * bars[k].close
  }

  ghost predicate TakersSeen(bars: seq<Bar>, k: nat)
    requires 3 <= k < |bars|
  {
    exists i :: k - 3 <= i <= k && (bars[i].takerBuy > 0.0 || bars[i].takerSell > 0.0)
  }

  /** Over the last four closed bars, takers have sold against a long, or bought against a short, more than 500. */
  ghost predicate BlocksFlow(side: Side, ts: int, bars: seq<Bar>) {
    exists k: nat :: 3 <= k && LatestClosed(bars, ts, k) && TakersSeen(bars, k) && AgainstFlow(side, bars, k)
  }

  ghost predicate AgainstFlow(side: Side, bars: seq<Bar>, k: nat)
    requires 3 <= k < |bars|
  {
    if side.Long? then FourBarFlow(bars, k) < -500.0 else FourBarFlow(bars, k) > 500.0
  }

  /** Trend strategies in a calm regime, mean-reverting ones in a hot one. */
  ghost predicate BlocksRegime(strategy: string, regime: string) {
    || (regime == "calm"
        && strategy in {"large_move", "major_pump", "listing_pump", "chain_flow_bull", "chain_flow_bear"})
    || (regime == "hot"
        && (strategy in {"funding_squeeze", "fgi_contrarian"}
            || "stable_flow" <= strategy || "funding_carry" <= strategy))
  }

  /** The decision on a signal: the first block in the order of the chain, unless the signal bypasses it. */
  ghost function Decision(a: Ask, m: Market): Check {
    if BlocksRegime(if a.regimeStrategy != "" then a.regimeStrategy else a.signalType, a.regime) then
      Check(false, Regime)
    else if "stable_flow" <= a.signalType then Check(true, StableFlowBypass)
    else if "chain_flow" <= a.signalType then Check(true, ChainFlowBypass)
    else if "funding_carry" <= a.signalType then Check(true, FundingCarryBypass)
    else if BlocksHour(a.symbol, a.ts, a.fundingRate) then Check(false, TimeOfDay)
    else if BlocksSmall(a.symbol, a.held) then Check(false, Correlation)
    else if BlocksVolatility(m.bars15m, a.ts) then Check(false, Volatility)
    else if BlocksOi(a.ts, m.oi) then Check(false, OiDelta)
    else if BlocksBasis(a.side, a.ts, m.spot, m.futures) then Check(false, Basis)
    else if BlocksCrowd(a.side, a.ts, m.ls) then Check(false, TopCrowding)
    else if BlocksFlow(a.side, a.ts, if m.bars1h != [] then m.bars1h else m.spot) then Check(false, CvdFlow)
    else Check(true, AllPassed)
  }

  lemma {:induction false} LastClosedMeans(bars: seq<Bar>, ts: int, k: nat)
    ensures LastClosed(bars, ts) == Some(k) <==> LatestClosed(bars, ts, k)
    decreases |bars|
  {
    if bars != [] && bars[|bars| - 1].closeTime >= ts {
      LastClosedMeans(bars[..|bars| - 1], ts, k);
    }
  }

  lemma {:induction false} LeadingMeans(rows: seq<Row>, ts: int, k: nat)
    ensures Leading(rows, ts) == k + 1 <==> LatestRow(rows, ts, k)
    decreases |rows|
  {
    if rows != [] {
      var init := rows[..|rows| - 1];
      LeadingMeans(init, ts, k);
      if |init| > 0 { LeadingMeans(init, ts, |init| - 1); }
    }
  }

  lemma {:induction false} LastDatedMeans(rows: seq<Row>, ts: int, k: nat)
    requires k < |rows|
    ensures LastDated(rows[..k + 1], ts - HOUR_MS).Some? <==> exists past: nat :: HourOld(rows, ts, k, past)
    ensures forall past: nat | HourOld(rows, ts, k, past) ::
              LastDated(rows[..k + 1], ts - HOUR_MS) == Some(rows[past])
    decreases k
  {
    assert rows[..k + 1][..k] == rows[..k];
    if rows[k].timestamp <= ts - HOUR_MS {
      assert HourOld(rows, ts, k, k);
    } else if k == 0 {
      assert LastDated(rows[..0], ts - HOUR_MS) == None;
    } else {
      var j: nat := k - 1;
      LastDatedMeans(rows, ts, j);
      forall past: nat
        ensures HourOld(rows, ts, k, past) <==> HourOld(rows, ts, j, past)
      {
      }
      if past: nat :| HourOld(rows, ts, j, past) { assert HourOld(rows, ts, k, past); }
      hide HourOld, LastDated;
    }
  }

  lemma HourMeans(symbol: string, ts: int, fundingRate: real)
    ensures TimeOfDayCheck(symbol, ts, fundingRate).allowed <==> !BlocksHour(symbol, ts, fundingRate)
  {
    HourOfDay(ts);
  }

  lemma HourOfDay(ts: int)
    ensures 2 <= ts / HOUR_MS % 24 < 7 <==> 7200000 <= ts % 86400000 < 25200000
  {
    var day, rest := ts / 86400000, ts % 86400000;
    var hour := rest / 3600000;
    assert ts == day * 86400000 + rest && 0 <= hour < 24;
    assert ts / 3600000 == day * 24 + hour;
  }

  lemma SmallMeans(symbol: string, held: seq<string>)
    ensures CorrelationCheck(symbol, held).allowed <==> !BlocksSmall(symbol, held)
  {
    assert forall x: string :: SmallAlt(x) <==> Small(x);
    hide SmallAlt, Small;
  }

  lemma RangeMeans(bar: Bar, close: real, r: real)
    ensures TrueRange(bar, close) == r <==> IsRange(r, bar, close)
  {
  }

  /** The ranges that the sum over n bars is made of. */
  function RangesUpTo(bars: seq<Bar>, k: nat, n: nat): seq<real>
    requires n <= k < |bars|
  {
    seq(n, i requires 0 <= i < n => TrueRange(bars[k - n + 1 + i], bars[k - n + i].close))
  }

  lemma {:induction false} SumConcat(a: seq<real>, b: seq<real>)
    ensures SumOf(a + b) == SumOf(a) + SumOf(b)
    decreases |b|
  {
    if b == [] {
      assert a + b == a;
    } else {
      SumConcat(a, b[..|b| - 1]);
      assert (a + b)[..|a + b| - 1] == a + b[..|b| - 1];
    }
  }

  lemma {:induction false} RangeSumMeans(bars: seq<Bar>, k: nat, n: nat)
    requires n <= k < |bars|
    ensures RangeSum(bars, k, n) == SumOf(RangesUpTo(bars, k, n))
    decreases n
  {
    if n > 0 {
      RangeSumMeans(bars, k, n - 1);
      hide TrueRange;
      var first := TrueRange(bars[k - n + 1], bars[k - n].close);
      assert RangesUpTo(bars, k, n) == [first] + RangesUpTo(bars, k, n - 1);
      assert [first][..0] == [] && SumOf([first]) == first;
      SumConcat([first], RangesUpTo(bars, k, n - 1));
    }
  }

  lemma RangesAreUnique(bars: seq<Bar>, k: nat, xs: seq<real>)
    requires 14 <= k < |bars|
    ensures Ranges(bars, k, xs) <==> xs == RangesUpTo(bars, k, 14)
  {
    forall i | 0 <= i < |xs| && i < 14
      ensures IsRange(xs[i], bars[k - 13 + i], bars[k - 14 + i].close) <==> xs[i] == RangesUpTo(bars, k, 14)[i]
    {
      RangeMeans(bars[k - 13 + i], bars[k - 14 + i].close, xs[i]);
    }
    hide IsRange, TrueRange;
  }

  lemma MeanRange(sum: real, close: real)
    requires close > 0.0
    ensures sum / 14.0 / close < 0.005 <==> 1000.0 * sum < 70.0 * close
    ensures sum / 14.0 / close > 0.08 <==> 1000.0 * sum > 1120.0 * close
  {
    QuotientAgainst(sum / 14.0, close, 0.005);
    QuotientAgainst(sum / 14.0, close, 0.08);
  }

  lemma VolatilityMeans(bars: seq<Bar>, ts: int)
    ensures VolatilityCheck(bars, ts).allowed <==> !BlocksVolatility(bars, ts)
  {
    var last := LastClosed(bars, ts);
    forall k: nat
      ensures last == Some(k) <==> LatestClosed(bars, ts, k)
    {
      LastClosedMeans(bars, ts, k);
    }
    if last.Some? && last.value >= 14 && bars[last.value].close > 0.0 {
      var k := last.value;
      RangeSumMeans(bars, k, 14);
      forall xs
        ensures Ranges(bars, k, xs) <==> xs == RangesUpTo(bars, k, 14)
      {
        RangesAreUnique(bars, k, xs);
      }
      MeanRange(RangeSum(bars, k, 14), bars[k].close);
      assert Ranges(bars, k, RangesUpTo(bars, k, 14)) && LatestClosed(bars, ts, k);
      hide LastClosed, LatestClosed, Ranges, RangesUpTo, RangeSum, SumOf;
    }
  }

  lemma FlatMeans(cur: Row, past: Row)
    ensures OiVerdict(Some(cur), Some(past)).allowed <==> !Flat(cur, past)
  {
    if past.value > 0.0 { QuotientAgainst(cur.value - past.value, past.value, 0.03); }
  }

  lemma OiMeans(ts: int, rows: seq<Row>)
    ensures OiDeltaCheck(ts, rows).allowed <==> !BlocksOi(ts, rows)
  {
    var n := Leading(rows, ts);
    forall k: nat
      ensures n == k + 1 <==> LatestRow(rows, ts, k)
    {
      LeadingMeans(rows, ts, k);
    }
    if n > 0 {
      LastDatedMeans(rows, ts, n - 1);
      assert rows[..n][n - 1] == rows[n - 1];
      var past := LastDated(rows[..n], ts - HOUR_MS);
      if past.Some? { FlatMeans(rows[n - 1], past.value); }
      NoVerdict(Some(rows[n - 1]));
    }
    hide Leading, LatestRow, LastDated, HourOld, OiVerdict, Flat;
  }

  lemma NoVerdict(cur: Option<Row>)
    ensures OiVerdict(cur, None).allowed
  {
  }

  lemma StretchedMeans(side: Side, spot: real, futures: real)
    ensures BasisVerdict(side, Some(spot), Some(futures)).allowed <==> !Stretched(side, spot, futures)
  {
    if spot > 0.0 {
      QuotientAgainst(futures - spot, spot, 0.001);
      QuotientAgainst(futures - spot, spot, -0.001);
    }
  }

  lemma BasisMeans(side: Side, ts: int, spot: seq<Bar>, futures: seq<Bar>)
    ensures BasisCheck(side, ts, spot, futures).allowed <==> !BlocksBasis(side, ts, spot, futures)
  {
    hide LastClosed, LatestClosed, Stretched;
    var s, f := LastClosed(spot, ts), LastClosed(futures, ts);
    forall k: nat
      ensures s == Some(k) <==> LatestClosed(spot, ts, k)
      ensures f == Some(k) <==> LatestClosed(futures, ts, k)
    {
      LastClosedMeans(spot, ts, k);
      LastClosedMeans(futures, ts, k);
    }
    if s.Some? && f.Some? { StretchedMeans(side, spot[s.value].close, futures[f.value].close); }
  }

  lemma CrowdMeans(side: Side, ts: int, rows: seq<Row>)
    ensures TopLsCheck(side, ts, rows).allowed <==> !BlocksCrowd(side, ts, rows)
  {
    var n := Leading(rows, ts);
    forall k: nat
      ensures n == k + 1 <==> LatestRow(rows, ts, k)
    {
      LeadingMeans(rows, ts, k);
    }
    hide Leading, LatestRow;
    if n > 0 {
      assert LatestRow(rows, ts, n - 1) && rows[..n][n - 1] == rows[n - 1];
    }
  }

  lemma FourFlows(w: seq<Bar>)
    requires |w| == 4
    ensures FlowSum(w) == (w[0].takerBuy - w[0].takerSell) * w[0].close
                          + (w[1].takerBuy - w[1].takerSell) * w[1].close
                          + (w[2].takerBuy - w[2].takerSell) * w[2].close
                          + (w[3].takerBuy - w[3].takerSell) * w[3].close
    ensures HasTaker(w) <==> exists i :: 0 <= i < 4 && (w[i].takerBuy > 0.0 || w[i].takerSell > 0.0)
  {
    assert w[..3][..2] == w[..2] && w[..2][..1] == w[..1] && w[..1][..0] == [];
    assert FlowSum(w) == FlowSum(w[..3]) + Flow(w[3]) && FlowSum(w[..3]) == FlowSum(w[..2]) + Flow(w[2]);
    assert FlowSum(w[..2]) == FlowSum(w[..1]) + Flow(w[1]) && FlowSum(w[..1]) == FlowSum([]) + Flow(w[0]);
    assert HasTaker(w) <==> HasTaker(w[..3]) || w[3].takerBuy > 0.0 || w[3].takerSell > 0.0;
    assert HasTaker(w[..3]) <==> HasTaker(w[..2]) || w[2].takerBuy > 0.0 || w[2].takerSell > 0.0;
    assert HasTaker(w[..2]) <==> HasTaker(w[..1]) || w[1].takerBuy > 0.0 || w[1].takerSell > 0.0;
    assert HasTaker(w[..1]) <==> w[0].takerBuy > 0.0 || w[0].takerSell > 0.0;
  }

  lemma WindowMeans(side: Side, bars: seq<Bar>, k: nat)
    requires 3 <= k < |bars|
    ensures CvdVerdict(side, bars[k - 3..k + 1]).allowed <==> !(TakersSeen(bars, k) && AgainstFlow(side, bars, k))
  {
    var w := bars[k - 3..k + 1];
    FourFlows(w);
    assert w[0] == bars[k - 3] && w[1] == bars[k - 2] && w[2] == bars[k - 1] && w[3] == bars[k];
    assert FlowSum(w) == FourBarFlow(bars, k);
    hide FlowSum, FourBarFlow;
    assert HasTaker(w) <==> TakersSeen(bars, k) by {
      if i :| 0 <= i < 4 && (w[i].takerBuy > 0.0 || w[i].takerSell > 0.0) { assert w[i] == bars[k - 3 + i]; }
      if i :| k - 3 <= i <= k && (bars[i].takerBuy > 0.0 || bars[i].takerSell > 0.0) {
        assert w[i - (k - 3)] == bars[i];
      }
    }
    hide HasTaker, TakersSeen;
  }

  lemma FlowMeans(side: Side, ts: int, bars: seq<Bar>)
    ensures CvdCheck(side, ts, bars).allowed <==> !BlocksFlow(side, ts, bars)
  {
    hide LastClosed, LatestClosed, CvdVerdict, TakersSeen, AgainstFlow;
    var last := LastClosed(bars, ts);
    forall k: nat
      ensures last == Some(k) <==> LatestClosed(bars, ts, k)
    {
      LastClosedMeans(bars, ts, k);
    }
    if last.Some? && last.value >= 3 { WindowMeans(side, bars, last.value); }
  }

  lemma RegimeMeans(strategy: string, regime: string)
    ensures RegimeCheck(strategy, regime).allowed <==> !BlocksRegime(strategy, regime)
    ensures !RegimeCheck(strategy, regime).allowed ==> RegimeCheck(strategy, regime).rule == Regime
  {
  }

  /** The chain decides exactly as the arithmetic does: the first block in its order, and its rule. */
  lemma RunMeans(a: Ask, m: Market)
    ensures Run(a, m) == Decision(a, m)
  {
    RegimeMeans(if a.regimeStrategy != "" then a.regimeStrategy else a.signalType, a.regime);
    HourMeans(a.symbol, a.ts, a.fundingRate);
    SmallMeans(a.symbol, a.held);
    VolatilityMeans(m.bars15m, a.ts);
    OiMeans(a.ts, m.oi);
    BasisMeans(a.side, a.ts, m.spot, m.futures);
    CrowdMeans(a.side, a.ts, m.ls);
    FlowMeans(a.side, a.ts, FlowBars(m));
    ChecksInOrder(a, m);
    hide BlocksRegime, BlocksHour, BlocksSmall, BlocksVolatility, BlocksOi, BlocksBasis, BlocksCrowd, BlocksFlow;
  }

  /** The checks before the flow filter, one after the other, and the rule each carries. */
  lemma ChecksInOrder(a: Ask, m: Market)
    ensures var t, c := TimeOfDayCheck(a.symbol, a.ts, a.fundingRate), CorrelationCheck(a.symbol, a.held);
            var v, o := VolatilityCheck(m.bars15m, a.ts), OiDeltaCheck(a.ts, m.oi);
            var b, l := BasisCheck(a.side, a.ts, m.spot, m.futures), TopLsCheck(a.side, a.ts, m.ls);
            && FirstBlock([t, c, v, o, b, l]) == (if !t.allowed then Some(t) else if !c.allowed then Some(c)
                                                  else if !v.allowed then Some(v) else if !o.allowed then Some(o)
                                                  else if !b.allowed then Some(b) else if !l.allowed then Some(l)
                                                  else None)
            && t.rule == TimeOfDay && c.rule == Correlation && v.rule == Volatility && o.rule == OiDelta
            && b.rule == Basis && l.rule == TopCrowding
            && CvdCheck(a.side, a.ts, FlowBars(m)).rule == CvdFlow
  {
    SixChecks(TimeOfDayCheck(a.symbol, a.ts, a.fundingRate), CorrelationCheck(a.symbol, a.held),
              VolatilityCheck(m.bars15m, a.ts), OiDeltaCheck(a.ts, m.oi),
              BasisCheck(a.side, a.ts, m.spot, m.futures), TopLsCheck(a.side, a.ts, m.ls));
    hide FirstBlock;
  }

  lemma SixChecks(t: Check, c: Check, v: Check, o: Check, b: Check, l: Check)
    ensures FirstBlock([t, c, v, o, b, l]) == if !t.allowed then Some(t) else if !c.allowed then Some(c)
                                              else if !v.allowed then Some(v) else if !o.allowed then Some(o)
                                              else if !b.allowed then Some(b) else if !l.allowed then Some(l)
                                              else None
  {
    assert [t, c, v, o, b, l] == [] + [t] + [c] + [v] + [o] + [b] + [l];
    AppendBlock([], t);
    AppendBlock([] + [t], c);
    AppendBlock([] + [t] + [c], v);
    AppendBlock([] + [t] + [c] + [v], o);
    AppendBlock([] + [t] + [c] + [v] + [o], b);
    AppendBlock([] + [t] + [c] + [v] + [o] + [b], l);
    assert FirstBlock([]) == None;
    hide FirstBlock;
  }

  // ---------- no lookahead, list by list ----------

  lemma {:induction false} ClosedIsPrefix(bars: seq<Bar>, ts: int) returns (n: nat)
    requires SortedBars(bars)
    ensures n <= |bars| && ClosedBefore(bars, ts) == bars[..n]
    ensures LastClosed(bars, ts) == LastClosed(bars[..n], ts) == if n == 0 then None else Some(n - 1)
  {
    n := |bars|;
    if bars == [] || bars[|bars| - 1].closeTime < ts {
      AllClosed(bars, ts);
      assert bars[..n] == bars;
    } else {
      n := ClosedIsPrefix(bars[..|bars| - 1], ts);
      assert bars[..|bars| - 1][..n] == bars[..n];
    }
  }

  lemma {:induction false} AllClosed(bars: seq<Bar>, ts: int)
    requires forall i :: 0 <= i < |bars| ==> bars[i].closeTime < ts
    ensures ClosedBefore(bars, ts) == bars
  {
    if bars != [] { AllClosed(bars[..|bars| - 1], ts); }
  }

  lemma {:induction false} DatedIsPrefix(rows: seq<Row>, ts: int)
    requires SortedRows(rows)
    ensures DatedUpTo(rows, ts) == rows[..Leading(rows, ts)]
    ensures Leading(DatedUpTo(rows, ts), ts) == |DatedUpTo(rows, ts)|
  {
    if rows != [] {
      var init, last := rows[..|rows| - 1], rows[|rows| - 1];
      DatedIsPrefix(init, ts);
      if last.timestamp <= ts {
        AllDated(rows, ts);
        assert rows[..|rows|] == rows;
      } else {
        assert init[..Leading(init, ts)] == rows[..Leading(init, ts)];
      }
    }
  }

  lemma {:induction false} AllDated(rows: seq<Row>, ts: int)
    requires forall i :: 0 <= i < |rows| ==> rows[i].timestamp <= ts
    ensures DatedUpTo(rows, ts) == rows && Leading(rows, ts) == |rows|
  {
    if rows != [] { AllDated(rows[..|rows| - 1], ts); }
  }

  lemma {:induction false} RangeSumOfPrefix(bars: seq<Bar>, m: nat, idx: nat, n: nat)
    requires n <= idx < m <= |bars|
    ensures RangeSum(bars[..m], idx, n) == RangeSum(bars, idx, n)
    decreases n
  {
    if n > 0 { RangeSumOfPrefix(bars, m, idx, n - 1); }
  }

  lemma VolatilityKnown(bars: seq<Bar>, ts: int)
    requires SortedBars(bars)
    ensures VolatilityCheck(ClosedBefore(bars, ts), ts) == VolatilityCheck(bars, ts)
  {
    var n := ClosedIsPrefix(bars, ts);
    if n > ATR_LOOKBACK { RangeSumOfPrefix(bars, n, n - 1, ATR_LOOKBACK); }
  }

  lemma OiDeltaKnown(rows: seq<Row>, ts: int)
    requires SortedRows(rows)
    ensures OiDeltaCheck(ts, DatedUpTo(rows, ts)) == OiDeltaCheck(ts, rows)
  {
    DatedIsPrefix(rows, ts);
    var seen := DatedUpTo(rows, ts);
    assert seen[..|seen|] == seen;
  }

  lemma TopLsKnown(side: Side, rows: seq<Row>, ts: int)
    requires SortedRows(rows)
    ensures TopLsCheck(side, ts, DatedUpTo(rows, ts)) == TopLsCheck(side, ts, rows)
  {
    DatedIsPrefix(rows, ts);
    var seen := DatedUpTo(rows, ts);
    assert seen[..|seen|] == seen;
  }

  lemma BasisKnown(side: Side, ts: int, spot: seq<Bar>, futures: seq<Bar>)
    requires SortedBars(spot) && SortedBars(futures)
    ensures BasisCheck(side, ts, ClosedBefore(spot, ts), ClosedBefore(futures, ts))
         == BasisCheck(side, ts, spot, futures)
  {
    var n := ClosedIsPrefix(spot, ts);
    var m := ClosedIsPrefix(futures, ts);
  }

  lemma CvdKnown(side: Side, ts: int, bars: seq<Bar>)
    requires SortedBars(bars)
    ensures CvdCheck(side, ts, ClosedBefore(bars, ts)) == CvdCheck(side, ts, bars)
  {
    hide ClosedBefore, LastClosed, CvdVerdict;
    var n := ClosedIsPrefix(bars, ts);
    if n >= CVD_WINDOW { assert bars[..n][n - CVD_WINDOW..n] == bars[n - CVD_WINDOW..n]; }
  }

  // ---------- no lookahead of the chain ----------

  lemma BeforeFlowKnown(a: Ask, m: Market)
    requires Sorted(m)
    ensures BeforeFlow(a, Known(m, a.ts)) == BeforeFlow(a, m)
  {
    VolatilityKnown(m.bars15m, a.ts);
    OiDeltaKnown(m.oi, a.ts);
    BasisKnown(a.side, a.ts, m.spot, m.futures);
    TopLsKnown(a.side, m.ls, a.ts);
  }

  /** The flow filter reads a list of its own that has bars, but none closed yet, while the spot list has some. */
  predicate FallbackSwitches(a: Ask, m: Market) {
    m.bars1h != [] && ClosedBefore(m.bars1h, a.ts) == [] && ClosedBefore(m.spot, a.ts) != []
  }

  /**
   The verdict and its rule at a time are those on the market as it was known then, if and only if the fallback does
   not switch lists, or an earlier filter decides anyway, or the spot list would not be blocked either.
   */
  lemma NoLookaheadIff(a: Ask, m: Market)
    requires Sorted(m)
    ensures Run(a, Known(m, a.ts)) == Run(a, m)
       <==> !FallbackSwitches(a, m) || BeforeFlow(a, m).Some? || CvdCheck(a.side, a.ts, m.spot).allowed
  {
    BeforeFlowKnown(a, m);
    CvdKnown(a.side, a.ts, m.spot);
    CvdKnown(a.side, a.ts, m.bars1h);
    hide CvdCheck, BeforeFlow, ClosedBefore;
    NothingClosed(a.side, a.ts);
  }

  lemma NothingClosed(side: Side, ts: int)
    ensures CvdCheck(side, ts, []).allowed
  {
  }

  /** With the flow filter reading the spot list, as the replay passes it, the chain never looks ahead. */
  lemma NoLookahead(a: Ask, m: Market)
    requires Sorted(m) && (m.bars1h == m.spot || m.bars1h == [])
    ensures Run(a, Known(m, a.ts)) == Run(a, m)
  {
    NoLookaheadIff(a, m);
  }

  /** Two worlds that differ only in what is not yet known get the same verdict. */
  lemma FutureDoesNotMatter(a: Ask, m: Market, n: Market)
    requires Sorted(m) && Sorted(n) && Known(m, a.ts) == Known(n, a.ts)
    requires (m.bars1h == m.spot || m.bars1h == []) && (n.bars1h == n.spot || n.bars1h == [])
    ensures Run(a, m) == Run(a, n)
  {
    NoLookahead(a, m);
    NoLookahead(a, n);
  }

  const SOLD := Bar(0, 1.0, 1.0, 1.0, 0.0, 200.0)

  /** A market on which the fallback does look ahead: one hourly bar still open, four closed spot bars of selling. */
  lemma FallbackLeaks() returns (a: Ask, m: Market)
    ensures Sorted(m) && Run(a, m) == Check(true, AllPassed) && Run(a, Known(m, a.ts)) != Run(a, m)
  {
    a := Ask("BTC", Long, 10, 0.0, [], "large_move", "", "");
    m := Market([], [], [SOLD, SOLD, SOLD, SOLD], [], [], [SOLD.(closeTime := 20)]);
    NothingBefore(a, m);
    SellingBlocks(SOLD);
    AllClosed(m.spot, 10);
    hide BeforeFlow, CvdVerdict;
    assert m.bars1h[..0] == [];
    assert LastClosed(m.bars1h, 10) == None && ClosedBefore(m.bars1h, 10) == [];
    NoLookaheadIff(a, m);
  }

  lemma NothingBefore(a: Ask, m: Market)
    requires a.signalType == "large_move" && a.regimeStrategy == "" && a.regime == ""
    requires a.symbol == "BTC" && a.held == []
    requires m.bars15m == [] && m.oi == [] && m.futures == [] && m.ls == []
    ensures BeforeFlow(a, m).None?
  {
    assert "large_move"[0] != "stable_flow"[0] && "large_move"[0] != "chain_flow"[0];
    assert "large_move"[0] != "funding_carry"[0];
  }

  lemma SellingBlocks(sold: Bar)
    requires sold == Bar(0, 1.0, 1.0, 1.0, 0.0, 200.0)
    ensures CvdCheck(Long, 10, [sold, sold, sold, sold]) == Check(false, CvdFlow)
  {
    var window := [sold, sold, sold, sold];
    assert window[0..4] == window && HasTaker(window);
    assert window[..3] == [sold, sold, sold] && [sold, sold, sold][..2] == [sold, sold];
    assert [sold, sold][..1] == [sold] && [sold][..0] == [];
    assert FlowSum([sold]) == -200.0;
    assert FlowSum([sold, sold]) == -400.0;
    assert FlowSum([sold, sold, sold]) == -600.0;
    assert FlowSum(window) == -800.0;
  }

  // ---------- the loops ----------

  method FindLastClosed(bars: seq<Bar>, ts: int) returns (k: Option<nat>)
    ensures k == LastClosed(bars, ts)
  {
    var i := |bars|;
    assert bars[..i] == bars;
    while i > 0
      invariant 0 <= i <= |bars| && LastClosed(bars[..i], ts) == LastClosed(bars, ts)
    {
      assert bars[..i][..i - 1] == bars[..i - 1];
      if bars[i - 1].closeTime < ts {
        return Some(i - 1);
      }
      i := i - 1;
    }
    return None;
  }

  method RunVolatility(bars: seq<Bar>, ts: int) returns (c: Check)
    ensures c == VolatilityCheck(bars, ts)
  {
    var k := FindLastClosed(bars, ts);
    if k.None? || k.value < ATR_LOOKBACK {
      return Check(true, Volatility);
    }
    var idx, sum := k.value, 0.0;
    for i := idx - ATR_LOOKBACK + 1 to idx + 1
      invariant sum + RangeSum(bars, idx, idx + 1 - i) == RangeSum(bars, idx, ATR_LOOKBACK)
    {
      sum := sum + TrueRange(bars[i], bars[i - 1].close);
    }
    if bars[idx].close <= 0.0 {
      return Check(true, Volatility);
    }
    var atr := sum / 14.0 / bars[idx].close;
    return Check(!(atr < 0.005) && !(atr > 0.08), Volatility);
  }

  /** The forward scan over open-interest rows, which stops at the first row after the time. */
  method RunOiDelta(side: Side, ts: int, rows: seq<Row>) returns (c: Check)
    ensures c == OiDeltaCheck(ts, rows)
  {
    var cur: Option<Row>, past: Option<Row>, i := None, None, 0;
    while i < |rows|
      invariant 0 <= i <= |rows| && Leading(rows[..i], ts) == i
      invariant cur == (if i == 0 then None else Some(rows[i - 1])) && past == LastDated(rows[..i], ts - HOUR_MS)
    {
      assert rows[..i + 1][..i] == rows[..i];
      if rows[i].timestamp > ts {
        break;
      }
      if rows[i].timestamp <= ts - HOUR_MS {
        past := Some(rows[i]);
      }
      cur := Some(rows[i]);
      i := i + 1;
    }
    ScanStops(rows, ts, i);
    if cur.None? || past.None? || past.value.value <= 0.0 {
      return Check(true, OiDelta);
    }
    var change := (cur.value.value - past.value.value) / past.value.value;
    if Abs(change) < 0.03 {
      return Check(false, OiDelta);
    }
    if side.Long? && change < 0.0 {
      return Check(false, OiDelta);
    }
    if side.Short? && change < 0.0 {
      return Check(false, OiDelta);
    }
    return Check(true, OiDelta);
  }

  lemma {:induction false} ScanStops(rows: seq<Row>, ts: int, i: nat)
    requires i <= |rows| && Leading(rows[..i], ts) == i && (i < |rows| ==> rows[i].timestamp > ts)
    ensures Leading(rows, ts) == i
    decreases |rows|
  {
    if i == |rows| {
      assert rows[..i] == rows;
    } else {
      assert rows[..|rows| - 1][..i] == rows[..i];
      ScanStops(rows[..|rows| - 1], ts, i);
    }
  }

  method RunTopLs(side: Side, ts: int, rows: seq<Row>) returns (c: Check)
    ensures c == TopLsCheck(side, ts, rows)
  {
    var cur: Option<Row>, i := None, 0;
    while i < |rows|
      invariant 0 <= i <= |rows| && Leading(rows[..i], ts) == i
      invariant cur == if i == 0 then None else Some(rows[i - 1])
    {
      assert rows[..i + 1][..i] == rows[..i];
      if rows[i].timestamp > ts {
        break;
      }
      cur := Some(rows[i]);
      i := i + 1;
    }
    ScanStops(rows, ts, i);
    return TopLsVerdict(side, cur);
  }

  method RunBasis(side: Side, ts: int, spot: seq<Bar>, futures: seq<Bar>) returns (c: Check)
    ensures c == BasisCheck(side, ts, spot, futures)
  {
    var s := FindLastClosed(spot, ts);
    var f := FindLastClosed(futures, ts);
    return BasisVerdict(side, CloseAt(spot, s), CloseAt(futures, f));
  }

  method RunCvd(side: Side, ts: int, bars: seq<Bar>) returns (c: Check)
    ensures c == CvdCheck(side, ts, bars)
  {
    var k := FindLastClosed(bars, ts);
    if k.None? || k.value < CVD_WINDOW - 1 {
      return Check(true, CvdFlow);
    }
    var window := bars[k.value - CVD_WINDOW + 1..k.value + 1];
    hide Flow;
    var cvd, sawTaker := 0.0, false;
    for i := 0 to |window|
      invariant cvd == FlowSum(window[..i]) && sawTaker == HasTaker(window[..i])
    {
      assert window[..i + 1][..i] == window[..i];
      if window[i].takerBuy > 0.0 || window[i].takerSell > 0.0 {
        sawTaker := true;
      }
      cvd := cvd + Flow(window[i]);
    }
    assert window[..|window|] == window;
    if !sawTaker {
      return Check(true, CvdFlow);
    }
    return Check(if side.Long? then !(cvd < -500.0) else !(cvd > 500.0), CvdFlow);
  }

  /** The chain: the regime gate, the bypasses, then every filter, and the first block decides. */
  method RunOfflineFilters(a: Ask, m: Market) returns (c: Check)
    ensures c == Run(a, m) == Decision(a, m)
  {
    RunMeans(a, m);
    hide Decision;
    var regime := RegimeCheck(if a.regimeStrategy != "" then a.regimeStrategy else a.signalType, a.regime);
    if !regime.allowed {
      return regime;
    }
    if "stable_flow" <= a.signalType {
      return Check(true, StableFlowBypass);
    }
    if "chain_flow" <= a.signalType {
      return Check(true, ChainFlowBypass);
    }
    if "funding_carry" <= a.signalType {
      return Check(true, FundingCarryBypass);
    }
    var volatility := RunVolatility(m.bars15m, a.ts);
    var oi := RunOiDelta(a.side, a.ts, m.oi);
    var basis := RunBasis(a.side, a.ts, m.spot, m.futures);
    var topLs := RunTopLs(a.side, a.ts, m.ls);
    var flow := RunCvd(a.side, a.ts, FlowBars(m));
    var early := [TimeOfDayCheck(a.symbol, a.ts, a.fundingRate), CorrelationCheck(a.symbol, a.held), volatility, oi,
                  basis, topLs];
    var checks := early + [flow];
    hide FirstBlock, TimeOfDayCheck, CorrelationCheck, VolatilityCheck, OiDeltaCheck, BasisCheck, TopLsCheck, CvdCheck;
    AppendBlock(early, flow);
    var block := FindFirstBlock(checks);
    return if block.Some? then block.value else Check(true, AllPassed);
  }

  lemma AppendBlock(checks: seq<Check>, c: Check)
    ensures FirstBlock(checks + [c]) ==
            if FirstBlock(checks).Some? then FirstBlock(checks) else if c.allowed then None else Some(c)
  {
    assert (checks + [c])[..|checks|] == checks;
  }

  method FindFirstBlock(checks: seq<Check>) returns (r: Option<Check>)
    ensures r == FirstBlock(checks)
  {
    for i := 0 to |checks|
      invariant FirstBlock(checks[..i]).None?
    {
      assert checks[..i + 1][..i] == checks[..i];
      if !checks[i].allowed {
        BlockStays(checks, i);
        return Some(checks[i]);
      }
    }
    assert checks[..|checks|] == checks;
    return None;
  }

  lemma {:induction false} BlockStays(checks: seq<Check>, i: nat)
    requires i < |checks| && FirstBlock(checks[..i]).None? && !checks[i].allowed
    ensures FirstBlock(checks) == Some(checks[i])
    decreases |checks|
  {
    if i < |checks| - 1 {
      assert checks[..|checks| - 1][..i] == checks[..i];
      BlockStays(checks[..|checks| - 1], i);
    }
  }
}
