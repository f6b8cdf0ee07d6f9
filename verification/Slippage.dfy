/** The square-root market-impact model of a fill, and the worst net result of a simulated trade. */
module Slippage {
  import opened BarReplay
  import opened Reals
  import opened TrailingStop

  const BASE_BPS := 2.0
  const IMPACT_COEF_LIQUID := 0.5
  const IMPACT_COEF_THIN := 1.5
  const THIN_VOLUME_USD := 20000000.0
  const MAX_SLIPPAGE_BPS := 200.0
  const TAKER_FEE_PER_SIDE := 0.0004

  function TurnoverUsd(bars: seq<Bar>): real {
    if bars == [] then 0.0
    else TurnoverUsd(bars[..|bars| - 1]) + bars[|bars| - 1].close * bars[|bars| - 1].volume
  }

  /** The turnover of at most 24 bars, all of them strictly before idx. */
  function TrailingVolume(bars: seq<Bar>, idx: nat): real
    requires idx <= |bars|
  {
    TurnoverUsd(bars[if idx <= 24 then 0 else idx - 24..idx])
  }

  /** Turnover adds up, and that of one bar is its close times its volume. */
  lemma {:induction false} TurnoverMeans(a: seq<Bar>, b: seq<Bar>)
    ensures TurnoverUsd(a + b) == TurnoverUsd(a) + TurnoverUsd(b)
    ensures |b| == 1 ==> TurnoverUsd(b) == b[0].close * b[0].volume
    decreases |b|
  {
    if b == [] {
      assert a + b == a;
    } else {
      TurnoverMeans(a, b[..|b| - 1]);
      assert (a + b)[..|a + b| - 1] == a + b[..|b| - 1];
    }
  }

  method Avg24hVolumeUsd(bars: seq<Bar>, idx: nat) returns (total: real)
    requires idx <= |bars|
    ensures total == TrailingVolume(bars, idx)
  {
    total := 0.0;
    if idx == 0 {
      return;
    }
    var lookBack := if idx < 24 then idx else 24;
    var start := idx - lookBack;
    var window := bars[start..idx];
    var i := 0;
    while i < |window|
      invariant 0 <= i <= |window|
      invariant total == TurnoverUsd(window[..i])
    {
      assert window[..i + 1][..i] == window[..i];
      total := total + window[i].close * window[i].volume;
      i := i + 1;
    }
    assert window[..i] == window;
  }

  /** Slippage of one leg in basis points; root is the square root of size / volume. */
  function SlippageBps(size: real, volume: real, root: real): real {
    if size <= 0.0 then 0.0
    else if volume <= 0.0 then Min(MAX_SLIPPAGE_BPS, BASE_BPS + IMPACT_COEF_THIN * 10000.0)
    else Min(MAX_SLIPPAGE_BPS,
                 BASE_BPS + (if volume >= THIN_VOLUME_USD then IMPACT_COEF_LIQUID else IMPACT_COEF_THIN)
                            * root * 10000.0)
  }

  ghost predicate IsRoot(root: real, x: real) { root >= 0.0 && root * root == x }

  lemma SquareStrict(q: real, r: real)
    requires 0.0 <= q < r
    ensures q * q < r * r
  {
    Positive(r - q, r + q);
    assert (r - q) * (r + q) == r * r - q * q;
  }

  lemma RootMonotone(r: real, q: real)
    requires r >= 0.0 && q >= 0.0 && r * r <= q * q
    ensures r <= q
  {
    if r > q { SquareStrict(q, r); }
  }

  lemma RatioMonotone(size: real, volume: real, size': real, volume': real)
    requires 0.0 < size <= size' && 0.0 < volume' <= volume
    ensures size / volume <= size' / volume'
  {
    var a, b := size / volume, size' / volume';
    assert a * volume == size && b * volume' == size';
    if a > b {
      DivMonotone(0.0, size', volume');
      MulMonotone(volume', volume, b);
      MulStrict(b, a, volume);
    }
  }

  /** A larger order in a thinner market never pays less, and nobody pays more than the cap or earns slippage. */
  lemma SlippageMonotone(size: real, volume: real, root: real, size': real, volume': real, root': real)
    requires 0.0 < size <= size' && volume' <= volume
    requires volume > 0.0 ==> IsRoot(root, size / volume)
    requires volume' > 0.0 ==> IsRoot(root', size' / volume')
    ensures BASE_BPS <= SlippageBps(size, volume, root) <= SlippageBps(size', volume', root') <= MAX_SLIPPAGE_BPS
  {
    if volume' > 0.0 {
      RatioMonotone(size, volume, size', volume');
      RootMonotone(root, root');
    }
  }

  /**
   The square-root law without the root: below the cap, the slippage over its base of 2 is 5000 or, in markets of less
   than 20 million a day, 15000 times the root of size over volume; it is capped at 200 exactly where that exceeds it.
   */
  lemma SlippageMeans(size: real, volume: real, root: real)
    requires volume > 0.0 ==> IsRoot(root, size / volume)
    ensures var bps := SlippageBps(size, volume, root);
            var k := if volume >= 20000000.0 then 5000.0 else 15000.0;
            && (size <= 0.0 ==> bps == 0.0) && (size > 0.0 && volume <= 0.0 ==> bps == 200.0)
            && (size > 0.0 && volume > 0.0 ==>
                  && 2.0 <= bps <= 200.0
                  && (bps < 200.0 <==> k * k * size < 198.0 * 198.0 * volume)
                  && (bps < 200.0 ==> (bps - 2.0) * (bps - 2.0) * volume == k * k * size))
  {
    if size > 0.0 && volume > 0.0 {
      var k := if volume >= 20000000.0 then 5000.0 else 15000.0;
      SquareOfMultiple(k, root, size, volume);
      if k * root < 198.0 {
        SquareStrict(k * root, 198.0);
        MulStrict(k * root * (k * root), 198.0 * 198.0, volume);
      } else {
        RootOrder(198.0, k * root);
        MulMonotone(198.0 * 198.0, k * root * (k * root), volume);
      }
    }
  }

  lemma SquareOfMultiple(k: real, root: real, size: real, volume: real)
    requires volume > 0.0 && IsRoot(root, size / volume) && k > 0.0
    ensures k * root >= 0.0 && k * root * (k * root) * volume == k * k * size
  {
    var x := size / volume;
    assert x * volume == size;
    assert k * root * (k * root) == k * k * (root * root);
    assert k * k * x * volume == k * k * (x * volume);
  }

  lemma RootOrder(q: real, r: real)
    requires 0.0 <= q <= r
    ensures q * q <= r * r
  {
    if q < r { SquareStrict(q, r); }
  }

  lemma SlippageBounds(size: real, volume: real, root: real)
    requires size > 0.0 && volume > 0.0 ==> root >= 0.0
    ensures 0.0 <= SlippageBps(size, volume, root) <= MAX_SLIPPAGE_BPS
  {
  }

  // ---------- one simulated trade ----------

  /** An entry pays slippage against the position. */
  function EntryFill(side: Side, price: real, bps: real): real {
    if side.Long? then price * (1.0 + bps / 10000.0) else price * (1.0 - bps / 10000.0)
  }

  function ExitFill(side: Side, price: real, bps: real): real {
    if side.Long? then price * (1.0 - bps / 10000.0) else price * (1.0 + bps / 10000.0)
  }

  /** Gross result of the filled quantity less the taker fee on both notionals. */
  function NetPnl(side: Side, size: real, entry: real, exit: real): real
    requires entry != 0.0
  {
    var qty := size / entry;
    var gross := if side.Long? then (exit - entry) * qty else (entry - exit) * qty;
    gross - (entry * qty * TAKER_FEE_PER_SIDE + exit * qty * TAKER_FEE_PER_SIDE)
  }

  /** The net result in units of the size, as a function of the exit notional per unit of size. */
  function ReturnAt(side: Side, ratio: real): real {
    if side.Long? then ratio * (1.0 - TAKER_FEE_PER_SIDE) - 1.0 - TAKER_FEE_PER_SIDE
    else 1.0 - TAKER_FEE_PER_SIDE - ratio * (1.0 + TAKER_FEE_PER_SIDE)
  }

  /** The worst exit ratio: stopped at the hard stop and filled at the slippage cap. */
  function WorstRatio(side: Side, stopPct: real): real {
    HardFraction(side, stopPct) * (if side.Long? then 0.98 else 1.02)
  }

  function WorstReturn(side: Side, stopPct: real): real {
    ReturnAt(side, WorstRatio(side, stopPct))
  }

  lemma NetPnlIsReturn(side: Side, size: real, entry: real, exit: real)
    requires entry > 0.0
    ensures NetPnl(side, size, entry, exit) == size * ReturnAt(side, exit / entry)
  {
    var qty, ratio := size / entry, exit / entry;
    assert qty * entry == size;
    assert ratio * entry == exit;
    assert exit * qty == ratio * size by {
      assert exit * qty == ratio * entry * qty;
      assert ratio * entry * qty == ratio * (qty * entry);
    }
    assert entry * qty == size;
    assert (exit - entry) * qty == exit * qty - entry * qty;
    assert (entry - exit) * qty == entry * qty - exit * qty;
    assert size * ReturnAt(side, ratio) ==
           if side.Long? then ratio * size * (1.0 - TAKER_FEE_PER_SIDE) - size * (1.0 + TAKER_FEE_PER_SIDE)
           else size * (1.0 - TAKER_FEE_PER_SIDE) - ratio * size * (1.0 + TAKER_FEE_PER_SIDE);
  }

  /** A fill is moved against the trade by its basis points: a long buys higher and sells lower, a short the reverse. */
  lemma FillMeans(side: Side, price: real, bps: real)
    ensures 10000.0 * (EntryFill(side, price, bps) - price) == if side.Long? then price * bps else -price * bps
    ensures 10000.0 * (ExitFill(side, price, bps) - price) == if side.Long? then -price * bps else price * bps
  {
    assert bps / 10000.0 * 10000.0 == bps;
  }

  /** The net result is the size times the relative price difference, less 0.04% of both notionals. */
  lemma NetPnlMeans(side: Side, size: real, entry: real, exit: real)
    requires entry > 0.0
    ensures 10000.0 * (NetPnl(side, size, entry, exit) * entry)
         == 10000.0 * (size * (if side.Long? then exit - entry else entry - exit)) - 4.0 * (size * (entry + exit))
  {
    var qty := size / entry;
    assert qty * entry == size;
    NotionalSum(side, size, entry, exit, qty);
  }

  lemma NotionalSum(side: Side, size: real, entry: real, exit: real, qty: real)
    requires qty * entry == size
    ensures var gross := if side.Long? then (exit - entry) * qty else (entry - exit) * qty;
            && gross * entry == size * (if side.Long? then exit - entry else entry - exit)
            && (entry * qty + exit * qty) * entry == size * (entry + exit)
  {
    assert (exit - entry) * qty * entry == (exit - entry) * (qty * entry);
    assert (entry - exit) * qty * entry == (entry - exit) * (qty * entry);
    assert (entry * qty + exit * qty) * entry == (entry + exit) * (qty * entry);
  }

  lemma CappedFill(t: Terms, price: real, bps: real)
    requires t.Valid() && NoWorseThanStop(t, price) && 0.0 <= bps <= MAX_SLIPPAGE_BPS
    requires t.side.Short? ==> t.HardStop() > 0.0
    ensures AtLeastAsGood(t.side, ExitFill(t.side, price, bps) / t.entry, WorstRatio(t.side, t.stopPct))
  {
    var hard, slip := t.HardStop(), bps / 10000.0;
    assert 0.0 <= slip <= 0.02;
    if t.side.Long? {
      LongFill(price, hard, 1.0 - slip);
    } else {
      ShortFill(price, hard, 1.0 + slip);
    }
    RatioBound(t.side, ExitFill(t.side, price, bps), t.entry, HardFraction(t.side, t.stopPct),
               if t.side.Long? then 0.98 else 1.02);
  }

  lemma LongFill(price: real, hard: real, u: real)
    requires price > 0.0 && price >= hard && u >= 0.98
    ensures price * u >= hard * 0.98
  {
    MulMonotone(0.98, u, price);
  }

  lemma ShortFill(price: real, hard: real, u: real)
    requires hard > 0.0 && price <= hard && 0.0 < u <= 1.02
    ensures price * u <= hard * 1.02
  {
    MulMonotone(price, hard, u);
    MulMonotone(u, 1.02, hard);
  }

  lemma RatioBound(side: Side, fill: real, entry: real, h: real, k: real)
    requires entry > 0.0 && AtLeastAsGood(side, fill, entry * h * k)
    ensures AtLeastAsGood(side, fill / entry, h * k)
  {
    Regroup(entry, h, k);
    Divided(side, fill, entry, h * k);
  }

  lemma Divided(side: Side, fill: real, entry: real, worst: real)
    requires entry > 0.0 && AtLeastAsGood(side, fill, entry * worst)
    ensures AtLeastAsGood(side, fill / entry, worst)
  {
    var r := fill / entry;
    assert r * entry == fill;
    if side.Long? && r < worst { MulStrict(r, worst, entry); }
    if side.Short? && r > worst { MulStrict(worst, r, entry); }
  }

  /**
   The worst trade: on sane bars, with slippage at its cap and fees on both sides, a simulated trade
   returns at least (1-s)*0.98*(1-fee) - 1 - fee of its size for a long, and
   1 - fee - (1+s)*1.02*(1+fee) for a short.
   */
  lemma WorstTradeLoss(t: Terms, bars: seq<Bar>, entryIdx: nat, fastCut: bool, size: real, bps: real)
    requires t.Valid() && t.targetPct >= 0.0 && SaneBars(bars) && entryIdx < |bars|
    requires size > 0.0 && 0.0 <= bps <= MAX_SLIPPAGE_BPS
    ensures var exit := ExitFill(t.side, Simulated(t, bars, entryIdx, fastCut).price, bps);
            && NetPnl(t.side, size, t.entry, exit) >= size * WorstReturn(t.side, t.stopPct)
            && WorstReturn(t.side, t.stopPct) == if t.side.Long? then (1.0 - t.stopPct) * 0.98 * 0.9996 - 1.0004
                                                 else 0.9996 - (1.0 + t.stopPct) * 1.02 * 1.0004
  {
    NeverWorseThanHardStop(t, bars, entryIdx, fastCut);
    TargetBeyondStop(t);
    FillLoss(t, Simulated(t, bars, entryIdx, fastCut).price, size, bps);
  }

  lemma FillLoss(t: Terms, price: real, size: real, bps: real)
    requires t.Valid() && NoWorseThanStop(t, price) && (t.side.Short? ==> t.HardStop() > 0.0)
    requires size > 0.0 && 0.0 <= bps <= MAX_SLIPPAGE_BPS
    ensures NetPnl(t.side, size, t.entry, ExitFill(t.side, price, bps)) >= size * WorstReturn(t.side, t.stopPct)
  {
    CappedFill(t, price, bps);
    ReturnOrder(t.side, size, t.entry, ExitFill(t.side, price, bps), WorstRatio(t.side, t.stopPct));
  }

  lemma ReturnOrder(side: Side, size: real, entry: real, exit: real, worst: real)
    requires entry > 0.0 && size > 0.0 && AtLeastAsGood(side, exit / entry, worst)
    ensures NetPnl(side, size, entry, exit) >= size * ReturnAt(side, worst)
  {
    NetPnlIsReturn(side, size, entry, exit);
    ReturnMonotone(side, exit / entry, worst);
    MulMonotone(ReturnAt(side, worst), ReturnAt(side, exit / entry), size);
  }

  lemma ReturnMonotone(side: Side, a: real, b: real)
    requires AtLeastAsGood(side, a, b)
    ensures ReturnAt(side, a) >= ReturnAt(side, b)
  {
  }
}
