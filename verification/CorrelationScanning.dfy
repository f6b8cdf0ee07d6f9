/**
 The scanner that compares each symbol's hour with what the regression on the reference coin predicts: its bounded
 price and observation histories, one scan over a list of symbols, and the scores its signals can have.
 */
module CorrelationScanning {
  import opened Buffers
  import opened LeastSquares
  import opened Options
  import opened Reals
  import opened TrailingStop

  datatype Quote = Quote(ts: int, price: real)

  datatype Signal = Signal(symbol: string, side: Side, divergence: real, score: real)

  const BTC := "BTC"
  const BLACKLIST := {"EOS", "QTUM", "TRX", "LTC", "BNT", "NEO", "ATOM", "ADA", "ICX", "THETA"}
  const HOUR_MS := 3600000
  const MAX_QUOTES := 1440
  const KEPT := 200
  const MIN_OBSERVATIONS := 24
  const LONG_THRESHOLD := -0.08
  const SHORT_THRESHOLD := 0.065

  // ---------- the hourly return ----------

  /** The last quote, in the order of arrival, at or before a time. */
  function LastAtOrBefore(h: seq<Quote>, target: int): (k: Option<nat>)
    ensures k.Some? ==> k.value < |h| && h[k.value].ts <= target
                        && forall j :: k.value < j < |h| ==> h[j].ts > target
    ensures k.None? ==> forall j :: 0 <= j < |h| ==> h[j].ts > target
  {
    if h == [] then None
    else if h[|h| - 1].ts <= target then Some(|h| - 1)
    else LastAtOrBefore(h[..|h| - 1], target)
  }

  function Change(past: real, current: real): Option<real> {
    if past == 0.0 then None else Some((current - past) / past)
  }

  function HourlyReturn(h: seq<Quote>, now: int): Option<real> {
    if |h| < 2 then None
    else
      match LastAtOrBefore(h, now - HOUR_MS)
      case None => None
      case Some(k) => Change(h[k].price, h[|h| - 1].price)
  }

  /** The hourly return without the division: from the last quote an hour old, if it has a price, to the latest one. */
  lemma ReturnMeans(h: seq<Quote>, now: int, k: nat)
    requires |h| >= 2 && k < |h| && h[k].ts <= now - 3600000 && forall j :: k < j < |h| ==> h[j].ts > now - 3600000
    ensures HourlyReturn(h, now).Some? <==> h[k].price != 0.0
    ensures HourlyReturn(h, now).Some? ==> HourlyReturn(h, now).value * h[k].price == h[|h| - 1].price - h[k].price
  {
    assert LastAtOrBefore(h, now - HOUR_MS) == Some(k);
    if h[k].price != 0.0 {
      Undivide(h[|h| - 1].price - h[k].price, h[k].price, (h[|h| - 1].price - h[k].price) / h[k].price);
    }
  }

  lemma {:induction false} LastOfSuffix(h: seq<Quote>, cut: nat, target: int)
    requires cut <= |h|
    ensures LastAtOrBefore(h[cut..], target).Some? ==>
              LastAtOrBefore(h, target) == Some(cut + LastAtOrBefore(h[cut..], target).value)
    ensures LastAtOrBefore(h[cut..], target).None? ==> LastAtOrBefore(h, target) == LastAtOrBefore(h[..cut], target)
    decreases |h|
  {
    if cut < |h| {
      assert h[cut..][..|h| - cut - 1] == h[..|h| - 1][cut..];
      assert h[..|h| - 1][..cut] == h[..cut];
      LastOfSuffix(h[..|h| - 1], cut, target);
    } else {
      assert h[..cut] == h;
    }
  }

  /** A return found in the bounded history is the return over the whole one; a missing one may be due to the bound. */
  lemma BoundedReturnIsExact(log: seq<Quote>, now: int)
    requires HourlyReturn(LastN(log, MAX_QUOTES), now).Some?
    ensures HourlyReturn(log, now) == HourlyReturn(LastN(log, MAX_QUOTES), now)
  {
    if |log| > MAX_QUOTES {
      LastOfSuffix(log, |log| - MAX_QUOTES, now - HOUR_MS);
    }
  }

  /**
   With quotes in time order the bounded history gives the return of the whole one exactly when it reaches back an
   hour, or has dropped nothing, or there is no return at all.
   */
  lemma BoundedReturnIff(log: seq<Quote>, now: int)
    requires forall i, j :: 0 <= i < j < |log| ==> log[i].ts <= log[j].ts
    ensures HourlyReturn(LastN(log, MAX_QUOTES), now) == HourlyReturn(log, now) <==>
            |log| <= MAX_QUOTES || log[|log| - MAX_QUOTES].ts <= now - HOUR_MS || HourlyReturn(log, now).None?
  {
    if |log| > MAX_QUOTES {
      var ring, cut, target := LastN(log, MAX_QUOTES), |log| - MAX_QUOTES, now - HOUR_MS;
      assert ring == log[cut..] && ring[0] == log[cut] && ring[|ring| - 1] == log[|log| - 1];
      LastOfSuffix(log, cut, target);
      if log[cut].ts > target {
        assert forall i :: 0 <= i < |ring| ==> ring[i] == log[cut + i] && ring[i].ts > target;
      } else {
        assert LastAtOrBefore(ring, target).Some?;
      }
    }
  }

  // ---------- one symbol ----------

  /** The signal a history of observations gives for its latest one. */
  function SignalOf(symbol: string, h: seq<Obs>): Option<Signal>
    requires h != []
  {
    var last := h[|h| - 1];
    if |h| < MIN_OBSERVATIONS then None
    else
      match Fit(h)
      case None => None
      case Some(line) =>
        var divergence := last.y - line.At(last.x);
        if divergence < LONG_THRESHOLD then
          Some(Signal(symbol, Long, divergence, Min(80.0, 50.0 + Min(30.0, -divergence * 400.0))))
        else if divergence > SHORT_THRESHOLD then
          Some(Signal(symbol, Short, divergence, Min(78.0, 48.0 + Min(28.0, divergence * 350.0))))
        else None
  }

  /** Every long signal scores exactly 80; short scores lie above 70.75 and never reach their cap of 78. */
  lemma ScoresAreNarrow(symbol: string, h: seq<Obs>)
    requires h != [] && SignalOf(symbol, h).Some?
    ensures SignalOf(symbol, h).value.side.Long? ==> SignalOf(symbol, h).value.score == 80.0
    ensures SignalOf(symbol, h).value.side.Short? ==> 70.75 < SignalOf(symbol, h).value.score <= 76.0
  {
    hide Fit;
  }

  /**
   Exactly when a history gives a signal: a day of observations, a line through them, and the latest one at least 8%
   below it, for a long of score 80, or 6.5% above it, for a short whose score grows from 48 by 3.5 a percent to 76.
   */
  lemma SignalMeans(symbol: string, h: seq<Obs>, g: Signal)
    requires h != []
    ensures SignalOf(symbol, h) == Some(g) <==>
            && |h| >= 24 && Fit(h).Some? && g.symbol == symbol
            && g.divergence == h[|h| - 1].y - (Fit(h).value.alpha + Fit(h).value.beta * h[|h| - 1].x)
            && if g.side.Long? then 100.0 * g.divergence < -8.0 && g.score == 80.0
               else && 1000.0 * g.divergence > 65.0
                    && g.score == if 100.0 * g.divergence >= 8.0 then 76.0 else 48.0 + 350.0 * g.divergence
  {
    hide Fit;
    if |h| >= 24 && Fit(h).Some? {
      var divergence := h[|h| - 1].y - Fit(h).value.At(h[|h| - 1].x);
      assert divergence == h[|h| - 1].y - (Fit(h).value.alpha + Fit(h).value.beta * h[|h| - 1].x);
      hide Line.At;
      ScoreMeans(divergence);
    }
  }

  /** The scores of the two thresholds: a long's is always at its cap, a short's is capped from 8% on. */
  lemma ScoreMeans(divergence: real)
    ensures divergence < LONG_THRESHOLD ==> Min(80.0, 50.0 + Min(30.0, -divergence * 400.0)) == 80.0
    ensures divergence > SHORT_THRESHOLD ==>
              Min(78.0, 48.0 + Min(28.0, divergence * 350.0))
              == if 100.0 * divergence >= 8.0 then 76.0 else 48.0 + 350.0 * divergence
  {
  }

  /** A symbol that has always followed the reference coin exactly gives no signal. */
  lemma NoSignalOnALine(symbol: string, h: seq<Obs>, m: Line)
    requires h != [] && forall i :: 0 <= i < |h| ==> h[i].y == m.At(h[i].x)
    ensures SignalOf(symbol, h).None?
  {
    if Fit(h).Some? {
      ExactOnALine(h, m);
    }
  }

  /** A signal is the residual of the latest observation from the line no other line fits better. */
  lemma SignalFromLeastSquares(symbol: string, h: seq<Obs>, m: Line)
    requires h != [] && SignalOf(symbol, h).Some?
    ensures Fit(h).Some? && SignalOf(symbol, h).value.divergence == Residual(h[|h| - 1], Fit(h).value)
    ensures SquaredResiduals(h, Fit(h).value) <= SquaredResiduals(h, m)
  {
    FitIsTheLeastSquaresLine(h, m);
    hide Fit, SquaredResiduals;
  }

  // ---------- one scan ----------

  predicate Scanned(quotes: map<string, seq<Quote>>, symbol: string, now: int) {
    symbol !in BLACKLIST && symbol != BTC && ReturnOf(quotes, symbol, now).Some?
  }

  function QuotesOf(quotes: map<string, seq<Quote>>, symbol: string): seq<Quote> {
    if symbol in quotes then quotes[symbol] else []
  }

  function ReturnOf(quotes: map<string, seq<Quote>>, symbol: string, now: int): Option<real> {
    HourlyReturn(QuotesOf(quotes, symbol), now)
  }

  function ObservedOf(observed: map<string, seq<Obs>>, symbol: string): seq<Obs> {
    if symbol in observed then observed[symbol] else []
  }

  /** All observations, without a bound, after scanning some symbols in order. */
  function AfterScan(observed: map<string, seq<Obs>>, quotes: map<string, seq<Quote>>, symbols: seq<string>, x: real,
                     now: int): map<string, seq<Obs>>
  {
    if symbols == [] then observed
    else
      var before, s := AfterScan(observed, quotes, symbols[..|symbols| - 1], x, now), symbols[|symbols| - 1];
      if !Scanned(quotes, s, now) then before
      else before[s := ObservedOf(before, s) + [Obs(x, ReturnOf(quotes, s, now).value)]]
  }

  /** The signals of one scan, each from a regression over at most the 201 latest observations. */
  function Signals(observed: map<string, seq<Obs>>, quotes: map<string, seq<Quote>>, symbols: seq<string>, x: real,
                   now: int): seq<Signal>
  {
    if symbols == [] then []
    else
      var init, s := symbols[..|symbols| - 1], symbols[|symbols| - 1];
      var before := Signals(observed, quotes, init, x, now);
      if !Scanned(quotes, s, now) then before
      else
        match SignalOf(s, LastN(ObservedOf(AfterScan(observed, quotes, symbols, x, now), s), KEPT + 1))
        case None => before
        case Some(signal) => before + [signal]
  }

  /** A signal past its threshold, on a symbol that is listed and may be traded. */
  ghost predicate Earned(g: Signal, quotes: map<string, seq<Quote>>, symbols: seq<string>, now: int) {
    && g.symbol in symbols && Scanned(quotes, g.symbol, now) && g.symbol != "BTC"
    && g.symbol !in {"EOS", "QTUM", "TRX", "LTC", "BNT", "NEO", "ATOM", "ADA", "ICX", "THETA"}
    && if g.side.Long? then g.divergence < LONG_THRESHOLD && g.score == 80.0
       else g.divergence > SHORT_THRESHOLD && 70.75 < g.score <= 76.0
  }

  /** A scan signals only listed, tradable symbols with a return, past their thresholds, at most once an occurrence. */
  lemma {:induction false} SignalsAreEarned(observed: map<string, seq<Obs>>, quotes: map<string, seq<Quote>>,
                                            symbols: seq<string>, x: real, now: int)
    ensures |Signals(observed, quotes, symbols, x, now)| <= |symbols|
    ensures forall g :: g in Signals(observed, quotes, symbols, x, now) ==> Earned(g, quotes, symbols, now)
    decreases |symbols|
  {
    if symbols != [] {
      var init, s := symbols[..|symbols| - 1], symbols[|symbols| - 1];
      SignalsAreEarned(observed, quotes, init, x, now);
      assert symbols == init + [s];
      if Scanned(quotes, s, now) {
        var h := LastN(ObservedOf(AfterScan(observed, quotes, symbols, x, now), s), KEPT + 1);
        if SignalOf(s, h).Some? { SignalPastThreshold(s, h); }
      }
      hide SignalOf, LastN, AfterScan, Scanned;
    }
  }

  /** No signal is withheld: each listed place whose symbol is scanned and whose history gives a signal has it. */
  lemma {:induction false} SignalsAreComplete(observed: map<string, seq<Obs>>, quotes: map<string, seq<Quote>>,
                                              symbols: seq<string>, x: real, now: int, i: nat)
    requires i < |symbols| && Scanned(quotes, symbols[i], now)
    ensures ObservedOf(AfterScan(observed, quotes, symbols[..i + 1], x, now), symbols[i]) != []
    ensures var h := LastN(ObservedOf(AfterScan(observed, quotes, symbols[..i + 1], x, now), symbols[i]), 201);
            h != [] && (SignalOf(symbols[i], h).Some? ==>
                          SignalOf(symbols[i], h).value in Signals(observed, quotes, symbols, x, now))
    decreases |symbols|
  {
    hide SignalOf, ReturnOf, Scanned;
    var init := symbols[..|symbols| - 1];
    if i == |symbols| - 1 {
      assert symbols[..i + 1] == symbols;
    } else {
      assert init[..i + 1] == symbols[..i + 1] && init[i] == symbols[i];
      SignalsAreComplete(observed, quotes, init, x, now, i);
      hide AfterScan, LastN;
    }
  }

  lemma SignalPastThreshold(symbol: string, h: seq<Obs>)
    requires h != [] && SignalOf(symbol, h).Some?
    ensures var g := SignalOf(symbol, h).value;
            && g.symbol == symbol
            && if g.side.Long? then g.divergence < LONG_THRESHOLD && g.score == 80.0
               else g.divergence > SHORT_THRESHOLD && 70.75 < g.score <= 76.0
  {
    ScoresAreNarrow(symbol, h);
    hide Fit;
  }

  function Occurrences(symbols: seq<string>, s: string): nat {
    if symbols == [] then 0
    else Occurrences(symbols[..|symbols| - 1], s) + if symbols[|symbols| - 1] == s then 1 else 0
  }

  /** Every symbol gains one observation for each time it is listed, if it is scanned, and nothing otherwise. */
  lemma {:induction false} ObservationsGrow(observed: map<string, seq<Obs>>, quotes: map<string, seq<Quote>>,
                                            symbols: seq<string>, x: real, now: int, s: string)
    ensures var before, after := ObservedOf(observed, s), ObservedOf(AfterScan(observed, quotes, symbols, x, now), s);
            && |after| == |before| + (if Scanned(quotes, s, now) then Occurrences(symbols, s) else 0)
            && before <= after
            && forall i :: |before| <= i < |after| ==> after[i] == Obs(x, ReturnOf(quotes, s, now).value)
    decreases |symbols|
  {
    if symbols != [] {
      ObservationsGrow(observed, quotes, symbols[..|symbols| - 1], x, now, s);
      hide ReturnOf;
    }
  }

  ghost predicate Bounded(corr: map<string, seq<Obs>>, observed: map<string, seq<Obs>>) {
    corr.Keys == observed.Keys && forall s :: s in corr ==> corr[s] == LastN(observed[s], KEPT)
  }

  class CorrelationScanner {
    var priceHistory: map<string, seq<Quote>>
    var corrHistory: map<string, seq<Obs>>
    var lastScan: int
    ghost var quotes: map<string, seq<Quote>>
    ghost var observed: map<string, seq<Obs>>

    ghost predicate Valid()
      reads this
    {
      && priceHistory.Keys == quotes.Keys
      && (forall s :: s in quotes ==> priceHistory[s] == LastN(quotes[s], MAX_QUOTES))
      && Bounded(corrHistory, observed)
    }

    constructor ()
      ensures Valid() && quotes == map[] && observed == map[] && lastScan == 0
    {
      priceHistory, corrHistory, lastScan, quotes, observed := map[], map[], 0, map[], map[];
    }

    method UpdatePrice(symbol: string, price: real, ts: int)
      requires Valid()
      modifies this
      ensures Valid() && observed == old(observed) && lastScan == old(lastScan)
      ensures quotes == old(quotes)[symbol := QuotesOf(old(quotes), symbol) + [Quote(ts, price)]]
      ensures symbol in priceHistory && priceHistory[symbol] == LastN(quotes[symbol], 1440)
    {
      LastNAppend(QuotesOf(quotes, symbol), Quote(ts, price), MAX_QUOTES);
      var h := QuotesOf(priceHistory, symbol);
      priceHistory := priceHistory[symbol := LastN(h + [Quote(ts, price)], MAX_QUOTES)];
      quotes := quotes[symbol := QuotesOf(quotes, symbol) + [Quote(ts, price)]];
    }

    /** A return found in the stored quotes is the return over every quote ever fed. */
    lemma ReturnIsExact(symbol: string, now: int)
      requires Valid()
      ensures ReturnOf(priceHistory, symbol, now).Some? ==>
                ReturnOf(priceHistory, symbol, now) == ReturnOf(quotes, symbol, now)
    {
      if ReturnOf(priceHistory, symbol, now).Some? {
        assert HourlyReturn([], now) == None;
        BoundedReturnIsExact(QuotesOf(quotes, symbol), now);
      }
    }

    /** The backwards walk over the stored quotes. */
    method GetHourlyReturn(symbol: string, now: int) returns (r: Option<real>)
      ensures r == ReturnOf(priceHistory, symbol, now)
    {
      var h := QuotesOf(priceHistory, symbol);
      if |h| < 2 {
        return None;
      }
      var target, i := now - HOUR_MS, |h|;
      assert h[..i] == h;
      while i > 0
        invariant 0 <= i <= |h|
        invariant LastAtOrBefore(h, target) == LastAtOrBefore(h[..i], target)
      {
        assert h[..i][..i - 1] == h[..i - 1];
        if h[i - 1].ts <= target {
          return Change(h[i - 1].price, h[|h| - 1].price);
        }
        i := i - 1;
      }
      return None;
    }

    /** Every return found in the stored quotes is the return over every quote ever fed. */
    ghost predicate ExactReturns(now: int)
      reads this
    {
      forall s :: ReturnOf(priceHistory, s, now).Some? ==> ReturnOf(priceHistory, s, now) == ReturnOf(quotes, s, now)
    }

    /**
     At most one scan an hour; each scanned symbol gains one observation and may give one signal, on returns that are
     those over every quote ever fed.
     */
    method Scan(symbols: seq<string>, now: int) returns (signals: seq<Signal>)
      requires Valid()
      modifies this
      ensures Valid() && priceHistory == old(priceHistory) && quotes == old(quotes) && ExactReturns(now)
      ensures var x := ReturnOf(priceHistory, BTC, now);
              if now - old(lastScan) < HOUR_MS || x.None? then signals == [] && observed == old(observed)
              else && observed == AfterScan(old(observed), priceHistory, symbols, x.value, now)
                   && signals == Signals(old(observed), priceHistory, symbols, x.value, now)
      ensures lastScan == if now - old(lastScan) < HOUR_MS then old(lastScan) else now
      ensures |signals| <= |symbols| && forall g :: g in signals ==> Earned(g, priceHistory, symbols, now)
    {
      AllReturnsExact(now);
      hide Bounded, Earned, HourlyReturn, ReturnOf, AfterScan, Signals, LastN, SignalOf;
      signals := [];
      if now - lastScan < HOUR_MS {
        return;
      }
      lastScan := now;
      var btc := GetHourlyReturn(BTC, now);
      if btc.None? {
        return;
      }
      SignalsAreEarned(observed, priceHistory, symbols, btc.value, now);
      signals := ScanSymbols(symbols, btc.value, now);
    }

    /** The loop over the symbols, once the reference coin's return is known. */
    method ScanSymbols(symbols: seq<string>, x: real, now: int) returns (signals: seq<Signal>)
      requires Bounded(corrHistory, observed)
      modifies `corrHistory, `observed
      ensures Bounded(corrHistory, observed)
      ensures observed == AfterScan(old(observed), priceHistory, symbols, x, now)
      ensures signals == Signals(old(observed), priceHistory, symbols, x, now)
    {
      hide LastN, SignalOf, HourlyReturn, Bounded;
      signals := [];
      for i := 0 to |symbols|
        invariant Bounded(corrHistory, observed)
        invariant observed == AfterScan(old(observed), priceHistory, symbols[..i], x, now)
        invariant signals == Signals(old(observed), priceHistory, symbols[..i], x, now)
      {
        assert symbols[..i + 1][..i] == symbols[..i];
        if symbols[i] !in BLACKLIST && symbols[i] != BTC {
          var alt := GetHourlyReturn(symbols[i], now);
          if alt.Some? {
            var signal := Observe(symbols[i], Obs(x, alt.value));
            signals := if signal.Some? then signals + [signal.value] else signals;
          }
        }
      }
      assert symbols[..|symbols|] == symbols;
    }

    lemma AllReturnsExact(now: int)
      requires Valid()
      ensures ExactReturns(now)
    {
      forall s | ReturnOf(priceHistory, s, now).Some?
        ensures ReturnOf(priceHistory, s, now) == ReturnOf(quotes, s, now)
      {
        ReturnIsExact(s, now);
      }
    }

    /** Records one observation and judges it against the line through the history that includes it. */
    method Observe(symbol: string, o: Obs) returns (signal: Option<Signal>)
      requires Bounded(corrHistory, observed)
      modifies `corrHistory, `observed
      ensures Bounded(corrHistory, observed)
      ensures observed == old(observed)[symbol := ObservedOf(old(observed), symbol) + [o]]
      ensures signal == SignalOf(symbol, LastN(observed[symbol], KEPT + 1))
    {
      ghost var log := ObservedOf(observed, symbol);
      var h := ObservedOf(corrHistory, symbol) + [o];
      WindowIsSuffix(log, o);
      corrHistory := corrHistory[symbol := LastN(h, KEPT)];
      observed := observed[symbol := log + [o]];
      signal := SignalOf(symbol, h);
    }
  }

  /** The untrimmed list the regression runs over is the latest 201 observations; what is stored is the latest 200. */
  lemma WindowIsSuffix(log: seq<Obs>, o: Obs)
    ensures LastN(log, KEPT) + [o] == LastN(log + [o], 201)
    ensures LastN(LastN(log, KEPT) + [o], KEPT) == LastN(log + [o], 200)
  {
    LastNAppend(log, o, KEPT);
  }
}
