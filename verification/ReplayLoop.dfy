/**
 The backtest's event loop: settle what has expired, then size and simulate the decisions of the
 event. Which decisions the brain makes, and which of them the filters allow, is an input.
 */
module ReplayLoop {
  import opened BarReplay
  import opened Options
  import opened Positions
  import opened Reals
  import opened Slippage
  import opened TrailingStop

  datatype Decision = Decision(symbol: string, side: Side, size: real, stopPct: real, targetPct: real, allowed: bool)

  /** An event with its funding rate and what the brain decided to buy on it. */
  datatype Event = Event(ts: int, rate: real, decisions: seq<Decision>)

  datatype SimTrade = SimTrade(symbol: string, terms: Terms, entryTime: int, exitTime: int, exitPrice: real, size: real,
                               pnl: real)

  /** Run settings; root is the square root used by the impact model. */
  datatype Config = Config(applySlippage: bool, applyFastCut: bool, root: real -> real)

  type Market = map<string, seq<Bar>>

  const FUNDING_THRESHOLD := 0.001
  const FUNDING_BOOST := 1.25
  const FUNDING_PENALTY := 0.5
  const MAX_BALANCE_FRACTION := 0.4
  const MIN_SIZE := 5.0

  ghost predicate NonNegativeRoot(c: Config) {
    forall x :: x >= 0.0 ==> c.root(x) >= 0.0
  }

  /** Bars in time order, each closing no earlier than it opens. */
  ghost predicate Timeline(bars: seq<Bar>) {
    && (forall i :: 0 <= i < |bars| ==> bars[i].openTime <= bars[i].closeTime)
    && (forall i, j :: 0 <= i < j < |bars| ==> bars[i].openTime <= bars[j].openTime)
  }

  ghost predicate GoodMarket(m: Market) {
    forall s :: s in m ==> Timeline(m[s]) && SaneBars(m[s])
  }

  function FundingMultiplier(rate: real, side: Side): real {
    if -FUNDING_THRESHOLD < rate < FUNDING_THRESHOLD then 1.0
    else if side.Long? then if rate < 0.0 then FUNDING_BOOST else FUNDING_PENALTY
    else if rate > 0.0 then FUNDING_BOOST else FUNDING_PENALTY
  }

  /** The first bar that opens strictly after ts. */
  ghost predicate FirstAfter(bars: seq<Bar>, ts: int, idx: nat) {
    && idx < |bars| && bars[idx].openTime > ts
    && forall i :: 0 <= i < idx ==> bars[i].openTime <= ts
  }

  function IndexAfter(bars: seq<Bar>, ts: int, from: nat): (r: Option<nat>)
    requires from <= |bars| && forall i :: 0 <= i < from ==> bars[i].openTime <= ts
    ensures r.Some? ==> FirstAfter(bars, ts, r.value)
    ensures r.None? ==> forall i :: 0 <= i < |bars| ==> bars[i].openTime <= ts
    decreases |bars| - from
  {
    if from == |bars| then None
    else if bars[from].openTime > ts then Some(from)
    else IndexAfter(bars, ts, from + 1)
  }

  method KlineIndexAfter(bars: seq<Bar>, ts: int) returns (r: Option<nat>)
    ensures r == IndexAfter(bars, ts, 0)
  {
    var i := 0;
    while i < |bars|
      invariant 0 <= i <= |bars|
      invariant forall j :: 0 <= j < i ==> bars[j].openTime <= ts
      invariant IndexAfter(bars, ts, i) == IndexAfter(bars, ts, 0)
    {
      if bars[i].openTime > ts {
        return Some(i);
      }
      i := i + 1;
    }
    return None;
  }

  function LegBps(c: Config, bars: seq<Bar>, size: real, idx: nat): real
    requires idx <= |bars|
  {
    var volume := TrailingVolume(bars, idx);
    if !c.applySlippage then 0.0
    else SlippageBps(size, volume, if volume > 0.0 && size > 0.0 then c.root(size / volume) else 0.0)
  }

  function SizeOf(d: Decision, rate: real, balance: real): real {
    var size := d.size * FundingMultiplier(rate, d.side);
    if size > balance * MAX_BALANCE_FRACTION then balance * MAX_BALANCE_FRACTION else size
  }

  /** The filled and simulated trade of a decision at bar entryIdx. */
  function TradeAt(c: Config, bars: seq<Bar>, d: Decision, size: real, entryIdx: nat): SimTrade
    requires entryIdx < |bars| && bars[entryIdx].open > 0.0
    requires EntryFill(d.side, bars[entryIdx].open, LegBps(c, bars, size, entryIdx)) != 0.0
  {
    var entry := EntryFill(d.side, bars[entryIdx].open, LegBps(c, bars, size, entryIdx));
    var t := Terms(d.side, entry, d.stopPct, d.targetPct);
    var sim := Simulated(t, bars, entryIdx, c.applyFastCut && d.symbol !in FAST_CUT_EXEMPT);
    WalkIndex(t, bars, entryIdx, c.applyFastCut && d.symbol !in FAST_CUT_EXEMPT, entryIdx, InitialTrail(t), 0);
    var exit := ExitFill(d.side, sim.price, LegBps(c, bars, size, sim.idx));
    SimTrade(d.symbol, t, bars[entryIdx].openTime, bars[sim.idx].closeTime, exit, size,
             NetPnl(d.side, size, entry, exit))
  }

  /** The slippage of a leg by the square-root law, on the turnover of the 24 bars before it at most. */
  lemma LegMeans(c: Config, bars: seq<Bar>, size: real, idx: nat)
    requires idx <= |bars| && size > 0.0 && forall x :: x >= 0.0 ==> IsRoot(c.root(x), x)
    ensures var bps, volume := LegBps(c, bars, size, idx), TurnoverUsd(bars[if idx <= 24 then 0 else idx - 24..idx]);
            var k := if volume >= 20000000.0 then 5000.0 else 15000.0;
            && (!c.applySlippage ==> bps == 0.0)
            && (c.applySlippage && volume <= 0.0 ==> bps == 200.0)
            && (c.applySlippage && volume > 0.0 ==>
                  && 2.0 <= bps <= 200.0 && (bps < 200.0 <==> k * k * size < 198.0 * 198.0 * volume)
                  && (bps < 200.0 ==> (bps - 2.0) * (bps - 2.0) * volume == k * k * size))
  {
    var volume := TrailingVolume(bars, idx);
    if volume > 0.0 { DivMonotone(0.0, size, volume); }
    SlippageMeans(size, volume, if volume > 0.0 then c.root(size / volume) else 0.0);
    hide SlippageBps, IsRoot, TurnoverUsd;
  }

  lemma FillPositive(side: Side, price: real, bps: real)
    requires price > 0.0 && 0.0 <= bps <= MAX_SLIPPAGE_BPS
    ensures EntryFill(side, price, bps) > 0.0
  {
    Positive(price, if side.Long? then 1.0 + bps / 10000.0 else 1.0 - bps / 10000.0);
  }

  lemma LegBounds(c: Config, bars: seq<Bar>, size: real, idx: nat)
    requires NonNegativeRoot(c) && idx <= |bars|
    ensures 0.0 <= LegBps(c, bars, size, idx) <= MAX_SLIPPAGE_BPS
  {
    var volume := TrailingVolume(bars, idx);
    if volume > 0.0 && size > 0.0 {
      DivMonotone(0.0, size, volume);
      SlippageBounds(size, volume, c.root(size / volume));
    }
  }

  /** What one decision opens, if anything. */
  function OpenTrade(c: Config, m: Market, d: Decision, rate: real, ts: int, balance: real): Option<SimTrade>
    requires NonNegativeRoot(c)
  {
    if d.symbol !in m then None
    else
      var bars := m[d.symbol];
      match IndexAfter(bars, ts, 0)
      case None => None
      case Some(entryIdx) =>
        if bars[entryIdx].open <= 0.0 || !d.allowed then None
        else
          var size := SizeOf(d, rate, balance);
          if size < MIN_SIZE then None
          else
            LegBounds(c, bars, size, entryIdx);
            FillPositive(d.side, bars[entryIdx].open, LegBps(c, bars, size, entryIdx));
            Some(TradeAt(c, bars, d, size, entryIdx))
  }

  // ---------- the loop on values, with the log of everything ever opened ----------

  datatype Book = Book(balance: real, open: seq<SimTrade>, trades: seq<SimTrade>, log: seq<SimTrade>)

  function Pnl(ts: seq<SimTrade>): real {
    if ts == [] then 0.0 else Pnl(ts[..|ts| - 1]) + ts[|ts| - 1].pnl
  }

  /** The trades that have exited by time t, in order. */
  function ExitedBy(ts: seq<SimTrade>, t: int): seq<SimTrade> {
    if ts == [] then []
    else if ts[|ts| - 1].exitTime <= t then ExitedBy(ts[..|ts| - 1], t) + [ts[|ts| - 1]]
    else ExitedBy(ts[..|ts| - 1], t)
  }

  function RunningAt(ts: seq<SimTrade>, t: int): seq<SimTrade> {
    if ts == [] then []
    else if ts[|ts| - 1].exitTime <= t then RunningAt(ts[..|ts| - 1], t)
    else RunningAt(ts[..|ts| - 1], t) + [ts[|ts| - 1]]
  }

  function Settle(b: Book, t: int): Book {
    b.(balance := b.balance + Pnl(ExitedBy(b.open, t)), trades := b.trades + ExitedBy(b.open, t),
       open := RunningAt(b.open, t))
  }

  function OpenAll(c: Config, m: Market, ds: seq<Decision>, rate: real, ts: int, balance: real): seq<SimTrade>
    requires NonNegativeRoot(c)
  {
    if ds == [] then []
    else
      match OpenTrade(c, m, ds[|ds| - 1], rate, ts, balance)
      case None => OpenAll(c, m, ds[..|ds| - 1], rate, ts, balance)
      case Some(trade) => OpenAll(c, m, ds[..|ds| - 1], rate, ts, balance) + [trade]
  }

  function Process(c: Config, m: Market, b: Book, e: Event): Book
    requires NonNegativeRoot(c)
  {
    var s := Settle(b, e.ts);
    var added := OpenAll(c, m, e.decisions, e.rate, e.ts, s.balance);
    s.(open := s.open + added, log := s.log + added)
  }

  function RunEvents(c: Config, m: Market, initial: real, events: seq<Event>): Book
    requires NonNegativeRoot(c)
  {
    if events == [] then Book(initial, [], [], [])
    else Process(c, m, RunEvents(c, m, initial, events[..|events| - 1]), events[|events| - 1])
  }

  function Drain(b: Book): Book {
    b.(balance := b.balance + Pnl(b.open), trades := b.trades + b.open, open := [])
  }

  /** Moves what has exited by ts from the open positions to the trades and the balance. */
  method SettleExpired(b: Book, ts: int) returns (balance: real, trades: seq<SimTrade>, stillOpen: seq<SimTrade>)
    ensures var s := Settle(b, ts); balance == s.balance && trades == s.trades && stillOpen == s.open
  {
    assert b.open[..0] == [] && ExitedBy([], ts) == [] && RunningAt([], ts) == [] && Pnl([]) == 0.0;
    hide ExitedBy, RunningAt, Pnl;
    balance, trades, stillOpen := b.balance, b.trades, [];
    var j := 0;
    while j < |b.open|
      invariant 0 <= j <= |b.open|
      invariant balance == b.balance + Pnl(ExitedBy(b.open[..j], ts))
      invariant trades == b.trades + ExitedBy(b.open[..j], ts)
      invariant stillOpen == RunningAt(b.open[..j], ts)
    {
      var pos := b.open[j];
      assert b.open[..j + 1] == b.open[..j] + [pos];
      Snoc(b.open[..j], pos, ts);
      if pos.exitTime <= ts {
        trades := trades + [pos];
        balance := balance + pos.pnl;
        PnlAppend(ExitedBy(b.open[..j], ts), pos);
      } else {
        stillOpen := stillOpen + [pos];
      }
      j := j + 1;
    }
    assert b.open[..j] == b.open;
  }

  /** Opens a trade for every decision that survives sizing and filters. */
  method OpenDecisions(c: Config, m: Market, ds: seq<Decision>, rate: real, ts: int, balance: real)
    returns (trades: seq<SimTrade>)
    requires NonNegativeRoot(c)
    ensures trades == OpenAll(c, m, ds, rate, ts, balance)
  {
    trades := [];
    var j := 0;
    while j < |ds|
      invariant 0 <= j <= |ds|
      invariant trades == OpenAll(c, m, ds[..j], rate, ts, balance)
    {
      assert ds[..j + 1][..j] == ds[..j];
      var trade := OpenTrade(c, m, ds[j], rate, ts, balance);
      if trade.Some? {
        trades := trades + [trade.value];
      }
      j := j + 1;
    }
    assert ds[..j] == ds;
  }

  /** Closes the books on whatever is still open after the last event. */
  method DrainOpen(b: Book) returns (balance: real, trades: seq<SimTrade>)
    ensures balance == Drain(b).balance && trades == Drain(b).trades
  {
    balance, trades := b.balance, b.trades;
    var j := 0;
    while j < |b.open|
      invariant 0 <= j <= |b.open|
      invariant balance == b.balance + Pnl(b.open[..j])
      invariant trades == b.trades + b.open[..j]
    {
      assert b.open[..j + 1][..j] == b.open[..j];
      trades := trades + [b.open[j]];
      balance := balance + b.open[j].pnl;
      j := j + 1;
    }
    assert b.open[..j] == b.open;
  }

  /** The replay loop: every event first settles what has exited, then opens; at the end the rest is drained. */
  method Replay(c: Config, m: Market, initial: real, events: seq<Event>) returns (balance: real, trades: seq<SimTrade>)
    requires NonNegativeRoot(c)
    ensures balance == Drain(RunEvents(c, m, initial, events)).balance
    ensures trades == Drain(RunEvents(c, m, initial, events)).trades
    ensures GoodMarket(m) && InTimeOrder(events)
            && (forall i :: 0 <= i < |events| ==> StoppedDecisions(events[i].decisions)) ==>
              balance == initial + Pnl(trades)
              && exists log :: LogOf(c, m, initial, events, log) && multiset(trades) == multiset(log)
  {
    balance, trades := initial, [];
    var open: seq<SimTrade> := [];
    var i := 0;
    while i < |events|
      invariant 0 <= i <= |events|
      invariant var b := RunEvents(c, m, initial, events[..i]);
                balance == b.balance && trades == b.trades && open == b.open
    {
      var e := events[i];
      assert events[..i + 1][..i] == events[..i];
      balance, trades, open := SettleExpired(Book(balance, open, trades, []), e.ts);
      var added := OpenDecisions(c, m, e.decisions, e.rate, e.ts, balance);
      open := open + added;
      i := i + 1;
    }
    assert events[..i] == events;
    balance, trades := DrainOpen(Book(balance, open, trades, []));
    if GoodMarket(m) && InTimeOrder(events) && forall j :: 0 <= j < |events| ==> StoppedDecisions(events[j].decisions) {
      LogIsExact(c, m, initial, events);
      EveryTradeReportedOnce(c, m, initial, events);
    }
    hide LogOf, RunEvents, InTimeOrder, GoodMarket, Pnl;
  }

  lemma PnlAppend(ts: seq<SimTrade>, t: SimTrade)
    ensures Pnl(ts + [t]) == Pnl(ts) + t.pnl
  {
    assert (ts + [t])[..|ts|] == ts;
  }

  lemma PnlConcat(a: seq<SimTrade>, b: seq<SimTrade>)
    ensures Pnl(a + b) == Pnl(a) + Pnl(b)
    decreases |b|
  {
    if b == [] {
      assert a + b == a;
    } else {
      PnlConcat(a, b[..|b| - 1]);
      assert (a + b)[..|a + b| - 1] == a + b[..|b| - 1];
    }
  }

  // ---------- settlement ----------

  lemma ExitedConcat(a: seq<SimTrade>, b: seq<SimTrade>, t: int)
    ensures ExitedBy(a + b, t) == ExitedBy(a, t) + ExitedBy(b, t)
    decreases |b|
  {
    if b == [] {
      assert a + b == a;
    } else {
      ExitedConcat(a, b[..|b| - 1], t);
      assert (a + b)[..|a + b| - 1] == a + b[..|b| - 1];
    }
  }

  lemma RunningConcat(a: seq<SimTrade>, b: seq<SimTrade>, t: int)
    ensures RunningAt(a + b, t) == RunningAt(a, t) + RunningAt(b, t)
    decreases |b|
  {
    if b == [] {
      assert a + b == a;
    } else {
      RunningConcat(a, b[..|b| - 1], t);
      assert (a + b)[..|a + b| - 1] == a + b[..|b| - 1];
    }
  }

  lemma {:induction false} LaterExits(b: seq<SimTrade>, t: int)
    requires forall x :: x in b ==> x.exitTime > t
    ensures ExitedBy(b, t) == [] && RunningAt(b, t) == b
    decreases |b|
  {
    if b != [] {
      var init, x := b[..|b| - 1], b[|b| - 1];
      assert b == init + [x] && x in b;
      LaterExits(init, t);
    }
  }

  lemma Snoc(init: seq<SimTrade>, x: SimTrade, t: int)
    ensures ExitedBy(init + [x], t) == if x.exitTime <= t then ExitedBy(init, t) + [x] else ExitedBy(init, t)
    ensures RunningAt(init + [x], t) == if x.exitTime <= t then RunningAt(init, t) else RunningAt(init, t) + [x]
  {
    assert (init + [x])[..|init|] == init;
  }

  lemma {:induction false} RunningTwice(log: seq<SimTrade>, t: int, u: int)
    requires t <= u
    ensures RunningAt(RunningAt(log, t), u) == RunningAt(log, u)
    decreases |log|
  {
    if log != [] {
      var init, x := log[..|log| - 1], log[|log| - 1];
      RunningTwice(init, t, u);
      Snoc(RunningAt(init, t), x, u);
    }
  }

  /** Settling in two steps credits what settling once credits. */
  lemma {:induction false} SettleTwice(log: seq<SimTrade>, t: int, u: int)
    requires t <= u
    ensures Pnl(ExitedBy(log, u)) == Pnl(ExitedBy(log, t)) + Pnl(ExitedBy(RunningAt(log, t), u))
    decreases |log|
  {
    if log != [] {
      var init, x := log[..|log| - 1], log[|log| - 1];
      SettleTwice(init, t, u);
      Snoc(RunningAt(init, t), x, u);
      PnlAppend(ExitedBy(init, t), x);
      PnlAppend(ExitedBy(init, u), x);
      PnlAppend(ExitedBy(RunningAt(init, t), u), x);
    }
  }

  /** What has exited by a time is exactly the trades whose exit time is not later, as often as they occur. */
  lemma {:induction false} ExitedMeans(log: seq<SimTrade>, t: int, x: SimTrade)
    ensures multiset(ExitedBy(log, t))[x] == if x.exitTime <= t then multiset(log)[x] else 0
    ensures multiset(RunningAt(log, t))[x] == if x.exitTime <= t then 0 else multiset(log)[x]
  {
    if log != [] {
      ExitedMeans(log[..|log| - 1], t, x);
      assert log == log[..|log| - 1] + [log[|log| - 1]];
    }
  }

  lemma SplitIsPartition(log: seq<SimTrade>, t: int)
    ensures multiset(ExitedBy(log, t)) + multiset(RunningAt(log, t)) == multiset(log)
  {
    if log != [] {
      SplitIsPartition(log[..|log| - 1], t);
      assert log == log[..|log| - 1] + [log[|log| - 1]];
    }
  }

  /** The books at time t: exactly the trades exited by t are in the balance, the rest are open. */
  ghost predicate SettledAt(b: Book, initial: real, t: int) {
    && b.balance == initial + Pnl(ExitedBy(b.log, t))
    && b.open == RunningAt(b.log, t)
    && multiset(b.trades) + multiset(b.open) == multiset(b.log)
    && b.balance == initial + Pnl(b.trades)
  }

  lemma SettleKeepsBooks(b: Book, initial: real, t: int, u: int)
    requires SettledAt(b, initial, t) && t <= u
    ensures SettledAt(Settle(b, u), initial, u)
  {
    SettleTwice(b.log, t, u);
    RunningTwice(b.log, t, u);
    SplitIsPartition(b.open, u);
    PnlConcat(b.trades, ExitedBy(b.open, u));
  }

  lemma OpenedLater(c: Config, m: Market, d: Decision, rate: real, ts: int, balance: real)
    requires NonNegativeRoot(c) && GoodMarket(m)
    ensures var o := OpenTrade(c, m, d, rate, ts, balance); o.Some? ==> o.value.exitTime > ts
  {
    var o := OpenTrade(c, m, d, rate, ts, balance);
    if o.Some? {
      var bars := m[d.symbol];
      var entryIdx, size := IndexAfter(bars, ts, 0).value, SizeOf(d, rate, balance);
      LegBounds(c, bars, size, entryIdx);
      FillPositive(d.side, bars[entryIdx].open, LegBps(c, bars, size, entryIdx));
      var t, fastCut := o.value.terms, c.applyFastCut && d.symbol !in FAST_CUT_EXEMPT;
      WalkIndex(t, bars, entryIdx, fastCut, entryIdx, InitialTrail(t), 0);
      var sim := Simulated(t, bars, entryIdx, fastCut);
      assert bars[sim.idx].openTime >= bars[entryIdx].openTime;
    }
  }

  lemma {:induction false} AllOpenedLater(c: Config, m: Market, ds: seq<Decision>, rate: real, ts: int, balance: real)
    requires NonNegativeRoot(c) && GoodMarket(m)
    ensures forall x :: x in OpenAll(c, m, ds, rate, ts, balance) ==> x.exitTime > ts
    decreases |ds|
  {
    if ds != [] {
      AllOpenedLater(c, m, ds[..|ds| - 1], rate, ts, balance);
      OpenedLater(c, m, ds[|ds| - 1], rate, ts, balance);
    }
  }

  lemma ProcessKeepsBooks(c: Config, m: Market, b: Book, initial: real, t: int, e: Event)
    requires NonNegativeRoot(c) && GoodMarket(m) && SettledAt(b, initial, t) && t <= e.ts
    ensures SettledAt(Process(c, m, b, e), initial, e.ts)
  {
    SettleKeepsBooks(b, initial, t, e.ts);
    var s := Settle(b, e.ts);
    var added := OpenAll(c, m, e.decisions, e.rate, e.ts, s.balance);
    AllOpenedLater(c, m, e.decisions, e.rate, e.ts, s.balance);
    ExitedConcat(s.log, added, e.ts);
    RunningConcat(s.log, added, e.ts);
    LaterExits(added, e.ts);
    assert ExitedBy(s.log, e.ts) + [] == ExitedBy(s.log, e.ts);
  }

  ghost predicate InTimeOrder(events: seq<Event>) {
    forall i, j :: 0 <= i < j < |events| ==> events[i].ts <= events[j].ts
  }

  lemma {:induction false} BooksAfter(c: Config, m: Market, initial: real, events: seq<Event>)
    requires NonNegativeRoot(c) && GoodMarket(m) && InTimeOrder(events) && events != []
    ensures SettledAt(RunEvents(c, m, initial, events), initial, events[|events| - 1].ts)
    decreases |events|
  {
    var init, e := events[..|events| - 1], events[|events| - 1];
    if init == [] {
      ProcessKeepsBooks(c, m, Book(initial, [], [], []), initial, e.ts, e);
    } else {
      BooksAfter(c, m, initial, init);
      ProcessKeepsBooks(c, m, RunEvents(c, m, initial, init), initial, init[|init| - 1].ts, e);
    }
  }

  /**
   Settlement: when event k is handled, the balance is the initial one plus the result of exactly those
   trades opened by earlier events that exit by its time; every other opened trade is still open. What
   the event itself opens exits strictly later, so it is not settled by it or by any event at its time.
   */
  lemma SettlementIsExact(c: Config, m: Market, initial: real, events: seq<Event>, k: nat)
    requires NonNegativeRoot(c) && GoodMarket(m) && InTimeOrder(events) && k < |events|
    ensures var earlier := RunEvents(c, m, initial, events[..k]);
            var s := Settle(earlier, events[k].ts);
            && s.log == earlier.log
            && s.balance == initial + Pnl(ExitedBy(earlier.log, events[k].ts))
            && s.open == RunningAt(earlier.log, events[k].ts)
            && forall x :: x in OpenAll(c, m, events[k].decisions, events[k].rate, events[k].ts, s.balance) ==>
                 x.exitTime > events[k].ts
  {
    var earlier := RunEvents(c, m, initial, events[..k]);
    AllOpenedLater(c, m, events[k].decisions, events[k].rate, events[k].ts, Settle(earlier, events[k].ts).balance);
    if k > 0 {
      BooksAfter(c, m, initial, events[..k]);
      SettleKeepsBooks(earlier, initial, events[k - 1].ts, events[k].ts);
    }
  }

  /** Every opened trade is reported exactly once, and the final balance is the initial one plus their total. */
  lemma EveryTradeReportedOnce(c: Config, m: Market, initial: real, events: seq<Event>)
    requires NonNegativeRoot(c) && GoodMarket(m) && InTimeOrder(events)
    ensures var last, b := RunEvents(c, m, initial, events), Drain(RunEvents(c, m, initial, events));
            && multiset(b.trades) == multiset(last.log)
            && b.balance == initial + Pnl(b.trades)
  {
    var last := RunEvents(c, m, initial, events);
    if events != [] { BooksAfter(c, m, initial, events); }
    PnlConcat(last.trades, last.open);
  }

  // ---------- which decisions the log stems from, in plain arithmetic ----------

  /** The size asked for, scaled by the funding: up by a quarter where the holder receives it, halved where he pays. */
  function Asked(d: Decision, rate: real): real {
    if -0.001 < rate < 0.001 then d.size
    else if (if d.side.Long? then rate < 0.0 else rate > 0.0) then d.size * 5.0 / 4.0
    else d.size / 2.0
  }

  /** The decision opens a trade: it is allowed, large enough, and its symbol has a later bar that opens above zero. */
  ghost predicate Admitted(m: Market, d: Decision, rate: real, ts: int, balance: real) {
    && d.allowed && d.symbol in m && (exists k: nat :: FirstAfter(m[d.symbol], ts, k) && m[d.symbol][k].open > 0.0)
    && Asked(d, rate) >= 5.0 && 2.0 * balance >= 25.0
  }

  /** The smaller of the size asked for and two fifths of the balance. */
  ghost predicate Sized(d: Decision, rate: real, balance: real, size: real) {
    && size <= Asked(d, rate) && 5.0 * size <= 2.0 * balance
    && (size == Asked(d, rate) || 5.0 * size == 2.0 * balance)
  }

  /** The trade enters at the open of bar k, moved against it by the slippage. */
  ghost predicate EntersAt(c: Config, bars: seq<Bar>, d: Decision, x: SimTrade, k: nat)
    requires k < |bars|
  {
    && x.symbol == d.symbol && x.terms.side == d.side && x.terms.stopPct == d.stopPct
    && x.terms.targetPct == d.targetPct && x.terms.entry > 0.0 && x.entryTime == bars[k].openTime
    && var open := bars[k].open;
       && open > 0.0
       && 10000.0 * (x.terms.entry - open)
          == (if d.side.Long? then open else -open) * LegBps(c, bars, x.size, k)
  }

  /** It leaves at the close of the bar of that exit, at its price, moved against it by the slippage. */
  ghost predicate LeavesBy(c: Config, bars: seq<Bar>, d: Decision, x: SimTrade, k: nat, e: SimExit)
    requires x.terms.entry != 0.0
  {
    && SimMeans(x.terms, bars, k, c.applyFastCut && d.symbol !in {"BTC", "ETH", "SOL", "BNB", "XRP"}, e)
    && x.exitTime == bars[e.idx].closeTime
    && 10000.0 * (x.exitPrice - e.price)
       == (if d.side.Long? then -e.price else e.price) * LegBps(c, bars, x.size, e.idx)
  }

  /** The result: the size times the relative price difference, less 0.04% of both notionals. */
  ghost predicate Pays(x: SimTrade) {
    var entry, exit := x.terms.entry, x.exitPrice;
    10000.0 * (x.pnl * entry)
    == 10000.0 * (x.size * (if x.terms.side.Long? then exit - entry else entry - exit))
       - 4.0 * (x.size * (entry + exit))
  }

  /** The trade a decision opens: in the first bar after the event, of the right size, and out by the simulated exit. */
  ghost predicate TradeOf(c: Config, m: Market, d: Decision, rate: real, ts: int, balance: real, x: SimTrade) {
    && d.symbol in m && Sized(d, rate, balance, x.size) && Pays(x)
    && exists k: nat ::
         && FirstAfter(m[d.symbol], ts, k) && EntersAt(c, m[d.symbol], d, x, k)
         && exists e :: LeavesBy(c, m[d.symbol], d, x, k, e)
  }

  lemma SizeMeans(d: Decision, rate: real, balance: real)
    ensures Sized(d, rate, balance, SizeOf(d, rate, balance))
    ensures SizeOf(d, rate, balance) >= MIN_SIZE <==> Asked(d, rate) >= 5.0 && 2.0 * balance >= 25.0
  {
    assert d.size * FundingMultiplier(rate, d.side) == Asked(d, rate);
  }

  lemma FirstIsUnique(bars: seq<Bar>, ts: int, k: nat, n: nat)
    requires FirstAfter(bars, ts, k) && FirstAfter(bars, ts, n)
    ensures k == n
  {
  }

  lemma SaneIsPositive(bars: seq<Bar>, k: nat)
    requires SaneBars(bars) && k < |bars|
    ensures PositiveBars(bars, k)
  {
  }

  /** The fields of a simulated trade, with the exit its simulation gives. */
  lemma TradeAtFields(c: Config, bars: seq<Bar>, d: Decision, size: real, k: nat) returns (e: SimExit)
    requires NonNegativeRoot(c) && SaneBars(bars) && d.stopPct > 0.0 && k < |bars| && bars[k].open > 0.0
    ensures EntryFill(d.side, bars[k].open, LegBps(c, bars, size, k)) > 0.0
    ensures var x := TradeAt(c, bars, d, size, k);
            && x.size == size && x.symbol == d.symbol && x.entryTime == bars[k].openTime
            && x.terms == Terms(d.side, EntryFill(d.side, bars[k].open, LegBps(c, bars, size, k)), d.stopPct,
                                d.targetPct)
            && SimMeans(x.terms, bars, k, c.applyFastCut && d.symbol !in FAST_CUT_EXEMPT, e)
            && e.idx < |bars| && x.exitTime == bars[e.idx].closeTime
            && x.exitPrice == ExitFill(d.side, e.price, LegBps(c, bars, size, e.idx))
            && x.pnl == NetPnl(d.side, size, x.terms.entry, x.exitPrice)
  {
    LegBounds(c, bars, size, k);
    FillPositive(d.side, bars[k].open, LegBps(c, bars, size, k));
    hide LegBps, EntryFill, ExitFill, NetPnl, SimMeans;
    var x := TradeAt(c, bars, d, size, k);
    var fastCut := c.applyFastCut && d.symbol !in FAST_CUT_EXEMPT;
    e := Simulated(x.terms, bars, k, fastCut);
    SaneIsPositive(bars, k);
    WalkIndex(x.terms, bars, k, fastCut, k, InitialTrail(x.terms), 0);
    SimulatedMeans(x.terms, bars, k, fastCut, e);
  }

  lemma TradeAtMeans(c: Config, bars: seq<Bar>, d: Decision, size: real, k: nat)
    requires NonNegativeRoot(c) && SaneBars(bars) && d.stopPct > 0.0 && k < |bars| && bars[k].open > 0.0
    ensures EntryFill(d.side, bars[k].open, LegBps(c, bars, size, k)) > 0.0
    ensures var x := TradeAt(c, bars, d, size, k);
            && x.size == size && Pays(x) && EntersAt(c, bars, d, x, k) && exists e :: LeavesBy(c, bars, d, x, k, e)
  {
    hide TradeAt, LegBps, Simulated, SimMeans, EntryFill, ExitFill, NetPnl, SaneBars;
    var e := TradeAtFields(c, bars, d, size, k);
    var x := TradeAt(c, bars, d, size, k);
    FillMeans(d.side, bars[k].open, LegBps(c, bars, size, k));
    FillMeans(d.side, e.price, LegBps(c, bars, size, e.idx));
    NetPnlMeans(d.side, size, x.terms.entry, x.exitPrice);
    assert LeavesBy(c, bars, d, x, k, e);
  }

  /** A decision opens a trade exactly if it is admitted, and the trade is the one it asks for. */
  lemma OpenTradeMeans(c: Config, m: Market, d: Decision, rate: real, ts: int, balance: real)
    requires NonNegativeRoot(c) && GoodMarket(m) && d.stopPct > 0.0
    ensures OpenTrade(c, m, d, rate, ts, balance).Some? <==> Admitted(m, d, rate, ts, balance)
    ensures OpenTrade(c, m, d, rate, ts, balance).Some? ==>
              TradeOf(c, m, d, rate, ts, balance, OpenTrade(c, m, d, rate, ts, balance).value)
  {
    hide SizeOf, Asked, Sized, Pays, EntersAt, LeavesBy, TradeAt, Timeline, SaneBars, LegBps, EntryFill;
    hide NonNegativeRoot;
    SizeMeans(d, rate, balance);
    if d.symbol in m {
      var bars, first := m[d.symbol], IndexAfter(m[d.symbol], ts, 0);
      forall k: nat | FirstAfter(bars, ts, k)
        ensures first == Some(k)
      {
        if first.Some? { FirstIsUnique(bars, ts, k, first.value); }
      }
      if first.Some? && bars[first.value].open > 0.0 {
        TradeAtMeans(c, bars, d, SizeOf(d, rate, balance), first.value);
      }
      hide FirstAfter, IndexAfter;
    }
  }

  /** The trades of one event: one for each admitted decision, in order, and no others. */
  ghost predicate TradesOf(c: Config, m: Market, ds: seq<Decision>, rate: real, ts: int, balance: real,
                           xs: seq<SimTrade>)
  {
    if ds == [] then xs == []
    else
      var d, init := ds[|ds| - 1], ds[..|ds| - 1];
      if Admitted(m, d, rate, ts, balance) then
        && xs != [] && TradeOf(c, m, d, rate, ts, balance, xs[|xs| - 1])
        && TradesOf(c, m, init, rate, ts, balance, xs[..|xs| - 1])
      else TradesOf(c, m, init, rate, ts, balance, xs)
  }

  ghost predicate StoppedDecisions(ds: seq<Decision>) { forall i :: 0 <= i < |ds| ==> ds[i].stopPct > 0.0 }

  lemma {:induction false} OpenAllMeans(c: Config, m: Market, ds: seq<Decision>, rate: real, ts: int, balance: real)
    requires NonNegativeRoot(c) && GoodMarket(m) && StoppedDecisions(ds)
    ensures TradesOf(c, m, ds, rate, ts, balance, OpenAll(c, m, ds, rate, ts, balance))
    decreases |ds|
  {
    if ds != [] {
      var d, init := ds[|ds| - 1], ds[..|ds| - 1];
      OpenAllMeans(c, m, init, rate, ts, balance);
      OpenTradeMeans(c, m, d, rate, ts, balance);
      hide OpenTrade, Admitted, TradeOf;
      var xs, x := OpenAll(c, m, init, rate, ts, balance), OpenTrade(c, m, d, rate, ts, balance);
      if x.Some? { assert (xs + [x.value])[..|xs|] == xs; }
    }
  }

  /** The log of a run: event by event, the trades its decisions open on the balance settled by then. */
  ghost predicate LogOf(c: Config, m: Market, initial: real, events: seq<Event>, log: seq<SimTrade>) {
    if events == [] then log == []
    else
      exists n: nat ::
        && n <= |log| && LogOf(c, m, initial, events[..|events| - 1], log[..n])
        && AddedBy(c, m, initial, events[|events| - 1], log, n)
  }

  /** From place n on the log is what the event adds, on the initial balance and what has exited by then. */
  ghost predicate AddedBy(c: Config, m: Market, initial: real, e: Event, log: seq<SimTrade>, n: nat)
    requires n <= |log|
  {
    TradesOf(c, m, e.decisions, e.rate, e.ts, initial + Pnl(ExitedBy(log[..n], e.ts)), log[n..])
  }

  /**
   The log of a run is exactly the trades of its admitted decisions: no other decision opens one, each of them opens
   one, in its order, with its symbol, side and size, from the first bar after its event to its simulated exit.
   */
  lemma {:induction false} LogIsExact(c: Config, m: Market, initial: real, events: seq<Event>)
    requires NonNegativeRoot(c) && GoodMarket(m) && InTimeOrder(events)
    requires forall i :: 0 <= i < |events| ==> StoppedDecisions(events[i].decisions)
    ensures LogOf(c, m, initial, events, RunEvents(c, m, initial, events).log)
    decreases |events|
  {
    hide *;
    if events == [] {
      NothingLogged(c, m, initial);
    } else {
      var init := events[..|events| - 1];
      EarlierInOrder(events);
      LogIsExact(c, m, initial, init);
      EventIsLogged(c, m, initial, events);
      LogGrows(c, m, initial, events, RunEvents(c, m, initial, events).log, |RunEvents(c, m, initial, init).log|);
    }
  }

  /** What the last event adds to the log is what its decisions open on the balance that is settled by then. */
  lemma EventIsLogged(c: Config, m: Market, initial: real, events: seq<Event>)
    requires NonNegativeRoot(c) && GoodMarket(m) && InTimeOrder(events) && events != []
    requires StoppedDecisions(events[|events| - 1].decisions)
    ensures var e := events[|events| - 1];
            var earlier, log := RunEvents(c, m, initial, events[..|events| - 1]), RunEvents(c, m, initial, events).log;
            && |earlier.log| <= |log| && log[..|earlier.log|] == earlier.log
            && AddedBy(c, m, initial, e, log, |earlier.log|)
  {
    hide *;
    var e, k := events[|events| - 1], |events| - 1;
    SettlementIsExact(c, m, initial, events, k);
    ProcessLogs(c, m, initial, events);
    OpenAllMeans(c, m, e.decisions, e.rate, e.ts, Settle(RunEvents(c, m, initial, events[..k]), e.ts).balance);
    AddedByMeans(c, m, initial, e, RunEvents(c, m, initial, events).log, |RunEvents(c, m, initial, events[..k]).log|);
  }

  lemma AddedByMeans(c: Config, m: Market, initial: real, e: Event, log: seq<SimTrade>, n: nat)
    requires n <= |log|
    ensures AddedBy(c, m, initial, e, log, n) <==>
            TradesOf(c, m, e.decisions, e.rate, e.ts, initial + Pnl(ExitedBy(log[..n], e.ts)), log[n..])
  {
  }

  lemma EarlierInOrder(events: seq<Event>)
    requires InTimeOrder(events) && events != []
    ensures InTimeOrder(events[..|events| - 1])
  {
  }

  lemma NothingLogged(c: Config, m: Market, initial: real)
    requires NonNegativeRoot(c)
    ensures RunEvents(c, m, initial, []).log == [] && LogOf(c, m, initial, [], [])
  {
  }

  /** An event adds to the log what its decisions open on the settled balance. */
  lemma ProcessLogs(c: Config, m: Market, initial: real, events: seq<Event>)
    requires NonNegativeRoot(c) && events != []
    ensures var e := events[|events| - 1];
            var earlier, log := RunEvents(c, m, initial, events[..|events| - 1]), RunEvents(c, m, initial, events).log;
            && |earlier.log| <= |log| && log[..|earlier.log|] == earlier.log
            && log[|earlier.log|..] == OpenAll(c, m, e.decisions, e.rate, e.ts, Settle(earlier, e.ts).balance)
  {
    hide OpenAll, ExitedBy, RunningAt, Pnl;
    var e, earlier := events[|events| - 1], RunEvents(c, m, initial, events[..|events| - 1]);
    var added := OpenAll(c, m, e.decisions, e.rate, e.ts, Settle(earlier, e.ts).balance);
    assert RunEvents(c, m, initial, events).log == earlier.log + added;
  }

  lemma LogGrows(c: Config, m: Market, initial: real, events: seq<Event>, log: seq<SimTrade>, n: nat)
    requires events != [] && n <= |log| && LogOf(c, m, initial, events[..|events| - 1], log[..n])
    requires AddedBy(c, m, initial, events[|events| - 1], log, n)
    ensures LogOf(c, m, initial, events, log)
  {
    hide AddedBy;
  }

  lemma LogSplits(c: Config, m: Market, initial: real, events: seq<Event>, log: seq<SimTrade>) returns (n: nat)
    requires events != [] && LogOf(c, m, initial, events, log)
    ensures n <= |log| && LogOf(c, m, initial, events[..|events| - 1], log[..n])
    ensures AddedBy(c, m, initial, events[|events| - 1], log, n)
  {
    hide AddedBy;
    n :| && n <= |log| && LogOf(c, m, initial, events[..|events| - 1], log[..n])
         && AddedBy(c, m, initial, events[|events| - 1], log, n);
  }

  /** So every trade of the log has an event and an admitted decision of it, whose trade it is. */
  lemma {:induction false} EveryTradeHasItsDecision(c: Config, m: Market, initial: real, events: seq<Event>,
                                                    log: seq<SimTrade>, x: SimTrade)
    returns (i: nat, j: nat, balance: real)
    requires LogOf(c, m, initial, events, log) && x in log
    ensures i < |events| && j < |events[i].decisions|
    ensures Admitted(m, events[i].decisions[j], events[i].rate, events[i].ts, balance)
    ensures TradeOf(c, m, events[i].decisions[j], events[i].rate, events[i].ts, balance, x)
    decreases |events|
  {
    hide *;
    if events == [] {
      NoTradeLogged(c, m, initial, log);
    }
    var init, e := events[..|events| - 1], events[|events| - 1];
    var n := LogSplits(c, m, initial, events, log);
    AddedByMeans(c, m, initial, e, log, n);
    assert log == log[..n] + log[n..];
    if x in log[..n] {
      i, j, balance := EveryTradeHasItsDecision(c, m, initial, init, log[..n], x);
    } else {
      i, balance := |events| - 1, initial + Pnl(ExitedBy(log[..n], e.ts));
      j := TradeHasItsDecision(c, m, e.decisions, e.rate, e.ts, balance, log[n..], x);
    }
  }

  lemma NoTradeLogged(c: Config, m: Market, initial: real, log: seq<SimTrade>)
    requires LogOf(c, m, initial, [], log)
    ensures log == []
  {
  }

  lemma {:induction false} TradeHasItsDecision(c: Config, m: Market, ds: seq<Decision>, rate: real, ts: int,
                                               balance: real, xs: seq<SimTrade>, x: SimTrade)
    returns (j: nat)
    requires TradesOf(c, m, ds, rate, ts, balance, xs) && x in xs
    ensures j < |ds| && Admitted(m, ds[j], rate, ts, balance) && TradeOf(c, m, ds[j], rate, ts, balance, x)
    decreases |ds|
  {
    hide Admitted, TradeOf;
    var init := ds[..|ds| - 1];
    j := |ds| - 1;
    if Admitted(m, ds[j], rate, ts, balance) {
      assert xs == xs[..|xs| - 1] + [xs[|xs| - 1]];
      if x != xs[|xs| - 1] { j := TradeHasItsDecision(c, m, init, rate, ts, balance, xs[..|xs| - 1], x); }
    } else {
      j := TradeHasItsDecision(c, m, init, rate, ts, balance, xs, x);
    }
  }

  // ---------- the worst run ----------

  /** The most a trade may lose. */
  function Floor(t: SimTrade): real { t.size * WorstReturn(t.terms.side, t.terms.stopPct) }

  ghost predicate SaneDecisions(ds: seq<Decision>) {
    forall i :: 0 <= i < |ds| ==> ds[i].stopPct > 0.0 && ds[i].targetPct >= 0.0
  }

  /** A trade within its worst-case loss and its share of the balance it was sized on. */
  ghost predicate Bounded(t: SimTrade, balance: real) {
    t.pnl >= Floor(t) && MIN_SIZE <= t.size <= balance * MAX_BALANCE_FRACTION
  }

  lemma OpenTradeBounded(c: Config, m: Market, d: Decision, rate: real, ts: int, balance: real)
    requires NonNegativeRoot(c) && GoodMarket(m) && d.stopPct > 0.0 && d.targetPct >= 0.0
    ensures var o := OpenTrade(c, m, d, rate, ts, balance); o.Some? ==> Bounded(o.value, balance)
  {
    var o := OpenTrade(c, m, d, rate, ts, balance);
    if o.Some? {
      var bars, size := m[d.symbol], SizeOf(d, rate, balance);
      var entryIdx := IndexAfter(bars, ts, 0).value;
      LegBounds(c, bars, size, entryIdx);
      FillPositive(d.side, bars[entryIdx].open, LegBps(c, bars, size, entryIdx));
      var t, fastCut := o.value.terms, c.applyFastCut && d.symbol !in FAST_CUT_EXEMPT;
      WalkIndex(t, bars, entryIdx, fastCut, entryIdx, InitialTrail(t), 0);
      var sim := Simulated(t, bars, entryIdx, fastCut);
      LegBounds(c, bars, size, sim.idx);
      WorstTradeLoss(t, bars, entryIdx, fastCut, size, LegBps(c, bars, size, sim.idx));
    }
  }

  function Floors(ts: seq<SimTrade>): real {
    if ts == [] then 0.0 else Floors(ts[..|ts| - 1]) + Floor(ts[|ts| - 1])
  }

  lemma {:induction false} OpenAllBounded(c: Config, m: Market, ds: seq<Decision>, rate: real, ts: int, balance: real)
    requires NonNegativeRoot(c) && GoodMarket(m) && SaneDecisions(ds)
    ensures forall x :: x in OpenAll(c, m, ds, rate, ts, balance) ==> Bounded(x, balance)
    decreases |ds|
  {
    if ds != [] {
      OpenAllBounded(c, m, ds[..|ds| - 1], rate, ts, balance);
      var d := ds[|ds| - 1];
      OpenTradeBounded(c, m, d, rate, ts, balance);
    }
  }

  lemma {:induction false} OpenedNeverBelowFloor(c: Config, m: Market, initial: real, events: seq<Event>)
    requires NonNegativeRoot(c) && GoodMarket(m)
    requires forall i :: 0 <= i < |events| ==> SaneDecisions(events[i].decisions)
    ensures forall x :: x in RunEvents(c, m, initial, events).log ==> x.pnl >= Floor(x)
    decreases |events|
  {
    if events != [] {
      var init, e := events[..|events| - 1], events[|events| - 1];
      OpenedNeverBelowFloor(c, m, initial, init);
      OpenAllBounded(c, m, e.decisions, e.rate, e.ts, Settle(RunEvents(c, m, initial, init), e.ts).balance);
    }
  }

  lemma FloorsBoundPnl(ts: seq<SimTrade>)
    requires forall x :: x in ts ==> x.pnl >= Floor(x)
    ensures Pnl(ts) >= Floors(ts)
  {
    if ts != [] {
      FloorsBoundPnl(ts[..|ts| - 1]);
      assert ts[|ts| - 1] in ts;
    }
  }

  /** The worst run: whatever the brain decides, the replay ends no lower than the sum of the trades' floors. */
  lemma WorstRun(c: Config, m: Market, initial: real, events: seq<Event>)
    requires NonNegativeRoot(c) && GoodMarket(m) && InTimeOrder(events)
    requires forall i :: 0 <= i < |events| ==> SaneDecisions(events[i].decisions)
    ensures var b := Drain(RunEvents(c, m, initial, events)); b.balance >= initial + Floors(b.trades)
  {
    EveryTradeReportedOnce(c, m, initial, events);
    OpenedNeverBelowFloor(c, m, initial, events);
    var last, b := RunEvents(c, m, initial, events), Drain(RunEvents(c, m, initial, events));
    forall x | x in b.trades
      ensures x.pnl >= Floor(x)
    {
      assert x in multiset(last.log);
    }
    FloorsBoundPnl(b.trades);
  }
}
