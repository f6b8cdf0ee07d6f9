/**
 The strategy simulator of the systematic backtest: its ledger, its open and closed positions, and the
 routing of each symbol's candle to that symbol's positions only.
 */
module Simulator {
  import opened Options
  import opened Reals
  import opened TrailingStop

  datatype ExitReason = TakeProfit | TrailingStopHit | TimeLimit

  datatype Candle = Candle(high: real, low: real, close: real)

  datatype Signal = Signal(symbol: string, side: Side, score: real, entryPrice: real, stopPrice: Option<real>,
                           targetPrice: Option<real>)
  {
    predicate HasStop() { stopPrice.Some? && stopPrice.value > 0.0 }
  }

  /** A simulated position; the first five fields never change. A target of zero counts as no target. */
  datatype SimPos = SimPos(
    id: nat, symbol: string, side: Side, entry: real, size: real,
    openedAt: real, high: real, low: real, current: real, trailPct: real, stop: real, maxHold: real,
    target: Option<real>)

  datatype ClosedPos = ClosedPos(pos: SimPos, exitPrice: real, pnl: real, reason: ExitReason)

  const COMMISSION_PCT := 0.00075
  const SLIPPAGE_PCT := 0.0005
  const MAX_OPEN := 20

  function ApplySlippage(price: real, side: Side, entry: bool): real {
    if side.Long? == entry then price * (1.0 + SLIPPAGE_PCT) else price * (1.0 - SLIPPAGE_PCT)
  }

  /** The price a fraction behind another, on the losing side. */
  function Behind(side: Side, price: real, fraction: real): real {
    if side.Long? then price * (1.0 - fraction) else price * (1.0 + fraction)
  }

  function PositionSize(balance: real, score: real): real {
    if balance < 50.0 then 0.0
    else Max(10.0, Min(0.25 * balance * (0.5 + score / 100.0), Min(balance * 0.40, 50000.0)))
  }

  function PnlPct(p: SimPos, exitPrice: real): real
    requires p.entry != 0.0
  {
    if p.side.Long? then (exitPrice - p.entry) / p.entry else (p.entry - exitPrice) / p.entry
  }

  /** Watermarks and trailing stop after a candle; the stop moves only once the trade is well in profit. */
  function Advance(p: SimPos, c: Candle): (q: SimPos)
    requires p.entry != 0.0
    ensures q.entry == p.entry && q.symbol == p.symbol
    ensures AtLeastAsGood(p.side, q.stop, p.stop)
  {
    var q := p.(high := Max(p.high, c.high), low := Min(p.low, c.low), current := c.close);
    var profit := if p.side.Long? then (q.high - p.entry) / p.entry else (p.entry - q.low) / p.entry;
    if profit < p.trailPct * 1.3 then q
    else
      var newStop := Behind(p.side, if p.side.Long? then q.high else q.low, p.trailPct);
      if AtLeastAsGood(p.side, p.stop, newStop) then q else q.(stop := newStop)
  }

  /** The exit of an advanced position on this candle, take-profit first. */
  function ExitOf(p: SimPos, c: Candle, now: real): Option<(real, ExitReason)> {
    if && p.target.Some? && p.target.value != 0.0
       && (if p.side.Long? then c.high >= p.target.value else c.low <= p.target.value) then
      Some((p.target.value, TakeProfit))
    else if (if p.side.Long? then c.low <= p.stop else c.high >= p.stop) then Some((p.stop, TrailingStopHit))
    else if now - p.openedAt >= p.maxHold then Some((c.close, TimeLimit))
    else None
  }

  function CloseAt(p: SimPos, price: real, reason: ExitReason): (x: ClosedPos)
    requires p.entry != 0.0
    ensures x.pos == p
  {
    var exitPrice := ApplySlippage(price, p.side, false);
    ClosedPos(p, exitPrice, p.size * PnlPct(p, exitPrice) - p.size * COMMISSION_PCT, reason)
  }

  ghost predicate Priced(ps: seq<SimPos>) { forall i :: 0 <= i < |ps| ==> ps[i].entry != 0.0 }

  /** The positions a candle leaves open, advanced. */
  function Still(ps: seq<SimPos>, c: Candle, now: real): seq<SimPos>
    requires Priced(ps)
  {
    if ps == [] then []
    else
      var q := Advance(ps[|ps| - 1], c);
      if ExitOf(q, c, now).Some? then Still(ps[..|ps| - 1], c, now) else Still(ps[..|ps| - 1], c, now) + [q]
  }

  /** The positions a candle closes, in order. */
  function Closed(ps: seq<SimPos>, c: Candle, now: real): seq<ClosedPos>
    requires Priced(ps)
  {
    if ps == [] then []
    else
      var q := Advance(ps[|ps| - 1], c);
      match ExitOf(q, c, now)
      case Some((price, reason)) => Closed(ps[..|ps| - 1], c, now) + [CloseAt(q, price, reason)]
      case None => Closed(ps[..|ps| - 1], c, now)
  }

  // ---------- what a candle does, in plain arithmetic ----------

  /** The larger of two. */
  predicate IsLarger(x: real, a: real, b: real) { x >= a && x >= b && (x == a || x == b) }

  /** The best watermark is in profit by 1.3 times the trail at least. */
  ghost predicate TrailActive(p: SimPos) {
    10.0 * (if p.side.Long? then p.high - p.entry else p.entry - p.low) >= 13.0 * (p.trailPct * p.entry)
  }

  /**
   A position after a candle: the watermarks are the extremes so far, the stop is the old one or, once the trail is
   active and it is better, the price a trail behind the best watermark, and nothing else has changed.
   */
  ghost predicate AdvancedTo(p: SimPos, c: Candle, q: SimPos) {
    && q == p.(high := q.high, low := q.low, current := c.close, stop := q.stop)
    && IsLarger(q.high, p.high, c.high) && IsLarger(-q.low, -p.low, -c.low)
    && var trailed := if p.side.Long? then q.high - p.trailPct * q.high else q.low + p.trailPct * q.low;
       q.stop == if TrailActive(q) && (if p.side.Long? then trailed > p.stop else trailed < p.stop) then trailed
                 else p.stop
  }

  ghost predicate TakesProfit(p: SimPos, c: Candle) {
    && p.target.Some? && p.target.value != 0.0
    && if p.side.Long? then c.high >= p.target.value else c.low <= p.target.value
  }

  ghost predicate HitsStop(p: SimPos, c: Candle) { if p.side.Long? then c.low <= p.stop else c.high >= p.stop }

  /** Why an advanced position is closed: its target, else its stop, else its time; and the price before slippage. */
  ghost predicate Leaves(p: SimPos, c: Candle, now: real, price: real, reason: ExitReason) {
    match reason
    case TakeProfit => TakesProfit(p, c) && price == p.target.value
    case TrailingStopHit => !TakesProfit(p, c) && HitsStop(p, c) && price == p.stop
    case TimeLimit => !TakesProfit(p, c) && !HitsStop(p, c) && now - p.openedAt >= p.maxHold && price == c.close
  }

  /** Nothing closes the advanced position. */
  ghost predicate StaysIn(p: SimPos, c: Candle, now: real) {
    !TakesProfit(p, c) && !HitsStop(p, c) && now - p.openedAt < p.maxHold
  }

  /**
   A closed position at a price before slippage: a long sells 0.05% below it, a short buys 0.05% above it; the result is
   the size times the relative price difference, less 0.075% of the size.
   */
  ghost predicate Booked(x: ClosedPos, price: real) {
    var p := x.pos;
    && 10000.0 * x.exitPrice == price * (if p.side.Long? then 9995.0 else 10005.0)
    && 100000.0 * (x.pnl * p.entry)
       == 100000.0 * (p.size * (if p.side.Long? then x.exitPrice - p.entry else p.entry - x.exitPrice))
          - 75.0 * (p.size * p.entry)
  }

  ghost predicate ClosedFor(x: ClosedPos, c: Candle, now: real, price: real) {
    Leaves(x.pos, c, now, price, x.reason) && Booked(x, price)
  }

  ghost predicate ClosedRightly(x: ClosedPos, c: Candle, now: real) { exists price :: ClosedFor(x, c, now, price) }

  /** What a candle makes of some positions, one by one: each stays in, advanced, or is closed for its reason. */
  ghost predicate CandleMeans(ps: seq<SimPos>, c: Candle, now: real, still: seq<SimPos>, closed: seq<ClosedPos>) {
    if ps == [] then still == [] && closed == []
    else
      var p, init := ps[|ps| - 1], ps[..|ps| - 1];
      || (&& still != [] && AdvancedTo(p, c, still[|still| - 1]) && StaysIn(still[|still| - 1], c, now)
          && CandleMeans(init, c, now, still[..|still| - 1], closed))
      || (&& closed != [] && AdvancedTo(p, c, closed[|closed| - 1].pos)
          && ClosedRightly(closed[|closed| - 1], c, now)
          && CandleMeans(init, c, now, still, closed[..|closed| - 1]))
  }

  lemma AdvanceMeans(p: SimPos, c: Candle)
    requires p.entry > 0.0
    ensures AdvancedTo(p, c, Advance(p, c))
  {
    var q := Advance(p, c);
    TrailStarts(if p.side.Long? then q.high - p.entry else p.entry - q.low, p.entry, p.trailPct);
    BehindMeans(p.side, if p.side.Long? then q.high else q.low, p.trailPct);
    hide Behind;
  }

  lemma TrailStarts(gain: real, entry: real, trail: real)
    requires entry > 0.0
    ensures gain / entry < trail * 1.3 <==> 10.0 * gain < 13.0 * (trail * entry)
  {
    QuotientAgainst(gain, entry, trail * 1.3);
    assert trail * 1.3 * entry == 1.3 * (trail * entry);
  }

  lemma BehindMeans(side: Side, price: real, trail: real)
    ensures Behind(side, price, trail) == if side.Long? then price - trail * price else price + trail * price
  {
    assert price * (1.0 - trail) == price - trail * price && price * (1.0 + trail) == price + trail * price;
  }

  /** Each exit of an advanced position happens exactly under its condition. */
  lemma ExitMeans(p: SimPos, c: Candle, now: real, price: real, reason: ExitReason)
    ensures ExitOf(p, c, now) == Some((price, reason)) <==> Leaves(p, c, now, price, reason)
    ensures ExitOf(p, c, now) == None <==> StaysIn(p, c, now)
  {
  }

  lemma CloseMeans(p: SimPos, price: real, reason: ExitReason)
    requires p.entry > 0.0
    ensures Booked(CloseAt(p, price, reason), price)
  {
    var x := CloseAt(p, price, reason);
    var diff := if p.side.Long? then x.exitPrice - p.entry else p.entry - x.exitPrice;
    var r := PnlPct(p, x.exitPrice);
    assert r * p.entry == diff;
    assert p.size * r * p.entry == p.size * (r * p.entry);
    assert p.size * COMMISSION_PCT * p.entry == COMMISSION_PCT * (p.size * p.entry);
    assert x.pnl * p.entry == p.size * r * p.entry - p.size * COMMISSION_PCT * p.entry;
  }

  /** A candle leaves and closes exactly what the arithmetic says. */
  lemma {:induction false} CandleIsExact(ps: seq<SimPos>, c: Candle, now: real)
    requires forall i :: 0 <= i < |ps| ==> ps[i].entry > 0.0
    ensures CandleMeans(ps, c, now, Still(ps, c, now), Closed(ps, c, now))
    decreases |ps|
  {
    if ps != [] {
      var p, init := ps[|ps| - 1], ps[..|ps| - 1];
      CandleIsExact(init, c, now);
      AdvanceMeans(p, c);
      var q := Advance(p, c);
      var e := ExitOf(q, c, now);
      var still, closed := Still(init, c, now), Closed(init, c, now);
      if e.Some? {
        ExitMeans(q, c, now, e.value.0, e.value.1);
        CloseMeans(q, e.value.0, e.value.1);
        hide Advance, ExitOf, AdvancedTo, Leaves, StaysIn, Booked;
        var x := CloseAt(q, e.value.0, e.value.1);
        assert (closed + [x])[..|closed|] == closed && x.reason == e.value.1;
        assert ClosedFor(x, c, now, e.value.0);
      } else {
        ExitMeans(q, c, now, 0.0, TimeLimit);
        hide Advance, ExitOf, AdvancedTo, Leaves, StaysIn, Booked;
        assert (still + [q])[..|still|] == still;
      }
    }
  }

  lemma NothingClosed(c: Candle, now: real)
    ensures Still([], c, now) == [] && Closed([], c, now) == [] && Credit([]) == 0.0
  {
  }

  lemma CandleMore(ps: seq<SimPos>, i: nat, c: Candle, now: real)
    requires Priced(ps) && i < |ps|
    ensures Priced(ps[..i]) && Priced(ps[..i + 1])
    ensures var q := Advance(ps[i], c);
            match ExitOf(q, c, now)
            case Some((price, reason)) =>
              && Still(ps[..i + 1], c, now) == Still(ps[..i], c, now)
              && Closed(ps[..i + 1], c, now) == Closed(ps[..i], c, now) + [CloseAt(q, price, reason)]
            case None =>
              && Still(ps[..i + 1], c, now) == Still(ps[..i], c, now) + [q]
              && Closed(ps[..i + 1], c, now) == Closed(ps[..i], c, now)
  {
    assert ps[..i + 1][..i] == ps[..i];
    hide Advance, ExitOf, CloseAt;
  }

  ghost predicate CandleExplains(ps: seq<SimPos>, c: Candle, now: real, still: seq<SimPos>, closed: seq<ClosedPos>) {
    (forall i :: 0 <= i < |ps| ==> ps[i].entry > 0.0) ==> CandleMeans(ps, c, now, still, closed)
  }

  lemma CandleIsExplained(ps: seq<SimPos>, c: Candle, now: real)
    requires Priced(ps)
    ensures CandleExplains(ps, c, now, Still(ps, c, now), Closed(ps, c, now))
  {
    if forall i :: 0 <= i < |ps| ==> ps[i].entry > 0.0 { CandleIsExact(ps, c, now); }
  }

  /** The size of a position: none below a balance of 50, else the smallest of three amounts, but never less than 10. */
  lemma SizeMeans(balance: real, score: real)
    ensures balance < 50.0 ==> PositionSize(balance, score) == 0.0
    ensures balance >= 50.0 ==>
              var size, raw := PositionSize(balance, score), balance * (50.0 + score) / 400.0;
              && size >= 10.0
              && (size == 10.0 || (size <= raw && 5.0 * size <= 2.0 * balance && size <= 50000.0))
              && (size == 10.0 || size == raw || 5.0 * size == 2.0 * balance || size == 50000.0)
              && (size == 10.0 ==> raw <= 10.0 || 2.0 * balance <= 50.0)
  {
    assert 0.25 * balance * (0.5 + score / 100.0) == balance * (50.0 + score) / 400.0;
  }

  function OfSymbol(ps: seq<SimPos>, symbol: string): seq<SimPos> {
    if ps == [] then []
    else if ps[|ps| - 1].symbol == symbol then OfSymbol(ps[..|ps| - 1], symbol) + [ps[|ps| - 1]]
    else OfSymbol(ps[..|ps| - 1], symbol)
  }

  function NotOfSymbol(ps: seq<SimPos>, symbol: string): seq<SimPos> {
    if ps == [] then []
    else if ps[|ps| - 1].symbol == symbol then NotOfSymbol(ps[..|ps| - 1], symbol)
    else NotOfSymbol(ps[..|ps| - 1], symbol) + [ps[|ps| - 1]]
  }

  // ---------- the ledger ----------

  function Sizes(ps: seq<SimPos>): real {
    if ps == [] then 0.0 else Sizes(ps[..|ps| - 1]) + ps[|ps| - 1].size
  }

  function Pnl(cs: seq<ClosedPos>): real {
    if cs == [] then 0.0 else Pnl(cs[..|cs| - 1]) + cs[|cs| - 1].pnl
  }

  /** What settling credits: the reserved size and the result. */
  function Credit(cs: seq<ClosedPos>): real {
    if cs == [] then 0.0 else Credit(cs[..|cs| - 1]) + (cs[|cs| - 1].pos.size + cs[|cs| - 1].pnl)
  }

  /** Who a position is: what no candle changes. */
  datatype Ticket = Ticket(id: nat, symbol: string, side: Side, entry: real, size: real)

  function TicketOf(p: SimPos): Ticket { Ticket(p.id, p.symbol, p.side, p.entry, p.size) }

  /** How many open positions carry this ticket. */
  function OpenCount(ps: seq<SimPos>, t: Ticket): nat {
    if ps == [] then 0 else OpenCount(ps[..|ps| - 1], t) + if TicketOf(ps[|ps| - 1]) == t then 1 else 0
  }

  /** How many closed positions carry this ticket. */
  function ClosedCount(cs: seq<ClosedPos>, t: Ticket): nat {
    if cs == [] then 0 else ClosedCount(cs[..|cs| - 1], t) + if TicketOf(cs[|cs| - 1].pos) == t then 1 else 0
  }

  /** How often this ticket was issued. */
  function Issued(log: seq<Ticket>, t: Ticket): nat {
    if log == [] then 0 else Issued(log[..|log| - 1], t) + if log[|log| - 1] == t then 1 else 0
  }

  function EntryFees(ts: seq<Ticket>): real {
    if ts == [] then 0.0 else EntryFees(ts[..|ts| - 1]) + ts[|ts| - 1].size * COMMISSION_PCT
  }

  lemma OpenAppend(a: seq<SimPos>, p: SimPos, t: Ticket)
    ensures Sizes(a + [p]) == Sizes(a) + p.size
    ensures OpenCount(a + [p], t) == OpenCount(a, t) + if TicketOf(p) == t then 1 else 0
  {
    assert (a + [p])[..|a|] == a;
  }

  lemma ClosedAppend(a: seq<ClosedPos>, x: ClosedPos, t: Ticket)
    ensures Pnl(a + [x]) == Pnl(a) + x.pnl && Credit(a + [x]) == Credit(a) + (x.pos.size + x.pnl)
    ensures ClosedCount(a + [x], t) == ClosedCount(a, t) + if TicketOf(x.pos) == t then 1 else 0
  {
    assert (a + [x])[..|a|] == a;
  }

  lemma IssuedAppend(a: seq<Ticket>, x: Ticket, t: Ticket)
    ensures EntryFees(a + [x]) == EntryFees(a) + x.size * COMMISSION_PCT
    ensures Issued(a + [x], t) == Issued(a, t) + if x == t then 1 else 0
  {
    assert (a + [x])[..|a|] == a;
  }

  lemma {:induction false} OpenConcat(a: seq<SimPos>, b: seq<SimPos>, t: Ticket)
    ensures Sizes(a + b) == Sizes(a) + Sizes(b) && OpenCount(a + b, t) == OpenCount(a, t) + OpenCount(b, t)
    decreases |b|
  {
    if b == [] {
      assert a + b == a;
    } else {
      var init, last := b[..|b| - 1], b[|b| - 1];
      OpenConcat(a, init, t);
      OpenAppend(a + init, last, t);
      assert a + b == a + init + [last];
    }
  }

  lemma {:induction false} ClosedConcat(a: seq<ClosedPos>, b: seq<ClosedPos>, t: Ticket)
    ensures Pnl(a + b) == Pnl(a) + Pnl(b) && ClosedCount(a + b, t) == ClosedCount(a, t) + ClosedCount(b, t)
    decreases |b|
  {
    if b == [] {
      assert a + b == a;
    } else {
      var init, last := b[..|b| - 1], b[|b| - 1];
      ClosedConcat(a, init, t);
      ClosedAppend(a + init, last, t);
      assert a + b == a + init + [last];
    }
  }

  lemma {:induction false} SplitKeepsSizes(ps: seq<SimPos>, symbol: string, t: Ticket)
    ensures Sizes(ps) == Sizes(OfSymbol(ps, symbol)) + Sizes(NotOfSymbol(ps, symbol))
    ensures OpenCount(ps, t) == OpenCount(OfSymbol(ps, symbol), t) + OpenCount(NotOfSymbol(ps, symbol), t)
  {
    if ps != [] {
      var init, last := ps[..|ps| - 1], ps[|ps| - 1];
      SplitKeepsSizes(init, symbol, t);
      OpenAppend(OfSymbol(init, symbol), last, t);
      OpenAppend(NotOfSymbol(init, symbol), last, t);
    }
  }

  lemma TicketKept(p: SimPos, c: Candle)
    requires p.entry != 0.0
    ensures TicketOf(Advance(p, c)) == TicketOf(p)
  {
  }

  /** A candle moves money only from reserved sizes to cash, and positions only from open to closed. */
  lemma {:induction false} CandleConserves(ps: seq<SimPos>, c: Candle, now: real, t: Ticket)
    requires Priced(ps)
    ensures Sizes(ps) + Pnl(Closed(ps, c, now)) == Sizes(Still(ps, c, now)) + Credit(Closed(ps, c, now))
    ensures OpenCount(ps, t) == OpenCount(Still(ps, c, now), t) + ClosedCount(Closed(ps, c, now), t)
  {
    hide Advance, ExitOf, CloseAt;
    if ps != [] {
      var init, last := ps[..|ps| - 1], ps[|ps| - 1];
      CandleConserves(init, c, now, t);
      TicketKept(last, c);
      var q := Advance(last, c);
      var e := ExitOf(q, c, now);
      if e.Some? {
        ClosedAppend(Closed(init, c, now), CloseAt(q, e.value.0, e.value.1), t);
      } else {
        OpenAppend(Still(init, c, now), q, t);
      }
    }
  }

  /** Every ticket ever issued belongs to exactly one open or closed position, and there are no others. */
  ghost predicate Partition(log: seq<Ticket>, ps: seq<SimPos>, cs: seq<ClosedPos>) {
    forall t :: Issued(log, t) == OpenCount(ps, t) + ClosedCount(cs, t)
  }

  /** Cash plus reserved sizes is the initial balance less every entry fee plus every result. */
  ghost predicate Ledger(balance: real, initial: real, log: seq<Ticket>, ps: seq<SimPos>, cs: seq<ClosedPos>) {
    balance + Sizes(ps) == initial - EntryFees(log) + Pnl(cs)
  }

  lemma OpenKeepsPartition(log: seq<Ticket>, ps: seq<SimPos>, cs: seq<ClosedPos>, p: SimPos)
    requires Partition(log, ps, cs)
    ensures Partition(log + [TicketOf(p)], ps + [p], cs)
  {
    hide TicketOf;
    forall t ensures Issued(log + [TicketOf(p)], t) == OpenCount(ps + [p], t) + ClosedCount(cs, t) {
      OpenAppend(ps, p, t);
      IssuedAppend(log, TicketOf(p), t);
    }
  }

  lemma {:induction false} RouteKeepsPartition(log: seq<Ticket>, ps: seq<SimPos>, cs: seq<ClosedPos>, symbol: string,
                                               c: Candle, now: real)
    requires Priced(ps) && Partition(log, ps, cs)
    ensures Priced(OfSymbol(ps, symbol))
    ensures Partition(log, Routed(ps, symbol, c, now), cs + Closed(OfSymbol(ps, symbol), c, now))
  {
    AllOfSymbol(ps, symbol);
    hide Still, Closed, Sizes, OpenCount, Issued, ClosedCount, OfSymbol, NotOfSymbol;
    var own := OfSymbol(ps, symbol);
    forall t
      ensures Issued(log, t) == OpenCount(Routed(ps, symbol, c, now), t) + ClosedCount(cs + Closed(own, c, now), t)
    {
      SplitKeepsSizes(ps, symbol, t);
      CandleConserves(own, c, now, t);
      OpenConcat(Still(own, c, now), NotOfSymbol(ps, symbol), t);
      ClosedConcat(cs, Closed(own, c, now), t);
    }
  }

  lemma RouteKeepsLedger(balance: real, initial: real, log: seq<Ticket>, ps: seq<SimPos>, cs: seq<ClosedPos>,
                         symbol: string, c: Candle, now: real)
    requires Priced(ps) && Ledger(balance, initial, log, ps, cs)
    ensures Priced(OfSymbol(ps, symbol))
    ensures var closed := Closed(OfSymbol(ps, symbol), c, now);
            Ledger(balance + Credit(closed), initial, log, Routed(ps, symbol, c, now), cs + closed)
  {
    AllOfSymbol(ps, symbol);
    hide Still, Closed, Sizes, EntryFees, Pnl, Credit, OfSymbol, NotOfSymbol;
    var own, t := OfSymbol(ps, symbol), Ticket(0, symbol, Long, 0.0, 0.0);
    SplitKeepsSizes(ps, symbol, t);
    CandleConserves(own, c, now, t);
    OpenConcat(Still(own, c, now), NotOfSymbol(ps, symbol), t);
    ClosedConcat(cs, Closed(own, c, now), t);
  }

  // ---------- routing ----------

  lemma OfSymbolConcat(a: seq<SimPos>, b: seq<SimPos>, x: string)
    ensures OfSymbol(a + b, x) == OfSymbol(a, x) + OfSymbol(b, x)
    decreases |b|
  {
    if b == [] {
      assert a + b == a;
    } else {
      OfSymbolConcat(a, b[..|b| - 1], x);
      assert (a + b)[..|a + b| - 1] == a + b[..|b| - 1];
    }
  }

  lemma OfOthers(ps: seq<SimPos>, symbol: string, x: string)
    ensures OfSymbol(NotOfSymbol(ps, symbol), x) == if x == symbol then [] else OfSymbol(ps, x)
  {
    if ps != [] {
      var init, last := ps[..|ps| - 1], ps[|ps| - 1];
      OfOthers(init, symbol, x);
      OfSymbolConcat(NotOfSymbol(init, symbol), [last], x);
      assert [last][..0] == [];
    }
  }

  lemma OfOwn(ps: seq<SimPos>, symbol: string, x: string)
    requires forall i :: 0 <= i < |ps| ==> ps[i].symbol == symbol
    ensures OfSymbol(ps, x) == if x == symbol then ps else []
  {
    if ps != [] { OfOwn(ps[..|ps| - 1], symbol, x); }
  }

  lemma AllOfSymbol(ps: seq<SimPos>, symbol: string)
    ensures forall i :: 0 <= i < |OfSymbol(ps, symbol)| ==> OfSymbol(ps, symbol)[i].symbol == symbol
    ensures Priced(ps) ==> Priced(OfSymbol(ps, symbol)) && Priced(NotOfSymbol(ps, symbol))
  {
    if ps != [] { AllOfSymbol(ps[..|ps| - 1], symbol); }
  }

  lemma StillKeepsSymbol(ps: seq<SimPos>, c: Candle, now: real, symbol: string)
    requires Priced(ps)
    ensures (forall i :: 0 <= i < |ps| ==> ps[i].symbol == symbol) ==>
              forall i :: 0 <= i < |Still(ps, c, now)| ==> Still(ps, c, now)[i].symbol == symbol
    ensures Priced(Still(ps, c, now))
  {
    if ps != [] { StillKeepsSymbol(ps[..|ps| - 1], c, now, symbol); }
  }

  /** The open positions after the split, the update and the merge for one symbol's candle. */
  function Routed(ps: seq<SimPos>, symbol: string, c: Candle, now: real): seq<SimPos>
    requires Priced(ps)
  {
    AllOfSymbol(ps, symbol);
    Still(OfSymbol(ps, symbol), c, now) + NotOfSymbol(ps, symbol)
  }

  /** Routing one candle updates that symbol's positions and leaves every other symbol's exactly as they were. */
  lemma RouteTouchesOwnSymbolOnly(ps: seq<SimPos>, symbol: string, c: Candle, now: real, x: string)
    requires Priced(ps)
    ensures Priced(OfSymbol(ps, symbol)) && Priced(Routed(ps, symbol, c, now))
    ensures OfSymbol(Routed(ps, symbol, c, now), x) ==
            if x == symbol then Still(OfSymbol(ps, symbol), c, now) else OfSymbol(ps, x)
  {
    AllOfSymbol(ps, symbol);
    var own := Still(OfSymbol(ps, symbol), c, now);
    StillKeepsSymbol(OfSymbol(ps, symbol), c, now, symbol);
    OfSymbolConcat(own, NotOfSymbol(ps, symbol), x);
    OfOwn(own, symbol, x);
    OfOthers(ps, symbol, x);
  }

  /** One time step: the candles of the symbols that have one, in order. */
  function RoutedAll(ps: seq<SimPos>, candles: seq<(string, Candle)>, now: real): (r: seq<SimPos>)
    requires Priced(ps)
    ensures Priced(r)
  {
    if candles == [] then ps
    else
      var before := RoutedAll(ps, candles[..|candles| - 1], now);
      var (symbol, c) := candles[|candles| - 1];
      RouteTouchesOwnSymbolOnly(before, symbol, c, now, symbol);
      Routed(before, symbol, c, now)
  }

  /** What one time step closes, symbol by symbol. */
  function ClosedAll(ps: seq<SimPos>, candles: seq<(string, Candle)>, now: real): seq<ClosedPos>
    requires Priced(ps)
  {
    if candles == [] then []
    else
      var init := candles[..|candles| - 1];
      var (symbol, c) := candles[|candles| - 1];
      AllOfSymbol(RoutedAll(ps, init, now), symbol);
      ClosedAll(ps, init, now) + Closed(OfSymbol(RoutedAll(ps, init, now), symbol), c, now)
  }

  lemma NothingRouted(ps: seq<SimPos>, now: real)
    requires Priced(ps)
    ensures RoutedAll(ps, [], now) == ps && ClosedAll(ps, [], now) == []
  {
  }

  lemma RoutedMore(ps: seq<SimPos>, candles: seq<(string, Candle)>, i: nat, now: real)
    requires Priced(ps) && i < |candles|
    ensures var before := RoutedAll(ps, candles[..i], now);
            && Priced(OfSymbol(before, candles[i].0))
            && RoutedAll(ps, candles[..i + 1], now) == Routed(before, candles[i].0, candles[i].1, now)
            && ClosedAll(ps, candles[..i + 1], now)
               == ClosedAll(ps, candles[..i], now) + Closed(OfSymbol(before, candles[i].0), candles[i].1, now)
  {
    assert candles[..i + 1][..i] == candles[..i];
    AllOfSymbol(RoutedAll(ps, candles[..i], now), candles[i].0);
  }

  ghost predicate OneCandleEach(candles: seq<(string, Candle)>) {
    forall i, j :: 0 <= i < j < |candles| ==> candles[i].0 != candles[j].0
  }

  /**
   Over a whole time step every symbol's positions evolve as if the symbol were alone: they see their own candle
   once, if it has one, and nothing else.
   */
  lemma {:induction false} EachSymbolSeesItsOwnCandle(ps: seq<SimPos>, candles: seq<(string, Candle)>, now: real,
                                                      x: string)
    requires Priced(ps) && OneCandleEach(candles)
    ensures Priced(OfSymbol(ps, x))
    ensures (forall i :: 0 <= i < |candles| ==> candles[i].0 != x) ==>
              OfSymbol(RoutedAll(ps, candles, now), x) == OfSymbol(ps, x)
    ensures forall i :: 0 <= i < |candles| && candles[i].0 == x ==>
              OfSymbol(RoutedAll(ps, candles, now), x) == Still(OfSymbol(ps, x), candles[i].1, now)
    decreases |candles|
  {
    AllOfSymbol(ps, x);
    hide Still, OfSymbol, Routed;
    if candles != [] {
      var init := candles[..|candles| - 1];
      var (symbol, c) := candles[|candles| - 1];
      EachSymbolSeesItsOwnCandle(ps, init, now, x);
      RouteTouchesOwnSymbolOnly(RoutedAll(ps, init, now), symbol, c, now, x);
      forall i | 0 <= i < |candles| && candles[i].0 == x
        ensures OfSymbol(RoutedAll(ps, candles, now), x) == Still(OfSymbol(ps, x), candles[i].1, now)
      {
        if i < |init| {
          assert init[i] == candles[i] && candles[i].0 != candles[|init|].0;
        } else {
          assert forall j :: 0 <= j < |init| ==> init[j] == candles[j] && candles[j].0 != candles[i].0;
        }
      }
    }
  }

  // ---------- at most one open position a symbol ----------

  ghost predicate OnePerSymbol(ps: seq<SimPos>) {
    forall x :: |OfSymbol(ps, x)| <= 1
  }

  lemma StillIsShorter(ps: seq<SimPos>, c: Candle, now: real)
    requires Priced(ps)
    ensures |Still(ps, c, now)| <= |ps|
  {
  }

  lemma RouteKeepsOnePerSymbol(ps: seq<SimPos>, symbol: string, c: Candle, now: real)
    requires Priced(ps) && OnePerSymbol(ps)
    ensures OnePerSymbol(Routed(ps, symbol, c, now))
  {
    AllOfSymbol(ps, symbol);
    StillIsShorter(OfSymbol(ps, symbol), c, now);
    forall x
      ensures |OfSymbol(Routed(ps, symbol, c, now), x)| <= 1
    {
      RouteTouchesOwnSymbolOnly(ps, symbol, c, now, x);
      assert |OfSymbol(ps, x)| <= 1 && |OfSymbol(ps, symbol)| <= 1;
    }
  }

  lemma NoneOfSymbol(ps: seq<SimPos>, x: string)
    requires forall i :: 0 <= i < |ps| ==> ps[i].symbol != x
    ensures OfSymbol(ps, x) == []
  {
  }

  lemma OpenKeepsOnePerSymbol(ps: seq<SimPos>, p: SimPos)
    requires OnePerSymbol(ps) && forall i :: 0 <= i < |ps| ==> ps[i].symbol != p.symbol
    ensures OnePerSymbol(ps + [p])
  {
    NoneOfSymbol(ps, p.symbol);
    forall x
      ensures |OfSymbol(ps + [p], x)| <= 1
    {
      OfSymbolConcat(ps, [p], x);
      assert [p][..0] == [] && |OfSymbol(ps, x)| <= 1;
    }
  }

  /** Closing the first of the open positions keeps the ledger and the partition. */
  lemma CloseFirst(balance: real, initial: real, log: seq<Ticket>, ps: seq<SimPos>, cs: seq<ClosedPos>, x: ClosedPos)
    requires ps != [] && x.pos == ps[0]
    requires Ledger(balance, initial, log, ps, cs) && Partition(log, ps, cs)
    ensures Ledger(balance + (ps[0].size + x.pnl), initial, log, ps[1..], cs + [x])
    ensures Partition(log, ps[1..], cs + [x])
  {
    hide EntryFees, Issued, TicketOf;
    forall t
      ensures Sizes(ps) == ps[0].size + Sizes(ps[1..])
      ensures Pnl(cs + [x]) == Pnl(cs) + x.pnl
      ensures Issued(log, t) == OpenCount(ps[1..], t) + ClosedCount(cs + [x], t)
    {
      OpenConcat([ps[0]], ps[1..], t);
      OpenAppend([], ps[0], t);
      assert [ps[0]] + ps[1..] == ps && [] + [ps[0]] == [ps[0]];
      ClosedAppend(cs, x, t);
      Nothing(t);
    }
    assert Issued(log, TicketOf(ps[0])) == OpenCount(ps[1..], TicketOf(ps[0])) + ClosedCount(cs + [x], TicketOf(ps[0]));
  }

  lemma Nothing(t: Ticket)
    ensures Sizes([]) == 0.0 && OpenCount([], t) == 0 && Pnl([]) == 0.0 && ClosedCount([], t) == 0
  {
  }

  /** The forced close: each position at the last price of its symbol, or at its own last price. */
  function ForcedAll(ps: seq<SimPos>, lastPrices: map<string, real>): seq<ClosedPos>
    requires Priced(ps)
  {
    if ps == [] then []
    else
      var p := ps[|ps| - 1];
      ForcedAll(ps[..|ps| - 1], lastPrices)
      + [CloseAt(p, if p.symbol in lastPrices then lastPrices[p.symbol] else p.current, TimeLimit)]
  }

  /**
   A position as a signal opens it: a long is bought 0.05% above the price, a short sold 0.05% below it; with a stop of
   its own, the trail is the distance to it but no less than 0.5% of the entry; else the stop is the default trail away.
   */
  ghost predicate OpenedBy(p: SimPos, signal: Signal, now: real, defaultTrail: real, maxHold: real) {
    && p.symbol == signal.symbol && p.side == signal.side && p.openedAt == now && p.maxHold == maxHold
    && p.target == signal.targetPrice && p.current == p.high == p.low == p.entry > 0.0
    && 10000.0 * p.entry == signal.entryPrice * (if signal.side.Long? then 10005.0 else 9995.0)
    && if signal.stopPrice.Some? && signal.stopPrice.value > 0.0
       then && p.stop == signal.stopPrice.value
            && IsLarger(p.trailPct * p.entry, 0.005 * p.entry,
                        if signal.side.Long? then p.entry - p.stop else p.stop - p.entry)
       else && p.trailPct == defaultTrail
            && p.stop == if signal.side.Long? then p.entry - defaultTrail * p.entry
                         else p.entry + defaultTrail * p.entry
  }

  /** The forced close books every position at the last price of its symbol, or at its own last price. */
  lemma {:induction false} ForcedMeans(ps: seq<SimPos>, lastPrices: map<string, real>, i: nat)
    requires Priced(ps) && i < |ps| && ps[i].entry > 0.0
    ensures |ForcedAll(ps, lastPrices)| == |ps|
    ensures var x, p := ForcedAll(ps, lastPrices)[i], ps[i];
            && x.pos == p && x.reason == TimeLimit
            && Booked(x, if p.symbol in lastPrices then lastPrices[p.symbol] else p.current)
    decreases |ps|
  {
    ForcedLength(ps, lastPrices);
    if i == |ps| - 1 {
      CloseMeans(ps[i], if ps[i].symbol in lastPrices then lastPrices[ps[i].symbol] else ps[i].current, TimeLimit);
    } else {
      ForcedMeans(ps[..|ps| - 1], lastPrices, i);
    }
    hide Booked, CloseAt;
  }

  lemma {:induction false} ForcedLength(ps: seq<SimPos>, lastPrices: map<string, real>)
    requires Priced(ps)
    ensures |ForcedAll(ps, lastPrices)| == |ps|
  {
    if ps != [] { ForcedLength(ps[..|ps| - 1], lastPrices); }
  }

  // ---------- the simulator object ----------

  class StrategySimulator {
    var balance: real
    var openPositions: seq<SimPos>
    var closedPositions: seq<ClosedPos>
    ghost const initial: real
    ghost var log: seq<Ticket>

    /** The ledger law, the partition of everything opened, and one open position a symbol. */
    ghost predicate Valid()
      reads this
    {
      && Ledger(balance, initial, log, openPositions, closedPositions)
      && Partition(log, openPositions, closedPositions)
      && OnePerSymbol(openPositions) && Priced(openPositions)
    }

    constructor (initial: real)
      ensures Valid() && balance == initial == this.initial && openPositions == [] && closedPositions == [] && log == []
    {
      balance, openPositions, closedPositions := initial, [], [];
      this.initial, log := initial, [];
      new;
      assert OnePerSymbol(openPositions);
    }

    /** There is room, the symbol is free and the cash covers the size and the fee. */
    ghost predicate CanOpen(signal: Signal)
      reads this
    {
      && |openPositions| < MAX_OPEN
      && (forall i :: 0 <= i < |openPositions| ==> openPositions[i].symbol != signal.symbol)
      && PositionSize(balance, signal.score) * (1.0 + COMMISSION_PCT) <= balance
    }

    /** Opens a position if there is room, the symbol is free and the cash covers size and fee. */
    method OpenPosition(signal: Signal, now: real, defaultTrail: real, maxHold: real, newId: nat)
      returns (r: Option<SimPos>)
      requires Valid() && signal.entryPrice > 0.0
      modifies this
      ensures r.Some? <==> old(CanOpen(signal))
      ensures Valid() && closedPositions == old(closedPositions)
      ensures r.None? ==> balance == old(balance) && openPositions == old(openPositions) && log == old(log)
      ensures r.Some? ==>
                && openPositions == old(openPositions) + [r.value] && log == old(log) + [TicketOf(r.value)]
                && r.value.id == newId && r.value.size == PositionSize(old(balance), signal.score)
                && 100000.0 * (old(balance) - balance) == 100075.0 * r.value.size && balance >= 0.0
                && OpenedBy(r.value, signal, now, defaultTrail, maxHold)
    {
      if |openPositions| >= MAX_OPEN {
        return None;
      }
      if exists i :: 0 <= i < |openPositions| && openPositions[i].symbol == signal.symbol {
        return None;
      }
      var size := PositionSize(balance, signal.score);
      var entry := ApplySlippage(signal.entryPrice, signal.side, true);
      var commission := size * COMMISSION_PCT;
      if size + commission > balance {
        return None;
      }
      EntryPositive(signal.entryPrice, signal.side);
      var pos := NewPosition(signal, size, entry, now, defaultTrail, maxHold, newId);
      hide OpenedBy;
      Book(pos);
      r := Some(pos);
    }

    /** The position of a signal: a stop of its own decides the trail, else the default trail decides the stop. */
    method NewPosition(signal: Signal, size: real, entry: real, now: real, defaultTrail: real, maxHold: real,
                       newId: nat)
      returns (pos: SimPos)
      requires entry == ApplySlippage(signal.entryPrice, signal.side, true) && entry > 0.0
      ensures OpenedBy(pos, signal, now, defaultTrail, maxHold)
      ensures pos.id == newId && pos.size == size && pos.entry == entry && pos.symbol == signal.symbol
    {
      StopDistance(signal.side, entry, signal.stopPrice, defaultTrail);
      assert 10000.0 * entry == signal.entryPrice * (if signal.side.Long? then 10005.0 else 9995.0);
      hide Behind, Max, ApplySlippage;
      var trail, stop := defaultTrail, 0.0;
      if signal.HasStop() {
        stop := signal.stopPrice.value;
        trail := Max(0.005, if signal.side.Long? then (entry - stop) / entry else (stop - entry) / entry);
      } else {
        stop := Behind(signal.side, entry, trail);
      }
      pos := SimPos(newId, signal.symbol, signal.side, entry, size, now, entry, entry, entry, trail, stop, maxHold,
                    signal.targetPrice);
    }

    /** Reserves the size, pays the fee and records the position. */
    method Book(pos: SimPos)
      requires Valid() && pos.entry != 0.0
      requires forall i :: 0 <= i < |openPositions| ==> openPositions[i].symbol != pos.symbol
      modifies this
      ensures Valid() && closedPositions == old(closedPositions)
      ensures openPositions == old(openPositions) + [pos] && log == old(log) + [TicketOf(pos)]
      ensures balance == old(balance) - (pos.size + pos.size * COMMISSION_PCT)
    {
      OpenAppend(openPositions, pos, TicketOf(pos));
      IssuedAppend(log, TicketOf(pos), TicketOf(pos));
      OpenKeepsPartition(log, openPositions, closedPositions, pos);
      OpenKeepsOnePerSymbol(openPositions, pos);
      hide OnePerSymbol, Partition;
      balance := balance - (pos.size + pos.size * COMMISSION_PCT);
      openPositions := openPositions + [pos];
      log := log + [TicketOf(pos)];
    }

    /** Updates the open positions with a candle; the closed ones are settled and returned. */
    method UpdatePositions(c: Candle, now: real) returns (closed: seq<ClosedPos>)
      requires Priced(openPositions)
      modifies this
      ensures closed == Closed(old(openPositions), c, now)
      ensures openPositions == Still(old(openPositions), c, now)
      ensures closedPositions == old(closedPositions) + closed
      ensures balance == old(balance) + Credit(closed) && log == old(log)
      ensures CandleExplains(old(openPositions), c, now, openPositions, closed)
    {
      CandleIsExplained(openPositions, c, now);
      NothingClosed(c, now);
      hide CandleExplains, Advance, ExitOf, CloseAt, Still, Closed, Credit;
      closed := [];
      var stillOpen, ps, i := [], openPositions, 0;
      while i < |ps|
        invariant 0 <= i <= |ps| && ps == old(openPositions) && Priced(ps[..i]) && log == old(log)
        invariant closed == Closed(ps[..i], c, now) && stillOpen == Still(ps[..i], c, now)
        invariant closedPositions == old(closedPositions) + closed
        invariant balance == old(balance) + Credit(closed)
      {
        CandleMore(ps, i, c, now);
        var pos := Advance(ps[i], c);
        var exit := ExitOf(pos, c, now);
        if exit.Some? {
          var x := CloseAt(pos, exit.value.0, exit.value.1);
          balance := balance + (x.pos.size + x.pnl);
          closedPositions := closedPositions + [x];
          ClosedAppend(closed, x, TicketOf(pos));
          closed := closed + [x];
        } else {
          stillOpen := stillOpen + [pos];
        }
        i := i + 1;
      }
      assert ps[..i] == ps;
      openPositions := stillOpen;
    }

    /** One symbol's candle: split off its positions, update them, merge the others back. */
    method RouteCandle(symbol: string, c: Candle, now: real)
      requires Valid()
      modifies this
      ensures Valid() && log == old(log)
      ensures openPositions == Routed(old(openPositions), symbol, c, now)
      ensures Priced(OfSymbol(old(openPositions), symbol))
      ensures closedPositions == old(closedPositions) + Closed(OfSymbol(old(openPositions), symbol), c, now)
    {
      hide OnePerSymbol, Partition, Ledger, OfSymbol, NotOfSymbol, Still, Closed, Credit;
      var symPositions, otherPositions := OfSymbol(openPositions, symbol), NotOfSymbol(openPositions, symbol);
      AllOfSymbol(openPositions, symbol);
      RouteKeepsLedger(balance, initial, log, openPositions, closedPositions, symbol, c, now);
      RouteKeepsPartition(log, openPositions, closedPositions, symbol, c, now);
      RouteKeepsOnePerSymbol(openPositions, symbol, c, now);
      RouteTouchesOwnSymbolOnly(openPositions, symbol, c, now, symbol);
      openPositions := symPositions;
      var closed := UpdatePositions(c, now);
      openPositions := openPositions + otherPositions;
    }

    /** The positions and the closed list after routing some candles of a time step that began with ps and was. */
    ghost predicate RoutedSoFar(ps: seq<SimPos>, was: seq<ClosedPos>, candles: seq<(string, Candle)>, now: real)
      requires Priced(ps)
      reads this
    {
      openPositions == RoutedAll(ps, candles, now) && closedPositions == was + ClosedAll(ps, candles, now)
    }

    /** Routes the next candle of a time step. */
    method RouteNext(ghost ps: seq<SimPos>, ghost was: seq<ClosedPos>, candles: seq<(string, Candle)>, i: nat,
                     now: real)
      requires Valid() && Priced(ps) && i < |candles| && RoutedSoFar(ps, was, candles[..i], now)
      modifies this
      ensures Valid() && log == old(log) && RoutedSoFar(ps, was, candles[..i + 1], now)
    {
      RoutedMore(ps, candles, i, now);
      hide Routed, Closed, OfSymbol, Valid, Priced, RoutedAll, ClosedAll;
      RouteCandle(candles[i].0, candles[i].1, now);
    }

    /** One time step: every symbol that has a candle is routed in turn. */
    method RouteAll(candles: seq<(string, Candle)>, now: real)
      requires Valid()
      modifies this
      ensures Valid() && log == old(log)
      ensures openPositions == RoutedAll(old(openPositions), candles, now)
      ensures closedPositions == old(closedPositions) + ClosedAll(old(openPositions), candles, now)
    {
      ghost var ps, was := openPositions, closedPositions;
      assert Priced(ps);
      NothingRouted(ps, now);
      assert candles[..0] == [];
      assert RoutedSoFar(ps, was, candles[..0], now);
      hide Valid, Priced, RoutedSoFar;
      for i := 0 to |candles|
        invariant Valid() && log == old(log) && RoutedSoFar(ps, was, candles[..i], now)
      {
        RouteNext(ps, was, candles, i, now);
      }
      assert candles[..|candles|] == candles;
      WholeStep(ps, was, candles, now);
    }

    lemma WholeStep(ps: seq<SimPos>, was: seq<ClosedPos>, candles: seq<(string, Candle)>, now: real)
      requires Priced(ps) && RoutedSoFar(ps, was, candles, now)
      ensures openPositions == RoutedAll(ps, candles, now) && closedPositions == was + ClosedAll(ps, candles, now)
    {
    }

    /** The forced close of one position, the first of those still to be closed. */
    method ForceClose(pos: SimPos, ghost rest: seq<SimPos>, lastPrices: map<string, real>)
      requires rest != [] && pos == rest[0] && pos.entry != 0.0
      requires Ledger(balance, initial, log, rest, closedPositions) && Partition(log, rest, closedPositions)
      modifies this
      ensures openPositions == old(openPositions) && log == old(log)
      ensures Ledger(balance, initial, log, rest[1..], closedPositions) && Partition(log, rest[1..], closedPositions)
      ensures closedPositions == old(closedPositions)
                + [CloseAt(pos, if pos.symbol in lastPrices then lastPrices[pos.symbol] else pos.current, TimeLimit)]
    {
      hide Ledger, Partition;
      var lastPrice := if pos.symbol in lastPrices then lastPrices[pos.symbol] else pos.current;
      var x := CloseAt(pos, lastPrice, TimeLimit);
      CloseFirst(balance, initial, log, rest, closedPositions, x);
      balance := balance + (pos.size + x.pnl);
      closedPositions := closedPositions + [x];
    }

    /** Closes everything at the last price of its symbol, or at its own last price. */
    method ForceCloseAll(lastPrices: map<string, real>)
      requires Valid()
      modifies this
      ensures Valid() && openPositions == [] && log == old(log)
      ensures Priced(old(openPositions))
      ensures closedPositions == old(closedPositions) + ForcedAll(old(openPositions), lastPrices)
      ensures balance == initial - EntryFees(log) + Pnl(closedPositions)
      ensures forall t :: Issued(log, t) == ClosedCount(closedPositions, t)
    {
      var ps, i := openPositions, 0;
      assert ps[0..] == ps && ps[..0] == [] && OnePerSymbol([]);
      assert ForcedAll([], lastPrices) == [] && Priced([]);
      hide Ledger, Partition, ForcedAll, OnePerSymbol;
      while i < |ps|
        invariant 0 <= i <= |ps| && ps == old(openPositions) && openPositions == ps && log == old(log)
        invariant closedPositions == old(closedPositions) + ForcedAll(ps[..i], lastPrices)
        invariant Ledger(balance, initial, log, ps[i..], closedPositions)
        invariant Partition(log, ps[i..], closedPositions)
      {
        ForcedMore(ps, i, lastPrices);
        assert ps[i..][1..] == ps[i + 1..];
        ForceClose(ps[i], ps[i..], lastPrices);
        i := i + 1;
      }
      assert ps[..i] == ps && ps[i..] == [];
      openPositions := [];
      NothingOpen(balance, initial, log, closedPositions);
    }
  }

  lemma ForcedMore(ps: seq<SimPos>, i: nat, lastPrices: map<string, real>)
    requires Priced(ps) && i < |ps|
    ensures var p := ps[i];
            ForcedAll(ps[..i + 1], lastPrices) == ForcedAll(ps[..i], lastPrices)
              + [CloseAt(p, if p.symbol in lastPrices then lastPrices[p.symbol] else p.current, TimeLimit)]
  {
    assert ps[..i + 1][..i] == ps[..i];
  }

  lemma NothingOpen(balance: real, initial: real, log: seq<Ticket>, cs: seq<ClosedPos>)
    requires Ledger(balance, initial, log, [], cs) && Partition(log, [], cs)
    ensures balance == initial - EntryFees(log) + Pnl(cs)
    ensures forall t :: Issued(log, t) == ClosedCount(cs, t)
  {
    forall t ensures Issued(log, t) == ClosedCount(cs, t) { Nothing(t); }
  }

  /** The trail as a part of the entry, and the stop a trail behind it, in units of the price. */
  lemma StopDistance(side: Side, entry: real, stop: Option<real>, trail: real)
    requires entry > 0.0
    ensures Behind(side, entry, trail) == if side.Long? then entry - trail * entry else entry + trail * entry
    ensures stop.Some? ==>
              var distance := if side.Long? then entry - stop.value else stop.value - entry;
              IsLarger(Max(0.005, distance / entry) * entry, 0.005 * entry, distance)
  {
    BehindMeans(side, entry, trail);
    if stop.Some? {
      var distance := if side.Long? then entry - stop.value else stop.value - entry;
      var part := distance / entry;
      assert part * entry == distance;
      if part <= 0.005 {
        MulMonotone(part, 0.005, entry);
      } else {
        MulMonotone(0.005, part, entry);
      }
    }
  }

  lemma EntryPositive(price: real, side: Side)
    requires price > 0.0
    ensures ApplySlippage(price, side, true) > 0.0
  {
  }
}
