/**
 The executor object: opens, price updates and closes as they change its fields in place. Each method is
 proved to be a run of the close protocol by one thread, so every law of the protocol holds of the object.
 */
module Executors {
  import opened Buffers
  import opened CloseProtocol
  import opened Options
  import opened Positions
  import opened Reals
  import opened TrailingStop

  /** What the brain asks for; sizeMult is the funding multiplier. */
  datatype Decision = Decision(symbol: string, side: Side, size: real, entryPrice: real, stopPct: real, targetPct: real,
                               sizeMult: real)

  /** The exchange's answer to an order: filled at a price and quantity (0 where it reports none), or not. */
  datatype Reply = Filled(price: real, quantity: real) | Failed | Raised

  const MAX_POSITIONS := 10
  const MAX_CLOSED_TRADES := 500
  const MIN_ORDER_USD := 10.0
  const MIN_BALANCE_USD := 5.0
  const MIN_ATR_STOP := 0.025

  /** The smallest of three. */
  predicate IsSmallest(x: real, a: real, b: real, c: real) {
    x <= a && x <= b && x <= c && (x == a || x == b || x == c)
  }

  /**
   A stop and a target after the volatility adjustment: the stop is the asked one or, if that is nearer, 1.5 times the
   volatility but no less than 2.5%; the target is the asked one or, if that is farther, three times the volatility.
   */
  ghost predicate AdjustedTo(d: Decision, atrPct: real, stopPct: real, targetPct: real) {
    && stopPct <= d.stopPct && (stopPct <= 0.025 || 2.0 * stopPct <= 3.0 * atrPct)
    && (stopPct == d.stopPct || stopPct == 0.025 || 2.0 * stopPct == 3.0 * atrPct)
    && (stopPct < d.stopPct ==> stopPct >= 0.025 && 2.0 * stopPct >= 3.0 * atrPct)
    && targetPct >= d.targetPct && targetPct >= 3.0 * atrPct && (targetPct == d.targetPct || targetPct == 3.0 * atrPct)
  }

  /** The part of a position that no tick changes. */
  function Fixed(p: Pos): Contract {
    Contract(p.id, p.symbol, p.terms, p.size, p.quantity, p.entryCommission)
  }

  /** An object has it from the moment it is opened. */
  function ContractOf(p: Position): Contract {
    Fixed(Opened(p.id, p.symbol, p.terms, p.size, p.quantity, p.openedAt, p.entryCommission))
  }

  /** The values of some positions. */
  function Views(ps: seq<Position>): (r: seq<Pos>)
    reads ps
    ensures |r| == |ps| && forall i :: 0 <= i < |ps| ==> r[i] == ps[i].View()
  {
    if ps == [] then [] else Views(ps[..|ps| - 1]) + [ps[|ps| - 1].View()]
  }

  function Contracts(ps: seq<Position>): (r: seq<Contract>)
    ensures |r| == |ps|
    ensures forall i :: 0 <= i < |ps| ==> r[i] == ContractOf(ps[i])
  {
    seq(|ps|, i requires 0 <= i < |ps| => ContractOf(ps[i]))
  }

  /** The positions that remain when one id is taken out. */
  function Drop(ps: seq<Position>, id: nat): (r: seq<Position>)
    ensures forall p :: p in r ==> p in ps
  {
    if ps == [] then []
    else if ps[|ps| - 1].id == id then Drop(ps[..|ps| - 1], id)
    else Drop(ps[..|ps| - 1], id) + [ps[|ps| - 1]]
  }

  lemma ContractsOfDrop(ps: seq<Position>, id: nat)
    ensures Contracts(Drop(ps, id)) == Without(Contracts(ps), id)
  {
    if ps != [] {
      ContractsOfDrop(ps[..|ps| - 1], id);
      assert Contracts(ps)[..|ps| - 1] == Contracts(ps[..|ps| - 1]);
    }
  }

  lemma TrackedPosition(ps: seq<Position>, p: Position)
    requires p in ps
    ensures ContractOf(p) in Contracts(ps) && p.id in Ids(Contracts(ps))
  {
    var i :| 0 <= i < |ps| && ps[i] == p;
    assert Contracts(ps)[i] == ContractOf(p);
    Member(Contracts(ps), ContractOf(p));
  }

  lemma DistinctObjects(ps: seq<Position>)
    requires DistinctIds(Contracts(ps))
    ensures forall i, j :: 0 <= i < j < |ps| ==> ps[i] != ps[j]
    ensures forall p, q :: p in ps && q in ps && p.id == q.id ==> p == q
  {
    if ps != [] {
      var init := ps[..|ps| - 1];
      assert ps == init + [ps[|ps| - 1]];
      assert Contracts(ps)[..|ps| - 1] == Contracts(init);
      DistinctObjects(init);
      forall p | p in init
        ensures p.id != ps[|ps| - 1].id
      {
        TrackedPosition(init, p);
      }
    }
  }

  lemma DropIsExact(ps: seq<Position>, p: Position)
    requires DistinctIds(Contracts(ps))
    ensures forall q :: q in Drop(ps, p.id) <==> q in ps && q.id != p.id
  {
    if ps != [] {
      var init, last := ps[..|ps| - 1], ps[|ps| - 1];
      assert ps == init + [last];
      assert Contracts(ps)[..|ps| - 1] == Contracts(init);
      DropIsExact(init, p);
    }
  }

  class Executor {
    const paper: bool
    const maxPositionUsd: real
    const maxDailyLoss: real
    var balance: real
    var dailyPnl: real
    var totalCommissions: real
    var positions: seq<Position>
    var closing: set<nat>
    var closedTrades: seq<Settled>
    ghost const start: State
    ghost var run: seq<Action>
    ghost var disk: Books
    ghost var ever: seq<Position>
    ghost var history: seq<Settled>

    /** The executor as a protocol state with a single, idle thread; it resets no day and reconciles nothing. */
    ghost function View(): State
      reads this
    {
      State(!paper, Contracts(positions), closing, [Idle], balance, dailyPnl, totalCommissions, disk,
            map[], Contracts(ever), history, 0)
    }

    /** The object is where some run of the protocol from its initial state leads, and its books are saved. */
    ghost predicate Valid()
      reads this
    {
      && Initial(start) && Enables(start, run) && Undisturbed(run) && View() == After(start, run)
      && disk == BooksOf(View())
      && closedTrades == LastN(history, MAX_CLOSED_TRADES)
    }

    constructor (paper: bool, initialBalance: real, maxPositionUsd: real, maxDailyLoss: real)
      ensures Valid() && balance == initialBalance == start.balance && this.paper == paper
    {
      this.paper, this.maxPositionUsd, this.maxDailyLoss := paper, maxPositionUsd, maxDailyLoss;
      balance, dailyPnl, totalCommissions := initialBalance, 0.0, 0.0;
      positions, closing, closedTrades := [], {}, [];
      ever, history, run, disk := [], [], [], Books(initialBalance, 0.0, [], 0, 0);
      start := State(!paper, [], {}, [Idle], initialBalance, 0.0, 0.0, Books(initialBalance, 0.0, [], 0, 0), map[],
                     [], [], 0);
    }

    /** So every law of the protocol's runs holds of the object: nothing settles twice, the books balance exactly. */
    lemma Lawful()
      requires Valid()
      ensures Safe(View()) && Tracked(View())
      ensures balance + Sizes(Contracts(positions)) + EntryFees(Contracts(ever)) == start.balance + Pnl(history)
      ensures totalCommissions == EntryFees(Contracts(ever)) + ExitFees(history) && dailyPnl == Pnl(history)
      ensures closedTrades == LastN(history, 500) && forall x :: x in history ==> RecordMeans(x)
    {
      EveryRecordMeans(start, run);
      RunKeepsInvariants(start, run);
      UndisturbedLedger(start, run);
      assert history[0..] == history;
    }

    /**
     A restart between two calls brings back every book that is saved: cash, fees, tracked contracts and history; only
     today's result starts over. Trails and prices move without a save and are not among these books.
     */
    lemma RestartKeepsBooks()
      requires Valid()
      ensures Next(View(), Restart) == View().(closing := {}, dailyPnl := 0.0, today := |history|)
    {
      assert View().ever[..|View().ever|] == View().ever && View().settled[..|View().settled|] == View().settled;
    }

    /** The size of an order: the request under the position limit and the share of the balance. */
    function OrderSize(d: Decision): real
      reads this
    {
      Min(Min(d.size * d.sizeMult, maxPositionUsd), balance * (if d.sizeMult > 1.0 then 0.5 else 0.4))
    }

    /** The symbol is tracked. */
    predicate Holds(symbol: string)
      reads this
    {
      exists i :: 0 <= i < |positions| && positions[i].symbol == symbol
    }

    /** The decision with its stop and target moved to the volatility the entry filters measured, if they did. */
    function Adjusted(d: Decision, atrPct: real): Decision {
      if paper || atrPct <= 0.0 then d
      else d.(stopPct := Min(d.stopPct, Max(MIN_ATR_STOP, 1.5 * atrPct)), targetPct := Max(d.targetPct, 3.0 * atrPct))
    }

    lemma AdjustedMeans(d: Decision, atrPct: real)
      ensures paper || atrPct <= 0.0 ==> Adjusted(d, atrPct) == d
      ensures !paper && atrPct > 0.0 ==>
                AdjustedTo(d, atrPct, Adjusted(d, atrPct).stopPct, Adjusted(d, atrPct).targetPct)
    {
    }

    /** When an order is placed. */
    predicate CanOrder(d: Decision, guards: bool)
      reads this
    {
      && guards && |positions| < MAX_POSITIONS && dailyPnl > -maxDailyLoss && balance >= MIN_BALANCE_USD
      && !Holds(d.symbol) && d.entryPrice > 0.0
      && OrderSize(d) >= MIN_ORDER_USD && OrderSize(d) + OrderSize(d) * COMMISSION_PCT <= balance
    }

    /** When an order of a size may be placed, in plain arithmetic. */
    ghost predicate Affordable(d: Decision, guards: bool, size: real)
      reads this
    {
      && guards && |positions| < 10 && dailyPnl + maxDailyLoss > 0.0 && balance >= 5.0 && d.entryPrice > 0.0
      && (forall p :: p in positions ==> p.symbol != d.symbol)
      && size >= 10.0 && 10004.0 * size <= 10000.0 * balance
    }

    /** The size of an order is the smallest of three amounts, and it is placed exactly if that size is affordable. */
    lemma OrderMeans(d: Decision, guards: bool)
      ensures IsSmallest(OrderSize(d), d.size * d.sizeMult, maxPositionUsd,
                         if d.sizeMult > 1.0 then balance / 2.0 else balance * 2.0 / 5.0)
      ensures CanOrder(d, guards) <==> Affordable(d, guards, OrderSize(d))
    {
      assert Holds(d.symbol) <==> exists p :: p in positions && p.symbol == d.symbol;
    }

    /** The checks before an order: 0 when it is refused, its size otherwise. */
    method CheckOrder(d: Decision, guards: bool) returns (size: real)
      ensures size == if CanOrder(d, guards) then OrderSize(d) else 0.0
      ensures size != 0.0 ==>
                && Affordable(d, guards, size)
                && IsSmallest(size, d.size * d.sizeMult, maxPositionUsd,
                              if d.sizeMult > 1.0 then balance / 2.0 else balance * 2.0 / 5.0)
    {
      OrderMeans(d, guards);
      if |positions| >= MAX_POSITIONS || dailyPnl <= -maxDailyLoss || balance < MIN_BALANCE_USD || !guards {
        return 0.0;
      }
      if Holds(d.symbol) {
        return 0.0;
      }
      size := OrderSize(d);
      if size < MIN_ORDER_USD || size + size * COMMISSION_PCT > balance || d.entryPrice <= 0.0 {
        return 0.0;
      }
    }

    /** Debits and records a new position. */
    method Record(pos: Position)
      modifies this
      ensures closedTrades == old(closedTrades) && history == old(history) && run == old(run) && disk == old(disk)
      ensures positions == old(positions) + [pos] && ever == old(ever) + [pos]
      ensures View() == RecordedState(old(View()), ContractOf(pos))
    {
      balance := balance - (pos.size + pos.entryCommission);
      totalCommissions := totalCommissions + pos.entryCommission;
      positions := positions + [pos];
      ever := ever + [pos];
      assert Contracts(positions) == old(View()).positions + [ContractOf(pos)];
      assert Contracts(ever) == old(View()).ever + [ContractOf(pos)];
    }

    /** Writes the state file: the snapshot and the write of it, with no other save in between. */
    method SaveState()
      modifies this`disk
      ensures Enabled(old(View()), Snapshot(0)) && Enabled(Next(old(View()), Snapshot(0)), Write(0))
      ensures View() == Next(Next(old(View()), Snapshot(0)), Write(0)) == old(View()).(disk := BooksOf(old(View())))
    {
      SaveAtOnce(View(), 0);
      disk := BooksOf(View());
    }

    /** The protocol run of an open. */
    ghost function OpenRun(pos: Contract): seq<Action> { [Open(pos), Snapshot(0), Write(0)] }

    /** Creates, records and saves the position of an order that went through: the Open step of the protocol. */
    method Admit(d: Decision, entry: real, quantity: real, size: real, newId: nat, nowMs: real) returns (pos: Position)
      requires Valid() && newId !in Ids(Contracts(ever)) && entry > 0.0
      modifies this
      ensures Valid() && fresh(pos) && positions == old(positions) + [pos] && ever == old(ever) + [pos]
      ensures pos.View() == Opened(newId, d.symbol, Terms(d.side, entry, d.stopPct, d.targetPct), size, quantity, nowMs,
                                   size * COMMISSION_PCT)
      ensures Enables(old(View()), OpenRun(ContractOf(pos))) && View() == After(old(View()), OpenRun(ContractOf(pos)))
      ensures balance == old(balance) - (size + size * COMMISSION_PCT)
      ensures totalCommissions == old(totalCommissions) + size * COMMISSION_PCT
    {
      pos := new Position(newId, d.symbol, Terms(d.side, entry, d.stopPct, d.targetPct), size, quantity, nowMs,
                          size * COMMISSION_PCT);
      OpenSteps(View(), ContractOf(pos));
      OpenIsUndisturbed(run, ContractOf(pos));
      hide After, Enables, RecordedState, Undisturbed, OpenRun, BooksOf, LastN;
      Extend(start, run, OpenRun(ContractOf(pos)));
      Record(pos);
      SaveState();
      run := run + OpenRun(ContractOf(pos));
    }

    lemma OpenIsUndisturbed(run: seq<Action>, pos: Contract)
      requires Undisturbed(run)
      ensures Undisturbed(run + OpenRun(pos)) && OpenRun(pos) == [Open(pos), Snapshot(0), Write(0)]
    {
    }

    /** The price of an order that went through: the fill the exchange reports, or else the requested one. */
    function FillPrice(price: real, reply: Reply): real {
      if !paper && reply.Filled? && reply.price > 0.0 then reply.price else price
    }

    /** The price and quantity of the fill: the exchange's where it reports them, the requested ones otherwise. */
    method FillOf(d: Decision, size: real, reply: Reply) returns (entry: real, quantity: real)
      requires d.entryPrice > 0.0
      ensures entry == FillPrice(d.entryPrice, reply) && entry > 0.0
      ensures quantity == if !paper && reply.Filled? && reply.quantity > 0.0 then reply.quantity
                          else size / d.entryPrice
    {
      entry, quantity := d.entryPrice, size / d.entryPrice;
      if !paper && reply.Filled? {
        entry := if reply.price > 0.0 then reply.price else entry;
        quantity := if reply.quantity > 0.0 then reply.quantity else quantity;
      }
    }

    /** A position as an order opens it, with so much cash at hand, in plain arithmetic. */
    ghost predicate Placed(v: Pos, d: Decision, atrPct: real, reply: Reply, cash: real) {
      && v.currentPrice == v.high == v.terms.entry && v.low == None && v.recent == []
      && v.symbol == d.symbol && v.terms.side == d.side && v.trail == 0.0 && v.terms.Valid()
      && v.terms.entry == (if !paper && reply.Filled? && reply.price > 0.0 then reply.price else d.entryPrice)
      && (if paper || atrPct <= 0.0 then v.terms.stopPct == d.stopPct && v.terms.targetPct == d.targetPct
          else AdjustedTo(d, atrPct, v.terms.stopPct, v.terms.targetPct))
      && IsSmallest(v.size, d.size * d.sizeMult, maxPositionUsd,
                    if d.sizeMult > 1.0 then cash / 2.0 else cash * 2.0 / 5.0)
      && v.size >= 10.0 && 10000.0 * v.entryCommission == 4.0 * v.size
      && (paper ==> v.size == v.terms.entry * v.quantity)
    }

    lemma PlacedMeans(d: Decision, atrPct: real, reply: Reply, cash: real, v: Pos)
      requires d.stopPct > 0.0 && d.entryPrice > 0.0 && v.trail == 0.0 && v.symbol == d.symbol && v.size >= 10.0
      requires v.entryCommission == v.size * COMMISSION_PCT
      requires v.terms == Terms(d.side, FillPrice(d.entryPrice, reply), Adjusted(d, atrPct).stopPct,
                                Adjusted(d, atrPct).targetPct)
      requires IsSmallest(v.size, d.size * d.sizeMult, maxPositionUsd,
                          if d.sizeMult > 1.0 then cash / 2.0 else cash * 2.0 / 5.0)
      requires paper ==> v.quantity == v.size / d.entryPrice
      requires v.currentPrice == v.high == v.terms.entry && v.low == None && v.recent == []
      ensures Placed(v, d, atrPct, reply, cash)
    {
      AdjustedMeans(d, atrPct);
      if paper { Undivide(v.size, d.entryPrice, v.quantity); }
    }

    /**
     Opens a position, or leaves the books alone. guards stands for the drawdown and protection checks and the entry
     filters, atrPct for the volatility these measured (0 where they measured none); reply is the exchange's answer in
     live mode. The position has the adjusted stop and target: never a wider stop nor a nearer target than asked for.
     */
    method OpenPosition(d: Decision, guards: bool, atrPct: real, reply: Reply, newId: nat, nowMs: real)
      returns (r: Option<Position>)
      requires Valid() && d.stopPct > 0.0
      requires newId !in Ids(Contracts(ever))
      modifies this
      ensures Valid()
      ensures r.Some? <==> old(Affordable(d, guards, OrderSize(d))) && GoesThrough(reply)
      ensures r.None? ==> View() == old(View()) && positions == old(positions)
      ensures r.Some? ==>
                && fresh(r.value) && positions == old(positions) + [r.value]
                && r.value.id == newId && r.value.openedAt == nowMs
                && Placed(r.value.View(), d, atrPct, reply, old(balance)) && r.value.size == old(OrderSize(d))
                && balance == old(balance) - r.value.size - r.value.entryCommission && 0.0 <= balance
                && totalCommissions == old(totalCommissions) + r.value.entryCommission
                && Enables(old(View()), OpenRun(ContractOf(r.value)))
                && View() == After(old(View()), OpenRun(ContractOf(r.value)))
    {
      OrderMeans(d, guards);
      var size := CheckOrder(d, guards);
      if size == 0.0 || (!paper && !reply.Filled?) {
        return None;
      }
      hide Affordable, OrderSize, Valid, Enables, After, IsSmallest, CanOrder;
      var entry, quantity := FillOf(d, size, reply);
      var pos := Admit(Adjusted(d, atrPct), entry, quantity, size, newId, nowMs);
      PlacedMeans(d, atrPct, reply, old(balance), pos.View());
      hide Placed, Adjusted;
      r := Some(pos);
    }

    /** Whether an order goes through: always on paper, otherwise as the exchange answers. */
    predicate GoesThrough(reply: Reply) { paper || reply.Filled? }

    /** The protocol run of a close by a single thread. */
    ghost function CloseRun(pos: Contract, price: real, reason: Reason, reply: Reply): seq<Action> {
      if GoesThrough(reply) then
        [Begin(0, pos, price, reason), Fill(0, if paper || reply.price <= 0.0 then 0.0 else reply.price),
         Action.Settle(0), Snapshot(0), Write(0), Release(0)]
      else [Begin(0, pos, price, reason), Abort(0), Release(0)]
    }

    lemma CloseRunResult(s: State, pos: Contract, price: real, reason: Reason, reply: Reply)
      requires Safe(s) && s.threads == [Idle] && s.pending == map[] && s.live == !paper && pos in s.positions
      ensures Enables(s, CloseRun(pos, price, reason, reply)) && pos.id !in s.closing && pos.terms.entry != 0.0
      ensures After(s, CloseRun(pos, price, reason, reply)) ==
              if GoesThrough(reply) then ClosedState(s, pos, FillPrice(price, reply), reason) else s
    {
      IdleHoldsNothing(s);
      Member(s.positions, pos);
      if GoesThrough(reply) {
        var at := FillPrice(price, reply);
        assert pos.terms.entry != 0.0;
        CloseSteps(s, pos, price, reason, if paper || reply.price <= 0.0 then 0.0 else reply.price, at);
      } else {
        AbortedCloseLeavesBooks(s, 0, pos, price, reason);
      }
    }

    /** What a close that goes through adds to the history. */
    ghost function SettlementOf(pos: Contract, price: real, reason: Reason, reply: Reply): Settled
      requires pos.terms.entry != 0.0
    {
      var at := FillPrice(price, reply);
      Settled(pos, at, reason, ClosePnl(pos, at), ExitCommission(pos, at))
    }

    /** What a close adds to the history and to the books, in plain arithmetic. */
    ghost predicate Settles(x: Settled, pos: Position, price: real, reason: Reason, reply: Reply) {
      && x.pos == ContractOf(pos) && x.reason == reason && RecordMeans(x)
      && x.exitPrice == if !paper && reply.Filled? && reply.price > 0.0 then reply.price else price
    }

    lemma SettlementSettles(pos: Position, price: real, reason: Reason, reply: Reply)
      requires pos.terms.entry != 0.0
      ensures Settles(SettlementOf(ContractOf(pos), price, reason, reply), pos, price, reason, reply)
    {
      SettlementMeans(ContractOf(pos), FillPrice(price, reply), reason);
    }

    lemma ClosedBooks(s: State, pos: Contract, price: real, reason: Reason, reply: Reply)
      requires pos.terms.entry != 0.0
      ensures var n, x := ClosedState(s, pos, FillPrice(price, reply), reason), SettlementOf(pos, price, reason, reply);
              && n.balance == s.balance + pos.size + x.pnl && n.dailyPnl == s.dailyPnl + x.pnl
              && n.totalCommissions == s.totalCommissions + x.exitCommission
    {
      hide ClosePnl, ExitCommission;
    }

    /** Closes a position: claim, exchange, settlement, save, release. A failed exchange close changes nothing. */
    method ClosePosition(pos: Position, price: real, reason: Reason, reply: Reply)
      requires Valid() && pos in positions && pos.terms.entry != 0.0
      modifies this
      ensures Valid() && ever == old(ever)
      ensures |history| == |old(history)| + if paper || reply.Filled? then 1 else 0
      ensures paper || reply.Filled? ==>
                var x := history[|history| - 1];
                && Settles(x, pos, price, reason, reply)
                && balance == old(balance) + pos.size + x.pnl && dailyPnl == old(dailyPnl) + x.pnl
                && totalCommissions == old(totalCommissions) + x.exitCommission
      ensures positions == if GoesThrough(reply) then Drop(old(positions), pos.id) else old(positions)
      ensures history == old(history)
                + if GoesThrough(reply) then [SettlementOf(ContractOf(pos), price, reason, reply)] else []
      ensures Enables(old(View()), CloseRun(ContractOf(pos), price, reason, reply))
      ensures View() == After(old(View()), CloseRun(ContractOf(pos), price, reason, reply))
    {
      hide After, Enables, ClosedState, CloseRun, Safe, Tracked, Undisturbed, BooksOf;
      ghost var steps := CloseRun(ContractOf(pos), price, reason, reply);
      SettlementSettles(pos, price, reason, reply);
      if GoesThrough(reply) { ClosedBooks(View(), ContractOf(pos), price, reason, reply); }
      hide Settles, SettlementOf;
      Lawful();
      TrackedPosition(positions, pos);
      CloseRunResult(View(), ContractOf(pos), price, reason, reply);
      CloseIsUndisturbed(run, ContractOf(pos), price, reason, reply);
      Extend(start, run, steps);
      ClaimAndSettle(pos, price, reason, reply);
      run := run + steps;
    }

    lemma CloseIsUndisturbed(run: seq<Action>, pos: Contract, price: real, reason: Reason, reply: Reply)
      requires Undisturbed(run)
      ensures Undisturbed(run + CloseRun(pos, price, reason, reply))
    {
    }

    /** The body of a close, for a position nobody else holds a claim on. */
    method ClaimAndSettle(pos: Position, price: real, reason: Reason, reply: Reply)
      requires pos in positions && pos.terms.entry != 0.0 && pos.id !in closing
      requires closedTrades == LastN(history, MAX_CLOSED_TRADES) && disk == BooksOf(View())
      modifies this
      ensures closedTrades == LastN(history, MAX_CLOSED_TRADES) && disk == BooksOf(View())
      ensures ever == old(ever) && run == old(run)
      ensures positions == if GoesThrough(reply) then Drop(old(positions), pos.id) else old(positions)
      ensures history == old(history)
                + if GoesThrough(reply) then [SettlementOf(ContractOf(pos), price, reason, reply)] else []
      ensures View() ==
              if GoesThrough(reply) then ClosedState(old(View()), ContractOf(pos), FillPrice(price, reply), reason)
              else old(View())
    {
      hide LastN, Drop, ClosePnl, ExitCommission, Without, Contracts;
      ghost var before, claims := View(), closing;
      closing := closing + {pos.id};
      assert View() == before.(closing := closing);
      var exitPrice := price;
      if !paper {
        if !reply.Filled? {
          closing := closing - {pos.id};
          assert closing == claims;
          return;
        }
        if reply.price > 0.0 {
          exitPrice := reply.price;
        }
      }
      assert exitPrice == FillPrice(price, reply);
      ClosedUnderClaim(before, closing, ContractOf(pos), exitPrice, reason);
      SettleAt(pos, exitPrice, reason);
      SaveState();
      closing := closing - {pos.id};
      assert closing == claims;
    }

    /** A position after a tick of the given symbol. */
    static ghost function Ticked(p: Pos, symbol: string, tick: Tick): Pos {
      if p.symbol == symbol && p.terms.entry != 0.0 then Observe(p, tick) else p
    }

    /** Whether the tick closes a position: its symbol is ticked, an exit rule fires, the close goes through. */
    ghost predicate ClosedBy(p: Pos, symbol: string, tick: Tick, replies: nat -> Reply) {
      p.symbol == symbol && p.terms.entry != 0.0 && Verdict(Observe(p, tick), tick).Some? && GoesThrough(replies(p.id))
    }

    /** The settlement of a position the tick closes: by its own verdict, at the tick's price or the reported fill. */
    ghost function ClosureOf(p: Pos, symbol: string, tick: Tick, replies: nat -> Reply): Settled
      requires ClosedBy(p, symbol, tick, replies)
    {
      SettlementOf(Fixed(p), tick.price, Verdict(Observe(p, tick), tick).value, replies(p.id))
    }

    /** The settlements one price update makes, in the order of the positions. */
    ghost function Closures(ps: seq<Pos>, symbol: string, tick: Tick, replies: nat -> Reply): seq<Settled> {
      if ps == [] then []
      else
        Closures(ps[..|ps| - 1], symbol, tick, replies)
        + if ClosedBy(ps[|ps| - 1], symbol, tick, replies) then [ClosureOf(ps[|ps| - 1], symbol, tick, replies)] else []
    }

    /** When a tick closes a position, and what its settlement says, in plain arithmetic. */
    lemma ClosureMeans(p: Pos, symbol: string, tick: Tick, replies: nat -> Reply)
      requires p.terms.entry > 0.0
      ensures ClosedBy(p, symbol, tick, replies) <==>
              && p.symbol == symbol && !ExitMeans(Observe(p, tick), tick, None)
              && (paper || replies(p.id).Filled?)
      ensures ClosedBy(p, symbol, tick, replies) ==>
                var x := ClosureOf(p, symbol, tick, replies);
                && x.pos == Fixed(p) && RecordMeans(x) && ExitMeans(Observe(p, tick), tick, Some(x.reason))
                && x.exitPrice == if !paper && replies(p.id).price > 0.0 then replies(p.id).price else tick.price
    {
      var q := Observe(p, tick);
      VerdictMeans(q, tick, None);
      if Verdict(q, tick).Some? {
        VerdictMeans(q, tick, Verdict(q, tick));
        SettlementMeans(Fixed(p), FillPrice(tick.price, replies(p.id)), Verdict(q, tick).value);
      }
      hide Verdict, ExitMeans, RecordMeans, ClosePnl, ExitCommission;
    }

    /** The settlements of one price update are exactly those of the positions it closes, in order. */
    ghost predicate ClosuresMatch(ps: seq<Pos>, symbol: string, tick: Tick, replies: nat -> Reply, xs: seq<Settled>)
    {
      if ps == [] then xs == []
      else
        var p, init := ps[|ps| - 1], ps[..|ps| - 1];
        if && p.terms.entry > 0.0 && p.symbol == symbol && !ExitMeans(Observe(p, tick), tick, None)
           && (paper || replies(p.id).Filled?)
        then
          && xs != [] && ClosuresMatch(init, symbol, tick, replies, xs[..|xs| - 1])
          && var x := xs[|xs| - 1];
             && x.pos == Fixed(p) && RecordMeans(x) && ExitMeans(Observe(p, tick), tick, Some(x.reason))
             && x.exitPrice == if !paper && replies(p.id).price > 0.0 then replies(p.id).price else tick.price
        else ClosuresMatch(init, symbol, tick, replies, xs)
    }

    lemma {:induction false} ClosuresAreExact(ps: seq<Pos>, symbol: string, tick: Tick, replies: nat -> Reply)
      requires forall p :: p in ps ==> p.terms.entry > 0.0
      ensures ClosuresMatch(ps, symbol, tick, replies, Closures(ps, symbol, tick, replies))
    {
      if ps != [] {
        var p, init := ps[|ps| - 1], ps[..|ps| - 1];
        assert p in ps;
        ClosuresAreExact(init, symbol, tick, replies);
        ClosureMeans(p, symbol, tick, replies);
        hide ClosedBy, ClosureOf, ExitMeans, RecordMeans, Observe;
        var xs := Closures(init, symbol, tick, replies);
        if ClosedBy(p, symbol, tick, replies) {
          assert (xs + [ClosureOf(p, symbol, tick, replies)])[..|xs|] == xs;
        } else {
          assert xs + [] == xs;
        }
      }
    }

    /** One tracked position's share of a price update: skipped for other symbols, closed if its exit rules fire. */
    method HandleTick(pos: Position, symbol: string, tick: Tick, replies: nat -> Reply)
      requires Valid() && pos in positions
      modifies this, pos
      ensures Valid() && ever == old(ever)
      ensures pos.View() == Ticked(old(pos.View()), symbol, tick)
      ensures history == old(history) + Closures([old(pos.View())], symbol, tick, replies)
      ensures forall q :: q in positions <==>
                q in old(positions) && (q == pos ==> !ClosedBy(old(pos.View()), symbol, tick, replies))
    {
      TrackedArePlausible();
      DistinctObjects(positions);
      DropIsExact(positions, pos);
      ghost var p := pos.View();
      OneClosure(p, symbol, tick, replies);
      hide Closures, Valid, Verdict, Observe, SettlementOf;
      if pos.symbol != symbol {
        return;
      }
      var exit := pos.Track(tick.price, tick.now);
      if exit.Some? {
        ClosePosition(pos, tick.price, exit.value, replies(pos.id));
      }
    }

    lemma OneClosure(p: Pos, symbol: string, tick: Tick, replies: nat -> Reply)
      ensures Closures([p], symbol, tick, replies) ==
              if ClosedBy(p, symbol, tick, replies) then [ClosureOf(p, symbol, tick, replies)] else []
    {
      assert [p][..0] == [] && Closures([], symbol, tick, replies) == [];
    }

    /** The tracked positions have distinct ids and positive entry prices. */
    lemma TrackedArePlausible()
      requires Valid()
      ensures DistinctIds(Contracts(positions))
      ensures forall p :: p in positions ==> p.terms.entry > 0.0
    {
      Lawful();
      forall p | p in positions
        ensures p.terms.entry > 0.0
      {
        TrackedPosition(positions, p);
      }
    }

    lemma ViewsArePlausible()
      requires forall p :: p in positions ==> p.terms.entry > 0.0
      ensures forall v :: v in Views(positions) ==> v.terms.entry > 0.0
    {
    }

    /**
     A price update: every position of the symbol observes the tick exactly once, the others are untouched, exactly
     those are closed whose exit rules fire and whose close goes through, and the history gains their settlements.
     */
    method UpdatePrice(symbol: string, price: real, now: real, replies: nat -> Reply)
      requires Valid()
      modifies this, positions
      ensures Valid() && ever == old(ever)
      ensures forall p :: p in old(positions) ==> p.View() == Ticked(old(p.View()), symbol, Tick(price, now))
      ensures forall p :: p in positions <==>
                p in old(positions) && !ClosedBy(old(p.View()), symbol, Tick(price, now), replies)
      ensures history == old(history) + Closures(old(Views(positions)), symbol, Tick(price, now), replies)
      ensures ClosuresMatch(old(Views(positions)), symbol, Tick(price, now), replies, history[|old(history)|..])
    {
      hide *;
      var snapshot := positions;
      TrackedArePlausible();
      ViewsArePlausible();
      ClosuresAreExact(Views(positions), symbol, Tick(price, now), replies);
      DistinctObjects(snapshot);
      var tick := Tick(price, now);
      ghost var done: set<Position> := {};
      ghost var views := Views(snapshot);
      NoClosures(symbol, tick, replies);
      assert views[..0] == [];
      var i := 0;
      while i < |snapshot|
        invariant 0 <= i <= |snapshot|
        invariant Valid() && ever == old(ever)
        invariant history == old(history) + Closures(views[..i], symbol, tick, replies)
        invariant forall k :: 0 <= k < |snapshot| ==> (snapshot[k] in done <==> k < i)
        invariant forall p :: p in snapshot && p !in done ==> p.View() == old(p.View())
        invariant forall p :: p in done ==> p in snapshot && p.View() == Ticked(old(p.View()), symbol, tick)
        invariant forall p :: p in positions <==>
                    p in snapshot && !(p in done && ClosedBy(old(p.View()), symbol, tick, replies))
      {
        var pos := snapshot[i];
        assert pos !in done && forall k :: 0 <= k < |snapshot| && k != i ==> snapshot[k] != pos;
        assert views[i] == pos.View();
        MoreClosures(views, i, symbol, tick, replies);
        HandleTick(pos, symbol, tick, replies);
        done := done + {pos};
        i := i + 1;
      }
      assert views[..i] == views;
    }

    lemma NoClosures(symbol: string, tick: Tick, replies: nat -> Reply)
      ensures Closures([], symbol, tick, replies) == []
    {
    }

    lemma MoreClosures(ps: seq<Pos>, i: nat, symbol: string, tick: Tick, replies: nat -> Reply)
      requires i < |ps|
      ensures Closures(ps[..i + 1], symbol, tick, replies)
           == Closures(ps[..i], symbol, tick, replies) + Closures([ps[i]], symbol, tick, replies)
    {
      assert ps[..i + 1][..i] == ps[..i];
      OneClosure(ps[i], symbol, tick, replies);
    }

    /** The settlement under the lock: fees, cash, today's result, the trade log and the position list. */
    method SettleAt(pos: Position, exitPrice: real, reason: Reason)
      requires pos in positions && pos.terms.entry != 0.0
      requires closedTrades == LastN(history, MAX_CLOSED_TRADES)
      modifies this
      ensures closing == old(closing) && ever == old(ever) && run == old(run)
      ensures history == old(history)
                + [Settled(ContractOf(pos), exitPrice, reason, ClosePnl(ContractOf(pos), exitPrice),
                           ExitCommission(ContractOf(pos), exitPrice))]
      ensures positions == Drop(old(positions), pos.id)
      ensures closedTrades == LastN(history, MAX_CLOSED_TRADES)
      ensures View() == SettledState(old(View()), ContractOf(pos), exitPrice, reason)
    {
      hide ClosePnl, ExitCommission, LastN, Drop, Without, Contracts;
      var exitCommission := ExitCommission(ContractOf(pos), exitPrice);
      var pnl := ClosePnl(ContractOf(pos), exitPrice);
      var closed := Settled(ContractOf(pos), exitPrice, reason, pnl, exitCommission);
      LastNAppend(history, closed, MAX_CLOSED_TRADES);
      ContractsOfDrop(positions, pos.id);
      totalCommissions := totalCommissions + exitCommission;
      balance := balance + pos.size + pnl;
      dailyPnl := dailyPnl + pnl;
      closedTrades := LastN(closedTrades + [closed], MAX_CLOSED_TRADES);
      positions := Drop(positions, pos.id);
      history := history + [closed];
    }
  }

  lemma OpenSteps(s: State, pos: Contract)
    requires pos.id !in Ids(s.ever) && pos.terms.entry > 0.0 && s.pending == map[]
    ensures var run := [Open(pos), Snapshot(0), Write(0)];
            && Enables(s, run)
            && After(s, run) == RecordedState(s, pos).(disk := BooksOf(RecordedState(s, pos)))
  {
    assert Enabled(s, Open(pos)) && Next(s, Open(pos)) == RecordedState(s, pos);
    assert RecordedState(s, pos).pending == map[];
    SaveAtOnce(RecordedState(s, pos), 0);
    hide *;
    assert [] + [Open(pos)] == [Open(pos)] && [Open(pos)] + [Snapshot(0)] == [Open(pos), Snapshot(0)];
    assert [Open(pos), Snapshot(0)] + [Write(0)] == [Open(pos), Snapshot(0), Write(0)];
    NoStep(s);
    OneMore(s, [], Open(pos));
    OneMore(s, [Open(pos)], Snapshot(0));
    OneMore(s, [Open(pos), Snapshot(0)], Write(0));
  }

  /** Settling and saving do not look at the claim set. */
  lemma ClosedUnderClaim(s: State, claims: set<nat>, pos: Contract, at: real, reason: Reason)
    requires pos.terms.entry != 0.0
    ensures ClosedState(s.(closing := claims), pos, at, reason) == ClosedState(s, pos, at, reason).(closing := claims)
  {
  }

  /** The books after one settlement, saved, with the claim given back. */
  ghost function ClosedState(s: State, pos: Contract, at: real, reason: Reason): State
    requires pos.terms.entry != 0.0
  {
    var n := SettledState(s, pos, at, reason);
    n.(disk := BooksOf(n))
  }

  lemma IdleHoldsNothing(s: State)
    requires Safe(s) && s.threads == [Idle]
    ensures s.closing == {}
  {
    assert forall id :: id !in s.closing;
  }

  /** A claim by the only thread and the exchange's confirmation of it. */
  lemma ClaimSteps(s: State, pos: Contract, price: real, reason: Reason, reported: real)
    requires s.threads == [Idle] && s.closing == {} && pos in s.ever && pos.id in Ids(s.positions)
    requires !s.live ==> reported == 0.0
    ensures var a, b := Begin(0, pos, price, reason), Fill(0, reported);
            && Enabled(s, a) && Enabled(Next(s, a), b)
            && Next(Next(s, a), b) ==
               s.(closing := {pos.id}, threads := [Confirmed(pos, if reported > 0.0 then reported else price, reason)])
  {
    var s1 := s.(closing := {pos.id}, threads := [Claimed(pos, price, reason)]);
    assert s.threads[0 := Claimed(pos, price, reason)] == s1.threads;
    assert Next(s, Begin(0, pos, price, reason)) == s1;
    var at := if reported > 0.0 then reported else price;
    assert s1.threads[0 := Confirmed(pos, at, reason)] == [Confirmed(pos, at, reason)];
  }

  /** The settlement of a confirmed close by the only thread, the save, and the release of its claim. */
  lemma SettleSteps(s: State, pos: Contract, at: real, reason: Reason)
    requires s.threads == [Confirmed(pos, at, reason)] && s.closing == {pos.id} && s.pending == map[]
    requires pos.terms.entry != 0.0
    ensures var c, d, e, f := Action.Settle(0), Snapshot(0), Write(0), Release(0);
            && Enabled(s, c) && Enabled(Next(s, c), d) && Enabled(Next(Next(s, c), d), e)
            && Enabled(Next(Next(Next(s, c), d), e), f)
            && Next(Next(Next(Next(s, c), d), e), f)
               == ClosedState(s, pos, at, reason).(closing := {}, threads := [Idle])
  {
    var s3 := SettledState(s, pos, at, reason).(threads := [Finishing(pos.id)]);
    assert s.threads[0 := Finishing(pos.id)] == s3.threads;
    assert Next(s, Action.Settle(0)) == s3;
    SaveAtOnce(s3, 0);
    assert s3.threads[0 := Idle] == [Idle];
  }

  /** The steps of a close that goes through, by the only thread. */
  lemma CloseSteps(s: State, pos: Contract, price: real, reason: Reason, reported: real, at: real)
    requires s.threads == [Idle] && s.closing == {} && pos in s.ever && pos.id in Ids(s.positions)
    requires pos.terms.entry != 0.0 && s.pending == map[]
    requires (!s.live ==> reported == 0.0) && at == if reported > 0.0 then reported else price
    ensures var run := [Begin(0, pos, price, reason), Fill(0, reported), Action.Settle(0), Snapshot(0), Write(0),
                        Release(0)];
            Enables(s, run) && After(s, run) == ClosedState(s, pos, at, reason)
  {
    var s2 := s.(closing := {pos.id}, threads := [Confirmed(pos, at, reason)]);
    ClaimSteps(s, pos, price, reason, reported);
    SettleSteps(s2, pos, at, reason);
    assert ClosedState(s2, pos, at, reason).(closing := {}, threads := [Idle]) == ClosedState(s, pos, at, reason);
    hide *;
    var five := [Begin(0, pos, price, reason), Fill(0, reported), Action.Settle(0), Snapshot(0), Write(0)];
    FiveSteps(s, five[0], five[1], five[2], five[3], five[4]);
    OneMore(s, five, Release(0));
    assert five + [Release(0)] == [Begin(0, pos, price, reason), Fill(0, reported), Action.Settle(0), Snapshot(0),
                                   Write(0), Release(0)];
  }

  /** Runs compose. */
  lemma {:induction false} Extend(s: State, run: seq<Action>, more: seq<Action>)
    requires Enables(s, run) && Enables(After(s, run), more)
    ensures Enables(s, run + more) && After(s, run + more) == After(After(s, run), more)
    decreases |more|
  {
    hide *;
    if more == [] {
      NoStep(After(s, run));
      assert run + more == run;
    } else {
      var init, last := more[..|more| - 1], more[|more| - 1];
      LastStep(After(s, run), more);
      Extend(s, run, init);
      OneMore(s, run + init, last);
      assert run + more == run + init + [last];
    }
  }
}
