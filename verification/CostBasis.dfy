/**
 Cost basis of a position that is scaled in by tranches and scaled out by one partial take-profit:
 the reported result is exit notionals less entry notionals less exit commissions.
 */
module CostBasis {
  import opened Options
  import opened Reals
  import opened TrailingStop

  /** An executed order. The accounting relies on size being price times quantity. */
  datatype Fill = Fill(price: real, quantity: real, size: real, commission: real) {
    ghost predicate Good() {
      price > 0.0 && quantity > 0.0 && size == price * quantity
    }
  }

  /** The answer to an order: executed, refused (with or without holdings to sell), or an exception. */
  datatype Reply = Executed(fill: Fill) | Refused(noHoldings: bool) | Raised

  const PARTIAL_FRACTION := 0.5

  /**
   The accounting fields of a position, and the three sums they are judged against: entry notionals,
   exit notionals and exit commissions so far.
   */
  datatype Basis = Basis(
    side: Side, entryPrice: real, avg: real, quantity: real, size: real, entrySize: real,
    original: Option<real>, partialPct: real, partialPnl: real,
    entries: real, exits: real, exitFees: real)

  /** Result of a price against the average entry, as a fraction. */
  function PctOf(side: Side, avg: real, price: real): real
    requires avg != 0.0
  {
    if side.Long? then (price - avg) / avg else (avg - price) / avg
  }

  function Opened(side: Side, f: Fill): Basis {
    Basis(side, f.price, f.price, f.quantity, f.size, f.size, Some(f.quantity), 0.0, 0.0, f.size, 0.0, 0.0)
  }

  /** The price of two quantities together. */
  function WeightedPrice(avg: real, q: real, price: real, more: real): real
    requires q + more != 0.0
  {
    (avg * q + price * more) / (q + more)
  }

  /** A further tranche: the average becomes quantity-weighted, the original quantity is the new total. */
  function WithTranche(b: Basis, f: Fill): Basis
    requires b.quantity + f.quantity != 0.0
  {
    var q := b.quantity + f.quantity;
    b.(quantity := q, size := b.size + f.size, entrySize := b.entrySize + f.size,
       avg := WeightedPrice(b.avg, b.quantity, f.price, f.quantity),
       original := Some(q), entries := b.entries + f.size)
  }

  function Original(b: Basis): real { if b.original.Some? then b.original.value else b.quantity }

  /** The part of an entry cost that a part of the original quantity carries. */
  function Share(part: real, original: real, entrySize: real): real
    requires original != 0.0
  {
    part / original * entrySize
  }

  /** The result of selling what cost so much, at a price. */
  function Gain(side: Side, avg: real, price: real, cost: real): real
    requires avg != 0.0
  {
    PctOf(side, avg, price) * cost
  }

  function Notional(price: real, q: real): real { price * q }

  /** The partial take-profit of a fraction of the quantity, filled at a price. */
  function WithPartial(b: Basis, price: real, commission: real, fraction: real): Basis
    requires b.avg != 0.0 && Original(b) > 0.0
  {
    var sold, original := fraction * b.quantity, Original(b);
    var left := b.quantity - sold;
    var pnl := if b.entryPrice > 0.0 then Gain(b.side, b.avg, price, Share(sold, original, b.entrySize)) - commission
               else 0.0;
    b.(original := Some(original), partialPnl := b.partialPnl + pnl, quantity := left,
       partialPct := 1.0 - left / original, size := Share(left, original, b.entrySize),
       exits := b.exits + Notional(price, sold), exitFees := b.exitFees + commission)
  }

  function FinalPnl(b: Basis, price: real, commission: real): real
    requires b.avg != 0.0
  {
    b.partialPnl + (PctOf(b.side, b.avg, price) * b.size - commission)
  }

  /** Only a position without a prior partial exit takes one. */
  predicate GateOpen(b: Basis) { b.partialPct < 0.01 }

  /** The cost of what is still held is the average price times the quantity, and realized results are exact. */
  ghost predicate CostExact(b: Basis) {
    && b.avg > 0.0 && b.quantity > 0.0 && b.entryPrice > 0.0 && b.size == b.avg * b.quantity
    && b.partialPnl == (if b.side.Long? then b.exits - (b.entries - b.size) else (b.entries - b.size) - b.exits)
                       - b.exitFees
  }

  /** What a partial exit needs: the recorded entry cost is that of the recorded original quantity. */
  ghost predicate OriginalCostKnown(b: Basis) {
    b.entrySize == b.avg * Original(b)
  }

  ghost predicate Sound(b: Basis) {
    && CostExact(b) && (b.original.Some? ==> b.original.value > 0.0)
    && (GateOpen(b) ==> Original(b) == b.quantity && OriginalCostKnown(b))
  }

  // ---------- arithmetic ----------

  lemma Ratio(x: real, d: real)
    requires d != 0.0
    ensures x / d * d == x
  {
  }

  /** A relative result times the cost is the price difference times the quantity. */
  lemma ResultOfCost(side: Side, avg: real, price: real, cost: real, q: real)
    requires avg != 0.0 && cost == avg * q
    ensures PctOf(side, avg, price) * cost == if side.Long? then price * q - cost else cost - price * q
  {
    var diff := if side.Long? then price - avg else avg - price;
    var r := diff / avg;
    Ratio(diff, avg);
    assert r * cost == r * avg * q;
    assert diff * q == if side.Long? then price * q - avg * q else avg * q - price * q;
  }

  lemma PositiveQuotient(x: real, d: real)
    requires x > 0.0 && d > 0.0
    ensures x / d > 0.0
  {
  }

  /** The share of the original cost that a quantity carries. */
  lemma ShareOfCost(part: real, original: real, avg: real, entrySize: real)
    requires original > 0.0 && entrySize == avg * original
    ensures part / original * entrySize == avg * part
  {
    Ratio(part, original);
    var r := part / original;
    assert r * (avg * original) == avg * (r * original);
  }

  // ---------- each step ----------

  lemma OpenIsSound(side: Side, f: Fill)
    requires f.Good()
    ensures Sound(Opened(side, f))
  {
  }

  /** A tranche keeps the books exact, before and after the partial exit. */
  lemma TrancheKeepsSound(b: Basis, f: Fill)
    requires Sound(b) && f.Good()
    ensures Sound(WithTranche(b, f))
    ensures GateOpen(WithTranche(b, f)) == GateOpen(b)
  {
    var q, cost := b.quantity + f.quantity, b.avg * b.quantity + f.price * f.quantity;
    Positive(b.avg, b.quantity);
    Positive(f.price, f.quantity);
    Ratio(cost, q);
    PositiveQuotient(cost, q);
  }

  /** A partial exit of a known cost, in terms of what was sold and what is left. */
  lemma PartialFields(b: Basis, price: real, commission: real, fraction: real, sold: real, left: real)
    requires b.avg > 0.0 && b.entryPrice > 0.0 && Original(b) > 0.0 && OriginalCostKnown(b)
    requires sold == fraction * b.quantity && left == b.quantity - sold
    ensures var n := WithPartial(b, price, commission, fraction);
            && n.quantity == left && n.size == b.avg * left && n.exits == b.exits + price * sold
            && n.partialPnl == b.partialPnl
                               + (if b.side.Long? then price * sold - b.avg * sold else b.avg * sold - price * sold)
                               - commission
  {
    ShareOfCost(sold, Original(b), b.avg, b.entrySize);
    ShareOfCost(left, Original(b), b.avg, b.entrySize);
    ResultOfCost(b.side, b.avg, price, sold / Original(b) * b.entrySize, sold);
  }

  lemma PartOf(q: real, fraction: real, avg: real, sold: real, left: real)
    requires q > 0.0 && 0.0 < fraction < 1.0 && sold == fraction * q && left == q - sold
    ensures left > 0.0 && avg * sold + avg * left == avg * q
  {
    Scale(fraction, q);
    assert avg * (sold + left) == avg * sold + avg * left;
  }

  lemma PartialOfKnownCost(b: Basis, price: real, commission: real, fraction: real)
    requires CostExact(b) && Original(b) > 0.0 && OriginalCostKnown(b) && 0.0 < fraction < 1.0
    ensures CostExact(WithPartial(b, price, commission, fraction))
  {
    var sold := fraction * b.quantity;
    var left := b.quantity - sold;
    PartOf(b.quantity, fraction, b.avg, sold, left);
    PartialFields(b, price, commission, fraction, sold, left);
    var n := WithPartial(b, price, commission, fraction);
    assert n.avg == b.avg && n.entryPrice == b.entryPrice && n.side == b.side && n.entries == b.entries;
    assert n.exitFees == b.exitFees + commission;
    assert n.quantity > 0.0;
    assert n.size == n.avg * n.quantity;
    assert b.avg * sold + n.size == b.size;
    assert n.partialPnl == (if n.side.Long? then n.exits - (n.entries - n.size) else (n.entries - n.size) - n.exits)
                           - n.exitFees;
  }

  /** The gated partial exit keeps the books exact and closes the gate for good. */
  lemma PartialKeepsSound(b: Basis, price: real, commission: real)
    requires Sound(b) && GateOpen(b)
    ensures Sound(WithPartial(b, price, commission, PARTIAL_FRACTION))
    ensures !GateOpen(WithPartial(b, price, commission, PARTIAL_FRACTION))
  {
    PartialOfKnownCost(b, price, commission, PARTIAL_FRACTION);
    HalfIsHalf(b.quantity);
  }

  lemma HalfIsHalf(q: real)
    requires q > 0.0
    ensures (q - PARTIAL_FRACTION * q) / q == 0.5
  {
    var r := (q - PARTIAL_FRACTION * q) / q;
    assert r * q == 0.5 * q;
    assert (r - 0.5) * q == 0.0;
  }

  /**
   Without the gate the cost basis survives a partial exit exactly when the recorded entry cost is the average
   price times the recorded original quantity.
   */
  lemma PartialKeepsCostIff(b: Basis, price: real, commission: real, fraction: real)
    requires CostExact(b) && Original(b) > 0.0 && 0.0 < fraction < 1.0
    ensures CostExact(WithPartial(b, price, commission, fraction)) <==> OriginalCostKnown(b)
  {
    if OriginalCostKnown(b) {
      PartialOfKnownCost(b, price, commission, fraction);
    } else {
      UnknownCostBreaks(b, price, commission, fraction);
    }
  }

  lemma UnknownCostBreaks(b: Basis, price: real, commission: real, fraction: real)
    requires CostExact(b) && Original(b) > 0.0 && 0.0 < fraction < 1.0 && !OriginalCostKnown(b)
    ensures var n := WithPartial(b, price, commission, fraction); n.size != n.avg * n.quantity
  {
    var sold := fraction * b.quantity;
    var left := b.quantity - sold;
    PartOf(b.quantity, fraction, b.avg, sold, left);
    CancelShare(left, Original(b), b.avg, b.entrySize);
    hide Gain, Share, Notional, PctOf;
  }

  lemma CancelShare(left: real, original: real, avg: real, entrySize: real)
    requires left > 0.0 && original > 0.0
    ensures Share(left, original, entrySize) == avg * left ==> entrySize == avg * original
  {
    var r := left / original;
    Ratio(left, original);
    PositiveQuotient(left, original);
    if Share(left, original, entrySize) == avg * left {
      assert r * original == left;
      assert r * entrySize == r * (avg * original);
      assert r * (entrySize - avg * original) == 0.0;
    }
  }

  // ---------- a whole life ----------

  /** What can happen to an open position's books; a partial exit happens only through the gate. */
  datatype Step = Tranche(fill: Fill) | Partial(price: real, commission: real)

  ghost predicate GoodStep(s: Step) { s.Tranche? ==> s.fill.Good() }

  ghost predicate GoodSteps(steps: seq<Step>) { forall i :: 0 <= i < |steps| ==> GoodStep(steps[i]) }

  ghost function Apply(b: Basis, s: Step): Basis
    requires Sound(b) && GoodStep(s)
  {
    match s
    case Tranche(f) => WithTranche(b, f)
    case Partial(price, commission) => if GateOpen(b) then WithPartial(b, price, commission, PARTIAL_FRACTION) else b
  }

  ghost function Life(side: Side, first: Fill, steps: seq<Step>): (b: Basis)
    requires first.Good() && GoodSteps(steps)
    ensures Sound(b)
  {
    if steps == [] then
      OpenIsSound(side, first);
      Opened(side, first)
    else
      var b, s := Life(side, first, steps[..|steps| - 1]), steps[|steps| - 1];
      if s.Tranche? then
        TrancheKeepsSound(b, s.fill);
        Apply(b, s)
      else if GateOpen(b) then
        PartialKeepsSound(b, s.price, s.commission);
        Apply(b, s)
      else Apply(b, s)
  }

  /**
   The average-cost identity: over any life of initial fill, tranches, at most one partial exit and a final exit of
   the rest, the reported result is all exit notionals minus all entry notionals (the reverse for a short), minus
   all exit commissions.
   */
  lemma {:induction false} AverageCostIdentity(side: Side, first: Fill, steps: seq<Step>, price: real, commission: real)
    requires first.Good() && GoodSteps(steps)
    ensures var b := Life(side, first, steps);
            var exits := b.exits + price * b.quantity;
            FinalPnl(b, price, commission) ==
            (if side.Long? then exits - b.entries else b.entries - exits) - (b.exitFees + commission)
  {
    hide *;
    LifeKeepsSide(side, first, steps);
    SoundIsExact(Life(side, first, steps));
    FinalIsExact(Life(side, first, steps), price, commission);
  }

  lemma FinalIsExact(b: Basis, price: real, commission: real)
    requires CostExact(b)
    ensures var exits := b.exits + price * b.quantity;
            FinalPnl(b, price, commission) ==
            (if b.side.Long? then exits - b.entries else b.entries - exits) - (b.exitFees + commission)
  {
    ResultOfCost(b.side, b.avg, price, b.size, b.quantity);
  }

  lemma {:induction false} LifeKeepsSide(side: Side, first: Fill, steps: seq<Step>)
    requires first.Good() && GoodSteps(steps)
    ensures Life(side, first, steps).side == side
    decreases |steps|
  {
    if steps != [] { LifeKeepsSide(side, first, steps[..|steps| - 1]); }
  }

  function Taken(steps: seq<Step>): nat {
    if steps == [] then 0 else Taken(steps[..|steps| - 1]) + if steps[|steps| - 1].Partial? then 1 else 0
  }

  /** The gate is open until the first partial exit and closed ever after, whatever tranches follow. */
  lemma {:induction false} AtMostOnePartial(side: Side, first: Fill, steps: seq<Step>)
    requires first.Good() && GoodSteps(steps)
    ensures GateOpen(Life(side, first, steps)) <==> Taken(steps) == 0
    decreases |steps|
  {
    if steps != [] {
      var b, s := Life(side, first, steps[..|steps| - 1]), steps[|steps| - 1];
      AtMostOnePartial(side, first, steps[..|steps| - 1]);
      if s.Tranche? {
        TrancheKeepsSound(b, s.fill);
      } else if GateOpen(b) {
        PartialKeepsSound(b, s.price, s.commission);
      }
    }
  }

  lemma HalfOfFour(b: Basis)
    requires b.quantity == 4.0 && b.original == Some(4.0)
    requires b.avg == 100.0 && b.entrySize == 400.0 && b.entryPrice == 100.0
    ensures var n := WithPartial(b, 100.0, 0.0, PARTIAL_FRACTION);
            n.quantity == 2.0 && n.original == Some(4.0) && n.avg == 100.0 && n.entrySize == 400.0
  {
  }

  lemma TwoMore(b: Basis)
    requires b.quantity == 2.0 && b.avg == 100.0 && b.entrySize == 400.0
    ensures var n := WithTranche(b, Fill(100.0, 2.0, 200.0, 0.0));
            n.original == Some(4.0) && n.avg == 100.0 && n.entrySize == 600.0
  {
  }

  lemma FourAtHundred(first: Fill, more: Fill)
    requires first == Fill(100.0, 4.0, 400.0, 0.0) && more == Fill(100.0, 2.0, 200.0, 0.0)
    ensures first.Good() && more.Good()
    ensures var a := Opened(Long, first);
            && GateOpen(a) && a.quantity == 4.0 && a.original == Some(4.0)
            && a.avg == 100.0 && a.entrySize == 400.0 && a.entryPrice == 100.0
  {
  }

  /** Why the gate matters: after a partial exit and a tranche, a second partial exit would break the cost basis. */
  lemma SecondPartialBreaksCost() returns (b: Basis)
    ensures Sound(b) && !GateOpen(b)
    ensures !CostExact(WithPartial(b, 100.0, 0.0, PARTIAL_FRACTION))
  {
    hide *;
    var first, more := Fill(100.0, 4.0, 400.0, 0.0), Fill(100.0, 2.0, 200.0, 0.0);
    FourAtHundred(first, more);
    OpenIsSound(Long, first);
    var a := Opened(Long, first);
    PartialKeepsSound(a, 100.0, 0.0);
    HalfOfFour(a);
    var once := WithPartial(a, 100.0, 0.0, PARTIAL_FRACTION);
    TrancheKeepsSound(once, more);
    TwoMore(once);
    b := WithTranche(once, more);
    SoundIsExact(b);
    UnknownCost(b);
    PartialKeepsCostIff(b, 100.0, 0.0, PARTIAL_FRACTION);
  }

  lemma UnknownCost(b: Basis)
    requires b.original == Some(4.0) && b.avg == 100.0 && b.entrySize == 600.0
    ensures !OriginalCostKnown(b) && 0.0 < PARTIAL_FRACTION < 1.0
  {
  }

  lemma SoundIsExact(b: Basis)
    requires Sound(b)
    ensures CostExact(b) && Original(b) > 0.0
  {
  }

  // ---------- the position object and one exit check ----------

  /** How many units of initial risk a price is in profit. */
  function RMultiple(side: Side, entry: real, initialStop: real, stop: real, trailPct: real, price: real): real {
    var stopRef := if initialStop > 0.0 then initialStop else stop;
    var risk := if stopRef <= 0.0 then entry * trailPct
                else if entry >= stopRef then entry - stopRef else stopRef - entry;
    if entry <= 0.0 || risk <= 0.0 then 0.0
    else (if side.Long? then price - entry else entry - price) / risk
  }

  /** The initial risk: the distance from the entry to the initial stop, else to the stop, else a part of the entry. */
  ghost function Risk(entry: real, initialStop: real, stop: real, trailPct: real): real {
    if initialStop > 0.0 then Abs(entry - initialStop)
    else if stop > 0.0 then Abs(entry - stop)
    else entry * trailPct
  }

  /** A multiple of the risk is reached exactly where there is a risk and the profit is that many times as large. */
  lemma RMeans(side: Side, entry: real, initialStop: real, stop: real, trailPct: real, price: real, k: real)
    requires entry > 0.0 && k > 0.0
    ensures var risk := Risk(entry, initialStop, stop, trailPct);
            RMultiple(side, entry, initialStop, stop, trailPct, price) >= k <==>
            risk > 0.0 && (if side.Long? then price - entry else entry - price) >= k * risk
  {
    var risk := Risk(entry, initialStop, stop, trailPct);
    var gain := if side.Long? then price - entry else entry - price;
    assert RMultiple(side, entry, initialStop, stop, trailPct, price) == if risk > 0.0 then gain / risk else 0.0;
    hide RMultiple, Risk;
    if risk > 0.0 { QuotientAgainst(gain, risk, k); }
  }

  lemma GainMeans(gain: real, entry: real)
    requires entry > 0.0
    ensures gain / entry > 0.015 <==> 1000.0 * gain > 15.0 * entry
  {
    QuotientAgainst(gain, entry, 0.015);
  }

  /** Whether the partial take-profit is due at a price. */
  predicate PartialDue(b: Basis, r: real, price: real) {
    && GateOpen(b) && b.entryPrice > 0.0 && r >= 1.5
    && (if b.side.Long? then price - b.entryPrice else b.entryPrice - price) / b.entryPrice > 0.015
  }

  /** The books after the tranche a check may add. */
  function AfterTranche(b: Basis, room: bool, dca: Option<Reply>): Basis {
    if && room && dca.Some? && dca.value.Executed? && dca.value.fill.quantity > 0.0
       && b.quantity + dca.value.fill.quantity != 0.0
    then WithTranche(b, dca.value.fill) else b
  }

  /** The books after the partial exit a check may take. */
  function AfterPartial(b: Basis, due: bool, reply: Reply): Basis {
    if due && reply.Executed? && b.quantity > 0.0 && b.avg != 0.0 && Original(b) > 0.0
    then WithPartial(b, reply.fill.price, reply.fill.commission, PARTIAL_FRACTION) else b
  }

  /**
   What a further tranche does to the books, in plain arithmetic: with room and an executed order, the fill is added to
   quantity, size and entry size, and the average is the one at which the whole quantity costs what both did.
   */
  lemma AfterTrancheMeans(b: Basis, room: bool, dca: Option<Reply>)
    requires b.quantity >= 0.0
    ensures var n := AfterTranche(b, room, dca);
            if room && dca.Some? && dca.value.Executed? && dca.value.fill.quantity > 0.0
            then var f := dca.value.fill;
                 && n == b.(quantity := b.quantity + f.quantity, size := b.size + f.size, avg := n.avg,
                            entrySize := b.entrySize + f.size, original := Some(n.quantity),
                            entries := b.entries + f.size)
                 && n.avg * n.quantity == b.avg * b.quantity + f.price * f.quantity
            else n == b
  {
    if room && dca.Some? && dca.value.Executed? && dca.value.fill.quantity > 0.0 {
      var f := dca.value.fill;
      Ratio(b.avg * b.quantity + f.price * f.quantity, b.quantity + f.quantity);
    }
  }

  /** What the partial exit does to sound books: half the quantity is sold at the fill's price. */
  lemma AfterPartialMeans(b: Basis, reply: Reply)
    requires Sound(b) && GateOpen(b)
    ensures var n := AfterPartial(b, true, reply);
            if reply.Executed?
            then && 2.0 * n.quantity == b.quantity && 2.0 * (n.exits - b.exits) == reply.fill.price * b.quantity
                 && n.exitFees == b.exitFees + reply.fill.commission && n.entries == b.entries && n.avg == b.avg
                 && n.partialPct == 0.5
            else n == b
  {
    if reply.Executed? { HalfIsHalf(b.quantity); }
    hide Gain, Share;
  }

  lemma KeepsEntry(b: Basis, room: bool, dca: Option<Reply>)
    ensures AfterTranche(b, room, dca).entryPrice == b.entryPrice && AfterTranche(b, room, dca).side == b.side
  {
  }

  lemma NotDue(b: Basis, r: real, price: real, reply: Reply)
    ensures !PartialDue(b, r, price) ==> AfterPartial(b, PartialDue(b, r, price), reply) == b
  {
  }

  /** The price and the commission a final exit is settled at. */
  function ExitPrice(price: real, reply: Reply): real {
    if reply.Executed? && reply.fill.price > 0.0 then reply.fill.price else price
  }

  function ExitFee(reply: Reply): real { if reply.Executed? then reply.fill.commission else 0.0 }

  class Position {
    const side: Side
    const entryPrice: real
    const initialStop: real
    const trailPct: real
    const maxTranches: nat
    var quantity: real
    var size: real
    var avg: real
    var entrySize: real
    var original: Option<real>
    var partialPct: real
    var partialPnl: real
    var trancheCount: nat
    var stopPrice: real
    var closed: bool
    var pnl: real
    ghost var entries: real
    ghost var exits: real
    ghost var exitFees: real

    ghost function View(): Basis
      reads this
    {
      Basis(side, entryPrice, avg, quantity, size, entrySize, original, partialPct, partialPnl,
            entries, exits, exitFees)
    }

    ghost predicate Valid()
      reads this
    {
      !closed ==> Sound(View())
    }

    constructor (side: Side, first: Fill, initialStop: real, trailPct: real, maxTranches: nat)
      requires first.Good()
      ensures Valid() && !closed && View() == Opened(side, first) && trancheCount == 1
    {
      this.side, entryPrice, this.initialStop, this.trailPct := side, first.price, initialStop, trailPct;
      this.maxTranches := maxTranches;
      quantity, size, avg, entrySize := first.quantity, first.size, first.price, first.size;
      original, partialPct, partialPnl := Some(first.quantity), 0.0, 0.0;
      trancheCount, stopPrice, closed, pnl := 1, initialStop, false, 0.0;
      entries, exits, exitFees := first.size, 0.0, 0.0;
      new;
      OpenIsSound(side, first);
    }

    method AddTranche(dca: Option<Reply>)
      requires Valid() && !closed
      requires dca.Some? && dca.value.Executed? && dca.value.fill.quantity > 0.0 ==> dca.value.fill.Good()
      modifies this
      ensures Valid() && !closed && stopPrice == old(stopPrice)
      ensures View() == AfterTranche(old(View()), old(trancheCount) < maxTranches, dca)
      ensures trancheCount == old(trancheCount)
                + if && old(trancheCount) < maxTranches && dca.Some? && dca.value.Executed?
                     && dca.value.fill.quantity > 0.0
                  then 1 else 0
    {
      if trancheCount < maxTranches && dca.Some? && dca.value.Executed? && dca.value.fill.quantity > 0.0 {
        var trade := dca.value.fill;
        TrancheKeepsSound(View(), trade);
        hide Sound, WeightedPrice, Fill.Good;
        var oldQty := quantity;
        quantity := quantity + trade.quantity;
        size := size + trade.size;
        entrySize := entrySize + trade.size;
        trancheCount := trancheCount + 1;
        avg := WeightedPrice(avg, oldQty, trade.price, trade.quantity);
        original := Some(quantity);
        entries := entries + trade.size;
      }
    }

    /** Sells half; called when the partial take-profit is due. */
    method ExecutePartialExit(reply: Reply)
      requires Valid() && !closed && GateOpen(View())
      modifies this
      ensures Valid() && !closed && stopPrice == old(stopPrice)
      ensures View() == AfterPartial(old(View()), true, reply)
    {
      if !reply.Executed? {
        return;
      }
      SoundIsExact(View());
      PartialKeepsSound(View(), reply.fill.price, reply.fill.commission);
      assert quantity > 0.0 && avg > 0.0 && Original(View()) > 0.0;
      hide Sound, CostExact, OriginalCostKnown, GateOpen, Gain, Share, Notional;
      var partialQty := PARTIAL_FRACTION * quantity;
      if original.None? {
        original := Some(quantity);
      }
      if entryPrice > 0.0 {
        var chunk := Share(partialQty, original.value, entrySize);
        partialPnl := partialPnl + (Gain(side, avg, reply.fill.price, chunk) - reply.fill.commission);
      }
      quantity := quantity - partialQty;
      partialPct := 1.0 - quantity / original.value;
      size := Share(quantity, original.value, entrySize);
      exits := exits + Notional(reply.fill.price, partialQty);
      exitFees := exitFees + reply.fill.commission;
    }

    /** Sells the rest. A refusal for lack of holdings force-closes at the current price; any other leaves it open. */
    method ExitRest(price: real, reply: Reply)
      requires Valid() && !closed
      modifies this
      ensures Valid() && stopPrice == old(stopPrice)
      ensures closed <==> reply.Executed? || (reply.Refused? && reply.noHoldings)
      ensures closed ==>
                && entries == old(entries)
                && exits == old(exits) + ExitPrice(price, reply) * old(quantity)
                && exitFees == old(exitFees) + ExitFee(reply)
                && pnl == (if side.Long? then exits - entries else entries - exits) - exitFees
      ensures !closed ==> View() == old(View())
    {
      if !reply.Executed? && !(reply.Refused? && reply.noHoldings) {
        return;
      }
      var exitPrice, commission := ExitPrice(price, reply), ExitFee(reply);
      FinalIsExact(View(), exitPrice, commission);
      pnl := partialPnl + (PctOf(side, avg, exitPrice) * size - commission);
      closed := true;
      exits := exits + exitPrice * quantity;
      exitFees := exitFees + commission;
    }

    /** The R multiple of a price while the stop stands somewhere. */
    function RAt(stop: real, price: real): real { RMultiple(side, entryPrice, initialStop, stop, trailPct, price) }

    /** The stop moved to the entry price once the trade is one unit of risk in profit; it never moves back. */
    function BreakEven(stop: real, price: real): real {
      if entryPrice > 0.0 && RAt(stop, price) >= 1.0 && AtLeastAsGood(side, entryPrice, stop) then entryPrice else stop
    }

    /** The stop a check leaves: trailed, then moved to break-even, then tightened if the position is stale. */
    function FinalStop(trailed: real, price: real, stale: Option<real>): real {
      var stop := BreakEven(trailed, price);
      if stale.Some? && AtLeastAsGood(side, stale.value, stop) then stale.value else stop
    }

    /** How far a price is in profit over the first entry. */
    function Gained(price: real): real { if side.Long? then price - entryPrice else entryPrice - price }

    /** The trade is in profit by its initial risk at least, and the stop is still on the wrong side of the entry. */
    ghost predicate AtBreakEven(trailed: real, price: real) {
      var risk := Risk(entryPrice, initialStop, trailed, trailPct);
      risk > 0.0 && Gained(price) >= risk && if side.Long? then trailed < entryPrice else trailed > entryPrice
    }

    ghost function Moved(trailed: real, price: real): real {
      if AtBreakEven(trailed, price) then entryPrice else trailed
    }

    /** The stop a check leaves, in plain arithmetic. */
    ghost predicate LeavesStop(trailed: real, price: real, stale: Option<real>, stop: real) {
      var moved := Moved(trailed, price);
      stop == if stale.Some? && (if side.Long? then stale.value > moved else stale.value < moved) then stale.value
              else moved
    }

    lemma StopMeans(trailed: real, price: real, stale: Option<real>)
      requires entryPrice > 0.0
      ensures BreakEven(trailed, price) == Moved(trailed, price)
      ensures LeavesStop(trailed, price, stale, FinalStop(trailed, price, stale))
    {
      RMeans(side, entryPrice, initialStop, trailed, trailPct, price, 1.0);
      hide RMultiple, Risk;
    }

    /** A partial exit is due exactly at one and a half times the risk and over 1.5% of profit, if none was taken. */
    ghost predicate TakesHalf(b: Basis, stop: real, price: real) {
      var risk := Risk(entryPrice, initialStop, stop, trailPct);
      && b.partialPct < 0.01 && risk > 0.0
      && 2.0 * Gained(price) >= 3.0 * risk && 1000.0 * Gained(price) > 15.0 * entryPrice
    }

    lemma PartialMeans(b: Basis, stop: real, price: real)
      requires entryPrice > 0.0 && b.entryPrice == entryPrice && b.side == side
      ensures PartialDue(b, RAt(stop, price), price) <==> TakesHalf(b, stop, price)
    {
      RMeans(side, entryPrice, initialStop, stop, trailPct, price, 1.5);
      GainMeans(Gained(price), entryPrice);
      hide RMultiple, Risk;
    }

    /** The books after the partial exit of one check, as the code decides on it and as the arithmetic does. */
    ghost function Decided(b: Basis, trailed: real, price: real, partial: Reply): Basis {
      AfterPartial(b, PartialDue(b, RAt(BreakEven(trailed, price), price), price), partial)
    }

    ghost function Managed(b: Basis, trailed: real, price: real, partial: Reply): Basis {
      AfterPartial(b, TakesHalf(b, Moved(trailed, price), price), partial)
    }

    lemma DecidedIsManaged(b: Basis, trailed: real, price: real, partial: Reply)
      requires entryPrice > 0.0 && b.entryPrice == entryPrice && b.side == side
      ensures Decided(b, trailed, price, partial) == Managed(b, trailed, price, partial)
    {
      StopMeans(trailed, price, None);
      PartialMeans(b, Moved(trailed, price), price);
      hide AfterPartial, TakesHalf, PartialDue, Moved, BreakEven, RAt;
    }

    /** Tranche, break-even stop, partial take-profit and stale tightening, in this order. */
    method Manage(price: real, trailed: real, dca: Option<Reply>, partial: Reply, stale: Option<real>)
      requires Valid() && !closed
      requires dca.Some? && dca.value.Executed? && dca.value.fill.quantity > 0.0 ==> dca.value.fill.Good()
      modifies this
      ensures Valid() && !closed && stopPrice == FinalStop(trailed, price, stale)
      ensures View() == Decided(AfterTranche(old(View()), old(trancheCount) < maxTranches, dca),
                                trailed, price, partial)
    {
      hide Sound, WithTranche, WithPartial, AfterTranche, AfterPartial, RMultiple, Fill.Good;
      stopPrice := trailed;
      AddTranche(dca);
      var r := RMultiple(side, entryPrice, initialStop, stopPrice, trailPct, price);
      if entryPrice > 0.0 && r >= 1.0 && AtLeastAsGood(side, entryPrice, stopPrice) {
        stopPrice := entryPrice;
      }
      assert stopPrice == BreakEven(trailed, price);
      r := RMultiple(side, entryPrice, initialStop, stopPrice, trailPct, price);
      ghost var b := View();
      var pnlPct := if entryPrice <= 0.0 then 0.0
                    else if side.Long? then (price - entryPrice) / entryPrice else (entryPrice - price) / entryPrice;
      if partialPct < 0.01 && entryPrice > 0.0 && r >= 1.5 && pnlPct > 0.015 {
        ExecutePartialExit(partial);
      } else {
        NotDue(b, r, price, partial);
      }
      assert View() == AfterPartial(b, PartialDue(b, r, price), partial);
      if stale.Some? && AtLeastAsGood(side, stale.value, stopPrice) {
        stopPrice := stale.value;
      }
    }

    /**
     One exit check at a price: what managing the position does, and the exit of the rest exactly if the stop it
     leaves is hit or the time is up, and the order goes through or there is nothing to sell. trailed is the stop after
     trailing and regime adjustment, stale the tighter stop of a stale position.
     */
    method CheckExit(price: real, trailed: real, dca: Option<Reply>, partial: Reply, stale: Option<real>, timeUp: bool,
                     exit: Reply)
      requires Valid() && !closed && price > 0.0
      requires dca.Some? && dca.value.Executed? && dca.value.fill.quantity > 0.0 ==> dca.value.fill.Good()
      modifies this
      ensures Valid() && LeavesStop(trailed, price, stale, stopPrice)
      ensures closed <==> (timeUp || if side.Long? then price <= stopPrice else price >= stopPrice)
                          && (exit.Executed? || (exit.Refused? && exit.noHoldings))
      ensures var m := Managed(AfterTranche(old(View()), old(trancheCount) < maxTranches, dca),
                               trailed, price, partial);
              && (!closed ==> View() == m)
              && (closed ==> entries == m.entries && exits == m.exits + ExitPrice(price, exit) * m.quantity
                             && exitFees == m.exitFees + ExitFee(exit))
      ensures closed ==> pnl == (if side.Long? then exits - entries else entries - exits) - exitFees
    {
      hide Sound, AfterTranche, Decided, Managed, FinalStop, LeavesStop, Fill.Good, ExitPrice, ExitFee;
      SoundIsExact(View());
      KeepsEntry(View(), trancheCount < maxTranches, dca);
      DecidedIsManaged(AfterTranche(View(), trancheCount < maxTranches, dca), trailed, price, partial);
      StopMeans(trailed, price, stale);
      Manage(price, trailed, dca, partial, stale);
      var stopped := if side.Long? then price <= stopPrice else price >= stopPrice;
      if stopped || timeUp {
        ExitRest(price, exit);
      }
    }
  }
}
