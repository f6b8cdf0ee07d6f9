/**
 The tiered trailing stop of a position: how far behind the price the stop trails, and
 what the ratchet makes of a whole sequence of prices.

 A stop or target distance is a fraction of the entry price. The trailing price is 0
 while the trail has not been activated, as in the program.
 */
module TrailingStop {
  import opened Options
  import opened Reals

  datatype Side = Long | Short

  /** What is fixed when a position opens and decides every exit price. */
  datatype Terms = Terms(side: Side, entry: real, stopPct: real, targetPct: real) {
    /** An opened position has a positive entry price and a positive stop distance. */
    ghost predicate Valid() {
      entry > 0.0 && stopPct > 0.0
    }

    function HardStop(): real {
      entry * HardFraction(side, stopPct)
    }

    function TargetPrice(): real {
      if side.Long? then entry * (1.0 + targetPct) else entry * (1.0 - targetPct)
    }
  }

  /** The hard stop as a fraction of the entry price. */
  function HardFraction(side: Side, stopPct: real): real {
    if side.Long? then 1.0 - stopPct else 1.0 + stopPct
  }

  /** Whether `a` is a price at least as good as `b` for the holder of the position. */
  predicate AtLeastAsGood(side: Side, a: real, b: real) {
    if side.Long? then a >= b else a <= b
  }

  /** The trail distance in units of the stop distance; tightest matching tier first. */
  function TrailFactor(profit: real, stopPct: real): (f: Option<real>)
  {
    if profit >= 5.0 * stopPct then Some(0.25)
    else if profit >= 3.0 * stopPct then Some(0.5)
    else if profit >= 1.5 * stopPct then Some(1.0)
    else None
  }

  function Profit(t: Terms, price: real): real
    requires t.entry != 0.0
  {
    if t.side.Long? then (price - t.entry) / t.entry else (t.entry - price) / t.entry
  }

  /** The fraction of the price that a trail of f stop distances stands at. */
  function Keep(side: Side, stopPct: real, f: real): real {
    if side.Long? then 1.0 - f * stopPct else 1.0 + f * stopPct
  }

  function TrailPrice(side: Side, price: real, stopPct: real, f: real): real {
    price * Keep(side, stopPct, f)
  }

  /** The fraction of the entry price at which the position is m stop distances in profit. */
  function Reach(side: Side, stopPct: real, m: real): real {
    if side.Long? then 1.0 + m * stopPct else 1.0 - m * stopPct
  }

  function TierPrice(side: Side, entry: real, stopPct: real, m: real): real {
    entry * Reach(side, stopPct, m)
  }

  /** The trailing price one tick proposes, before it is compared with the current one. */
  function Candidate(t: Terms, price: real): Option<real>
    requires t.entry != 0.0
  {
    match TrailFactor(Profit(t, price), t.stopPct)
    case None => None
    case Some(f) => Some(TrailPrice(t.side, price, t.stopPct, f))
  }

  /** One tick of the ratchet: the candidate is taken only if it improves the stop. */
  function Ratchet(t: Terms, trail: real, price: real): real
    requires t.entry != 0.0
  {
    match Candidate(t, price)
    case None => trail
    case Some(c) =>
      if t.side.Long? then if c > trail then c else trail
      else if c < (if trail > 0.0 then trail else t.HardStop()) then c else trail
  }

  /** The stop in force: the trailing price once there is one, the hard stop before. */
  function EffectiveStop(t: Terms, trail: real): real {
    if trail > 0.0 then trail else t.HardStop()
  }

  /** The closed form: the tier function read at one price, 0 if it locks nothing in. */
  function Locked(t: Terms, best: real): real
    requires t.entry != 0.0
  {
    match Candidate(t, best)
    case None => 0.0
    case Some(c) => if c > 0.0 then c else 0.0
  }

  /** The hard stop and the target in units of the price. */
  lemma ExitPrices(t: Terms)
    ensures t.HardStop() == if t.side.Long? then t.entry - t.stopPct * t.entry else t.entry + t.stopPct * t.entry
    ensures t.TargetPrice() == if t.side.Long? then t.entry + t.targetPct * t.entry else t.entry - t.targetPct * t.entry
  {
  }

  /** How far a price is in profit, in units of the price. */
  function Gained(t: Terms, price: real): real { if t.side.Long? then price - t.entry else t.entry - price }

  /**
   The trail a price proposes: behind it by a quarter, a half or the whole of the stop distance taken of the price, once
   it is in profit by five, three or one and a half stop distances taken of the entry.
   */
  ghost predicate Proposes(t: Terms, price: real, trail: real) {
    var gain, risk := Gained(t, price), t.stopPct * t.entry;
    var behind, distance := if t.side.Long? then price - trail else trail - price, t.stopPct * price;
    || (gain >= 5.0 * risk && 4.0 * behind == distance)
    || (3.0 * risk <= gain < 5.0 * risk && 2.0 * behind == distance)
    || (1.5 * risk <= gain < 3.0 * risk && behind == distance)
  }

  /** Profit as a fraction, against profit in units of the price. */
  lemma ProfitAtLeast(t: Terms, price: real, k: real)
    requires t.entry > 0.0
    ensures Profit(t, price) >= k <==> Gained(t, price) >= k * t.entry
  {
    QuotientAgainst(Gained(t, price), t.entry, k);
  }

  /** The tiers in plain arithmetic: what a price proposes as the trail, and that below the first it is nothing. */
  lemma CandidateMeans(t: Terms, price: real, trail: real)
    requires t.Valid()
    ensures Candidate(t, price) == Some(trail) <==> Proposes(t, price, trail)
    ensures Candidate(t, price) == None <==> Gained(t, price) < 1.5 * (t.stopPct * t.entry)
  {
    hide Profit, TrailPrice, Gained;
    var risk := t.stopPct * t.entry;
    assert 5.0 * t.stopPct * t.entry == 5.0 * risk && 3.0 * t.stopPct * t.entry == 3.0 * risk;
    assert 1.5 * t.stopPct * t.entry == 1.5 * risk;
    ProfitAtLeast(t, price, 5.0 * t.stopPct);
    ProfitAtLeast(t, price, 3.0 * t.stopPct);
    ProfitAtLeast(t, price, 1.5 * t.stopPct);
    Positive(t.stopPct, t.entry);
    TierDistance(t.side, price, t.stopPct, trail);
  }

  lemma TierDistance(side: Side, price: real, s: real, trail: real)
    ensures var behind := if side.Long? then price - trail else trail - price;
            && (TrailPrice(side, price, s, 0.25) == trail <==> 4.0 * behind == s * price)
            && (TrailPrice(side, price, s, 0.5) == trail <==> 2.0 * behind == s * price)
            && (TrailPrice(side, price, s, 1.0) == trail <==> behind == s * price)
  {
  }

  /** The closed form in plain arithmetic. */
  lemma LockedMeans(t: Terms, best: real, trail: real)
    requires t.Valid()
    ensures Locked(t, best) == trail && trail > 0.0 <==> Proposes(t, best, trail) && trail > 0.0
    ensures Locked(t, best) >= 0.0
  {
    CandidateMeans(t, best, trail);
  }

  /** The best price seen, counting the entry. */
  function Best(t: Terms, prices: seq<real>): (b: real)
    ensures AtLeastAsGood(t.side, b, t.entry)
    ensures forall i :: 0 <= i < |prices| ==> AtLeastAsGood(t.side, b, prices[i])
    ensures b == t.entry || b in prices
  {
    if prices == [] then t.entry
    else
      var rest := Best(t, prices[..|prices| - 1]);
      var last := prices[|prices| - 1];
      assert prices == prices[..|prices| - 1] + [last];
      if AtLeastAsGood(t.side, rest, last) then rest else last
  }

  function RatchetAll(t: Terms, prices: seq<real>): real
    requires t.entry != 0.0
  {
    if prices == [] then 0.0
    else Ratchet(t, RatchetAll(t, prices[..|prices| - 1]), prices[|prices| - 1])
  }

  // ---------- the tier function ----------

  /** More profit never loosens the trail. */
  lemma TrailFactorTightens(p: real, q: real, stopPct: real)
    requires stopPct > 0.0 && p <= q
    ensures TrailFactor(p, stopPct).Some? ==>
              TrailFactor(q, stopPct).Some? && TrailFactor(q, stopPct).value <= TrailFactor(p, stopPct).value
  {
  }

  lemma ProfitMonotone(t: Terms, p: real, q: real)
    requires t.Valid() && AtLeastAsGood(t.side, q, p)
    ensures Profit(t, p) <= Profit(t, q)
  {
    if t.side.Long? {
      DivMonotone(p - t.entry, q - t.entry, t.entry);
    } else {
      DivMonotone(t.entry - p, t.entry - q, t.entry);
    }
  }

  /** The profit of a tier reached, as a bound on the price. */
  lemma ProfitBound(t: Terms, price: real, m: real)
    requires t.Valid() && Profit(t, price) >= m * t.stopPct
    ensures AtLeastAsGood(t.side, price, TierPrice(t.side, t.entry, t.stopPct, m))
  {
    var r, k := Profit(t, price), m * t.stopPct;
    MulMonotone(k, r, t.entry);
    assert r * t.entry == if t.side.Long? then price - t.entry else t.entry - price;
    assert t.entry * (1.0 + k) == t.entry + k * t.entry;
    assert t.entry * (1.0 - k) == t.entry - k * t.entry;
  }

  lemma KeepBounds(side: Side, s: real, f: real, g: real)
    requires s > 0.0 && 0.0 < g <= f
    ensures AtLeastAsGood(side, Keep(side, s, g), Keep(side, s, f))
    ensures if side.Long? then Keep(side, s, f) < 1.0 else Keep(side, s, f) > 1.0
    ensures side.Long? && s <= 1.0 && f <= 1.0 ==> Keep(side, s, f) >= 0.0
  {
    Positive(g, s);
    MulMonotone(g, f, s);
    Scale(f, s);
  }

  /** A better price with a tighter trail stands at least as well, if the worse one locks in anything. */
  lemma TrailPriceImproves(side: Side, p: real, q: real, s: real, f: real, g: real)
    requires p > 0.0 && q > 0.0 && s > 0.0 && 0.0 < g <= f && AtLeastAsGood(side, q, p)
    requires TrailPrice(side, p, s, f) > 0.0
    ensures TrailPrice(side, q, s, g) > 0.0
    ensures AtLeastAsGood(side, TrailPrice(side, q, s, g), TrailPrice(side, p, s, f))
  {
    KeepBounds(side, s, f, g);
    KeepBounds(side, s, g, g);
    ProductImproves(side, p, q, Keep(side, s, f), Keep(side, s, g));
  }

  lemma ProductImproves(side: Side, p: real, q: real, u: real, v: real)
    requires p > 0.0 && q > 0.0 && p * u > 0.0
    requires AtLeastAsGood(side, q, p) && AtLeastAsGood(side, v, u) && (side.Short? ==> v > 0.0)
    ensures q * v > 0.0 && AtLeastAsGood(side, q * v, p * u)
  {
    PositiveFactor(p, u);
    if side.Long? {
      MulMonotone(u, v, p);
      MulMonotone(p, q, v);
    } else {
      MulMonotone(v, u, q);
      MulMonotone(q, p, u);
      Positive(q, v);
    }
  }

  /** A better price locks in at least as much. */
  lemma LockedMonotone(t: Terms, p: real, q: real)
    requires t.Valid() && p > 0.0 && q > 0.0 && AtLeastAsGood(t.side, q, p)
    ensures Locked(t, p) > 0.0 ==> Locked(t, q) > 0.0 && AtLeastAsGood(t.side, Locked(t, q), Locked(t, p))
  {
    if Locked(t, p) > 0.0 {
      ProfitMonotone(t, p, q);
      TrailFactorTightens(Profit(t, p), Profit(t, q), t.stopPct);
      TrailPriceImproves(t.side, p, q, t.stopPct,
                         TrailFactor(Profit(t, p), t.stopPct).value, TrailFactor(Profit(t, q), t.stopPct).value);
    }
  }

  /** Nothing is locked in at the entry price. */
  lemma NothingLockedAtEntry(t: Terms)
    requires t.Valid()
    ensures Locked(t, t.entry) == 0.0
  {
    assert Profit(t, t.entry) == 0.0;
  }

  /** The tiers: trail distance f is active from m stop distances of profit. */
  ghost predicate Tier(f: real, m: real) {
    (f == 0.25 && m == 5.0) || (f == 0.5 && m == 3.0) || (f == 1.0 && m == 1.5)
  }

  /** The tier in force and the price it implies. */
  lemma ActiveTier(t: Terms, p: real) returns (f: real, m: real)
    requires t.Valid() && Candidate(t, p).Some?
    ensures Tier(f, m) && Candidate(t, p).value == TrailPrice(t.side, p, t.stopPct, f)
    ensures AtLeastAsGood(t.side, p, TierPrice(t.side, t.entry, t.stopPct, m))
  {
    f := TrailFactor(Profit(t, p), t.stopPct).value;
    m := if f == 0.25 then 5.0 else if f == 0.5 then 3.0 else 1.5;
    ProfitBound(t, p, m);
  }

  /** The floor of a tier, as a fraction of the entry price. */
  lemma TierProduct(side: Side, s: real, f: real, m: real)
    requires Tier(f, m)
    ensures Reach(side, s, m) * Keep(side, s, f) ==
            if side.Long? then 1.0 + (m - f) * s - m * f * (s * s) else 1.0 - (m - f) * s - m * f * (s * s)
  {
  }

  /** At the price that activates a tier, its trail is better than the hard stop. */
  lemma TierGain(side: Side, s: real, f: real, m: real)
    requires s > 0.0 && 0.0 < f <= 1.0 && m > 0.0 && Keep(side, s, f) > 0.0
    ensures if side.Long? then Reach(side, s, m) * Keep(side, s, f) > HardFraction(side, s)
            else Reach(side, s, m) * Keep(side, s, f) < HardFraction(side, s)
  {
    Positive(m, s);
    Scale(f, s);
    FractionOrder(side, s, f, m);
    ScalePast(Reach(side, s, m), Keep(side, s, f), HardFraction(side, s));
  }

  lemma FractionOrder(side: Side, s: real, f: real, m: real)
    requires 0.0 < m * s && f * s <= s
    ensures side.Long? ==> Reach(side, s, m) > 1.0 && Keep(side, s, f) >= HardFraction(side, s)
    ensures side.Short? ==> Reach(side, s, m) < 1.0 && Keep(side, s, f) <= HardFraction(side, s)
  {
  }

  lemma ScalePast(w: real, u: real, h: real)
    requires u > 0.0
    ensures w > 1.0 && u >= h ==> w * u > h
    ensures w < 1.0 && u <= h ==> w * u < h
  {
    Scale(w, u);
  }

  /** At a tier's price the trail is already better than the hard stop. */
  lemma TierBeatsHardStop(t: Terms, p: real, f: real, m: real)
    requires t.Valid() && p > 0.0 && Tier(f, m)
    requires AtLeastAsGood(t.side, p, TierPrice(t.side, t.entry, t.stopPct, m))
    ensures t.side.Short? ==> TrailPrice(t.side, p, t.stopPct, f) < t.HardStop()
    ensures t.side.Long? && TrailPrice(t.side, p, t.stopPct, f) > 0.0 ==>
              TrailPrice(t.side, p, t.stopPct, f) > t.HardStop()
  {
    var u, w := Keep(t.side, t.stopPct, f), Reach(t.side, t.stopPct, m);
    if t.side.Short? {
      KeepBounds(t.side, t.stopPct, f, f);
      Positive(p, u);
    }
    if p * u > 0.0 {
      PositiveFactor(p, u);
      TierGain(t.side, t.stopPct, f, m);
      Scaled(t.entry, w, u, HardFraction(t.side, t.stopPct), p);
    }
  }

  lemma Scaled(e: real, w: real, u: real, h: real, p: real)
    requires e > 0.0 && u > 0.0
    ensures p >= e * w && w * u > h ==> p * u > e * h
    ensures p <= e * w && w * u < h ==> p * u < e * h
  {
    assert e * w * u == w * u * e;
    if p >= e * w && w * u > h {
      MulMonotone(e * w, p, u);
      MulStrict(h, w * u, e);
    }
    if p <= e * w && w * u < h {
      MulMonotone(p, e * w, u);
      MulStrict(w * u, h, e);
    }
  }

  /** The trail stands strictly behind the price. */
  lemma BehindPrice(side: Side, p: real, s: real, f: real)
    requires p > 0.0 && s > 0.0 && f > 0.0
    ensures if side.Long? then TrailPrice(side, p, s, f) < p else p < TrailPrice(side, p, s, f)
  {
    KeepBounds(side, s, f, f);
    var u := Keep(side, s, f);
    Scale(u, p);
  }

  /** Whatever is locked in is strictly better than the hard stop, and strictly behind the price. */
  lemma LockedBetweenHardStopAndPrice(t: Terms, p: real)
    requires t.Valid() && p > 0.0 && Candidate(t, p).Some?
    ensures t.side.Long? ==> Candidate(t, p).value < p
    ensures t.side.Short? ==> p < Candidate(t, p).value < t.HardStop()
    ensures t.side.Long? && Candidate(t, p).value > 0.0 ==> Candidate(t, p).value > t.HardStop()
  {
    var f, m := ActiveTier(t, p);
    BehindPrice(t.side, p, t.stopPct, f);
    TierBeatsHardStop(t, p, f, m);
  }

  // ---------- the ratchet over a whole price sequence ----------

  /** One tick keeps the closed form: the trail after it is what the better of the two prices locks in. */
  lemma RatchetStep(t: Terms, best: real, price: real)
    requires t.Valid() && best > 0.0 && price > 0.0
    ensures Ratchet(t, Locked(t, best), price) == Locked(t, if AtLeastAsGood(t.side, best, price) then best else price)
  {
    if Candidate(t, price).Some? { LockedBetweenHardStopAndPrice(t, price); }
    if Candidate(t, best).Some? { LockedBetweenHardStopAndPrice(t, best); }
    if AtLeastAsGood(t.side, best, price) {
      LockedMonotone(t, price, best);
    } else {
      LockedMonotone(t, best, price);
    }
  }

  /** The ratchet is a closed form: after any positive prices the trail is 0 or the tier function at the best one. */
  lemma {:induction false} RatchetIsClosedForm(t: Terms, prices: seq<real>)
    requires t.Valid() && forall i :: 0 <= i < |prices| ==> prices[i] > 0.0
    ensures RatchetAll(t, prices) == Locked(t, Best(t, prices))
    decreases |prices|
  {
    if prices == [] {
      NothingLockedAtEntry(t);
    } else {
      var init := prices[..|prices| - 1];
      RatchetIsClosedForm(t, init);
      RatchetStep(t, Best(t, init), prices[|prices| - 1]);
    }
  }

  /** The stop in force never loosens, and a tick that moves it does not trigger it. */
  lemma StopNeverLoosens(t: Terms, prices: seq<real>, price: real)
    requires t.Valid() && price > 0.0 && forall i :: 0 <= i < |prices| ==> prices[i] > 0.0
    ensures var before, after := RatchetAll(t, prices), Ratchet(t, RatchetAll(t, prices), price);
            && AtLeastAsGood(t.side, EffectiveStop(t, after), EffectiveStop(t, before))
            && (after != before ==> !AtLeastAsGood(t.side, EffectiveStop(t, after), price))
  {
    RatchetIsClosedForm(t, prices);
    var best := Best(t, prices);
    var better := if AtLeastAsGood(t.side, best, price) then best else price;
    RatchetStep(t, best, price);
    LockedMonotone(t, best, better);
    if Candidate(t, better).Some? { LockedBetweenHardStopAndPrice(t, better); }
  }

  /** entry * (1 + a*s - b*s^2) for a long, entry * (1 - a*s - b*s^2) for a short. */
  function QuotedFloor(t: Terms, a: real, b: real): real {
    t.entry * (if t.side.Long? then 1.0 + a * t.stopPct - b * (t.stopPct * t.stopPct)
               else 1.0 - a * t.stopPct - b * (t.stopPct * t.stopPct))
  }

  /** A trail of f stop distances is a price at all, or its floor is no better than the hard stop anyway. */
  ghost predicate FloorMeaningful(t: Terms, f: real, m: real) {
    t.side.Short? || Keep(t.side, t.stopPct, f) > 0.0 || QuotedFloor(t, m - f, m * f) <= t.HardStop()
  }

  /**
   What each tier guarantees. Once the best price has been m stop distances s in profit, the stop in
   force is at least the price that tier's trail had when the tier was reached:
   for a long entry*(1 + 0.5s - 1.5s^2), entry*(1 + 2.5s - 1.5s^2), entry*(1 + 4.75s - 1.25s^2).
   With any stop distance below the entry price itself the condition holds by itself.
   */
  lemma TierFloor(t: Terms, prices: seq<real>, f: real, m: real)
    requires t.Valid() && FloorMeaningful(t, f, m) && forall i :: 0 <= i < |prices| ==> prices[i] > 0.0
    requires Tier(f, m) && Profit(t, Best(t, prices)) >= m * t.stopPct
    ensures AtLeastAsGood(t.side, EffectiveStop(t, RatchetAll(t, prices)), QuotedFloor(t, m - f, m * f))
  {
    var best := Best(t, prices);
    var g := FactorInForce(t, best, f, m);
    RatchetIsClosedForm(t, prices);
    QuotedFloorIsTierFloor(t, f, m);
    hide QuotedFloor;
    LockedFloor(t, best, f, m, g, RatchetAll(t, prices));
  }

  lemma SmallStopsAreMeaningful(t: Terms, f: real, m: real)
    requires t.Valid() && Tier(f, m) && t.stopPct < 1.0
    ensures FloorMeaningful(t, f, m)
  {
    Scale(f, t.stopPct);
  }

  /** Otherwise a single tick at the tier's own price leaves the hard stop in force, which is worse than the floor. */
  lemma {:induction false} TierFloorFailsOtherwise(t: Terms, f: real, m: real) returns (prices: seq<real>)
    requires t.Valid() && Tier(f, m) && !FloorMeaningful(t, f, m)
    ensures |prices| == 1 && prices[0] > 0.0 && Profit(t, Best(t, prices)) >= m * t.stopPct
    ensures !AtLeastAsGood(t.side, EffectiveStop(t, RatchetAll(t, prices)), QuotedFloor(t, m - f, m * f))
  {
    var price := TierPrice(t.side, t.entry, t.stopPct, m);
    prices := [price];
    AtTierPrice(t, f, m, price);
    assert prices[..0] == [];
    assert Best(t, []) == t.entry && Best(t, prices) == price;
    NothingLockedAtEntry(t);
    RatchetIsClosedForm(t, prices);
    NotPositive(price, Keep(t.side, t.stopPct, f));
    hide QuotedFloor;
  }

  /** At the price of a tier exactly that tier is in force. */
  lemma AtTierPrice(t: Terms, f: real, m: real, price: real)
    requires t.Valid() && t.side.Long? && Tier(f, m) && price == TierPrice(t.side, t.entry, t.stopPct, m)
    ensures price > t.entry && Profit(t, price) == m * t.stopPct && TrailFactor(Profit(t, price), t.stopPct) == Some(f)
  {
    var k := m * t.stopPct;
    Positive(m, t.stopPct);
    Positive(t.entry, k);
    assert t.entry * (1.0 + k) == t.entry + k * t.entry;
    Quotient(k, t.entry);
    assert price - t.entry == k * t.entry;
  }

  lemma FactorInForce(t: Terms, best: real, f: real, m: real) returns (g: real)
    requires t.Valid() && best > 0.0 && Tier(f, m) && Profit(t, best) >= m * t.stopPct
    ensures 0.0 < g <= f <= 1.0 && AtLeastAsGood(t.side, best, TierPrice(t.side, t.entry, t.stopPct, m))
    ensures var c := best * Keep(t.side, t.stopPct, g); Locked(t, best) == if c > 0.0 then c else 0.0
  {
    DeeperTierIsTighter(Profit(t, best), t.stopPct, f, m);
    g := TrailFactor(Profit(t, best), t.stopPct).value;
    ProfitBound(t, best, m);
  }

  lemma DeeperTierIsTighter(profit: real, s: real, f: real, m: real)
    requires s > 0.0 && Tier(f, m) && profit >= m * s
    ensures TrailFactor(profit, s).Some? && 0.0 < TrailFactor(profit, s).value <= f <= 1.0
  {
  }

  lemma LockedFloor(t: Terms, best: real, f: real, m: real, g: real, trail: real)
    requires t.Valid() && best > 0.0 && Tier(f, m) && 0.0 < g <= f <= 1.0
    requires AtLeastAsGood(t.side, best, TierPrice(t.side, t.entry, t.stopPct, m))
    requires var c := best * Keep(t.side, t.stopPct, g); trail == if c > 0.0 then c else 0.0
    requires t.side.Long? && Keep(t.side, t.stopPct, f) <= 0.0 ==>
               TrailPrice(t.side, TierPrice(t.side, t.entry, t.stopPct, m), t.stopPct, f) <= t.HardStop()
    ensures AtLeastAsGood(t.side, EffectiveStop(t, trail),
                          TrailPrice(t.side, TierPrice(t.side, t.entry, t.stopPct, m), t.stopPct, f))
  {
    var u, v := Keep(t.side, t.stopPct, f), Keep(t.side, t.stopPct, g);
    var tier := TierPrice(t.side, t.entry, t.stopPct, m);
    KeepBounds(t.side, t.stopPct, f, g);
    KeepBounds(t.side, t.stopPct, g, g);
    if t.side.Long? && u <= 0.0 {
      Positive(m, t.stopPct);
      Positive(t.entry, Reach(t.side, t.stopPct, m));
      NotPositive(tier, u);
    } else {
      FloorProduct(t.side, best, tier, u, v);
    }
  }

  lemma FloorProduct(side: Side, best: real, tier: real, u: real, v: real)
    requires best > 0.0 && AtLeastAsGood(side, best, tier) && AtLeastAsGood(side, v, u) && u > 0.0 && v > 0.0
    ensures best * v > 0.0 && AtLeastAsGood(side, best * v, tier * u)
  {
    Positive(best, v);
    if side.Long? {
      MulMonotone(tier, best, u);
      MulMonotone(u, v, best);
    } else {
      MulMonotone(best, tier, u);
      MulMonotone(v, u, best);
    }
  }

  lemma QuotedFloorIsTierFloor(t: Terms, f: real, m: real)
    requires Tier(f, m)
    ensures TrailPrice(t.side, TierPrice(t.side, t.entry, t.stopPct, m), t.stopPct, f) == QuotedFloor(t, m - f, m * f)
  {
    TierProduct(t.side, t.stopPct, f, m);
    Regroup(t.entry, Reach(t.side, t.stopPct, m), Keep(t.side, t.stopPct, f));
  }

}
