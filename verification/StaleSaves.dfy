/**
 A restart from a state file that is older than the last ticks: prices move the trail without being saved, so what a
 restart loads is the position of the last save. What of the lost prices matters, and exactly when.
 */
module StaleSaves {
  import opened Buffers
  import opened Options
  import opened Positions
  import opened TrailingStop

  ghost predicate Positive(prices: seq<real>) { forall i :: 0 <= i < |prices| ==> prices[i] > 0.0 }

  /** An open position whose trail is what the prices seen so far lock in. */
  ghost predicate LockedIn(p: Pos, seen: seq<real>) {
    p.terms.Valid() && Positive(seen) && p.trail == Locked(p.terms, Best(p.terms, seen))
  }

  lemma BestAppend(t: Terms, a: seq<real>, x: real)
    ensures Best(t, a + [x]) == if AtLeastAsGood(t.side, Best(t, a), x) then Best(t, a) else x
  {
    assert (a + [x])[..|a|] == a;
  }

  lemma PricesFront(ticks: seq<Tick>, i: nat, j: nat)
    requires i < j <= |ticks|
    ensures Prices(ticks[i..j]) == [ticks[i].price] + Prices(ticks[i + 1..j])
  {
  }

  lemma ObserveKeepsLockedIn(p: Pos, t: Tick, seen: seq<real>)
    requires LockedIn(p, seen) && t.price > 0.0
    ensures LockedIn(Observe(p, t), seen + [t.price])
  {
    RatchetStep(p.terms, Best(p.terms, seen), t.price);
    BestAppend(p.terms, seen, t.price);
  }

  /** After ticks[i..j] the trail is what those prices and the ones before lock in. */
  lemma {:induction false} FedKeepsLockedIn(p: Pos, ticks: seq<Tick>, i: nat, j: nat, seen: seq<real>)
    requires LockedIn(p, seen) && PositivePrices(ticks) && i <= j <= |ticks|
    ensures LockedIn(Fed(p, ticks, i, j), seen + Prices(ticks[i..j]))
    ensures Fed(p, ticks, i, j).terms == p.terms && Fed(p, ticks, i, j).symbol == p.symbol
    ensures Fed(p, ticks, i, j).openedAt == p.openedAt
    decreases j - i
  {
    if i == j {
      assert seen + Prices(ticks[i..j]) == seen;
    } else {
      ObserveKeepsLockedIn(p, ticks[i], seen);
      ObserveKeepsTerms(p, ticks[i]);
      PricesFront(ticks, i, j);
      assert seen + [ticks[i].price] + Prices(ticks[i + 1..j]) == seen + Prices(ticks[i..j]);
      hide Observe, LockedIn, Prices;
      FedKeepsLockedIn(Observe(p, ticks[i]), ticks, i + 1, j, seen + [ticks[i].price]);
    }
  }

  lemma {:induction false} FedTwice(p: Pos, ticks: seq<Tick>, k: nat, i: nat, j: nat)
    requires p.terms.entry != 0.0 && k <= i <= j <= |ticks|
    ensures Fed(p, ticks, k, i).terms == p.terms && Fed(p, ticks, k, i).symbol == p.symbol
    ensures Fed(p, ticks, k, j) == Fed(Fed(p, ticks, k, i), ticks, i, j)
    decreases i - k
  {
    if k < i {
      ObserveKeepsTerms(p, ticks[k]);
      hide Observe;
      FedTwice(Observe(p, ticks[k]), ticks, k + 1, i, j);
    }
  }

  /** Further ticks put a position ahead of its saved self. */
  lemma {:induction false} FedIsAhead(p: Pos, q: Pos, ticks: seq<Tick>, i: nat, j: nat)
    requires p.terms.Valid() && PositivePrices(ticks) && i <= j <= |ticks| && Ahead(p, q) && p.trail >= 0.0
    requires q.trail >= 0.0 && (p.trail > 0.0 ==> AtLeastAsGood(p.terms.side, p.trail, p.terms.HardStop()))
    ensures Ahead(Fed(p, ticks, i, j), q) && Fed(p, ticks, i, j).trail >= 0.0
    decreases j - i
  {
    if i < j {
      ObserveMovesAhead(p, q, ticks[i]);
      ObserveKeepsTerms(p, ticks[i]);
      hide Observe, Ahead, Terms.HardStop;
      FedIsAhead(Observe(p, ticks[i]), q, ticks, i + 1, j);
    }
  }

  lemma ObserveMovesAhead(p: Pos, q: Pos, t: Tick)
    requires p.terms.Valid() && t.price > 0.0 && Ahead(p, q) && p.trail >= 0.0 && q.trail >= 0.0
    requires p.trail > 0.0 ==> AtLeastAsGood(p.terms.side, p.trail, p.terms.HardStop())
    ensures var n := Observe(p, t);
            && Ahead(n, q) && n.trail >= 0.0
            && (n.trail > 0.0 ==> AtLeastAsGood(p.terms.side, n.trail, p.terms.HardStop()))
  {
    if Candidate(p.terms, t.price).Some? { LockedBetweenHardStopAndPrice(p.terms, t.price); }
  }

  /** What is locked in is at least as good as the hard stop. */
  lemma LockedInIsGuarded(p: Pos, seen: seq<real>)
    requires LockedIn(p, seen)
    ensures p.trail >= 0.0 && (p.trail > 0.0 ==> AtLeastAsGood(p.terms.side, p.trail, p.terms.HardStop()))
  {
    var best := Best(p.terms, seen);
    if Candidate(p.terms, best).Some? { LockedBetweenHardStopAndPrice(p.terms, best); }
  }

  // ---------- what the restart loses ----------

  /** The position that was saved, as it stands after the ticks since: the restart at tick i loses those before it. */
  lemma StaleIsBehind(p: Pos, seen: seq<real>, ticks: seq<Tick>, i: nat)
    requires LockedIn(p, seen) && PositivePrices(ticks) && i <= |ticks|
    ensures Ahead(Fed(p, ticks, 0, i), Load(Save(p))) && Fed(p, ticks, 0, i).terms == p.terms
  {
    LockedInIsGuarded(p, seen);
    FedIsAhead(p, Load(Save(p)), ticks, 0, i);
  }

  /**
   At any later tick the restarted trail is what the prices but the lost ones lock in, the other trail what all of them
   do, and the restarted stop is never better.
   */
  lemma StaleTrail(p: Pos, seen: seq<real>, ticks: seq<Tick>, i: nat, j: nat)
    requires LockedIn(p, seen) && PositivePrices(ticks) && i <= j <= |ticks|
    ensures var kept, lost := Fed(p, ticks, 0, j), Fed(Load(Save(p)), ticks, i, j);
            && kept.trail == Locked(p.terms, Best(p.terms, seen + Prices(ticks[..j])))
            && lost.trail == Locked(p.terms, Best(p.terms, seen + Prices(ticks[i..j])))
            && AtLeastAsGood(p.terms.side, EffectiveStop(p.terms, kept.trail), EffectiveStop(p.terms, lost.trail))
  {
    FedKeepsLockedIn(p, ticks, 0, j, seen);
    FedKeepsLockedIn(Load(Save(p)), ticks, i, j, seen);
    StaleIsBehind(p, seen, ticks, i);
    FedTwice(p, ticks, 0, i, j);
    FedKeepsAhead(Fed(p, ticks, 0, i), Load(Save(p)), ticks, i, j);
    assert ticks[0..j] == ticks[..j];
    hide Best, Locked, Prices, Fed;
  }

  lemma {:induction false} FedKeepsAhead(p: Pos, q: Pos, ticks: seq<Tick>, i: nat, j: nat)
    requires p.terms.Valid() && PositivePrices(ticks) && i <= j <= |ticks| && Ahead(p, q)
    ensures Ahead(Fed(p, ticks, i, j), Fed(q, ticks, i, j))
    decreases j - i
  {
    if i < j {
      ObserveKeepsAhead(p, q, ticks[i]);
      ObserveKeepsTerms(p, ticks[i]);
      hide Observe, Ahead;
      FedKeepsAhead(Observe(p, ticks[i]), Observe(q, ticks[i]), ticks, i + 1, j);
    }
  }

  /** The price reaches the trail all prices lock in, and not a trail that the prices but the lost ones lock in. */
  ghost predicate LostTrail(t: Terms, seen: seq<real>, ticks: seq<Tick>, i: nat, j: nat)
    requires t.entry != 0.0 && i <= j < |ticks|
  {
    var all := Locked(t, Best(t, seen + Prices(ticks[..j + 1])));
    var rest := Locked(t, Best(t, seen + Prices(ticks[i..j + 1])));
    && all > 0.0 && StopTriggered(t, all, ticks[j].price)
    && !(rest > 0.0 && StopTriggered(t, rest, ticks[j].price))
  }

  /** Only an open fast cut is in question, and the samples since the restart answer otherwise than all of them. */
  ghost predicate LostSamples(p: Pos, ticks: seq<Tick>, i: nat, j: nat)
    requires p.terms.entry != 0.0 && i <= j < |ticks|
  {
    var now, q := ticks[j].now, Fed(p, ticks, 0, j + 1);
    && RiskVerdict(q, ticks[j]).None? && FastCutGates(q, now)
    && NotRecovering(p.terms.side, LastN(p.recent + Samples(ticks, 0, j + 1), MAX_SAMPLES), now)
       != NotRecovering(p.terms.side, LastN(Samples(ticks, i, j + 1), MAX_SAMPLES), now)
  }

  /** Neither has exited before tick j, and the lost prices or the lost samples decide there. */
  ghost predicate StaleMatters(p: Pos, seen: seq<real>, ticks: seq<Tick>, i: nat, j: nat)
    requires p.terms.entry != 0.0 && i <= j < |ticks| && Fed(p, ticks, 0, i).terms == p.terms
  {
    && StaysOpen(Fed(p, ticks, 0, i), ticks, i, j) && StaysOpen(Load(Save(p)), ticks, i, j)
    && (LostTrail(p.terms, seen, ticks, i, j) || LostSamples(p, ticks, i, j))
  }

  lemma TrailSplitIsLostTrail(p: Pos, seen: seq<real>, ticks: seq<Tick>, i: nat, j: nat)
    requires LockedIn(p, seen) && PositivePrices(ticks) && i <= j < |ticks|
    ensures TrailSplit(Fed(p, ticks, 0, j + 1), Fed(Load(Save(p)), ticks, i, j + 1), ticks[j]) <==>
            LostTrail(p.terms, seen, ticks, i, j)
  {
    StaleTrail(p, seen, ticks, i, j + 1);
    FedKeepsTerms(p, ticks, 0, j + 1);
    FedKeepsTerms(Load(Save(p)), ticks, i, j + 1);
    hide Fed, StopTriggered, Locked, Best, Prices;
  }

  lemma CutSplitIsLostSamples(p: Pos, ticks: seq<Tick>, i: nat, j: nat)
    requires p.terms.entry != 0.0 && i <= j < |ticks| && |p.recent| <= MAX_SAMPLES
    ensures CutSplit(Fed(p, ticks, 0, j + 1), Fed(Load(Save(p)), ticks, i, j + 1), ticks[j]) <==>
            LostSamples(p, ticks, i, j)
  {
    FedKeeps(p, ticks, 0, j + 1, p.recent);
    FedKeeps(Load(Save(p)), ticks, i, j + 1, []);
    assert [] + Samples(ticks, i, j + 1) == Samples(ticks, i, j + 1);
    hide Fed, RiskVerdict, FastCutGates, NotRecovering, Samples, LastN;
  }

  lemma FedKeepsTerms(p: Pos, ticks: seq<Tick>, i: nat, j: nat)
    requires p.terms.entry != 0.0 && i <= j <= |ticks|
    ensures Fed(p, ticks, i, j).terms == p.terms
  {
    FedTwice(p, ticks, i, j, j);
  }

  lemma SplitIsStale(p: Pos, seen: seq<real>, ticks: seq<Tick>, i: nat, j: nat)
    requires LockedIn(p, seen) && PositivePrices(ticks) && i <= j < |ticks| && |p.recent| <= MAX_SAMPLES
    ensures Fed(p, ticks, 0, i).terms == p.terms
    ensures FirstSplit(Fed(p, ticks, 0, i), Load(Save(p)), ticks, i, j) <==> StaleMatters(p, seen, ticks, i, j)
  {
    FedTwice(p, ticks, 0, i, j + 1);
    TrailSplitIsLostTrail(p, seen, ticks, i, j);
    CutSplitIsLostSamples(p, ticks, i, j);
    hide Fed, StaysOpen, TrailSplit, CutSplit, LostTrail, LostSamples;
  }

  /**
   Exactly when a restart at tick i from a file saved before those ticks changes a later exit: there is a first tick
   that reaches the trail which all prices lock in, but no trail which the prices without the lost ones lock in; or at
   which stop, target and timeout are silent, the fast cut's gates are open, and the samples since the restart disagree
   with all of them on whether the price is recovering.
   */
  lemma StaleRestartChangesExitIff(p: Pos, seen: seq<real>, ticks: seq<Tick>, i: nat)
    requires LockedIn(p, seen) && PositivePrices(ticks) && i <= |ticks| && |p.recent| <= MAX_SAMPLES
    ensures Fed(p, ticks, 0, i).terms == p.terms
    ensures Run(Load(Save(p)), ticks, i).exit != Run(Fed(p, ticks, 0, i), ticks, i).exit <==>
            exists j :: i <= j < |ticks| && StaleMatters(p, seen, ticks, i, j)
  {
    StaleIsBehind(p, seen, ticks, i);
    ExitsDifferIff(Fed(p, ticks, 0, i), Load(Save(p)), ticks, i);
    hide Run, FirstSplit, StaleMatters, Fed, LockedIn;
    forall j | i <= j < |ticks|
      ensures FirstSplit(Fed(p, ticks, 0, i), Load(Save(p)), ticks, i, j) <==> StaleMatters(p, seen, ticks, i, j)
    {
      SplitIsStale(p, seen, ticks, i, j);
    }
  }

  // ---------- symbols exempt from the fast cut ----------

  /** Where the first position stays open, one behind it stays open too. */
  lemma {:induction false} BehindStaysOpen(p: Pos, q: Pos, ticks: seq<Tick>, i: nat, j: nat)
    requires p.terms.Valid() && PositivePrices(ticks) && i <= j <= |ticks| && Ahead(p, q) && p.symbol in FAST_CUT_EXEMPT
    requires StaysOpen(p, ticks, i, j)
    ensures StaysOpen(q, ticks, i, j)
    decreases j - i
  {
    if i < j {
      ObserveKeepsAhead(p, q, ticks[i]);
      ObserveKeepsTerms(p, ticks[i]);
      OnlyTrailsSplit(Observe(p, ticks[i]), Observe(q, ticks[i]), ticks[i]);
      hide Observe, Ahead, Verdict, SplitAt, TrailSplit;
      BehindStaysOpen(Observe(p, ticks[i]), Observe(q, ticks[i]), ticks, i + 1, j);
    }
  }

  lemma OnlyTrailsSplit(p: Pos, q: Pos, t: Tick)
    requires p.symbol in FAST_CUT_EXEMPT
    ensures SplitAt(p, q, t) <==> TrailSplit(p, q, t)
    ensures TrailSplit(p, q, t) ==> Verdict(p, t) == Some(TrailHit)
  {
  }

  /** A run is the run from any tick up to which the position stays open. */
  lemma {:induction false} RunWhileOpen(p: Pos, ticks: seq<Tick>, i: nat, j: nat)
    requires p.terms.entry != 0.0 && i <= j <= |ticks| && StaysOpen(p, ticks, i, j)
    ensures Fed(p, ticks, i, j).terms == p.terms && Run(p, ticks, i) == Run(Fed(p, ticks, i, j), ticks, j)
    decreases j - i
  {
    if i < j {
      ObserveKeepsTerms(p, ticks[i]);
      hide Observe, Verdict;
      RunWhileOpen(Observe(p, ticks[i]), ticks, i + 1, j);
    }
  }

  /** A position stays open up to its exit, and the exit is its verdict there. */
  lemma {:induction false} OpenUntilExit(p: Pos, ticks: seq<Tick>, i: nat)
    requires p.terms.entry != 0.0 && i <= |ticks| && Run(p, ticks, i).exit.Some?
    ensures var (j, r) := Run(p, ticks, i).exit.value;
            i <= j < |ticks| && StaysOpen(p, ticks, i, j) && Verdict(Fed(p, ticks, i, j + 1), ticks[j]) == Some(r)
    decreases |ticks| - i
  {
    if i < |ticks| {
      ObserveKeepsTerms(p, ticks[i]);
      FedOne(p, ticks, i);
      hide Observe, Verdict;
      if Verdict(Observe(p, ticks[i]), ticks[i]).None? { OpenUntilExit(Observe(p, ticks[i]), ticks, i + 1); }
    }
  }

  /**
   For a symbol exempt from the fast cut: the exit changes if and only if the position that was not restarted exits by
   its trail, at a price that reaches no trail the prices without the lost ones lock in. And a restart never makes it
   exit earlier.
   */
  lemma StaleRestartOnExempt(p: Pos, seen: seq<real>, ticks: seq<Tick>, i: nat)
    requires LockedIn(p, seen) && PositivePrices(ticks) && i <= |ticks| && |p.recent| <= MAX_SAMPLES
    requires p.symbol in FAST_CUT_EXEMPT
    ensures Fed(p, ticks, 0, i).terms == p.terms
    ensures var kept, lost := Run(Fed(p, ticks, 0, i), ticks, i).exit, Run(Load(Save(p)), ticks, i).exit;
            && (lost != kept <==> exists j :: i <= j < |ticks| && kept == Some((j, TrailHit))
                                              && LostTrail(p.terms, seen, ticks, i, j))
            && (lost.Some? ==> kept.Some? && kept.value.0 <= lost.value.0)
  {
    var a, q := Fed(p, ticks, 0, i), Load(Save(p));
    FedKeepsLockedIn(p, ticks, 0, i, seen);
    StaleIsBehind(p, seen, ticks, i);
    StaleRestartChangesExitIff(p, seen, ticks, i);
    NeverEarlier(a, q, ticks, i);
    hide Run, Fed, StaysOpen, LostTrail, LostSamples, LockedIn;
    forall j | i <= j < |ticks|
      ensures StaleMatters(p, seen, ticks, i, j) <==>
              Run(a, ticks, i).exit == Some((j, TrailHit)) && LostTrail(p.terms, seen, ticks, i, j)
    {
      StaleMattersOnExempt(p, seen, ticks, i, j);
    }
  }

  lemma StaleMattersOnExempt(p: Pos, seen: seq<real>, ticks: seq<Tick>, i: nat, j: nat)
    requires LockedIn(p, seen) && PositivePrices(ticks) && i <= j < |ticks| && |p.recent| <= MAX_SAMPLES
    requires p.symbol in FAST_CUT_EXEMPT
    ensures Fed(p, ticks, 0, i).terms == p.terms
    ensures StaleMatters(p, seen, ticks, i, j) <==>
            Run(Fed(p, ticks, 0, i), ticks, i).exit == Some((j, TrailHit)) && LostTrail(p.terms, seen, ticks, i, j)
  {
    var a, q := Fed(p, ticks, 0, i), Load(Save(p));
    FedKeepsLockedIn(p, ticks, 0, i, seen);
    StaleIsBehind(p, seen, ticks, i);
    NoLostSamples(p, ticks, i, j);
    if StaleMatters(p, seen, ticks, i, j) {
      TrailExit(p, seen, ticks, i, j);
    } else if Run(a, ticks, i).exit == Some((j, TrailHit)) && LostTrail(p.terms, seen, ticks, i, j) {
      OpenUntilExit(a, ticks, i);
      BehindStaysOpen(a, q, ticks, i, j);
    }
  }

  lemma NoLostSamples(p: Pos, ticks: seq<Tick>, i: nat, j: nat)
    requires p.terms.entry != 0.0 && i <= j < |ticks| && p.symbol in FAST_CUT_EXEMPT
    requires |p.recent| <= MAX_SAMPLES
    ensures !LostSamples(p, ticks, i, j)
  {
    FedKeeps(p, ticks, 0, j + 1, p.recent);
  }

  lemma TrailExit(p: Pos, seen: seq<real>, ticks: seq<Tick>, i: nat, j: nat)
    requires LockedIn(p, seen) && PositivePrices(ticks) && i <= j < |ticks| && Fed(p, ticks, 0, i).terms == p.terms
    requires StaysOpen(Fed(p, ticks, 0, i), ticks, i, j) && LostTrail(p.terms, seen, ticks, i, j)
    ensures Run(Fed(p, ticks, 0, i), ticks, i).exit == Some((j, TrailHit))
  {
    var a := Fed(p, ticks, 0, i);
    StaleTrail(p, seen, ticks, i, j + 1);
    FedTwice(p, ticks, 0, i, j);
    FedTwice(p, ticks, 0, i, j + 1);
    FedTwice(p, ticks, 0, j, j + 1);
    RunWhileOpen(a, ticks, i, j);
    FedOne(Fed(p, ticks, 0, j), ticks, j);
    FedKeepsLockedIn(p, ticks, 0, j + 1, seen);
    var b := Fed(p, ticks, 0, j + 1);
    assert Verdict(b, ticks[j]) == Some(TrailHit);
    hide Observe, Verdict, Locked, Best, Prices;
  }

  lemma {:induction false} NeverEarlier(p: Pos, q: Pos, ticks: seq<Tick>, i: nat)
    requires p.terms.Valid() && PositivePrices(ticks) && i <= |ticks| && Ahead(p, q) && p.symbol in FAST_CUT_EXEMPT
    ensures Run(q, ticks, i).exit.Some? ==>
              Run(p, ticks, i).exit.Some? && Run(p, ticks, i).exit.value.0 <= Run(q, ticks, i).exit.value.0
    decreases |ticks| - i
  {
    if i < |ticks| {
      var t := ticks[i];
      var p', q' := Observe(p, t), Observe(q, t);
      ObserveKeepsAhead(p, q, t);
      ObserveKeepsTerms(p, t);
      OnlyTrailsSplit(p', q', t);
      ExitIndex(q', ticks, i + 1);
      hide Observe, Ahead, Verdict, SplitAt, TrailSplit;
      if Verdict(p', t).None? { NeverEarlier(p', q', ticks, i + 1); }
    }
  }

  // ---------- lost prices that do not matter ----------

  lemma {:induction false} BestOfOutdone(t: Terms, seen: seq<real>, more: seq<real>)
    requires forall x :: x in more ==> AtLeastAsGood(t.side, Best(t, seen), x)
    ensures Best(t, seen + more) == Best(t, seen)
    decreases |more|
  {
    if more == [] {
      assert seen + more == seen;
    } else {
      var init, x := more[..|more| - 1], more[|more| - 1];
      assert more == init + [x] && seen + more == seen + init + [x];
      BestOfOutdone(t, seen, init);
      BestAppend(t, seen + init, x);
    }
  }

  lemma SameRiskDoesNotSplit(p: Pos, q: Pos, ticks: seq<Tick>, i: nat, j: nat)
    requires p.terms.entry != 0.0 && i <= j < |ticks| && SameRisk(p, q) && p.symbol in FAST_CUT_EXEMPT
    ensures !SplitAt(Fed(p, ticks, i, j + 1), Fed(q, ticks, i, j + 1), ticks[j])
  {
    FedKeepsSameRisk(p, q, ticks, i, j + 1);
    FedTwice(p, ticks, i, j + 1, j + 1);
    OnlyTrailsSplit(Fed(p, ticks, i, j + 1), Fed(q, ticks, i, j + 1), ticks[j]);
  }

  lemma SameRiskExitsAlike(p: Pos, q: Pos, ticks: seq<Tick>, i: nat)
    requires p.terms.entry != 0.0 && i <= |ticks| && SameRisk(p, q) && p.symbol in FAST_CUT_EXEMPT
    ensures Run(q, ticks, i).exit == Run(p, ticks, i).exit
  {
    ExitsDifferIff(p, q, ticks, i);
    hide Run, Fed, StaysOpen;
    forall j | i <= j < |ticks|
      ensures !FirstSplit(p, q, ticks, i, j)
    {
      SameRiskDoesNotSplit(p, q, ticks, i, j);
    }
  }

  /** Lost prices that are no better than the best one saved change no exit of an exempt symbol. */
  lemma OutdonePricesDoNotMatter(p: Pos, seen: seq<real>, ticks: seq<Tick>, i: nat)
    requires LockedIn(p, seen) && PositivePrices(ticks) && i <= |ticks|
    requires p.symbol in FAST_CUT_EXEMPT
    requires forall k :: 0 <= k < i ==> AtLeastAsGood(p.terms.side, Best(p.terms, seen), ticks[k].price)
    ensures Fed(p, ticks, 0, i).terms == p.terms
    ensures Run(Load(Save(p)), ticks, i).exit == Run(Fed(p, ticks, 0, i), ticks, i).exit
  {
    FedKeepsLockedIn(p, ticks, 0, i, seen);
    BestOfOutdone(p.terms, seen, Prices(ticks[0..i]));
    SameRiskExitsAlike(Fed(p, ticks, 0, i), Load(Save(p)), ticks, i);
  }

  /** A tick at the better of two trails reaches that one and not the other. */
  lemma TickAtTrailSplits(p: Pos, q: Pos, t: Tick)
    requires p.terms.Valid() && Ahead(p, q) && p.trail != q.trail && q.trail >= 0.0 && t.price == p.trail
    ensures t.price > 0.0 && TrailSplit(Observe(p, t), Observe(q, t), t)
  {
    if Candidate(p.terms, t.price).Some? { LockedBetweenHardStopAndPrice(p.terms, t.price); }
  }

  /**
   What the lost prices can change, exactly: some later ticks make a position of an exempt symbol exit otherwise after
   the restart if and only if the lost prices had moved its trail.
   */
  lemma LostPricesMatterIff(p: Pos, seen: seq<real>, lost: seq<Tick>)
    requires LockedIn(p, seen) && PositivePrices(lost) && p.symbol in FAST_CUT_EXEMPT
    ensures Fed(p, lost, 0, |lost|).terms == p.terms
    ensures (exists more | PositivePrices(more) ::
               Run(Load(Save(p)), more, 0).exit != Run(Fed(p, lost, 0, |lost|), more, 0).exit)
            <==> Locked(p.terms, Best(p.terms, seen + Prices(lost))) != Locked(p.terms, Best(p.terms, seen))
  {
    var a, q := Fed(p, lost, 0, |lost|), Load(Save(p));
    FedKeepsLockedIn(p, lost, 0, |lost|, seen);
    assert lost[0..|lost|] == lost;
    StaleIsBehind(p, seen, lost, |lost|);
    LockedInIsGuarded(p, seen);
    hide Fed, Locked, Best, Prices;
    if a.trail == q.trail {
      forall more | PositivePrices(more)
        ensures Run(q, more, 0).exit == Run(a, more, 0).exit
      {
        SameRiskExitsAlike(a, q, more, 0);
      }
    } else {
      var t := Tick(a.trail, 0.0);
      TickAtTrailSplits(a, q, t);
      ExitsDifferAtOnce(a, q, t);
    }
  }

  lemma ExitsDifferAtOnce(p: Pos, q: Pos, t: Tick)
    requires p.terms.Valid() && Ahead(p, q) && t.price > 0.0 && TrailSplit(Observe(p, t), Observe(q, t), t)
    ensures PositivePrices([t]) && Run(q, [t], 0).exit != Run(p, [t], 0).exit
  {
    FedOne(p, [t], 0);
    FedOne(q, [t], 0);
    ExitsDifferIff(p, q, [t], 0);
    hide Fed, Observe, TrailSplit, CutSplit, Run;
    assert FirstSplit(p, q, [t], 0, 0);
  }

  // ---------- a lost trail ----------

  /** A long on an exempt symbol rises, moves its trail and falls back: only without the restart does the trail exit. */
  lemma StaleRestartLosesTrail() returns (p: Pos, ticks: seq<Tick>)
    ensures LockedIn(p, []) && p.symbol in FAST_CUT_EXEMPT && PositivePrices(ticks) && |ticks| == 2
    ensures Fed(p, ticks, 0, 1).terms == p.terms
    ensures Run(p, ticks, 0).exit == Run(Fed(p, ticks, 0, 1), ticks, 1).exit == Some((1, TrailHit))
    ensures Run(Load(Save(p)), ticks, 1).exit == None
  {
    var t := Terms(Long, 100.0, 0.05, 0.5);
    p := Opened(1, "BTC", t, 50.0, 0.5, 0.0, 0.02);
    ticks := [Tick(110.0, 10.0), Tick(100.0, 20.0)];
    NothingLockedAtEntry(t);
    var rise, fall := ticks[0], ticks[1];
    assert Profit(t, 110.0) == 0.1 && Candidate(t, 110.0) == Some(104.5);
    assert Profit(t, 100.0) == 0.0 && Candidate(t, 100.0) == None;
    var up := Observe(p, rise);
    assert up.trail == 104.5 && Verdict(up, rise) == None;
    FedOne(p, ticks, 0);
    var down := Observe(up, fall);
    assert down.trail == 104.5 && Verdict(down, fall) == Some(TrailHit);
    var again := Observe(Load(Save(p)), fall);
    assert again.trail == 0.0 && Verdict(again, fall) == None;
    assert Run(up, ticks, 1).exit == Some((1, TrailHit));
    assert Run(again, ticks, 2).exit == None;
  }
}
