/**
 The watchdog process and the map of stops it shares with the engine, over sequential live runs of
 open, close, reconcile, price updates and restart.
 */
module WatchdogSync {
  import opened Options
  import opened Positions
  import opened Reals
  import opened TrailingStop

  /** A watchdog entry: stop and target as fractions of the entry price. */
  datatype Limits = Limits(stop: real, target: real)

  const DEFAULT_LIMITS := Limits(0.15, 0.40)
  const ADOPT_LIMITS := Limits(0.10, 0.25)
  const ADOPT_MIN_NOTIONAL_USD := 1.0

  /** A non-zero position as the exchange reports it; newId is the id it gets if the engine adopts it. */
  datatype Row = Row(symbol: string, amount: real, entry: real, mark: real, newId: nat, updateTime: real)

  /** The engine's positions, what the state file holds of them, and the shared map. */
  datatype Live = Live(positions: seq<Pos>, disk: seq<Saved>, stops: map<string, Limits>)

  datatype Op =
    | Reconcile(rows: seq<Row>)
    | Open(before: Option<seq<Row>>, pos: Pos)
    | Close(symbol: string, after: Option<seq<Row>>)
    | PriceUpdate(ticked: string, tick: Tick)
    | SaveState
    | Restart(startup: Option<seq<Row>>)

  function LimitsOf(p: Pos): Limits { Limits(p.terms.stopPct, p.terms.targetPct) }

  function Symbols(ps: seq<Pos>): set<string> {
    if ps == [] then {} else Symbols(ps[..|ps| - 1]) + {ps[|ps| - 1].symbol}
  }

  function RowSymbols(rows: seq<Row>): set<string> {
    if rows == [] then {} else RowSymbols(rows[..|rows| - 1]) + {rows[|rows| - 1].symbol}
  }

  /** The positions whose symbol is in the set. */
  function Keep(ps: seq<Pos>, symbols: set<string>): seq<Pos> {
    if ps == [] then []
    else if ps[|ps| - 1].symbol in symbols then Keep(ps[..|ps| - 1], symbols) + [ps[|ps| - 1]]
    else Keep(ps[..|ps| - 1], symbols)
  }

  function AdoptEntry(r: Row): real { if r.entry != 0.0 then r.entry else r.mark }

  function Quantity(r: Row): real { if r.amount >= 0.0 then r.amount else -r.amount }

  predicate Adoptable(r: Row) {
    AdoptEntry(r) > 0.0 && Quantity(r) * AdoptEntry(r) >= ADOPT_MIN_NOTIONAL_USD
  }

  function Adopt(r: Row): Pos {
    var side, entry := if r.amount > 0.0 then Long else Short, AdoptEntry(r);
    var mark := if r.mark != 0.0 then r.mark else entry;
    var best := if side.Long? then Max(entry, mark) else Min(entry, mark);
    var worst := if side.Long? then Min(entry, mark) else Max(entry, mark);
    Pos(r.newId, r.symbol, Terms(side, entry, ADOPT_LIMITS.stop, ADOPT_LIMITS.target), Quantity(r) * entry, Quantity(r),
        r.updateTime, 0.0, mark, best, Some(worst), 0.0, [])
  }

  /** The rows that are adopted: not tracked and worth tracking. */
  function Adopted(rows: seq<Row>, tracked: set<string>): seq<Pos> {
    if rows == [] then []
    else
      var r := rows[|rows| - 1];
      if r.symbol !in tracked && Adoptable(r) then Adopted(rows[..|rows| - 1], tracked) + [Adopt(r)]
      else Adopted(rows[..|rows| - 1], tracked)
  }

  /** Writes the entries of the positions into the map, in order. */
  function Sync(stops: map<string, Limits>, ps: seq<Pos>): map<string, Limits> {
    if ps == [] then stops
    else Sync(stops, ps[..|ps| - 1])[ps[|ps| - 1].symbol := LimitsOf(ps[|ps| - 1])]
  }

  function SaveAll(ps: seq<Pos>): seq<Saved> { seq(|ps|, i requires 0 <= i < |ps| => Save(ps[i])) }

  function LoadAll(ss: seq<Saved>): seq<Pos> { seq(|ss|, i requires 0 <= i < |ss| => Load(ss[i])) }

  // ---------- the operations ----------

  function Reconciled(s: Live, rows: seq<Row>): Live {
    var live := RowSymbols(rows);
    var kept := Keep(s.positions, live);
    var adopted := Adopted(rows, Symbols(kept));
    var ps := kept + adopted;
    Live(ps, if ps == s.positions then s.disk else SaveAll(ps), Sync(s.stops - (Symbols(s.positions) - live), adopted))
  }

  function MaybeReconciled(s: Live, rows: Option<seq<Row>>): Live {
    match rows case None => s case Some(r) => Reconciled(s, r)
  }

  function After(s: Live, op: Op): Live {
    match op
    case Reconcile(rows) => Reconciled(s, rows)
    case Open(before, pos) =>
      var r := MaybeReconciled(s, before);
      if pos.symbol in Symbols(r.positions) then r
      else Live(r.positions + [pos], SaveAll(r.positions + [pos]), r.stops[pos.symbol := LimitsOf(pos)])
    case Close(symbol, after) =>
      if symbol !in Symbols(s.positions) then s
      else
        var left := Keep(s.positions, Symbols(s.positions) - {symbol});
        var r := MaybeReconciled(Live(left, SaveAll(left), s.stops), after);
        r.(stops := r.stops - {symbol})
    case PriceUpdate(symbol, tick) =>
      s.(positions := seq(|s.positions|, i requires 0 <= i < |s.positions| =>
                            if s.positions[i].symbol == symbol && s.positions[i].terms.entry != 0.0
                            then Observe(s.positions[i], tick) else s.positions[i]))
    case SaveState => s.(disk := SaveAll(s.positions))
    case Restart(rows) =>
      var r := MaybeReconciled(s.(positions := LoadAll(s.disk)), rows);
      r.(stops := Sync(r.stops, r.positions))
  }

  /**
   What the operations that do not reconcile do: a price update ticks the positions of its symbol and no other, a save
   writes what there is, and opening a free symbol tracks, saves and enters it.
   */
  lemma OperationsMean(s: Live, symbol: string, tick: Tick, pos: Pos)
    ensures var n := After(s, PriceUpdate(symbol, tick));
            && |n.positions| == |s.positions| && n.disk == s.disk && n.stops == s.stops
            && forall i :: 0 <= i < |s.positions| ==>
                 n.positions[i] == if s.positions[i].symbol == symbol && s.positions[i].terms.entry != 0.0
                                   then Observe(s.positions[i], tick) else s.positions[i]
    ensures var n := After(s, SaveState);
            && n.positions == s.positions && n.stops == s.stops && |n.disk| == |s.positions|
            && forall i :: 0 <= i < |s.positions| ==> n.disk[i] == Save(s.positions[i])
    ensures pos.symbol !in Symbols(s.positions) ==>
              var n := After(s, Open(None, pos));
              && n.positions == s.positions + [pos] && |n.disk| == |n.positions| && n.disk[|s.positions|] == Save(pos)
              && n.stops == s.stops[pos.symbol := Limits(pos.terms.stopPct, pos.terms.targetPct)]
  {
  }

  function AfterAll(s: Live, ops: seq<Op>): Live {
    if ops == [] then s else After(AfterAll(s, ops[..|ops| - 1]), ops[|ops| - 1])
  }

  // ---------- what a run keeps ----------

  ghost predicate DistinctRows(rows: seq<Row>) {
    rows == [] || (DistinctRows(rows[..|rows| - 1]) && rows[|rows| - 1].symbol !in RowSymbols(rows[..|rows| - 1]))
  }

  ghost predicate DistinctSymbols(ps: seq<Pos>) {
    ps == [] || (DistinctSymbols(ps[..|ps| - 1]) && ps[|ps| - 1].symbol !in Symbols(ps[..|ps| - 1]))
  }

  /** The exchange reports a symbol once; opened positions are new, prices are positive. */
  ghost predicate Plausible(op: Op) {
    match op
    case Reconcile(rows) => DistinctRows(rows)
    case Open(before, pos) => (before.Some? ==> DistinctRows(before.value)) && pos.terms.Valid() && pos.trail == 0.0
    case Close(_, after) => after.Some? ==> DistinctRows(after.value)
    case PriceUpdate(_, tick) => tick.price > 0.0
    case SaveState => true
    case Restart(rows) => rows.Some? ==> DistinctRows(rows.value)
  }

  /** The stop in force is at least as good as the hard stop. */
  ghost predicate Guarded(t: Terms, trail: real) {
    t.Valid() && AtLeastAsGood(t.side, EffectiveStop(t, trail), t.HardStop())
  }

  /** A position's own entry, or none while its own limits are the adoption defaults. */
  ghost predicate Covered(p: Pos, stops: map<string, Limits>) {
    if p.symbol in stops then stops[p.symbol] == LimitsOf(p) else LimitsOf(p) == ADOPT_LIMITS
  }

  ghost predicate AllGuarded(ps: seq<Pos>) { forall p :: p in ps ==> Guarded(p.terms, p.trail) }

  ghost predicate AllCovered(ps: seq<Pos>, stops: map<string, Limits>) { forall p :: p in ps ==> Covered(p, stops) }

  /** Every tracked position has its own stop and target in the map. */
  ghost predicate Synced(s: Live) {
    forall p :: p in s.positions ==> p.symbol in s.stops && s.stops[p.symbol] == LimitsOf(p)
  }

  /** The state file lags behind only in prices and trails. */
  ghost predicate DiskMatches(s: Live) {
    |s.disk| == |s.positions| &&
    forall i :: 0 <= i < |s.disk| ==>
      && s.disk[i].symbol == s.positions[i].symbol && s.disk[i].terms == s.positions[i].terms
      && Guarded(s.disk[i].terms, s.disk[i].trail)
  }

  ghost predicate Safe(s: Live) {
    DistinctSymbols(s.positions) && AllGuarded(s.positions) && AllCovered(s.positions, s.stops) && DiskMatches(s)
  }

  // ---------- collections ----------

  lemma SymbolIn(ps: seq<Pos>, p: Pos)
    requires p in ps
    ensures p.symbol in Symbols(ps)
  {
    if ps[|ps| - 1] != p {
      assert ps == ps[..|ps| - 1] + [ps[|ps| - 1]];
      SymbolIn(ps[..|ps| - 1], p);
    }
  }

  lemma SymbolsAppend(ps: seq<Pos>, p: Pos)
    ensures Symbols(ps + [p]) == Symbols(ps) + {p.symbol}
    ensures DistinctSymbols(ps + [p]) <==> DistinctSymbols(ps) && p.symbol !in Symbols(ps)
  {
    assert (ps + [p])[..|ps|] == ps;
  }

  lemma SymbolsConcat(a: seq<Pos>, b: seq<Pos>)
    ensures Symbols(a + b) == Symbols(a) + Symbols(b)
    ensures DistinctSymbols(a) && DistinctSymbols(b) && Symbols(a) !! Symbols(b) ==> DistinctSymbols(a + b)
    decreases |b|
  {
    if b == [] {
      assert a + b == a;
    } else {
      SymbolsConcat(a, b[..|b| - 1]);
      assert a + b == a + b[..|b| - 1] + [b[|b| - 1]];
      SymbolsAppend(a + b[..|b| - 1], b[|b| - 1]);
    }
  }

  lemma KeepFacts(ps: seq<Pos>, symbols: set<string>)
    ensures forall p :: p in Keep(ps, symbols) <==> p in ps && p.symbol in symbols
    ensures Symbols(Keep(ps, symbols)) == Symbols(ps) * symbols
    ensures DistinctSymbols(ps) ==> DistinctSymbols(Keep(ps, symbols))
  {
    KeepMembers(ps, symbols);
    KeepSymbols(ps, symbols);
  }

  lemma {:induction false} KeepMembers(ps: seq<Pos>, symbols: set<string>)
    ensures forall p :: p in Keep(ps, symbols) <==> p in ps && p.symbol in symbols
  {
    if ps != [] {
      assert ps == ps[..|ps| - 1] + [ps[|ps| - 1]];
      KeepMembers(ps[..|ps| - 1], symbols);
    }
  }

  lemma {:induction false} KeepSymbols(ps: seq<Pos>, symbols: set<string>)
    ensures Symbols(Keep(ps, symbols)) == Symbols(ps) * symbols
    ensures DistinctSymbols(ps) ==> DistinctSymbols(Keep(ps, symbols))
  {
    if ps != [] {
      KeepSymbols(ps[..|ps| - 1], symbols);
      SymbolsAppend(Keep(ps[..|ps| - 1], symbols), ps[|ps| - 1]);
    }
  }

  /**
   What is adopted of an exchange position: its side by the sign of the amount, at its entry price or else its mark
   price, with a stop of 10% and a target of 25%; nothing without a price or worth less than a dollar is adopted.
   */
  lemma AdoptMeans(r: Row)
    ensures var entry, quantity := if r.entry != 0.0 then r.entry else r.mark, Abs(r.amount);
            && (Adoptable(r) <==> entry > 0.0 && quantity * entry >= 1.0)
            && var p := Adopt(r);
               && p.symbol == r.symbol && p.quantity == quantity && p.size == quantity * entry
               && p.terms == Terms(if r.amount > 0.0 then Long else Short, entry, 0.10, 0.25)
               && p.entryCommission == 0.0 && p.trail == 0.0 && p.id == r.newId && p.openedAt == r.updateTime
               && p.currentPrice == (if r.mark != 0.0 then r.mark else entry)
  {
  }

  lemma AdoptIsGuarded(r: Row)
    requires Adoptable(r)
    ensures Guarded(Adopt(r).terms, Adopt(r).trail) && LimitsOf(Adopt(r)) == ADOPT_LIMITS && Adopt(r).symbol == r.symbol
  {
  }

  lemma AdoptedFacts(rows: seq<Row>, tracked: set<string>)
    requires DistinctRows(rows)
    ensures Symbols(Adopted(rows, tracked)) <= RowSymbols(rows) - tracked
    ensures DistinctSymbols(Adopted(rows, tracked))
    ensures forall p :: p in Adopted(rows, tracked) ==> LimitsOf(p) == ADOPT_LIMITS && Guarded(p.terms, p.trail)
  {
    hide Adopt, Adoptable, Guarded;
    if rows != [] {
      var init, r := rows[..|rows| - 1], rows[|rows| - 1];
      AdoptedFacts(init, tracked);
      if Adoptable(r) { AdoptIsGuarded(r); }
      SymbolsAppend(Adopted(init, tracked), Adopt(r));
    }
  }

  /** Whether the exchange reports a position of the symbol that is worth tracking. */
  predicate Reported(rows: seq<Row>, symbol: string) {
    exists i :: 0 <= i < |rows| && rows[i].symbol == symbol && Adoptable(rows[i])
  }

  lemma ReportedAppend(init: seq<Row>, r: Row, symbol: string)
    ensures Reported(init + [r], symbol) <==> Reported(init, symbol) || (r.symbol == symbol && Adoptable(r))
  {
    var rows := init + [r];
    if i :| 0 <= i < |init| && init[i].symbol == symbol && Adoptable(init[i]) { assert rows[i] == init[i]; }
    if r.symbol == symbol && Adoptable(r) { assert rows[|init|] == r; }
  }

  /** Exactly the untracked rows worth tracking are adopted. */
  lemma AdoptedSymbols(rows: seq<Row>, tracked: set<string>, symbol: string)
    ensures symbol in Symbols(Adopted(rows, tracked)) <==> symbol !in tracked && Reported(rows, symbol)
  {
    hide Adopt, Adoptable, Guarded, Reported;
    if rows != [] {
      var init, r := rows[..|rows| - 1], rows[|rows| - 1];
      AdoptedSymbols(init, tracked, symbol);
      assert rows == init + [r];
      ReportedAppend(init, r, symbol);
      if Adoptable(r) { AdoptIsGuarded(r); }
      SymbolsAppend(Adopted(init, tracked), Adopt(r));
    } else {
      assert !Reported(rows, symbol) by { NothingReported(symbol); }
    }
  }

  lemma NothingReported(symbol: string)
    ensures !Reported([], symbol)
  {
  }

  lemma SyncFacts(stops: map<string, Limits>, ps: seq<Pos>)
    requires DistinctSymbols(ps)
    ensures forall p :: p in ps ==> p.symbol in Sync(stops, ps) && Sync(stops, ps)[p.symbol] == LimitsOf(p)
    ensures Sync(stops, ps).Keys == stops.Keys + Symbols(ps)
    ensures forall x :: x in stops && x !in Symbols(ps) ==> Sync(stops, ps)[x] == stops[x]
  {
    if ps != [] {
      var init, last := ps[..|ps| - 1], ps[|ps| - 1];
      assert ps == init + [last];
      SyncFacts(stops, init);
      forall p | p in init
        ensures p.symbol != last.symbol
      {
        SymbolIn(init, p);
      }
    }
  }

  lemma SavedMatches(ps: seq<Pos>, stops: map<string, Limits>)
    requires AllGuarded(ps)
    ensures DiskMatches(Live(ps, SaveAll(ps), stops))
  {
  }

  // ---------- each operation ----------

  /** One tick of the ratchet keeps the stop in force at least as good as the hard stop. */
  lemma RatchetKeepsGuard(t: Terms, trail: real, price: real)
    requires Guarded(t, trail) && price > 0.0
    ensures Guarded(t, Ratchet(t, trail, price))
  {
    if Candidate(t, price).Some? { LockedBetweenHardStopAndPrice(t, price); }
  }

  /** Dropping the ghosts' entries and writing those of the adopted positions keeps everyone covered. */
  lemma SyncKeepsCover(ps: seq<Pos>, stops: map<string, Limits>, live: set<string>, adopted: seq<Pos>)
    requires AllCovered(ps, stops) && DistinctSymbols(adopted) && Symbols(adopted) !! Symbols(Keep(ps, live))
    ensures AllCovered(Keep(ps, live) + adopted, Sync(stops - (Symbols(ps) - live), adopted))
    ensures (forall p :: p in ps ==> p.symbol in stops) ==>
              forall p :: p in Keep(ps, live) + adopted ==> p.symbol in Sync(stops - (Symbols(ps) - live), adopted)
  {
    var kept := Keep(ps, live);
    KeepFacts(ps, live);
    SyncFacts(stops - (Symbols(ps) - live), adopted);
    forall p | p in kept
      ensures p.symbol in Symbols(kept)
    {
      SymbolIn(kept, p);
    }
  }

  /** Reconciling keeps the invariant, and writes the entry of everything it adopts. */
  lemma ReconcileKeepsSafe(s: Live, rows: seq<Row>)
    requires Safe(s) && DistinctRows(rows)
    ensures Safe(Reconciled(s, rows))
    ensures Synced(s) ==> Synced(Reconciled(s, rows))
  {
    hide Adopt, Adoptable, Guarded, Keep, Adopted, Sync, Symbols, RowSymbols, DistinctSymbols, DistinctRows;
    var live := RowSymbols(rows);
    var kept := Keep(s.positions, live);
    var adopted := Adopted(rows, Symbols(kept));
    KeepFacts(s.positions, live);
    AdoptedFacts(rows, Symbols(kept));
    SymbolsConcat(kept, adopted);
    SyncKeepsCover(s.positions, s.stops, live, adopted);
    SavedMatches(kept + adopted, s.stops);
  }

  lemma MaybeReconcileKeepsSafe(s: Live, rows: Option<seq<Row>>)
    requires Safe(s) && (rows.Some? ==> DistinctRows(rows.value))
    ensures Safe(MaybeReconciled(s, rows))
    ensures Synced(s) ==> Synced(MaybeReconciled(s, rows))
  {
    if rows.Some? { ReconcileKeepsSafe(s, rows.value); }
  }

  lemma OpenKeepsSafe(s: Live, pos: Pos)
    requires Safe(s) && pos.terms.Valid() && pos.trail == 0.0 && pos.symbol !in Symbols(s.positions)
    ensures var n := Live(s.positions + [pos], SaveAll(s.positions + [pos]), s.stops[pos.symbol := LimitsOf(pos)]);
            Safe(n) && (Synced(s) ==> Synced(n))
  {
    SymbolsAppend(s.positions, pos);
    forall p | p in s.positions
      ensures p.symbol != pos.symbol
    {
      SymbolIn(s.positions, p);
    }
    SavedMatches(s.positions + [pos], s.stops);
  }

  /** The positions left once a symbol's is closed. */
  lemma CloseLeaves(s: Live, symbol: string)
    requires Safe(s)
    ensures var left := Keep(s.positions, Symbols(s.positions) - {symbol});
            && Safe(Live(left, SaveAll(left), s.stops)) && symbol !in Symbols(left)
            && (Synced(s) ==> Synced(Live(left, SaveAll(left), s.stops)))
  {
    var left := Keep(s.positions, Symbols(s.positions) - {symbol});
    KeepFacts(s.positions, Symbols(s.positions) - {symbol});
    SavedMatches(left, s.stops);
  }

  /** Removing a symbol's entry: what is left uncovered is at most an adopted position of that symbol. */
  lemma ClearKeepsSafe(s: Live, symbol: string)
    requires Safe(s)
    requires forall p :: p in s.positions && p.symbol == symbol ==> LimitsOf(p) == ADOPT_LIMITS
    ensures Safe(s.(stops := s.stops - {symbol}))
    ensures Synced(s) ==> (Synced(s.(stops := s.stops - {symbol})) <==> symbol !in Symbols(s.positions))
  {
    if symbol in Symbols(s.positions) {
      SymbolOwner(s.positions, symbol);
    } else {
      forall p | p in s.positions
        ensures p.symbol != symbol
      {
        SymbolIn(s.positions, p);
      }
    }
  }

  lemma SymbolOwner(ps: seq<Pos>, symbol: string)
    requires symbol in Symbols(ps)
    ensures exists p :: p in ps && p.symbol == symbol
  {
    var init, last := ps[..|ps| - 1], ps[|ps| - 1];
    assert ps == init + [last];
    if last.symbol == symbol {
      assert last in ps;
    } else {
      SymbolOwner(init, symbol);
      var p :| p in init && p.symbol == symbol;
      assert p in ps;
    }
  }

  /** A symbol the post-close reconcile adopts although it has just been closed. */
  predicate Readopted(after: Option<seq<Row>>, symbol: string) {
    after.Some? && Reported(after.value, symbol)
  }

  lemma ReconciledSymbol(s: Live, rows: seq<Row>, symbol: string)
    requires DistinctRows(rows) && symbol !in Symbols(s.positions)
    ensures symbol in Symbols(Reconciled(s, rows).positions) <==> Readopted(Some(rows), symbol)
    ensures forall p :: p in Reconciled(s, rows).positions && p.symbol == symbol ==> LimitsOf(p) == ADOPT_LIMITS
  {
    var kept := Keep(s.positions, RowSymbols(rows));
    KeepFacts(s.positions, RowSymbols(rows));
    AdoptedFacts(rows, Symbols(kept));
    AdoptedSymbols(rows, Symbols(kept), symbol);
    SymbolsConcat(kept, Adopted(rows, Symbols(kept)));
    forall p | p in kept
      ensures p.symbol != symbol
    {
      SymbolIn(kept, p);
    }
  }

  /**
   The one operation that can lose an entry. A close first reconciles and then clears the symbol's entry, so from a
   synced state every tracked position still has its own entry afterwards if and only if that reconcile does not
   adopt the very symbol just closed.
   */
  lemma CloseStaysSyncedIff(s: Live, symbol: string, after: Option<seq<Row>>)
    requires Safe(s) && Plausible(Close(symbol, after)) && symbol in Symbols(s.positions)
    ensures Safe(After(s, Close(symbol, after)))
    ensures Synced(s) ==> (Synced(After(s, Close(symbol, after))) <==> !Readopted(after, symbol))
  {
    CloseLeaves(s, symbol);
    var left := Keep(s.positions, Symbols(s.positions) - {symbol});
    var m := Live(left, SaveAll(left), s.stops);
    MaybeReconcileKeepsSafe(m, after);
    var r := MaybeReconciled(m, after);
    if after.Some? {
      ReconciledSymbol(m, after.value, symbol);
    } else {
      forall p | p in left
        ensures p.symbol != symbol
      {
        SymbolIn(left, p);
      }
    }
    ClearKeepsSafe(r, symbol);
  }

  lemma PriceUpdateKeepsSafe(s: Live, symbol: string, tick: Tick)
    requires Safe(s) && tick.price > 0.0
    ensures Safe(After(s, PriceUpdate(symbol, tick)))
    ensures Synced(s) ==> Synced(After(s, PriceUpdate(symbol, tick)))
  {
    var n := After(s, PriceUpdate(symbol, tick));
    forall i | 0 <= i < |s.positions|
      ensures n.positions[i].symbol == s.positions[i].symbol && n.positions[i].terms == s.positions[i].terms
      ensures Guarded(n.positions[i].terms, n.positions[i].trail) && Covered(n.positions[i], s.stops)
    {
      assert s.positions[i] in s.positions;
      RatchetKeepsGuard(s.positions[i].terms, s.positions[i].trail, tick.price);
    }
    SameSymbols(s.positions, n.positions);
  }

  lemma SameSymbols(a: seq<Pos>, b: seq<Pos>)
    requires |a| == |b| && forall i :: 0 <= i < |a| ==> a[i].symbol == b[i].symbol
    ensures Symbols(a) == Symbols(b) && (DistinctSymbols(a) <==> DistinctSymbols(b))
  {
    if a != [] { SameSymbols(a[..|a| - 1], b[..|b| - 1]); }
  }

  /** A restart loads the positions and writes every entry again, so it repairs a lost one. */
  lemma RestartSyncs(s: Live, rows: Option<seq<Row>>)
    requires Safe(s) && Plausible(Restart(rows))
    ensures Safe(After(s, Restart(rows))) && Synced(After(s, Restart(rows)))
  {
    var loaded := s.(positions := LoadAll(s.disk));
    forall i | 0 <= i < |s.disk|
      ensures Covered(loaded.positions[i], s.stops) && Guarded(loaded.positions[i].terms, loaded.positions[i].trail)
    {
      assert s.positions[i] in s.positions;
    }
    SameSymbols(s.positions, loaded.positions);
    assert Safe(loaded);
    MaybeReconcileKeepsSafe(loaded, rows);
    SyncFacts(MaybeReconciled(loaded, rows).stops, MaybeReconciled(loaded, rows).positions);
  }

  lemma StepKeepsSafe(s: Live, op: Op)
    requires Safe(s) && Plausible(op)
    ensures Safe(After(s, op))
    ensures Synced(s) && !(op.Close? && Readopted(op.after, op.symbol)) ==> Synced(After(s, op))
  {
    match op {
      case Reconcile(rows) => ReconcileKeepsSafe(s, rows);
      case Open(before, pos) =>
        MaybeReconcileKeepsSafe(s, before);
        var r := MaybeReconciled(s, before);
        if pos.symbol !in Symbols(r.positions) { OpenKeepsSafe(r, pos); }
      case Close(symbol, after) =>
        if symbol in Symbols(s.positions) { CloseStaysSyncedIff(s, symbol, after); }
      case PriceUpdate(symbol, tick) => PriceUpdateKeepsSafe(s, symbol, tick);
      case SaveState => SavedMatches(s.positions, s.stops);
      case Restart(rows) => RestartSyncs(s, rows);
    }
  }

  lemma {:induction false} RunKeepsSafe(s: Live, ops: seq<Op>)
    requires Safe(s) && forall i :: 0 <= i < |ops| ==> Plausible(ops[i])
    ensures Safe(AfterAll(s, ops))
    ensures Synced(s) && (forall i :: 0 <= i < |ops| ==> !(ops[i].Close? && Readopted(ops[i].after, ops[i].symbol))) ==>
              Synced(AfterAll(s, ops))
    decreases |ops|
  {
    if ops != [] {
      RunKeepsSafe(s, ops[..|ops| - 1]);
      StepKeepsSafe(AfterAll(s, ops[..|ops| - 1]), ops[|ops| - 1]);
    }
  }

  // ---------- the watchdog's decision ----------

  /** What the watchdog decides for a position at a mark price. */
  predicate WatchdogCloses(stops: map<string, Limits>, symbol: string, terms: Terms, mark: real)
    requires terms.entry != 0.0
  {
    var limits := if symbol in stops then stops[symbol] else DEFAULT_LIMITS;
    var pnl := Profit(terms, mark);
    pnl <= -limits.stop || pnl >= limits.target
  }

  /**
   The watchdog closes exactly where the price has come to its entry's stop or target for the symbol, or to 15% and 40%
   of the entry price without such an entry.
   */
  lemma WatchdogMeans(stops: map<string, Limits>, symbol: string, t: Terms, mark: real)
    requires t.entry > 0.0
    ensures var stop := if symbol in stops then stops[symbol].stop else 0.15;
            var target := if symbol in stops then stops[symbol].target else 0.40;
            WatchdogCloses(stops, symbol, t, mark) <==>
            if t.side.Long? then mark <= t.entry - stop * t.entry || mark >= t.entry + target * t.entry
            else mark >= t.entry + stop * t.entry || mark <= t.entry - target * t.entry
  {
    var limits := if symbol in stops then stops[symbol] else DEFAULT_LIMITS;
    QuotientAgainst(Gained(t, mark), t.entry, -limits.stop);
    QuotientAgainst(Gained(t, mark), t.entry, limits.target);
  }

  lemma LossReachesStop(t: Terms, mark: real)
    requires t.Valid() && Profit(t, mark) <= -t.stopPct
    ensures AtLeastAsGood(t.side, t.HardStop(), mark)
  {
    var r := Profit(t, mark);
    MulMonotone(r, -t.stopPct, t.entry);
    assert r * t.entry == if t.side.Long? then mark - t.entry else t.entry - mark;
    assert t.entry * (1.0 - t.stopPct) == t.entry + -t.stopPct * t.entry;
    assert t.entry * (1.0 + t.stopPct) == t.entry - -t.stopPct * t.entry;
  }

  lemma GainReachesTarget(t: Terms, mark: real)
    requires t.Valid() && Profit(t, mark) >= t.targetPct
    ensures TargetTriggered(t, mark)
  {
    var r := Profit(t, mark);
    MulMonotone(t.targetPct, r, t.entry);
    assert r * t.entry == if t.side.Long? then mark - t.entry else t.entry - mark;
    assert t.entry * (1.0 + t.targetPct) == t.entry + t.targetPct * t.entry;
    assert t.entry * (1.0 - t.targetPct) == t.entry - t.targetPct * t.entry;
  }

  lemma EngineClosesToo(p: Pos, stops: map<string, Limits>, mark: real, now: real)
    requires Guarded(p.terms, p.trail) && Covered(p, stops) && mark > 0.0
    requires WatchdogCloses(stops, p.symbol, p.terms, mark)
    ensures Verdict(Observe(p, Tick(mark, now)), Tick(mark, now)) in {Some(StopHit), Some(TrailHit), Some(TargetHit)}
  {
    RatchetKeepsGuard(p.terms, p.trail, mark);
    if Profit(p.terms, mark) <= -p.terms.stopPct {
      LossReachesStop(p.terms, mark);
    } else {
      assert Profit(p.terms, mark) >= p.terms.targetPct;
      GainReachesTarget(p.terms, mark);
    }
  }

  /**
   The watchdog never pre-empts the engine: after any sequential run from an empty engine, whatever entries earlier
   processes left in the shared file and whatever entries are missing, a watchdog close of a tracked position at a
   price is also a stop, trail or target close of the engine at that price.
   */
  lemma {:induction false} WatchdogNeverPreempts(left: map<string, Limits>, ops: seq<Op>, p: Pos, mark: real,
                                                 now: real)
    requires forall i :: 0 <= i < |ops| ==> Plausible(ops[i])
    requires p in AfterAll(Live([], [], left), ops).positions && mark > 0.0
    ensures p.terms.Valid()
    ensures WatchdogCloses(AfterAll(Live([], [], left), ops).stops, p.symbol, p.terms, mark) ==>
              Verdict(Observe(p, Tick(mark, now)), Tick(mark, now)) in {Some(StopHit), Some(TrailHit), Some(TargetHit)}
  {
    RunKeepsSafe(Live([], [], left), ops);
    var s := AfterAll(Live([], [], left), ops);
    if WatchdogCloses(s.stops, p.symbol, p.terms, mark) {
      EngineClosesToo(p, s.stops, mark, now);
    }
  }

  lemma EmptyEngine()
    ensures Safe(Live([], [], map[])) && Synced(Live([], [], map[]))
  {
  }

  lemma SingleRow(r: Row)
    requires Adoptable(r)
    ensures DistinctRows([r]) && Readopted(Some([r]), r.symbol)
  {
    assert [r][..0] == [] && [r][0].symbol == r.symbol;
  }

  lemma OpenedSymbol(s: Live, pos: Pos)
    ensures pos.symbol in Symbols(After(s, Open(None, pos)).positions)
  {
    SymbolsAppend(s.positions, pos);
  }

  lemma TwoOps(s: Live, a: Op, b: Op)
    ensures AfterAll(s, [a, b]) == After(After(s, a), b)
  {
    assert [a, b][..1] == [a] && [a][..0] == [];
    assert AfterAll(s, [a]) == After(s, a);
  }

  /** The loss is real: closing a position the exchange still reports leaves the adopted one without an entry. */
  lemma ReadoptionLosesEntry() returns (ops: seq<Op>)
    ensures forall i :: 0 <= i < |ops| ==> Plausible(ops[i])
    ensures !Synced(AfterAll(Live([], [], map[]), ops))
  {
    var pos := Opened(1, "ARX", Terms(Long, 100.0, 0.05, 0.10), 50.0, 0.5, 0.0, 0.02);
    var row := Row("ARX", 0.5, 100.0, 100.0, 2, 0.0);
    var s0 := Live([], [], map[]);
    var open, close := Open(None, pos), Close("ARX", Some([row]));
    ops := [open, close];
    SingleRow(row);
    assert Plausible(open) && Plausible(close);
    hide After, AfterAll, Safe, Synced, Readopted, DistinctRows;
    EmptyEngine();
    StepKeepsSafe(s0, open);
    assert "ARX" in Symbols(After(s0, open).positions) by { OpenedSymbol(s0, pos); }
    CloseStaysSyncedIff(After(s0, open), "ARX", close.after);
    TwoOps(s0, open, close);
  }
}
