/**
 The two-phase close under the claim set, interleaved with other closers, with opens, with failing
 exchange calls, with the reconcile that drops or adopts positions and overwrites the balance, and
 with saves of the state file and restarts from it. Every lock section and every exchange reply is one
 step; a save is two, the snapshot under the lock and the write of the file after it.
 */
module CloseProtocol {
  import opened TrailingStop
  import opened Positions
  import opened Reals

  const COMMISSION_PCT := 0.0004

  /** The part of a position that never changes after it was opened or adopted. */
  datatype Contract = Contract(id: nat, symbol: string, terms: Terms, size: real, quantity: real, entryCommission: real)

  datatype Settled = Settled(pos: Contract, exitPrice: real, reason: Reason, pnl: real, exitCommission: real)

  /** Where a thread is in the close: between the lock sections, holding a claim or not. */
  datatype Phase =
    | Idle
    | Claimed(pos: Contract, price: real, reason: Reason)
    | Confirmed(pos: Contract, price: real, reason: Reason)
    | Finishing(id: nat)

  /** What a snapshot holds, and how much of the history had happened when it was taken. */
  datatype Books = Books(balance: real, totalCommissions: real, positions: seq<Contract>, opens: nat, closes: nat)

  /**
   The executor's shared state, the state file and the snapshots on their way into it. ever, settled and today are the
   history the laws speak about: everything opened or adopted, everything settled, and where today starts in it.
   */
  datatype State = State(
    live: bool, positions: seq<Contract>, closing: set<nat>, threads: seq<Phase>,
    balance: real, dailyPnl: real, totalCommissions: real, disk: Books, pending: map<nat, Books>,
    ever: seq<Contract>, settled: seq<Settled>, today: nat)

  datatype Action =
    | Begin(t: nat, pos: Contract, price: real, reason: Reason)
    | Fill(t: nat, reported: real)
    | Abort(t: nat)
    | Settle(t: nat)
    | Release(t: nat)
    | Open(pos: Contract)
    | Reconcile(symbols: set<string>, adopted: seq<Contract>)
    | Overwrite(balance: real)
    | ResetDay(funding: real)
    | Snapshot(w: nat)
    | Write(w: nat)
    | Restart

  function ExitCommission(p: Contract, price: real): real { price * p.quantity * COMMISSION_PCT }

  function ClosePnl(p: Contract, price: real): real
    requires p.terms.entry != 0.0
  {
    p.size * Profit(p.terms, price) - p.entryCommission - ExitCommission(p, price)
  }

  /**
   What a settlement record says, in plain arithmetic: the exit fee is 0.04% of the exit notional, and the result is the
   size times the relative price difference in the position's favour, less both fees.
   */
  ghost predicate RecordMeans(x: Settled) {
    var p, entry := x.pos, x.pos.terms.entry;
    && 10000.0 * x.exitCommission == 4.0 * (x.exitPrice * p.quantity)
    && x.pnl * entry == p.size * (if p.terms.side.Long? then x.exitPrice - entry else entry - x.exitPrice)
                        - (p.entryCommission + x.exitCommission) * entry
  }

  lemma SettlementMeans(p: Contract, price: real, reason: Reason)
    requires p.terms.entry != 0.0
    ensures RecordMeans(Settled(p, price, reason, ClosePnl(p, price), ExitCommission(p, price)))
  {
    var r, entry := Profit(p.terms, price), p.terms.entry;
    var diff := if p.terms.side.Long? then price - entry else entry - price;
    assert r * entry == diff;
    assert p.size * r * entry == p.size * (r * entry);
    var fees := p.entryCommission + ExitCommission(p, price);
    assert ClosePnl(p, price) == p.size * r - fees;
    assert (p.size * r - fees) * entry == p.size * r * entry - fees * entry;
  }

  /** Where the size is the entry notional, as on paper, the result is the difference of notionals less both fees. */
  lemma NotionalResult(x: Settled)
    requires RecordMeans(x) && x.pos.terms.entry != 0.0 && x.pos.size == x.pos.terms.entry * x.pos.quantity
    ensures x.pnl == (if x.pos.terms.side.Long? then x.exitPrice * x.pos.quantity - x.pos.size
                      else x.pos.size - x.exitPrice * x.pos.quantity) - x.pos.entryCommission - x.exitCommission
  {
    var entry, q := x.pos.terms.entry, x.pos.quantity;
    var diff := if x.pos.terms.side.Long? then x.exitPrice - entry else entry - x.exitPrice;
    assert x.pos.size * diff == diff * q * entry;
    assert (x.pnl - diff * q + x.pos.entryCommission + x.exitCommission) * entry == 0.0;
    ZeroFactor(entry, x.pnl - diff * q + x.pos.entryCommission + x.exitCommission);
  }

  /** The ids of the tracked positions. */
  function Ids(ps: seq<Contract>): set<nat> {
    if ps == [] then {} else Ids(ps[..|ps| - 1]) + {ps[|ps| - 1].id}
  }

  function SettledIds(ss: seq<Settled>): set<nat> {
    if ss == [] then {} else SettledIds(ss[..|ss| - 1]) + {ss[|ss| - 1].pos.id}
  }

  function Without(ps: seq<Contract>, id: nat): seq<Contract> {
    if ps == [] then []
    else if ps[|ps| - 1].id == id then Without(ps[..|ps| - 1], id)
    else Without(ps[..|ps| - 1], id) + [ps[|ps| - 1]]
  }

  function OnExchange(ps: seq<Contract>, symbols: set<string>): seq<Contract> {
    if ps == [] then []
    else if ps[|ps| - 1].symbol in symbols then OnExchange(ps[..|ps| - 1], symbols) + [ps[|ps| - 1]]
    else OnExchange(ps[..|ps| - 1], symbols)
  }

  function Sizes(ps: seq<Contract>): real {
    if ps == [] then 0.0 else Sizes(ps[..|ps| - 1]) + ps[|ps| - 1].size
  }

  function EntryFees(ps: seq<Contract>): real {
    if ps == [] then 0.0 else EntryFees(ps[..|ps| - 1]) + ps[|ps| - 1].entryCommission
  }

  function ExitFees(ss: seq<Settled>): real {
    if ss == [] then 0.0 else ExitFees(ss[..|ss| - 1]) + ss[|ss| - 1].exitCommission
  }

  function Pnl(ss: seq<Settled>): real {
    if ss == [] then 0.0 else Pnl(ss[..|ss| - 1]) + ss[|ss| - 1].pnl
  }

  function SettledSizes(ss: seq<Settled>): real {
    if ss == [] then 0.0 else SettledSizes(ss[..|ss| - 1]) + ss[|ss| - 1].pos.size
  }

  /** What was opened or adopted and not settled since. */
  function Unsettled(ever: seq<Contract>, ss: seq<Settled>): seq<Contract> {
    if ss == [] then ever else Without(Unsettled(ever, ss[..|ss| - 1]), ss[|ss| - 1].pos.id)
  }

  function Take<T>(s: seq<T>, n: nat): seq<T> { if n <= |s| then s[..n] else s }

  // ---------- the steps ----------

  /** New records carry ids never used before; an adopted one has no entry commission. */
  ghost predicate NewContracts(s: State, ps: seq<Contract>) {
    && (forall i :: 0 <= i < |ps| ==> ps[i].terms.entry > 0.0 && ps[i].id !in Ids(s.ever))
    && (forall i, j :: 0 <= i < j < |ps| ==> ps[i].id != ps[j].id)
  }

  /** When a step can happen: a thread is at that point, and only a live executor talks to the exchange. */
  ghost predicate Enabled(s: State, a: Action) {
    match a
    case Begin(t, pos, _, _) => t < |s.threads| && s.threads[t].Idle? && pos in s.ever
    case Fill(t, reported) => t < |s.threads| && s.threads[t].Claimed? && (!s.live ==> reported == 0.0)
    case Abort(t) => s.live && t < |s.threads| && s.threads[t].Claimed?
    case Settle(t) => t < |s.threads| && s.threads[t].Confirmed? && s.threads[t].pos.terms.entry != 0.0
    case Release(t) => t < |s.threads| && s.threads[t].Finishing?
    case Open(pos) => NewContracts(s, [pos])
    case Reconcile(_, adopted) =>
      s.live && NewContracts(s, adopted) && forall i :: 0 <= i < |adopted| ==> adopted[i].entryCommission == 0.0
    case Overwrite(_) => s.live
    case ResetDay(funding) => !s.live ==> funding == 0.0
    case Snapshot(w) => w !in s.pending
    case Write(w) => w in s.pending
    case Restart => true
  }

  /** The books after an open. */
  function RecordedState(s: State, pos: Contract): State {
    s.(balance := s.balance - (pos.size + pos.entryCommission),
       totalCommissions := s.totalCommissions + pos.entryCommission,
       positions := s.positions + [pos], ever := s.ever + [pos])
  }

  /** The books after a settlement. */
  function SettledState(s: State, pos: Contract, price: real, reason: Reason): State
    requires pos.terms.entry != 0.0
  {
    var pnl, fee := ClosePnl(pos, price), ExitCommission(pos, price);
    s.(totalCommissions := s.totalCommissions + fee,
       balance := s.balance + pos.size + pnl,
       dailyPnl := s.dailyPnl + pnl,
       settled := s.settled + [Settled(pos, price, reason, pnl, fee)],
       positions := Without(s.positions, pos.id))
  }

  function BooksOf(s: State): Books { Books(s.balance, s.totalCommissions, s.positions, |s.ever|, |s.settled|) }

  /** A new process on a file: no claim, no thread inside a close, and no history the file does not know. */
  function RestartedFrom(s: State, b: Books): State {
    s.(positions := b.positions, balance := b.balance, totalCommissions := b.totalCommissions,
       disk := b, pending := map[], closing := {}, threads := seq(|s.threads|, _ => Idle), dailyPnl := 0.0,
       ever := Take(s.ever, b.opens), settled := Take(s.settled, b.closes), today := |Take(s.settled, b.closes)|)
  }

  function Restarted(s: State): State { RestartedFrom(s, s.disk) }

  function Next(s: State, a: Action): State
    requires Enabled(s, a)
  {
    match a
    case Begin(t, pos, price, reason) =>
      if pos.id in s.closing || pos.id !in Ids(s.positions) then s
      else s.(closing := s.closing + {pos.id}, threads := s.threads[t := Claimed(pos, price, reason)])
    case Fill(t, reported) =>
      var Claimed(pos, price, reason) := s.threads[t];
      s.(threads := s.threads[t := Confirmed(pos, if reported > 0.0 then reported else price, reason)])
    case Abort(t) => s.(threads := s.threads[t := Finishing(s.threads[t].pos.id)])
    case Settle(t) =>
      var Confirmed(pos, price, reason) := s.threads[t];
      SettledState(s, pos, price, reason).(threads := s.threads[t := Finishing(pos.id)])
    case Release(t) => s.(closing := s.closing - {s.threads[t].id}, threads := s.threads[t := Idle])
    case Open(pos) => RecordedState(s, pos)
    case Reconcile(symbols, adopted) =>
      s.(positions := OnExchange(s.positions, symbols) + adopted, ever := s.ever + adopted)
    case Overwrite(balance) => s.(balance := balance)
    case ResetDay(funding) => s.(dailyPnl := 0.0, today := |s.settled|, balance := s.balance + funding)
    case Snapshot(w) => s.(pending := s.pending[w := BooksOf(s)])
    case Write(w) => s.(disk := s.pending[w], pending := s.pending - {w})
    case Restart => Restarted(s)
  }

  /** A run is a sequence of steps, each enabled where it happens. */
  ghost predicate Enables(s: State, run: seq<Action>)
    decreases |run|, 0
  {
    run == [] || (Enables(s, run[..|run| - 1]) && Enabled(After(s, run[..|run| - 1]), run[|run| - 1]))
  }

  ghost function After(s: State, run: seq<Action>): State
    requires Enables(s, run)
    decreases |run|, 1
  {
    if run == [] then s else Next(After(s, run[..|run| - 1]), run[|run| - 1])
  }

  ghost predicate Initial(s: State) {
    && s.positions == [] && s.closing == {} && s.ever == [] && s.settled == []
    && s.today == 0 && s.dailyPnl == 0.0 && s.totalCommissions == 0.0 && s.disk == BooksOf(s)
    && s.pending == map[]
    && forall t :: 0 <= t < |s.threads| ==> s.threads[t] == Idle
  }

  // ---------- what comes from outside ----------

  /** A quantity as it is now, as of the file, and as of each snapshot not written yet. */
  datatype Kept<T> = Kept(now: T, disk: T, pending: map<nat, T>)

  /** What saving and restarting do to such a quantity. */
  function Filed<T>(k: Kept<T>, a: Action): Kept<T> {
    match a
    case Snapshot(w) => k.(pending := k.pending[w := k.now])
    case Write(w) => if w in k.pending then Kept(k.now, k.pending[w], k.pending - {w}) else k
    case Restart => Kept(k.disk, k.disk, map[])
    case _ => k
  }

  /** Money the books gained from outside: adopted positions, balance overwrites and funding. */
  ghost function Outside(s: State, run: seq<Action>): Kept<real>
    requires Enables(s, run)
  {
    if run == [] then Kept(0.0, 0.0, map[])
    else
      var before, io, a := After(s, run[..|run| - 1]), Outside(s, run[..|run| - 1]), run[|run| - 1];
      Filed(io.(now := io.now + Gain(before, a)), a)
  }

  /** What one step brings into the books from outside. */
  ghost function Gain(s: State, a: Action): real {
    match a
    case Reconcile(_, adopted) => Sizes(adopted)
    case Overwrite(balance) => balance - s.balance
    case ResetDay(funding) => funding
    case _ => 0.0
  }

  /** The ids one step drops: those of the positions whose symbol the exchange no longer reports. */
  ghost function DroppedBy(s: State, a: Action): set<nat> {
    match a
    case Reconcile(symbols, _) => set p | p in s.positions && p.symbol !in symbols :: p.id
    case _ => {}
  }

  /** The ids the reconciler has ever dropped. */
  ghost function Dropped(s: State, run: seq<Action>): set<nat>
    requires Enables(s, run)
  {
    if run == [] then {}
    else Dropped(s, run[..|run| - 1]) + DroppedBy(After(s, run[..|run| - 1]), run[|run| - 1])
  }

  /** A step by which something outside the executor reaches into its books. */
  predicate Disturbs(a: Action) { a.Reconcile? || a.Overwrite? || (a.ResetDay? && a.funding != 0.0) }

  ghost predicate Undisturbed(run: seq<Action>) { forall i :: 0 <= i < |run| ==> !Disturbs(run[i]) }

  // ---------- the invariant ----------

  predicate Holds(p: Phase, id: nat) {
    match p
    case Idle => false
    case Claimed(pos, _, _) => pos.id == id
    case Confirmed(pos, _, _) => pos.id == id
    case Finishing(held) => held == id
  }

  predicate InFlight(p: Phase) { p.Claimed? || p.Confirmed? }

  ghost predicate DistinctIds(ps: seq<Contract>) {
    ps == [] || (DistinctIds(ps[..|ps| - 1]) && ps[|ps| - 1].id !in Ids(ps[..|ps| - 1]))
  }

  ghost predicate SettledOnce(ss: seq<Settled>) {
    ss == [] || (SettledOnce(ss[..|ss| - 1]) && ss[|ss| - 1].pos.id !in SettledIds(ss[..|ss| - 1]))
  }

  /** The claim set is exactly the ids threads hold, each by one thread. */
  ghost predicate ClaimsExact(s: State) {
    && (forall t, id | 0 <= t < |s.threads| && Holds(s.threads[t], id) :: id in s.closing)
    && (forall id | id in s.closing :: exists t :: 0 <= t < |s.threads| && Holds(s.threads[t], id))
    && (forall t, u, id | 0 <= t < u < |s.threads| && Holds(s.threads[t], id) :: !Holds(s.threads[u], id))
  }

  /** Nothing being closed, and nothing still tracked, has been settled before. */
  ghost predicate NothingSettledTwice(s: State) {
    && SettledOnce(s.settled)
    && Ids(s.positions) !! SettledIds(s.settled)
    && (forall t | 0 <= t < |s.threads| && InFlight(s.threads[t]) ::
          s.threads[t].pos in s.ever && s.threads[t].pos.id !in SettledIds(s.settled))
  }

  ghost predicate Registered(s: State) {
    && DistinctIds(s.ever) && DistinctIds(s.positions)
    && (forall p | p in s.positions :: p in s.ever)
    && (forall i | 0 <= i < |s.settled| :: s.settled[i].pos in s.ever)
    && Ids(s.positions) <= Ids(s.ever) && SettledIds(s.settled) <= Ids(s.ever)
    && (forall p | p in s.ever :: p.terms.entry > 0.0)
  }

  ghost predicate Sound(s: State) { Registered(s) && ClaimsExact(s) && NothingSettledTwice(s) }

  /** The snapshot is not ahead of the history. */
  predicate Behind(s: State, b: Books) { b.opens <= |s.ever| && b.closes <= |s.settled| }

  ghost predicate FilesBehind(s: State) {
    Behind(s, s.disk) && forall w | w in s.pending :: Behind(s, s.pending[w])
  }

  /** The state is sound, and so is what a restart would make of it, whichever pending snapshots land before. */
  ghost predicate Safe(s: State) {
    && FilesBehind(s) && Sound(s) && Sound(Restarted(s))
    && forall w | w in s.pending :: Sound(RestartedFrom(s, s.pending[w]))
  }

  /** The books: cash, everything ever opened and its fees against everything realized. */
  ghost predicate Ledger(s: State, base: real) {
    && s.balance + Sizes(s.ever) + EntryFees(s.ever) == base + SettledSizes(s.settled) + Pnl(s.settled)
    && s.totalCommissions == EntryFees(s.ever) + ExitFees(s.settled)
    && s.today <= |s.settled| && s.dailyPnl == Pnl(s.settled[s.today..])
  }

  /** The books balance, and so do those of the file and of every pending snapshot. */
  ghost predicate Balanced(s: State, base: real, io: Kept<real>) {
    && Ledger(s, base + io.now) && Ledger(Restarted(s), base + io.disk) && io.pending.Keys == s.pending.Keys
    && forall w | w in s.pending :: Ledger(RestartedFrom(s, s.pending[w]), base + io.pending[w])
  }

  /** Whatever is neither tracked nor settled has been dropped. */
  ghost predicate TrackedOr(s: State, dropped: set<nat>) {
    Ids(s.ever) <= Ids(s.positions) + SettledIds(s.settled) + dropped
  }

  /** So it is after a restart, whichever pending snapshots land before. */
  ghost predicate FilesTrackedOr(s: State, dropped: set<nat>) {
    TrackedOr(Restarted(s), dropped) && forall w | w in s.pending :: TrackedOr(RestartedFrom(s, s.pending[w]), dropped)
  }

  /** Tracked is exactly what is not settled. */
  ghost predicate Tracked(s: State) { s.positions == Unsettled(s.ever, s.settled) }

  ghost predicate FilesTracked(s: State) {
    Tracked(Restarted(s)) && forall w | w in s.pending :: Tracked(RestartedFrom(s, s.pending[w]))
  }

  // ---------- facts about the collections ----------

  lemma Member(ps: seq<Contract>, p: Contract)
    requires p in ps
    ensures p.id in Ids(ps)
  {
    if ps[|ps| - 1] != p {
      assert ps == ps[..|ps| - 1] + [ps[|ps| - 1]];
      Member(ps[..|ps| - 1], p);
    }
  }

  lemma SameIdSameContract(ps: seq<Contract>, p: Contract, q: Contract)
    requires DistinctIds(ps) && p in ps && q in ps && p.id == q.id
    ensures p == q
  {
    var init, last := ps[..|ps| - 1], ps[|ps| - 1];
    assert ps == init + [last];
    if p in init { Member(init, p); }
    if q in init { Member(init, q); }
    if p in init && q in init { SameIdSameContract(init, p, q); }
  }

  lemma WithoutIds(ps: seq<Contract>, id: nat)
    requires DistinctIds(ps)
    ensures Ids(Without(ps, id)) == Ids(ps) - {id} && DistinctIds(Without(ps, id))
  {
    if ps != [] && ps[|ps| - 1].id != id {
      var w := Without(ps[..|ps| - 1], id);
      assert (w + [ps[|ps| - 1]])[..|w|] == w;
    }
  }

  lemma WithoutMembers(ps: seq<Contract>, id: nat)
    ensures forall p :: p in Without(ps, id) ==> p in ps
    ensures id !in Ids(ps) ==> Without(ps, id) == ps
  {
    if ps != [] { assert ps == ps[..|ps| - 1] + [ps[|ps| - 1]]; }
  }

  lemma WithoutSizes(ps: seq<Contract>, p: Contract)
    requires DistinctIds(ps) && p in ps
    ensures Sizes(ps) == Sizes(Without(ps, p.id)) + p.size
  {
    var init, last := ps[..|ps| - 1], ps[|ps| - 1];
    assert ps == init + [last];
    if last.id == p.id {
      Member(init + [last], p);
      SameIdSameContract(ps, p, last);
      WithoutMembers(init, p.id);
    } else {
      WithoutSizes(init, p);
      SizesAppend(Without(init, p.id), last);
    }
  }

  lemma SizesAppend(ps: seq<Contract>, p: Contract)
    ensures Sizes(ps + [p]) == Sizes(ps) + p.size
    ensures EntryFees(ps + [p]) == EntryFees(ps) + p.entryCommission
  {
    assert (ps + [p])[..|ps|] == ps;
  }

  lemma FeesConcat(a: seq<Contract>, b: seq<Contract>)
    requires forall i :: 0 <= i < |b| ==> b[i].entryCommission == 0.0
    ensures EntryFees(a + b) == EntryFees(a) && Sizes(a + b) == Sizes(a) + Sizes(b)
    decreases |b|
  {
    if b == [] {
      assert a + b == a;
    } else {
      FeesConcat(a, b[..|b| - 1]);
      assert (a + b)[..|a + b| - 1] == a + b[..|b| - 1];
    }
  }

  lemma SettledAppend(ss: seq<Settled>, x: Settled)
    ensures Pnl(ss + [x]) == Pnl(ss) + x.pnl && ExitFees(ss + [x]) == ExitFees(ss) + x.exitCommission
    ensures SettledSizes(ss + [x]) == SettledSizes(ss) + x.pos.size
  {
    assert (ss + [x])[..|ss|] == ss;
  }

  lemma OnExchangeKeeps(ps: seq<Contract>, symbols: set<string>)
    requires DistinctIds(ps)
    ensures forall p :: p in OnExchange(ps, symbols) ==> p in ps
    ensures Ids(OnExchange(ps, symbols)) <= Ids(ps) && DistinctIds(OnExchange(ps, symbols))
  {
    OnExchangeMeans(ps, symbols);
    OnExchangeIds(ps, symbols);
  }

  lemma {:induction false} OnExchangeIds(ps: seq<Contract>, symbols: set<string>)
    requires DistinctIds(ps)
    ensures Ids(OnExchange(ps, symbols)) <= Ids(ps) && DistinctIds(OnExchange(ps, symbols))
  {
    if ps != [] {
      var init, last := ps[..|ps| - 1], ps[|ps| - 1];
      OnExchangeIds(init, symbols);
      var k := OnExchange(init, symbols);
      assert (k + [last])[..|k|] == k;
    }
  }

  /** What stays is exactly what the exchange still reports. */
  lemma OnExchangeMeans(ps: seq<Contract>, symbols: set<string>)
    ensures forall p :: p in OnExchange(ps, symbols) <==> p in ps && p.symbol in symbols
    ensures Ids(ps) <= Ids(OnExchange(ps, symbols)) + set p | p in ps && p.symbol !in symbols :: p.id
  {
    if ps != [] {
      var init, last := ps[..|ps| - 1], ps[|ps| - 1];
      assert ps == init + [last];
      OnExchangeMeans(init, symbols);
      var k := OnExchange(init, symbols);
      assert (k + [last])[..|k|] == k;
      assert last in ps;
    }
  }

  lemma IdsConcat(a: seq<Contract>, b: seq<Contract>)
    ensures Ids(a + b) == Ids(a) + Ids(b)
    decreases |b|
  {
    if b == [] {
      assert a + b == a;
    } else {
      IdsConcat(a, b[..|b| - 1]);
      assert (a + b)[..|a + b| - 1] == a + b[..|b| - 1];
    }
  }

  lemma DistinctConcat(a: seq<Contract>, b: seq<Contract>)
    requires DistinctIds(a) && Ids(a) !! Ids(b) && DistinctIds(b)
    ensures DistinctIds(a + b)
    decreases |b|
  {
    if b == [] {
      assert a + b == a;
    } else {
      DistinctConcat(a, b[..|b| - 1]);
      IdsConcat(a, b[..|b| - 1]);
      assert (a + b)[..|a + b| - 1] == a + b[..|b| - 1];
    }
  }

  /** New contracts, listed with pairwise different unused ids. */
  lemma NewIds(ever: seq<Contract>, ps: seq<Contract>)
    requires forall i :: 0 <= i < |ps| ==> ps[i].id !in Ids(ever)
    requires forall i, j :: 0 <= i < j < |ps| ==> ps[i].id != ps[j].id
    ensures DistinctIds(ps) && Ids(ever) !! Ids(ps)
    ensures forall id :: id in Ids(ps) ==> exists i :: 0 <= i < |ps| && ps[i].id == id
  {
    if ps != [] {
      var init := ps[..|ps| - 1];
      NewIds(ever, init);
      forall id | id in Ids(ps)
        ensures exists i :: 0 <= i < |ps| && ps[i].id == id
      {
        if id in Ids(init) {
          var i :| 0 <= i < |init| && init[i].id == id;
          assert ps[i].id == id;
        } else {
          assert ps[|ps| - 1].id == id;
        }
      }
    }
  }

  lemma SettledSnoc(ss: seq<Settled>, x: Settled)
    ensures SettledIds(ss + [x]) == SettledIds(ss) + {x.pos.id}
    ensures SettledOnce(ss + [x]) <==> SettledOnce(ss) && x.pos.id !in SettledIds(ss)
  {
    assert (ss + [x])[..|ss|] == ss;
  }

  /** Different places of the settlement history hold different ids. */
  lemma SettledOnceMeans(ss: seq<Settled>, i: nat, j: nat)
    requires SettledOnce(ss) && i < j < |ss|
    ensures ss[i].pos.id != ss[j].pos.id
  {
    if j < |ss| - 1 {
      SettledOnceMeans(ss[..|ss| - 1], i, j);
    } else {
      SettledMember(ss[..j], i);
    }
  }

  lemma SettledMember(ss: seq<Settled>, i: nat)
    requires i < |ss|
    ensures ss[i].pos.id in SettledIds(ss)
  {
    if i < |ss| - 1 { SettledMember(ss[..|ss| - 1], i); }
  }

  // ---------- every step keeps the invariant ----------

  lemma TrackedIsUnsettled(s: State, pos: Contract)
    requires Sound(s) && pos.id in Ids(s.positions)
    ensures pos.id !in SettledIds(s.settled)
  {
  }

  /** Tracked positions, history and registered ids do not depend on claims and threads. */
  lemma SameRegister(s: State, n: State)
    requires Registered(s) && n.positions == s.positions && n.ever == s.ever && n.settled == s.settled
    ensures Registered(n)
  {
  }

  lemma ClaimKeepsSound(s: State, a: Action)
    requires Sound(s) && Enabled(s, a) && a.Begin?
    ensures Sound(Next(s, a))
  {
    hide Ids, SettledIds, DistinctIds, SettledOnce, Registered;
    var Begin(t, pos, price, reason) := a;
    var n := Next(s, a);
    SameRegister(s, n);
    if n != s {
      TrackedIsUnsettled(s, pos);
      assert Holds(n.threads[t], pos.id);
      forall id | id in n.closing
        ensures exists u :: 0 <= u < |n.threads| && Holds(n.threads[u], id)
      {
        if id != pos.id {
          var u :| 0 <= u < |s.threads| && Holds(s.threads[u], id);
          assert n.threads[u] == s.threads[u];
        }
      }
    }
  }

  /** A step that only moves a claim along keeps who holds what. */
  lemma MovedClaimKeepsClaims(s: State, n: State, t: nat)
    requires ClaimsExact(s) && t < |s.threads| && n.closing == s.closing
    requires |n.threads| == |s.threads| && n.threads == s.threads[t := n.threads[t]]
    requires forall id :: Holds(n.threads[t], id) <==> Holds(s.threads[t], id)
    ensures ClaimsExact(n)
  {
    assert forall u, id :: 0 <= u < |s.threads| ==> (Holds(n.threads[u], id) <==> Holds(s.threads[u], id));
  }

  lemma ReplyKeepsSound(s: State, a: Action)
    requires Sound(s) && Enabled(s, a) && (a.Fill? || a.Abort?)
    ensures Sound(Next(s, a))
  {
    MovedClaimKeepsClaims(s, Next(s, a), a.t);
  }

  lemma ReleaseKeepsSound(s: State, a: Action)
    requires Sound(s) && Enabled(s, a) && a.Release?
    ensures Sound(Next(s, a))
  {
    hide Ids, SettledIds, DistinctIds, SettledOnce, Registered;
    var n, held := Next(s, a), s.threads[a.t].id;
    SameRegister(s, n);
    assert Holds(s.threads[a.t], held);
    forall id | id in n.closing
      ensures exists u :: 0 <= u < |n.threads| && Holds(n.threads[u], id)
    {
      var u :| 0 <= u < |s.threads| && Holds(s.threads[u], id);
      assert n.threads[u] == s.threads[u];
    }
  }

  /** What a settlement does to everything but the amounts. */
  ghost predicate SettlesClaim(s: State, n: State, t: nat, x: Settled) {
    && t < |s.threads| && s.threads[t].Confirmed? && x.pos == s.threads[t].pos
    && n.live == s.live && n.closing == s.closing && n.ever == s.ever && n.today == s.today
    && n.disk == s.disk && n.pending == s.pending
    && n.positions == Without(s.positions, x.pos.id) && n.settled == s.settled + [x]
    && n.threads == s.threads[t := Finishing(x.pos.id)]
  }

  /** What a settlement does to the amounts. */
  ghost predicate SettlesAmounts(s: State, n: State, x: Settled) {
    && n.totalCommissions == s.totalCommissions + x.exitCommission
    && n.balance == s.balance + x.pos.size + x.pnl && n.dailyPnl == s.dailyPnl + x.pnl
  }

  lemma SettleStep(s: State, a: Action) returns (x: Settled)
    requires Enabled(s, a) && a.Settle?
    ensures SettlesClaim(s, Next(s, a), a.t, x) && SettlesAmounts(s, Next(s, a), x)
  {
    var Confirmed(pos, price, reason) := s.threads[a.t];
    x := Settled(pos, price, reason, ClosePnl(pos, price), ExitCommission(pos, price));
  }

  lemma OthersHoldOthers(s: State, t: nat, u: nat)
    requires ClaimsExact(s) && t < |s.threads| && u < |s.threads| && t != u
    requires InFlight(s.threads[t]) && InFlight(s.threads[u])
    ensures s.threads[u].pos.id != s.threads[t].pos.id
  {
    assert Holds(s.threads[t], s.threads[t].pos.id) && Holds(s.threads[u], s.threads[u].pos.id);
  }

  lemma SettlingKeepsRegistered(s: State, n: State, t: nat, x: Settled)
    requires Sound(s) && SettlesClaim(s, n, t, x)
    ensures Registered(n) && Ids(n.positions) == Ids(s.positions) - {x.pos.id}
  {
    hide Ids, SettledIds, Without, DistinctIds, SettledOnce, ClaimsExact;
    WithoutIds(s.positions, x.pos.id);
    WithoutMembers(s.positions, x.pos.id);
    SettledSnoc(s.settled, x);
    Member(s.ever, x.pos);
  }

  lemma SettlingKeepsSound(s: State, n: State, t: nat, x: Settled)
    requires Sound(s) && SettlesClaim(s, n, t, x)
    ensures Sound(n)
  {
    SettlingKeepsRegistered(s, n, t, x);
    SettledSnoc(s.settled, x);
    MovedClaimKeepsClaims(s, n, t);
    SettlingKeepsOthers(s, n, t, x);
    hide Ids, SettledIds, Without, DistinctIds, SettledOnce, ClaimsExact, Registered;
  }

  lemma SettlingKeepsOthers(s: State, n: State, t: nat, x: Settled)
    requires ClaimsExact(s) && SettlesClaim(s, n, t, x)
    ensures forall u | 0 <= u < |n.threads| && InFlight(n.threads[u]) ::
              n.threads[u] == s.threads[u] && n.threads[u].pos.id != x.pos.id
  {
    forall u | 0 <= u < |n.threads| && InFlight(n.threads[u])
      ensures n.threads[u] == s.threads[u] && n.threads[u].pos.id != x.pos.id
    {
      OthersHoldOthers(s, t, u);
    }
  }

  /** Adding new contracts to the record and to the tracked positions. */
  lemma AddingKeepsSound(s: State, n: State, kept: seq<Contract>, added: seq<Contract>)
    requires Sound(s) && NewContracts(s, added)
    requires DistinctIds(kept) && Ids(kept) <= Ids(s.positions) && forall p :: p in kept ==> p in s.positions
    requires n.closing == s.closing && n.threads == s.threads && n.settled == s.settled
    requires n.positions == kept + added && n.ever == s.ever + added
    ensures Sound(n)
  {
    NewIds(s.ever, added);
    IdsConcat(kept, added);
    IdsConcat(s.ever, added);
    DistinctConcat(kept, added);
    DistinctConcat(s.ever, added);
  }

  /** With every thread idle and no claim, a sound state stays sound. */
  lemma IdleKeepsSound(s: State, n: State)
    requires Sound(s) && n.positions == s.positions && n.ever == s.ever && n.settled == s.settled
    requires n.closing == {} && forall t :: 0 <= t < |n.threads| ==> n.threads[t] == Idle
    ensures Sound(n)
  {
  }

  lemma NextKeepsSound(s: State, a: Action)
    requires Safe(s) && Enabled(s, a)
    ensures Sound(Next(s, a))
  {
    match a {
      case Begin(_, _, _, _) => ClaimKeepsSound(s, a);
      case Fill(_, _) => ReplyKeepsSound(s, a);
      case Abort(_) => ReplyKeepsSound(s, a);
      case Settle(t) =>
        var x := SettleStep(s, a);
        SettlingKeepsSound(s, Next(s, a), t, x);
      case Release(_) => ReleaseKeepsSound(s, a);
      case Open(pos) => AddingKeepsSound(s, Next(s, a), s.positions, [pos]);
      case Reconcile(symbols, adopted) =>
        OnExchangeKeeps(s.positions, symbols);
        AddingKeepsSound(s, Next(s, a), OnExchange(s.positions, symbols), adopted);
      case Overwrite(_) =>
      case ResetDay(_) =>
      case Snapshot(_) =>
      case Write(_) =>
      case Restart =>
    }
  }

  /** The state as a restart would find it, had it been saved. */
  function Rested(s: State): State {
    s.(disk := BooksOf(s), pending := map[], closing := {}, threads := seq(|s.threads|, _ => Idle), dailyPnl := 0.0,
       today := |s.settled|)
  }

  lemma RestartFromNow(s: State)
    ensures RestartedFrom(s, BooksOf(s)) == Rested(s)
  {
    assert s.ever[..|s.ever|] == s.ever && s.settled[..|s.settled|] == s.settled;
  }

  /** No step changes where a restart from a given snapshot leads, whatever happened since it was taken. */
  lemma SnapshotsStay(s: State, a: Action, b: Books)
    requires Behind(s, b) && Enabled(s, a) && (a.Restart? ==> b == s.disk)
    ensures Behind(Next(s, a), b) && RestartedFrom(Next(s, a), b) == RestartedFrom(s, b)
  {
    var n := Next(s, a);
    if !a.Restart? {
      assert n.ever[..b.opens] == s.ever[..b.opens];
      assert n.settled[..b.closes] == s.settled[..b.closes];
    }
  }

  /**
   Only a write changes where a restart leads: back to the books of the snapshot written last, which is where its
   snapshot was taken, whatever happened since.
   */
  lemma WhereARestartLeads(s: State, a: Action)
    requires FilesBehind(s) && Enabled(s, a)
    ensures FilesBehind(Next(s, a))
    ensures Restarted(Next(s, a)) == if a.Write? then RestartedFrom(s, s.pending[a.w]) else Restarted(s)
    ensures forall w | w in Next(s, a).pending ::
              if a == Snapshot(w) then RestartedFrom(Next(s, a), Next(s, a).pending[w]) == Rested(s)
              else w in s.pending && RestartedFrom(Next(s, a), Next(s, a).pending[w]) == RestartedFrom(s, s.pending[w])
  {
    var n := Next(s, a);
    SnapshotsStay(s, a, if a.Write? then s.pending[a.w] else s.disk);
    RestartFromNow(s);
    forall w | w in n.pending
      ensures Behind(n, n.pending[w])
      ensures if a == Snapshot(w) then RestartedFrom(n, n.pending[w]) == Rested(s)
              else w in s.pending && RestartedFrom(n, n.pending[w]) == RestartedFrom(s, s.pending[w])
    {
      SnapshotsStay(s, a, n.pending[w]);
    }
    hide RestartedFrom, Rested, Behind;
  }

  lemma RestartIsRestarted(s: State)
    ensures Enabled(s, Restart) && Next(s, Restart) == Restarted(s)
  {
  }

  lemma Written(s: State, a: Action)
    requires Enabled(s, a) && a.Write?
    ensures a.w in s.pending
  {
  }

  lemma RestedIsSound(s: State)
    requires Sound(s)
    ensures Sound(Rested(s))
  {
  }

  lemma StepKeepsSafe(s: State, a: Action)
    requires Safe(s) && Enabled(s, a)
    ensures Safe(Next(s, a))
  {
    hide Restarted, RestartedFrom, Rested, Sound, FilesBehind, Next, Enabled;
    NextKeepsSound(s, a);
    WhereARestartLeads(s, a);
    RestedIsSound(s);
    if a.Write? { Written(s, a); }
  }

  // ---------- every step keeps the books ----------

  lemma SettlingKeepsToday(s: State, n: State, t: nat, x: Settled)
    requires s.today <= |s.settled| && s.dailyPnl == Pnl(s.settled[s.today..])
    requires SettlesClaim(s, n, t, x) && SettlesAmounts(s, n, x)
    ensures n.today <= |n.settled| && n.dailyPnl == Pnl(n.settled[n.today..])
  {
    hide Pnl, ExitFees, SettledSizes, Without;
    SettledAppend(s.settled[s.today..], x);
    TailAppend(s.settled, x, s.today);
  }

  lemma SettlingKeepsLedger(s: State, n: State, t: nat, x: Settled, base: real)
    requires Ledger(s, base) && SettlesClaim(s, n, t, x) && SettlesAmounts(s, n, x)
    ensures Ledger(n, base)
  {
    hide Pnl, ExitFees, SettledSizes, Sizes, EntryFees, Without;
    SettlingKeepsToday(s, n, t, x);
    SettledAppend(s.settled, x);
  }

  lemma TailAppend(ss: seq<Settled>, x: Settled, k: nat)
    requires k <= |ss|
    ensures (ss + [x])[k..] == ss[k..] + [x]
  {
  }

  lemma OpenKeepsLedger(s: State, pos: Contract, base: real)
    requires Ledger(s, base) && Enabled(s, Open(pos))
    ensures Ledger(Next(s, Open(pos)), base)
  {
    SizesAppend(s.ever, pos);
  }

  lemma NextKeepsLedger(s: State, a: Action, base: real)
    requires Ledger(s, base) && Enabled(s, a) && !a.Restart?
    ensures Ledger(Next(s, a), base + Gain(s, a))
  {
    match a {
      case Begin(t, _, _, _) => OnlySettlementTouchesBooks(s, t, a);
      case Fill(t, _) => OnlySettlementTouchesBooks(s, t, a);
      case Abort(t) => OnlySettlementTouchesBooks(s, t, a);
      case Settle(t) =>
        var x := SettleStep(s, a);
        SettlingKeepsLedger(s, Next(s, a), t, x, base);
      case Release(t) => OnlySettlementTouchesBooks(s, t, a);
      case Open(pos) => OpenKeepsLedger(s, pos, base);
      case Reconcile(_, adopted) => FeesConcat(s.ever, adopted);
      case Overwrite(_) =>
      case ResetDay(_) => assert s.settled[|s.settled|..] == [];
      case Snapshot(_) =>
      case Write(_) =>
    }
  }

  lemma RestedKeepsLedger(s: State, base: real)
    requires Ledger(s, base)
    ensures Ledger(Rested(s), base)
  {
    assert s.settled[|s.settled|..] == [];
  }

  lemma FiledLikePending(s: State, a: Action, k: Kept<real>)
    requires Enabled(s, a) && k.pending.Keys == s.pending.Keys
    ensures Filed(k, a).pending.Keys == Next(s, a).pending.Keys
  {
  }

  lemma StepKeepsBalance(s: State, a: Action, base: real, io: Kept<real>)
    requires FilesBehind(s) && Balanced(s, base, io) && Enabled(s, a)
    ensures Balanced(Next(s, a), base, Filed(io.(now := io.now + Gain(s, a)), a))
  {
    hide Restarted, RestartedFrom, Rested, Ledger, FilesBehind, Next, Enabled;
    WhereARestartLeads(s, a);
    RestedKeepsLedger(s, base + io.now);
    FiledLikePending(s, a, io.(now := io.now + Gain(s, a)));
    if a.Restart? {
      RestartIsRestarted(s);
    } else {
      NextKeepsLedger(s, a, base + io.now);
    }
    if a.Write? { Written(s, a); }
  }

  // ---------- every step keeps track ----------

  lemma NextKeepsTrack(s: State, a: Action, dropped: set<nat>)
    requires Safe(s) && Enabled(s, a) && TrackedOr(s, dropped) && !a.Restart?
    ensures TrackedOr(Next(s, a), dropped + DroppedBy(s, a))
  {
    match a {
      case Settle(t) =>
        var x := SettleStep(s, a);
        WithoutIds(s.positions, x.pos.id);
        SettledSnoc(s.settled, x);
      case Open(pos) =>
        IdsConcat(s.positions, [pos]);
        IdsConcat(s.ever, [pos]);
      case Reconcile(symbols, adopted) =>
        OnExchangeMeans(s.positions, symbols);
        IdsConcat(OnExchange(s.positions, symbols), adopted);
        IdsConcat(s.ever, adopted);
        hide Ids, OnExchange;
      case _ =>
    }
  }

  lemma {:induction false} UnsettledMember(ever: seq<Contract>, ss: seq<Settled>, p: Contract)
    requires p in ever && p.id !in SettledIds(ss)
    ensures p in Unsettled(ever, ss)
  {
    if ss != [] {
      UnsettledMember(ever, ss[..|ss| - 1], p);
      WithoutKeeps(Unsettled(ever, ss[..|ss| - 1]), ss[|ss| - 1].pos.id, p);
    }
  }

  lemma WithoutKeeps(ps: seq<Contract>, id: nat, p: Contract)
    requires p in ps && p.id != id
    ensures p in Without(ps, id)
  {
    var init, last := ps[..|ps| - 1], ps[|ps| - 1];
    assert ps == init + [last];
    if p != last { WithoutKeeps(init, id, p); }
  }

  lemma {:induction false} UnsettledDistinct(ever: seq<Contract>, ss: seq<Settled>)
    requires DistinctIds(ever)
    ensures DistinctIds(Unsettled(ever, ss))
  {
    if ss != [] {
      UnsettledDistinct(ever, ss[..|ss| - 1]);
      WithoutIds(Unsettled(ever, ss[..|ss| - 1]), ss[|ss| - 1].pos.id);
    }
  }

  /** Everything ever opened is unsettled or settled, in money too. */
  lemma {:induction false} SizesSplit(ever: seq<Contract>, ss: seq<Settled>)
    requires DistinctIds(ever) && SettledOnce(ss) && forall i | 0 <= i < |ss| :: ss[i].pos in ever
    ensures Sizes(ever) == Sizes(Unsettled(ever, ss)) + SettledSizes(ss)
  {
    if ss != [] {
      var init, x := ss[..|ss| - 1], ss[|ss| - 1];
      SizesSplit(ever, init);
      UnsettledMember(ever, init, x.pos);
      UnsettledDistinct(ever, init);
      WithoutSizes(Unsettled(ever, init), x.pos);
    }
  }

  lemma WithoutAppend(ps: seq<Contract>, id: nat, p: Contract)
    requires p.id != id
    ensures Without(ps + [p], id) == Without(ps, id) + [p]
  {
    assert (ps + [p])[..|ps|] == ps;
  }

  lemma {:induction false} UnsettledAppend(ever: seq<Contract>, ss: seq<Settled>, p: Contract)
    requires p.id !in SettledIds(ss)
    ensures Unsettled(ever + [p], ss) == Unsettled(ever, ss) + [p]
  {
    if ss != [] {
      UnsettledAppend(ever, ss[..|ss| - 1], p);
      WithoutAppend(Unsettled(ever, ss[..|ss| - 1]), ss[|ss| - 1].pos.id, p);
    }
  }

  lemma OpenKeepsTracked(s: State, pos: Contract)
    requires Sound(s) && Enabled(s, Open(pos)) && Tracked(s)
    ensures Tracked(Next(s, Open(pos)))
  {
    assert [pos][0].id !in Ids(s.ever);
    UnsettledAppend(s.ever, s.settled, pos);
  }

  lemma UnsettledSnoc(ever: seq<Contract>, ss: seq<Settled>, x: Settled)
    ensures Unsettled(ever, ss + [x]) == Without(Unsettled(ever, ss), x.pos.id)
  {
    assert (ss + [x])[..|ss|] == ss;
  }

  lemma SettlingKeepsTracked(s: State, n: State, t: nat, x: Settled)
    requires SettlesClaim(s, n, t, x) && Tracked(s)
    ensures Tracked(n)
  {
    UnsettledSnoc(s.ever, s.settled, x);
  }

  lemma NextKeepsTracked(s: State, a: Action)
    requires Sound(s) && Enabled(s, a) && Tracked(s) && !Disturbs(a) && !a.Restart?
    ensures Tracked(Next(s, a))
  {
    if a.Settle? {
      var x := SettleStep(s, a);
      SettlingKeepsTracked(s, Next(s, a), a.t, x);
    } else if a.Open? {
      OpenKeepsTracked(s, a.pos);
    }
  }

  /** As long as nothing reaches in from outside, tracked stays exactly what is not settled. */
  lemma UndisturbedKeepsTracked(s: State, a: Action)
    requires Safe(s) && Enabled(s, a) && Tracked(s) && FilesTracked(s) && !Disturbs(a)
    ensures Tracked(Next(s, a)) && FilesTracked(Next(s, a))
  {
    SafeIsSound(s);
    assert Tracked(Rested(s)) && Tracked(Restarted(s));
    hide *;
    StepKeepsFilesTracked(s, a);
    if a.Restart? {
      RestartIsRestarted(s);
    } else {
      NextKeepsTracked(s, a);
    }
  }

  lemma StepKeepsFilesTracked(s: State, a: Action)
    requires FilesBehind(s) && Enabled(s, a) && Tracked(Rested(s)) && FilesTracked(s)
    ensures FilesTracked(Next(s, a))
  {
    hide Restarted, RestartedFrom, Rested, Tracked, Enabled, FilesBehind, Next;
    WhereARestartLeads(s, a);
    if a.Write? { Written(s, a); }
  }

  lemma NoStep(s: State)
    ensures Enables(s, []) && After(s, []) == s
  {
  }

  lemma LastStep(s: State, more: seq<Action>)
    requires Enables(s, more) && more != []
    ensures Enables(s, more[..|more| - 1]) && Enabled(After(s, more[..|more| - 1]), more[|more| - 1])
    ensures After(s, more) == Next(After(s, more[..|more| - 1]), more[|more| - 1])
  {
  }

  lemma OneMore(s: State, run: seq<Action>, a: Action)
    requires Enables(s, run) && Enabled(After(s, run), a)
    ensures Enables(s, run + [a]) && After(s, run + [a]) == Next(After(s, run), a)
  {
    assert (run + [a])[..|run|] == run;
  }

  // ---------- over all interleavings ----------

  lemma InitialIsFlushed(s: State)
    requires Initial(s)
    ensures Safe(s) && Balanced(s, s.balance, Kept(0.0, 0.0, map[])) && Tracked(s) && FilesTracked(s)
    ensures TrackedOr(s, {}) && FilesTrackedOr(s, {})
  {
  }

  lemma {:induction false} RunKeepsInvariants(s: State, run: seq<Action>)
    requires Initial(s) && Enables(s, run)
    ensures Safe(After(s, run)) && Balanced(After(s, run), s.balance, Outside(s, run))
    decreases |run|
  {
    hide *;
    if run == [] {
      NoStep(s);
      InitialIsFlushed(s);
      NothingOutside(s);
    } else {
      LastStep(s, run);
      OutsideStep(s, run);
      var init, a := run[..|run| - 1], run[|run| - 1];
      RunKeepsInvariants(s, init);
      SafeIsSound(After(s, init));
      StepKeepsSafe(After(s, init), a);
      StepKeepsBalance(After(s, init), a, s.balance, Outside(s, init));
    }
  }

  lemma SafeIsSound(s: State)
    requires Safe(s)
    ensures Sound(s) && FilesBehind(s)
  {
  }

  lemma NothingOutside(s: State)
    ensures Outside(s, []) == Kept(0.0, 0.0, map[])
  {
  }

  lemma OutsideStep(s: State, run: seq<Action>)
    requires Enables(s, run) && run != []
    ensures var io, a := Outside(s, run[..|run| - 1]), run[|run| - 1];
            Outside(s, run) == Filed(io.(now := io.now + Gain(After(s, run[..|run| - 1]), a)), a)
  {
  }

  /** Every record of the history, over all interleavings, says what was settled in plain arithmetic. */
  lemma {:induction false} EveryRecordMeans(s: State, run: seq<Action>)
    requires Initial(s) && Enables(s, run)
    ensures forall x :: x in After(s, run).settled ==> RecordMeans(x)
    decreases |run|
  {
    if run != [] {
      var init, a := run[..|run| - 1], run[|run| - 1];
      EveryRecordMeans(s, init);
      LastStep(s, run);
      hide After, Enables, RecordMeans;
      StepKeepsRecords(After(s, init), a);
    }
  }

  lemma StepKeepsRecords(s: State, a: Action)
    requires Enabled(s, a) && forall x :: x in s.settled ==> RecordMeans(x)
    ensures forall x :: x in Next(s, a).settled ==> RecordMeans(x)
  {
    if a.Settle? {
      var Confirmed(pos, price, reason) := s.threads[a.t];
      SettlementMeans(pos, price, reason);
    }
    hide RecordMeans, ClosePnl, ExitCommission;
  }

  /** At most once: no interleaving settles a position id twice, or leaves a settled one tracked. */
  lemma SettledAtMostOnce(s: State, run: seq<Action>, i: nat, j: nat)
    requires Initial(s) && Enables(s, run) && i < j < |After(s, run).settled|
    ensures After(s, run).settled[i].pos.id != After(s, run).settled[j].pos.id
    ensures Ids(After(s, run).positions) !! SettledIds(After(s, run).settled)
  {
    RunKeepsInvariants(s, run);
    SettledOnceMeans(After(s, run).settled, i, j);
  }

  /** The claim set is exactly the claims in flight, so it is empty once every thread is done. */
  lemma ClaimsEndWithTheirThreads(s: State, run: seq<Action>)
    requires Initial(s) && Enables(s, run)
    ensures ClaimsExact(After(s, run))
    ensures (forall t :: 0 <= t < |After(s, run).threads| ==> After(s, run).threads[t].Idle?) ==>
              After(s, run).closing == {}
  {
    RunKeepsInvariants(s, run);
    var n := After(s, run);
    if forall t :: 0 <= t < |n.threads| ==> n.threads[t].Idle? {
      assert forall id :: id !in n.closing;
    }
  }

  /**
   The ledger law of every run, live or on paper, over all interleavings, saves and restarts: cash, the sizes of what
   is not settled and every entry fee make up the initial balance, the realized results and what came in from
   outside. Every fee is counted once, and today's result is that of today's settlements.
   */
  lemma {:induction false} LiveLedger(s: State, run: seq<Action>)
    requires Initial(s) && Enables(s, run)
    ensures var n := After(s, run);
            && n.balance + Sizes(Unsettled(n.ever, n.settled)) + EntryFees(n.ever)
               == s.balance + Pnl(n.settled) + Outside(s, run).now
            && n.totalCommissions == EntryFees(n.ever) + ExitFees(n.settled)
            && n.today <= |n.settled| && n.dailyPnl == Pnl(n.settled[n.today..])
  {
    hide *;
    RunKeepsInvariants(s, run);
    LedgerInSizes(After(s, run), s.balance, Outside(s, run));
  }

  lemma LedgerInSizes(n: State, base: real, io: Kept<real>)
    requires Safe(n) && Balanced(n, base, io)
    ensures n.balance + Sizes(Unsettled(n.ever, n.settled)) + EntryFees(n.ever) == base + Pnl(n.settled) + io.now
    ensures n.totalCommissions == EntryFees(n.ever) + ExitFees(n.settled)
    ensures n.today <= |n.settled| && n.dailyPnl == Pnl(n.settled[n.today..])
  {
    SizesSplit(n.ever, n.settled);
    hide Sizes, EntryFees, ExitFees, Pnl, SettledSizes, Unsettled, RestartedFrom, DistinctIds, SettledOnce;
  }

  /**
   Nothing is lost unless the reconciler dropped it: what is neither tracked nor settled was dropped in this run, and
   so was any position a thread is about to settle that is no longer tracked.
   */
  lemma {:induction false} OnlyReconcileLoses(s: State, run: seq<Action>)
    requires Initial(s) && Enables(s, run)
    ensures var n := After(s, run);
            && TrackedOr(n, Dropped(s, run)) && FilesTrackedOr(n, Dropped(s, run))
            && forall t | 0 <= t < |n.threads| && InFlight(n.threads[t]) ::
                 n.threads[t].pos.id in Ids(n.positions) || n.threads[t].pos.id in Dropped(s, run)
    decreases |run|
  {
    RunKeepsInvariants(s, run);
    if run == [] {
      NoStep(s);
      InitialIsFlushed(s);
    } else {
      LastStep(s, run);
      DroppedStep(s, run);
      var init, a := run[..|run| - 1], run[|run| - 1];
      RunKeepsInvariants(s, init);
      OnlyReconcileLoses(s, init);
      hide After, Next, Enables, Dropped, Balanced, Outside;
      StepKeepsTrack(After(s, init), a, Dropped(s, init));
    }
    InFlightIsRegistered(After(s, run));
  }

  lemma DroppedStep(s: State, run: seq<Action>)
    requires Enables(s, run) && run != []
    ensures Dropped(s, run)
         == Dropped(s, run[..|run| - 1]) + DroppedBy(After(s, run[..|run| - 1]), run[|run| - 1])
  {
  }

  lemma StepKeepsTrack(s: State, a: Action, dropped: set<nat>)
    requires Safe(s) && Enabled(s, a) && TrackedOr(s, dropped) && FilesTrackedOr(s, dropped)
    ensures TrackedOr(Next(s, a), dropped + DroppedBy(s, a)) && FilesTrackedOr(Next(s, a), dropped + DroppedBy(s, a))
  {
    hide *;
    SafeIsSound(s);
    TrackedOrMore(s, dropped, dropped + DroppedBy(s, a));
    StepKeepsFilesTrack(s, a, dropped + DroppedBy(s, a));
    if a.Restart? {
      RestartIsRestarted(s);
      FilesTrackTheFile(s, dropped + DroppedBy(s, a));
    } else {
      NextKeepsTrack(s, a, dropped);
    }
  }

  lemma FilesTrackTheFile(s: State, dropped: set<nat>)
    requires FilesTrackedOr(s, dropped)
    ensures TrackedOr(Restarted(s), dropped)
  {
  }

  lemma StepKeepsFilesTrack(s: State, a: Action, dropped: set<nat>)
    requires FilesBehind(s) && Enabled(s, a) && TrackedOr(Rested(s), dropped) && FilesTrackedOr(s, dropped)
    ensures FilesTrackedOr(Next(s, a), dropped)
  {
    hide Restarted, RestartedFrom, Rested, TrackedOr, Enabled, FilesBehind, Next;
    WhereARestartLeads(s, a);
    if a.Write? { Written(s, a); }
  }

  lemma TrackedOrMore(s: State, dropped: set<nat>, after: set<nat>)
    requires TrackedOr(s, dropped) && FilesTrackedOr(s, dropped) && dropped <= after
    ensures TrackedOr(Rested(s), after) && FilesTrackedOr(s, after)
  {
  }

  lemma InFlightIsRegistered(s: State)
    requires Sound(s)
    ensures forall t | 0 <= t < |s.threads| && InFlight(s.threads[t]) ::
              s.threads[t].pos.id in Ids(s.ever) && s.threads[t].pos.id !in SettledIds(s.settled)
  {
    forall t | 0 <= t < |s.threads| && InFlight(s.threads[t])
      ensures s.threads[t].pos.id in Ids(s.ever)
    {
      Member(s.ever, s.threads[t].pos);
    }
  }

  ghost predicate NoInflow(io: Kept<real>) {
    io.now == io.disk == 0.0 && forall w | w in io.pending :: io.pending[w] == 0.0
  }

  lemma NothingGained(s: State, a: Action, io: Kept<real>)
    requires NoInflow(io) && !Disturbs(a)
    ensures NoInflow(Filed(io.(now := io.now + Gain(s, a)), a))
  {
  }

  lemma {:induction false} UndisturbedRun(s: State, run: seq<Action>)
    requires Initial(s) && Enables(s, run) && Undisturbed(run)
    ensures Tracked(After(s, run)) && FilesTracked(After(s, run)) && NoInflow(Outside(s, run))
    decreases |run|
  {
    if run == [] {
      InitialIsFlushed(s);
    } else {
      var init, a := run[..|run| - 1], run[|run| - 1];
      assert Undisturbed(init) && !Disturbs(a);
      hide *;
      LastStep(s, run);
      OutsideStep(s, run);
      UndisturbedRun(s, init);
      RunKeepsInvariants(s, init);
      UndisturbedKeepsTracked(After(s, init), a);
      NothingGained(After(s, init), a, Outside(s, init));
    }
  }

  /**
   The exact ledger law of a run into which nothing reaches from outside, live or on paper: cash plus open sizes plus
   every entry fee is the initial balance plus the realized results, and tracked is exactly what is not settled.
   */
  lemma {:induction false} UndisturbedLedger(s: State, run: seq<Action>)
    requires Initial(s) && Enables(s, run) && Undisturbed(run)
    ensures var n := After(s, run);
            && n.positions == Unsettled(n.ever, n.settled)
            && n.balance + Sizes(n.positions) + EntryFees(n.ever) == s.balance + Pnl(n.settled)
            && n.totalCommissions == EntryFees(n.ever) + ExitFees(n.settled)
            && n.today <= |n.settled| && n.dailyPnl == Pnl(n.settled[n.today..])
  {
    UndisturbedRun(s, run);
    LiveLedger(s, run);
  }

  /** On paper nothing can reach in from outside, so the exact law holds of every run, restarts included. */
  lemma {:induction false} PaperLedger(s: State, run: seq<Action>)
    requires Initial(s) && !s.live && Enables(s, run)
    ensures var n := After(s, run);
            && n.positions == Unsettled(n.ever, n.settled)
            && n.balance + Sizes(n.positions) + EntryFees(n.ever) == s.balance + Pnl(n.settled)
            && n.totalCommissions == EntryFees(n.ever) + ExitFees(n.settled)
            && n.today <= |n.settled| && n.dailyPnl == Pnl(n.settled[n.today..])
  {
    PaperIsUndisturbed(s, run);
    UndisturbedLedger(s, run);
  }

  lemma {:induction false} PaperIsUndisturbed(s: State, run: seq<Action>)
    requires !s.live && Enables(s, run)
    ensures Undisturbed(run)
    decreases |run|
  {
    if run != [] {
      var init := run[..|run| - 1];
      PaperIsUndisturbed(s, init);
      LiveIsFixed(s, init);
      assert forall i :: 0 <= i < |init| ==> run[i] == init[i];
    }
  }

  lemma {:induction false} LiveIsFixed(s: State, run: seq<Action>)
    requires Enables(s, run)
    ensures After(s, run).live == s.live && |After(s, run).threads| == |s.threads|
    decreases |run|
  {
    if run != [] { LiveIsFixed(s, run[..|run| - 1]); }
  }

  // ---------- restarts ----------

  /** The pending snapshot is neither written nor lost to a restart. */
  ghost predicate LeavesPending(run: seq<Action>, w: nat) {
    forall i :: 0 <= i < |run| ==> run[i] != Write(w) && run[i] != Restart
  }

  ghost predicate NoWrite(run: seq<Action>) { forall i :: 0 <= i < |run| ==> !run[i].Write? }

  lemma {:induction false} PendingStays(s: State, more: seq<Action>, w: nat)
    requires Enables(s, more) && w in s.pending && Behind(s, s.pending[w]) && LeavesPending(more, w)
    ensures var n, b := After(s, more), s.pending[w];
            w in n.pending && n.pending[w] == b && Behind(n, b) && RestartedFrom(n, b) == RestartedFrom(s, b)
    decreases |more|
  {
    if more != [] {
      var init := more[..|more| - 1];
      assert forall i :: 0 <= i < |init| ==> init[i] == more[i];
      PendingStays(s, init, w);
      SnapshotsStay(After(s, init), more[|more| - 1], s.pending[w]);
    }
    hide RestartedFrom, Enabled, Behind;
  }

  lemma {:induction false} FileStays(s: State, more: seq<Action>)
    requires Enables(s, more) && Behind(s, s.disk) && NoWrite(more)
    ensures Behind(After(s, more), s.disk) && After(s, more).disk == s.disk
    ensures Restarted(After(s, more)) == Restarted(s)
    decreases |more|
  {
    if more != [] {
      var init := more[..|more| - 1];
      assert forall i :: 0 <= i < |init| ==> init[i] == more[i];
      FileStays(s, init);
      SnapshotsStay(After(s, init), more[|more| - 1], s.disk);
    }
    hide RestartedFrom, Enabled, Behind;
  }

  lemma WriteLands(s: State, w: nat)
    requires Enabled(s, Write(w)) && w in s.pending
    ensures Next(s, Write(w)).disk == s.pending[w]
    ensures Restarted(Next(s, Write(w))) == RestartedFrom(Next(s, Write(w)), s.pending[w])
  {
  }

  /**
   A restart brings back the books of the snapshot that was written last, as they were when it was taken: every open
   and every settlement since is forgotten, even those that newer snapshots saved before the old one landed, and
   whatever threads, exchange and reconciler did before and after the write.
   */
  lemma {:induction false} RestartRollsBack(s: State, w: nat, before: seq<Action>, after: seq<Action>)
    requires w in s.pending && s.pending[w] == BooksOf(s)
    requires Enables(s, before) && LeavesPending(before, w) && Enabled(After(s, before), Write(w))
    requires Enables(Next(After(s, before), Write(w)), after) && NoWrite(after)
    ensures Next(After(Next(After(s, before), Write(w)), after), Restart) == Rested(s)
  {
    var n := After(s, before);
    assert Behind(s, s.pending[w]);
    hide *;
    PendingStays(s, before, w);
    RestartFromNow(s);
    SnapshotsStay(n, Write(w), s.pending[w]);
    WriteLands(n, w);
    FileStays(Next(n, Write(w)), after);
    RestartIsRestarted(After(Next(n, Write(w)), after));
  }

  /** So a settlement after the snapshot comes undone, and its position is tracked, and can be settled, again. */
  lemma UnsavedSettlementIsForgotten(s: State, w: nat, before: seq<Action>, after: seq<Action>, p: Contract)
    requires w in s.pending && s.pending[w] == BooksOf(s) && p in s.positions
    requires Enables(s, before) && LeavesPending(before, w) && Enabled(After(s, before), Write(w))
    requires Enables(Next(After(s, before), Write(w)), after) && NoWrite(after)
    ensures p in Next(After(Next(After(s, before), Write(w)), after), Restart).positions
    ensures Next(After(Next(After(s, before), Write(w)), after), Restart).settled == s.settled
  {
    RestartRollsBack(s, w, before, after);
  }

  lemma FiveSteps(s: State, a: Action, b: Action, c: Action, d: Action, e: Action)
    requires Enabled(s, a) && Enabled(Next(s, a), b)
    requires Enabled(Next(Next(s, a), b), c) && Enabled(Next(Next(Next(s, a), b), c), d)
    requires Enabled(Next(Next(Next(Next(s, a), b), c), d), e)
    ensures Enables(s, [a, b, c, d, e])
    ensures After(s, [a, b, c, d, e]) == Next(Next(Next(Next(Next(s, a), b), c), d), e)
  {
    hide *;
    assert [] + [a] == [a] && [a] + [b] == [a, b] && [a, b] + [c] == [a, b, c];
    assert [a, b, c] + [d] == [a, b, c, d] && [a, b, c, d] + [e] == [a, b, c, d, e];
    NoStep(s);
    OneMore(s, [], a);
    OneMore(s, [a], b);
    OneMore(s, [a, b], c);
    OneMore(s, [a, b, c], d);
    OneMore(s, [a, b, c, d], e);
  }

  /** A close by thread t up to its settlement: claim, confirmation, settlement. */
  lemma SettledByClaim(s: State, t: nat, pos: Contract, price: real, reason: Reason)
    requires Enabled(s, Begin(t, pos, price, reason)) && pos.id in Ids(s.positions) && pos.id !in s.closing
    requires pos.terms.entry != 0.0
    ensures var a, b, c := Begin(t, pos, price, reason), Fill(t, 0.0), Settle(t);
            && Enabled(Next(s, a), b) && Enabled(Next(Next(s, a), b), c)
            && Next(Next(Next(s, a), b), c) == SettledState(s, pos, price, reason).(
                 closing := s.closing + {pos.id}, threads := s.threads[t := Finishing(pos.id)])
  {
    var s1 := Next(s, Begin(t, pos, price, reason));
    var s2 := Next(s1, Fill(t, 0.0));
    assert s2.threads == s.threads[t := Confirmed(pos, price, reason)];
    assert s2.threads[t := Finishing(pos.id)] == s.threads[t := Finishing(pos.id)];
  }

  /** Nothing but the file changes when a snapshot is taken and written at once. */
  lemma SaveAtOnce(s: State, w: nat)
    requires w !in s.pending
    ensures Enabled(s, Snapshot(w)) && Enabled(Next(s, Snapshot(w)), Write(w))
    ensures Next(Next(s, Snapshot(w)), Write(w)) == s.(disk := BooksOf(s))
  {
    assert s.pending[w := BooksOf(s)] - {w} == s.pending;
  }

  /** Even a settlement that the file holds is not safe: an older snapshot can land after the newer one. */
  lemma SavedSettlementCanBeForgotten(s: State, w: nat, v: nat, t: nat, pos: Contract, price: real, reason: Reason)
    requires w in s.pending && s.pending[w] == BooksOf(s) && v !in s.pending
    requires Enabled(s, Begin(t, pos, price, reason)) && pos in s.positions && pos.id !in s.closing
    requires pos.terms.entry != 0.0
    ensures var run := [Begin(t, pos, price, reason), Fill(t, 0.0), Settle(t), Snapshot(v), Write(v)];
            && Enables(s, run) && pos.id in SettledIds(Restarted(After(s, run)).settled)
            && Enabled(After(s, run), Write(w)) && pos in Next(Next(After(s, run), Write(w)), Restart).positions
  {
    Member(s.positions, pos);
    SettledByClaim(s, t, pos, price, reason);
    var n := SettledState(s, pos, price, reason).(
      closing := s.closing + {pos.id}, threads := s.threads[t := Finishing(pos.id)]);
    SettledMember(n.settled, |s.settled|);
    assert n.pending == s.pending && BooksOf(s).positions == s.positions;
    SaveAtOnce(n, v);
    var saved := n.(disk := BooksOf(n));
    assert Restarted(saved).settled == n.settled;
    assert Enabled(saved, Write(w)) && Next(saved, Write(w)).disk == BooksOf(s);
    assert Next(Next(saved, Write(w)), Restart).positions == s.positions;
    FiveSteps(s, Begin(t, pos, price, reason), Fill(t, 0.0), Settle(t), Snapshot(v), Write(v));
    hide Enables, After, SettledState, Restarted, RestartedFrom, SettledIds, BooksOf, Ids;
  }

  // ---------- an aborted close ----------

  /** The steps of one closing thread among others. */
  predicate StepOf(a: Action, t: nat) {
    match a
    case Begin(u, _, _, _) => u == t
    case Fill(u, _) => u == t
    case Abort(u) => u == t
    case Settle(u) => u == t
    case Release(u) => u == t
    case _ => false
  }

  /** The shared books, without the claim set and the threads. */
  ghost predicate SameBooks(s: State, n: State) {
    && s.positions == n.positions && s.balance == n.balance && s.dailyPnl == n.dailyPnl
    && s.totalCommissions == n.totalCommissions && s.settled == n.settled && s.ever == n.ever
    && s.today == n.today && s.disk == n.disk && s.pending == n.pending
  }

  lemma AbortedSteps(s: State, t: nat, pos: Contract, price: real, reason: Reason)
    requires s.live && Enabled(s, Begin(t, pos, price, reason)) && pos.id !in s.closing && pos.id in Ids(s.positions)
    ensures var b, f, r := Begin(t, pos, price, reason), Abort(t), Release(t);
            && Enabled(Next(s, b), f) && Enabled(Next(Next(s, b), f), r)
            && Next(Next(Next(s, b), f), r) == s
  {
    var s3 := Next(Next(Next(s, Begin(t, pos, price, reason)), Abort(t)), Release(t));
    assert s3.threads == s.threads && s3.closing == s.closing;
  }

  /** A failing close changes nothing but the claim: claim, failure and release leave the books as they were. */
  lemma AbortedCloseLeavesBooks(s: State, t: nat, pos: Contract, price: real, reason: Reason)
    requires s.live && Enabled(s, Begin(t, pos, price, reason)) && pos.id !in s.closing && pos.id in Ids(s.positions)
    ensures var run := [Begin(t, pos, price, reason), Abort(t), Release(t)];
            Enables(s, run) && After(s, run) == s
  {
    hide *;
    var b, f, r := Begin(t, pos, price, reason), Abort(t), Release(t);
    assert [] + [b] == [b] && [b] + [f] == [b, f] && [b, f] + [r] == [b, f, r];
    AbortedSteps(s, t, pos, price, reason);
    NoStep(s);
    OneMore(s, [], b);
    OneMore(s, [b], f);
    OneMore(s, [b, f], r);
  }

  /** Between the lock sections of any close, and whatever it ends with, only its settlement touches the books. */
  lemma OnlySettlementTouchesBooks(s: State, t: nat, a: Action)
    requires Enabled(s, a) && StepOf(a, t) && !a.Settle?
    ensures SameBooks(s, Next(s, a))
  {
  }

  /** Counts the settlements of a run, now, as of the file and as of each pending snapshot. */
  function Settlements(start: Kept<nat>, run: seq<Action>): Kept<nat> {
    if run == [] then start
    else
      var c, a := Settlements(start, run[..|run| - 1]), run[|run| - 1];
      Filed(c.(now := c.now + if a.Settle? then 1 else 0), a)
  }

  function Counted(s: State): Kept<nat> {
    Kept(|s.settled|, s.disk.closes, map w | w in s.pending :: s.pending[w].closes)
  }

  lemma StepCountsSettlements(s: State, a: Action)
    requires FilesBehind(s) && Enabled(s, a)
    ensures Counted(Next(s, a)) == Filed(Counted(s).(now := |s.settled| + if a.Settle? then 1 else 0), a)
  {
    var n, c := Next(s, a), Filed(Counted(s).(now := |s.settled| + if a.Settle? then 1 else 0), a);
    assert Counted(n).pending == c.pending;
  }

  /** The history grows by one for each settlement and by nothing else; a restart cuts it back to the file's. */
  lemma {:induction false} HistoryCountsSettlements(s: State, run: seq<Action>)
    requires Enables(s, run) && FilesBehind(s)
    ensures FilesBehind(After(s, run)) && Settlements(Counted(s), run) == Counted(After(s, run))
    decreases |run|
  {
    if run != [] {
      var init := run[..|run| - 1];
      HistoryCountsSettlements(s, init);
      WhereARestartLeads(After(s, init), run[|run| - 1]);
      StepCountsSettlements(After(s, init), run[|run| - 1]);
      hide FilesBehind, Counted, Filed;
    }
  }
}
