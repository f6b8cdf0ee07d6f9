/**
 Cumulative volume delta per subscribed symbol: signed flows since the subscription, pruned to an hour and to a
 maximal number of entries.
 */
module CumulativeVolumeDelta {
  import opened Options
  import opened RollingWindows

  const MAX_PER_SYMBOL := 50000

  /** Every deque is what capping and pruning leave of its log. */
  ghost predicate Kept(flows: map<string, seq<Entry>>, log: map<string, seq<Entry>>)
    requires flows.Keys == log.Keys
  {
    forall s :: s in flows ==> flows[s] == Retained(log[s], Some(MAX_PER_SYMBOL))
  }

  ghost predicate LastTrades(lastTs: map<string, real>, log: map<string, seq<Entry>>)
    requires lastTs.Keys <= log.Keys
  {
    forall s :: s in log ==> (s in lastTs <==> log[s] != []) && (s in lastTs ==> lastTs[s] == log[s][|log[s]| - 1].ts)
  }

  /** The tracker's fields agree with one another and with the log of the current subscriptions. */
  ghost predicate Consistent(flows: map<string, seq<Entry>>, lastTs: map<string, real>, subbed: set<string>,
                             log: map<string, seq<Entry>>)
  {
    flows.Keys == subbed == log.Keys && lastTs.Keys <= subbed && Kept(flows, log) && LastTrades(lastTs, log)
  }

  lemma AppendKeeps(flows: map<string, seq<Entry>>, lastTs: map<string, real>, subbed: set<string>,
                    log: map<string, seq<Entry>>, symbol: string, e: Entry, d: seq<Entry>)
    requires Consistent(flows, lastTs, subbed, log) && symbol in log
    requires d == Retained(log[symbol] + [e], Some(MAX_PER_SYMBOL))
    ensures Consistent(flows[symbol := d], lastTs[symbol := e.ts], subbed, log[symbol := log[symbol] + [e]])
  {
    hide Retained;
  }

  lemma DequeOfLog(flows: map<string, seq<Entry>>, lastTs: map<string, real>, subbed: set<string>,
                   log: map<string, seq<Entry>>, symbol: string)
    requires Consistent(flows, lastTs, subbed, log) && symbol in flows
    ensures symbol in log && flows[symbol] == Retained(log[symbol], Some(MAX_PER_SYMBOL))
  {
    hide Retained;
  }

  class CvdTracker {
    var flows: map<string, seq<Entry>>
    var lastTradeTs: map<string, real>
    var subbed: set<string>
    /** Every trade since the symbol's last subscription. */
    ghost var log: map<string, seq<Entry>>

    ghost predicate Valid()
      reads this
    {
      Consistent(flows, lastTradeTs, subbed, log)
    }

    constructor ()
      ensures Valid() && log == map[]
    {
      flows, lastTradeTs, subbed, log := map[], map[], {}, map[];
    }

    /** A new subscription starts with an empty history; subscribing twice changes nothing. */
    method Subscribe(symbol: string)
      requires Valid()
      modifies this
      ensures Valid()
      ensures log == if symbol == "" || symbol in old(log) then old(log) else old(log)[symbol := []]
    {
      if symbol == "" || symbol in subbed {
        return;
      }
      flows := if symbol in flows then flows else flows[symbol := []];
      subbed := subbed + {symbol};
      log := log[symbol := []];
    }

    /** Forgets everything about the symbol. */
    method Unsubscribe(symbol: string)
      requires Valid()
      modifies this
      ensures Valid() && log == old(log) - {symbol}
    {
      if symbol !in subbed {
        return;
      }
      subbed := subbed - {symbol};
      flows, lastTradeTs, log := flows - {symbol}, lastTradeTs - {symbol}, log - {symbol};
    }

    /** A trade, signed by its aggressor; trades of other symbols or without a positive notional are ignored. */
    method OnMessage(symbol: string, usd: real, buyerIsMaker: bool, ts: real)
      requires Valid()
      modifies this
      ensures Valid()
      ensures log == if usd <= 0.0 || symbol !in old(log) then old(log)
                     else old(log)[symbol := old(log)[symbol] + [Entry(ts, if buyerIsMaker then -usd else usd)]]
    {
      if usd <= 0.0 || symbol !in flows {
        return;
      }
      Append(symbol, Entry(ts, if buyerIsMaker then -usd else usd));
    }

    method Append(symbol: string, e: Entry)
      requires Valid() && symbol in flows && symbol in log
      modifies this
      ensures Valid() && log == old(log)[symbol := old(log)[symbol] + [e]]
    {
      hide Retained, Consistent;
      DequeOfLog(flows, lastTradeTs, subbed, log, symbol);
      var d := AppendAndPrune(flows[symbol], e, Some(MAX_PER_SYMBOL), log[symbol]);
      AppendKeeps(flows, lastTradeTs, subbed, log, symbol, e, d);
      flows, lastTradeTs := flows[symbol := d], lastTradeTs[symbol := e.ts];
      log := log[symbol := log[symbol] + [e]];
    }

    /**
     None exactly when nothing arrived since the subscription; otherwise, for a window within an hour of the latest
     trade, the sum over the latest 50,000 trades, which is the sum over all trades while there are no more.
     */
    method Cvd(symbol: string, window: real, now: real) returns (r: Option<real>)
      requires Valid()
      ensures r.Some? <==> symbol in log && log[symbol] != []
      ensures r.Some? && now - window >= Peak(log[symbol]) - 3600.0 ==>
                && r.value == Total(Recent(Capped(log[symbol], Some(50000)), now - window))
                && (|log[symbol]| <= 50000 ==> r.value == Total(Recent(log[symbol], now - window)))
    {
      if symbol !in flows {
        return None;
      }
      if log[symbol] != [] {
        NewestRetained(log[symbol], Some(MAX_PER_SYMBOL));
      }
      if flows[symbol] == [] {
        return None;
      }
      hide Retained, Recent, Total, Peak;
      var sum, _ := SumSince(flows[symbol], now - window);
      if now - window >= Peak(log[symbol]) - RETAIN_SECONDS {
        WindowsSurvivePruning(log[symbol], Some(MAX_PER_SYMBOL), now - window);
      }
      return Some(sum);
    }
  }
}
