/**
 * The live price cache of frontend/src/hooks/useLivePrices.ts: the latest
 * accepted update per symbol, the time it was accepted, a 15-second
 * debounce per symbol, and the price/change lookups with their fallbacks
 * to the cryptocurrency catalogue. The WebSocket that delivers updates is
 * not modelled; each message arrives with the clock reading `now` (ms).
 */
module LivePrices {
  import opened Wrappers
  import opened Types

  /** A message of the price feed. */
  datatype PriceUpdate = PriceUpdate(symbol: string, price: real, change: real, timestamp: string)

  /** `UPDATE_INTERVAL`, in milliseconds. */
  const UpdateInterval: int := 15000

  /** The two per-symbol maps: `prices` and `lastUpdateTime.current`. */
  datatype Cache = Cache(prices: map<string, PriceUpdate>, lastUpdate: map<string, int>)

  /** `lastUpdateTime.current[symbol] || 0`. */
  function LastUpdateOf(c: Cache, symbol: string): int
  {
    if symbol in c.lastUpdate then c.lastUpdate[symbol] else 0
  }

  /** The debounce test of `onmessage`. */
  predicate Accepts(c: Cache, u: PriceUpdate, now: int)
    ensures u.symbol !in c.lastUpdate ==> (Accepts(c, u, now) <==> now >= UpdateInterval)
    ensures u.symbol in c.lastUpdate ==> (Accepts(c, u, now) <==> now - c.lastUpdate[u.symbol] >= UpdateInterval)
  {
    now - LastUpdateOf(c, u.symbol) >= UpdateInterval
  }

  /** The effect of one message on the cache. */
  function Step(c: Cache, u: PriceUpdate, now: int): (r: Cache)
    ensures Accepts(c, u, now) ==>
      u.symbol in r.prices && r.prices[u.symbol] == u &&
      u.symbol in r.lastUpdate && r.lastUpdate[u.symbol] == now
    ensures !Accepts(c, u, now) ==> r == c
    ensures forall s :: s != u.symbol ==>
      (s in r.prices <==> s in c.prices) && (s in r.prices ==> r.prices[s] == c.prices[s]) &&
      (s in r.lastUpdate <==> s in c.lastUpdate) && (s in r.lastUpdate ==> r.lastUpdate[s] == c.lastUpdate[s])
  {
    if Accepts(c, u, now)
    then Cache(c.prices[u.symbol := u], c.lastUpdate[u.symbol := now])
    else c
  }

  /** After an update is accepted at `now`, every later message for the same
      symbol that arrives before `now + 15000` is dropped. */
  lemma DebounceWindow(c: Cache, u: PriceUpdate, now: int, u': PriceUpdate, later: int)
    requires Accepts(c, u, now)
    requires u'.symbol == u.symbol && later < now + UpdateInterval
    ensures Step(Step(c, u, now), u', later) == Step(c, u, now)
  {
  }

  /** A message together with the clock reading at its arrival. */
  datatype Event = Event(update: PriceUpdate, now: int)

  /** Delivering `events` in order: the final cache, and the events that
      were accepted. */
  function Run(c: Cache, events: seq<Event>): (Cache, seq<Event>)
  {
    if events == [] then (c, [])
    else
      var (c', log) := Run(c, events[..|events| - 1]);
      var e := events[|events| - 1];
      if Accepts(c', e.update, e.now) then (Step(c', e.update, e.now), log + [e]) else (c', log)
  }

  /** What holds of a run from the empty cache: each accepted event's time is
      at most the recorded time of its symbol, and two accepted events for
      the same symbol are at least the interval apart. */
  ghost predicate RunInvariant(c: Cache, log: seq<Event>)
  {
    && (forall i :: 0 <= i < |log| ==> log[i].now <= LastUpdateOf(c, log[i].update.symbol))
    && (forall i, j :: 0 <= i < j < |log| && log[i].update.symbol == log[j].update.symbol ==>
          log[j].now - log[i].now >= UpdateInterval)
  }

  lemma {:induction false} RunKeepsInvariant(events: seq<Event>)
    ensures RunInvariant(Run(Cache(map[], map[]), events).0, Run(Cache(map[], map[]), events).1)
  {
    if events != [] {
      var init := events[..|events| - 1];
      RunKeepsInvariant(init);
      var (c', log) := Run(Cache(map[], map[]), init);
      var e := events[|events| - 1];
      if Accepts(c', e.update, e.now) {
        var c'' := Step(c', e.update, e.now);
        var log' := log + [e];
        assert Run(Cache(map[], map[]), events) == (c'', log');
        forall i | 0 <= i < |log'|
          ensures log'[i].now <= LastUpdateOf(c'', log'[i].update.symbol)
        {
          if i < |log| && log[i].update.symbol == e.update.symbol {
            assert log[i].now <= LastUpdateOf(c', e.update.symbol);
          }
        }
        forall i, j | 0 <= i < j < |log'| && log'[i].update.symbol == log'[j].update.symbol
          ensures log'[j].now - log'[i].now >= UpdateInterval
        {
          if j == |log| {
            assert log[i].now <= LastUpdateOf(c', e.update.symbol);
          }
        }
      }
    }
  }

  /** However fast the feed delivers, the cache accepts at most one update
      per symbol in any 15-second span. */
  lemma AcceptedUpdatesSpaced(events: seq<Event>, i: nat, j: nat)
    requires i < j < |Run(Cache(map[], map[]), events).1|
    requires Run(Cache(map[], map[]), events).1[i].update.symbol == Run(Cache(map[], map[]), events).1[j].update.symbol
    ensures Run(Cache(map[], map[]), events).1[j].now - Run(Cache(map[], map[]), events).1[i].now >= UpdateInterval
  {
    RunKeepsInvariant(events);
  }

  /** The hook's mutable state. */
  class LivePriceFeed {
    var prices: map<string, PriceUpdate>
    var lastUpdate: map<string, int>

    function Snapshot(): Cache
      reads this
    {
      Cache(prices, lastUpdate)
    }

    constructor ()
      ensures Snapshot() == Cache(map[], map[])
    {
      prices := map[];
      lastUpdate := map[];
    }

    /** `ws.onmessage`: store the update and its arrival time if the
        symbol's last accepted update is at least 15 s old. */
    method OnMessage(update: PriceUpdate, now: int) returns (accepted: bool)
      modifies this
      ensures accepted == Accepts(old(Snapshot()), update, now)
      ensures Snapshot() == Step(old(Snapshot()), update, now)
    {
      var last := if update.symbol in lastUpdate then lastUpdate[update.symbol] else 0;
      accepted := now - last >= UpdateInterval;
      if accepted {
        prices := prices[update.symbol := update];
        lastUpdate := lastUpdate[update.symbol := now];
      }
    }
  }

  /** `getCurrentPrice(symbol)`: the live price if there is one and it is not
      0; otherwise the price of the first catalogue entry with that symbol
      (0 if there is none). */
  function CurrentPrice(c: Cache, catalogue: seq<Cryptocurrency>, symbol: string): (r: real)
    ensures symbol in c.prices && c.prices[symbol].price != 0.0 ==> r == c.prices[symbol].price
    ensures !(symbol in c.prices && c.prices[symbol].price != 0.0) ==>
      match FindIndex(catalogue, (x: Cryptocurrency) => x.symbol == symbol)
      case None => r == 0.0
      case Some(i) => r == catalogue[i].currentPrice && catalogue[i].symbol == symbol &&
                      forall j :: 0 <= j < i ==> catalogue[j].symbol != symbol
  {
    if symbol in c.prices && c.prices[symbol].price != 0.0 then c.prices[symbol].price
    else
      match FindIndex(catalogue, (x: Cryptocurrency) => x.symbol == symbol)
      case None => 0.0
      case Some(i) => catalogue[i].currentPrice
  }

  /** `getPriceChange(symbol)`: the live change whenever an update for the
      symbol was accepted, even a change of 0; otherwise the first catalogue
      entry's 24 h change (0 if there is none). */
  function PriceChange(c: Cache, catalogue: seq<Cryptocurrency>, symbol: string): (r: real)
    ensures symbol in c.prices ==> r == c.prices[symbol].change
    ensures symbol !in c.prices ==>
      match FindIndex(catalogue, (x: Cryptocurrency) => x.symbol == symbol)
      case None => r == 0.0
      case Some(i) => r == catalogue[i].priceChange24h && catalogue[i].symbol == symbol
  {
    if symbol in c.prices then c.prices[symbol].change
    else
      match FindIndex(catalogue, (x: Cryptocurrency) => x.symbol == symbol)
      case None => 0.0
      case Some(i) => catalogue[i].priceChange24h
  }

  /** The two lookups treat a live 0 differently: a live price of 0 falls back
      to the catalogue, a live change of 0 is reported as is. */
  lemma LiveZeroTreatedDifferently(c: Cache, catalogue: seq<Cryptocurrency>, u: PriceUpdate)
    requires u.symbol in c.prices && c.prices[u.symbol] == u && u.price == 0.0 && u.change == 0.0
    requires |catalogue| > 0 && catalogue[0].symbol == u.symbol
    ensures CurrentPrice(c, catalogue, u.symbol) == catalogue[0].currentPrice
    ensures PriceChange(c, catalogue, u.symbol) == 0.0
  {
  }
}
