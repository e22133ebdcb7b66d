/** The dashboard's shared market state: one store, created empty, filled
    with seed data on first use, moved one random-walk step per tick, merged
    with backend snapshots, and watched by a list of listeners. Listeners
    are identified by a number; calling them is not modelled. */
module MarketStore {
  import opened Common
  import opened LiveMarket

  datatype LiveMarketState = LiveMarketState(
    stocks: map<string, StockData>, indices: seq<MarketIndex>, sectors: seq<SectorData>,
    lastUpdated: real, isLive: bool)

  datatype NseDataStatus = NseDataStatus(lastFetchTime: Option<real>, status: NseFetchStatus, hasError: bool)

  type ListenerId = nat

  const IndexSeeds: seq<MarketIndex> := [
    MarketIndex("NIFTY 50", 25450.0, 120.3, 0.47, 25450.0, 22000.0, 29000.0),
    MarketIndex("BANK NIFTY", 60890.0, -85.4, -0.14, 60890.0, 54000.0, 68000.0),
    MarketIndex("SENSEX", 84200.0, 310.6, 0.37, 84200.0, 74000.0, 94000.0),
    MarketIndex("FINNIFTY", 23800.0, 45.8, 0.19, 23800.0, 20000.0, 27000.0),
    MarketIndex("INDIA VIX", 14.25, -0.35, -2.4, 14.25, 8.0, 35.0)]

  const SectorSeeds: seq<SectorData> := [
    SectorData("NIFTY IT", 1.2, 1.2),
    SectorData("NIFTY BANK", -0.3, -0.3),
    SectorData("NIFTY AUTO", 0.8, 0.8),
    SectorData("NIFTY PHARMA", 0.5, 0.5),
    SectorData("NIFTY FMCG", -0.1, -0.1),
    SectorData("NIFTY METAL", 1.5, 1.5),
    SectorData("NIFTY ENERGY", 0.3, 0.3),
    SectorData("NIFTY REALTY", -0.7, -0.7)]

  /** Every stock is filed under its own symbol and can be moved by a tick,
      and every index has its bounds in order. */
  predicate ValidMarket(m: LiveMarketState) {
    (forall sym :: sym in m.stocks ==> m.stocks[sym].symbol == sym && ValidStock(m.stocks[sym]))
    && forall k :: 0 <= k < |m.indices| ==> m.indices[k].minBound <= m.indices[k].maxBound
  }

  // ---- First use ------------------------------------------------------------

  predicate FreshInputs(symbols: seq<string>, draws: seq<InitDraws>) {
    |draws| == |symbols|
    && (forall i :: 0 <= i < |symbols| ==> symbols[i] != "")
    && forall i :: 0 <= i < |draws| ==> ValidInitDraws(draws[i])
  }

  /** The stocks of the first state: one fresh record per F&O symbol, filed
      in list order. */
  function InitStocks(symbols: seq<string>, draws: seq<InitDraws>): map<string, StockData>
    requires FreshInputs(symbols, draws)
  {
    if |symbols| == 0 then map[]
    else
      var n := |symbols| - 1;
      InitStocks(symbols[..n], draws[..n])[symbols[n] := InitStockData(symbols[n], None, draws[n])]
  }

  /** The first state files exactly the F&O symbols, each a fresh record of
      its own symbol that a tick can move. */
  lemma {:induction false} InitStocksFacts(symbols: seq<string>, draws: seq<InitDraws>)
    requires FreshInputs(symbols, draws)
    ensures InitStocks(symbols, draws).Keys == set i | 0 <= i < |symbols| :: symbols[i]
    ensures ValidMarket(LiveMarketState(InitStocks(symbols, draws), [], [], 0.0, true))
  {
    if |symbols| > 0 {
      var n := |symbols| - 1;
      InitStocksFacts(symbols[..n], draws[..n]);
      InitFresh(symbols[n], draws[n]);
      var prefix := set i | 0 <= i < n :: symbols[..n][i];
      assert prefix == set i | 0 <= i < n :: symbols[i] by {
        forall i | 0 <= i < n ensures symbols[..n][i] == symbols[i] { }
      }
      assert (set i | 0 <= i < |symbols| :: symbols[i]) == prefix + {symbols[n]};
    }
  }

  /** The state the store starts from on first use. */
  function InitialState(symbols: seq<string>, draws: seq<InitDraws>, now: real): LiveMarketState
    requires FreshInputs(symbols, draws)
  {
    LiveMarketState(InitStocks(symbols, draws), IndexSeeds, SectorSeeds, now, true)
  }

  lemma InitialStateValid(symbols: seq<string>, draws: seq<InitDraws>, now: real)
    requires FreshInputs(symbols, draws)
    ensures ValidMarket(InitialState(symbols, draws, now))
    ensures |InitialState(symbols, draws, now).indices| == 5
    ensures |InitialState(symbols, draws, now).sectors| == 8
  {
    InitStocksFacts(symbols, draws);
  }

  // ---- Tick -----------------------------------------------------------------

  ghost predicate TickDraws(walk: string -> WalkDraws) {
    forall sym :: ValidWalkDraws(walk(sym))
  }

  /** Every stock, index and sector moved one step. */
  function TickState(prev: LiveMarketState, walk: string -> WalkDraws, indexDraws: nat -> IndexDraws,
                     sectorDraws: nat -> real, now: real): LiveMarketState
    requires ValidMarket(prev) && TickDraws(walk)
  {
    LiveMarketState(
      map sym | sym in prev.stocks :: RandomWalk(prev.stocks[sym], walk(sym)),
      seq(|prev.indices|, k requires 0 <= k < |prev.indices| => RandomWalkIndex(prev.indices[k], indexDraws(k))),
      seq(|prev.sectors|, k requires 0 <= k < |prev.sectors| => RandomWalkSector(prev.sectors[k], sectorDraws(k))),
      now, true)
  }

  /** A tick keeps the set of stocks and the lists of indices and sectors,
      keeps every stock's price inside its day range and every index inside
      its bounds, and leaves a state the next tick can move. */
  lemma TickFacts(prev: LiveMarketState, walk: string -> WalkDraws, indexDraws: nat -> IndexDraws,
                  sectorDraws: nat -> real, now: real)
    requires ValidMarket(prev) && TickDraws(walk)
    ensures var next := TickState(prev, walk, indexDraws, sectorDraws, now);
            next.stocks.Keys == prev.stocks.Keys
            && |next.indices| == |prev.indices| && |next.sectors| == |prev.sectors|
            && (forall k :: 0 <= k < |next.indices| ==>
                  next.indices[k].name == prev.indices[k].name
                  && next.indices[k].minBound <= next.indices[k].value <= next.indices[k].maxBound)
            && (forall k :: 0 <= k < |next.sectors| ==> next.sectors[k].name == prev.sectors[k].name)
            && (forall sym :: sym in next.stocks ==> next.stocks[sym].prevLtp == prev.stocks[sym].ltp)
            && ValidMarket(next)
  {
    var next := TickState(prev, walk, indexDraws, sectorDraws, now);
    forall k | 0 <= k < |next.indices|
      ensures next.indices[k] == RandomWalkIndex(prev.indices[k], indexDraws(k))
      ensures next.indices[k].minBound <= next.indices[k].value <= next.indices[k].maxBound
    {
      assert prev.indices[k].minBound <= prev.indices[k].maxBound;
    }
    forall k | 0 <= k < |next.sectors|
      ensures next.sectors[k] == RandomWalkSector(prev.sectors[k], sectorDraws(k))
    {
    }
  }

  // ---- Snapshot merges ------------------------------------------------------

  predicate SnapshotInputs(snaps: seq<MarketSymbolData>, draws: seq<InitDraws>) {
    |draws| == |snaps|
    && (forall i :: 0 <= i < |snaps| ==> Accepted(snaps[i]) ==> SaneSnapshot(snaps[i]))
    && forall i :: 0 <= i < |draws| ==> ValidInitDraws(draws[i])
  }

  /** The stocks after merging `snaps` in order: every accepted snapshot
      replaces its symbol's record by one seeded from it. */
  function SeedStocks(stocks: map<string, StockData>, snaps: seq<MarketSymbolData>, draws: seq<InitDraws>)
    : map<string, StockData>
    requires |draws| == |snaps|
  {
    if |snaps| == 0 then stocks
    else
      var n := |snaps| - 1;
      var merged := SeedStocks(stocks, snaps[..n], draws[..n]);
      if Accepted(snaps[n]) then merged[snaps[n].symbol := InitStockData(snaps[n].symbol, Some(snaps[n]), draws[n])]
      else merged
  }

  /** The merge files the old symbols plus those of the accepted
      snapshots. */
  lemma {:induction false} SeedStocksKeys(stocks: map<string, StockData>, snaps: seq<MarketSymbolData>,
                                         draws: seq<InitDraws>)
    requires |draws| == |snaps|
    ensures SeedStocks(stocks, snaps, draws).Keys
            == stocks.Keys + set i | 0 <= i < |snaps| && Accepted(snaps[i]) :: snaps[i].symbol
  {
    if |snaps| > 0 {
      var n := |snaps| - 1;
      var s := snaps[..n];
      SeedStocksKeys(stocks, s, draws[..n]);
      var before := set i | 0 <= i < n && Accepted(s[i]) :: s[i].symbol;
      assert before == set i | 0 <= i < n && Accepted(snaps[i]) :: snaps[i].symbol by {
        forall i | 0 <= i < n ensures s[i] == snaps[i] { }
      }
      if Accepted(snaps[n]) {
        assert (set i | 0 <= i < |snaps| && Accepted(snaps[i]) :: snaps[i].symbol) == before + {snaps[n].symbol};
      } else {
        assert (set i | 0 <= i < |snaps| && Accepted(snaps[i]) :: snaps[i].symbol) == before;
      }
    }
  }

  /** A symbol that no accepted snapshot names keeps its record. */
  lemma {:induction false} SeedStocksUntouched(stocks: map<string, StockData>, snaps: seq<MarketSymbolData>,
                                              draws: seq<InitDraws>, sym: string)
    requires |draws| == |snaps| && sym in stocks
    requires forall i :: 0 <= i < |snaps| && Accepted(snaps[i]) ==> snaps[i].symbol != sym
    ensures sym in SeedStocks(stocks, snaps, draws)
    ensures SeedStocks(stocks, snaps, draws)[sym] == stocks[sym]
  {
    if |snaps| > 0 {
      var n := |snaps| - 1;
      var s := snaps[..n];
      forall i | 0 <= i < n && Accepted(s[i]) ensures s[i].symbol != sym {
        assert s[i] == snaps[i];
      }
      SeedStocksUntouched(stocks, s, draws[..n], sym);
    }
  }

  /** A symbol's last accepted snapshot decides its new record. */
  lemma {:induction false} SeedStocksLastWins(stocks: map<string, StockData>, snaps: seq<MarketSymbolData>,
                                             draws: seq<InitDraws>, i: nat)
    requires |draws| == |snaps| && i < |snaps| && Accepted(snaps[i])
    requires forall j :: i < j < |snaps| && Accepted(snaps[j]) ==> snaps[j].symbol != snaps[i].symbol
    ensures snaps[i].symbol in SeedStocks(stocks, snaps, draws)
    ensures SeedStocks(stocks, snaps, draws)[snaps[i].symbol]
            == InitStockData(snaps[i].symbol, Some(snaps[i]), draws[i])
  {
    var n := |snaps| - 1;
    if i < n {
      var s, d := snaps[..n], draws[..n];
      assert s[i] == snaps[i] && d[i] == draws[i];
      forall j | i < j < n && Accepted(s[j]) ensures s[j].symbol != s[i].symbol {
        assert s[j] == snaps[j];
      }
      SeedStocksLastWins(stocks, s, d, i);
    }
  }

  /** Merging sane snapshots keeps every record filed under its own symbol
      and movable by a tick. */
  lemma {:induction false} SeedStocksValid(m: LiveMarketState, snaps: seq<MarketSymbolData>, draws: seq<InitDraws>)
    requires ValidMarket(m) && SnapshotInputs(snaps, draws)
    ensures ValidMarket(m.(stocks := SeedStocks(m.stocks, snaps, draws)))
  {
    if |snaps| > 0 {
      var n := |snaps| - 1;
      assert SnapshotInputs(snaps[..n], draws[..n]);
      SeedStocksValid(m, snaps[..n], draws[..n]);
      if Accepted(snaps[n]) {
        InitFromSnapshot(snaps[n].symbol, snaps[n], draws[n]);
      }
    }
  }

  /** The indices after merging an indices snapshot: the same indices in the
      same order, each merged with the first snapshot of its name. */
  function MergeIndices(indices: seq<MarketIndex>, data: seq<IndexSnapshot>): (r: seq<MarketIndex>)
    ensures |r| == |indices|
    ensures forall k :: 0 <= k < |r| ==> r[k] == MergeIndex(indices[k], data)
  {
    seq(|indices|, k requires 0 <= k < |indices| => MergeIndex(indices[k], data))
  }

  /** Merged indices keep their names and bounds, so a valid market stays
      valid. */
  lemma MergeIndicesValid(m: LiveMarketState, data: seq<IndexSnapshot>)
    requires ValidMarket(m)
    ensures ValidMarket(m.(indices := MergeIndices(m.indices, data)))
    ensures forall k :: 0 <= k < |m.indices| ==> MergeIndices(m.indices, data)[k].name == m.indices[k].name
  {
    forall k | 0 <= k < |m.indices|
      ensures MergeIndices(m.indices, data)[k].name == m.indices[k].name
      ensures MergeIndices(m.indices, data)[k].minBound == m.indices[k].minBound
      ensures MergeIndices(m.indices, data)[k].maxBound == m.indices[k].maxBound
    {
      MergeIndexFacts(m.indices[k], data);
    }
  }

  // ---- Listeners ------------------------------------------------------------

  /** `listeners` without every occurrence of `fn`, in order. */
  function Without(listeners: seq<ListenerId>, fn: ListenerId): (r: seq<ListenerId>)
    ensures |r| <= |listeners|
  {
    if |listeners| == 0 then []
    else if listeners[0] == fn then Without(listeners[1..], fn)
    else [listeners[0]] + Without(listeners[1..], fn)
  }

  /** Removing a listener drops exactly its occurrences: every other
      listener keeps its number of registrations. */
  lemma {:induction false} WithoutFacts(listeners: seq<ListenerId>, fn: ListenerId)
    ensures fn !in Without(listeners, fn)
    ensures multiset(Without(listeners, fn)) == multiset(listeners)[fn := 0]
  {
    if |listeners| > 0 {
      var x: ListenerId := listeners[0];
      var rest: seq<ListenerId> := listeners[1..];
      WithoutFacts(rest, fn);
      assert listeners == [x] + rest;
      assert multiset(listeners) == multiset(rest) + multiset([x]);
      if x != fn {
        assert Without(listeners, fn) == [x] + Without(rest, fn);
        var others: multiset<ListenerId> := multiset(rest)[fn := 0];
        assert multiset(Without(listeners, fn)) == others + multiset([x]);
      }
    }
  }

  /** The filter keeps the remaining listeners in their registration order:
      filtering a concatenation filters each part. */
  lemma {:induction false} WithoutAppend(a: seq<ListenerId>, b: seq<ListenerId>, fn: ListenerId)
    ensures Without(a + b, fn) == Without(a, fn) + Without(b, fn)
  {
    if |a| > 0 {
      WithoutAppend(a[1..], b, fn);
      assert (a + b)[0] == a[0];
      assert (a + b)[1..] == a[1..] + b;
    } else {
      assert a + b == b;
    }
  }

  /** Removing a listener that is not registered changes nothing. */
  lemma {:induction false} WithoutAbsent(listeners: seq<ListenerId>, fn: ListenerId)
    requires fn !in listeners
    ensures Without(listeners, fn) == listeners
  {
    if |listeners| > 0 {
      WithoutAbsent(listeners[1..], fn);
      assert listeners == [listeners[0]] + listeners[1..];
    }
  }

  /** Unsubscribing a listener right after its first subscription restores
      the list. */
  lemma {:induction false} UnsubscribeUndoesSubscribe(listeners: seq<ListenerId>, fn: ListenerId)
    requires fn !in listeners
    ensures Without(listeners + [fn], fn) == listeners
  {
    if |listeners| == 0 {
      assert listeners + [fn] == [fn];
    } else {
      assert (listeners + [fn])[1..] == listeners[1..] + [fn];
      UnsubscribeUndoesSubscribe(listeners[1..], fn);
      assert listeners == [listeners[0]] + listeners[1..];
    }
  }

  // ---- The store ------------------------------------------------------------

  class Store {
    var state: Option<LiveMarketState>
    var listeners: seq<ListenerId>
    var intervalActive: bool
    var nseStatus: NseDataStatus

    predicate Valid()
      reads this
    {
      state.Some? ==> ValidMarket(state.value)
    }

    constructor()
      ensures state.None? && listeners == [] && !intervalActive
      ensures nseStatus == NseDataStatus(None, Offline, false)
      ensures Valid()
    {
      state := None;
      listeners := [];
      intervalActive := false;
      nseStatus := NseDataStatus(None, Offline, false);
    }

    /** The current state, built from the F&O symbols and seed data on first
        use. */
    method GetState(symbols: seq<string>, draws: seq<InitDraws>, now: real) returns (s: LiveMarketState)
      requires Valid() && FreshInputs(symbols, draws)
      modifies this
      ensures Valid() && state == Some(s)
      ensures old(state).Some? ==> s == old(state).value
      ensures old(state).None? ==> s == InitialState(symbols, draws, now)
      ensures listeners == old(listeners) && intervalActive == old(intervalActive)
      ensures nseStatus == old(nseStatus)
    {
      if state.None? {
        var stocks: map<string, StockData> := map[];
        var i := 0;
        while i < |symbols|
          invariant 0 <= i <= |symbols|
          invariant FreshInputs(symbols[..i], draws[..i])
          invariant stocks == InitStocks(symbols[..i], draws[..i])
        {
          assert symbols[..i + 1][..i] == symbols[..i];
          assert draws[..i + 1][..i] == draws[..i];
          stocks := stocks[symbols[i] := InitStockData(symbols[i], None, draws[i])];
          i := i + 1;
        }
        assert symbols[..i] == symbols && draws[..i] == draws;
        InitialStateValid(symbols, draws, now);
        state := Some(LiveMarketState(stocks, IndexSeeds, SectorSeeds, now, true));
      }
      s := state.value;
    }

    /** One second of simulated market: every stock, index and sector moves
        one step. */
    method Tick(symbols: seq<string>, draws: seq<InitDraws>, walk: string -> WalkDraws,
                indexDraws: nat -> IndexDraws, sectorDraws: nat -> real, now: real)
      requires Valid() && FreshInputs(symbols, draws) && TickDraws(walk)
      modifies this
      ensures Valid()
      ensures var prev := if old(state).Some? then old(state).value else InitialState(symbols, draws, now);
              ValidMarket(prev) && state == Some(TickState(prev, walk, indexDraws, sectorDraws, now))
      ensures listeners == old(listeners) && intervalActive == old(intervalActive)
      ensures nseStatus == old(nseStatus)
    {
      var prev := GetState(symbols, draws, now);
      TickFacts(prev, walk, indexDraws, sectorDraws, now);
      state := Some(TickState(prev, walk, indexDraws, sectorDraws, now));
    }

    /** Merges a market snapshot: each accepted snapshot, in order, replaces
        its symbol's record. */
    method SeedFromSnapshot(snaps: seq<MarketSymbolData>, snapDraws: seq<InitDraws>,
                            symbols: seq<string>, draws: seq<InitDraws>, now: real)
      requires Valid() && FreshInputs(symbols, draws) && SnapshotInputs(snaps, snapDraws)
      modifies this
      ensures Valid()
      ensures var prev := if old(state).Some? then old(state).value else InitialState(symbols, draws, now);
              state == Some(prev.(stocks := SeedStocks(prev.stocks, snaps, snapDraws), lastUpdated := now))
      ensures listeners == old(listeners) && intervalActive == old(intervalActive)
      ensures nseStatus == old(nseStatus)
    {
      var prev := GetState(symbols, draws, now);
      var stocks := prev.stocks;
      var i := 0;
      while i < |snaps|
        invariant 0 <= i <= |snaps|
        invariant stocks == SeedStocks(prev.stocks, snaps[..i], snapDraws[..i])
      {
        assert snaps[..i + 1][..i] == snaps[..i];
        assert snapDraws[..i + 1][..i] == snapDraws[..i];
        if Accepted(snaps[i]) {
          stocks := stocks[snaps[i].symbol := InitStockData(snaps[i].symbol, Some(snaps[i]), snapDraws[i])];
        }
        i := i + 1;
      }
      assert snaps[..i] == snaps && snapDraws[..i] == snapDraws;
      SeedStocksValid(prev, snaps, snapDraws);
      state := Some(prev.(stocks := stocks, lastUpdated := now));
    }

    /** Merges an indices snapshot; an empty one changes nothing beyond the
        first-use initialisation. */
    method SeedIndicesFromSnapshot(data: seq<IndexSnapshot>, symbols: seq<string>, draws: seq<InitDraws>,
                                   now: real)
      requires Valid() && FreshInputs(symbols, draws)
      modifies this
      ensures Valid()
      ensures var prev := if old(state).Some? then old(state).value else InitialState(symbols, draws, now);
              state == if |data| == 0 then Some(prev)
                       else Some(prev.(indices := MergeIndices(prev.indices, data), lastUpdated := now))
      ensures listeners == old(listeners) && intervalActive == old(intervalActive)
      ensures nseStatus == old(nseStatus)
    {
      var prev := GetState(symbols, draws, now);
      if |data| == 0 {
        return;
      }
      MergeIndicesValid(prev, data);
      state := Some(prev.(indices := MergeIndices(prev.indices, data), lastUpdated := now));
    }

    /** Registers a listener at the end of the list. */
    method Subscribe(fn: ListenerId)
      modifies this
      ensures listeners == old(listeners) + [fn]
      ensures state == old(state) && intervalActive == old(intervalActive) && nseStatus == old(nseStatus)
    {
      listeners := listeners + [fn];
    }

    /** What the closure `subscribe` returns does: drops every registration
        of that listener and keeps the others in order. */
    method Unsubscribe(fn: ListenerId)
      modifies this
      ensures listeners == Without(old(listeners), fn)
      ensures state == old(state) && intervalActive == old(intervalActive) && nseStatus == old(nseStatus)
    {
      listeners := Without(listeners, fn);
    }

    /** Starts the one-second tick unless it is already running. */
    method StartInterval()
      modifies this
      ensures intervalActive
      ensures state == old(state) && listeners == old(listeners) && nseStatus == old(nseStatus)
    {
      if intervalActive {
        return;
      }
      intervalActive := true;
    }

    /** Records a new fetch status. */
    method NotifyNseStatus(status: NseDataStatus)
      modifies this
      ensures nseStatus == status
      ensures state == old(state) && listeners == old(listeners) && intervalActive == old(intervalActive)
    {
      nseStatus := status;
    }
  }
}
