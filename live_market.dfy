/** The simulated live market: the records the dashboard keeps per stock,
    index and sector, the one-second random-walk step of each, the record a
    stock starts from (fresh or from a backend snapshot), and the freshness
    classification of the last backend fetch. `Math.random()` draws are
    parameters in [0, 1); times are milliseconds passed in. */
module LiveMarket {
  import opened Common

  datatype StockData = StockData(
    symbol: string, ltp: real, open: real, high: real, low: real, close: real,
    changePercent: real, volume: int, vwap: real, oi: int, deltaOi: int, iv: real,
    prevLtp: real, cumulativePv: real, cumulativeVol: int)

  datatype MarketIndex = MarketIndex(
    name: string, value: real, change: real, changePercent: real, prevValue: real,
    minBound: real, maxBound: real)

  datatype SectorData = SectorData(name: string, changePercent: real, prevChangePercent: real)

  /** A stock as the backend's market snapshot reports it. */
  datatype MarketSymbolData = MarketSymbolData(
    oi: int, lastPrice: real, volume: int, changePercent: real, symbol: string)

  /** An index as the backend's indices snapshot reports it. */
  datatype IndexSnapshot = IndexSnapshot(
    name: string, lastPrice: real, changePercent: real, volume: int, oi: int)

  /** A stock the tick can move: a positive open to measure the change
      against, a non-negative traded volume, the last price inside the
      day's range, non-negative open interest and volatility of at least 5. */
  predicate ValidStock(s: StockData) {
    s.open > 0.0 && s.cumulativeVol >= 0 && s.low <= s.ltp <= s.high && s.oi >= 0 && s.iv >= 5.0
  }

  // ---- Seeding -------------------------------------------------------------

  /** The listed fallback price of an F&O stock, if it has one. */
  function BasePrice(symbol: string): (p: Option<real>)
    ensures p.Some? ==> p.value >= 165.0
  {
    match symbol
    case "RELIANCE" => Some(1280.0)
    case "TCS" => Some(3920.0)
    case "INFY" => Some(1780.0)
    case "HDFCBANK" => Some(1650.0)
    case "ICICIBANK" => Some(1120.0)
    case "SBIN" => Some(780.0)
    case "WIPRO" => Some(520.0)
    case "AXISBANK" => Some(1180.0)
    case "KOTAKBANK" => Some(1820.0)
    case "LT" => Some(3450.0)
    case "BAJFINANCE" => Some(7200.0)
    case "MARUTI" => Some(12500.0)
    case "TITAN" => Some(3600.0)
    case "SUNPHARMA" => Some(1680.0)
    case "ULTRACEMCO" => Some(9800.0)
    case "NESTLEIND" => Some(2450.0)
    case "POWERGRID" => Some(320.0)
    case "NTPC" => Some(380.0)
    case "ONGC" => Some(280.0)
    case "COALINDIA" => Some(450.0)
    case "ADANIENT" => Some(2800.0)
    case "ADANIPORTS" => Some(1350.0)
    case "TATAMOTORS" => Some(980.0)
    case "TATASTEEL" => Some(165.0)
    case "JSWSTEEL" => Some(920.0)
    case "HINDALCO" => Some(680.0)
    case "VEDL" => Some(450.0)
    case "GRASIM" => Some(2400.0)
    case "ASIANPAINT" => Some(3200.0)
    case "BAJAJFINSV" => Some(1680.0)
    case "HCLTECH" => Some(1580.0)
    case "TECHM" => Some(1680.0)
    case "DIVISLAB" => Some(5200.0)
    case "DRREDDY" => Some(6800.0)
    case "CIPLA" => Some(1580.0)
    case "EICHERMOT" => Some(4800.0)
    case "HEROMOTOCO" => Some(5200.0)
    case "APOLLOHOSP" => Some(7200.0)
    case "BRITANNIA" => Some(5800.0)
    case "DABUR" => Some(620.0)
    case "GODREJCP" => Some(1380.0)
    case "HINDUNILVR" => Some(2680.0)
    case "ITC" => Some(480.0)
    case "MARICO" => Some(680.0)
    case "PIDILITIND" => Some(3200.0)
    case "BERGEPAINT" => Some(580.0)
    case "COLPAL" => Some(3200.0)
    case "EMAMILTD" => Some(780.0)
    case "TATACONSUM" => Some(1180.0)
    case "UBL" => Some(1980.0)
    case _ => None
  }

  /** The starting price of a stock with no snapshot: its listed base price,
      or one made up from its first character and a draw. */
  function SeedPrice(symbol: string, draw: real): (p: real)
    requires symbol != ""
    ensures BasePrice(symbol).Some? ==> p == BasePrice(symbol).value
    ensures BasePrice(symbol).None? && Unit(draw) ==> 100.0 <= p < 1580.0
    ensures Unit(draw) ==> p >= 100.0
  {
    match BasePrice(symbol)
    case Some(base) => base
    case None => 100.0 + ((symbol[0] as int) % 50) as real * 20.0 + draw * 500.0
  }

  /** The draws `initStockData` may consume, in call order; the ones for the
      price, volume, open interest and change are unused when a snapshot
      supplies them. */
  datatype InitDraws = InitDraws(
    seed: real, open: real, high: real, low: real, volume: real, oi: real,
    close: real, changePercent: real, vwap: real, deltaOi: real, iv: real)

  predicate ValidInitDraws(d: InitDraws) {
    Unit(d.seed) && Unit(d.open) && Unit(d.high) && Unit(d.low) && Unit(d.volume) && Unit(d.oi)
    && Unit(d.close) && Unit(d.changePercent) && Unit(d.vwap) && Unit(d.deltaOi) && Unit(d.iv)
  }

  /** The record a stock starts from: around the snapshot's last price when
      there is one, around its seed price otherwise. */
  function InitStockData(symbol: string, snapshot: Option<MarketSymbolData>, d: InitDraws): StockData
    requires snapshot.None? ==> symbol != ""
  {
    match snapshot
    case Some(snap) => StockAround(symbol, snap.lastPrice, snap.volume, snap.oi, snap.changePercent, d)
    case None =>
      StockAround(symbol, SeedPrice(symbol, d.seed), Floor(50000.0 + d.volume * 500000.0),
                  Floor(100000.0 + d.oi * 2000000.0), (d.changePercent - 0.5) * 4.0, d)
  }

  /** A stock record drawn around `base`, with the given volume, open
      interest and change. */
  function StockAround(symbol: string, base: real, vol: int, oi: int, changePercent: real, d: InitDraws): StockData {
    StockData(
      symbol, base,
      base * (1.0 + (d.open - 0.5) * 0.01),
      base * (1.0 + d.high * 0.015),
      base * (1.0 - d.low * 0.015),
      base * (1.0 + (d.close - 0.5) * 0.005),
      changePercent,
      vol,
      base * (1.0 + (d.vwap - 0.5) * 0.003),
      oi,
      Floor((d.deltaOi - 0.5) * 10000.0),
      15.0 + d.iv * 30.0,
      base, base * vol as real, vol)
  }

  /** A record drawn around a positive price with non-negative counts is
      one the tick can move, and has not moved yet. */
  lemma StockAroundFacts(symbol: string, base: real, vol: int, oi: int, changePercent: real, d: InitDraws)
    requires base > 0.0 && vol >= 0 && oi >= 0 && ValidInitDraws(d)
    ensures var r := StockAround(symbol, base, vol, oi, changePercent, d);
            r.symbol == symbol && r.prevLtp == r.ltp == base && r.volume == r.cumulativeVol == vol
            && r.oi == oi && r.changePercent == changePercent
            && r.cumulativePv == r.ltp * r.cumulativeVol as real
            && ValidStock(r)
  {
    InitRange(base, d);
  }

  /** A snapshot with a positive price and non-negative counts. */
  predicate SaneSnapshot(s: MarketSymbolData) {
    s.lastPrice > 0.0 && s.volume >= 0 && s.oi >= 0
  }

  /** A stock seeded from a snapshot is keyed by its symbol, has not moved
      yet, carries the snapshot's price, open interest, volume and change
      verbatim, and is a stock the tick can move. */
  lemma InitFromSnapshot(symbol: string, snapshot: MarketSymbolData, d: InitDraws)
    requires SaneSnapshot(snapshot) && ValidInitDraws(d)
    ensures var r := InitStockData(symbol, Some(snapshot), d);
            r.symbol == symbol && r.prevLtp == r.ltp == snapshot.lastPrice
            && r.oi == snapshot.oi && r.volume == r.cumulativeVol == snapshot.volume
            && r.changePercent == snapshot.changePercent
            && r.cumulativePv == r.ltp * r.cumulativeVol as real
            && ValidStock(r)
  {
    StockAroundFacts(symbol, snapshot.lastPrice, snapshot.volume, snapshot.oi, snapshot.changePercent, d);
  }

  /** A stock started without a snapshot is keyed by its symbol, has not
      moved yet, starts at its seed price with volume and open interest in
      the ranges their draws allow, and is a stock the tick can move. */
  lemma InitFresh(symbol: string, d: InitDraws)
    requires symbol != "" && ValidInitDraws(d)
    ensures var r := InitStockData(symbol, None, d);
            r.symbol == symbol && r.prevLtp == r.ltp == SeedPrice(symbol, d.seed)
            && 50000 <= r.volume < 550000 && r.volume == r.cumulativeVol
            && 100000 <= r.oi < 2100000
            && ValidStock(r)
  {
    StockAroundFacts(symbol, SeedPrice(symbol, d.seed), Floor(50000.0 + d.volume * 500000.0),
                     Floor(100000.0 + d.oi * 2000000.0), (d.changePercent - 0.5) * 4.0, d);
  }

  /** A positive base price lies inside the range drawn around it. */
  lemma InitRange(base: real, d: InitDraws)
    requires base > 0.0 && ValidInitDraws(d)
    ensures base * (1.0 - d.low * 0.015) <= base <= base * (1.0 + d.high * 0.015)
    ensures base * (1.0 + (d.open - 0.5) * 0.01) > 0.0
  {
    MulLe(1.0 - d.low * 0.015, 1.0, base);
    MulLe(1.0, 1.0 + d.high * 0.015, base);
    MulLt(0.0, 1.0 + (d.open - 0.5) * 0.01, base);
  }

  // ---- One tick ------------------------------------------------------------

  /** The draws one stock's step consumes, in call order. */
  datatype WalkDraws = WalkDraws(change: real, volume: real, oi: real, iv: real)

  predicate ValidWalkDraws(d: WalkDraws) {
    Unit(d.change) && Unit(d.volume) && Unit(d.oi) && Unit(d.iv)
  }

  /** One step of a stock: the price moves by under 0.2%, the day's range
      widens to include it, at least 100 shares trade at the new price and
      the VWAP is recomputed from the running totals. */
  function RandomWalk(stock: StockData, d: WalkDraws): (r: StockData)
    requires ValidStock(stock) && ValidWalkDraws(d)
    ensures r.high >= stock.high && r.high >= r.ltp
    ensures r.low <= stock.low && r.low <= r.ltp
    ensures r.volume - stock.volume == r.cumulativeVol - stock.cumulativeVol >= 100
    ensures r.cumulativePv == stock.cumulativePv + r.ltp * (r.cumulativeVol - stock.cumulativeVol) as real
    ensures r.cumulativeVol > 0 && r.vwap * r.cumulativeVol as real == r.cumulativePv
    ensures r.oi >= 0 && r.deltaOi == r.oi - stock.oi
    ensures r.iv >= 5.0
    ensures r.prevLtp == stock.ltp
    ensures r.symbol == stock.symbol && r.open == stock.open && r.close == stock.close
    ensures ValidStock(r)
  {
    var newLtp := stock.ltp * (1.0 + (d.change - 0.5) * 0.004);
    var addVol := Floor(100.0 + d.volume * 2000.0);
    var newCumPv := stock.cumulativePv + newLtp * addVol as real;
    var newCumVol := stock.cumulativeVol + addVol;
    var newOi := if stock.oi + Floor((d.oi - 0.5) * 5000.0) > 0 then stock.oi + Floor((d.oi - 0.5) * 5000.0) else 0;
    stock.(
      prevLtp := stock.ltp,
      ltp := newLtp,
      high := Max(stock.high, newLtp),
      low := Min(stock.low, newLtp),
      changePercent := (newLtp - stock.open) / stock.open * 100.0,
      volume := stock.volume + addVol,
      vwap := newCumPv / newCumVol as real,
      oi := newOi,
      deltaOi := newOi - stock.oi,
      iv := Max(5.0, stock.iv + (d.iv - 0.5) * 0.5),
      cumulativePv := newCumPv,
      cumulativeVol := newCumVol)
  }

  /** The draws one index's step consumes, in call order. */
  datatype IndexDraws = IndexDraws(value: real, change: real, changePercent: real)

  /** One step of an index: the value moves by under 0.1% and is clamped
      into the index's bounds (to the lower bound when they cross). */
  function RandomWalkIndex(idx: MarketIndex, d: IndexDraws): (r: MarketIndex)
    ensures r.value >= idx.minBound
    ensures idx.minBound <= idx.maxBound ==> r.value <= idx.maxBound
    ensures idx.minBound <= idx.value * (1.0 + (d.value - 0.5) * 0.002) <= idx.maxBound ==>
              r.value == idx.value * (1.0 + (d.value - 0.5) * 0.002)
    ensures r.prevValue == idx.value
    ensures r.name == idx.name && r.minBound == idx.minBound && r.maxBound == idx.maxBound
  {
    var newValue := Max(idx.minBound, Min(idx.maxBound, idx.value * (1.0 + (d.value - 0.5) * 0.002)));
    idx.(
      prevValue := idx.value,
      value := newValue,
      change := idx.change + (d.change - 0.5) * 5.0,
      changePercent := idx.changePercent + (d.changePercent - 0.5) * 0.05)
  }

  /** One step of a sector: its change moves by less than 0.05 and the
      previous change is kept. */
  function RandomWalkSector(s: SectorData, draw: real): (r: SectorData)
    ensures r.prevChangePercent == s.changePercent
    ensures Unit(draw) ==> -0.05 <= r.changePercent - s.changePercent < 0.05
    ensures r.name == s.name
  {
    s.(prevChangePercent := s.changePercent, changePercent := s.changePercent + (draw - 0.5) * 0.1)
  }

  // ---- Merging backend snapshots -------------------------------------------

  /** Snapshots the merge skips: those without a symbol and the raw-payload
      marker. */
  predicate Accepted(s: MarketSymbolData) {
    s.symbol != "" && s.symbol != "RAW_JSON"
  }

  /** The first index snapshot named `name`, as `Array.prototype.find`. */
  function FindIndex(data: seq<IndexSnapshot>, name: string): (r: Option<IndexSnapshot>)
    ensures r.None? <==> forall i :: 0 <= i < |data| ==> data[i].name != name
    ensures r.Some? ==> exists i :: 0 <= i < |data| && data[i] == r.value && data[i].name == name
                          && forall j :: 0 <= j < i ==> data[j].name != name
  {
    if |data| == 0 then None
    else if data[0].name == name then Some(data[0])
    else
      var r := FindIndex(data[1..], name);
      if r.Some? then
        var i :| 0 <= i < |data[1..]| && data[1..][i] == r.value && data[1..][i].name == name
                 && forall j :: 0 <= j < i ==> data[1..][j].name != name;
        assert data[i + 1] == r.value;
        r
      else r
  }

  /** An index after the merge: unchanged without a matching snapshot,
      otherwise moved to the snapshot's price and change. */
  function MergeIndex(idx: MarketIndex, data: seq<IndexSnapshot>): MarketIndex {
    var live := FindIndex(data, idx.name);
    if live.None? then idx
    else
      idx.(
        prevValue := idx.value,
        value := live.value.lastPrice,
        change := live.value.lastPrice * live.value.changePercent / 100.0,
        changePercent := live.value.changePercent)
  }

  /** The merge keeps every index's name and bounds; an index with no
      snapshot of its name is untouched, and one with a snapshot takes the
      first such snapshot's price, with the absolute change worked out from
      the percentage and the old value kept as the previous one. */
  lemma MergeIndexFacts(idx: MarketIndex, data: seq<IndexSnapshot>)
    ensures var r := MergeIndex(idx, data);
            r.name == idx.name && r.minBound == idx.minBound && r.maxBound == idx.maxBound
            && ((forall i :: 0 <= i < |data| ==> data[i].name != idx.name) ==> r == idx)
            && (forall i :: (0 <= i < |data| && data[i].name == idx.name
                               && forall j :: 0 <= j < i ==> data[j].name != idx.name) ==>
                  r.prevValue == idx.value && r.value == data[i].lastPrice
                  && r.changePercent == data[i].changePercent
                  && r.change * 100.0 == data[i].lastPrice * data[i].changePercent)
  {
    var live := FindIndex(data, idx.name);
    if live.Some? {
      var k :| 0 <= k < |data| && data[k] == live.value && data[k].name == idx.name
               && forall j :: 0 <= j < k ==> data[j].name != idx.name;
      forall i | 0 <= i < |data| && data[i].name == idx.name
                 && (forall j :: 0 <= j < i ==> data[j].name != idx.name)
        ensures data[i] == live.value
      {
      }
    }
  }

  // ---- Freshness -----------------------------------------------------------

  datatype NseFetchStatus = Live | Delayed | Offline

  /** The freshness of backend data fetched at `lastFetch` (if ever), seen
      at `now`, both in milliseconds. */
  function ComputeNseStatus(lastFetch: Option<real>, hasError: bool, now: real): (r: NseFetchStatus)
    ensures lastFetch.None? || hasError ==> r == Offline
    ensures r == Live <==> lastFetch.Some? && !hasError && (now - lastFetch.value) / 1000.0 <= 15.0
    ensures r == Delayed <==> lastFetch.Some? && !hasError && 15.0 < (now - lastFetch.value) / 1000.0 <= 60.0
  {
    if lastFetch.None? || hasError then Offline
    else
      var secondsAgo := (now - lastFetch.value) / 1000.0;
      if secondsAgo <= 15.0 then Live
      else if secondsAgo <= 60.0 then Delayed
      else Offline
  }

  function Freshness(s: NseFetchStatus): nat {
    match s
    case Live => 2
    case Delayed => 1
    case Offline => 0
  }

  /** Data only goes stale: seen later, the same fetch is never fresher. */
  lemma StatusOnlyDegrades(lastFetch: Option<real>, hasError: bool, now: real, later: real)
    requires now <= later
    ensures Freshness(ComputeNseStatus(lastFetch, hasError, later))
            <= Freshness(ComputeNseStatus(lastFetch, hasError, now))
  {
  }
}
