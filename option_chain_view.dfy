/** The option-chain screen: a 21-strike chain, either simulated around the
    nearest fifty or built around the backend's ATM strike with that row
    seeded from backend data, and the strike with the largest change in
    open interest on each side. `Math.random()` draws and `Math.exp` are
    parameters. */
module OptionChainView {
  import opened Common

  /** The tag of a move in open interest against a move in premium; an
      unchanged premium counts as a rise. */
  function GetScenario(doi: int, ltp: real, prevLtp: real): (s: string)
    ensures s == "Long Build Up" <==> doi > 0 && ltp >= prevLtp
    ensures s == "Long Unwinding" <==> doi < 0 && ltp < prevLtp
    ensures s == "Short Build Up" <==> doi > 0 && ltp < prevLtp
    ensures s == "Short Covering" <==> doi < 0 && ltp >= prevLtp
    ensures s == "Neutral" <==> doi == 0
  {
    var priceUp := ltp >= prevLtp;
    if doi > 0 && priceUp then "Long Build Up"
    else if doi < 0 && !priceUp then "Long Unwinding"
    else if doi > 0 && !priceUp then "Short Build Up"
    else if doi < 0 && priceUp then "Short Covering"
    else "Neutral"
  }

  /** The three colour classes a scenario badge can take. */
  datatype Style = Success | Destructive | Muted

  function ScenarioColor(scenario: string): (st: Style)
    ensures st == Success <==> scenario == "Long Build Up" || scenario == "Short Covering"
    ensures st == Destructive <==> scenario == "Short Build Up" || scenario == "Long Unwinding"
  {
    match scenario
    case "Long Build Up" => Success
    case "Short Covering" => Success
    case "Short Build Up" => Destructive
    case "Long Unwinding" => Destructive
    case _ => Muted
  }

  /** The badge colour of a tagged move depends only on the premium's
      direction, and is muted exactly when open interest did not move. */
  lemma ColorFollowsPrice(doi: int, ltp: real, prevLtp: real)
    ensures ScenarioColor(GetScenario(doi, ltp, prevLtp)) == Success <==> doi != 0 && ltp >= prevLtp
    ensures ScenarioColor(GetScenario(doi, ltp, prevLtp)) == Destructive <==> doi != 0 && ltp < prevLtp
    ensures ScenarioColor(GetScenario(doi, ltp, prevLtp)) == Muted <==> doi == 0
  {
  }

  /** One side (call or put) of a strike. */
  datatype Side = Side(ltp: real, oi: int, doi: int, iv: real, vwap: real, volume: int, scenario: string)

  datatype OptionData = OptionData(strike: real, ce: Side, pe: Side, isAtm: bool)

  /** The fourteen `Math.random()` draws a synthesised row consumes, in call
      order; a seeded row consumes two and reads them from `ceVol` and
      `peVol`. */
  datatype RowDraws = RowDraws(
    ceOi: real, peOi: real, ceDoi: real, peDoi: real, ceIv: real, peIv: real,
    ceLtp: real, peLtp: real, ceVwap: real, ceVol: real, ceScen: real,
    peVwap: real, peVol: real, peScen: real)

  /** The constants that differ between the simulated chain and the
      synthesised rows of a backend chain. */
  datatype Scale = Scale(oiBase: real, oiNoise: real, doiSpan: real, ltpNoise: real, volSpan: real)

  const SimScale := Scale(500000.0, 50000.0, 20000.0, 50.0, 100000.0)
  const BackendScale := Scale(300000.0, 30000.0, 15000.0, 30.0, 80000.0)

  /** Relative distance of `strike` from the spot price. */
  function Diff(strike: real, spot: real): real
    requires spot > 0.0
  {
    Abs(strike - spot) / spot
  }

  function SynthSide(intrinsic: real, diff: real, ivBase: real, sc: Scale, exp: real -> real,
                     oiDraw: real, doiDraw: real, ivDraw: real, ltpDraw: real,
                     vwapDraw: real, volDraw: real, scenDraw: real): Side
  {
    var oi := Floor(sc.oiBase * exp(-diff * 20.0) + oiDraw * sc.oiNoise);
    var doi := Floor((doiDraw - 0.5) * sc.doiSpan);
    var ltp := Max(0.05, intrinsic + ltpDraw * sc.ltpNoise);
    Side(ltp, oi, doi, ivBase + diff * 100.0 + ivDraw * 2.0,
         ltp * (1.0 + (vwapDraw - 0.5) * 0.02), Floor(volDraw * sc.volSpan),
         GetScenario(doi, ltp, ltp * (1.0 + (scenDraw - 0.5) * 0.01)))
  }

  /** A row made up from noise: each premium is its intrinsic value plus
      noise, floored at 0.05. */
  function SynthRow(strike: real, spot: real, ivBase: real, sc: Scale, d: RowDraws,
                    exp: real -> real, isAtm: bool): OptionData
    requires spot > 0.0
  {
    var diff := Diff(strike, spot);
    OptionData(
      strike,
      SynthSide(if strike > spot then 0.0 else spot - strike, diff, ivBase, sc, exp,
                d.ceOi, d.ceDoi, d.ceIv, d.ceLtp, d.ceVwap, d.ceVol, d.ceScen),
      SynthSide(if strike < spot then 0.0 else strike - spot, diff, ivBase, sc, exp,
                d.peOi, d.peDoi, d.peIv, d.peLtp, d.peVwap, d.peVol, d.peScen),
      isAtm)
  }

  /** Premiums of a synthesised row never fall below 0.05 nor below the
      option's intrinsic value, and the scenario is neutral exactly when the
      change in open interest is zero. */
  lemma SynthRowPremiums(strike: real, spot: real, ivBase: real, sc: Scale, d: RowDraws,
                         exp: real -> real, isAtm: bool)
    requires spot > 0.0 && sc.ltpNoise >= 0.0 && d.ceLtp >= 0.0 && d.peLtp >= 0.0
    ensures var r := SynthRow(strike, spot, ivBase, sc, d, exp, isAtm);
            r.ce.ltp >= 0.05 && r.pe.ltp >= 0.05
            && r.ce.ltp >= spot - strike && r.pe.ltp >= strike - spot
            && (r.ce.scenario == "Neutral" <==> r.ce.doi == 0)
            && (r.pe.scenario == "Neutral" <==> r.pe.doi == 0)
  {
    MulNonNeg(d.ceLtp, sc.ltpNoise);
    MulNonNeg(d.peLtp, sc.ltpNoise);
  }

  lemma MulNonNeg(a: real, b: real)
    requires a >= 0.0 && b >= 0.0
    ensures a * b >= 0.0
  {
  }

  /** The simulated chain: 21 strikes fifty apart, centred on the multiple of
      fifty nearest the spot, with the centre row the only ATM row. */
  method GenerateOptionChain(spot: real, baseIv: real, draws: seq<RowDraws>, exp: real -> real)
    returns (chain: seq<OptionData>)
    requires spot > 0.0 && |draws| == 21
    ensures |chain| == 21
    ensures chain[10].strike == Round(spot / 50.0) as real * 50.0
    ensures Abs(chain[10].strike - spot) <= 25.0
    ensures forall k :: 0 < k < 21 ==> chain[k].strike == chain[k - 1].strike + 50.0
    ensures forall k :: 0 <= k < 21 ==> (chain[k].isAtm <==> k == 10)
    ensures forall k :: 0 <= k < 21 ==>
              chain[k] == SynthRow(chain[k].strike, spot, baseIv, SimScale, draws[k], exp, k == 10)
  {
    var atm := RoundToStep(spot, 50.0);
    var strikes := Ladder(atm, 50.0, 10);
    LadderShape(strikes, atm, 50.0, 10);
    chain := seq(21, k requires 0 <= k < 21 =>
                   SynthRow(strikes[k], spot, baseIv, SimScale, draws[k], exp, strikes[k] == atm));
  }

  /** The backend's strike data for one side at the ATM strike. */
  datatype CepeData = CepeData(oi: real, doi: real, strike: string, trend: string, price: real, symbol: string)

  /** The backend's option-chain record, with the fields the chain reads. */
  datatype OptionChainEntry = OptionChainEntry(atm: real, ceAtmData: CepeData, peAtmData: CepeData, symbol: string)

  /** Strike spacing by the spot price's magnitude. */
  function StepSize(spot: real): (step: real)
    ensures step == 100.0 <==> spot > 10000.0
    ensures step == 50.0 <==> 1000.0 < spot <= 10000.0
    ensures step == 10.0 <==> spot <= 1000.0
  {
    if spot > 10000.0 then 100.0 else if spot > 1000.0 then 50.0 else 10.0
  }

  function SeededSide(data: CepeData, diff: real, volDraw: real, scenario: string): Side {
    Side(data.price, Round(data.oi), Round(data.doi), 15.0 + diff * 100.0, data.price * 1.001,
         Floor(50000.0 + volDraw * 100000.0), scenario)
  }

  /** The ATM row of a backend chain, taken from the backend record. */
  function SeededRow(strike: real, spot: real, entry: OptionChainEntry, d: RowDraws): OptionData
    requires spot > 0.0
  {
    var diff := Diff(strike, spot);
    OptionData(
      strike,
      SeededSide(entry.ceAtmData, diff, d.ceVol,
                 if entry.ceAtmData.trend == "bull" then "Long Build Up" else "Short Build Up"),
      SeededSide(entry.peAtmData, diff, d.peVol,
                 if entry.peAtmData.trend == "bear" then "Short Build Up" else "Long Build Up"),
      true)
  }

  /** A row of the backend chain: seeded at the backend's ATM strike,
      synthesised elsewhere. */
  function BackendRow(strike: real, spot: real, entry: OptionChainEntry, d: RowDraws,
                      exp: real -> real): (r: OptionData)
    requires spot > 0.0
    ensures r.strike == strike
    ensures r.isAtm <==> strike == entry.atm
  {
    if strike == entry.atm then SeededRow(strike, spot, entry, d)
    else SynthRow(strike, spot, 15.0, BackendScale, d, exp, false)
  }

  /** The row at the backend's ATM strike shows the backend's prices and
      rounded open-interest figures; the call side reads Long Build Up when
      the backend calls its trend bullish and Short Build Up otherwise, the
      put side Short Build Up when it calls it bearish and Long Build Up
      otherwise, so the call is green exactly on a bullish trend, the put red
      exactly on a bearish one, and neither side is ever muted. */
  lemma SeededRowFidelity(spot: real, entry: OptionChainEntry, d: RowDraws, exp: real -> real)
    requires spot > 0.0
    ensures var r := BackendRow(entry.atm, spot, entry, d, exp);
            r.ce.ltp == entry.ceAtmData.price && r.pe.ltp == entry.peAtmData.price
            && entry.ceAtmData.oi - 0.5 < r.ce.oi as real <= entry.ceAtmData.oi + 0.5
            && entry.ceAtmData.doi - 0.5 < r.ce.doi as real <= entry.ceAtmData.doi + 0.5
            && entry.peAtmData.oi - 0.5 < r.pe.oi as real <= entry.peAtmData.oi + 0.5
            && entry.peAtmData.doi - 0.5 < r.pe.doi as real <= entry.peAtmData.doi + 0.5
            && r.ce.vwap == entry.ceAtmData.price * 1.001
            && r.pe.vwap == entry.peAtmData.price * 1.001
            && r.ce.scenario == (if entry.ceAtmData.trend == "bull" then "Long Build Up" else "Short Build Up")
            && r.pe.scenario == (if entry.peAtmData.trend == "bear" then "Short Build Up" else "Long Build Up")
            && (ScenarioColor(r.ce.scenario) == Success <==> entry.ceAtmData.trend == "bull")
            && (ScenarioColor(r.pe.scenario) == Destructive <==> entry.peAtmData.trend == "bear")
            && ScenarioColor(r.ce.scenario) != Muted && ScenarioColor(r.pe.scenario) != Muted
  {
  }

  /** The backend chain: 21 strikes one step apart centred on the backend's
      ATM strike, whose row is the only ATM row and is seeded from the
      backend; the other twenty are synthesised. */
  method BuildOptionChainFromBackend(entry: OptionChainEntry, spot: real, draws: seq<RowDraws>,
                                     exp: real -> real)
    returns (chain: seq<OptionData>)
    requires spot > 0.0 && |draws| == 21
    ensures |chain| == 21
    ensures chain[10].strike == entry.atm
    ensures forall k :: 0 < k < 21 ==> chain[k].strike == chain[k - 1].strike + StepSize(spot)
    ensures forall k :: 0 <= k < 21 ==> (chain[k].isAtm <==> k == 10)
    ensures forall k :: 0 <= k < 21 ==> chain[k] == BackendRow(chain[k].strike, spot, entry, draws[k], exp)
  {
    var step := StepSize(spot);
    var strikes := Ladder(entry.atm, step, 10);
    LadderShape(strikes, entry.atm, step, 10);
    chain := seq(21, k requires 0 <= k < 21 => BackendRow(strikes[k], spot, entry, draws[k], exp));
    forall k | 0 <= k < 21
      ensures chain[k].strike == strikes[k]
      ensures chain[k].isAtm <==> k == 10
    {
      assert chain[k] == BackendRow(strikes[k], spot, entry, draws[k], exp);
    }
  }

  /** Index of the row `chain[..n].reduce((best, row) => key(row) > key(best)
      ? row : best)` returns: a row with the largest key, the first such. */
  function BestIndex(chain: seq<OptionData>, key: OptionData -> int, n: nat): (b: nat)
    requires 1 <= n <= |chain|
    ensures b < n
    ensures forall j :: 0 <= j < n ==> key(chain[j]) <= key(chain[b])
    ensures forall j :: 0 <= j < b ==> key(chain[j]) < key(chain[b])
  {
    if n == 1 then 0
    else
      var b := BestIndex(chain, key, n - 1);
      if key(chain[n - 1]) > key(chain[b]) then n - 1 else b
  }

  function CeDoi(row: OptionData): int { row.ce.doi }

  function PeDoi(row: OptionData): int { row.pe.doi }

  /** The call strike with the largest change in open interest. */
  function BestCe(chain: seq<OptionData>): (best: OptionData)
    requires |chain| >= 1
  {
    chain[BestIndex(chain, CeDoi, |chain|)]
  }

  /** The put strike with the largest change in open interest. */
  function BestPe(chain: seq<OptionData>): (best: OptionData)
    requires |chain| >= 1
  {
    chain[BestIndex(chain, PeDoi, |chain|)]
  }

  /** Each best row is a row of the chain whose change in open interest is
      at least every row's, and no earlier row ties it. */
  lemma BestRows(chain: seq<OptionData>)
    requires |chain| >= 1
    ensures exists i :: 0 <= i < |chain| && chain[i] == BestCe(chain)
              && forall j :: 0 <= j < i ==> chain[j].ce.doi < chain[i].ce.doi
    ensures forall row :: row in chain ==> row.ce.doi <= BestCe(chain).ce.doi
    ensures exists i :: 0 <= i < |chain| && chain[i] == BestPe(chain)
              && forall j :: 0 <= j < i ==> chain[j].pe.doi < chain[i].pe.doi
    ensures forall row :: row in chain ==> row.pe.doi <= BestPe(chain).pe.doi
  {
    var c := BestIndex(chain, CeDoi, |chain|);
    var p := BestIndex(chain, PeDoi, |chain|);
    assert chain[c] == BestCe(chain);
    assert chain[p] == BestPe(chain);
  }
}
