/** The option-chain side of the analytics library: the build-up/unwinding
    tag of a price move against an open-interest move, and the simulated
    eleven-strike option chain around the nearest hundred. The random draws
    of each row are parameters in [0, 1). */
module Analytics {
  import opened Common

  datatype Badge = BadgeBull | BadgeBear | BadgeNeutral

  datatype ScenarioResult = ScenarioResult(text: string, badge: Badge)

  /** Price and open interest moving together is a build-up, apart an
      unwinding; a zero move on either side tags nothing. */
  function GetScenario(priceChg: real, oiChg: real): (r: ScenarioResult)
    ensures r.text == "Long Build Up" <==> priceChg > 0.0 && oiChg > 0.0
    ensures r.text == "Short Build Up" <==> priceChg < 0.0 && oiChg > 0.0
    ensures r.text == "Long Liquidation" <==> priceChg < 0.0 && oiChg < 0.0
    ensures r.text == "Short Covering" <==> priceChg > 0.0 && oiChg < 0.0
    ensures r.text == "Neutral" <==> priceChg == 0.0 || oiChg == 0.0
    ensures r.badge == BadgeBull <==> priceChg > 0.0 && oiChg != 0.0
    ensures r.badge == BadgeBear <==> priceChg < 0.0 && oiChg != 0.0
  {
    if priceChg > 0.0 && oiChg > 0.0 then ScenarioResult("Long Build Up", BadgeBull)
    else if priceChg < 0.0 && oiChg > 0.0 then ScenarioResult("Short Build Up", BadgeBear)
    else if priceChg < 0.0 && oiChg < 0.0 then ScenarioResult("Long Liquidation", BadgeBear)
    else if priceChg > 0.0 && oiChg < 0.0 then ScenarioResult("Short Covering", BadgeBull)
    else ScenarioResult("Neutral", BadgeNeutral)
  }

  datatype Action = Buy | Sell | Hold

  datatype Trend = Bullish | Bearish

  /** One side (call or put) of a strike. `iv` is the number the row
      formats to one decimal. */
  datatype Leg = Leg(
    ltp: real, chg: real, oi: int, doi: int, vwap: real, iv: real, ath: real,
    action: Action, scenario: ScenarioResult)

  /** `pcrDoi` is `None` where the row shows the string '0'. */
  datatype Analysis = Analysis(pcrOi: real, pcrDoi: Option<real>, trend: Trend, oiDiff: int, doiDiff: int)

  datatype ChainRow = ChainRow(strike: real, ce: Leg, pe: Leg, analysis: Analysis)

  /** The twelve `Math.random()` draws one row consumes, in call order. */
  datatype RowDraws = RowDraws(
    ceOi: real, peOi: real, ceDoi: real, peDoi: real, ceLtp: real, peLtp: real,
    ceChg: real, peChg: real, ceVwap: real, ceIv: real, peVwap: real, peIv: real)

  predicate ValidDraws(d: RowDraws) {
    Unit(d.ceOi) && Unit(d.peOi) && Unit(d.ceDoi) && Unit(d.peDoi)
    && Unit(d.ceLtp) && Unit(d.peLtp) && Unit(d.ceChg) && Unit(d.peChg)
    && Unit(d.ceVwap) && Unit(d.ceIv) && Unit(d.peVwap) && Unit(d.peIv)
  }

  function ActionFor(doi: int): Action {
    if doi > 5000 then Buy else if doi < -5000 then Sell else Hold
  }

  /** The simulated call premium at distance `dist = strike - spot`. */
  function CallPremium(dist: real, d: real): real {
    Max(0.1, -dist * 0.5 + d * 45.0 + 5.0 + (if dist < 0.0 then Abs(dist) else 0.0))
  }

  /** The simulated put premium at distance `dist = strike - spot`. */
  function PutPremium(dist: real, d: real): real {
    Max(0.1, dist * 0.5 + d * 45.0 + 5.0 + (if dist > 0.0 then Abs(dist) else 0.0))
  }

  function MakeLeg(ltp: real, chg: real, oi: int, doi: int, vwapDraw: real, ivDraw: real): Leg {
    Leg(ltp, chg, oi, doi, ltp * (0.98 + vwapDraw * 0.04), 12.0 + ivDraw * 6.0, ltp * 1.2,
        ActionFor(doi), GetScenario(chg, doi as real))
  }

  /** One row of the chain at `strike`. */
  function MakeRow(strike: real, spot: real, d: RowDraws): ChainRow
    requires ValidDraws(d)
  {
    var dist := strike - spot;
    var ceOi := Floor(d.ceOi * 150000.0 + 50000.0);
    var peOi := Floor(d.peOi * 150000.0 + 50000.0);
    var ceDoi := Floor(d.ceDoi * 30000.0 - 10000.0);
    var peDoi := Floor(d.peDoi * 30000.0 - 10000.0);
    var ceLtp := CallPremium(dist, d.ceLtp);
    var peLtp := PutPremium(dist, d.peLtp);
    var ceChg := (d.ceChg - 0.5) * 4.0;
    var peChg := (d.peChg - 0.5) * 4.0;
    ChainRow(
      strike,
      MakeLeg(ceLtp, ceChg, ceOi, ceDoi, d.ceVwap, d.ceIv),
      MakeLeg(peLtp, peChg, peOi, peDoi, d.peVwap, d.peIv),
      Analysis(
        peOi as real / ceOi as real,
        if ceDoi != 0 then Some(peDoi as real / ceDoi as real) else None,
        if peDoi > ceDoi then Bullish else Bearish,
        peOi - ceOi,
        peDoi - ceDoi))
  }

  /** The eleven strikes `atm - 500 .. atm + 500` around the nearest hundred,
      filled by a counting loop, then one row built per strike. */
  method GenerateOptionChain(spot: real, draws: seq<RowDraws>) returns (rows: seq<ChainRow>)
    requires |draws| == 11 && forall k :: 0 <= k < 11 ==> ValidDraws(draws[k])
    ensures |rows| == 11
    ensures Abs(rows[5].strike - spot) <= 50.0
    ensures rows[5].strike == Round(spot / 100.0) as real * 100.0
    ensures forall k :: 0 < k < 11 ==> rows[k].strike == rows[k - 1].strike + 100.0
    ensures forall k :: 0 <= k < 11 ==> rows[k] == MakeRow(rows[k].strike, spot, draws[k])
  {
    var atm := RoundToStep(spot, 100.0);
    var strikes := Ladder(atm, 100.0, 5);
    LadderShape(strikes, atm, 100.0, 5);
    rows := seq(11, k requires 0 <= k < 11 => MakeRow(strikes[k], spot, draws[k]));
  }

  /** What every row promises: the action and the trend follow the change in
      open interest, the put-call ratio of that change is absent exactly when
      the call side did not change, both premiums stay at or above 0.1, the
      call at least spot - strike + 5 and the put at least strike - spot + 5,
      and the open-interest figures stay in
      the ranges their draws allow. */
  lemma RowFacts(strike: real, spot: real, d: RowDraws)
    requires ValidDraws(d)
    ensures var r := MakeRow(strike, spot, d);
            (r.ce.action == Buy <==> r.ce.doi > 5000)
            && (r.ce.action == Sell <==> r.ce.doi < -5000)
            && (r.pe.action == Buy <==> r.pe.doi > 5000)
            && (r.pe.action == Sell <==> r.pe.doi < -5000)
            && (r.analysis.trend == Bullish <==> r.pe.doi > r.ce.doi)
            && (r.analysis.pcrDoi == None <==> r.ce.doi == 0)
            && r.analysis.doiDiff == r.pe.doi - r.ce.doi
            && r.ce.ltp >= 0.1 && r.pe.ltp >= 0.1
            && r.ce.ltp >= spot - strike + 5.0 && r.pe.ltp >= strike - spot + 5.0
            && 50000 <= r.ce.oi < 200000 && 50000 <= r.pe.oi < 200000
            && -10000 <= r.ce.doi < 20000 && -10000 <= r.pe.doi < 20000
            && r.analysis.pcrOi > 0.0
  {
    var dist := strike - spot;
    var ceOi := Floor(d.ceOi * 150000.0 + 50000.0);
    var peOi := Floor(d.peOi * 150000.0 + 50000.0);
    assert ceOi >= 50000 && peOi >= 50000;
    assert ceOi < 200000 && peOi < 200000;
    var ceDoi := Floor(d.ceDoi * 30000.0 - 10000.0);
    var peDoi := Floor(d.peDoi * 30000.0 - 10000.0);
    assert -10000 <= ceDoi < 20000 && -10000 <= peDoi < 20000;
    assert CallPremium(dist, d.ceLtp) >= -dist + 5.0;
    assert PutPremium(dist, d.peLtp) >= dist + 5.0;
  }
}
