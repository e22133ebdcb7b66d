/** What the candlestick classifier promises: its answer is never empty,
    reports exactly the rules that hold, in group order and without
    repetition, and the rules themselves exclude one another in the ways
    their conditions imply. */
module CandleProperties {
  import opened Common
  import opened CandlePatterns

  /** The answer is never empty, and it is the sentinel exactly when no rule
      holds. */
  lemma ClassifyNeverEmpty(c: Candle, prev: Option<Candle>, prev2: Option<Candle>)
    ensures |Classify(c, prev, prev2)| >= 1
    ensures Classify(c, prev, prev2) == [NoPattern] <==> forall p :: !Fires(p, c, prev, prev2)
  {
    var d := Detected(c, prev, prev2);
    ScanFacts(16, p => Fires(p, c, prev, prev2));
    MatchesAt(d);
    if d != [] {
      assert d[0] in d;
      NamesDistinct(d[0], d[0]);
      assert Classify(c, prev, prev2)[0] == Match(d[0]);
    } else {
      forall p
        ensures !Fires(p, c, prev, prev2)
      {
        assert p !in d;
      }
    }
  }

  /** The record of a rule is reported exactly when the rule holds. */
  lemma ClassifyReportsFiring(c: Candle, prev: Option<Candle>, prev2: Option<Candle>)
    ensures forall p :: Match(p) in Classify(c, prev, prev2) <==> Fires(p, c, prev, prev2)
  {
    var d := Detected(c, prev, prev2);
    ScanFacts(16, p => Fires(p, c, prev, prev2));
    if d == [] {
      forall p
        ensures Match(p) !in Classify(c, prev, prev2) && !Fires(p, c, prev, prev2)
      {
        NamesDistinct(p, p);
        assert p !in d;
      }
    } else {
      MatchesMembers(d);
    }
  }

  /** The records of a list of rules are those of its members. */
  lemma MatchesMembers(ps: seq<Pattern>)
    ensures forall p :: Match(p) in Matches(ps) <==> p in ps
  {
    MatchesAt(ps);
    forall p | Match(p) in Matches(ps)
      ensures p in ps
    {
      var i :| 0 <= i < |ps| && Matches(ps)[i] == Match(p);
      NamesDistinct(p, ps[i]);
    }
    forall p | p in ps
      ensures Match(p) in Matches(ps)
    {
      var i :| 0 <= i < |ps| && ps[i] == p;
      assert Matches(ps)[i] == Match(p);
    }
  }

  /** Everything reported is the sentinel or the record of a rule that
      holds. */
  lemma ClassifyOnlyFiring(c: Candle, prev: Option<Candle>, prev2: Option<Candle>)
    ensures forall m :: m in Classify(c, prev, prev2) ==>
              m == NoPattern || exists p :: Fires(p, c, prev, prev2) && m == Match(p)
  {
    var d := Detected(c, prev, prev2);
    var r := Classify(c, prev, prev2);
    ScanFacts(16, p => Fires(p, c, prev, prev2));
    MatchesAt(d);
    forall m | m in r && d != []
      ensures exists p :: Fires(p, c, prev, prev2) && m == Match(p)
    {
      var i :| 0 <= i < |r| && r[i] == m;
      assert d[i] in d;
    }
  }

  /** Bullish records come before bearish ones, bearish before neutral,
      and no name appears twice. */
  predicate GroupOrdered(r: seq<PatternMatch>) {
    forall i, j :: 0 <= i < j < |r| ==>
      CategoryRank(r[i].category) <= CategoryRank(r[j].category)
      && r[i].patternType != r[j].patternType
  }

  /** The answer lists bullish matches before bearish ones, bearish before
      neutral, and no name twice. */
  lemma ClassifyOrdered(c: Candle, prev: Option<Candle>, prev2: Option<Candle>)
    ensures GroupOrdered(Classify(c, prev, prev2))
  {
    var d := Detected(c, prev, prev2);
    if d != [] {
      ScanFacts(16, p => Fires(p, c, prev, prev2));
      MatchesOrdered(d);
      assert Classify(c, prev, prev2) == Matches(d);
    } else {
      assert Classify(c, prev, prev2) == [NoPattern];
    }
  }

  /** The records of rules listed in evaluation order come in group order
      and with distinct names. */
  lemma MatchesOrdered(ps: seq<Pattern>)
    requires RankIncreasing(ps)
    ensures GroupOrdered(Matches(ps))
  {
    MatchesAt(ps);
    var r := Matches(ps);
    forall i, j | 0 <= i < j < |r|
      ensures CategoryRank(r[i].category) <= CategoryRank(r[j].category)
      ensures r[i].patternType != r[j].patternType
    {
      assert Rank(ps[i]) < Rank(ps[j]);
      NamesDistinct(ps[i], ps[j]);
    }
  }

  /** A candle with no movement at all matches no rule, whatever came
      before it: every rule needs a strict inequality that a zero body and a
      zero range cannot meet. */
  lemma FlatCandleNoPattern(c: Candle, prev: Option<Candle>, prev2: Option<Candle>)
    requires c.open == c.high && c.high == c.low && c.low == c.close
    ensures Classify(c, prev, prev2) == [NoPattern]
  {
    assert Body(c) == 0.0 && Range(c) == 0.0 && BodyPercent(c) == 0.0;
    assert WickTop(c) == 0.0 && WickBot(c) == 0.0;
    forall p
      ensures !Fires(p, c, prev, prev2)
    {
    }
    ClassifyNeverEmpty(c, prev, prev2);
  }

  /** The bullish and bearish readings of the same shape need a rising and a
      falling candle respectively, so they never hold together, and neither
      holds when the candle closes where it opened. */
  lemma OpposedRulesExclusive(c: Candle, prev: Option<Candle>, prev2: Option<Candle>)
    ensures !(Fires(Hammer, c, prev, prev2) && Fires(HangingMan, c, prev, prev2))
    ensures !(Fires(InverseHammer, c, prev, prev2) && Fires(ShootingStar, c, prev, prev2))
    ensures !(Fires(BullishEngulfing, c, prev, prev2) && Fires(BearishEngulfing, c, prev, prev2))
    ensures !(Fires(MorningStar, c, prev, prev2) && Fires(EveningStar, c, prev, prev2))
    ensures c.close == c.open ==>
              !Fires(Hammer, c, prev, prev2) && !Fires(HangingMan, c, prev, prev2)
              && !Fires(InverseHammer, c, prev, prev2) && !Fires(ShootingStar, c, prev, prev2)
              && !Fires(BullishEngulfing, c, prev, prev2) && !Fires(BearishEngulfing, c, prev, prev2)
              && !Fires(MorningStar, c, prev, prev2) && !Fires(EveningStar, c, prev, prev2)
  {
  }

  predicate MultiCandle(p: Pattern) {
    p in {BullishEngulfing, PiercingLine, MorningStar, ThreeWhiteSoldiers,
          BearishEngulfing, DarkCloudCover, EveningStar, ThreeBlackCrows}
  }

  /** Without a previous candle only the single-candle rules can be
      reported. */
  lemma NoHistoryNoMultiCandle(c: Candle, prev2: Option<Candle>)
    ensures forall p :: MultiCandle(p) ==> Match(p) !in Classify(c, None, prev2)
  {
    ClassifyReportsFiring(c, None, prev2);
  }

  /** A Spinning Top needs a body too large for a doji, and the three doji
      variants ask for incompatible wicks, so at most one of these four is
      ever reported. */
  lemma DojiFamilyExclusive(c: Candle, prev: Option<Candle>, prev2: Option<Candle>)
    ensures Fires(SpinningTop, c, prev, prev2) ==>
              !Fires(Doji, c, prev, prev2) && !Fires(DragonflyDoji, c, prev, prev2)
              && !Fires(GravestoneDoji, c, prev, prev2)
    ensures !(Fires(Doji, c, prev, prev2) && Fires(DragonflyDoji, c, prev, prev2))
    ensures !(Fires(Doji, c, prev, prev2) && Fires(GravestoneDoji, c, prev, prev2))
    ensures !(Fires(DragonflyDoji, c, prev, prev2) && Fires(GravestoneDoji, c, prev, prev2))
  {
  }

  /** The legacy single-name classifier: the first reported name of a lone
      candle, or `Neutral` when that name is empty. */
  function DetectCandlePattern(c: Candle): string {
    ClassifyNeverEmpty(c, None, None);
    var first := Classify(c, None, None)[0];
    if first.patternType != "" then first.patternType else "Neutral"
  }

  /** The legacy classifier never falls back to `Neutral`: it names the first
      rule that holds, or says `No Pattern` when none does. */
  lemma LegacyNamesFirstMatch(c: Candle)
    ensures DetectCandlePattern(c) != "Neutral"
    ensures Detected(c, None, None) == [] ==> DetectCandlePattern(c) == "No Pattern"
    ensures Detected(c, None, None) != [] ==>
              DetectCandlePattern(c) == Name(Detected(c, None, None)[0])
  {
    var d := Detected(c, None, None);
    MatchesAt(d);
    if d != [] {
      NamesDistinct(d[0], d[0]);
    }
  }
}
