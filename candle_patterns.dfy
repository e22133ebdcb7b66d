/** The candlestick pattern classifier of the analytics library: sixteen
    independent rules over one candle and up to two preceding candles, each a
    conjunction of linear inequalities over body, wicks and range. Every rule
    that holds is reported, in a fixed order; when none holds the result is the
    single `No Pattern` sentinel. */
module CandlePatterns {
  import opened Common

  datatype Candle = Candle(open: real, high: real, low: real, close: real)

  function Body(c: Candle): real { Abs(c.close - c.open) }
  function WickTop(c: Candle): real { c.high - Max(c.open, c.close) }
  function WickBot(c: Candle): real { Min(c.open, c.close) - c.low }
  function Range(c: Candle): real { c.high - c.low }
  function BodyPercent(c: Candle): real { if Range(c) > 0.0 then Body(c) / Range(c) else 0.0 }
  predicate IsDoji(c: Candle) { Body(c) < Range(c) * 0.1 }
  predicate Rising(c: Candle) { c.close > c.open }
  predicate Falling(c: Candle) { c.close < c.open }

  /** The body and the two wicks always add up to the range, whatever the
      order of the four prices. */
  lemma PartsMakeRange(c: Candle)
    ensures Body(c) + WickTop(c) + WickBot(c) == Range(c)
    ensures Body(c) >= 0.0
  {
  }

  datatype Category = Bullish | Bearish | Neutral

  datatype Pattern =
    | Hammer | InverseHammer | BullishEngulfing | PiercingLine | MorningStar
    | ThreeWhiteSoldiers | DragonflyDoji
    | HangingMan | ShootingStar | BearishEngulfing | DarkCloudCover | EveningStar
    | ThreeBlackCrows | GravestoneDoji
    | Doji | SpinningTop

  /** The `patternType` string reported for each rule. */
  function Name(p: Pattern): string {
    match p
    case Hammer => "Hammer"
    case InverseHammer => "Inverse Hammer"
    case BullishEngulfing => "Bullish Engulfing"
    case PiercingLine => "Piercing Line"
    case MorningStar => "Morning Star"
    case ThreeWhiteSoldiers => "Three White Soldiers"
    case DragonflyDoji => "Dragonfly Doji"
    case HangingMan => "Hanging Man"
    case ShootingStar => "Shooting Star"
    case BearishEngulfing => "Bearish Engulfing"
    case DarkCloudCover => "Dark Cloud Cover"
    case EveningStar => "Evening Star"
    case ThreeBlackCrows => "Three Black Crows"
    case GravestoneDoji => "Gravestone Doji"
    case Doji => "Doji"
    case SpinningTop => "Spinning Top"
  }

  function CategoryOf(p: Pattern): Category {
    if Rank(p) < 7 then Bullish else if Rank(p) < 14 then Bearish else Neutral
  }

  /** Position of each rule in the evaluation order. */
  function Rank(p: Pattern): (n: nat)
    ensures n < 16
  {
    match p
    case Hammer => 0
    case InverseHammer => 1
    case BullishEngulfing => 2
    case PiercingLine => 3
    case MorningStar => 4
    case ThreeWhiteSoldiers => 5
    case DragonflyDoji => 6
    case HangingMan => 7
    case ShootingStar => 8
    case BearishEngulfing => 9
    case DarkCloudCover => 10
    case EveningStar => 11
    case ThreeBlackCrows => 12
    case GravestoneDoji => 13
    case Doji => 14
    case SpinningTop => 15
  }

  function CategoryRank(k: Category): nat {
    match k
    case Bullish => 0
    case Bearish => 1
    case Neutral => 2
  }

  /** Distinct rules carry distinct names, and no rule is called `No Pattern`. */
  lemma NamesDistinct(p: Pattern, q: Pattern)
    ensures Name(p) == Name(q) <==> p == q
    ensures Name(p) != "No Pattern" && Name(p) != "" && Name(p) != "Neutral"
  {
  }

  // The rules, one predicate each: what must hold of the current candle `c`,
  // the previous candle `prev` and the one before it, `prev2`.

  predicate IsHammer(c: Candle) {
    WickBot(c) > Body(c) * 2.0 && WickTop(c) < Body(c) * 0.3 && Rising(c) && BodyPercent(c) < 0.4
  }
  predicate IsInverseHammer(c: Candle) {
    WickTop(c) > Body(c) * 2.0 && WickBot(c) < Body(c) * 0.3 && Rising(c) && BodyPercent(c) < 0.4
  }
  predicate IsBullishEngulfing(c: Candle, prev: Option<Candle>) {
    prev.Some? && Falling(prev.value) && Rising(c)
    && c.close > prev.value.open && c.open < prev.value.close
  }
  predicate IsPiercingLine(c: Candle, prev: Option<Candle>) {
    prev.Some? && Falling(prev.value) && Rising(c) && c.open < prev.value.close
    && c.close > prev.value.close + (prev.value.open - prev.value.close) / 2.0
    && c.close < prev.value.open
  }
  predicate IsMorningStar(c: Candle, prev: Option<Candle>, prev2: Option<Candle>) {
    prev.Some? && prev2.Some? && Falling(prev2.value)
    && Body(prev.value) < Body(prev2.value) * 0.3
    && Rising(c) && c.close > (prev2.value.open + prev2.value.close) / 2.0
  }
  predicate IsThreeWhiteSoldiers(c: Candle, prev: Option<Candle>, prev2: Option<Candle>) {
    prev.Some? && prev2.Some? && Rising(prev2.value) && Rising(prev.value) && Rising(c)
    && prev.value.close > prev2.value.close && c.close > prev.value.close
    && Body(prev2.value) > Range(prev2.value) * 0.6
    && Body(prev.value) > Range(prev.value) * 0.6
    && Body(c) > Range(c) * 0.6
  }
  predicate IsDragonflyDoji(c: Candle) {
    IsDoji(c) && WickBot(c) > Range(c) * 0.6 && WickTop(c) < Range(c) * 0.1
  }
  predicate IsHangingMan(c: Candle) {
    WickBot(c) > Body(c) * 2.0 && WickTop(c) < Body(c) * 0.3 && Falling(c) && BodyPercent(c) < 0.4
  }
  predicate IsShootingStar(c: Candle) {
    WickTop(c) > Body(c) * 2.0 && WickBot(c) < Body(c) * 0.3 && Falling(c) && BodyPercent(c) < 0.4
  }
  predicate IsBearishEngulfing(c: Candle, prev: Option<Candle>) {
    prev.Some? && Rising(prev.value) && Falling(c)
    && c.close < prev.value.open && c.open > prev.value.close
  }
  predicate IsDarkCloudCover(c: Candle, prev: Option<Candle>) {
    prev.Some? && Rising(prev.value) && Falling(c) && c.open > prev.value.close
    && c.close < prev.value.open + (prev.value.close - prev.value.open) / 2.0
    && c.close > prev.value.open
  }
  predicate IsEveningStar(c: Candle, prev: Option<Candle>, prev2: Option<Candle>) {
    prev.Some? && prev2.Some? && Rising(prev2.value)
    && Body(prev.value) < Body(prev2.value) * 0.3
    && Falling(c) && c.close < (prev2.value.open + prev2.value.close) / 2.0
  }
  predicate IsThreeBlackCrows(c: Candle, prev: Option<Candle>, prev2: Option<Candle>) {
    prev.Some? && prev2.Some? && Falling(prev2.value) && Falling(prev.value) && Falling(c)
    && prev.value.close < prev2.value.close && c.close < prev.value.close
    && Body(prev2.value) > Range(prev2.value) * 0.6
    && Body(prev.value) > Range(prev.value) * 0.6
    && Body(c) > Range(c) * 0.6
  }
  predicate IsGravestoneDoji(c: Candle) {
    IsDoji(c) && WickTop(c) > Range(c) * 0.6 && WickBot(c) < Range(c) * 0.1
  }
  predicate IsPlainDoji(c: Candle) {
    IsDoji(c) && WickTop(c) > Range(c) * 0.2 && WickBot(c) > Range(c) * 0.2
  }
  predicate IsSpinningTop(c: Candle) {
    Body(c) < Range(c) * 0.3 && WickTop(c) > Body(c) * 0.5 && WickBot(c) > Body(c) * 0.5
    && !IsDoji(c)
  }

  /** The rule table: whether rule `p` holds for candle `c` after `prev`
      and `prev2`. */
  predicate Fires(p: Pattern, c: Candle, prev: Option<Candle>, prev2: Option<Candle>) {
    match p
    case Hammer => IsHammer(c)
    case InverseHammer => IsInverseHammer(c)
    case BullishEngulfing => IsBullishEngulfing(c, prev)
    case PiercingLine => IsPiercingLine(c, prev)
    case MorningStar => IsMorningStar(c, prev, prev2)
    case ThreeWhiteSoldiers => IsThreeWhiteSoldiers(c, prev, prev2)
    case DragonflyDoji => IsDragonflyDoji(c)
    case HangingMan => IsHangingMan(c)
    case ShootingStar => IsShootingStar(c)
    case BearishEngulfing => IsBearishEngulfing(c, prev)
    case DarkCloudCover => IsDarkCloudCover(c, prev)
    case EveningStar => IsEveningStar(c, prev, prev2)
    case ThreeBlackCrows => IsThreeBlackCrows(c, prev, prev2)
    case GravestoneDoji => IsGravestoneDoji(c)
    case Doji => IsPlainDoji(c)
    case SpinningTop => IsSpinningTop(c)
  }

  /** The rule checked at position `k` of the evaluation order: the bullish
      group, the bearish group, then the neutral group. */
  function RuleAt(k: nat): (p: Pattern)
    requires k < 16
    ensures Rank(p) == k
  {
    match k
    case 0 => Hammer
    case 1 => InverseHammer
    case 2 => BullishEngulfing
    case 3 => PiercingLine
    case 4 => MorningStar
    case 5 => ThreeWhiteSoldiers
    case 6 => DragonflyDoji
    case 7 => HangingMan
    case 8 => ShootingStar
    case 9 => BearishEngulfing
    case 10 => DarkCloudCover
    case 11 => EveningStar
    case 12 => ThreeBlackCrows
    case 13 => GravestoneDoji
    case 14 => Doji
    case _ => SpinningTop
  }

  /** The rules among the first `k` of the evaluation order for which
      `holds` is true, in that order. */
  function Scan(k: nat, holds: Pattern -> bool): seq<Pattern>
    requires k <= 16
  {
    if k == 0 then []
    else if holds(RuleAt(k - 1)) then Scan(k - 1, holds) + [RuleAt(k - 1)]
    else Scan(k - 1, holds)
  }

  predicate RankIncreasing(ps: seq<Pattern>) {
    forall i, j :: 0 <= i < j < |ps| ==> Rank(ps[i]) < Rank(ps[j])
  }

  /** Scanning keeps exactly the rules that hold and keeps them in
      evaluation order, so no rule is reported twice. */
  lemma {:induction false} ScanFacts(k: nat, holds: Pattern -> bool)
    requires k <= 16
    ensures forall p :: p in Scan(k, holds) <==> Rank(p) < k && holds(p)
    ensures RankIncreasing(Scan(k, holds))
    ensures forall i :: 0 <= i < |Scan(k, holds)| ==> Rank(Scan(k, holds)[i]) < k
  {
    if k > 0 {
      ScanFacts(k - 1, holds);
      var f := Scan(k - 1, holds);
      var r := Scan(k, holds);
      forall p
        ensures p in r <==> Rank(p) < k && holds(p)
      {
        if Rank(p) == k - 1 {
          assert p == RuleAt(k - 1);
        }
      }
      forall i | 0 <= i < |r|
        ensures Rank(r[i]) < k
      {
        if i < |f| {
          assert r[i] == f[i];
        }
      }
    }
  }

  /** The rules that hold for these candles, in evaluation order. */
  function Detected(c: Candle, prev: Option<Candle>, prev2: Option<Candle>): seq<Pattern> {
    Scan(16, p => Fires(p, c, prev, prev2))
  }

  datatype PatternMatch = PatternMatch(patternType: string, category: Category)

  const NoPattern: PatternMatch := PatternMatch("No Pattern", Neutral)

  /** The record reported for rule `p`. */
  function Match(p: Pattern): PatternMatch {
    PatternMatch(Name(p), CategoryOf(p))
  }

  function Matches(ps: seq<Pattern>): seq<PatternMatch> {
    if ps == [] then [] else Matches(ps[..|ps| - 1]) + [Match(ps[|ps| - 1])]
  }

  lemma {:induction false} MatchesAt(ps: seq<Pattern>)
    ensures |Matches(ps)| == |ps|
    ensures forall k :: 0 <= k < |ps| ==> Matches(ps)[k] == Match(ps[k])
  {
    if ps != [] {
      MatchesAt(ps[..|ps| - 1]);
    }
  }

  /** The classifier's answer: the records of the rules that hold, in
      evaluation order, or the single sentinel when none does. */
  function Classify(c: Candle, prev: Option<Candle>, prev2: Option<Candle>): seq<PatternMatch> {
    var d := Detected(c, prev, prev2);
    if d == [] then [NoPattern] else Matches(d)
  }

  /** What the classifier has pushed once it has checked the first `k`
      rules. This is the push-by-push view the methods below are proved
      against; `Classify` is the same answer written as a filter over the
      rule table, which the properties are proved about. The two are kept
      apart because each is cheap for its own proofs (a push is a single
      sequence append, a filter has membership and order lemmas), and
      `ReportedIsScan` shows they agree. */
  function Reported(k: nat, c: Candle, prev: Option<Candle>, prev2: Option<Candle>): seq<PatternMatch>
    requires k <= 16
  {
    if k == 0 then []
    else if Fires(RuleAt(k - 1), c, prev, prev2) then Reported(k - 1, c, prev, prev2) + [Match(RuleAt(k - 1))]
    else Reported(k - 1, c, prev, prev2)
  }

  /** Pushing rule by rule yields the records of the detected rules. */
  lemma {:induction false} ReportedIsScan(k: nat, c: Candle, prev: Option<Candle>, prev2: Option<Candle>)
    requires k <= 16
    ensures Reported(k, c, prev, prev2) == Matches(Scan(k, p => Fires(p, c, prev, prev2)))
  {
    if k > 0 {
      ReportedIsScan(k - 1, c, prev, prev2);
      var holds := p => Fires(p, c, prev, prev2);
      if holds(RuleAt(k - 1)) {
        var s := Scan(k, holds);
        assert s[..|s| - 1] == Scan(k - 1, holds);
      }
    }
  }

  /** The classifier as written: the three rule groups run in turn, each
      pushing onto `patterns`, and the sentinel is pushed when nothing
      matched. */
  method DetectCandlestickPatterns(c: Candle, prev: Option<Candle>, prev2: Option<Candle>)
    returns (patterns: seq<PatternMatch>)
    ensures patterns == Classify(c, prev, prev2)
  {
    patterns := [];
    patterns := BullishRules(c, prev, prev2, patterns);
    patterns := BearishRules(c, prev, prev2, patterns);
    patterns := NeutralRules(c, prev, prev2, patterns);
    ReportedIsScan(16, c, prev, prev2);
    MatchesAt(Detected(c, prev, prev2));
    if |patterns| == 0 {
      patterns := [NoPattern];
    }
  }

  /** The bullish group: seven rules, the two- and three-candle ones only
      when the earlier candles are present. */
  method BullishRules(c: Candle, prev: Option<Candle>, prev2: Option<Candle>, found: seq<PatternMatch>)
    returns (patterns: seq<PatternMatch>)
    requires found == Reported(0, c, prev, prev2)
    ensures patterns == Reported(7, c, prev, prev2)
  {
    patterns := found;
    if IsHammer(c) {
      patterns := patterns + [PatternMatch("Hammer", Bullish)];
    }
    assert patterns == Reported(1, c, prev, prev2);
    if IsInverseHammer(c) {
      patterns := patterns + [PatternMatch("Inverse Hammer", Bullish)];
    }
    assert patterns == Reported(2, c, prev, prev2);
    if prev.Some? {
      if IsBullishEngulfing(c, prev) {
        patterns := patterns + [PatternMatch("Bullish Engulfing", Bullish)];
      }
      assert patterns == Reported(3, c, prev, prev2);
      if IsPiercingLine(c, prev) {
        patterns := patterns + [PatternMatch("Piercing Line", Bullish)];
      }
    }
    assert patterns == Reported(4, c, prev, prev2);
    if prev2.Some? && prev.Some? && IsMorningStar(c, prev, prev2) {
      patterns := patterns + [PatternMatch("Morning Star", Bullish)];
    }
    assert patterns == Reported(5, c, prev, prev2);
    if prev2.Some? && prev.Some? && IsThreeWhiteSoldiers(c, prev, prev2) {
      patterns := patterns + [PatternMatch("Three White Soldiers", Bullish)];
    }
    assert patterns == Reported(6, c, prev, prev2);
    if IsDragonflyDoji(c) {
      patterns := patterns + [PatternMatch("Dragonfly Doji", Bullish)];
    }
  }

  /** The bearish group, mirroring the bullish one. */
  method BearishRules(c: Candle, prev: Option<Candle>, prev2: Option<Candle>, found: seq<PatternMatch>)
    returns (patterns: seq<PatternMatch>)
    requires found == Reported(7, c, prev, prev2)
    ensures patterns == Reported(14, c, prev, prev2)
  {
    patterns := found;
    if IsHangingMan(c) {
      patterns := patterns + [PatternMatch("Hanging Man", Bearish)];
    }
    assert patterns == Reported(8, c, prev, prev2);
    if IsShootingStar(c) {
      patterns := patterns + [PatternMatch("Shooting Star", Bearish)];
    }
    assert patterns == Reported(9, c, prev, prev2);
    if prev.Some? {
      if IsBearishEngulfing(c, prev) {
        patterns := patterns + [PatternMatch("Bearish Engulfing", Bearish)];
      }
      assert patterns == Reported(10, c, prev, prev2);
      if IsDarkCloudCover(c, prev) {
        patterns := patterns + [PatternMatch("Dark Cloud Cover", Bearish)];
      }
    }
    assert patterns == Reported(11, c, prev, prev2);
    if prev2.Some? && prev.Some? && IsEveningStar(c, prev, prev2) {
      patterns := patterns + [PatternMatch("Evening Star", Bearish)];
    }
    assert patterns == Reported(12, c, prev, prev2);
    if prev2.Some? && prev.Some? && IsThreeBlackCrows(c, prev, prev2) {
      patterns := patterns + [PatternMatch("Three Black Crows", Bearish)];
    }
    assert patterns == Reported(13, c, prev, prev2);
    if IsGravestoneDoji(c) {
      patterns := patterns + [PatternMatch("Gravestone Doji", Bearish)];
    }
  }

  /** The neutral group: plain Doji, then Spinning Top. */
  method NeutralRules(c: Candle, prev: Option<Candle>, prev2: Option<Candle>, found: seq<PatternMatch>)
    returns (patterns: seq<PatternMatch>)
    requires found == Reported(14, c, prev, prev2)
    ensures patterns == Reported(16, c, prev, prev2)
  {
    patterns := found;
    if IsPlainDoji(c) {
      patterns := patterns + [PatternMatch("Doji", Neutral)];
    }
    assert patterns == Reported(15, c, prev, prev2);
    if IsSpinningTop(c) {
      patterns := patterns + [PatternMatch("Spinning Top", Neutral)];
    }
  }
}
