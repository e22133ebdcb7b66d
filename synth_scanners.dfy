/** The Open = Low and Open = High scanners of the second dashboard: each
    synthesises one candle per listed stock around its quoted price, keeps
    the candles whose open sits at the level (the low, or the high) and
    whose close lies within half a percent of it, and shows the first 25. */
module SynthScanners {
  import opened Common

  /** Which scanner: Open = Low is the bullish one, Open = High the bearish. */
  datatype Side = OpenLow | OpenHigh

  /** The `Math.random()` draws one candle consumes; `price` is used only
      when the stock has no usable quote. */
  datatype CandleDraws = CandleDraws(price: real, low: real, high: real, close: real)

  predicate ValidCandleDraws(d: CandleDraws) {
    Unit(d.price) && Unit(d.low) && Unit(d.high) && Unit(d.close)
  }

  /** A synthesised candle. `proximity` is `None` where the source's
      division by a zero level yields NaN or Infinity. */
  datatype ScanCandle = ScanCandle(
    symbol: string, price: real, open: real, high: real, low: real, proximity: Option<real>)

  const MaxResults: nat := 25

  /** The quote, or a random price in [500, 2500) when the quote is missing
      or zero (the source's `||` fallback). */
  function Price(symbol: string, quotes: map<string, real>, draw: real): (p: real)
    ensures symbol in quotes && quotes[symbol] != 0.0 ==> p == quotes[symbol]
    ensures (symbol !in quotes || quotes[symbol] == 0.0) ==> p == draw * 2000.0 + 500.0
    ensures Unit(draw) ==> p != 0.0
  {
    if symbol in quotes && quotes[symbol] != 0.0 then quotes[symbol] else draw * 2000.0 + 500.0
  }

  /** `|x / level|`, absent when the level is zero. */
  function AbsRatio(x: real, level: real): (r: Option<real>)
    ensures r.None? <==> level == 0.0
    ensures r.Some? ==> r.value >= 0.0
  {
    if level == 0.0 then None else Some(Abs(x / level))
  }

  /** The level the scanner tests the open against. */
  function Level(side: Side, low: real, high: real): real {
    match side
    case OpenLow => low
    case OpenHigh => high
  }

  /** The low as a fraction of the price. */
  function LowFactor(side: Side, d: CandleDraws): real {
    match side
    case OpenLow => 0.98 + d.low * 0.01
    case OpenHigh => 0.97 - d.low * 0.02
  }

  /** The high as a fraction of the price. */
  function HighFactor(side: Side, d: CandleDraws): real {
    match side
    case OpenLow => 1.01 + d.high * 0.02
    case OpenHigh => 1.01 + d.high * 0.01
  }

  /** Where in the day's range the close falls. */
  function CloseFactor(side: Side, d: CandleDraws): real {
    match side
    case OpenLow => 0.4 + d.close * 0.5
    case OpenHigh => 0.1 + d.close * 0.5
  }

  /** The candle synthesised around `price`: the open is set to the level,
      the close falls at a random fraction of the day's range, and the
      proximity is the close's distance from the level relative to it. */
  function Candle(side: Side, symbol: string, price: real, d: CandleDraws): ScanCandle {
    var low := price * LowFactor(side, d);
    var high := price * HighFactor(side, d);
    var close := low + (high - low) * CloseFactor(side, d);
    var level := Level(side, low, high);
    ScanCandle(symbol, close, level, high, low, AbsRatio(close - level, level))
  }

  /** The open is within 0.1% of the level. A zero level fails: the
      source's `0 / 0` is NaN. */
  predicate OpenAtLevel(side: Side, c: ScanCandle) {
    var level := Level(side, c.low, c.high);
    level != 0.0 && Abs(c.open - level) / level < 0.001
  }

  /** The close is within 0.5% of the level. */
  predicate NearLevel(c: ScanCandle) {
    c.proximity.Some? && c.proximity.value < 0.005
  }

  predicate Passes(side: Side, c: ScanCandle) {
    OpenAtLevel(side, c) && NearLevel(c)
  }

  /** One candle per stock, in list order. */
  function Candles(side: Side, symbols: seq<string>, quotes: map<string, real>, draws: seq<CandleDraws>)
    : seq<ScanCandle>
    requires |draws| == |symbols|
  {
    seq(|symbols|, k requires 0 <= k < |symbols| =>
      Candle(side, symbols[k], Price(symbols[k], quotes, draws[k].price), draws[k]))
  }

  /** The candles that pass both tests, in their original order. */
  function Kept(side: Side, cs: seq<ScanCandle>): seq<ScanCandle> {
    if |cs| == 0 then []
    else if Passes(side, cs[0]) then [cs[0]] + Kept(side, cs[1..])
    else Kept(side, cs[1..])
  }

  /** A candle is kept exactly when it is one of the candles and passes. */
  lemma {:induction false} KeptMembers(side: Side, cs: seq<ScanCandle>, c: ScanCandle)
    ensures c in Kept(side, cs) <==> c in cs && Passes(side, c)
  {
    if |cs| > 0 {
      KeptMembers(side, cs[1..], c);
      assert cs == [cs[0]] + cs[1..];
    }
  }

  /** Filtering keeps relative order: the candles of a front part come
      before those of the rest. */
  lemma {:induction false} KeptAppend(side: Side, a: seq<ScanCandle>, b: seq<ScanCandle>)
    ensures Kept(side, a + b) == Kept(side, a) + Kept(side, b)
  {
    if |a| == 0 {
      assert a + b == b;
    } else {
      assert (a + b)[0] == a[0];
      assert (a + b)[1..] == a[1..] + b;
      KeptAppend(side, a[1..], b);
    }
  }

  /** The scanner's list: the first 25 passing candles. */
  function Scan(side: Side, symbols: seq<string>, quotes: map<string, real>, draws: seq<CandleDraws>)
    : seq<ScanCandle>
    requires |draws| == |symbols|
  {
    var kept := Kept(side, Candles(side, symbols, quotes, draws));
    if |kept| <= MaxResults then kept else kept[..MaxResults]
  }

  /** At most 25 candles are shown, they are the first passing ones in list
      order, and every shown candle passes both tests. */
  lemma ScanFacts(side: Side, symbols: seq<string>, quotes: map<string, real>, draws: seq<CandleDraws>)
    requires |draws| == |symbols|
    ensures var r := Scan(side, symbols, quotes, draws);
            var kept := Kept(side, Candles(side, symbols, quotes, draws));
            |r| <= MaxResults
            && |r| == (if |kept| <= MaxResults then |kept| else MaxResults)
            && r == kept[..|r|]
            && forall c :: c in r ==> c in Candles(side, symbols, quotes, draws) && Passes(side, c)
  {
    var cs := Candles(side, symbols, quotes, draws);
    var kept := Kept(side, cs);
    var r := Scan(side, symbols, quotes, draws);
    forall c | c in r ensures c in cs && Passes(side, c) {
      KeptMembers(side, cs, c);
    }
  }

  /** With draws in [0, 1) and a positive price the close lies inside the
      day's range, is the reported price, and the open sits exactly at the
      level, so the Open = level test passes. */
  lemma CandleShape(side: Side, symbol: string, price: real, d: CandleDraws)
    requires ValidCandleDraws(d) && price > 0.0
    ensures var c := Candle(side, symbol, price, d);
            0.0 < c.low < c.high
            && c.low <= c.price <= c.high
            && c.open == Level(side, c.low, c.high)
            && OpenAtLevel(side, c)
  {
    var lf, hf, cf := LowFactor(side, d), HighFactor(side, d), CloseFactor(side, d);
    var low, high := price * lf, price * hf;
    InRange(price, lf, hf, cf, low, high, low + (high - low) * cf);
  }

  /** A close at fraction `cf` of a range `price * [lf, hf]` lies inside it. */
  lemma InRange(price: real, lf: real, hf: real, cf: real, low: real, high: real, close: real)
    requires price > 0.0 && 0.0 < lf < hf && 0.0 <= cf <= 1.0
    requires low == price * lf && high == price * hf && close == low + (high - low) * cf
    ensures 0.0 < low < high && low <= close <= high
  {
    MulLt(0.0, lf, price);
    MulLt(lf, hf, price);
    MulLe(0.0, cf, high - low);
    MulLe(cf, 1.0, high - low);
  }

  /** With draws in [0, 1) and any nonzero price the close is never within
      half a percent of the level: the price cancels out of the ratio, and
      the generation bounds keep the close at least 0.8% (Open = Low) or
      1.6% (Open = High) of the price away from the level. */
  lemma NeverNearLevel(side: Side, symbol: string, price: real, d: CandleDraws)
    requires ValidCandleDraws(d) && price != 0.0
    ensures !NearLevel(Candle(side, symbol, price, d))
  {
    match side
    case OpenLow => NeverNearLow(symbol, price, d);
    case OpenHigh => NeverNearHigh(symbol, price, d);
  }

  lemma NeverNearLow(symbol: string, price: real, d: CandleDraws)
    requires ValidCandleDraws(d) && price != 0.0
    ensures !NearLevel(Candle(OpenLow, symbol, price, d))
  {
    var lf, hf, cf := LowFactor(OpenLow, d), HighFactor(OpenLow, d), CloseFactor(OpenLow, d);
    var low, high := price * lf, price * hf;
    var close := low + (high - low) * cf;
    LowFar(price, lf, hf, cf, low, high, close);
    var c := Candle(OpenLow, symbol, price, d);
    assert c.low == low;
    assert c.high == high;
    assert c.price == close;
    assert Level(OpenLow, low, high) == low;
    assert c.proximity == AbsRatio(close - low, low);
  }

  lemma NeverNearHigh(symbol: string, price: real, d: CandleDraws)
    requires ValidCandleDraws(d) && price != 0.0
    ensures !NearLevel(Candle(OpenHigh, symbol, price, d))
  {
    var lf, hf, cf := LowFactor(OpenHigh, d), HighFactor(OpenHigh, d), CloseFactor(OpenHigh, d);
    var low, high := price * lf, price * hf;
    var close := low + (high - low) * cf;
    HighFar(price, lf, hf, cf, low, high, close);
    var c := Candle(OpenHigh, symbol, price, d);
    assert c.low == low;
    assert c.high == high;
    assert c.price == close;
    assert Level(OpenHigh, low, high) == high;
    assert c.proximity == AbsRatio(close - high, high);
  }

  /** The Open = Low bounds: the close is at least 0.4 of a range of at
      least 2% of the price above a low under 99% of it. */
  lemma LowFar(price: real, lf: real, hf: real, cf: real, low: real, high: real, close: real)
    requires price != 0.0 && 0.98 <= lf < 0.99 && 1.01 <= hf && 0.4 <= cf
    requires low == price * lf && high == price * hf && close == low + (high - low) * cf
    ensures Abs((close - low) / low) > 0.005
  {
    var x := (hf - lf) * cf;
    assert close - low == price * x by {
      assert high - low == price * (hf - lf);
    }
    RatioCancels(price, x, lf);
    MulLe(0.02, hf - lf, cf);
    MulLe(0.4, cf, 0.02);
    RatioAbove(x, lf, 0.005);
  }

  /** The Open = High bounds: the close is more than 0.4 of a range of at
      least 4% of the price below a high under 102% of it. */
  lemma HighFar(price: real, lf: real, hf: real, cf: real, low: real, high: real, close: real)
    requires price != 0.0 && 0.95 < lf <= 0.97 && 1.01 <= hf < 1.02 && 0.1 <= cf < 0.6
    requires low == price * lf && high == price * hf && close == low + (high - low) * cf
    ensures Abs((close - high) / high) > 0.005
  {
    var x := (hf - lf) * (1.0 - cf);
    assert close - high == price * -x by {
      assert high - low == price * (hf - lf);
      assert close - high == (high - low) * (cf - 1.0);
    }
    RatioCancels(price, -x, hf);
    assert (close - high) / high == -x / hf;
    MulLe(0.04, hf - lf, 1.0 - cf);
    MulLe(0.4, 1.0 - cf, 0.04);
    assert x >= 0.016;
    RatioAbove(x, hf, 0.005);
    assert Abs(-x / hf) > 0.005;
  }

  /** The proof of `NeverNearLevel` for every stock: with draws in [0, 1)
      both scanners always show an empty list, whatever the quotes. */
  lemma ScanAlwaysEmpty(side: Side, symbols: seq<string>, quotes: map<string, real>, draws: seq<CandleDraws>)
    requires |draws| == |symbols| && forall k :: 0 <= k < |draws| ==> ValidCandleDraws(draws[k])
    ensures Scan(side, symbols, quotes, draws) == []
  {
    var cs := Candles(side, symbols, quotes, draws);
    forall k | 0 <= k < |cs| ensures !Passes(side, cs[k]) {
      NeverNearLevel(side, symbols[k], Price(symbols[k], quotes, draws[k].price), draws[k]);
    }
    NoneKept(side, cs);
  }

  lemma {:induction false} NoneKept(side: Side, cs: seq<ScanCandle>)
    requires forall k :: 0 <= k < |cs| ==> !Passes(side, cs[k])
    ensures Kept(side, cs) == []
  {
    if |cs| > 0 {
      NoneKept(side, cs[1..]);
    }
  }

  lemma RatioCancels(p: real, x: real, y: real)
    requires p != 0.0 && y != 0.0
    ensures (p * x) / (p * y) == x / y
  {
    var q := x / y;
    assert q * y == x;
    assert (p * y) * q == p * x;
  }

  lemma RatioAbove(x: real, y: real, t: real)
    requires y > 0.0 && x > t * y
    ensures Abs(x / y) > t && Abs(-x / y) > t
  {
    var q := x / y;
    assert q * y == x;
    if q <= t {
      MulLe(q, t, y);
    }
  }
}
