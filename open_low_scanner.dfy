/** The Open = Low scanner of the live dashboard: every F&O symbol with a
    live record whose open lies within half a percent of its low, ordered
    by that distance, nearest first. */
module OpenLowScanner {
  import opened Common
  import opened LiveMarket

  /** The largest accepted distance of the open from the low, in percent. */
  const ProximityThreshold: real := 0.5

  datatype ScanEntry = ScanEntry(symbol: string, stock: StockData, proximity: real)

  /** The distance of the open from the low in percent of the open. An open
      of zero yields no number: the division gives Infinity or NaN, which
      the threshold test never accepts. */
  function Proximity(s: StockData): (p: Option<real>)
    ensures p.None? <==> s.open == 0.0
    ensures p.Some? && s.open > 0.0 ==> p.value >= 0.0
    ensures p.Some? && s.open == s.low ==> p.value == 0.0
  {
    if s.open == 0.0 then None else Some(Abs(s.open - s.low) / s.open * 100.0)
  }

  predicate Qualifies(s: StockData) {
    Proximity(s).Some? && Proximity(s).value <= ProximityThreshold
  }

  /** For a positive open the test reads in prices alone: the open is at
      most half a percent of itself away from the low, the bound included. */
  lemma QualifiesInPrices(s: StockData)
    requires s.open > 0.0
    ensures Qualifies(s) <==> Abs(s.open - s.low) * 200.0 <= s.open
  {
    RatioAtMost(Abs(s.open - s.low), s.open, 0.005);
  }

  lemma RatioAtMost(d: real, o: real, t: real)
    requires o > 0.0
    ensures d / o <= t <==> d <= t * o
  {
    var q := d / o;
    assert q * o == d;
    if q <= t {
      MulLe(q, t, o);
    } else {
      MulLt(t, q, o);
    }
  }

  /** The row shown for a qualifying symbol. */
  function Entry(sym: string, stocks: map<string, StockData>): ScanEntry
    requires sym in stocks && Proximity(stocks[sym]).Some?
  {
    ScanEntry(sym, stocks[sym], Proximity(stocks[sym]).value)
  }

  /** The symbols, in list order, that have a record and qualify: the
      source's `map` to an entry or null followed by its `filter`. */
  function Qualifying(symbols: seq<string>, stocks: map<string, StockData>): seq<ScanEntry> {
    if |symbols| == 0 then []
    else
      var rest := Qualifying(symbols[1..], stocks);
      var sym := symbols[0];
      if sym in stocks && Qualifies(stocks[sym]) then [Entry(sym, stocks)] + rest else rest
  }

  /** An entry is listed exactly when its symbol is one of the F&O symbols,
      has a record, qualifies, and the entry is that record's row. */
  lemma {:induction false} QualifyingMembers(symbols: seq<string>, stocks: map<string, StockData>, e: ScanEntry)
    ensures e in Qualifying(symbols, stocks)
            <==> (e.symbol in symbols && e.symbol in stocks && Qualifies(stocks[e.symbol])
                  && e == Entry(e.symbol, stocks))
  {
    if |symbols| > 0 {
      QualifyingMembers(symbols[1..], stocks, e);
      assert symbols == [symbols[0]] + symbols[1..];
    }
  }

  predicate SortedByProximity(s: seq<ScanEntry>) {
    forall i, j :: 0 <= i < j < |s| ==> s[i].proximity <= s[j].proximity
  }

  /** `s` with `e` placed before the first entry at least as far as `e`. */
  function Insert(e: ScanEntry, s: seq<ScanEntry>): seq<ScanEntry> {
    if |s| == 0 || e.proximity <= s[0].proximity then [e] + s
    else [s[0]] + Insert(e, s[1..])
  }

  /** Inserting into a sorted list keeps it sorted. */
  lemma {:induction false} InsertSorted(e: ScanEntry, s: seq<ScanEntry>)
    requires SortedByProximity(s)
    ensures SortedByProximity(Insert(e, s))
    ensures |Insert(e, s)| == |s| + 1
    ensures Insert(e, s)[0] == e || Insert(e, s)[0] == s[0]
  {
    if |s| > 0 && e.proximity > s[0].proximity {
      var t := Insert(e, s[1..]);
      InsertSorted(e, s[1..]);
      assert t[0].proximity >= s[0].proximity;
      var r := [s[0]] + t;
      forall i, j | 0 <= i < j < |r| ensures r[i].proximity <= r[j].proximity {
        if i > 0 {
          assert r[i] == t[i - 1] && r[j] == t[j - 1];
        } else {
          assert r[j] == t[j - 1];
        }
      }
    }
  }

  /** Inserting adds exactly the one entry. */
  lemma {:induction false} InsertPermutes(e: ScanEntry, s: seq<ScanEntry>)
    ensures multiset(Insert(e, s)) == multiset(s) + multiset{e}
  {
    if |s| > 0 && e.proximity > s[0].proximity {
      InsertPermutes(e, s[1..]);
      assert s == [s[0]] + s[1..];
    }
  }

  /** The ascending sort by proximity (`(a, b) => a.proximity - b.proximity`),
      stable like the sort it models. */
  function SortByProximity(s: seq<ScanEntry>): seq<ScanEntry> {
    if |s| == 0 then [] else Insert(s[0], SortByProximity(s[1..]))
  }

  /** The sort orders by proximity and neither adds nor drops an entry. */
  lemma {:induction false} SortFacts(s: seq<ScanEntry>)
    ensures SortedByProximity(SortByProximity(s))
    ensures multiset(SortByProximity(s)) == multiset(s)
  {
    if |s| > 0 {
      SortFacts(s[1..]);
      InsertSorted(s[0], SortByProximity(s[1..]));
      InsertPermutes(s[0], SortByProximity(s[1..]));
      assert s == [s[0]] + s[1..];
    }
  }

  /** The scanner's list. */
  function BullishStocks(symbols: seq<string>, stocks: map<string, StockData>): seq<ScanEntry> {
    SortByProximity(Qualifying(symbols, stocks))
  }

  /** The scanner lists, nearest first, a rearrangement of the qualifying
      rows; a row is shown exactly when its symbol is an F&O symbol with a
      record whose open is within the threshold of its low. */
  lemma BullishStocksFacts(symbols: seq<string>, stocks: map<string, StockData>, e: ScanEntry)
    ensures SortedByProximity(BullishStocks(symbols, stocks))
    ensures multiset(BullishStocks(symbols, stocks)) == multiset(Qualifying(symbols, stocks))
    ensures e in BullishStocks(symbols, stocks)
            <==> (e.symbol in symbols && e.symbol in stocks && Qualifies(stocks[e.symbol])
                  && e == Entry(e.symbol, stocks))
    ensures e in BullishStocks(symbols, stocks) ==> e.proximity <= ProximityThreshold
  {
    SortFacts(Qualifying(symbols, stocks));
    QualifyingMembers(symbols, stocks, e);
    assert e in BullishStocks(symbols, stocks) <==> e in multiset(BullishStocks(symbols, stocks));
    assert e in Qualifying(symbols, stocks) <==> e in multiset(Qualifying(symbols, stocks));
  }
}
