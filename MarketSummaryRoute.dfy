// api/market-summary/route.ts: the change and sign rules of `fetchYahoo`
// and the per-symbol fallback and order of `GET`.

module MarketSummaryRoute {
  import opened Common

  datatype SymbolEntry = SymbolEntry(key: string, name: string, symbol: string)

  /** `YAHOO_SYMBOLS`, in configuration order. */
  const Symbols: seq<SymbolEntry> := [
    SymbolEntry("kospi", "코스피", "^KS11"),
    SymbolEntry("kosdaq", "코스닥", "^KQ11"),
    SymbolEntry("nasdaq", "나스닥", "^IXIC"),
    SymbolEntry("usdkrw", "달러/원", "USDKRW=X"),
    SymbolEntry("sp500", "S&P500", "^GSPC"),
    SymbolEntry("dji", "다우존스", "^DJI"),
    SymbolEntry("jpkrw", "엔/원", "JPYKRW=X"),
    SymbolEntry("cnykrw", "위안/원", "CNYKRW=X"),
    SymbolEntry("eurkrw", "유로/원", "EURKRW=X")
  ]

  /** A JavaScript number as the arithmetic here can produce it. */
  datatype JsNum = Finite(v: real) | NaN | Infinity | NegInfinity

  /** `price - prev`: `undefined` on either side gives `NaN`. */
  function Diff(price: Option<real>, prev: Option<real>): (r: JsNum)
    ensures price.Some? && prev.Some? <==> r.Finite?
    ensures r.Finite? ==> r.v == price.value - prev.value
  {
    if price.Some? && prev.Some? then Finite(price.value - prev.value) else NaN
  }

  /** `(diff / prev) * 100`, with IEEE division by zero. */
  function Rate(diff: JsNum, prev: Option<real>): (r: JsNum)
    ensures diff.Finite? && prev.Some? && prev.value != 0.0 ==> r == Finite(diff.v / prev.value * 100.0)
    ensures diff.Finite? && prev.Some? && prev.value == 0.0 ==>
      r == (if diff.v > 0.0 then Infinity else if diff.v < 0.0 then NegInfinity else NaN)
  {
    match diff
    case Finite(d) =>
      if prev.None? then NaN
      else if prev.value != 0.0 then Finite(d / prev.value * 100.0)
      else if d > 0.0 then Infinity
      else if d < 0.0 then NegInfinity
      else NaN
    case NaN => NaN
    case Infinity => if prev.Some? && prev.value > 0.0 then Infinity else if prev.Some? && prev.value < 0.0 then NegInfinity else NaN
    case NegInfinity => if prev.Some? && prev.value > 0.0 then NegInfinity else if prev.Some? && prev.value < 0.0 then Infinity else NaN
  }

  /** `x > 0` and `x >= 0`: false for `NaN`. */
  predicate Positive(x: JsNum)
  {
    (x.Finite? && x.v > 0.0) || x.Infinity?
  }

  predicate NonNegative(x: JsNum)
  {
    (x.Finite? && x.v >= 0.0) || x.Infinity?
  }

  /** `x.toFixed(2)`; `fixed2` stands for it on finite numbers. */
  function Fixed(x: JsNum, fixed2: real -> string): string
  {
    match x
    case Finite(v) => fixed2(v)
    case NaN => "NaN"
    case Infinity => "Infinity"
    case NegInfinity => "-Infinity"
  }

  /** What Yahoo's `meta` held for one symbol, or a failure (a request
      that threw, or a body without `chart`). */
  datatype Quote = Meta(price: Option<real>, prev: Option<real>) | Failed

  /** An entry of the response; `isUp` is `None` for `null`. */
  datatype Entry = Entry(key: string, name: string, value: string, changeValue: string, changeRate: string,
                         isUp: Option<bool>)

  /** The entry of one symbol: `fetchYahoo`'s fields, or the fallback
      record when it failed. `locale` stands for `toLocaleString()`. */
  function EntryFor(s: SymbolEntry, q: Quote, fixed2: real -> string, locale: real -> string): (r: Entry)
    ensures r.key == s.key && r.name == s.name
    ensures q.Failed? <==> r.isUp.None?
    ensures q.Failed? ==> r.value == "-" && r.changeValue == "-" && r.changeRate == "-"
    ensures q.Meta? ==>
      var diff := Diff(q.price, q.prev);
      var sign := if Positive(diff) then "+" else "";
      r.value == (if q.price.Some? then locale(q.price.value) else "-")
      && r.changeValue == sign + Fixed(diff, fixed2)
      && r.changeRate == sign + Fixed(Rate(diff, q.prev), fixed2) + "%"
      && r.isUp == Some(NonNegative(diff))
  {
    match q
    case Failed => Entry(s.key, s.name, "-", "-", "-", None)
    case Meta(price, prev) =>
      var diff := Diff(price, prev);
      var rate := Rate(diff, prev);
      Entry(s.key, s.name,
            if price.Some? then locale(price.value) else "-",
            (if Positive(diff) then "+" else "") + Fixed(diff, fixed2),
            (if Positive(diff) then "+" else "") + Fixed(rate, fixed2) + "%",
            Some(NonNegative(diff)))
  }

  /** `GET`: one entry per configured symbol, in configuration order;
      `respond` gives what each symbol's request returned. */
  function Get(respond: string -> Quote, fixed2: real -> string, locale: real -> string): (r: seq<Entry>)
    ensures |r| == |Symbols| == 9
    ensures forall i :: 0 <= i < |r| ==> r[i] == EntryFor(Symbols[i], respond(Symbols[i].symbol), fixed2, locale)
    ensures forall i :: 0 <= i < |r| ==> r[i].key == Symbols[i].key && r[i].name == Symbols[i].name
  {
    seq(|Symbols|, i requires 0 <= i < |Symbols| => EntryFor(Symbols[i], respond(Symbols[i].symbol), fixed2, locale))
  }

  /** A failing symbol changes no other entry: two runs whose responses
      agree on a symbol give that symbol the same entry. */
  lemma EntriesIndependent(respond: string -> Quote, respond': string -> Quote, fixed2: real -> string,
                           locale: real -> string, i: nat)
    requires i < |Symbols| && respond(Symbols[i].symbol) == respond'(Symbols[i].symbol)
    ensures Get(respond, fixed2, locale)[i] == Get(respond', fixed2, locale)[i]
  {
  }

  /** With both prices known, the "+" prefix marks a rise and `isUp` a
      rise or no change: an unchanged price is up but has no "+". */
  lemma SignRules(price: real, prev: real, fixed2: real -> string, locale: real -> string, s: SymbolEntry)
    ensures var r := EntryFor(s, Meta(Some(price), Some(prev)), fixed2, locale);
      r.isUp == Some(price >= prev)
      && r.changeValue == (if price > prev then "+" else "") + fixed2(price - prev)
      && (price == prev ==> r.isUp == Some(true) && r.changeValue == fixed2(0.0))
  {
    var r := EntryFor(s, Meta(Some(price), Some(prev)), fixed2, locale);
    assert Diff(Some(price), Some(prev)) == Finite(price - prev);
    if price == prev {
      assert r.changeValue == "" + fixed2(0.0);
    }
  }

  /** A missing previous close makes the change `NaN`: the value is still
      shown, the change texts read "NaN" and "NaN%", and it is not up. */
  lemma MissingPreviousClose(price: real, fixed2: real -> string, locale: real -> string, s: SymbolEntry)
    ensures EntryFor(s, Meta(Some(price), None), fixed2, locale)
      == Entry(s.key, s.name, locale(price), "NaN", "NaN%", Some(false))
  {
    assert "" + "NaN" == "NaN";
  }
}
