// api/market-trend/route.ts: the `type` query parameter, its
// case-insensitive lookup in the symbol table with the kospi fallback,
// and the responses of `GET`.

module MarketTrendRoute {
  import opened Common
  import Strs
  import opened YahooChart

  /** An entry of `YAHOO_MAP`. */
  datatype Market = Market(symbol: string, name: string)

  /** `YAHOO_MAP`. */
  const YahooMap: map<string, Market> := map[
    "kospi" := Market("^KS11", "코스피"),
    "kosdaq" := Market("^KQ11", "코스닥"),
    "nasdaq" := Market("^IXIC", "나스닥"),
    "usdkrw" := Market("USDKRW=X", "달러/원"),
    "sp500" := Market("^GSPC", "S&P500"),
    "dji" := Market("^DJI", "다우존스"),
    "jpkrw" := Market("JPYKRW=X", "엔/원"),
    "cnykrw" := Market("CNYKRW=X", "위안/원"),
    "eurkrw" := Market("EURKRW=X", "유로/원")
  ]

  /** `YAHOO_MAP[type.toLowerCase()] || YAHOO_MAP.kospi`. */
  function Lookup(param: Option<string>): (r: Market)
    ensures r in YahooMap.Values
    ensures Strs.Lower(TypeOf(param)) in YahooMap ==> r == YahooMap[Strs.Lower(TypeOf(param))]
    ensures Strs.Lower(TypeOf(param)) !in YahooMap ==> r == YahooMap["kospi"]
  {
    var key := Strs.Lower(TypeOf(param));
    if key in YahooMap then YahooMap[key] else YahooMap["kospi"]
  }

  /** The lookup ignores ASCII case: a parameter and its lower-cased form
      name the same market, and a missing parameter is kospi. */
  lemma LookupSpec(t: string)
    ensures Lookup(Some(Strs.Lower(t))) == Lookup(Some(t))
    ensures Lookup(None) == Lookup(Some([])) == Market("^KS11", "코스피")
  {
    Strs.LowerIdempotent(t);
    assert Strs.Lower("kospi") == "kospi";
  }

  datatype Response = Response(status: int, points: seq<Point>)

  /** `GET`. Every failure, the non-ok status included (it is thrown and
      caught), answers `[]` with status 200; a missing result, timestamp
      list or close list does too; otherwise the points. */
  function Get(upstream: Upstream, timeOf: int -> string): (r: Response)
    ensures r.status == 200
    ensures !HasSeries(upstream) ==> r.points == []
    ensures HasSeries(upstream) ==>
      r.points == ChartPoints(upstream.result.value.timestamp.value, upstream.result.value.close.value, timeOf)
      && |r.points| <= |upstream.result.value.timestamp.value|
  {
    match upstream
    case Payload(Some(ChartResult(Some(ts), Some(closes)))) =>
      Response(200, ChartPoints(ts, closes, timeOf))
    case _ => Response(200, [])
  }
}
