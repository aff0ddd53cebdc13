// api/financials_Chart/route.ts: the `type` query parameter, its
// case-insensitive lookup in the three-index symbol table, and the
// responses of `GET`, errors included.

module FinancialsChartRoute {
  import opened Common
  import Strs
  import opened YahooChart

  /** `symbolMap`. */
  const SymbolMap: map<string, string> := map["kospi" := "^KS11", "kosdaq" := "^KQ11", "kospi200" := "^KS200"]

  const DefaultSymbol: string := "^KS11"
  const UpstreamError: string := "Yahoo API 요청 실패"
  const FormatError: string := "응답 데이터 형식 오류"
  const ServerError: string := "서버 오류 발생"

  /** `symbolMap[type.toLowerCase()] || '^KS11'`. */
  function SymbolOf(param: Option<string>): (r: string)
    ensures r in SymbolMap.Values
    ensures Strs.Lower(TypeOf(param)) in SymbolMap ==> r == SymbolMap[Strs.Lower(TypeOf(param))]
    ensures Strs.Lower(TypeOf(param)) !in SymbolMap ==> r == DefaultSymbol
  {
    var key := Strs.Lower(TypeOf(param));
    assert SymbolMap["kospi"] == DefaultSymbol;
    if key in SymbolMap then SymbolMap[key] else DefaultSymbol
  }

  /** The lookup ignores ASCII case, and a missing parameter is ^KS11. */
  lemma SymbolOfSpec(t: string)
    ensures SymbolOf(Some(Strs.Lower(t))) == SymbolOf(Some(t))
    ensures SymbolOf(None) == SymbolOf(Some([])) == "^KS11"
  {
    Strs.LowerIdempotent(t);
    assert Strs.Lower("kospi") == "kospi";
  }

  /** A response body: the points, or `{ error, status? }`. */
  datatype Body = Points(points: seq<Point>) | Error(error: string, upstreamStatus: Option<int>)

  datatype Response = Response(status: int, body: Body)

  /** `GET`. A non-ok upstream answers 500 with its status, a malformed
      payload 500 with the format error (not `[]`), a throw 500 with the
      server error; otherwise 200 with the points. */
  function Get(upstream: Upstream, timeOf: int -> string): (r: Response)
    ensures r.status == 200 <==> r.body.Points?
    ensures r.status != 200 ==> r.status == 500
    ensures upstream.NotOk? ==> r == Response(500, Error(UpstreamError, Some(upstream.status)))
    ensures upstream.Threw? ==> r == Response(500, Error(ServerError, None))
    ensures upstream.Payload? && !HasSeries(upstream) ==> r == Response(500, Error(FormatError, None))
    ensures HasSeries(upstream) ==>
      r == Response(200, Points(ChartPoints(upstream.result.value.timestamp.value, upstream.result.value.close.value, timeOf)))
  {
    match upstream
    case NotOk(status) => Response(500, Error(UpstreamError, Some(status)))
    case Threw => Response(500, Error(ServerError, None))
    case Payload(Some(ChartResult(Some(ts), Some(closes)))) =>
      Response(200, Points(ChartPoints(ts, closes, timeOf)))
    case Payload(_) => Response(500, Error(FormatError, None))
  }
}
