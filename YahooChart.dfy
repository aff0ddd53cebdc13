// What api/market-trend/route.ts and api/financials_Chart/route.ts share:
// the `type` query parameter, and the chart-point mapping
// `parseFloat(close.toFixed(2)) || null` per timestamp, then
// `filter(d => d.value !== null)`.

module YahooChart {
  import opened Common
  import Seqs

  /** `searchParams.get('type') || 'kospi'`, as both routes read their
      query: a missing or empty parameter means kospi. */
  function TypeOf(param: Option<string>): (r: string)
    ensures param.None? || param.value == [] ==> r == "kospi"
    ensures param.Some? && param.value != [] ==> r == param.value
    ensures r != []
  {
    if param.None? || param.value == [] then "kospi" else param.value
  }

  /** The numeric value of `x.toFixed(2)`: the nearest multiple of 0.01,
      halves rounded away from zero (`toFixed` rounds the magnitude). */
  function Round2(x: real): (r: real)
    ensures -1.0 / 200.0 <= r - x <= 1.0 / 200.0
    ensures r == 0.0 <==> -1.0 / 200.0 < x < 1.0 / 200.0
  {
    var a := if x < 0.0 then -x else x;
    var n := (a * 100.0 + 0.5).Floor;
    assert n as real <= a * 100.0 + 0.5 < n as real + 1.0;
    var m := n as real / 100.0;
    if x < 0.0 then -m else m
  }

  /** What Yahoo's `chart.result[0]` holds that the routes read: the
      timestamps and the first quote's closes (JSON `null` for a gap); a
      missing field is `None`. */
  datatype ChartResult = ChartResult(timestamp: Option<seq<int>>, close: Option<seq<Option<real>>>)

  /** How the upstream Yahoo request ended: a non-ok status, a JSON body
      whose `chart.result[0]` may be missing, or a request or parse that
      threw. */
  datatype Upstream = NotOk(status: int) | Payload(result: Option<ChartResult>) | Threw

  /** The guard both routes make: a result with a timestamp list and a
      close list. */
  predicate HasSeries(u: Upstream)
  {
    u.Payload? && u.result.Some? && u.result.value.timestamp.Some? && u.result.value.close.Some?
  }

  /** A mapped point; `value` is `None` where the route puts `null`. */
  datatype Point = Point(time: string, value: Option<real>)

  /** `parseFloat(closes[i]?.toFixed(2)) || null`: a missing index, a
      `null` close, and a close that rounds to zero all give `null`. */
  function ValueAt(closes: seq<Option<real>>, i: nat): (r: Option<real>)
    ensures r.Some? <==> i < |closes| && closes[i].Some? && Round2(closes[i].value) != 0.0
    ensures r.Some? ==> r.value == Round2(closes[i].value)
  {
    if i < |closes| && closes[i].Some? && Round2(closes[i].value) != 0.0 then Some(Round2(closes[i].value))
    else None
  }

  /** `timestamps.map(…)`; `timeOf` stands for the `toTimeString().slice(0, 5)`
      of a timestamp. */
  function Mapped(timestamps: seq<int>, closes: seq<Option<real>>, timeOf: int -> string): (r: seq<Point>)
    ensures |r| == |timestamps|
    ensures forall i :: 0 <= i < |r| ==> r[i] == Point(timeOf(timestamps[i]), ValueAt(closes, i))
  {
    seq(|timestamps|, i requires 0 <= i < |timestamps| => Point(timeOf(timestamps[i]), ValueAt(closes, i)))
  }

  predicate HasValue(p: Point)
  {
    p.value.Some?
  }

  /** The route's `chartData`. */
  function ChartPoints(timestamps: seq<int>, closes: seq<Option<real>>, timeOf: int -> string): (r: seq<Point>)
    ensures |r| <= |timestamps|
    ensures forall i :: 0 <= i < |r| ==> r[i].value.Some?
  {
    Seqs.Filter(Mapped(timestamps, closes, timeOf), HasValue)
  }

  /** The points are the mapped timestamps, in timestamp order, that have a
      non-null close which does not round to zero; when every close is
      present and non-zero after rounding there is one point per
      timestamp. */
  lemma ChartPointsSpec(timestamps: seq<int>, closes: seq<Option<real>>, timeOf: int -> string, p: Point)
    ensures p in ChartPoints(timestamps, closes, timeOf) <==>
      p in Mapped(timestamps, closes, timeOf) && p.value.Some?
    ensures p in ChartPoints(timestamps, closes, timeOf) ==>
      exists i :: 0 <= i < |timestamps| && i < |closes| && closes[i].Some?
        && p == Point(timeOf(timestamps[i]), Some(Round2(closes[i].value))) && Round2(closes[i].value) != 0.0
    ensures Seqs.IsSubsequence(ChartPoints(timestamps, closes, timeOf), Mapped(timestamps, closes, timeOf))
    ensures (forall i :: 0 <= i < |timestamps| ==> ValueAt(closes, i).Some?) ==>
      |ChartPoints(timestamps, closes, timeOf)| == |timestamps|
  {
    var m := Mapped(timestamps, closes, timeOf);
    Seqs.FilterMembers(m, HasValue, p);
    Seqs.FilterIsSubsequence(m, HasValue);
    if forall i :: 0 <= i < |timestamps| ==> ValueAt(closes, i).Some? {
      Seqs.FilterAll(m, HasValue);
    }
  }

  /** A timestamp whose close is missing or null, or rounds to zero, has no
      point; a close of 0.004 is dropped, one of 0.005 kept as 0.01. */
  lemma SmallClosesDropped()
    ensures ValueAt([Some(0.004)], 0).None?
    ensures ValueAt([Some(0.005)], 0) == Some(0.01)
    ensures ValueAt([Some(-0.005)], 0) == Some(-0.01)
    ensures ValueAt([None], 0).None? && ValueAt([], 0).None?
  {
    assert (0.005 * 100.0 + 0.5).Floor == 1;
    assert (0.004 * 100.0 + 0.5).Floor == 0;
  }
}
