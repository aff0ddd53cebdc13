// components/RSIChart.tsx: the `RSI !== null` filter, the 252-point
// window, the fetch outcome and the render priority.

module RsiChart {
  import opened Common
  import Seqs

  /** An `RSI` field of the response: a number, `null`, or absent
      (`undefined`, which `!== null` lets through). */
  datatype RsiValue = Number(value: real) | Null | Undefined

  datatype ChartItem = ChartItem(date: string, rsi: RsiValue)

  const Window: nat := 252
  const NotOkError: string := "RSI 데이터 조회 실패"

  /** `d.RSI !== null`. */
  predicate NotNull(d: ChartItem)
  {
    d.rsi != Null
  }

  /** `json.filter((d) => d.RSI !== null)`. */
  function Kept(rows: seq<ChartItem>): (r: seq<ChartItem>)
    ensures forall i :: 0 <= i < |r| ==> r[i].rsi != Null
  {
    Seqs.Filter(rows, NotNull)
  }

  /** The kept points are exactly the rows whose RSI is not null, in their
      original order, and a row with a number or a missing RSI is kept. */
  lemma KeptSpec(rows: seq<ChartItem>, d: ChartItem)
    ensures d in Kept(rows) <==> d in rows && d.rsi != Null
    ensures Seqs.IsSubsequence(Kept(rows), rows)
    ensures (forall i :: 0 <= i < |rows| ==> rows[i].rsi != Null) ==> Kept(rows) == rows
  {
    Seqs.FilterMembers(rows, NotNull, d);
    Seqs.FilterIsSubsequence(rows, NotNull);
    if forall i :: 0 <= i < |rows| ==> rows[i].rsi != Null {
      Seqs.FilterAll(rows, NotNull);
    }
  }

  /** `data.length > 252 ? data.slice(-252) : data`. */
  function Recent(data: seq<ChartItem>): (r: seq<ChartItem>)
    ensures |r| == Min(|data|, Window)
    ensures r == data[|data| - |r|..]
    ensures |data| <= Window ==> r == data
  {
    if |data| > Window then data[|data| - Window..] else data
  }

  /** `d.RSI ?? null` in the plotted series: a missing RSI is drawn as a gap. */
  function Plotted(d: ChartItem): (r: Option<real>)
    ensures r.Some? <==> d.rsi.Number?
    ensures r.Some? ==> r.value == d.rsi.value
  {
    match d.rsi
    case Number(v) => Some(v)
    case _ => None
  }

  /** How the request ended: a non-ok status, an array of rows, or a throw
      with its message (a body that is not an array throws too). */
  datatype ChartResponse = NotOk | Rows(rows: seq<ChartItem>) | Threw(message: string)

  datatype RsiState = RsiState(data: seq<ChartItem>, loading: bool, error: Option<string>)

  /** The end of `fetchChart`: rows are filtered and stored, any failure
      sets its message and keeps the data; loading ends false either way. */
  function AfterFetch(s: RsiState, resp: ChartResponse): (r: RsiState)
    ensures !r.loading
    ensures resp.Rows? ==> r.data == Kept(resp.rows) && r.error == s.error
    ensures resp.NotOk? ==> r.error == Some(NotOkError) && r.data == s.data
    ensures resp.Threw? ==> r.error == Some(resp.message) && r.data == s.data
  {
    match resp
    case Rows(rows) => RsiState(Kept(rows), false, s.error)
    case NotOk => RsiState(s.data, false, Some(NotOkError))
    case Threw(m) => RsiState(s.data, false, Some(m))
  }

  /** What the component renders. */
  datatype RsiView = LoadingView | ErrorView(message: string) | NoData | Chart(dates: seq<string>, values: seq<Option<real>>)

  /** Loading wins, then a (non-empty) error, then an empty data set; the
      chart plots the recent window. */
  function View(s: RsiState): (r: RsiView)
    ensures s.loading <==> r == LoadingView
    ensures r.ErrorView? <==> !s.loading && s.error.Some? && s.error.value != []
    ensures r == NoData <==> !s.loading && (s.error.None? || s.error.value == []) && s.data == []
    ensures r.Chart? ==> |r.dates| == |r.values| == Min(|s.data|, Window)
    ensures r.Chart? ==> forall i :: 0 <= i < |r.dates| ==>
      r.dates[i] == Recent(s.data)[i].date && r.values[i] == Plotted(Recent(s.data)[i])
  {
    if s.loading then LoadingView
    else if s.error.Some? && s.error.value != [] then ErrorView(s.error.value)
    else if s.data == [] then NoData
    else
      var recent := Recent(s.data);
      Chart(seq(|recent|, i requires 0 <= i < |recent| => recent[i].date),
            seq(|recent|, i requires 0 <= i < |recent| => Plotted(recent[i])))
  }
}
