// components/SummaryTable.tsx: the 억/만 unit choice of `formatNumber`,
// the sign and colour rules of a summary row, the fetch effect with its
// empty-code guard, and what the table renders.

module SummaryTable {
  import opened Common

  const Eok: real := 100000000.0
  const Man: real := 10000.0

  /** A number as `formatNumber` shows it: in units of 억 (10^8), in
      units of 만 (10^4), or plainly. */
  datatype Formatted = InEok(units: real) | InMan(units: real) | Plain(n: real)

  /** `formatNumber`'s branch: thresholds are checked largest first, and
      exactly one branch applies; every negative number is plain. */
  function FormatNumber(n: real): (r: Formatted)
    ensures r.InEok? <==> n >= Eok
    ensures r.InMan? <==> Man <= n < Eok
    ensures r.Plain? <==> n < Man
    ensures r.InEok? ==> r.units * Eok == n && r.units >= 1.0
    ensures r.InMan? ==> r.units * Man == n && 1.0 <= r.units < Man
    ensures r.Plain? ==> r.n == n
  {
    if n >= Eok then InEok(n / Eok)
    else if n >= Man then InMan(n / Man)
    else Plain(n)
  }

  /** The text of a formatted number; `fixed2` stands for `toFixed(2)` and
      `locale` for `toLocaleString()`. */
  function FormatText(n: real, fixed2: real -> string, locale: real -> string): (r: string)
    ensures n >= Eok ==> r == fixed2(n / Eok) + "억"
    ensures Man <= n < Eok ==> r == fixed2(n / Man) + "만"
    ensures n < Man ==> r == locale(n)
  {
    match FormatNumber(n)
    case InEok(u) => fixed2(u) + "억"
    case InMan(u) => fixed2(u) + "만"
    case Plain(m) => locale(m)
  }

  /** One row of `/summary`: the fields the rules read. */
  datatype SummaryRow = SummaryRow(date: string, close: real, change: real, rate: real, volume: real, turnover: real)

  /** The classes and signs a row is drawn with. */
  datatype RowStyle = RowStyle(closeClass: string, changeClass: string, changeSign: string,
                               rateClass: string, rateSign: string)

  /** Red for a positive value, blue for a negative one, `zero` otherwise. */
  function SignClass(x: real, zero: string): string
  {
    if x > 0.0 then "text-red-600" else if x < 0.0 then "text-blue-600" else zero
  }

  /** The colour and sign rules of a row: 전일대비 by its own sign, the close
      and the rate cell by the sign of 등락률, "+" only for positive values. */
  function StyleOf(row: SummaryRow): (r: RowStyle)
    ensures r.changeSign == "+" <==> row.change > 0.0
    ensures r.changeSign == "" <==> row.change <= 0.0
    ensures (r.changeClass == "text-red-600" <==> row.change > 0.0)
      && (r.changeClass == "text-blue-600" <==> row.change < 0.0)
      && (r.changeClass == "text-gray-700" <==> row.change == 0.0)
    ensures (r.closeClass == "text-red-600" <==> row.rate > 0.0)
      && (r.closeClass == "text-blue-600" <==> row.rate < 0.0)
      && (r.closeClass == "text-gray-900" <==> row.rate == 0.0)
    ensures (r.rateClass == "text-red-600" <==> row.rate > 0.0)
      && (r.rateClass == "text-blue-600" <==> row.rate < 0.0)
      && (r.rateClass == "text-gray-700" <==> row.rate == 0.0)
    ensures r.rateSign == "+" <==> row.rate > 0.0
    ensures r.rateSign == "" <==> row.rate <= 0.0
  {
    var isUp := row.rate > 0.0;
    var isDown := row.rate < 0.0;
    RowStyle(if isUp then "text-red-600" else if isDown then "text-blue-600" else "text-gray-900",
             SignClass(row.change, "text-gray-700"),
             if row.change > 0.0 then "+" else "",
             if isUp then "text-red-600" else if isDown then "text-blue-600" else "text-gray-700",
             if row.rate > 0.0 then "+" else "")
  }

  /** What the component renders. */
  datatype TableView = LoadingView | NoData | Table(rows: seq<SummaryRow>)

  /** The loading view wins, then the empty view, then the table. */
  function View(loading: bool, data: seq<SummaryRow>): (r: TableView)
    ensures loading <==> r == LoadingView
    ensures r == NoData <==> !loading && data == []
    ensures r.Table? <==> !loading && data != []
    ensures r.Table? ==> r.rows == data
  {
    if loading then LoadingView else if data == [] then NoData else Table(data)
  }

  /** The `/summary` request: the code and the number of days. */
  datatype SummaryRequest = SummaryRequest(code: string, days: int)

  const DefaultDays: int := 3

  /** The component's props and state hooks. */
  class SummaryPanel {
    const code: string
    const days: int
    var data: seq<SummaryRow>
    var loading: bool

    /** `days` defaults to 3 when the prop is absent. */
    constructor(code: string, days: Option<int>)
      ensures this.code == code && this.days == (if days.Some? then days.value else DefaultDays)
      ensures data == [] && !loading
    {
      this.code := code;
      this.days := if days.Some? then days.value else DefaultDays;
      data := [];
      loading := false;
    }

    /** The start of the fetch effect: an empty code sends nothing and
        leaves loading and data as they were; any other sends the code and
        days and starts loading. */
    method StartFetch() returns (sent: Option<SummaryRequest>)
      modifies this`loading
      ensures code == [] ==> sent == None && loading == old(loading)
      ensures code != [] ==> sent == Some(SummaryRequest(code, days)) && loading
    {
      if code == [] {
        return None;
      }
      loading := true;
      sent := Some(SummaryRequest(code, days));
    }

    /** The end of the request: `answer` is the parsed body, or `None` when
        the request or its parsing failed, which empties the data. Loading
        ends either way, so the view is the table exactly when rows came
        back. */
    method FinishFetch(answer: Option<seq<SummaryRow>>)
      modifies this`data, this`loading
      ensures data == (if answer.Some? then answer.value else []) && !loading
      ensures View(loading, data).Table? <==> answer.Some? && answer.value != []
    {
      data := if answer.Some? then answer.value else [];
      loading := false;
    }
  }
}
