// components/PriceChart.tsx: acceptance of a polled price, the bounded
// history append, the previous/current price update, the change colour,
// and what the chart renders.

module PriceChart {
  import opened Common
  import Seqs

  datatype PricePoint = PricePoint(time: string, price: real)

  /** How one poll of `/price` ended: a non-ok status, a body whose `price`
      and `time` may be missing, or a request that threw with a message. */
  datatype PriceResponse = NotOk | Body(price: Option<real>, time: Option<string>) | Threw(message: string)

  const KeptBefore: nat := 60
  const NotOkError: string := "시세 조회 실패"
  const NoDataError: string := "시세 데이터 없음"

  /** `!json.price || !json.time` fails: a missing price, a zero price, a
      missing time or an empty time is rejected. */
  predicate Accepted(resp: PriceResponse)
  {
    resp.Body? && resp.price.Some? && resp.price.value != 0.0 && resp.time.Some? && resp.time.value != []
  }

  /** The message `fetchPrice` stores for a rejected poll. */
  function ErrorOf(resp: PriceResponse): (r: string)
    requires !Accepted(resp)
    ensures resp.NotOk? ==> r == NotOkError
    ensures resp.Body? ==> r == NoDataError
    ensures resp.Threw? ==> r == resp.message
  {
    match resp
    case NotOk => NotOkError
    case Body(_, _) => NoDataError
    case Threw(m) => m
  }

  /** `[...prev.slice(-60), point]`. */
  function Appended(history: seq<PricePoint>, point: PricePoint): (r: seq<PricePoint>)
    ensures |r| <= KeptBefore + 1 && |r| == Min(|history|, KeptBefore) + 1
    ensures r[|r| - 1] == point && r[..|r| - 1] == Seqs.TakeLast(history, KeptBefore)
    ensures r[..|r| - 1] == history[|history| - (|r| - 1)..]
  {
    Seqs.TakeLast(history, KeptBefore) + [point]
  }

  /** Appending keeps the newest points: any point among the previous sixty
      is still there, one place further forward once the history is full. */
  lemma {:induction false} AppendedKeepsRecent(history: seq<PricePoint>, point: PricePoint, i: nat)
    requires |history| - KeptBefore <= i < |history|
    ensures var r := Appended(history, point);
      var shift := |history| - (|r| - 1);
      0 <= i - shift < |r| - 1 && r[i - shift] == history[i]
  {
    var r := Appended(history, point);
    var shift := |history| - (|r| - 1);
    assert r[..|r| - 1] == history[shift..];
    assert r[i - shift] == r[..|r| - 1][i - shift];
  }

  /** `priceChangeColor`: red when the price rose, blue when it fell, and
      black when it is unchanged or either price is unknown. */
  function ChangeColor(prev: Option<real>, current: Option<real>): (r: string)
    ensures r == "red" <==> prev.Some? && current.Some? && current.value > prev.value
    ensures r == "blue" <==> prev.Some? && current.Some? && current.value < prev.value
    ensures r == "black" <==> prev.None? || current.None? || current.value == prev.value
  {
    if prev.Some? && current.Some? then
      if current.value > prev.value then "red"
      else if current.value < prev.value then "blue"
      else "black"
    else "black"
  }

  /** What the component renders: an error, once set, hides the chart. */
  datatype ChartView = ErrorView(message: string) | NoData | Chart(points: seq<PricePoint>)

  function View(error: Option<string>, data: seq<PricePoint>): (r: ChartView)
    ensures error.Some? && error.value != [] <==> r.ErrorView?
    ensures r.ErrorView? ==> r.message == error.value
    ensures r == NoData <==> (error.None? || error.value == []) && data == []
    ensures r.Chart? ==> r.points == data && data != []
  {
    if error.Some? && error.value != [] then ErrorView(error.value)
    else if data == [] then NoData
    else Chart(data)
  }

  class RealtimePriceChart {
    var data: seq<PricePoint>
    var currentPrice: Option<real>
    var prevPrice: Option<real>
    var error: Option<string>

    /** The history never holds more than sixty-one points. */
    ghost predicate Valid()
      reads this
    {
      |data| <= KeptBefore + 1
    }

    constructor()
      ensures Valid() && data == [] && currentPrice == None && prevPrice == None && error == None
    {
      data := [];
      currentPrice := None;
      prevPrice := None;
      error := None;
    }

    /** One poll. An accepted point moves the current price to the previous
        one (when there was one), becomes the current price and is appended
        to the bounded history; a rejected poll only sets the error. The
        error is never cleared. */
    method FetchPrice(resp: PriceResponse)
      requires Valid()
      modifies this
      ensures Valid()
      ensures Accepted(resp) ==>
        var point := PricePoint(resp.time.value, resp.price.value);
        data == Appended(old(data), point)
        && currentPrice == Some(point.price)
        && prevPrice == (if old(currentPrice).Some? then old(currentPrice) else old(prevPrice))
        && error == old(error)
      ensures !Accepted(resp) ==>
        error == Some(ErrorOf(resp))
        && data == old(data) && currentPrice == old(currentPrice) && prevPrice == old(prevPrice)
    {
      if !Accepted(resp) {
        error := Some(ErrorOf(resp));
        return;
      }
      var point := PricePoint(resp.time.value, resp.price.value);
      prevPrice := if currentPrice.Some? then currentPrice else prevPrice;
      currentPrice := Some(point.price);
      data := Appended(data, point);
    }
  }
}
