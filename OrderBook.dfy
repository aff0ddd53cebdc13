// components/OrderBook.tsx: the (order book, error) pair the socket
// handlers drive, the five-level slices of each side, and which of the
// three views is shown.

module OrderBook {
  import opened Common
  import Seqs

  /** One price level: price and quantity, as the strings the server sends. */
  datatype HogaItem = HogaItem(price: string, qty: string)

  /** The `data` of an "orderbook" message; a side may be missing. */
  datatype OrderbookData = OrderbookData(
    stockCode: string, sell: Option<seq<HogaItem>>, buy: Option<seq<HogaItem>>,
    sellTotal: string, buyTotal: string, accVol: string)

  /** A socket message: `Unparseable` when `JSON.parse` or reading its
      `type` throws, otherwise its `type` and `data` (`None` for a
      missing or `null` payload). */
  datatype Message = Unparseable | Parsed(kind: string, data: Option<OrderbookData>)

  const MarketHoursError: string := "실시간 호가 데이터는 장중(09:00~15:30)에만 제공됩니다."
  const ParseError: string := "WS 데이터 파싱 에러"
  const SocketError: string := "WS 오류 (장 마감/비영업시간이거나 서버 연결 문제)"
  const ClosedError: string := "WS 연결이 종료되었습니다. (장마감/비영업시간)"

  const LevelsShown: nat := 5

  /** `side?.slice(0, 5) ?? []`: the first min(n, 5) levels of a side, or
      none when the side is missing. */
  function Levels(side: Option<seq<HogaItem>>): (r: seq<HogaItem>)
    ensures side.None? ==> r == []
    ensures side.Some? ==> |r| == Min(|side.value|, LevelsShown) && r <= side.value
  {
    match side
    case None => []
    case Some(levels) => Seqs.Take(levels, LevelsShown)
  }

  /** `orderbook?.sell?.slice(0, 5) ?? []`. */
  function SellList(book: Option<OrderbookData>): (r: seq<HogaItem>)
    ensures book.None? ==> r == []
    ensures book.Some? ==> r == Levels(book.value.sell)
  {
    match book
    case None => []
    case Some(b) => Levels(b.sell)
  }

  /** `orderbook?.buy?.slice(0, 5) ?? []`. */
  function BuyList(book: Option<OrderbookData>): (r: seq<HogaItem>)
    ensures book.None? ==> r == []
    ensures book.Some? ==> r == Levels(book.value.buy)
  {
    match book
    case None => []
    case Some(b) => Levels(b.buy)
  }

  /** What the panel shows. */
  datatype View = ErrorView(text: string) | Waiting | Book(data: OrderbookData, sell: seq<HogaItem>, buy: seq<HogaItem>)

  /** `error ? … : !orderbook ? … : …`: a (non-empty) error wins over any
      data, and without either the waiting view is shown. */
  function ViewOf(book: Option<OrderbookData>, error: Option<string>): (r: View)
    ensures r.ErrorView? <==> error.Some? && error.value != ""
    ensures r.ErrorView? ==> r.text == error.value
    ensures r.Waiting? <==> (error.None? || error.value == "") && book.None?
    ensures r.Book? ==> book == Some(r.data) && |r.sell| <= LevelsShown && |r.buy| <= LevelsShown
  {
    if error.Some? && error.value != "" then ErrorView(error.value)
    else if book.None? then Waiting
    else Book(book.value, SellList(book), BuyList(book))
  }

  /** The component's two state hooks. */
  class OrderBookPanel {
    var orderbook: Option<OrderbookData>
    var error: Option<string>

    constructor()
      ensures orderbook == None && error == None
    {
      orderbook := None;
      error := None;
    }

    function View(): View
      reads this
    {
      ViewOf(orderbook, error)
    }

    /** The effect for a new `code`: both fields are cleared before the
        socket opens. */
    method Reset()
      modifies this
      ensures orderbook == None && error == None
      ensures View() == Waiting
    {
      error := None;
      orderbook := None;
    }

    /** `ws.onmessage`. */
    method OnMessage(msg: Message)
      modifies this
      ensures msg.Unparseable? ==> error == Some(ParseError) && orderbook == old(orderbook)
      ensures msg.Parsed? && msg.kind == "orderbook" ==> orderbook == msg.data && error == None
      ensures msg.Parsed? && msg.kind == "error" ==> error == Some(MarketHoursError) && orderbook == old(orderbook)
      ensures msg.Parsed? && msg.kind != "orderbook" && msg.kind != "error" ==>
        orderbook == old(orderbook) && error == old(error)
      ensures msg.Parsed? && msg.kind == "orderbook" && msg.data.Some? ==>
        View() == Book(msg.data.value, SellList(msg.data), BuyList(msg.data))
      ensures msg.Unparseable? || (msg.Parsed? && msg.kind == "error") ==> View().ErrorView?
    {
      match msg
      case Unparseable =>
        error := Some(ParseError);
      case Parsed(kind, data) =>
        if kind == "orderbook" {
          orderbook := data;
          error := None;
        } else if kind == "error" {
          error := Some(MarketHoursError);
        }
    }

    /** `ws.onerror`. */
    method OnError()
      modifies this
      ensures error == Some(SocketError) && orderbook == old(orderbook)
      ensures View() == ErrorView(SocketError)
    {
      error := Some(SocketError);
    }

    /** `ws.onclose`. */
    method OnClose()
      modifies this
      ensures error == Some(ClosedError) && orderbook == old(orderbook)
      ensures View() == ErrorView(ClosedError)
    {
      error := Some(ClosedError);
    }
  }
}
