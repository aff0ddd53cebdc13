// components/Watchlist.tsx: the favourite list with its add and remove
// handlers, the search over the full stock list, the per-round price
// ticks and the up/down classification of a row.

module Watchlist {
  import opened Common
  import Strs
  import Seqs

  /** A listed stock; `name` may be missing in the server's list. */
  datatype Stock = Stock(code: string, name: Option<string>)

  /** A favourite: the stock and the row id the database returned. */
  datatype WatchlistStock = WatchlistStock(stock: Stock, id: Option<int>)

  /** One price tick; `null` ticks are `None` in the price map. */
  datatype Tick = Tick(price: int, diff: int, diffRate: real)

  /** The `/price` JSON body; absent or `null` fields are `None`. */
  datatype PriceJson = PriceJson(price: int, diff: Option<int>, prevClose: Option<int>,
                                 diffRate: Option<real>, rate: Option<real>)

  /** How one `/price` request ended. */
  datatype PriceResponse = Ok(json: PriceJson) | NotOk | Threw

  /** How the database insert of `addFavorite` ended: `Inserted` stands
      for no error and a first returned row with that id. */
  datatype InsertOutcome = Inserted(id: int) | InsertFailed

  /** The codes of a list, in list order (`list.map(w => w.code)`). */
  function Codes(list: seq<WatchlistStock>): (r: seq<string>)
    ensures |r| == |list| && forall k :: 0 <= k < |list| ==> r[k] == list[k].stock.code
  {
    seq(|list|, k requires 0 <= k < |list| => list[k].stock.code)
  }

  /** `prev.filter(item => item.code !== code)`. */
  function Without(list: seq<WatchlistStock>, code: string): (r: seq<WatchlistStock>)
    ensures |r| <= |list|
    ensures forall k :: 0 <= k < |r| ==> r[k].stock.code != code
  {
    Seqs.Filter(list, (w: WatchlistStock) => w.stock.code != code)
  }

  /** Removing by code drops every entry with that code, keeps every
      other entry, and keeps their order. */
  lemma WithoutSpec(list: seq<WatchlistStock>, code: string, w: WatchlistStock)
    ensures w in Without(list, code) <==> w in list && w.stock.code != code
    ensures Seqs.IsSubsequence(Without(list, code), list)
  {
    Seqs.FilterMembers(list, (w: WatchlistStock) => w.stock.code != code, w);
    Seqs.FilterIsSubsequence(list, (w: WatchlistStock) => w.stock.code != code);
  }

  /** `prev_close || 0`: a missing previous close counts as 0. */
  function PrevCloseOrZero(j: PriceJson): int
  {
    match j.prevClose
    case Some(p) => p
    case None => 0
  }

  /** The tick built from an ok response: `diff ?? price - (prev_close || 0)`
      and `diff_rate ?? rate ?? 0`. */
  function TickOf(j: PriceJson): (r: Tick)
    ensures r.price == j.price
    ensures j.diff.Some? ==> r.diff == j.diff.value
    ensures j.diff.None? && j.prevClose.Some? ==> r.price - r.diff == j.prevClose.value
    ensures j.diff.None? && j.prevClose.None? ==> r.diff == r.price
    ensures j.diffRate.Some? ==> r.diffRate == j.diffRate.value
    ensures j.diffRate.None? && j.rate.Some? ==> r.diffRate == j.rate.value
    ensures j.diffRate.None? && j.rate.None? ==> r.diffRate == 0.0
  {
    var diff := match j.diff case Some(d) => d case None => j.price - PrevCloseOrZero(j);
    var rate := match j.diffRate
      case Some(d) => d
      case None => (match j.rate case Some(x) => x case None => 0.0);
    Tick(j.price, diff, rate)
  }

  /** What one response writes into the round's map: an ok response its
      tick, a thrown request `null`, a non-ok response nothing. */
  function Record(results: map<string, Option<Tick>>, code: string, resp: PriceResponse): map<string, Option<Tick>>
  {
    match resp
    case Ok(j) => results[code := Some(TickOf(j))]
    case Threw => results[code := None]
    case NotOk => results
  }

  /** The map one polling round assembles over `codes`, each code's
      response given by `respond`. */
  function PollRound(codes: seq<string>, respond: string -> PriceResponse): map<string, Option<Tick>>
  {
    if codes == [] then map[]
    else Record(PollRound(codes[..|codes| - 1], respond), codes[|codes| - 1], respond(codes[|codes| - 1]))
  }

  /** The value a response stores, when it stores one. */
  function Stored(resp: PriceResponse): Option<Tick>
    requires !resp.NotOk?
  {
    match resp
    case Ok(j) => Some(TickOf(j))
    case Threw => None
  }

  /** A round's map holds exactly the listed codes whose request did not
      end in a non-ok response, each with the value that response stores. */
  lemma {:induction false} PollRoundSpec(codes: seq<string>, respond: string -> PriceResponse, c: string)
    ensures c in PollRound(codes, respond) <==> c in codes && !respond(c).NotOk?
    ensures c in PollRound(codes, respond) ==> PollRound(codes, respond)[c] == Stored(respond(c))
  {
    if codes != [] {
      var init := codes[..|codes| - 1];
      PollRoundSpec(init, respond, c);
      assert codes == init + [codes[|codes| - 1]];
    }
  }

  /** How a row's tick classifies it: `tick && tick.diff > 0` is up,
      `tick && tick.diff < 0` is down, anything else neutral. */
  datatype Trend = Up | Down | Neutral {
    function DiffClass(): string
    {
      match this
      case Up => "text-red-600"
      case Down => "text-blue-600"
      case Neutral => "text-gray-600"
    }

    function PriceClass(): string
    {
      match this
      case Up => "text-red-600"
      case Down => "text-blue-600"
      case Neutral => "text-gray-700"
    }
  }

  /** The trend of the row for `code`: a missing key and a `null` tick
      are both neutral. */
  function TrendFor(priceMap: map<string, Option<Tick>>, code: string): (r: Trend)
    ensures r == Up <==> code in priceMap && priceMap[code].Some? && priceMap[code].value.diff > 0
    ensures r == Down <==> code in priceMap && priceMap[code].Some? && priceMap[code].value.diff < 0
    ensures r == Neutral <==> !(code in priceMap && priceMap[code].Some?) || priceMap[code].value.diff == 0
  {
    if code in priceMap then
      match priceMap[code]
      case Some(t) => if t.diff > 0 then Up else if t.diff < 0 then Down else Neutral
      case None => Neutral
    else Neutral
  }

  /** The search test: the lower-cased name or the code includes the
      trimmed, lower-cased query (the name test is skipped when the name
      is missing). */
  predicate Matches(s: Stock, lower: string)
  {
    (s.name.Some? && Strs.Contains(Strs.Lower(s.name.value), lower)) || Strs.Contains(s.code, lower)
  }

  /** `watchlist.some(item => item.code === code)`. */
  predicate Listed(list: seq<WatchlistStock>, code: string)
  {
    code in Codes(list)
  }

  /** The search results for a non-blank query. */
  function Search(all: seq<Stock>, list: seq<WatchlistStock>, query: string): (r: seq<Stock>)
    ensures |r| <= |all|
  {
    var lower := Strs.Lower(Strs.Trim(query));
    Seqs.Filter(all, (s: Stock) => Matches(s, lower) && !Listed(list, s.code))
  }

  /** A stock is a result exactly when it is in the full list, matches
      the query and is not yet a favourite; results keep the list order. */
  lemma SearchSpec(all: seq<Stock>, list: seq<WatchlistStock>, query: string, s: Stock)
    ensures s in Search(all, list, query) <==>
      (s in all && Matches(s, Strs.Lower(Strs.Trim(query))) && !Listed(list, s.code))
    ensures Seqs.IsSubsequence(Search(all, list, query), all)
  {
    var lower := Strs.Lower(Strs.Trim(query));
    Seqs.FilterMembers(all, (s: Stock) => Matches(s, lower) && !Listed(list, s.code), s);
    Seqs.FilterIsSubsequence(all, (s: Stock) => Matches(s, lower) && !Listed(list, s.code));
  }

  /** The component's state; `priceMap` is the parent's map the
      component is handed together with its setter. */
  class WatchlistPanel {
    var watchlist: seq<WatchlistStock>
    var searchQuery: string
    var searchResults: seq<Stock>
    var isSearching: bool
    var allStocks: seq<Stock>
    var priceMap: map<string, Option<Tick>>

    constructor(allStocks: seq<Stock>, priceMap: map<string, Option<Tick>>)
      ensures this.watchlist == [] && this.searchQuery == [] && this.searchResults == []
      ensures !this.isSearching && this.allStocks == allStocks && this.priceMap == priceMap
    {
      this.watchlist := [];
      this.searchQuery := [];
      this.searchResults := [];
      this.isSearching := false;
      this.allStocks := allStocks;
      this.priceMap := priceMap;
    }

    /** The search effect. */
    method RunSearch()
      modifies this`searchResults, this`isSearching
      ensures Strs.IsBlank(searchQuery) ==> searchResults == [] && !isSearching
      ensures !Strs.IsBlank(searchQuery) ==> searchResults == Search(allStocks, watchlist, searchQuery) && isSearching
    {
      Strs.TrimEmptyIffBlank(searchQuery);
      if Strs.Trim(searchQuery) == [] {
        searchResults := [];
        isSearching := false;
        return;
      }
      searchResults := Search(allStocks, watchlist, searchQuery);
      isSearching := true;
    }

    /** `addFavorite`: `reported` is what `onWatchlistChange` receives,
        `None` when it is not called. */
    method AddFavorite(stock: Stock, outcome: InsertOutcome) returns (reported: Option<seq<string>>)
      modifies this`watchlist, this`searchQuery, this`isSearching
      ensures Listed(old(watchlist), stock.code) ==>
        watchlist == old(watchlist) && searchQuery == old(searchQuery)
        && isSearching == old(isSearching) && reported == None
      ensures !Listed(old(watchlist), stock.code) ==> searchQuery == [] && !isSearching
      ensures !Listed(old(watchlist), stock.code) && outcome.Inserted? ==>
        watchlist == old(watchlist) + [WatchlistStock(stock, Some(outcome.id))]
        && reported == Some(Codes(watchlist))
      ensures !Listed(old(watchlist), stock.code) && outcome.InsertFailed? ==>
        watchlist == old(watchlist) && reported == None
      ensures Seqs.Distinct(Codes(old(watchlist))) ==> Seqs.Distinct(Codes(watchlist))
    {
      reported := None;
      if Listed(watchlist, stock.code) {
        return;
      }
      if outcome.Inserted? {
        var next := watchlist + [WatchlistStock(stock, Some(outcome.id))];
        assert Codes(next) == Codes(watchlist) + [stock.code];
        if Seqs.Distinct(Codes(watchlist)) {
          Seqs.DistinctAppend(Codes(watchlist), stock.code);
        }
        watchlist := next;
        reported := Some(Codes(next));
      }
      searchQuery := [];
      isSearching := false;
    }

    /** `removeFavorite`: `ok` says whether the database delete succeeded. */
    method RemoveFavorite(stock: Stock, ok: bool) returns (reported: Option<seq<string>>)
      modifies this`watchlist, this`priceMap
      ensures !ok ==> watchlist == old(watchlist) && priceMap == old(priceMap) && reported == None
      ensures ok ==> watchlist == Without(old(watchlist), stock.code) && reported == Some(Codes(watchlist))
      ensures ok ==> stock.code !in Codes(watchlist) && stock.code !in priceMap
      ensures ok ==> forall c :: c != stock.code ==>
        (c in priceMap <==> c in old(priceMap)) && (c in priceMap ==> priceMap[c] == old(priceMap)[c])
    {
      reported := None;
      if ok {
        var next := Without(watchlist, stock.code);
        watchlist := next;
        reported := Some(Codes(next));
        priceMap := priceMap - {stock.code};
      }
    }

    /** One polling round of `fetchPrices`; `respond` gives each code's
        response. The round's map replaces the old one wholesale. */
    method FetchPrices(respond: string -> PriceResponse)
      modifies this`priceMap
      ensures watchlist == [] ==> priceMap == old(priceMap)
      ensures watchlist != [] ==> priceMap == PollRound(Codes(watchlist), respond)
      ensures watchlist != [] ==> forall c :: c in priceMap <==> c in Codes(watchlist) && !respond(c).NotOk?
    {
      if |watchlist| == 0 {
        return;
      }
      var codes := Codes(watchlist);
      var results: map<string, Option<Tick>> := map[];
      var i := 0;
      while i < |codes|
        invariant 0 <= i <= |codes|
        invariant results == PollRound(codes[..i], respond)
      {
        assert codes[..i + 1][..i] == codes[..i];
        results := Record(results, codes[i], respond(codes[i]));
        i := i + 1;
      }
      assert codes[..|codes|] == codes;
      priceMap := results;
      forall c | true
        ensures c in priceMap <==> c in codes && !respond(c).NotOk?
      {
        PollRoundSpec(codes, respond, c);
      }
    }
  }
}
