// main/page.tsx: the header search over the company list, picking a
// company from its dropdown, the selected stock's price (cached or
// fetched) and its colour and sign, and the tab dispatch.

module MainPage {
  import opened Common
  import Strs
  import Seqs
  import Watchlist

  datatype Stock = Stock(code: string, name: string)
  datatype Company = Company(code: string, name: string)

  const MaxResults: nat := 10

  /** The match: the lower-cased name includes the lower-cased query as
      typed (not trimmed), or the code includes the raw query. */
  predicate Matches(c: Company, query: string)
  {
    Strs.Contains(Strs.Lower(c.name), Strs.Lower(query)) || Strs.Contains(c.code, query)
  }

  /** `companies.filter(…).slice(0, 10)`. */
  function SearchResults(companies: seq<Company>, query: string): (r: seq<Company>)
    ensures |r| <= MaxResults
    ensures forall i :: 0 <= i < |r| ==> Matches(r[i], query)
  {
    Seqs.Take(Seqs.Filter(companies, (c: Company) => Matches(c, query)), MaxResults)
  }

  /** The results are the first (at most ten) matching companies in list
      order: every result is a matching company, and when fewer than ten
      match, every matching company is a result. */
  lemma SearchResultsSpec(companies: seq<Company>, query: string, c: Company)
    ensures c in SearchResults(companies, query) ==> c in companies && Matches(c, query)
    ensures |SearchResults(companies, query)| < MaxResults && c in companies && Matches(c, query)
      ==> c in SearchResults(companies, query)
    ensures SearchResults(companies, query) <= Seqs.Filter(companies, (c: Company) => Matches(c, query))
    ensures Seqs.IsSubsequence(Seqs.Filter(companies, (c: Company) => Matches(c, query)), companies)
  {
    var all := Seqs.Filter(companies, (c: Company) => Matches(c, query));
    Seqs.FilterMembers(companies, (c: Company) => Matches(c, query), c);
    Seqs.FilterIsSubsequence(companies, (c: Company) => Matches(c, query));
    var r := SearchResults(companies, query);
    if c in r {
      var k :| 0 <= k < |r| && r[k] == c;
      assert all[k] == c;
    }
  }

  /** What `selectedPrice` holds: a cached tick from the price map, or the
      raw `/price` body, whose `diff` and `diff_rate` may be absent. */
  datatype SelectedPrice = SelectedPrice(price: int, diff: Option<int>, diffRate: Option<real>)

  /** A cached tick has every field. */
  function FromTick(t: Watchlist.Tick): SelectedPrice
  {
    SelectedPrice(t.price, Some(t.diff), Some(t.diffRate))
  }

  /** The fetched body is stored as it came. */
  function FromJson(j: Watchlist.PriceJson): SelectedPrice
  {
    SelectedPrice(j.price, j.diff, j.diffRate)
  }

  /** How the selected price is shown; `diff` and `diffRate` are the
      figures printed after the price (nothing for an absent field). */
  datatype PriceView = Loading | Shown(colorClass: string, sign: string, rising: bool, flat: bool,
                                       diff: Option<int>, diffRate: Option<real>)

  /** `isPositive` / `isZero` and the class and sign choices: flat is grey
      without sign, rising red with "+", anything else blue, and an absent
      `diff` (which is neither `> 0` nor `=== 0`) is blue without sign. */
  function PriceViewOf(price: Option<SelectedPrice>): (r: PriceView)
    ensures price.None? <==> r == Loading
    ensures r.Shown? ==> r.diff == price.value.diff && r.diffRate == price.value.diffRate
    ensures r.Shown? ==> (r.rising <==> price.value.diff.Some? && price.value.diff.value > 0)
    ensures r.Shown? ==> (r.flat <==> price.value.diff == Some(0))
    ensures r.Shown? ==> (r.sign == "+" <==> r.rising)
    ensures r.Shown? ==> (r.sign == "" <==> !r.rising)
    ensures r.Shown? ==>
      (r.colorClass == "text-red-500" <==> r.rising)
      && (r.colorClass == "text-slate-400" <==> r.flat)
      && (r.colorClass == "text-blue-500" <==> !r.rising && !r.flat)
    ensures price.Some? && price.value.diff.None? ==> r.Shown? && r.colorClass == "text-blue-500" && r.sign == ""
  {
    match price
    case None => Loading
    case Some(t) =>
      var isPositive := t.diff.Some? && t.diff.value > 0;
      var isZero := t.diff == Some(0);
      Shown(if isZero then "text-slate-400" else if isPositive then "text-red-500" else "text-blue-500",
            if isPositive then "+" else "",
            isPositive, isZero, t.diff, t.diffRate)
  }

  /** What the chart area renders. */
  datatype TabContent = Placeholder | CombinedChart | CompanySummary | RsiChart | MarketSummary | ExpertChat | Nothing

  /** `renderTabContent`: without a selected code only the market tab
      renders; each known tab key has its component, and any other key
      renders nothing. */
  function RenderTab(code: string, tab: string): (r: TabContent)
    ensures code == [] && tab != "market" <==> r == Placeholder
    ensures r == MarketSummary <==> tab == "market"
    ensures code != [] ==> (r == CombinedChart <==> tab == "combined")
    ensures code != [] ==> (r == CompanySummary <==> tab == "company")
    ensures code != [] ==> (r == RsiChart <==> tab == "rsi")
    ensures code != [] ==> (r == ExpertChat <==> tab == "expert")
    ensures r == Nothing <==>
      code != [] && tab != "combined" && tab != "company" && tab != "rsi" && tab != "market" && tab != "expert"
  {
    if code == [] && tab != "market" then Placeholder
    else if tab == "combined" then CombinedChart
    else if tab == "company" then CompanySummary
    else if tab == "rsi" then RsiChart
    else if tab == "market" then MarketSummary
    else if tab == "expert" then ExpertChat
    else Nothing
  }

  /** How the selected-price request ended. */
  datatype PriceFetch = Fetched(json: Watchlist.PriceJson) | FetchFailed

  /** The page's state hooks that the modelled rules touch. */
  class Home {
    var selectedStock: Stock
    var selectedTab: string
    var priceMap: map<string, Option<Watchlist.Tick>>
    var selectedPrice: Option<SelectedPrice>
    var companies: seq<Company>
    var query: string
    var filtered: seq<Company>
    var showDropdown: bool

    constructor()
      ensures selectedStock == Stock("005930", "삼성전자") && selectedTab == "combined"
      ensures priceMap == map[] && selectedPrice == None && companies == []
      ensures query == [] && filtered == [] && !showDropdown
    {
      selectedStock := Stock("005930", "삼성전자");
      selectedTab := "combined";
      priceMap := map[];
      selectedPrice := None;
      companies := [];
      query := [];
      filtered := [];
      showDropdown := false;
    }

    /** The search effect. */
    method RunSearch()
      modifies this`filtered, this`showDropdown
      ensures Strs.IsBlank(query) ==> filtered == [] && !showDropdown
      ensures !Strs.IsBlank(query) ==> filtered == SearchResults(companies, query) && showDropdown
    {
      Strs.TrimEmptyIffBlank(query);
      if Strs.Trim(query) != [] {
        filtered := SearchResults(companies, query);
        showDropdown := true;
      } else {
        filtered := [];
        showDropdown := false;
      }
    }

    /** Focusing the input shows the dropdown. */
    method OnFocus()
      modifies this`showDropdown
      ensures showDropdown
    {
      showDropdown := true;
    }

    /** Clicking a dropdown entry. */
    method PickCompany(c: Company)
      modifies this`selectedStock, this`query, this`showDropdown
      ensures selectedStock == Stock(c.code, c.name) && query == [] && !showDropdown
    {
      selectedStock := Stock(c.code, c.name);
      query := [];
      showDropdown := false;
    }

    /** One run of the selected-price effect; `fetch` is how the request
        would end and `requested` whether it is sent. */
    method SelectedPriceStep(fetch: PriceFetch) returns (requested: bool)
      modifies this`selectedPrice
      ensures selectedStock.code == [] ==> selectedPrice == None && !requested
      ensures selectedStock.code != [] && selectedStock.code in priceMap && priceMap[selectedStock.code].Some? ==>
        selectedPrice == Some(FromTick(priceMap[selectedStock.code].value)) && !requested
      ensures requested <==>
        selectedStock.code != [] && !(selectedStock.code in priceMap && priceMap[selectedStock.code].Some?)
      ensures requested ==> selectedPrice == (if fetch.Fetched? then Some(FromJson(fetch.json)) else None)
    {
      requested := false;
      var code := selectedStock.code;
      if code == [] {
        selectedPrice := None;
        return;
      }
      if code in priceMap && priceMap[code].Some? {
        selectedPrice := Some(FromTick(priceMap[code].value));
        return;
      }
      requested := true;
      match fetch
      case Fetched(j) => selectedPrice := Some(FromJson(j));
      case FetchFailed => selectedPrice := None;
    }
  }
}
