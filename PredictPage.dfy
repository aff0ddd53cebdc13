// predict/page.tsx: the page's company search, its dropdown selection,
// and the guards in front of the single and the watchlist prediction
// requests.

module PredictPage {
  import opened Common
  import Strs
  import Seqs

  /** A company of the list; `name` may be missing. */
  datatype Company = Company(code: string, name: Option<string>)
  datatype Stock = Stock(code: string, name: Option<string>)

  /** The match with `q` already trimmed and lower-cased: a non-empty name
      whose lower-cased form includes `q`, or a code that includes it. */
  predicate Matches(c: Company, q: string)
  {
    (c.name.Some? && c.name.value != [] && Strs.Contains(Strs.Lower(c.name.value), q))
    || Strs.Contains(c.code, q)
  }

  /** `query.trim().toLowerCase()`. */
  function Needle(query: string): string
  {
    Strs.Lower(Strs.Trim(query))
  }

  /** `companies.filter(…)`, with no cap on the number of results. */
  function SearchResults(companies: seq<Company>, query: string): (r: seq<Company>)
    ensures |r| <= |companies|
    ensures forall i :: 0 <= i < |r| ==> Matches(r[i], Needle(query))
  {
    Seqs.Filter(companies, (c: Company) => Matches(c, Needle(query)))
  }

  /** Every matching company, and only those, is a result, in list order. */
  lemma SearchResultsSpec(companies: seq<Company>, query: string, c: Company)
    ensures c in SearchResults(companies, query) <==> c in companies && Matches(c, Needle(query))
    ensures Seqs.IsSubsequence(SearchResults(companies, query), companies)
  {
    Seqs.FilterMembers(companies, (c: Company) => Matches(c, Needle(query)), c);
    Seqs.FilterIsSubsequence(companies, (c: Company) => Matches(c, Needle(query)));
  }

  /** What `/api/prediction` answered; a failed request stores `{error: "예측 실패"}`. */
  datatype PredictionResult =
    | Predicted(result: real, risk: Option<string>, recommendation: Option<string>)
    | Failed(error: string)

  /** The body of the single prediction request. */
  datatype PredictionRequest = PredictionRequest(code: string, modelNumber: int)

  /** The body of the watchlist prediction request. */
  datatype BatchRequest = BatchRequest(codes: seq<string>, modelNumber: int)

  /** A row of the watchlist prediction response, field by field. */
  datatype BatchRow = BatchRow(fields: map<string, string>)

  /** How the watchlist request ended: `BatchAnswered(None)` is a body
      without `data`. */
  datatype BatchOutcome = BatchAnswered(data: Option<seq<BatchRow>>) | BatchFailed

  const PredictionFailed: string := "예측 실패"

  class PredictModelPage {
    var selectedStock: Stock
    var selectedModelNum: int
    var query: string
    var companies: seq<Company>
    var filtered: seq<Company>
    var showDropdown: bool
    var loading: bool
    var watchlistCodes: seq<string>
    var watchlistData: seq<BatchRow>
    var batchLoading: bool
    var predictionResult: Option<PredictionResult>

    constructor()
      ensures selectedStock == Stock("005930", Some("삼성전자")) && selectedModelNum == 1
      ensures query == [] && companies == [] && filtered == [] && !showDropdown && !loading
      ensures watchlistCodes == [] && watchlistData == [] && !batchLoading && predictionResult == None
    {
      selectedStock := Stock("005930", Some("삼성전자"));
      selectedModelNum := 1;
      query := [];
      companies := [];
      filtered := [];
      showDropdown := false;
      loading := false;
      watchlistCodes := [];
      watchlistData := [];
      batchLoading := false;
      predictionResult := None;
    }

    /** The search effect: nothing happens while no companies are loaded. */
    method RunSearch()
      modifies this`filtered, this`showDropdown
      ensures companies == [] ==> filtered == old(filtered) && showDropdown == old(showDropdown)
      ensures companies != [] && Strs.IsBlank(query) ==> filtered == [] && !showDropdown
      ensures companies != [] && !Strs.IsBlank(query) ==>
        filtered == SearchResults(companies, query) && showDropdown
    {
      if |companies| == 0 {
        return;
      }
      Strs.TrimEmptyIffBlank(query);
      if Strs.Trim(query) == [] {
        filtered := [];
        showDropdown := false;
        return;
      }
      filtered := SearchResults(companies, query);
      showDropdown := true;
    }

    /** Clicking a dropdown entry. */
    method PickCompany(c: Company)
      modifies this`selectedStock, this`query, this`showDropdown
      ensures selectedStock == Stock(c.code, c.name) && query == [] && !showDropdown
    {
      selectedStock := Stock(c.code, c.name);
      query := [];
      showDropdown := false;
    }

    /** The start of the prediction effect: `sent` is the request body, or
        `None` when no request goes out. */
    method StartPrediction() returns (sent: Option<PredictionRequest>)
      modifies this`predictionResult, this`loading
      ensures selectedStock.code == [] ==>
        sent == None && predictionResult == None && loading == old(loading)
      ensures selectedStock.code != [] ==>
        sent == Some(PredictionRequest(selectedStock.code, selectedModelNum))
        && loading && predictionResult == old(predictionResult)
    {
      if selectedStock.code == [] {
        predictionResult := None;
        return None;
      }
      loading := true;
      sent := Some(PredictionRequest(selectedStock.code, selectedModelNum));
    }

    /** The end of the prediction request: `answer` is the response body,
        or `None` when the request or its parsing failed. */
    method FinishPrediction(answer: Option<PredictionResult>)
      modifies this`predictionResult, this`loading
      ensures answer.Some? ==> predictionResult == answer
      ensures answer.None? ==> predictionResult == Some(Failed(PredictionFailed))
      ensures !loading
    {
      match answer {
        case Some(a) => predictionResult := Some(a);
        case None => predictionResult := Some(Failed(PredictionFailed));
      }
      loading := false;
    }

    /** The start of the watchlist prediction effect. */
    method StartBatch() returns (sent: Option<BatchRequest>)
      modifies this`watchlistData, this`batchLoading
      ensures watchlistCodes == [] ==>
        sent == None && watchlistData == [] && batchLoading == old(batchLoading)
      ensures watchlistCodes != [] ==>
        sent == Some(BatchRequest(watchlistCodes, selectedModelNum))
        && batchLoading && watchlistData == old(watchlistData)
    {
      if |watchlistCodes| == 0 {
        watchlistData := [];
        return None;
      }
      batchLoading := true;
      sent := Some(BatchRequest(watchlistCodes, selectedModelNum));
    }

    /** The end of the watchlist request: `json.data || []`, or `[]` on failure. */
    method FinishBatch(outcome: BatchOutcome)
      modifies this`watchlistData, this`batchLoading
      ensures outcome == BatchAnswered(None) || outcome == BatchFailed ==> watchlistData == []
      ensures outcome.BatchAnswered? && outcome.data.Some? ==> watchlistData == outcome.data.value
      ensures !batchLoading
    {
      match outcome {
        case BatchAnswered(data) =>
          watchlistData := match data case Some(d) => d case None => [];
        case BatchFailed =>
          watchlistData := [];
      }
      batchLoading := false;
    }
  }
}
