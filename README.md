# StockPredictor dashboard rules in Dafny

StockPredictor is a Next.js stock dashboard. It shows a watchlist with
polled prices, a candlestick chart with a coloured close line, a real-time
order book, RSI and summary tables, a market-index summary, an LSTM
prediction page and a small chat with an investment assistant. Most of its
code fetches JSON and hands it to chart libraries. This project models the
rules the components and the three Yahoo proxy routes apply to that data,
and proves what those rules guarantee.

One module per source file:

- `CompanyChart` (components/Company_Chart.tsx): the 110-row window and
  the loop that splits the close line into alternating red (rising or
  flat) and blue (falling) runs.
- `Watchlist` (components/Watchlist.tsx): the favourite list with add,
  remove, search and one polling round of price ticks, as a class whose
  fields are the component's state.
- `OrderBook` (components/OrderBook.tsx): the two-field state driven by
  the socket handlers, and the five-level slices.
- `LstmPrediction` (components/predict/LSTMPredictionModal.tsx): the
  downloaded CSV, the sample-data generator with its two loops, and the
  clamped confidence figure.
- `CompanyList` (main/Company.tsx): de-duplication by code with the
  semantics of a JavaScript `Map`, and the name filter.
- `FactorFilter` (components/predict/FactorFilterPanel.tsx): the factor
  toggle and the checked state.
- `MainPage`, `PredictPage`, `HeaderSearch` (main/page.tsx,
  predict/page.tsx, main/Header.tsx): the three company searches, the
  dropdown picks, the selected-price shortcut, the price colour, the tab
  dispatch and the request guards of the prediction page.
- `MarketIndex` (main/Financial.tsx): the signed-percentage extraction by
  `/[-+]\d+(\.\d+)?%/`, written as a matcher proved equivalent to the
  pattern, the colour and key lookups, and the buttons and chart guard
  of the index view.
- `MarketSummaryWidget`, `SummaryTable`, `PriceChart`, `RsiChart`,
  `InvestExpertChat`, `Signup`, `ProfitCalculator`: the colour rules, the
  억/만 formatter with the summary fetch, the bounded price history, the RSI filter and window, the
  append-only chat log, the sign-up checks and the profit arithmetic.
- `YahooChart`, `MarketTrendRoute`, `FinancialsChartRoute`,
  `MarketSummaryRoute` (api/market-trend, api/financials_Chart and
  api/market-summary): symbol lookup with its fallback, the point mapping
  and filter the two chart routes share, their responses, and the
  per-symbol records of the summary route.
- `Common`, `Strs`, `Seqs` (Common.dfy): `Option` for `null`/`undefined`,
  and the JavaScript string and array operations the components call
  (`trim`, ASCII `toLowerCase`, `includes`, `startsWith`, `filter`,
  `slice`).

Components whose handlers update state step by step are classes whose
fields are the `useState` hooks. Each handler is a method with a
`modifies` clause that states the whole new state. What a request returns
(a `fetch`, a Supabase call, a socket message) is a parameter of the
method, or a datatype of possible outcomes. Number and date rendering
(`toFixed`, `toLocaleString`, `toISOString`, `toTimeString`) and the
random or trigonometric factors of the sample generator are
function-typed parameters. Prices are `int` where the source shows whole
won and `real` where it divides.

## Model

| member | source | states |
|---|---|---|
| CompanyChart.Last110 | cap/src/app/components/Company_Chart.tsx:99 | the window is the last min(n, 110) rows, in their original order |
| CompanyChart.Dates | cap/src/app/components/Company_Chart.tsx:101 | one date per windowed row, in order |
| CompanyChart.Closes | cap/src/app/components/Company_Chart.tsx:105 | one close per windowed row, in order |
| CompanyChart.Step | cap/src/app/components/Company_Chart.tsx:119-127 | a step of the open segment's colour appends the point to it; a step of the other colour finishes it and opens the two-point segment [point i−1, point i] in the new colour; either way the loop invariant moves on to the next point |
| CompanyChart.FinishBuilding | cap/src/app/components/Company_Chart.tsx:130 | pushing the open segment after the last point gives a segmentation of the whole series |
| CompanyChart.SegmentCloses | cap/src/app/components/Company_Chart.tsx:113-131 | fewer than two closes give no segments; otherwise the first segment is red exactly when close[1] ≥ close[0], every segment has at least two points, equal-length lists and steps of its own colour only (red never falls, blue strictly falls), adjacent segments differ in colour and share one point, and gluing the segments with each later first point dropped gives back the dates and the closes |
| CompanyChart.BuildCloseSegments | cap/src/app/components/Company_Chart.tsx:99-131 | the segments of the windowed rows have the same properties, and glue back to the window's dates and closes |
| CompanyChart.Traces | cap/src/app/components/Company_Chart.tsx:193-202 | one trace per segment with its points and colour name; only the first trace has a name, "종가", and a legend entry |
| Watchlist.Codes | cap/src/app/components/Watchlist.tsx:103 | the codes handed to `onWatchlistChange`, one per favourite, in list order |
| Watchlist.Without | cap/src/app/components/Watchlist.tsx:121 | removal never lengthens the list and leaves no entry with the removed code |
| Watchlist.WithoutSpec | cap/src/app/components/Watchlist.tsx:121 | an entry survives removal exactly when it was listed and has another code; the survivors keep their order |
| Watchlist.TickOf | cap/src/app/components/Watchlist.tsx:144-148 | the tick keeps the price; its diff is the reported diff, else price minus the previous close, else the price itself; its rate is `diff_rate`, else `rate`, else 0 |
| Watchlist.PollRoundSpec | cap/src/app/components/Watchlist.tsx:138-153 | after a round a code is in the map exactly when it is a favourite whose request did not end non-ok; a thrown request stores `null`, an ok one its tick |
| Watchlist.TrendFor | cap/src/app/components/Watchlist.tsx:223-227 | a row is up exactly when its tick exists with a positive diff, down exactly when with a negative diff, and neutral for a missing key, a `null` tick or a zero diff |
| Watchlist.Search | cap/src/app/components/Watchlist.tsx:82-86 | the results are drawn from the full stock list and are never more than it |
| Watchlist.SearchSpec | cap/src/app/components/Watchlist.tsx:82-86 | a stock is a result exactly when it is listed, its lower-cased name or its code contains the trimmed lower-cased query, and it is not yet a favourite; results keep list order |
| Watchlist.WatchlistPanel.constructor | cap/src/app/components/Watchlist.tsx:30-34 | starts with no favourites, an empty query, no results and no search in progress |
| Watchlist.WatchlistPanel.RunSearch | cap/src/app/components/Watchlist.tsx:75-89 | a blank query clears the results and ends searching; any other query sets the results of `Search` and marks searching |
| Watchlist.WatchlistPanel.AddFavorite | cap/src/app/components/Watchlist.tsx:92-110 | an already listed code changes nothing and reports nothing; otherwise the query is cleared and searching ends, and a successful insert appends the stock with its new id and reports the new codes; distinct codes stay distinct |
| Watchlist.WatchlistPanel.RemoveFavorite | cap/src/app/components/Watchlist.tsx:113-131 | a failed delete changes nothing; a successful one removes the code from the list and from the price map, keeps every other price entry, and reports the remaining codes |
| Watchlist.WatchlistPanel.FetchPrices | cap/src/app/components/Watchlist.tsx:136-155 | an empty watchlist leaves the price map alone; otherwise the map is replaced by the round's map, whose keys are exactly the favourites whose request did not end non-ok |
| OrderBook.Levels | cap/src/app/components/OrderBook.tsx:68-69 | a side shows its first min(n, 5) levels, a prefix of the side, and a missing side shows none |
| OrderBook.SellList | cap/src/app/components/OrderBook.tsx:68 | no book shows no sell levels; a book shows the levels of its sell side |
| OrderBook.BuyList | cap/src/app/components/OrderBook.tsx:69 | no book shows no buy levels; a book shows the levels of its buy side |
| OrderBook.ViewOf | cap/src/app/components/OrderBook.tsx:83-97 | the error view appears exactly when a non-empty error is set, and shows it; the waiting view exactly when there is neither an error nor a book; otherwise the book with at most five levels a side |
| OrderBook.OrderBookPanel.constructor | cap/src/app/components/OrderBook.tsx:26-27 | starts with no book and no error |
| OrderBook.OrderBookPanel.Reset | cap/src/app/components/OrderBook.tsx:31-32 | a new code clears the book and the error, so the waiting view is shown |
| OrderBook.OrderBookPanel.OnMessage | cap/src/app/components/OrderBook.tsx:40-52 | an "orderbook" message stores its data and clears the error; an "error" message sets the market-hours error and keeps the book; an unparseable one sets the parse error and keeps the book; any other type changes nothing |
| OrderBook.OrderBookPanel.OnError | cap/src/app/components/OrderBook.tsx:54-56 | a socket error sets the socket error text and the error view shows it; the book is kept |
| OrderBook.OrderBookPanel.OnClose | cap/src/app/components/OrderBook.tsx:58-60 | a closed socket sets the closed text and the error view shows it; the book is kept |
| LstmPrediction.Rows | cap/src/app/components/predict/LSTMPredictionModal.tsx:71 | one `date,price` row per predicted point, in order |
| LstmPrediction.Download | cap/src/app/components/predict/LSTMPredictionModal.tsx:68-80 | no file exactly when there is no prediction data; the file is `<code>_lstm_prediction.csv` of type text/csv, its content is the CSV text of the predicted points (the header line, then one `date,price` row per point, which `CsvLines` splits back), and its first line is the header |
| LstmPrediction.SplitJoin | cap/src/app/components/predict/LSTMPredictionModal.tsx:71 | joining one-line rows with line breaks and splitting at line breaks gives the rows back |
| LstmPrediction.CsvLines | cap/src/app/components/predict/LSTMPredictionModal.tsx:71-73 | the file's lines are the header and then exactly the rows, with no trailing line break; no points give the header and one line break |
| LstmPrediction.SeedConcat | cap/src/app/components/predict/LSTMPredictionModal.tsx:232 | the seed is additive over the code's characters (the sum of their UTF-16 code units) |
| LstmPrediction.CodeUnitSum | cap/src/app/components/predict/LSTMPredictionModal.tsx:232 | a character of the Basic Multilingual Plane contributes its own code |
| LstmPrediction.BasePrice | cap/src/app/components/predict/LSTMPredictionModal.tsx:233 | the base price lies in [50000, 149999] and exceeds 50000 by the seed modulo 100000 |
| LstmPrediction.Round | cap/src/app/components/predict/LSTMPredictionModal.tsx:245 | `Math.round` gives the integer within half of the value, halves rounded up |
| LstmPrediction.GenerateSample | cap/src/app/components/predict/LSTMPredictionModal.tsx:231-281 | 61 historical points dated 60 days ago to today, 30 predicted points and 30 intervals dated the next 30 days; each price is the rounded running product of the step factors, and every interval holds its predicted price with a non-negative lower bound |
| LstmPrediction.TomorrowConfidence | cap/src/app/components/predict/LSTMPredictionModal.tsx:149-152 | the figure is always within [60, 95]: the raw value when it is inside, otherwise the nearer bound |
| CompanyList.Build | cap/src/app/main/Company.tsx:25 | the `Map` built from the pairs has a value for every key it lists and lists every key it has |
| CompanyList.BuildHolds | cap/src/app/main/Company.tsx:25 | the `Map` has exactly the input's codes as keys, no key twice, keys in order of first appearance, and for each code the last company with it |
| CompanyList.LastOf | cap/src/app/main/Company.tsx:25 | the company a code ends up with is the input company at the last position holding that code |
| CompanyList.DedupeSpec | cap/src/app/main/Company.tsx:24-26 | the de-duplicated list has no two companies with one code, keeps every input code, holds for each code the last input company with it, and follows the order of first appearance |
| CompanyList.OnCompanies | cap/src/app/main/Company.tsx:23-27 | a response without data keeps the current list; one with data replaces it by the de-duplicated data |
| CompanyList.FilterByName | cap/src/app/main/Company.tsx:34-36 | every kept company's lower-cased name contains the lower-cased query |
| CompanyList.FilterByNameSpec | cap/src/app/main/Company.tsx:34-36 | a company is kept exactly when it is listed and its name matches; the kept ones keep their order; the empty query keeps the whole list |
| FactorFilter.Toggle | cap/src/app/components/predict/FactorFilterPanel.tsx:38-44 | a selected factor is removed wherever it occurs; an unselected one is appended |
| FactorFilter.ToggleFlips | cap/src/app/components/predict/FactorFilterPanel.tsx:38-44 | a toggle flips the checked state of that factor and of no other; an unselected factor is appended after the unchanged selection, and removing a selected one shortens the list |
| FactorFilter.ToggleKeepsOthers | cap/src/app/components/predict/FactorFilterPanel.tsx:38-44 | the other factors, and their order, are the same before and after a toggle |
| FactorFilter.ToggleTwice | cap/src/app/components/predict/FactorFilterPanel.tsx:38-44 | toggling an unselected factor twice restores the selection |
| FactorFilter.ToggleDistinct | cap/src/app/components/predict/FactorFilterPanel.tsx:38-44 | a selection without repeats stays without repeats |
| MainPage.SearchResults | cap/src/app/main/page.tsx:92-96 | at most ten results, each a company whose lower-cased name contains the lower-cased untrimmed query or whose code contains the raw query |
| MainPage.SearchResultsSpec | cap/src/app/main/page.tsx:92-96 | the results are a prefix of the matching companies in list order: every result is a listed match, and when fewer than ten are returned every match is among them |
| MainPage.PriceViewOf | cap/src/app/main/page.tsx:148-150 | no price shows the loading state; a positive diff is red with "+", a zero diff grey without sign, a negative or absent diff blue without sign; the diff and rate shown are the stored ones, absent when the body lacks them |
| MainPage.RenderTab | cap/src/app/main/page.tsx:152-181 | the placeholder appears exactly when no code is selected and the tab is not "market"; with a code each known tab key gives its component and only an unknown key gives nothing; the market tab renders without a code |
| MainPage.Home.constructor | cap/src/app/main/page.tsx:54-63 | starts on Samsung Electronics (005930) and the combined tab, with no prices, no companies, an empty query and a hidden dropdown |
| MainPage.Home.RunSearch | cap/src/app/main/page.tsx:90-103 | a query that is blank after trimming clears the results and hides the dropdown; any other query sets the results of `SearchResults` and shows it |
| MainPage.Home.OnFocus | cap/src/app/main/page.tsx:255 | focusing the input shows the dropdown |
| MainPage.Home.PickCompany | cap/src/app/main/page.tsx:265-269 | picking an entry selects its code and name, clears the query and hides the dropdown |
| MainPage.Home.SelectedPriceStep | cap/src/app/main/page.tsx:115-134 | an empty code sets no price and sends nothing; a cached non-null tick is used without a request; a request is sent exactly otherwise, its body is stored as it came (a missing `diff` included) and its failure leaves no price |
| PredictPage.SearchResults | cap/src/app/predict/page.tsx:136-141 | never more results than companies, each with a non-empty name containing the trimmed lower-cased query or a code containing it |
| PredictPage.SearchResultsSpec | cap/src/app/predict/page.tsx:136-143 | every matching company, and only those, is a result, in list order, with no cap |
| PredictPage.PredictModelPage.constructor | cap/src/app/predict/page.tsx:26-44 | starts on Samsung Electronics (005930) with model 1, no companies, no results, no watchlist codes or data, and nothing loading |
| PredictPage.PredictModelPage.RunSearch | cap/src/app/predict/page.tsx:128-146 | with no companies loaded nothing changes; a blank query clears the results and hides the dropdown; otherwise the results of `SearchResults` are shown |
| PredictPage.PredictModelPage.PickCompany | cap/src/app/predict/page.tsx:234-236 | picking an entry selects its code and name, clears the query and hides the dropdown |
| PredictPage.PredictModelPage.StartPrediction | cap/src/app/predict/page.tsx:47-60 | an empty code clears the result and sends no request; otherwise a request with the code and the model number is sent and loading starts |
| PredictPage.PredictModelPage.FinishPrediction | cap/src/app/predict/page.tsx:61-64 | the result is the response body, or the failure record when the request failed; loading ends |
| PredictPage.PredictModelPage.StartBatch | cap/src/app/predict/page.tsx:68-78 | an empty watchlist clears the batch data and sends no request; otherwise a request with the codes and the model number is sent and batch loading starts |
| PredictPage.PredictModelPage.FinishBatch | cap/src/app/predict/page.tsx:79-82 | the batch data is the response's `data`, or empty when it is missing or the request failed; batch loading ends |
| HeaderSearch.SearchResults | cap/src/app/main/Header.tsx:38-42 | never more results than companies, each with a name containing the query case-insensitively |
| HeaderSearch.SearchResultsSpec | cap/src/app/main/Header.tsx:38-42 | exactly the companies whose name matches are results, in list order; the code plays no part and there is no cap |
| HeaderSearch.Header.constructor | cap/src/app/main/Header.tsx:19-22 | starts with an empty query, no companies, no results and a hidden dropdown |
| HeaderSearch.Header.RunSearch | cap/src/app/main/Header.tsx:36-48 | only the empty query clears the results and hides the dropdown (a query of spaces still searches); any other shows the results of `SearchResults` |
| HeaderSearch.Header.OnFocus | cap/src/app/main/Header.tsx:82 | focusing the input shows the dropdown |
| HeaderSearch.Header.PickCompany | cap/src/app/main/Header.tsx:92-96 | picking an entry hands its code and name to `onSelect`, clears the query and hides the dropdown |
| MarketIndex.MatchAtSound | cap/src/app/main/Financial.tsx:57 | a match the matcher reports at a position spans a token of the pattern: sign, digits, optional dot and digits, `%` |
| MarketIndex.MatchAtComplete | cap/src/app/main/Financial.tsx:57 | whenever a token starts at a position, the matcher reports a match there |
| MarketIndex.FindFrom | cap/src/app/main/Financial.tsx:57 | the search reports the first position from which a match starts, and none when no later position starts one |
| MarketIndex.PercentSpec | cap/src/app/main/Financial.tsx:57 | `percent` is empty exactly when no substring of the change text is a token; otherwise it is a token occurring in the text with no token starting further left |
| MarketIndex.IsUpSpec | cap/src/app/main/Financial.tsx:57-58 | a market is up exactly when the leftmost substring of its change text matching the pattern starts with '+'; a text with no match is not up |
| MarketIndex.ChangeClass | cap/src/app/main/Financial.tsx:76-80 | the change is red exactly when up and blue otherwise, an empty `percent` included |
| MarketIndex.QueryKey | cap/src/app/main/Financial.tsx:22-26 | the three market names map to their keys and every other name falls back to "kospi" |
| MarketIndex.DotColor | cap/src/app/main/Financial.tsx:61-63 | the dot is orange exactly for 코스피 and teal for every other market |
| MarketIndex.View | cap/src/app/main/Financial.tsx:56-91 | one button per market entry in order, with its name, value and extracted percentage, red exactly when up, selected exactly for the selected market's name; the chart, titled "<market> 추이", is drawn exactly when there are chart points |
| MarketSummaryWidget.GetColor | cap/src/app/components/MarketSummaryWidget.tsx:27-32 | red exactly when the trimmed value starts with '+', blue exactly when it starts with '-', grey exactly when it starts with neither |
| MarketSummaryWidget.KeyColor | cap/src/app/components/MarketSummaryWidget.tsx:38-45 | each key of the table has its colour, every other key is grey, and no key gets a sign colour |
| MarketSummaryWidget.GetChartColor | cap/src/app/components/MarketSummaryWidget.tsx:33-46 | the sign is checked before the key: '+' is #ef4444 and '-' #2563eb for every key, and an unsigned value takes the key's colour; the chart is red or blue exactly when `getColor` is |
| MarketSummaryWidget.ColorsIgnorePadding | cap/src/app/components/MarketSummaryWidget.tsx:28-34 | whitespace around a change value changes neither colour |
| MarketSummaryWidget.FindSpec | cap/src/app/components/MarketSummaryWidget.tsx:69 | `find` gives nothing exactly when no summary has the key, and otherwise the first summary that has it |
| MarketSummaryWidget.SelectedColor | cap/src/app/components/MarketSummaryWidget.tsx:69-72 | with no summary for the selected key the colour is #a3a3a3; otherwise the chart colour of that summary |
| MarketSummaryWidget.IndexButtons | cap/src/app/components/MarketSummaryWidget.tsx:109-126 | four buttons in the fixed order with their captions, the selected key highlighted; a market without a summary is grey and shows no value, one with a summary shows its value and trimmed change texts in `getColor`'s colour |
| SummaryTable.FormatNumber | cap/src/app/components/SummaryTable.tsx:26-30 | exactly one unit applies: 억 for n ≥ 10^8 with n / 10^8 ≥ 1 units, 만 for 10^4 ≤ n < 10^8 with between 1 and 10^4 units, plain for every smaller number, negatives included |
| SummaryTable.FormatText | cap/src/app/components/SummaryTable.tsx:26-30 | the text is the two-decimal unit count followed by 억 or 만, or the localised number when plain |
| SummaryTable.StyleOf | cap/src/app/components/SummaryTable.tsx:95-114 | 전일대비 gets "+" exactly when positive and is red, blue or grey by its sign; the close and the rate cell are red, blue or grey by the sign of 등락률, and the rate gets "+" exactly when positive |
| SummaryTable.SummaryPanel.constructor | cap/src/app/components/SummaryTable.tsx:32-34 | `days` defaults to 3; no data and not loading at first |
| SummaryTable.SummaryPanel.StartFetch | cap/src/app/components/SummaryTable.tsx:36-39 | an empty code sends no request and leaves loading and data as they were; any other sends the code and days and starts loading |
| SummaryTable.SummaryPanel.FinishFetch | cap/src/app/components/SummaryTable.tsx:40-43 | the parsed rows, or none after a failure, are the data and loading ends; the table shows exactly when rows came back |
| SummaryTable.View | cap/src/app/components/SummaryTable.tsx:46-72 | loading shows the loading view; otherwise no rows show the empty view and rows show the table of exactly those rows |
| PriceChart.ErrorOf | cap/src/app/components/PriceChart.tsx:37-50 | a non-ok status stores the lookup failure text, a body without price or time the no-data text, and a thrown request its own message |
| PriceChart.Appended | cap/src/app/components/PriceChart.tsx:48 | the new history is the last min(n, 60) previous points, in order, followed by the new point, so it never exceeds 61 points |
| PriceChart.AppendedKeepsRecent | cap/src/app/components/PriceChart.tsx:48 | each of the newest sixty previous points survives the append, shifted forward by the number of points dropped |
| PriceChart.ChangeColor | cap/src/app/components/PriceChart.tsx:74-81 | red exactly when both prices are known and the current is higher, blue exactly when it is lower, black when they are equal or either is unknown |
| PriceChart.View | cap/src/app/components/PriceChart.tsx:60-61 | a non-empty error is shown whatever the data; otherwise an empty history shows the no-data view and a non-empty one the chart of exactly that history |
| PriceChart.RealtimePriceChart.constructor | cap/src/app/components/PriceChart.tsx:26-29 | starts with no history, no prices and no error |
| PriceChart.RealtimePriceChart.FetchPrice | cap/src/app/components/PriceChart.tsx:34-52 | an accepted poll (ok, non-zero price, non-empty time) appends its point to the bounded history, makes the old current price the previous one when there was one, and sets the new current price; a rejected poll sets its error and changes nothing else; the history stays within 61 points |
| RsiChart.Kept | cap/src/app/components/RSIChart.tsx:37-39 | no kept point has a null RSI |
| RsiChart.KeptSpec | cap/src/app/components/RSIChart.tsx:37-39 | a point is kept exactly when it is in the response with a non-null RSI (an absent RSI passes), kept points keep their order, and a response without nulls is kept whole |
| RsiChart.Recent | cap/src/app/components/RSIChart.tsx:55 | the window is the last min(n, 252) points, and the whole data when there are at most 252 |
| RsiChart.Plotted | cap/src/app/components/RSIChart.tsx:57 | a numeric RSI is plotted as itself and an absent one as a gap |
| RsiChart.AfterFetch | cap/src/app/components/RSIChart.tsx:33-45 | rows are filtered and stored; a non-ok status sets its error text and a throw its message, keeping the data; loading ends either way |
| RsiChart.View | cap/src/app/components/RSIChart.tsx:50-57 | loading wins, then a non-empty error, then the empty view; the chart plots the dates and RSI values of the recent window, one per point |
| InvestExpertChat.AssistantMessage | cap/src/app/components/InvestExpertChat.tsx:27-29 | the reply is an assistant message carrying the answer on success and the fixed error text on failure |
| InvestExpertChat.ExchangesAppend | cap/src/app/components/InvestExpertChat.tsx:18-29 | a question followed by its answer keeps the log alternating user and assistant messages, user first |
| InvestExpertChat.Chat.constructor | cap/src/app/components/InvestExpertChat.tsx:7-9 | starts with an empty input, an empty log and no loading |
| InvestExpertChat.Chat.Send | cap/src/app/components/InvestExpertChat.tsx:16-34 | blank input sends nothing and changes nothing; otherwise the untrimmed input is sent and logged as a user message followed by exactly one assistant message, loading ends and the input is cleared; the log only grows and keeps alternating |
| InvestExpertChat.Chat.KeyDown | cap/src/app/components/InvestExpertChat.tsx:36-41 | Enter without Shift behaves as a send; any other key changes nothing |
| Signup.Precheck | cap/src/app/signup/page.tsx:31-40 | a mismatch is reported exactly when the passwords differ, even when the password is also short; the length error exactly when they agree and the password has fewer than six UTF-16 code units; no error exactly otherwise |
| Signup.SignupForm.constructor | cap/src/app/signup/page.tsx:20-23 | starts with empty fields, no error, no loading and no redirect |
| Signup.SignupForm.HandleSignup | cap/src/app/signup/page.tsx:26-64 | the provider is called, with the email and password, exactly when the precheck passes; otherwise the precheck's error is shown; a created account leaves no error and schedules the redirect; a provider error or a throw shows its message and does not redirect; loading ends false on every path |
| Signup.AstralPasswordLongEnough | cap/src/app/signup/page.tsx:36 | three emoji pass the length rule, since each counts as two code units |
| ProfitCalculator.MockCurrentPrice | cap/src/app/components/ProfitCalculator.tsx:33 | for a positive buy price the simulated price lies within ±10% of it |
| ProfitCalculator.Compute | cap/src/app/components/ProfitCalculator.tsx:34-39 | the total value is current price × quantity, the profit is the total value less buy price × quantity, and the return times the buy price is 100 × (current − buy) |
| ProfitCalculator.ReturnSignMatchesProfit | cap/src/app/components/ProfitCalculator.tsx:37-38 | for a positive buy price and quantity the return and the profit are both positive, both negative or both zero |
| ProfitCalculator.IndicatorOf | cap/src/app/components/ProfitCalculator.tsx:117-118 | 🔺 in red exactly for a non-negative value, 🔻 in blue otherwise, with the absolute value shown |
| ProfitCalculator.Calculator.constructor | cap/src/app/components/ProfitCalculator.tsx:13-17 | starts with no inputs, no result, no error and no loading |
| ProfitCalculator.Calculator.HandleCalculate | cap/src/app/components/ProfitCalculator.tsx:19-47 | a missing or zero input sets the error and keeps the previous result and the loading flag; otherwise the error is cleared, the result is computed from the simulated price, and loading ends |
| YahooChart.Round2 | cap/src/app/api/market-trend/route.ts:41 | `toFixed(2)` read back as a number is within half a cent of the close, and is zero exactly when the close is within half a cent of zero |
| YahooChart.ValueAt | cap/src/app/api/market-trend/route.ts:41 | a point has a value exactly when its close exists, is not `null` and does not round to zero; the value is the rounded close |
| YahooChart.Mapped | cap/src/app/api/market-trend/route.ts:36-42 | one point per timestamp, in timestamp order, with that timestamp's time text and value |
| YahooChart.ChartPoints | cap/src/app/api/market-trend/route.ts:36-43 | never more points than timestamps, and every point has a value |
| YahooChart.ChartPointsSpec | cap/src/app/api/financials_Chart/route.ts:41-48 | a point is output exactly when it is a mapped point with a value, so it comes from a timestamp whose close is present and non-zero after rounding; points keep timestamp order; when every close counts there is one point per timestamp |
| YahooChart.SmallClosesDropped | cap/src/app/api/market-trend/route.ts:41 | a close of 0.004 is dropped, 0.005 and -0.005 are kept as ±0.01, and a missing or `null` close is dropped |
| YahooChart.TypeOf | cap/src/app/api/market-trend/route.ts:19 | a missing or empty `type` means "kospi", any other is used as given (api/financials_Chart/route.ts:5 reads it the same way) |
| MarketTrendRoute.Lookup | cap/src/app/api/market-trend/route.ts:20 | the market is always one of the table's; the lower-cased type's entry when there is one, otherwise kospi's |
| MarketTrendRoute.LookupSpec | cap/src/app/api/market-trend/route.ts:19-20 | a type and its lower-cased form name the same market, and a missing or empty type is ^KS11 |
| MarketTrendRoute.Get | cap/src/app/api/market-trend/route.ts:24-50 | the status is always 200; a failed request, a non-ok status or a missing result, timestamp or close list answers `[]`; otherwise the points, never more than the timestamps |
| FinancialsChartRoute.SymbolOf | cap/src/app/api/financials_Chart/route.ts:8-14 | the symbol is always one of the table's; the lower-cased type's symbol when there is one, otherwise ^KS11 |
| FinancialsChartRoute.SymbolOfSpec | cap/src/app/api/financials_Chart/route.ts:5-14 | a type and its lower-cased form give the same symbol, and a missing or empty type gives ^KS11 |
| FinancialsChartRoute.Get | cap/src/app/api/financials_Chart/route.ts:17-57 | 200 exactly when points are returned, 500 otherwise: a non-ok upstream gives its error and status, a malformed payload the format error (not `[]`), a throw the server error |
| MarketSummaryRoute.Diff | cap/src/app/api/market-summary/route.ts:22 | the difference is finite exactly when both prices are known, and is then price minus previous close |
| MarketSummaryRoute.Rate | cap/src/app/api/market-summary/route.ts:23 | the rate is diff / previous close × 100 for a non-zero previous close, and ±Infinity or NaN by JavaScript's division by zero |
| MarketSummaryRoute.EntryFor | cap/src/app/api/market-summary/route.ts:24-46 | every entry carries its symbol's key and name; a failed symbol gives "-" for the three texts and `null` for `isUp`, and only a failure does; otherwise the texts carry "+" exactly for a positive diff and `isUp` is diff ≥ 0 |
| MarketSummaryRoute.Get | cap/src/app/api/market-summary/route.ts:32-50 | one entry per configured symbol, nine in all, in configuration order, each with its key and name and built from that symbol's own response |
| MarketSummaryRoute.EntriesIndependent | cap/src/app/api/market-summary/route.ts:33-48 | a symbol's entry depends only on its own response, so a failing symbol leaves the others unchanged |
| MarketSummaryRoute.SignRules | cap/src/app/api/market-summary/route.ts:26-28 | with both prices known `isUp` is price ≥ previous close and "+" marks only a rise, so an unchanged price is up without "+" |
| MarketSummaryRoute.MissingPreviousClose | cap/src/app/api/market-summary/route.ts:21-28 | a missing previous close still shows the price, reads "NaN" and "NaN%", and is not up |
| Strs.Trim | cap/src/app/components/MarketSummaryWidget.tsx:28 | the original is blank text, then the trimmed text, then blank text, and the trimmed text neither starts nor ends with whitespace, so only leading and trailing whitespace is removed |
| Strs.TrimEmptyIffBlank | cap/src/app/components/Watchlist.tsx:76 | a string trims to empty exactly when it is blank |
| Strs.TrimPadded | cap/src/app/components/MarketSummaryWidget.tsx:34 | whitespace around a string never changes what `trim` returns |
| Strs.Lower | cap/src/app/components/Watchlist.tsx:82 | lower-casing keeps the length and changes only ASCII capitals, so Hangul is left alone |
| Strs.LowerIdempotent | cap/src/app/api/market-trend/route.ts:20 | lower-casing twice is lower-casing once |
| Strs.ContainsIffOccurs | cap/src/app/components/Watchlist.tsx:84 | `includes` holds exactly when the text occurs at some position |
| Strs.Utf16Length | cap/src/app/signup/page.tsx:36 | `length` counts between one and two code units per character, and exactly one per character inside the Basic Multilingual Plane |
| Seqs.Take | cap/src/app/components/OrderBook.tsx:68 | `slice(0, n)` is the prefix of length min(len, n) |
| Seqs.TakeLast | cap/src/app/components/PriceChart.tsx:48 | for a positive n, `slice(-n)` is the suffix of length min(len, n) |

## Left out

- All I/O (`fetch`, `axios`, Supabase auth and the watchlist table, the WebSocket connection) is left out. Each call's result is a method parameter or an outcome datatype.
- The initial loads are not modelled: `fetchAllStocks` and `fetchWatchlist` in Watchlist.tsx, the company fetches of main/page.tsx, predict/page.tsx and Header.tsx, and the session checks and sign-out redirects. They only copy a response into state.
- `fetchLSTMPrediction` and its effect are not modelled. The modal's request only stores the response, or the sample data on failure; `GenerateSample` models that fallback.
- Timing is not modelled: `setInterval` polling, `setTimeout`, effect re-runs on dependency changes, the `isMounted` guard, and the order in which `Promise.all` completes.
- Watchlist.WatchlistPanel.FetchPrices processes the codes in watchlist order, with one response per code. The source's concurrent requests can finish in any order; when no code is listed twice each writes only its own key, so the resulting map is the same. A code can be listed twice (the database rows are copied as they are, and a second add issued before the first insert returns passes the duplicate check); then the request that finishes last decides that entry, which the model does not capture.
- Asynchronous intermediate states are not modelled. A handler that sets `loading` and later clears it is one method, and only its final state is stated; for example `InvestExpertChat.Chat.Send` shows the user message and the reply as one step.
- `PredictPage.PredictModelPage` splits each request effect into its start and its finish, because the response arrives later.
- The request is left out in `RsiChart.AfterFetch`. It models only the end of `fetchChart`; the `setLoading(true)` before the request is not modelled.
- `toFixed`, `toLocaleString` and the date formatting are opaque parameters, so their exact digits, including `-0` and numbers of 10^21 and up, are not modelled. `YahooChart.Round2` models only the value that `parseFloat(x.toFixed(2))` gives back, with half-cents rounded away from zero in exact arithmetic.
- Floating point is exact real arithmetic throughout; binary rounding is not modelled. `NaN` and the infinities appear only where the market-summary route can produce them.
- The sample generator's `Math.sin`/`Math.cos` noise and `Math.random` draws are parameters (`histFactor`, `predFactor`, `metrics`). The model assumes only that each step factor is positive, as `1 ± 0.04` and `1 ± 0.0125` are.
- `toLowerCase` is modelled for ASCII letters only. Non-ASCII case mappings (Latin-1, Greek, the Kelvin sign) are left out; Hangul, digits and symbols are unaffected either way.
- Property lookups that would hit `Object.prototype` (a `type` of "constructor" in the route tables, or a stock code such as "toString" in the price map) are not modelled; the tables are plain maps.
- JSON values of the wrong type are not modelled (a numeric `code`, a non-number price, a non-string `answer`). The RSI field is number, `null` or absent, and a non-array RSI body counts as a throw.
- A chat reply without an `answer` field, which the source would log as `undefined`, is not modelled: `InvestExpertChat.Reply` has a string answer or a failure.
- ProfitCalculator's `catch` branch, which cannot be reached, is left out.
- PriceChart's effect re-subscribing on every `currentPrice` change is left out; each poll is one `FetchPrice` call.
- Chart layouts, Plotly and Chart.js options, the candlestick and moving-average traces, and the markup are left out.
- The LSTM modal's today/tomorrow change figure, which divides by a possibly zero price, is left out.
