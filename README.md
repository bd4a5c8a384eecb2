# Stock analyser: a verified model of its rules

The stock analyser is a dashboard. A FastAPI backend (`main.py`) serves stock search, quotes,
price history, AI-written fundamentals and financial-statement series. The React frontend's `App`
component (`frontend/src/App.jsx`) shows a search box, a price card with a percent-change badge and
a price chart; it requests only `/search`, `/quote` and `/history`. The components `AnalysisCard`,
`FinancialChart` and `FinancialsGrid` exist under `frontend/src/components`, but `App.jsx` does not
mount them. A scraping script (`ingest.py`) builds the list of S&P 500 companies.

This project models the small deterministic rules inside that plumbing and proves properties
about them in Dafny:

- `statements.dfy`, module `Statements`: the `/financials` endpoint. It extracts one statement row,
  dropping missing/NaN cells and reversing into chronological order. It builds free cash flow,
  using the summed fallback when that row is missing. It searches for the share count in key and
  statement priority order. `extract_data`, the fallback loop and the key loop are methods with
  loop invariants. Each is proved against a specification function.
- `ai_cache.dfy`, module `AiCache`: the `ai_cache` table as a class holding a map from symbol to
  (analysis, saved time), with the seven-day freshness rule. It also models the decision logic of
  `get_ai_analysis`: cache first, then the missing-key answer, then generation, and only a
  successful generation is stored.
- `stock_search.dfy`, module `StockSearch`: `/search`. It has the empty-query guard, a
  case-insensitive match on symbol or name in table order, the ten-row limit and the
  "SYMBOL - Name" labels.
- `dashboard.dfy`, module `Dashboard`: the `App` component as a class with its eight state fields
  and the handlers for search, select and timeframe change. It also holds the percent-change
  formula, the badge rule and the chart colour.
- `analysis_card.dfy`, module `AnalysisCard`: moat colour, moat title, list rendering and the
  missing-analysis guard.
- `financial_chart.dfy`, module `FinancialChart`: the empty-data guard and the unit selection of
  `formatValue`.
- `ingest.py` is modelled by `ingest.dfy`, module `Ingest`: the loop that rewrites every `.` of a
  ticker to `-`.
- `wrappers.dfy` (Option) and `strings.dfy` (ASCII case mapping, substring containment) are helpers.

A financial statement is modelled as a list of column years plus named rows of `Option<real>`
cells. `None` stands for both a missing value and NaN. Times are integers in microseconds, and the
current time is a parameter. Every network response, every yfinance call and the Gemini generation
is an input to the operation that uses it.

How the code behaves in the places where a reader might expect otherwise:

- `fetchStockDetails` fetches the quote, commits it, then fetches the history
  (frontend/src/App.jsx:32-38). A failed history therefore leaves the new quote next to the old
  chart and percent change.
- A timeframe change re-runs the whole quote-and-history fetch under the one `loading` flag
  (frontend/src/App.jsx:58-63).
- Search suggestions are `{value, label}` objects (main.py:104).
- An empty history keeps the previous percent change, which starts out as `null`
  (frontend/src/App.jsx:40-45).
- AI analyses are cached in the `ai_cache` table. Rows are never deleted; a row is served only
  while it is younger than seven days (main.py:44), and a new analysis replaces it.

## Model

| member | source | states |
|---|---|---|
| `Statements.Kept` | main.py:153-155 | The kept points are never more than the row's cells. |
| `Statements.Reversed` | main.py:156 | `reverse()` keeps the length and puts element `k` at position `n-1-k`. |
| `Statements.ExtractData` | main.py:149-157 | `extract_data` returns exactly the specification series `Extracted`. That series is the row's present cells taken in column order and then reversed, and it is empty when the frame is absent or empty or the row is missing. |
| `Statements.KeptMember` | main.py:153-155 | A point is kept if and only if some column holds it as a present (non-missing, non-NaN) value in that year. |
| `Statements.KeptSplit` | main.py:153-155 | Keeping distributes over any split of the columns, so column order is preserved. |
| `Statements.KeptAllPresent` | main.py:165-168 | A row without gaps is kept whole, one point per column, in column order. |
| `Statements.ExtractedContents` | main.py:150-157 | The series is empty if and only if the frame is absent or empty, the row is missing, or no cell is present. A point is in the series if and only if it is a present cell of the row. |
| `Statements.ExtractedOrder` | main.py:153-156 | Output order is the reverse of column order: for any split, the points from columns right of it come before those left of it. |
| `Statements.FilledSum` | main.py:165 | The summed row has a value in every column: operating cash flow plus capital expenditure, with a missing cell counted as 0. |
| `Statements.FreeCashFlow` | main.py:159-170 | Returns exactly `FreeCashFlowSpec`: the "Free Cash Flow" row if present; else the per-column filled sum of "Operating Cash Flow" and "Capital Expenditure" when both exist; else empty. Absent or empty statements also give empty. |
| `Statements.FallbackSum` | main.py:163-169 | In the fallback, every column gives one point and the result is reversed: point `k` is year `n-1-k` with the filled sum of that column. |
| `Statements.SharesSpec` | main.py:172-177 | The share series is empty when no key is in either statement. When key `i` is the first key found in either statement, it is that key's extracted row from the income statement if the income statement has it, and from the balance sheet otherwise. |
| `Statements.SharesHit` | main.py:172-177 | Finds the first key, in list order, present in the income statement or else the balance sheet. Earlier keys are in neither statement. The income statement wins when it has the key. There is no hit if and only if no key is in either statement. |
| `Statements.SharesSeries` | main.py:172-177 | The loop with `break` returns the extracted row of the first hit, even when that series is empty, and returns empty when nothing is found. |
| `Statements.GetFinancials` | main.py:143-188 | The response is fcf, revenue ("Total Revenue"), EPS ("Diluted EPS") and shares, as specified above. If reading the statements fails, all four series are empty. |
| `AiCache.Lookup` | main.py:35-49 | An analysis is returned if and only if the symbol has an entry saved strictly less than seven days before `now`, and then it is the stored analysis. |
| `AiCache.Stored` | main.py:51-56 | INSERT OR REPLACE: the symbol's row becomes (data, now), and every other row is unchanged. |
| `AiCache.LookupAfterStore` | main.py:41-56 | A lookup after a save sees the saved analysis until it is seven days old; other symbols keep their old answer. |
| `AiCache.Expiry` | main.py:44 | An entry is stale from exactly seven days after saving, and it stays stale later. |
| `AiCache.AnalysisCache.constructor` | main.py:29 | On a fresh database the cache starts empty. |
| `AiCache.AnalysisCache.Get` | main.py:35-49 | `get_cached_analysis` returns `Lookup` of the current table and does not change it. |
| `AiCache.AnalysisCache.Save` | main.py:51-56 | `save_cached_analysis` replaces the table with `Stored(old table, symbol, data, now)`. |
| `AiCache.GetAiAnalysis` | main.py:58-95 | The result, the new table and whether generation was attempted equal `Decide` on the old table. `Decide` returns a fresh non-empty cache hit first, then the missing-key answer, then a generated analysis (which is stored), then the unavailable answer. |
| `AiCache.CacheHitWins` | main.py:59-61 | A fresh non-empty hit is returned without attempting generation, and the cache is unchanged. |
| `AiCache.MissingKeyOnlyOnMiss` | main.py:59-68 | Without an API key, a fresh non-empty cached analysis is still served, and the missing-key error comes only after a miss. Generation is never attempted and the cache is unchanged. |
| `AiCache.OnlySuccessIsSaved` | main.py:84-95 | The cache changes only on an attempted and successful generation, and then only the symbol's row is replaced with the result. A failed generation leaves the cache unchanged. |
| `AiCache.FailureIsUnavailable` | main.py:93-95 | On any miss (no entry, a stale entry, or a fresh entry holding the empty object), a failed generation yields "Analysis Unavailable" with empty catalyst and risk lists, and the cache is unchanged. |
| `AiCache.GeneratedThenCached` | main.py:41-46 | After any miss, including a fresh entry holding the empty object, a non-empty analysis generated now is served from the cache for any later call within seven days, without regenerating. |
| `StockSearch.Matching` | main.py:102-103 | Every row found is a table row whose upper-cased symbol or name contains the upper-cased query. |
| `StockSearch.FirstRows` | main.py:103 | `LIMIT 10` gives a prefix of the matches of length min(10, matches). |
| `StockSearch.Options` | main.py:104 | One option per row, in order, each `OptionFor` its row. |
| `StockSearch.SearchStocks` | main.py:97-104 | An empty query gives `[]`, and never more than ten results are returned. |
| `StockSearch.MatchingComplete` | main.py:102-103 | A stock is found if and only if it is in the table and matches. |
| `StockSearch.MatchingConcat` | main.py:103 | Filtering keeps table order (it distributes over concatenation). |
| `StockSearch.SearchResults` | main.py:102-104 | For a non-empty query, result `i` is the `i`-th matching row in table order: value is the symbol and label is `symbol + " - " + name`. There are min(10, matches) results. |
| `StockSearch.FewMatchesAllShown` | main.py:103 | With at most ten matches, every matching stock is suggested. |
| `Dashboard.PercentChange` | frontend/src/App.jsx:40-45 | The change times the first price equals (last − first) × 100. |
| `Dashboard.PercentChangeSign` | frontend/src/App.jsx:43 | For a positive first price, the change is positive, zero or negative exactly when the price rose, stayed or fell. |
| `Dashboard.ShownBadge` | frontend/src/App.jsx:89-116 | The page shows a badge if and only if the price card is visible (a quote is known and nothing is loading) and the percent change is non-null. It is then `PercentBadge` of the percent change. |
| `Dashboard.PercentBadge` | frontend/src/App.jsx:107-115 | Inside the price card, the badge is rendered if and only if the percent change is non-null. It is green if and only if the change is ≥ 0, has a '+' if and only if it is > 0, and shows the change. |
| `Dashboard.AreaColor` | frontend/src/App.jsx:162 | The chart is red if and only if a negative change is known. A null change draws green, because JS `null >= 0` holds. |
| `Dashboard.BadgeConsistent` | frontend/src/App.jsx:107-114 | A '+' only appears on a green badge, and the badge colour agrees with the chart colour. |
| `Dashboard.BadgeFollowsPrices` | frontend/src/App.jsx:40-45 | For a positive first price, the badge is green if and only if the last price is not below the first, with '+' if and only if it is above. |
| `Dashboard.LoadingWhileAwaiting` | frontend/src/App.jsx:30-38 | One awaited state per request. `loading` is true while every request is pending, so the loader replaces the price card (App.jsx:87-89): no quote, badge or chart is visible. The previous chart and percent change are still held in state. The new quote is already in state while the history request is pending, and the old one while the quote request is pending. |
| `Dashboard.FetchSettles` | frontend/src/App.jsx:29-51 | After any fetch outcome, `loading` is false, so the price card (App.jsx:89) is visible exactly when a quote is known. The search value, suggestions, selection and timeframe are untouched. |
| `Dashboard.PartialFailure` | frontend/src/App.jsx:32-38 | If the quote fails, only `loading` changes. If the history fails, the new quote sits beside the previous chart data and percent change. |
| `Dashboard.FetchSuccess` | frontend/src/App.jsx:36-45 | On success the chart shows the new history. The percent change is that of the history, or the previous value for an empty history. |
| `Dashboard.TenPercentScenario` | frontend/src/App.jsx:40-45 | A history from 100 to 110 gives +10 % and a green badge with '+'. |
| `Dashboard.App.constructor` | frontend/src/App.jsx:7-14 | Initial state: empty search, no suggestions, nothing selected, no quote, empty chart, timeframe 1mo, not loading, null percent change. |
| `Dashboard.App.HandleSearchChange` | frontend/src/App.jsx:16-27 | `searchValue` always becomes the query. A request is issued only for a non-empty query. A successful response replaces the suggestions wholesale, and a failed one leaves them unchanged. Nothing else changes. |
| `Dashboard.App.FetchStockDetails` | frontend/src/App.jsx:29-51 | The requests are the quote and then, only if the quote arrived, the history. The states shown while they are awaited are `WhileAwaiting` of the old state. The final state is `AfterFetch` of the old one. |
| `Dashboard.App.HandleSelect` | frontend/src/App.jsx:53-56 | `selectedStock` becomes the item, and the fetch runs for it with the current (old) timeframe. |
| `Dashboard.App.HandleTimeframeChange` | frontend/src/App.jsx:58-63 | The timeframe is always stored. Only when a stock is selected (a non-empty string) does the full quote-and-history fetch re-run with the new value. Otherwise no request is sent and nothing else changes. |
| `AnalysisCard.MoatColorOf` | frontend/src/components/AnalysisCard.jsx:17-18 | Green if and only if the lower-cased moat contains "wide" (this wins over "narrow"). Yellow if and only if it contains "narrow" but not "wide". A missing moat is gray. |
| `AnalysisCard.MoatColorIgnoresCase` | frontend/src/components/AnalysisCard.jsx:17-18 | Upper-casing the moat text does not change its colour. |
| `AnalysisCard.BeforeFirstDot` | frontend/src/components/AnalysisCard.jsx:28 | `split('.')[0]` is a prefix without '.', followed in the text by a '.' unless it is the whole text. |
| `AnalysisCard.NoDotWhole` | frontend/src/components/AnalysisCard.jsx:28 | A moat without '.' is its own title. |
| `AnalysisCard.MoatTitle` | frontend/src/components/AnalysisCard.jsx:28 | "Unknown" for a missing or empty moat. Otherwise it is the moat's text up to its first '.', or the whole moat when it has none: a '.'-free prefix that is followed by a '.' unless it is the whole moat. |
| `AnalysisCard.RenderListItems` | frontend/src/components/AnalysisCard.jsx:3-12 | No bullets for a missing list. Otherwise there is one bullet per item, in input order, keyed by position. |
| `AnalysisCard.RenderListItemsRoundTrip` | frontend/src/components/AnalysisCard.jsx:5-10 | Reading the bullet texts back gives the item list exactly. |
| `AnalysisCard.Render` | frontend/src/components/AnalysisCard.jsx:14-45 | Nothing is rendered if and only if the analysis is missing. Otherwise colour, title and both lists are as above, and the moat text and the summary are passed through unchanged. |
| `FinancialChart.Shown` | frontend/src/components/FinancialChart.jsx:5 | The chart is drawn if and only if the data is present and non-empty. |
| `FinancialChart.UnitSelection` | frontend/src/components/FinancialChart.jsx:7-12 | Currency if and only if asked for, whatever the magnitude. Otherwise billions if and only if abs(v) ≥ 1e9, millions if and only if 1e6 ≤ abs(v) < 1e9, and the bare value if and only if abs(v) < 1e6. |
| `FinancialChart.FormatValue` | frontend/src/components/FinancialChart.jsx:7-12 | The label denotes exactly `v`: a scaled amount times its unit gives back the value, and a currency or plain label holds `v` itself. |
| `FinancialChart.FormatValueSymmetric` | frontend/src/components/FinancialChart.jsx:9-10 | `v` and `-v` get the same unit and opposite amounts. |
| `FinancialChart.ScaledRange` | frontend/src/components/FinancialChart.jsx:9-10 | A scaled amount is at least 1 in absolute value, and an amount in millions is below 1000. |
| `Ingest.ReplaceDots` | ingest.py:29 | Length is kept. Each '.' becomes '-', and every other character is unchanged. |
| `Ingest.ReplaceDotsClean` | ingest.py:29 | No '.' remains, and replacing again changes nothing. |
| `Ingest.FormatRows` | ingest.py:24-31 | As many rows as the input, in the same order. Each row's symbol is dot-replaced and its name is unchanged. |

## Left out

- SQLite connections, SQL text and FastAPI routing and CORS are left out. The `stocks` table is a
  sequence in table order, and `ai_cache` is an in-memory map.
- SQL `LIKE` is approximated as a case-insensitive (ASCII) substring match. The wildcards `%` and
  `_` typed inside a query are not interpreted.
- The order of `SELECT ... LIMIT 10` without `ORDER BY` is assumed to be table order.
- yfinance (`fast_info`, `history`, `info`, `cashflow`, `income_stmt`, `balance_sheet`, `news`)
  and pandas internals are foreign calls. Their results are parameters.
- The bodies of main.py's own `/quote`, `/history` and `/fundamentals` endpoints (main.py:106-141)
  are not modelled, beyond `get_ai_analysis`. They do not fail toward `App`: on any error `/quote`
  answers price 0.00 (main.py:111-112) and `/history` answers `[]` (main.py:120-121). Such a backend
  failure reaches `App` as `Some(Quote(_, 0.0))` or `Some([])`, and an empty history clears the
  chart. `None` stands only for a request that fails to reach the backend or to decode.
- The `ai_cache` table persists in `stocks.db` across restarts (`CREATE TABLE IF NOT EXISTS`,
  main.py:29). `AnalysisCache` models one run on a fresh database.
- The response key `label` (main.py:104) is the field `SearchOption.text`, because
  `label` is a reserved word in Dafny.
- A column's date is modelled by its year. `strftime('%Y')` and `strftime('%Y-%m-%d')` text is not
  modelled.
- Statements.FreeCashFlow: the `try/except: pass` around the fallback sum is not modelled. Summing
  two filled cells cannot fail in the model, and a floating-point sum that is NaN (inf + −inf) or
  infinite is not modelled.
- The Gemini call, fence stripping and `json.loads` (main.py:84-88) are an external,
  nondeterministic service. Their outcome is a `Generation` input.
- Building the news headlines and the prompt (main.py:70-82) happens before the `try` and is not
  modelled. An exception there, such as a `None` profit margin multiplied by 100 or a news item
  that is not a dict, escapes `get_ai_analysis` and makes `/fundamentals` answer
  `{"error": "Stock not found"}` (main.py:139-141). It does not yield "Analysis Unavailable",
  which `GenerationFailed` stands for only for failures inside the `try`.
- JSON output that is not an object is not modelled. The analysis keeps only the `moat`,
  `catalysts` and `risks` keys, and a key holding JSON `null` is modelled like an absent key. So an
  object with only other keys, or whose keys are all `null` (such as `{"moat": null}`), counts as
  the empty object: the model treats it as a cache miss and generates again, whereas the code
  finds that one-key dict truthy (main.py:60) and serves it from the cache.
- The JSON text round trip through the `data` column is taken to be the identity.
- The API key is reduced to whether it is truthy (`hasKey`).
- `datetime.now()` is one `now` parameter per call, so lookup and save share the same instant.
- Floating point is left out: `round(..., 2)`, `toFixed` digit strings and IEEE infinities and NaN.
  Prices and values are exact reals.
- Dashboard.PercentChange: requires a non-zero first price instead of modelling JavaScript's
  `Infinity`/`NaN` for a zero one.
- Dashboard.AfterFetch, Dashboard.App.FetchStockDetails, Dashboard.App.HandleSelect and
  Dashboard.App.HandleTimeframeChange: they carry the same exclusion as `requires
  HistoryUsable(history)`, so a non-empty history whose first price is 0 is not modelled. Such a
  history can occur, because main.py:118 rounds a close below 0.005 to 0.00.
- Dashboard.App.HandleSearchChange: `SearchRequest(query)` records the typed text, not the `q` the
  backend decodes. App.jsx:20 puts the query into the URL without encoding it, so "AT&T" arrives as
  `q=AT`, text after `#` is not sent, `+` arrives as a space and `%41` arrives as "A".
- `fetch`/`await` interleavings are concurrency. Overlapping handlers, and stale responses
  overwriting newer ones, are not modelled: each handler is one sequential transition.
- Rendering, styling and the locale date formatting of chart ticks and tooltips are left out.
- `FinancialsGrid.jsx` is a constant four-entry configuration table with no rule. It is not part of
  this model.
- JavaScript `toLowerCase` and Python `upper` are modelled for ASCII letters only.
- The Wikipedia request, `pd.read_html` and writing `stocks.json` are I/O.
