/**
 * The dashboard's view state and its three handlers: typing a search query,
 * selecting a stock and switching the chart's timeframe. Selecting and
 * switching both run the same detail fetch: the quote first, then, once the
 * quote has been committed, the price history, from which the percent change
 * shown in the badge is derived.
 *
 * Network responses are parameters of the handlers: `None` stands for a
 * request (or the decoding of its body) that failed. Each handler runs to
 * completion; interleavings of overlapping handlers are not modelled.
 */
module Dashboard {
  import opened Wrappers
  import StockSearch

  /** The periods offered by the timeframe switch. */
  datatype Timeframe = FiveDays | OneMonth | SixMonths | OneYear | Max

  /** The `/quote` response. */
  datatype Quote = Quote(symbol: string, price: real)

  /** One point of the `/history` response. */
  datatype PricePoint = PricePoint(date: string, price: real)

  /** A request sent to the backend. */
  datatype Request =
    | SearchRequest(query: string)
    | QuoteRequest(symbol: string)
    | HistoryRequest(symbol: string, period: Timeframe)

  /** The eight state fields of the dashboard. */
  datatype ViewState = ViewState(
    searchValue: string,
    suggestions: seq<StockSearch.SearchOption>,
    selectedStock: Option<string>,
    stockData: Option<Quote>,
    chartData: seq<PricePoint>,
    timeframe: Timeframe,
    loading: bool,
    percentChange: Option<real>)

  const InitialView := ViewState("", [], None, None, [], OneMonth, false, None)

  // ---------------------------------------------------------------------------
  // Percent change and the badge

  function First(history: seq<PricePoint>): real requires |history| > 0 { history[0].price }

  function Last(history: seq<PricePoint>): real requires |history| > 0 { history[|history| - 1].price }

  /** The relative move from the first to the last price, in percent. */
  function PercentChange(history: seq<PricePoint>): (r: real)
    requires |history| > 0 && First(history) != 0.0
    ensures r * First(history) == (Last(history) - First(history)) * 100.0
  {
    ((Last(history) - First(history)) / First(history)) * 100.0
  }

  /** With a positive first price the change has the sign of the price move. */
  lemma PercentChangeSign(history: seq<PricePoint>)
    requires |history| > 0 && First(history) > 0.0
    ensures PercentChange(history) > 0.0 <==> Last(history) > First(history)
    ensures PercentChange(history) == 0.0 <==> Last(history) == First(history)
    ensures PercentChange(history) < 0.0 <==> Last(history) < First(history)
  {
  }

  datatype Color = Green | Red

  /** The percent-change badge: its colour, whether a '+' is prefixed, and the number shown. */
  datatype Badge = Badge(color: Color, plusSign: bool, percent: real)

  /** Inside the price card, the badge is rendered only when a percent change is known. */
  function PercentBadge(percentChange: Option<real>): (b: Option<Badge>)
    ensures b.Some? <==> percentChange.Some?
    ensures b.Some? ==> b.value.percent == percentChange.value
    ensures b.Some? ==> (b.value.color == Green <==> percentChange.value >= 0.0)
    ensures b.Some? ==> (b.value.plusSign <==> percentChange.value > 0.0)
  {
    match percentChange
    case None => None
    case Some(p) => Some(Badge(if p >= 0.0 then Green else Red, p > 0.0, p))
  }

  /**
   * The colour of the price chart's line and fill. In JavaScript `null >= 0`
   * holds, so an unknown percent change draws green.
   */
  function AreaColor(percentChange: Option<real>): (c: Color)
    ensures c == Red <==> percentChange.Some? && percentChange.value < 0.0
  {
    if percentChange.GetOr(0.0) >= 0.0 then Green else Red
  }

  /**
   * The price card, which holds the quote, the badge and the chart, is
   * rendered only for a known quote and while nothing is loading; while
   * loading, the loader stands in its place.
   */
  predicate CardVisible(v: ViewState) {
    v.stockData.Some? && !v.loading
  }

  /** The badge as the page shows it: inside the visible price card, when a percent change is known. */
  function ShownBadge(v: ViewState): (b: Option<Badge>)
    ensures b.Some? <==> CardVisible(v) && v.percentChange.Some?
    ensures b.Some? ==> b == PercentBadge(v.percentChange)
  {
    if CardVisible(v) then PercentBadge(v.percentChange) else None
  }

  /** A '+' only ever appears on a green badge, and the badge agrees with the chart colour. */
  lemma BadgeConsistent(percentChange: Option<real>)
    requires percentChange.Some?
    ensures PercentBadge(percentChange).value.plusSign ==> PercentBadge(percentChange).value.color == Green
    ensures PercentBadge(percentChange).value.color == AreaColor(percentChange)
  {
  }

  /** For a positive first price the badge is green iff the price did not fall, and has a '+' iff it rose. */
  lemma BadgeFollowsPrices(history: seq<PricePoint>)
    requires |history| > 0 && First(history) > 0.0
    ensures var b := PercentBadge(Some(PercentChange(history))).value;
      (b.color == Green <==> Last(history) >= First(history)) &&
      (b.plusSign <==> Last(history) > First(history))
  {
  }

  // ---------------------------------------------------------------------------
  // The detail fetch as a function of the state and the responses

  /** The first price of a history that will be divided by is not zero. */
  predicate HistoryUsable(history: Option<seq<PricePoint>>) {
    history.Some? && |history.value| > 0 ==> First(history.value) != 0.0
  }

  /** The requests `fetchStockDetails` sends: the history is asked for only once the quote has arrived. */
  function FetchRequests(symbol: string, period: Timeframe, quote: Option<Quote>): seq<Request> {
    if quote.None? then [QuoteRequest(symbol)] else [QuoteRequest(symbol), HistoryRequest(symbol, period)]
  }

  /**
   * The state the dashboard holds while each of those requests is awaited:
   * `loading` is set first, and the quote is committed before the history is
   * asked for.
   */
  function WhileAwaiting(v: ViewState, quote: Option<Quote>): seq<ViewState> {
    var fetching := v.(loading := true);
    if quote.None? then [fetching] else [fetching, fetching.(stockData := quote)]
  }

  /**
   * While any request of the fetch is pending the dashboard is loading: the
   * loader replaces the price card, so no quote, badge or chart is visible.
   * Nothing but `loading` and (for the history request) the new quote has
   * changed in state yet: the previous chart and percent change are still
   * held, hidden behind the loader.
   */
  lemma LoadingWhileAwaiting(v: ViewState, symbol: string, period: Timeframe, quote: Option<Quote>)
    ensures |WhileAwaiting(v, quote)| == |FetchRequests(symbol, period, quote)|
    ensures forall i :: 0 <= i < |WhileAwaiting(v, quote)| ==>
      var w := WhileAwaiting(v, quote)[i];
      w.loading && !CardVisible(w) && ShownBadge(w).None? && w.chartData == v.chartData && w.percentChange == v.percentChange &&
      w.stockData == (if FetchRequests(symbol, period, quote)[i].HistoryRequest? then quote else v.stockData)
  {
  }

  /** The state after `fetchStockDetails` has finished, given the two responses. */
  function AfterFetch(v: ViewState, quote: Option<Quote>, history: Option<seq<PricePoint>>): ViewState
    requires HistoryUsable(history)
  {
    if quote.None? then v.(loading := false)
    else if history.None? then v.(stockData := quote, loading := false)
    else
      v.(stockData := quote, chartData := history.value,
         percentChange := if |history.value| > 0 then Some(PercentChange(history.value)) else v.percentChange,
         loading := false)
  }

  /**
   * Whatever the responses, the fetch ends with `loading` false, so the price
   * card is back whenever a quote is known, and leaves the search box, the
   * suggestions, the selection and the timeframe alone.
   */
  lemma FetchSettles(v: ViewState, quote: Option<Quote>, history: Option<seq<PricePoint>>)
    requires HistoryUsable(history)
    ensures var w := AfterFetch(v, quote, history);
      !w.loading && w.searchValue == v.searchValue && w.suggestions == v.suggestions &&
      w.selectedStock == v.selectedStock && w.timeframe == v.timeframe &&
      (CardVisible(w) <==> w.stockData.Some?)
  {
  }

  /**
   * The quote is committed before the history is asked for: when the history
   * fails the new quote sits beside the previous chart and percent change;
   * when the quote fails nothing but `loading` changes.
   */
  lemma PartialFailure(v: ViewState, quote: Option<Quote>, history: Option<seq<PricePoint>>)
    requires HistoryUsable(history)
    ensures quote.None? ==> AfterFetch(v, quote, history) == v.(loading := false)
    ensures quote.Some? && history.None? ==>
      var w := AfterFetch(v, quote, history);
      w.stockData == quote && w.chartData == v.chartData && w.percentChange == v.percentChange
  {
  }

  /**
   * After a full success the chart shows the new history; the percent change
   * is that of the history, or the previous one when the history is empty.
   */
  lemma FetchSuccess(v: ViewState, q: Quote, history: seq<PricePoint>)
    requires HistoryUsable(Some(history))
    ensures var w := AfterFetch(v, Some(q), Some(history));
      w.stockData == Some(q) && w.chartData == history &&
      w.percentChange == (if |history| > 0 then Some(PercentChange(history)) else v.percentChange)
  {
  }

  /** A history going from 100 to 110 shows a change of +10 percent. */
  lemma TenPercentScenario(v: ViewState)
    ensures var h := [PricePoint("2024-01-01", 100.0), PricePoint("2024-01-31", 110.0)];
      var w := AfterFetch(v, Some(Quote("AAPL", 110.0)), Some(h));
      w.percentChange == Some(10.0) && PercentBadge(w.percentChange) == Some(Badge(Green, true, 10.0))
  {
  }

  /** A non-empty string held: JavaScript's truthiness of `selectedStock`. */
  predicate IsSelected(selected: Option<string>) {
    selected.Some? && selected.value != ""
  }

  // ---------------------------------------------------------------------------
  // The component

  class App {
    var searchValue: string
    var suggestions: seq<StockSearch.SearchOption>
    var selectedStock: Option<string>
    var stockData: Option<Quote>
    var chartData: seq<PricePoint>
    var timeframe: Timeframe
    var loading: bool
    var percentChange: Option<real>

    function View(): ViewState
      reads this
    {
      ViewState(searchValue, suggestions, selectedStock, stockData, chartData, timeframe, loading, percentChange)
    }

    constructor ()
      ensures View() == InitialView
    {
      searchValue, suggestions, selectedStock := "", [], None;
      stockData, chartData, timeframe := None, [], OneMonth;
      loading, percentChange := false, None;
    }

    /**
     * `handleSearchChange`: the box always shows the query; a non-empty query
     * is sent, and a successful response replaces the suggestions wholesale.
     */
    method HandleSearchChange(query: string, response: Option<seq<StockSearch.SearchOption>>)
      returns (requests: seq<Request>)
      modifies this
      ensures requests == if |query| > 0 then [SearchRequest(query)] else []
      ensures View() == old(View()).(
        searchValue := query,
        suggestions := if |query| > 0 && response.Some? then response.value else old(suggestions))
    {
      searchValue := query;
      requests := [];
      if |query| > 0 {
        requests := [SearchRequest(query)];
        if response.Some? {
          suggestions := response.value;
        }
      }
    }

    /** `fetchStockDetails`: quote, then history, then the percent change. */
    method FetchStockDetails(symbol: string, period: Timeframe, quote: Option<Quote>, history: Option<seq<PricePoint>>)
      returns (requests: seq<Request>, awaiting: seq<ViewState>)
      requires HistoryUsable(history)
      modifies this
      ensures requests == FetchRequests(symbol, period, quote)
      ensures awaiting == WhileAwaiting(old(View()), quote)
      ensures View() == AfterFetch(old(View()), quote, history)
    {
      loading := true;
      requests, awaiting := [QuoteRequest(symbol)], [View()];
      if quote.Some? {
        stockData := quote;
        requests, awaiting := requests + [HistoryRequest(symbol, period)], awaiting + [View()];
        if history.Some? {
          chartData := history.value;
          if |history.value| > 0 {
            percentChange := Some(PercentChange(history.value));
          }
        }
      }
      loading := false;
    }

    /** `handleSelect`: remember the stock and fetch it with the current timeframe. */
    method HandleSelect(item: string, quote: Option<Quote>, history: Option<seq<PricePoint>>)
      returns (requests: seq<Request>, awaiting: seq<ViewState>)
      requires HistoryUsable(history)
      modifies this
      ensures requests == FetchRequests(item, old(timeframe), quote)
      ensures awaiting == WhileAwaiting(old(View()).(selectedStock := Some(item)), quote)
      ensures View() == AfterFetch(old(View()).(selectedStock := Some(item)), quote, history)
    {
      selectedStock := Some(item);
      requests, awaiting := FetchStockDetails(item, timeframe, quote, history);
    }

    /**
     * `handleTimeframeChange`: store the new timeframe and, only when a stock
     * is selected, re-run the whole detail fetch with it.
     */
    method HandleTimeframeChange(value: Timeframe, quote: Option<Quote>, history: Option<seq<PricePoint>>)
      returns (requests: seq<Request>, awaiting: seq<ViewState>)
      requires HistoryUsable(history)
      modifies this
      ensures IsSelected(old(selectedStock)) ==>
        requests == FetchRequests(old(selectedStock).value, value, quote) &&
        awaiting == WhileAwaiting(old(View()).(timeframe := value), quote) &&
        View() == AfterFetch(old(View()).(timeframe := value), quote, history)
      ensures !IsSelected(old(selectedStock)) ==>
        requests == [] && awaiting == [] && View() == old(View()).(timeframe := value)
    {
      timeframe := value;
      requests, awaiting := [], [];
      if IsSelected(selectedStock) {
        requests, awaiting := FetchStockDetails(selectedStock.value, value, quote, history);
      }
    }
  }
}
