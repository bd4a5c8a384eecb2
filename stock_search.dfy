/**
 * The `/search` endpoint: the stocks table filtered by a query that may occur
 * in the symbol or in the company name, ignoring letter case, at most ten
 * results in table order, each shown as "SYMBOL - Name".
 */
module StockSearch {
  import opened Strings

  /** A row of the `stocks` table. */
  datatype Stock = Stock(symbol: string, name: string)

  /** One search suggestion: the value submitted on selection and the label text shown. */
  datatype SearchOption = SearchOption(value: string, text: string)

  const Limit: nat := 10

  /** The query occurs in the symbol or in the name, ignoring case. */
  predicate Matches(s: Stock, pattern: string) {
    Contains(ToUpper(s.symbol), pattern) || Contains(ToUpper(s.name), pattern)
  }

  /** The matching rows, in table order. */
  function Matching(stocks: seq<Stock>, pattern: string): (r: seq<Stock>)
    ensures |r| <= |stocks|
    ensures forall s :: s in r ==> s in stocks && Matches(s, pattern)
    decreases |stocks|
  {
    if |stocks| == 0 then []
    else (if Matches(stocks[0], pattern) then [stocks[0]] else []) + Matching(stocks[1..], pattern)
  }

  function OptionFor(s: Stock): SearchOption {
    SearchOption(s.symbol, s.symbol + " - " + s.name)
  }

  /** `LIMIT 10`: the first ten rows, or all of them when there are fewer. */
  function FirstRows(found: seq<Stock>): (r: seq<Stock>)
    ensures |r| == if |found| <= Limit then |found| else Limit
    ensures r <= found
  {
    if |found| <= Limit then found else found[..Limit]
  }

  /** The list comprehension building the response from the rows. */
  function Options(rows: seq<Stock>): (r: seq<SearchOption>)
    ensures |r| == |rows|
    ensures forall i :: 0 <= i < |rows| ==> r[i] == OptionFor(rows[i])
  {
    seq(|rows|, i requires 0 <= i < |rows| => OptionFor(rows[i]))
  }

  /** The response of `/search?q=query`. */
  function SearchStocks(query: string, stocks: seq<Stock>): (r: seq<SearchOption>)
    ensures query == [] ==> r == []
    ensures |r| <= Limit
  {
    if query == [] then [] else Options(FirstRows(Matching(stocks, ToUpper(query))))
  }

  /** Every matching row is found, and nothing else. */
  lemma {:induction false} MatchingComplete(stocks: seq<Stock>, pattern: string, s: Stock)
    ensures s in Matching(stocks, pattern) <==> s in stocks && Matches(s, pattern)
    decreases |stocks|
  {
    if |stocks| > 0 {
      MatchingComplete(stocks[1..], pattern, s);
      if s in stocks && s != stocks[0] {
        var i :| 0 <= i < |stocks| && stocks[i] == s;
        assert stocks[1..][i - 1] == s;
      }
    }
  }

  /** Filtering keeps table order: it distributes over concatenation. */
  lemma {:induction false} MatchingConcat(a: seq<Stock>, b: seq<Stock>, pattern: string)
    ensures Matching(a + b, pattern) == Matching(a, pattern) + Matching(b, pattern)
    decreases |a|
  {
    if |a| == 0 {
      assert a + b == b;
    } else {
      assert (a + b)[1..] == a[1..] + b;
      MatchingConcat(a[1..], b, pattern);
    }
  }

  /**
   * Each suggestion is the value and "symbol - name" label of a row that
   * matches the upper-cased query, the i-th matching row in table order.
   */
  lemma SearchResults(query: string, stocks: seq<Stock>)
    requires query != []
    ensures var r := SearchStocks(query, stocks);
      var found := Matching(stocks, ToUpper(query));
      |r| == (if |found| <= Limit then |found| else Limit) &&
      forall i :: 0 <= i < |r| ==>
        found[i] in stocks && Matches(found[i], ToUpper(query)) &&
        r[i].value == found[i].symbol && r[i].text == found[i].symbol + " - " + found[i].name
  {
  }

  /** When at most ten rows match, each of them is suggested. */
  lemma FewMatchesAllShown(query: string, stocks: seq<Stock>, s: Stock)
    requires query != [] && |Matching(stocks, ToUpper(query))| <= Limit
    requires s in stocks && Matches(s, ToUpper(query))
    ensures OptionFor(s) in SearchStocks(query, stocks)
  {
    var found := Matching(stocks, ToUpper(query));
    MatchingComplete(stocks, ToUpper(query), s);
    var i :| 0 <= i < |found| && found[i] == s;
    assert SearchStocks(query, stocks) == Options(found);
    assert Options(found)[i] == OptionFor(s);
  }
}
