/**
 * Building the list of S&P 500 companies: every row of the scraped table is
 * kept, in order, with each '.' of its ticker replaced by '-' (the form the
 * market-data service uses, "BRK.B" becoming "BRK-B").
 */
module Ingest {

  /** One row of the table: ticker symbol and company name. */
  datatype Row = Row(symbol: string, security: string)

  /** `str.replace('.', '-')`: every occurrence, nothing else touched. */
  function ReplaceDots(s: string): (r: string)
    ensures |r| == |s|
    ensures forall i :: 0 <= i < |s| ==> r[i] == if s[i] == '.' then '-' else s[i]
  {
    if |s| == 0 then [] else [if s[0] == '.' then '-' else s[0]] + ReplaceDots(s[1..])
  }

  /** No '.' survives, and replacing again changes nothing. */
  lemma ReplaceDotsClean(s: string)
    ensures '.' !in ReplaceDots(s)
    ensures ReplaceDots(ReplaceDots(s)) == ReplaceDots(s)
  {
  }

  /** The loop building `formatted_data`. */
  method FormatRows(rawData: seq<Row>) returns (formatted: seq<Row>)
    ensures |formatted| == |rawData|
    ensures forall i :: 0 <= i < |rawData| ==>
      formatted[i] == Row(ReplaceDots(rawData[i].symbol), rawData[i].security)
  {
    formatted := [];
    for k := 0 to |rawData|
      invariant |formatted| == k
      invariant forall i :: 0 <= i < k ==> formatted[i] == Row(ReplaceDots(rawData[i].symbol), rawData[i].security)
    {
      var symbol := rawData[k].symbol;
      var name := rawData[k].security;
      symbol := ReplaceDots(symbol);
      formatted := formatted + [Row(symbol, name)];
    }
  }
}
