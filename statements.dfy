/**
 * The `/financials` endpoint: turning the rows of a company's cash-flow
 * statement, income statement and balance sheet into chronological
 * (year, value) series for free cash flow, revenue, EPS and share count.
 *
 * A statement is a table whose columns are reporting dates (newest first, as
 * the market-data library returns them) and whose rows are named line items.
 * A cell is `None` when the value is missing or NaN.
 */
module Statements {
  import opened Wrappers

  /** A financial statement: one column per reporting date (given by its year), named rows of cells. */
  datatype Frame = Frame(years: seq<int>, rows: map<string, seq<Option<real>>>)

  /** One point of an extracted series. */
  datatype Point = Point(year: int, value: real)

  /** Every row has one cell per column, as in any table. */
  predicate WellFormed(f: Frame) {
    forall name :: name in f.rows ==> |f.rows[name]| == |f.years|
  }

  /** A statement that may be absent is well formed whenever it is present. */
  predicate WellFormedIfPresent(df: Option<Frame>) {
    df.Some? ==> WellFormed(df.value)
  }

  /** A table is empty when it has no columns or no rows. */
  predicate IsEmpty(f: Frame) {
    |f.years| == 0 || |f.rows| == 0
  }

  /** The statement is present and has a row with this name. */
  predicate HasRow(df: Option<Frame>, name: string) {
    df.Some? && name in df.value.rows
  }

  /** Index i of `cells` holds a present value. */
  predicate Present(cells: seq<Option<real>>, i: int) {
    0 <= i < |cells| && cells[i].Some?
  }

  // ---------------------------------------------------------------------------
  // Specification functions

  /** The present cells of a row, as points, in column order. */
  function Kept(years: seq<int>, cells: seq<Option<real>>): (r: seq<Point>)
    requires |years| == |cells|
    ensures |r| <= |cells|
    decreases |cells|
  {
    if |cells| == 0 then []
    else
      var n := |cells| - 1;
      Kept(years[..n], cells[..n]) + (if cells[n].Some? then [Point(years[n], cells[n].value)] else [])
  }

  /** The sequence read back to front. */
  function Reversed<T>(s: seq<T>): (r: seq<T>)
    ensures |r| == |s|
    ensures forall k :: 0 <= k < |s| ==> r[k] == s[|s| - 1 - k]
  {
    if |s| == 0 then [] else Reversed(s[1..]) + [s[0]]
  }

  /** What `extract_data` returns for the row `name` of `df`. */
  function Extracted(df: Option<Frame>, name: string): seq<Point>
    requires WellFormedIfPresent(df)
  {
    if df.Some? && !IsEmpty(df.value) && name in df.value.rows
    then Reversed(Kept(df.value.years, df.value.rows[name]))
    else []
  }

  /** Kept over one more column. */
  lemma KeptStep(years: seq<int>, cells: seq<Option<real>>, i: nat)
    requires |years| == |cells| && i < |cells|
    ensures Kept(years[..i + 1], cells[..i + 1]) ==
      Kept(years[..i], cells[..i]) + (if cells[i].Some? then [Point(years[i], cells[i].value)] else [])
  {
    assert years[..i + 1][..i] == years[..i] && cells[..i + 1][..i] == cells[..i];
  }

  // ---------------------------------------------------------------------------
  // extract_data

  /** `extract_data`: the present values of one row in reverse column order, i.e. oldest first. */
  method ExtractData(df: Option<Frame>, name: string) returns (data: seq<Point>)
    requires WellFormedIfPresent(df)
    ensures data == Extracted(df, name)
  {
    data := [];
    if df.Some? && !IsEmpty(df.value) && name in df.value.rows {
      var years, row := df.value.years, df.value.rows[name];
      for i := 0 to |row|
        invariant data == Kept(years[..i], row[..i])
      {
        KeptStep(years, row, i);
        if row[i].Some? {
          data := data + [Point(years[i], row[i].value)];
        }
      }
      assert years[..|row|] == years && row[..|row|] == row;
      data := Reversed(data);
    }
  }

  // ---------------------------------------------------------------------------
  // Properties of the extraction

  /** A point is kept exactly when some column holds it as a present value. */
  lemma {:induction false} KeptMember(years: seq<int>, cells: seq<Option<real>>, p: Point)
    requires |years| == |cells|
    ensures p in Kept(years, cells) <==>
      exists i :: Present(cells, i) && cells[i].value == p.value && years[i] == p.year
    decreases |cells|
  {
    if |cells| > 0 {
      var n := |cells| - 1;
      KeptMember(years[..n], cells[..n], p);
      if exists i :: Present(cells[..n], i) && cells[..n][i].value == p.value && years[..n][i] == p.year {
        var i :| Present(cells[..n], i) && cells[..n][i].value == p.value && years[..n][i] == p.year;
        assert Present(cells, i);
      }
      if exists i :: Present(cells, i) && cells[i].value == p.value && years[i] == p.year {
        var i :| Present(cells, i) && cells[i].value == p.value && years[i] == p.year;
        if i < n {
          assert Present(cells[..n], i) && cells[..n][i].value == p.value && years[..n][i] == p.year;
        }
      }
    }
  }

  /** Keeping distributes over a split of the columns: column order is preserved. */
  lemma {:induction false} KeptSplit(years: seq<int>, cells: seq<Option<real>>, i: nat)
    requires |years| == |cells| && i <= |cells|
    ensures Kept(years, cells) == Kept(years[..i], cells[..i]) + Kept(years[i..], cells[i..])
    decreases |cells|
  {
    if i == |cells| {
      assert years[..i] == years && cells[..i] == cells;
      assert Kept(years[i..], cells[i..]) == [];
    } else {
      var n := |cells| - 1;
      var tail := if cells[n].Some? then [Point(years[n], cells[n].value)] else [];
      KeptSplit(years[..n], cells[..n], i);
      assert years[..n][..i] == years[..i] && cells[..n][..i] == cells[..i];
      assert years[..n][i..] == years[i..][..n - i] && cells[..n][i..] == cells[i..][..n - i];
      assert Kept(years[i..], cells[i..]) == Kept(years[i..][..n - i], cells[i..][..n - i]) + tail;
    }
  }

  /** A row without gaps is kept whole. */
  lemma {:induction false} KeptAllPresent(years: seq<int>, cells: seq<Option<real>>)
    requires |years| == |cells|
    requires forall i :: 0 <= i < |cells| ==> cells[i].Some?
    ensures |Kept(years, cells)| == |cells|
    ensures forall k :: 0 <= k < |cells| ==> Kept(years, cells)[k] == Point(years[k], cells[k].value)
    decreases |cells|
  {
    if |cells| > 0 {
      KeptAllPresent(years[..|cells| - 1], cells[..|cells| - 1]);
    }
  }

  lemma ReversedConcat<T>(a: seq<T>, b: seq<T>)
    ensures Reversed(a + b) == Reversed(b) + Reversed(a)
  {
  }

  /**
   * The extracted series is empty when the statement is absent or empty, when
   * the row is missing, or when the row holds no present value; otherwise it
   * holds a point for every present cell and nothing else.
   */
  lemma ExtractedContents(df: Option<Frame>, name: string, p: Point)
    requires WellFormedIfPresent(df)
    ensures Extracted(df, name) == [] <==>
      (df.None? || IsEmpty(df.value) || name !in df.value.rows ||
       forall i :: 0 <= i < |df.value.years| ==> !Present(df.value.rows[name], i))
    ensures p in Extracted(df, name) <==>
      HasRow(df, name) && !IsEmpty(df.value) &&
      exists i :: Present(df.value.rows[name], i) && df.value.rows[name][i].value == p.value &&
                  df.value.years[i] == p.year
  {
    if HasRow(df, name) && !IsEmpty(df.value) {
      var years, cells := df.value.years, df.value.rows[name];
      var kept := Kept(years, cells);
      assert p in Extracted(df, name) <==> p in kept by {
        if p in kept {
          var k :| 0 <= k < |kept| && kept[k] == p;
          assert Reversed(kept)[|kept| - 1 - k] == p;
        }
      }
      KeptMember(years, cells, p);
      if forall i :: 0 <= i < |years| ==> !Present(cells, i) {
        if kept != [] {
          KeptMember(years, cells, kept[0]);
        }
      } else {
        var i :| 0 <= i < |years| && Present(cells, i);
        KeptMember(years, cells, Point(years[i], cells[i].value));
      }
    }
  }

  /**
   * Points taken from later columns come first: with the columns split at
   * `i`, the series lists the kept cells right of the split, then those left of it,
   * each part read back to front.
   */
  lemma ExtractedOrder(df: Option<Frame>, name: string, i: nat)
    requires WellFormedIfPresent(df) && HasRow(df, name) && !IsEmpty(df.value)
    requires i <= |df.value.years|
    ensures var years, cells := df.value.years, df.value.rows[name];
      Extracted(df, name) ==
        Reversed(Kept(years[i..], cells[i..])) + Reversed(Kept(years[..i], cells[..i]))
  {
    var years, cells := df.value.years, df.value.rows[name];
    KeptSplit(years, cells, i);
    ReversedConcat(Kept(years[..i], cells[..i]), Kept(years[i..], cells[i..]));
  }

  // ---------------------------------------------------------------------------
  // Free cash flow with its fallback

  const FreeCashFlowRow := "Free Cash Flow"
  const OperatingCashFlowRow := "Operating Cash Flow"
  const CapitalExpenditureRow := "Capital Expenditure"

  /** `fillna(0)` on one cell. */
  function FillNa(c: Option<real>): real {
    c.GetOr(0.0)
  }

  /** The per-column sum of two rows, missing cells counting as 0. */
  function FilledSum(a: seq<Option<real>>, b: seq<Option<real>>): (r: seq<Option<real>>)
    requires |a| == |b|
    ensures |r| == |a|
    ensures forall i :: 0 <= i < |a| ==> r[i] == Some(FillNa(a[i]) + FillNa(b[i]))
  {
    seq(|a|, i requires 0 <= i < |a| => Some(FillNa(a[i]) + FillNa(b[i])))
  }

  /** Which series `get_financials` reports as free cash flow. */
  function FreeCashFlowSpec(cf: Option<Frame>): seq<Point>
    requires WellFormedIfPresent(cf)
  {
    if cf.None? || IsEmpty(cf.value) then []
    else if FreeCashFlowRow in cf.value.rows then Extracted(cf, FreeCashFlowRow)
    else if OperatingCashFlowRow in cf.value.rows && CapitalExpenditureRow in cf.value.rows then
      Reversed(Kept(cf.value.years,
        FilledSum(cf.value.rows[OperatingCashFlowRow], cf.value.rows[CapitalExpenditureRow])))
    else []
  }

  /** The free-cash-flow series: the reported row, else operating cash flow plus capital expenditure. */
  method FreeCashFlow(cf: Option<Frame>) returns (fcfData: seq<Point>)
    requires WellFormedIfPresent(cf)
    ensures fcfData == FreeCashFlowSpec(cf)
  {
    fcfData := [];
    if cf.Some? && !IsEmpty(cf.value) {
      var rows := cf.value.rows;
      if FreeCashFlowRow in rows {
        fcfData := ExtractData(cf, FreeCashFlowRow);
      } else if OperatingCashFlowRow in rows && CapitalExpenditureRow in rows {
        var years := cf.value.years;
        var series := FilledSum(rows[OperatingCashFlowRow], rows[CapitalExpenditureRow]);
        for i := 0 to |series|
          invariant fcfData == Kept(years[..i], series[..i])
        {
          KeptStep(years, series, i);
          if series[i].Some? {
            fcfData := fcfData + [Point(years[i], series[i].value)];
          }
        }
        assert years[..|series|] == years && series[..|series|] == series;
        fcfData := Reversed(fcfData);
      }
    }
  }

  /**
   * Without a "Free Cash Flow" row, but with both cash-flow rows, every column
   * yields one point, newest column last: operating cash flow plus capital
   * expenditure with missing values taken as 0.
   */
  lemma FallbackSum(cf: Option<Frame>)
    requires WellFormedIfPresent(cf) && cf.Some? && !IsEmpty(cf.value)
    requires FreeCashFlowRow !in cf.value.rows
    requires OperatingCashFlowRow in cf.value.rows && CapitalExpenditureRow in cf.value.rows
    ensures var n := |cf.value.years|;
      |FreeCashFlowSpec(cf)| == n &&
      forall k :: 0 <= k < n ==>
        FreeCashFlowSpec(cf)[k] ==
          Point(cf.value.years[n - 1 - k],
                FillNa(cf.value.rows[OperatingCashFlowRow][n - 1 - k]) +
                FillNa(cf.value.rows[CapitalExpenditureRow][n - 1 - k]))
  {
    var years := cf.value.years;
    KeptAllPresent(years, FilledSum(cf.value.rows[OperatingCashFlowRow], cf.value.rows[CapitalExpenditureRow]));
  }

  // ---------------------------------------------------------------------------
  // Share count: first key found, income statement before balance sheet

  const SharesKeys: seq<string> := ["Basic Average Shares", "Share Issued", "Ordinary Shares Number"]

  datatype Source = IncomeStatement | BalanceSheet

  /** Where the share count comes from: a statement and an index into the key list. */
  datatype Hit = Hit(source: Source, index: nat)

  /** Key `i` is in one of the statements, and no earlier key is in either. */
  predicate FirstSharesKey(income: Option<Frame>, balance: Option<Frame>, i: nat)
    requires i < |SharesKeys|
  {
    (HasRow(income, SharesKeys[i]) || HasRow(balance, SharesKeys[i])) &&
    forall j :: 0 <= j < i ==> !HasRow(income, SharesKeys[j]) && !HasRow(balance, SharesKeys[j])
  }

  /**
   * The first key, from position `from` on, found in the income statement or
   * else in the balance sheet.
   */
  function SharesHit(income: Option<Frame>, balance: Option<Frame>, keys: seq<string>, from: nat): (r: Option<Hit>)
    requires from <= |keys|
    ensures r.None? <==> forall j :: from <= j < |keys| ==> !HasRow(income, keys[j]) && !HasRow(balance, keys[j])
    ensures r.Some? ==>
      && from <= r.value.index < |keys|
      && (forall j :: from <= j < r.value.index ==> !HasRow(income, keys[j]) && !HasRow(balance, keys[j]))
      && (r.value.source == IncomeStatement <==> HasRow(income, keys[r.value.index]))
      && (r.value.source == BalanceSheet ==> HasRow(balance, keys[r.value.index]))
    decreases |keys| - from
  {
    if from == |keys| then None
    else if HasRow(income, keys[from]) then Some(Hit(IncomeStatement, from))
    else if HasRow(balance, keys[from]) then Some(Hit(BalanceSheet, from))
    else SharesHit(income, balance, keys, from + 1)
  }

  /**
   * The share-count series: the whole row of the first key found, taken from
   * the income statement when it has that key and from the balance sheet
   * otherwise, even when the row holds no value; empty when no key is found.
   */
  function SharesSpec(income: Option<Frame>, balance: Option<Frame>): (r: seq<Point>)
    requires WellFormedIfPresent(income) && WellFormedIfPresent(balance)
    ensures (forall j :: 0 <= j < |SharesKeys| ==> !HasRow(income, SharesKeys[j]) && !HasRow(balance, SharesKeys[j])) ==>
      r == []
    ensures forall i :: 0 <= i < |SharesKeys| && FirstSharesKey(income, balance, i) ==>
      r == if HasRow(income, SharesKeys[i]) then Extracted(income, SharesKeys[i]) else Extracted(balance, SharesKeys[i])
  {
    match SharesHit(income, balance, SharesKeys, 0)
    case None => []
    case Some(Hit(IncomeStatement, i)) => Extracted(income, SharesKeys[i])
    case Some(Hit(BalanceSheet, i)) => Extracted(balance, SharesKeys[i])
  }

  /** Tries the share keys in order and stops at the first row found. */
  method SharesSeries(income: Option<Frame>, balance: Option<Frame>) returns (shares: seq<Point>)
    requires WellFormedIfPresent(income) && WellFormedIfPresent(balance)
    ensures shares == SharesSpec(income, balance)
  {
    shares := [];
    var i := 0;
    while i < |SharesKeys|
      invariant 0 <= i <= |SharesKeys|
      invariant SharesHit(income, balance, SharesKeys, 0) == SharesHit(income, balance, SharesKeys, i)
      invariant shares == []
    {
      var key := SharesKeys[i];
      if income.Some? && key in income.value.rows {
        shares := ExtractData(income, key);
        break;
      }
      if balance.Some? && key in balance.value.rows {
        shares := ExtractData(balance, key);
        break;
      }
      i := i + 1;
    }
  }

  // ---------------------------------------------------------------------------
  // get_financials

  /** The three statements fetched for a symbol, each possibly absent. */
  datatype FetchedStatements = FetchedStatements(cashflow: Option<Frame>, income: Option<Frame>, balance: Option<Frame>)

  predicate WellFormedStatements(s: FetchedStatements) {
    WellFormedIfPresent(s.cashflow) && WellFormedIfPresent(s.income) && WellFormedIfPresent(s.balance)
  }

  /** The body of the `/financials` response. */
  datatype Financials = Financials(fcf: seq<Point>, revenue: seq<Point>, eps: seq<Point>, shares: seq<Point>)

  const RevenueRow := "Total Revenue"
  const EpsRow := "Diluted EPS"

  /**
   * `fetched` is None when reading the statements raised; then every series is
   * empty.
   */
  method GetFinancials(fetched: Option<FetchedStatements>) returns (r: Financials)
    requires fetched.Some? ==> WellFormedStatements(fetched.value)
    ensures fetched.None? ==> r == Financials([], [], [], [])
    ensures fetched.Some? ==>
      var s := fetched.value;
      r == Financials(FreeCashFlowSpec(s.cashflow), Extracted(s.income, RevenueRow),
                      Extracted(s.income, EpsRow), SharesSpec(s.income, s.balance))
  {
    if fetched.None? {
      return Financials([], [], [], []);
    }
    var s := fetched.value;
    var fcf := FreeCashFlow(s.cashflow);
    var shares := SharesSeries(s.income, s.balance);
    var revenue := ExtractData(s.income, RevenueRow);
    var eps := ExtractData(s.income, EpsRow);
    r := Financials(fcf, revenue, eps, shares);
  }
}
