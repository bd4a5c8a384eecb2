/**
 * A bar chart of one financial series: nothing without data; axis and
 * tooltip values either as currency or scaled to billions or millions.
 * Only which branch is taken and the scaled number are modelled, not the
 * digits printed.
 */
module FinancialChart {
  import opened Wrappers
  import Statements

  datatype Unit = Billions | Millions

  /** A formatted value: currency, a number with a unit suffix, or the value itself. */
  datatype ValueLabel = Currency(amount: real) | Scaled(amount: real, unit: Unit) | Plain(amount: real)

  const Billion: real := 1000000000.0
  const Million: real := 1000000.0

  function Abs(v: real): real { if v < 0.0 then -v else v }

  function Factor(u: Unit): real {
    match u
    case Billions => Billion
    case Millions => Million
  }

  /** The chart is drawn only for a present, non-empty series. */
  function Shown(data: Option<seq<Statements.Point>>): (b: bool)
    ensures b <==> data.Some? && |data.value| > 0
  {
    !(data.None? || |data.value| == 0)
  }

  /** `formatValue`: the label it builds loses no magnitude, it denotes the value it was made from. */
  function FormatValue(v: real, formatCurrency: bool): (l: ValueLabel)
    ensures Denoted(l) == v
  {
    if formatCurrency then Currency(v)
    else if Abs(v) >= Billion then Scaled(v / Billion, Billions)
    else if Abs(v) >= Million then Scaled(v / Million, Millions)
    else Plain(v)
  }

  /** The number a label stands for. */
  function Denoted(l: ValueLabel): real {
    match l
    case Currency(a) => a
    case Scaled(a, u) => a * Factor(u)
    case Plain(a) => a
  }

  /**
   * Which form a value takes: currency whenever asked for, whatever the
   * magnitude; otherwise billions from 1e9 on, millions from 1e6 below 1e9,
   * and the bare value below 1e6.
   */
  lemma UnitSelection(v: real, formatCurrency: bool)
    ensures var l := FormatValue(v, formatCurrency);
      && (l.Currency? <==> formatCurrency)
      && (l.Scaled? && l.unit == Billions <==> !formatCurrency && Abs(v) >= Billion)
      && (l.Scaled? && l.unit == Millions <==> !formatCurrency && Million <= Abs(v) < Billion)
      && (l.Plain? <==> !formatCurrency && Abs(v) < Million)
  {
  }

  /** The unit depends only on |v|: v and -v get the same suffix and opposite amounts. */
  lemma FormatValueSymmetric(v: real)
    ensures FormatValue(-v, false).Scaled? <==> FormatValue(v, false).Scaled?
    ensures FormatValue(v, false).Scaled? ==>
      FormatValue(-v, false).unit == FormatValue(v, false).unit &&
      FormatValue(-v, false).amount == -FormatValue(v, false).amount
  {
  }

  /** A scaled amount has at least one unit, and fewer than a thousand millions. */
  lemma ScaledRange(v: real)
    ensures var l := FormatValue(v, false);
      l.Scaled? ==> Abs(l.amount) >= 1.0 && (l.unit == Millions ==> Abs(l.amount) < 1000.0)
  {
  }
}
