/**
 * Period conversion (lib/calc.ts, `Period`, `getPeriodFactor` and `scaleBudget`).
 * The budget is built for one week; the monthly and annual views multiply every
 * money figure by the number of weeks and round each one to cents on its own,
 * leaving names and percents as they are.
 */
module Periods {
  import opened BudgetTypes
  import opened Money
  import opened Calc
  import opened CalcProperties

  datatype Period = Weekly | Monthly | Annual

  /** Weeks per period: 1, 52 / 12 (average weeks per month) and 52. */
  function PeriodFactor(period: Period): (r: real)
    ensures r >= 1.0
    ensures r == 1.0 <==> period == Weekly
  {
    match period
    case Weekly => 1.0
    case Monthly => 52.0 / 12.0
    case Annual => 52.0
  }

  /** A year is 52 weeks and 12 months. */
  lemma PeriodFactorsAgree()
    ensures PeriodFactor(Annual) == 52.0 * PeriodFactor(Weekly) == 12.0 * PeriodFactor(Monthly)
    ensures PeriodFactor(Weekly) < PeriodFactor(Monthly) < PeriodFactor(Annual)
  {
  }

  /** `out` is `line` with its amount scaled by `factor` and rounded to cents. */
  predicate LineScaled(line: CalculatedLine, out: CalculatedLine, factor: real) {
    out.name == line.name && out.percent == line.percent && out.amount == RoundCurrency(line.amount * factor)
  }

  function ScaleLine(line: CalculatedLine, factor: real): CalculatedLine {
    var rounded := RoundCurrency(line.amount * factor);
    CalculatedLine(line.name, rounded, line.percent)
  }

  function ScaleLines(lines: seq<CalculatedLine>, factor: real): (r: seq<CalculatedLine>)
    ensures |r| == |lines| && forall i :: 0 <= i < |lines| ==> r[i] == ScaleLine(lines[i], factor)
    ensures InCents(r)
  {
    seq(|lines|, i requires 0 <= i < |lines| => ScaleLine(lines[i], factor))
  }

  lemma ScaleLinesMeetRule(lines: seq<CalculatedLine>, factor: real)
    ensures forall i :: 0 <= i < |lines| ==> LineScaled(lines[i], ScaleLines(lines, factor)[i], factor)
  {
    forall i | 0 <= i < |lines| ensures LineScaled(lines[i], ScaleLines(lines, factor)[i], factor) {
      assert ScaleLines(lines, factor)[i] == ScaleLine(lines[i], factor);
    }
  }

  /** Same lines in the same order, same names and percents; every money figure is its scaled value rounded to cents. */
  function ScaleBudget(budget: CalculatedBudget, factor: real): (r: CalculatedBudget)
    ensures |r.incomeLines| == |budget.incomeLines|
    ensures |r.directExpenses| == |budget.directExpenses|
    ensures |r.indirectExpenses| == |budget.indirectExpenses|
    ensures forall i :: 0 <= i < |budget.incomeLines| ==>
      r.incomeLines[i].name == budget.incomeLines[i].name && r.incomeLines[i].percent == budget.incomeLines[i].percent
    ensures forall i :: 0 <= i < |budget.directExpenses| ==>
      r.directExpenses[i].name == budget.directExpenses[i].name && r.directExpenses[i].percent == budget.directExpenses[i].percent
    ensures forall i :: 0 <= i < |budget.indirectExpenses| ==>
      r.indirectExpenses[i].name == budget.indirectExpenses[i].name && r.indirectExpenses[i].percent == budget.indirectExpenses[i].percent
    ensures WholeCents(r)
    ensures budget.totalIncome * factor - 0.005 < r.totalIncome <= budget.totalIncome * factor + 0.005
    ensures budget.totals.netIncome * factor - 0.005 < r.totals.netIncome <= budget.totals.netIncome * factor + 0.005
  {
    CalculatedBudget(
      RoundCurrency(budget.totalIncome * factor),
      ScaleLines(budget.incomeLines, factor),
      ScaleLines(budget.directExpenses, factor),
      ScaleLines(budget.indirectExpenses, factor),
      Totals(
        RoundCurrency(budget.totals.directExpenses * factor),
        RoundCurrency(budget.totals.indirectExpenses * factor),
        RoundCurrency(budget.totals.totalExpenses * factor),
        RoundCurrency(budget.totals.netIncome * factor)))
  }

  /** The weekly view of a whole-cent budget is the budget itself. */
  lemma WeeklyIsIdentity(budget: CalculatedBudget)
    requires WholeCents(budget)
    ensures ScaleBudget(budget, PeriodFactor(Weekly)) == budget
  {
    var r := ScaleBudget(budget, 1.0);
    forall i | 0 <= i < |budget.incomeLines| ensures r.incomeLines[i] == budget.incomeLines[i] {
      RoundCurrencyOfCents(budget.incomeLines[i].amount);
    }
    forall i | 0 <= i < |budget.directExpenses| ensures r.directExpenses[i] == budget.directExpenses[i] {
      RoundCurrencyOfCents(budget.directExpenses[i].amount);
    }
    forall i | 0 <= i < |budget.indirectExpenses| ensures r.indirectExpenses[i] == budget.indirectExpenses[i] {
      RoundCurrencyOfCents(budget.indirectExpenses[i].amount);
    }
    RoundCurrencyOfCents(budget.totalIncome);
    RoundCurrencyOfCents(budget.totals.directExpenses);
    RoundCurrencyOfCents(budget.totals.indirectExpenses);
    RoundCurrencyOfCents(budget.totals.totalExpenses);
    RoundCurrencyOfCents(budget.totals.netIncome);
  }

  /** The top-line figures of `r` are those of `budget` scaled by `factor` and rounded to cents. */
  predicate FiguresScaled(budget: CalculatedBudget, r: CalculatedBudget, factor: real) {
    && r.totalIncome == RoundCurrency(budget.totalIncome * factor)
    && r.totals.directExpenses == RoundCurrency(budget.totals.directExpenses * factor)
    && r.totals.indirectExpenses == RoundCurrency(budget.totals.indirectExpenses * factor)
    && r.totals.totalExpenses == RoundCurrency(budget.totals.totalExpenses * factor)
    && r.totals.netIncome == RoundCurrency(budget.totals.netIncome * factor)
  }

  /** Every money figure, line amounts included, is scaled by the factor and rounded to cents. */
  lemma ScaleBudgetScalesEveryFigure(budget: CalculatedBudget, factor: real)
    ensures var r := ScaleBudget(budget, factor);
      && FiguresScaled(budget, r, factor)
      && (forall i :: 0 <= i < |budget.incomeLines| ==> LineScaled(budget.incomeLines[i], r.incomeLines[i], factor))
      && (forall i :: 0 <= i < |budget.directExpenses| ==> LineScaled(budget.directExpenses[i], r.directExpenses[i], factor))
      && (forall i :: 0 <= i < |budget.indirectExpenses| ==> LineScaled(budget.indirectExpenses[i], r.indirectExpenses[i], factor))
  {
    ScaleLinesMeetRule(budget.incomeLines, factor);
    ScaleLinesMeetRule(budget.directExpenses, factor);
    ScaleLinesMeetRule(budget.indirectExpenses, factor);
  }

  /** Whole cents times 52 needs no rounding. */
  lemma AnnualCentsExact(c: real)
    requires IsCents(c)
    ensures RoundCurrency(c * 52.0) == c * 52.0
  {
    CentsTimesWhole(c, 52);
    RoundCurrencyOfCents(c * 52.0);
  }

  /** Every amount of `scaled` is the matching amount of `lines` times `factor`, with no rounding. */
  predicate AmountsScaledExactly(lines: seq<CalculatedLine>, scaled: seq<CalculatedLine>, factor: real) {
    |scaled| == |lines| && forall i :: 0 <= i < |lines| ==> scaled[i].amount == lines[i].amount * factor
  }

  /** Scaling whole-cent lines to a year needs no rounding. */
  lemma AnnualLinesExact(lines: seq<CalculatedLine>)
    requires InCents(lines)
    ensures AmountsScaledExactly(lines, ScaleLines(lines, 52.0), 52.0)
  {
    var scaled := ScaleLines(lines, 52.0);
    ScaleLinesMeetRule(lines, 52.0);
    forall i | 0 <= i < |lines| ensures scaled[i].amount == lines[i].amount * 52.0 {
      assert LineScaled(lines[i], scaled[i], 52.0);
      AnnualCentsExact(lines[i].amount);
    }
  }

  /** Scaling whole-cent lines to a year scales their sum by 52 exactly. */
  lemma AnnualLinesSum(lines: seq<CalculatedLine>)
    requires InCents(lines)
    ensures Sum(Amounts(ScaleLines(lines, 52.0))) == Sum(Amounts(lines)) * 52.0
  {
    AnnualLinesExact(lines);
    SumScaled(Amounts(lines), Amounts(ScaleLines(lines, 52.0)), 52.0);
  }

  /** Whole-cent top-line figures scaled to a year need no rounding. */
  lemma AnnualFiguresExact(budget: CalculatedBudget, r: CalculatedBudget)
    requires IsCents(budget.totalIncome) && IsCents(budget.totals.directExpenses) && IsCents(budget.totals.indirectExpenses)
    requires IsCents(budget.totals.totalExpenses) && IsCents(budget.totals.netIncome)
    requires FiguresScaled(budget, r, 52.0)
    ensures r.totalIncome == budget.totalIncome * 52.0
    ensures r.totals.directExpenses == budget.totals.directExpenses * 52.0
    ensures r.totals.indirectExpenses == budget.totals.indirectExpenses * 52.0
    ensures r.totals.totalExpenses == budget.totals.totalExpenses * 52.0
    ensures r.totals.netIncome == budget.totals.netIncome * 52.0
  {
    AnnualCentsExact(budget.totalIncome);
    AnnualCentsExact(budget.totals.directExpenses);
    AnnualCentsExact(budget.totals.indirectExpenses);
    AnnualCentsExact(budget.totals.totalExpenses);
    AnnualCentsExact(budget.totals.netIncome);
  }

  /** Multiplying every figure of a budget whose totals add up by 52, exactly, keeps them adding up. */
  lemma ExactAnnualTotals(budget: CalculatedBudget, r: CalculatedBudget)
    requires TotalsAddUp(budget)
    requires Sum(Amounts(r.directExpenses)) == Sum(Amounts(budget.directExpenses)) * 52.0
    requires Sum(Amounts(r.indirectExpenses)) == Sum(Amounts(budget.indirectExpenses)) * 52.0
    requires r.totalIncome == budget.totalIncome * 52.0
    requires r.totals.directExpenses == budget.totals.directExpenses * 52.0
    requires r.totals.indirectExpenses == budget.totals.indirectExpenses * 52.0
    requires r.totals.totalExpenses == budget.totals.totalExpenses * 52.0
    requires r.totals.netIncome == budget.totals.netIncome * 52.0
    ensures TotalsAddUp(r)
  {
  }

  /** The annual view of a whole-cent budget whose totals add up is exactly 52 times it, and its totals still add up. */
  lemma AnnualKeepsTotals(budget: CalculatedBudget)
    requires WholeCents(budget) && TotalsAddUp(budget)
    ensures var r := ScaleBudget(budget, PeriodFactor(Annual));
      && AmountsScaledExactly(budget.incomeLines, r.incomeLines, 52.0)
      && AmountsScaledExactly(budget.directExpenses, r.directExpenses, 52.0)
      && AmountsScaledExactly(budget.indirectExpenses, r.indirectExpenses, 52.0)
      && r.totalIncome == 52.0 * budget.totalIncome
      && r.totals.directExpenses == 52.0 * budget.totals.directExpenses
      && r.totals.indirectExpenses == 52.0 * budget.totals.indirectExpenses
      && r.totals.totalExpenses == 52.0 * budget.totals.totalExpenses
      && r.totals.netIncome == 52.0 * budget.totals.netIncome
      && TotalsAddUp(r)
  {
    var r := ScaleBudget(budget, 52.0);
    AnnualLinesExact(budget.incomeLines);
    AnnualLinesExact(budget.directExpenses);
    AnnualLinesExact(budget.indirectExpenses);
    AnnualFiguresExact(budget, r);
    AnnualLinesSum(budget.directExpenses);
    AnnualLinesSum(budget.indirectExpenses);
    ExactAnnualTotals(budget, r);
  }

  /** The weekly view of an income-mode budget is that budget. */
  lemma IncomeModeWeekly(data: BudgetData, inputs: IncomeInputs)
    ensures ScaleBudget(BuildFromIncomeInputs(data, inputs), PeriodFactor(Weekly)) == BuildFromIncomeInputs(data, inputs)
  {
    IncomeModeTotals(data, inputs);
    WeeklyIsIdentity(BuildFromIncomeInputs(data, inputs));
  }

  /** The weekly view of a successful rent-mode budget is that budget. */
  lemma RentModeWeekly(data: BudgetData, monthlyRentAmount: real)
    requires RentPercent(data) > 0.0
    ensures var b := BuildFromRent(data, monthlyRentAmount).value;
      ScaleBudget(b, PeriodFactor(Weekly)) == b
  {
    RentModeTotals(data, monthlyRentAmount);
    WeeklyIsIdentity(BuildFromRent(data, monthlyRentAmount).value);
  }

  /**
   * The monthly view rounds each figure separately, so its totals need not add up:
   * one cent of direct and one of indirect expense scale to 4 cents each, while the
   * two-cent total scales to 9.
   */
  lemma MonthlyTotalsMayNotAddUp()
    ensures var b := CalculatedBudget(0.02, [CalculatedLine(ServicesItem, 0.02, 1.0)],
        [CalculatedLine(BackbarItem, 0.01, 0.5)], [CalculatedLine(RentItem, 0.01, 0.5)],
        Totals(0.01, 0.01, 0.02, 0.0));
      && WholeCents(b) && TotalsAddUp(b)
      && var m := ScaleBudget(b, PeriodFactor(Monthly));
      && m.totals.directExpenses == 0.04
      && m.totals.indirectExpenses == 0.04
      && m.totals.totalExpenses == 0.09
      && !TotalsAddUp(m)
  {
    var b := CalculatedBudget(0.02, [CalculatedLine(ServicesItem, 0.02, 1.0)],
        [CalculatedLine(BackbarItem, 0.01, 0.5)], [CalculatedLine(RentItem, 0.01, 0.5)],
        Totals(0.01, 0.01, 0.02, 0.0));
    assert Amounts(b.directExpenses) == [0.01];
    assert Amounts(b.indirectExpenses) == [0.01];
    assert IsCents(0.01) && IsCents(0.02) && IsCents(0.0) by {
      assert (0.01 * 100.0).Floor == 1;
      assert (0.02 * 100.0).Floor == 2;
    }
    RoundCurrencyUnique(0.01 * (52.0 / 12.0), 0.04);
    RoundCurrencyUnique(0.02 * (52.0 / 12.0), 0.09);
  }
}
