/**
 * The two budget builders of lib/calc.ts. Both are maps over the three table
 * sections with a few overrides keyed on `line_item`, followed by totals.
 * The per-line expense rules are written out twice in the source with the same
 * inputs (total income, services amount, retail amount); here they are one
 * function used by both builders.
 */
module Calc {
  import opened Wrappers
  import opened BudgetTypes
  import opened Money

  const ServicesItem: string := "Services"
  const TipsItem: string := "Tips"
  const RetailItem: string := "Retail"
  const BackbarItem: string := "Professional Supplies - Backbar"
  const RetailCogsItem: string := "Retail Cost of Goods Sold"
  const RentItem: string := "Rent Expense"

  /** Fraction of the Rent Expense line used when the table has none. */
  const DefaultRentPercent: real := 0.09

  const RentPercentError: string := "Rent percent not found or invalid"

  /** `k` is the index of the first line of `lines` named `name`. */
  predicate IsFirstNamed(lines: seq<BudgetLine>, name: string, k: int) {
    && 0 <= k < |lines|
    && lines[k].lineItem == name
    && forall j :: 0 <= j < k ==> lines[j].lineItem != name
  }

  /** `lines.find((l) => l.line_item === name)`, as an index. */
  function FindLine(lines: seq<BudgetLine>, name: string): (r: Option<nat>)
    ensures r.Some? ==> IsFirstNamed(lines, name, r.value)
    ensures r.None? <==> forall j :: 0 <= j < |lines| ==> lines[j].lineItem != name
  {
    if |lines| == 0 then None
    else if lines[0].lineItem == name then Some(0)
    else match FindLine(lines[1..], name)
      case None => None
      case Some(k) => Some(k + 1)
  }

  /** `find(...)?.percent_of_income ?? default`. */
  function PercentOf(lines: seq<BudgetLine>, name: string, default: real): real {
    match FindLine(lines, name)
    case Some(k) => lines[k].percentOfIncome
    case None => default
  }

  /** `incomeByName[name] ?? 0`. */
  function InputByName(inputs: IncomeInputs, name: string): real {
    if name == ServicesItem then inputs.services
    else if name == TipsItem then inputs.tips
    else if name == RetailItem then inputs.retail
    else 0.0
  }

  /** A fraction of the total income, 0 unless the total is positive. */
  function ShareOf(amount: real, totalIncome: real): real {
    if totalIncome > 0.0 then amount / totalIncome else 0.0
  }

  /** The unrounded amount of one direct-expense line. */
  function DirectAmount(line: BudgetLine, totalIncome: real, services: real, retail: real): real {
    if line.lineItem == BackbarItem then services * 0.15
    else if line.lineItem == RetailCogsItem then retail * 0.5
    else totalIncome * line.percentOfIncome
  }

  function DirectLine(line: BudgetLine, totalIncome: real, services: real, retail: real): CalculatedLine {
    var rounded := RoundCurrency(DirectAmount(line, totalIncome, services, retail));
    CalculatedLine(line.lineItem, rounded, ShareOf(rounded, totalIncome))
  }

  function IndirectLine(line: BudgetLine, totalIncome: real): CalculatedLine {
    var rounded := RoundCurrency(totalIncome * line.percentOfIncome);
    CalculatedLine(line.lineItem, rounded, ShareOf(rounded, totalIncome))
  }

  /** Every amount is a whole number of cents. */
  predicate InCents(lines: seq<CalculatedLine>) {
    forall i :: 0 <= i < |lines| ==> IsCents(lines[i].amount)
  }

  function DirectLines(lines: seq<BudgetLine>, totalIncome: real, services: real, retail: real): (r: seq<CalculatedLine>)
    ensures |r| == |lines| && forall i :: 0 <= i < |lines| ==> r[i] == DirectLine(lines[i], totalIncome, services, retail)
    ensures InCents(r)
  {
    seq(|lines|, i requires 0 <= i < |lines| => DirectLine(lines[i], totalIncome, services, retail))
  }

  function IndirectLines(lines: seq<BudgetLine>, totalIncome: real): (r: seq<CalculatedLine>)
    ensures |r| == |lines| && forall i :: 0 <= i < |lines| ==> r[i] == IndirectLine(lines[i], totalIncome)
    ensures InCents(r)
  {
    seq(|lines|, i requires 0 <= i < |lines| => IndirectLine(lines[i], totalIncome))
  }

  /** `lines.map((x) => x.amount)`. */
  function Amounts(lines: seq<CalculatedLine>): (r: seq<real>)
    ensures |r| == |lines| && forall i :: 0 <= i < |lines| ==> r[i] == lines[i].amount
  {
    seq(|lines|, i requires 0 <= i < |lines| => lines[i].amount)
  }

  /** The totals and the returned record, shared by both builders. */
  function Assemble(
    totalIncome: real,
    incomeLines: seq<CalculatedLine>,
    directExpenses: seq<CalculatedLine>,
    indirectExpenses: seq<CalculatedLine>): CalculatedBudget
  {
    var totalsDirect := Sum(Amounts(directExpenses));
    var totalsIndirect := Sum(Amounts(indirectExpenses));
    var totalExpenses := RoundCurrency(totalsDirect + totalsIndirect);
    var netIncome := RoundCurrency(totalIncome - totalExpenses);
    CalculatedBudget(
      RoundCurrency(totalIncome),
      incomeLines,
      directExpenses,
      indirectExpenses,
      Totals(RoundCurrency(totalsDirect), RoundCurrency(totalsIndirect), totalExpenses, netIncome))
  }

  /** The names of a computed section, in order, are those of its table section. */
  predicate SameNames(table: seq<BudgetLine>, lines: seq<CalculatedLine>) {
    && |lines| == |table|
    && forall i :: 0 <= i < |table| ==> lines[i].name == table[i].lineItem
  }

  /** An income line of income mode: the rounded input of the same name, and the raw input's share of the total. */
  function IncomeLine(line: BudgetLine, inputs: IncomeInputs, totalIncome: real): CalculatedLine {
    var amount := InputByName(inputs, line.lineItem);
    CalculatedLine(line.lineItem, RoundCurrency(amount), ShareOf(amount, totalIncome))
  }

  /** An income line of rent mode: the table's fraction of the total, reported as that fraction. */
  function ShareLine(line: BudgetLine, totalIncome: real): CalculatedLine {
    CalculatedLine(line.lineItem, RoundCurrency(totalIncome * line.percentOfIncome), line.percentOfIncome)
  }

  function IncomeLines(lines: seq<BudgetLine>, inputs: IncomeInputs, totalIncome: real): (r: seq<CalculatedLine>)
    ensures |r| == |lines| && forall i :: 0 <= i < |lines| ==> r[i] == IncomeLine(lines[i], inputs, totalIncome)
    ensures InCents(r)
  {
    seq(|lines|, i requires 0 <= i < |lines| => IncomeLine(lines[i], inputs, totalIncome))
  }

  function ShareLines(lines: seq<BudgetLine>, totalIncome: real): (r: seq<CalculatedLine>)
    ensures |r| == |lines| && forall i :: 0 <= i < |lines| ==> r[i] == ShareLine(lines[i], totalIncome)
    ensures InCents(r)
  {
    seq(|lines|, i requires 0 <= i < |lines| => ShareLine(lines[i], totalIncome))
  }

  /** Income mode: starts from the weekly Services, Tips and Retail amounts. */
  function BuildFromIncomeInputs(data: BudgetData, inputs: IncomeInputs): (r: CalculatedBudget)
    ensures SameNames(data.income, r.incomeLines)
    ensures SameNames(data.directExpenses, r.directExpenses)
    ensures SameNames(data.indirectExpenses, r.indirectExpenses)
  {
    var totalIncome := inputs.services + inputs.tips + inputs.retail;
    Assemble(
      totalIncome,
      IncomeLines(data.income, inputs, totalIncome),
      DirectLines(data.directExpenses, totalIncome, inputs.services, inputs.retail),
      IndirectLines(data.indirectExpenses, totalIncome))
  }

  /** The Rent Expense fraction the rent mode divides by. */
  function RentPercent(data: BudgetData): real {
    PercentOf(data.indirectExpenses, RentItem, DefaultRentPercent)
  }

  /** The rent-mode budget once its total income and the Services and Retail fractions are known. */
  function RentBudget(data: BudgetData, totalIncome: real, servicesPercent: real, retailPercent: real): (r: CalculatedBudget)
    ensures SameNames(data.income, r.incomeLines)
    ensures SameNames(data.directExpenses, r.directExpenses)
    ensures SameNames(data.indirectExpenses, r.indirectExpenses)
  {
    Assemble(
      totalIncome,
      ShareLines(data.income, totalIncome),
      DirectLines(data.directExpenses, totalIncome, totalIncome * servicesPercent, totalIncome * retailPercent),
      IndirectLines(data.indirectExpenses, totalIncome))
  }

  /**
   * Rent mode: the total income is the rent divided by the Rent Expense fraction,
   * and the income lines split it by the table's fractions. The source throws
   * when that fraction is not positive; here that is a `Failure`. The rent is used
   * as given, at the same cadence as the table.
   */
  function BuildFromRent(data: BudgetData, monthlyRentAmount: real): (r: Result<CalculatedBudget, string>)
    ensures r.Failure? <==> RentPercent(data) <= 0.0
    ensures r.Failure? ==> r.error == RentPercentError
    ensures r.Success? ==>
      && SameNames(data.income, r.value.incomeLines)
      && SameNames(data.directExpenses, r.value.directExpenses)
      && SameNames(data.indirectExpenses, r.value.indirectExpenses)
  {
    var rentPercent := RentPercent(data);
    if rentPercent <= 0.0 then
      Failure(RentPercentError)
    else
      var servicesPercent := PercentOf(data.income, ServicesItem, 0.0);
      var retailPercent := PercentOf(data.income, RetailItem, 0.0);
      Success(RentBudget(data, monthlyRentAmount / rentPercent, servicesPercent, retailPercent))
  }
}
