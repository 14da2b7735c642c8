/**
 * The records of lib/types.ts. Amounts and fractions are exact reals:
 * IEEE-754 representation is not modelled.
 */
module BudgetTypes {

  /** One row of the static percentage table (`category` plays no part in any computation). */
  datatype BudgetLine = BudgetLine(category: string, lineItem: string, percentOfIncome: real)

  /** The static table: three ordered sections. */
  datatype BudgetData = BudgetData(
    income: seq<BudgetLine>,
    directExpenses: seq<BudgetLine>,
    indirectExpenses: seq<BudgetLine>)

  /** The caller's weekly amounts in income mode. */
  datatype IncomeInputs = IncomeInputs(services: real, tips: real, retail: real)

  /** One computed line; there is no base label in the source's record type. */
  datatype CalculatedLine = CalculatedLine(name: string, amount: real, percent: real)

  datatype Totals = Totals(
    directExpenses: real,
    indirectExpenses: real,
    totalExpenses: real,
    netIncome: real)

  datatype CalculatedBudget = CalculatedBudget(
    totalIncome: real,
    incomeLines: seq<CalculatedLine>,
    directExpenses: seq<CalculatedLine>,
    indirectExpenses: seq<CalculatedLine>,
    totals: Totals)
}
