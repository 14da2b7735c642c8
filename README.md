# Budget calculation engine, in Dafny

This project models the calculation engine of a small budgeting app for a
self-employed service professional (lib/calc.ts, with the records of
lib/types.ts). The engine takes a static table of line items. Each item
carries a `percent_of_income` and belongs to one of three ordered sections:
income, direct expenses and indirect expenses. It builds an itemised weekly
budget in one of two modes:

- **Income mode** (`buildFromIncomeInputs`) starts from the weekly Services,
  Tips and Retail amounts.
- **Rent mode** (`buildFromRent`) starts from a rent amount. It divides the
  rent by the "Rent Expense" fraction to get total income, then splits that
  total by the income table.

Both modes round every line to cents (`roundCurrency`). The section totals
are sums of the rounded lines (`sum`), and total expenses and net income are
derived from them. `getPeriodFactor` and `scaleBudget` turn the weekly result
into monthly and annual views.

Files:

- `wrappers.dfy`: Option and Result types.
- `types.dfy`: the records of lib/types.ts.
- `money.dfy`: `roundCurrency` and `sum`, with their arithmetic lemmas.
- `calc.dfy`: the two builders.
- `calc_properties.dfy`: what the builders guarantee.
- `periods.dfy`: `Period`, `getPeriodFactor`, `scaleBudget` and their lemmas.

All amounts are exact `real`s. `RoundCurrency(x)` is `floor(100 x + 1/2) / 100`,
so halves round upward, as JavaScript's `Math.round` does. The `throw` of
rent mode becomes a `Failure` result.

Some of what the code computes differs from what a reader of its names or of
the page would expect. The model follows the code:

- Non-override direct lines and all indirect lines are a fraction of **total
  income**. No line is measured against Services + Tips alone.
- Every expense `percent` is the rounded amount divided by total income, even
  for the Backbar and Retail Cost of Goods Sold overrides. For example,
  Backbar at Services 1000, Tips 200, Retail 300 is 150.00, reported as 10%
  of the total rather than 15% of Services
  (`CalcProperties.IncomeModeBackbarExample`).
- Computed lines have no `baseLabel` field, although app/page.tsx:162 reads
  one to show what a percent is based on. That text is therefore never shown.
- A missing "Rent Expense" line is not an error: rent mode then uses the
  fraction 0.09. It fails only when the first "Rent Expense" line has a
  fraction ≤ 0.
- The rent parameter is called `monthlyRentAmount`, but app/page.tsx:88
  labels the field "Rent (weekly)". The code never converts between the two.
  The rent enters the formula at the table's own cadence.

## Model

| member | source | states |
|---|---|---|
| Money.RoundCurrency | lib/calc.ts:3-5 | the result is a whole number of cents within half a cent of the input (ties upward) |
| Money.RoundCurrencyUnique | lib/calc.ts:3-5 | the rounded value is the only whole-cent value in the half-open half-cent window around the input |
| Money.RoundCurrencyIdempotent | lib/calc.ts:3-5 | rounding an already rounded value changes nothing |
| Money.RoundCurrencyOfCents | lib/calc.ts:3-5 | a whole-cent value is its own rounding |
| Money.SumOfCents | lib/calc.ts:7-9 | a sum of whole-cent values is whole cents, so the totals of rounded lines need no further rounding |
| Money.SumConcat | lib/calc.ts:7-9 | the left fold from 0 splits over concatenation, so exact summation does not depend on grouping |
| Money.SumOfZeros | lib/calc.ts:7-9 | a sum of zeros is zero |
| Money.SumScaled | lib/calc.ts:7-9 | multiplying every term by a factor multiplies the sum by it |
| Calc.FindLine | lib/calc.ts:71 | `find` by name: the index of the first line with that name, or none exactly when no line has it |
| Calc.BuildFromIncomeInputs | lib/calc.ts:11-67 | each computed section has its table section's length and names, in order |
| CalcProperties.IncomeModeIncomeLines | lib/calc.ts:12-24 | total income is the rounded sum of the three inputs; each income line is the rounded input of the same name (0 for other names), with percent input / total, or 0 when the total is not positive |
| CalcProperties.IncomeModeDirectLines | lib/calc.ts:27-41 | Backbar is round(services * 0.15), Retail Cost of Goods Sold round(retail * 0.5), every other line round(total * fraction); each percent is the rounded amount / total, or 0 |
| CalcProperties.IncomeModeIndirectLines | lib/calc.ts:43-48 | each indirect line is round(total * fraction), with percent rounded amount / total, or 0 |
| CalcProperties.AssembleTotals | lib/calc.ts:50-65 | given whole-cent lines, every figure is whole cents, the section totals equal the sums of the shown lines, total expenses round their sum, and net income rounds the unrounded total income less total expenses |
| CalcProperties.IncomeModeTotals | lib/calc.ts:50-65 | in income mode every figure is whole cents, the totals add up exactly, and net income rounds the unrounded total less total expenses |
| Money.ThreeRoundingsWithinCent | lib/calc.ts:3-5 | rounding three amounts separately and rounding their sum differ by at most one cent |
| CalcProperties.SumByName | lib/calc.ts:7-24 | over a table with distinct names, the income lines add up to the amounts of whichever of Services, Tips and Retail the table names |
| CalcProperties.IncomeModeIncomeSum | lib/calc.ts:12-24 | when the income table names Services, Tips and Retail once each, the shown income lines add up to within one cent of the rounded total income |
| CalcProperties.IncomeModeMissingRetail | lib/calc.ts:12-24 | without a Retail line the Retail input still enters the total: 1000/200/300 gives total 1500 but income lines adding up to 1200 |
| CalcProperties.IncomeModeAllZero | lib/calc.ts:12-53 | with all three inputs 0, every amount, every percent and every total, net income included, is 0 |
| CalcProperties.IncomeModeBackbarExample | lib/calc.ts:30-40 | Services 1000, Tips 200, Retail 300 give total 1500 and a Backbar line of 150 at 10% |
| Calc.BuildFromRent | lib/calc.ts:69-130 | fails, with the source's message, exactly when the Rent Expense fraction is not positive; on success each section has its table section's length and names |
| CalcProperties.RentModeFails | lib/calc.ts:71-74 | failure happens exactly when the first Rent Expense line has a fraction ≤ 0; without a Rent Expense line the fraction is 0.09 and the call succeeds |
| CalcProperties.RentModeIncomeLines | lib/calc.ts:76-82 | total income is rent / fraction, which times the fraction gives back the rent; each income line is round(total * fraction) and keeps the table's fraction as its percent |
| CalcProperties.RentModeDirectLines | lib/calc.ts:85-104 | the income-mode direct rules apply, with Services and Retail the income table's Services and Retail fractions (0 when absent) of the derived total |
| CalcProperties.RentModeIndirectLines | lib/calc.ts:106-111 | each indirect line is round(total * fraction), with percent rounded amount / total |
| CalcProperties.RentModeTotals | lib/calc.ts:113-128 | in rent mode every figure is whole cents, the totals add up exactly, and net income rounds the unrounded total less total expenses |
| CalcProperties.RentModeRoundTrip | lib/calc.ts:71-108 | with a positive first Rent Expense line, the call succeeds and that line's amount is the rent itself, rounded to cents |
| CalcProperties.RentModeExample | lib/calc.ts:69-111 | rent 900 at 9% gives total 10000, income lines 8000, 1000 and 1000 at their table fractions, and a Rent Expense line of 900 at 9% |
| Periods.PeriodFactor | lib/calc.ts:134-146 | every factor is at least 1, and it is 1 exactly for the weekly view |
| Periods.PeriodFactorsAgree | lib/calc.ts:134-146 | the annual factor is 52 weekly factors and 12 monthly ones, and the factors grow weekly < monthly < annual |
| Periods.ScaleBudget | lib/calc.ts:148-162 | lengths, names and percents are kept, every figure is whole cents, and total and net income are within half a cent of the scaled originals |
| Periods.ScaleBudgetScalesEveryFigure | lib/calc.ts:148-162 | every money field, line amounts and the four totals included, becomes round(field * factor), and nothing else changes |
| Periods.WeeklyIsIdentity | lib/calc.ts:136-137 | scaling a whole-cent budget by the weekly factor gives back the same budget |
| Periods.IncomeModeWeekly | lib/calc.ts:148-162 | the weekly view of any income-mode budget is that budget |
| Periods.RentModeWeekly | lib/calc.ts:148-162 | the weekly view of any successful rent-mode budget is that budget |
| Periods.AnnualKeepsTotals | lib/calc.ts:141-162 | the annual view of a whole-cent budget whose totals add up is exactly 52 times it: every line amount of the three sections, total income and the four totals, with no rounding; and its totals still add up |
| Periods.MonthlyTotalsMayNotAddUp | lib/calc.ts:139-162 | the monthly view rounds each figure on its own, so its totals need not add up: one cent each of direct and indirect expense scale to 4 cents each, and their 2-cent total to 9 |

## Left out

- Presentation: React state, the form widgets, and currency and percent
  formatting. They only call the engine and show its results.
- The contents of the static table (app/data.json is not part of this model).
  `BudgetData` is an arbitrary input.
- IEEE-754 doubles: the `Number.EPSILON` nudge in `roundCurrency`, binary
  representation error at half-cent boundaries, the non-associativity of
  floating-point `sum`, and NaN or infinite inputs. Arithmetic is exact.
- The `default: return 1` branch of `getPeriodFactor`. `Period` is a closed
  datatype, so it cannot be reached.
- A `percent_of_income` that is null or missing, which `?? 0.09` and `?? 0`
  replace by the default. Also a non-numeric one, which `??` does not catch:
  it passes the `rentPercent <= 0` test (lib/calc.ts:72) and gives NaN or a
  coerced number at lib/calc.ts:76. The record type makes every fraction a
  number.
- Calc.InputByName: covers only the three input names. A JavaScript object
  lookup also finds inherited keys such as `constructor`, and that is not
  reproduced.
- The `category` field is carried but never read, as in the source.
- Periods.AnnualKeepsTotals: stated for the annual factor only. The monthly
  factor 52/12 breaks the property, as Periods.MonthlyTotalsMayNotAddUp shows.
