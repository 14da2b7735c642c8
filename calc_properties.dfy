/**
 * What the two builders of lib/calc.ts promise: the shape of every section,
 * the per-line rules, totals that are sums of the already-rounded lines, the
 * all-zero boundary, and the rent round trip.
 */
module CalcProperties {
  import opened Wrappers
  import opened BudgetTypes
  import opened Money
  import opened Calc

  /** Every money field of the budget is a whole number of cents. */
  predicate WholeCents(b: CalculatedBudget) {
    && IsCents(b.totalIncome)
    && InCents(b.incomeLines)
    && InCents(b.directExpenses)
    && InCents(b.indirectExpenses)
    && IsCents(b.totals.directExpenses)
    && IsCents(b.totals.indirectExpenses)
    && IsCents(b.totals.totalExpenses)
    && IsCents(b.totals.netIncome)
  }

  /** The totals agree exactly with the lines shown and with each other. */
  predicate TotalsAddUp(b: CalculatedBudget) {
    && b.totals.directExpenses == Sum(Amounts(b.directExpenses))
    && b.totals.indirectExpenses == Sum(Amounts(b.indirectExpenses))
    && b.totals.totalExpenses == b.totals.directExpenses + b.totals.indirectExpenses
    && b.totals.netIncome == b.totalIncome - b.totals.totalExpenses
  }

  /**
   * Total expenses round the sum of the two section totals, and net income rounds the
   * unrounded total income less total expenses.
   */
  predicate TotalsRounded(b: CalculatedBudget, unroundedIncome: real) {
    && b.totals.totalExpenses == RoundCurrency(b.totals.directExpenses + b.totals.indirectExpenses)
    && b.totals.netIncome == RoundCurrency(unroundedIncome - b.totals.totalExpenses)
  }

  /** Every amount, every percent and every total is zero. */
  predicate AllZero(b: CalculatedBudget) {
    && b.totalIncome == 0.0
    && (forall i :: 0 <= i < |b.incomeLines| ==> b.incomeLines[i].amount == 0.0 && b.incomeLines[i].percent == 0.0)
    && (forall i :: 0 <= i < |b.directExpenses| ==> b.directExpenses[i].amount == 0.0 && b.directExpenses[i].percent == 0.0)
    && (forall i :: 0 <= i < |b.indirectExpenses| ==> b.indirectExpenses[i].amount == 0.0 && b.indirectExpenses[i].percent == 0.0)
    && b.totals == Totals(0.0, 0.0, 0.0, 0.0)
  }

  /** The sum of the rounded lines needs no further rounding, and net income is exact on the rounded figures. */
  lemma AssembleTotals(
    totalIncome: real,
    incomeLines: seq<CalculatedLine>,
    directExpenses: seq<CalculatedLine>,
    indirectExpenses: seq<CalculatedLine>)
    requires InCents(incomeLines) && InCents(directExpenses) && InCents(indirectExpenses)
    ensures var b := Assemble(totalIncome, incomeLines, directExpenses, indirectExpenses);
      && WholeCents(b)
      && TotalsAddUp(b)
      && TotalsRounded(b, totalIncome)
  {
    var direct, indirect := Amounts(directExpenses), Amounts(indirectExpenses);
    SumOfCents(direct);
    SumOfCents(indirect);
    RoundCurrencyOfCents(Sum(direct));
    RoundCurrencyOfCents(Sum(indirect));
    CentsAdd(Sum(direct), Sum(indirect));
    RoundCurrencyOfCents(Sum(direct) + Sum(indirect));
    RoundCurrencyShift(totalIncome, Sum(direct) + Sum(indirect));
  }

  // ---------------------------------------------------------------- line rules

  /** Income mode: the rounded input of the same name (0 for any other name), and the raw input's share of the total. */
  predicate IncomeLineRule(line: BudgetLine, out: CalculatedLine, inputs: IncomeInputs, totalIncome: real) {
    && out.name == line.lineItem
    && (line.lineItem == ServicesItem ==>
          out.amount == RoundCurrency(inputs.services) && out.percent == ShareOf(inputs.services, totalIncome))
    && (line.lineItem == TipsItem ==>
          out.amount == RoundCurrency(inputs.tips) && out.percent == ShareOf(inputs.tips, totalIncome))
    && (line.lineItem == RetailItem ==>
          out.amount == RoundCurrency(inputs.retail) && out.percent == ShareOf(inputs.retail, totalIncome))
    && (line.lineItem != ServicesItem && line.lineItem != TipsItem && line.lineItem != RetailItem ==>
          out.amount == 0.0 && out.percent == 0.0)
  }

  /** Backbar is 15% of Services, Retail Cost of Goods Sold half of Retail, any other line its fraction of the total. */
  predicate DirectLineRule(line: BudgetLine, out: CalculatedLine, totalIncome: real, services: real, retail: real) {
    && out.name == line.lineItem
    && (line.lineItem == BackbarItem ==> out.amount == RoundCurrency(services * 0.15))
    && (line.lineItem == RetailCogsItem ==> out.amount == RoundCurrency(retail * 0.5))
    && (line.lineItem != BackbarItem && line.lineItem != RetailCogsItem ==>
          out.amount == RoundCurrency(totalIncome * line.percentOfIncome))
    && out.percent == ShareOf(out.amount, totalIncome)
  }

  /** Every indirect line is its fraction of the total, reported as the rounded amount's share of the total. */
  predicate IndirectLineRule(line: BudgetLine, out: CalculatedLine, totalIncome: real) {
    && out.name == line.lineItem
    && out.amount == RoundCurrency(totalIncome * line.percentOfIncome)
    && out.percent == ShareOf(out.amount, totalIncome)
  }

  /** Rent mode: the table's fraction of the total, reported as that same fraction. */
  predicate ShareLineRule(line: BudgetLine, out: CalculatedLine, totalIncome: real) {
    && out.name == line.lineItem
    && out.amount == RoundCurrency(totalIncome * line.percentOfIncome)
    && out.percent == line.percentOfIncome
  }

  lemma DirectLinesMeetRule(lines: seq<BudgetLine>, totalIncome: real, services: real, retail: real)
    ensures forall i :: 0 <= i < |lines| ==>
      DirectLineRule(lines[i], DirectLines(lines, totalIncome, services, retail)[i], totalIncome, services, retail)
  {
    forall i | 0 <= i < |lines|
      ensures DirectLineRule(lines[i], DirectLines(lines, totalIncome, services, retail)[i], totalIncome, services, retail)
    {
      assert DirectLines(lines, totalIncome, services, retail)[i] == DirectLine(lines[i], totalIncome, services, retail);
    }
  }

  lemma IndirectLinesMeetRule(lines: seq<BudgetLine>, totalIncome: real)
    ensures forall i :: 0 <= i < |lines| ==> IndirectLineRule(lines[i], IndirectLines(lines, totalIncome)[i], totalIncome)
  {
    forall i | 0 <= i < |lines| ensures IndirectLineRule(lines[i], IndirectLines(lines, totalIncome)[i], totalIncome) {
      assert IndirectLines(lines, totalIncome)[i] == IndirectLine(lines[i], totalIncome);
    }
  }

  lemma ShareLinesMeetRule(lines: seq<BudgetLine>, totalIncome: real)
    ensures forall i :: 0 <= i < |lines| ==> ShareLineRule(lines[i], ShareLines(lines, totalIncome)[i], totalIncome)
  {
    forall i | 0 <= i < |lines| ensures ShareLineRule(lines[i], ShareLines(lines, totalIncome)[i], totalIncome) {
      assert ShareLines(lines, totalIncome)[i] == ShareLine(lines[i], totalIncome);
    }
  }

  // ---------------------------------------------------------------- income mode

  /** Income lines take the rounded input of the same name and its share of the unrounded total; the total is rounded. */
  lemma IncomeModeIncomeLines(data: BudgetData, inputs: IncomeInputs)
    ensures var b, total := BuildFromIncomeInputs(data, inputs), inputs.services + inputs.tips + inputs.retail;
      && b.totalIncome == RoundCurrency(total)
      && forall i :: 0 <= i < |data.income| ==> IncomeLineRule(data.income[i], b.incomeLines[i], inputs, total)
  {
    var total := inputs.services + inputs.tips + inputs.retail;
    var b := BuildFromIncomeInputs(data, inputs);
    RoundCurrencyOfCents(0.0);
    assert b.incomeLines == IncomeLines(data.income, inputs, total);
    forall i | 0 <= i < |data.income| ensures IncomeLineRule(data.income[i], b.incomeLines[i], inputs, total) {
      assert b.incomeLines[i] == IncomeLine(data.income[i], inputs, total);
    }
  }

  /** The direct-line overrides, with Services and Retail the raw inputs. */
  lemma IncomeModeDirectLines(data: BudgetData, inputs: IncomeInputs)
    ensures var b, total := BuildFromIncomeInputs(data, inputs), inputs.services + inputs.tips + inputs.retail;
      forall i :: 0 <= i < |data.directExpenses| ==>
        DirectLineRule(data.directExpenses[i], b.directExpenses[i], total, inputs.services, inputs.retail)
  {
    var total := inputs.services + inputs.tips + inputs.retail;
    var b := BuildFromIncomeInputs(data, inputs);
    assert b.directExpenses == DirectLines(data.directExpenses, total, inputs.services, inputs.retail);
    forall i | 0 <= i < |data.directExpenses|
      ensures DirectLineRule(data.directExpenses[i], b.directExpenses[i], total, inputs.services, inputs.retail)
    {
      assert b.directExpenses[i] == DirectLine(data.directExpenses[i], total, inputs.services, inputs.retail);
    }
  }

  /** Every indirect line is its fraction of the unrounded total income. */
  lemma IncomeModeIndirectLines(data: BudgetData, inputs: IncomeInputs)
    ensures var b, total := BuildFromIncomeInputs(data, inputs), inputs.services + inputs.tips + inputs.retail;
      forall i :: 0 <= i < |data.indirectExpenses| ==> IndirectLineRule(data.indirectExpenses[i], b.indirectExpenses[i], total)
  {
    var total := inputs.services + inputs.tips + inputs.retail;
    var b := BuildFromIncomeInputs(data, inputs);
    assert b.indirectExpenses == IndirectLines(data.indirectExpenses, total);
    forall i | 0 <= i < |data.indirectExpenses| ensures IndirectLineRule(data.indirectExpenses[i], b.indirectExpenses[i], total) {
      assert b.indirectExpenses[i] == IndirectLine(data.indirectExpenses[i], total);
    }
  }

  /** Every money figure is whole cents, the totals add up, and net income rounds the unrounded total less expenses. */
  lemma IncomeModeTotals(data: BudgetData, inputs: IncomeInputs)
    ensures var b := BuildFromIncomeInputs(data, inputs);
      && WholeCents(b)
      && TotalsAddUp(b)
      && TotalsRounded(b, inputs.services + inputs.tips + inputs.retail)
  {
    var total := inputs.services + inputs.tips + inputs.retail;
    var b := BuildFromIncomeInputs(data, inputs);
    IncomeModeIsAssembled(data, inputs);
    AssembleTotals(total, b.incomeLines, b.directExpenses, b.indirectExpenses);
  }

  lemma IncomeModeIsAssembled(data: BudgetData, inputs: IncomeInputs)
    ensures var b := BuildFromIncomeInputs(data, inputs);
      && b == Assemble(inputs.services + inputs.tips + inputs.retail, b.incomeLines, b.directExpenses, b.indirectExpenses)
      && InCents(b.incomeLines) && InCents(b.directExpenses) && InCents(b.indirectExpenses)
  {
  }

  /** A budget whose lines follow the income-mode rules for all-zero inputs is zero throughout. */
  lemma ZeroInputsGiveZeroBudget(data: BudgetData, b: CalculatedBudget)
    requires SameNames(data.income, b.incomeLines)
    requires SameNames(data.directExpenses, b.directExpenses)
    requires SameNames(data.indirectExpenses, b.indirectExpenses)
    requires b.totalIncome == RoundCurrency(0.0)
    requires forall i :: 0 <= i < |data.income| ==> IncomeLineRule(data.income[i], b.incomeLines[i], IncomeInputs(0.0, 0.0, 0.0), 0.0)
    requires forall i :: 0 <= i < |data.directExpenses| ==> DirectLineRule(data.directExpenses[i], b.directExpenses[i], 0.0, 0.0, 0.0)
    requires forall i :: 0 <= i < |data.indirectExpenses| ==> IndirectLineRule(data.indirectExpenses[i], b.indirectExpenses[i], 0.0)
    requires TotalsAddUp(b)
    ensures AllZero(b)
  {
    RoundCurrencyOfCents(0.0);
    forall i | 0 <= i < |b.directExpenses| ensures b.directExpenses[i].amount == 0.0 && b.directExpenses[i].percent == 0.0 {
      assert DirectLineRule(data.directExpenses[i], b.directExpenses[i], 0.0, 0.0, 0.0);
    }
    forall i | 0 <= i < |b.indirectExpenses| ensures b.indirectExpenses[i].amount == 0.0 && b.indirectExpenses[i].percent == 0.0 {
      assert IndirectLineRule(data.indirectExpenses[i], b.indirectExpenses[i], 0.0);
    }
    SumOfZeros(Amounts(b.directExpenses));
    SumOfZeros(Amounts(b.indirectExpenses));
  }

  /** With no income at all every figure is zero; no percent divides by zero. */
  lemma IncomeModeAllZero(data: BudgetData)
    ensures AllZero(BuildFromIncomeInputs(data, IncomeInputs(0.0, 0.0, 0.0)))
  {
    var zero := IncomeInputs(0.0, 0.0, 0.0);
    IncomeModeIncomeLines(data, zero);
    IncomeModeDirectLines(data, zero);
    IncomeModeIndirectLines(data, zero);
    IncomeModeTotals(data, zero);
    ZeroInputsGiveZeroBudget(data, BuildFromIncomeInputs(data, zero));
  }

  /** No line item appears twice in the table section. */
  predicate DistinctItems(lines: seq<BudgetLine>) {
    forall i, j :: 0 <= i < j < |lines| ==> lines[i].lineItem != lines[j].lineItem
  }

  /** Some line of the table section is named `name`. */
  predicate HasItem(lines: seq<BudgetLine>, name: string) {
    exists i :: 0 <= i < |lines| && lines[i].lineItem == name
  }

  /** `amount` when the table section has a line named `name`, 0 otherwise. */
  function IfPresent(lines: seq<BudgetLine>, name: string, amount: real): real {
    if HasItem(lines, name) then amount else 0.0
  }

  /** The Services, Tips and Retail lines carry the amounts `s`, `t` and `r`; any other line carries 0. */
  predicate AmountsByName(table: seq<BudgetLine>, out: seq<CalculatedLine>, s: real, t: real, r: real) {
    && |out| == |table|
    && forall i :: 0 <= i < |table| ==>
      && (table[i].lineItem == ServicesItem ==> out[i].amount == s)
      && (table[i].lineItem == TipsItem ==> out[i].amount == t)
      && (table[i].lineItem == RetailItem ==> out[i].amount == r)
      && (table[i].lineItem != ServicesItem && table[i].lineItem != TipsItem && table[i].lineItem != RetailItem ==>
            out[i].amount == 0.0)
  }

  /** Over distinct names, the lines add up to the amounts of the three names present. */
  lemma {:induction false} SumByName(table: seq<BudgetLine>, out: seq<CalculatedLine>, s: real, t: real, r: real)
    requires DistinctItems(table)
    requires AmountsByName(table, out, s, t, r)
    ensures Sum(Amounts(out)) == IfPresent(table, ServicesItem, s) + IfPresent(table, TipsItem, t) + IfPresent(table, RetailItem, r)
  {
    if |table| > 0 {
      var n := |table| - 1;
      var table', out' := table[..n], out[..n];
      assert Amounts(out)[..n] == Amounts(out');
      assert forall i :: 0 <= i < |table'| ==> table'[i] == table[i] && out'[i] == out[i];
      SumByName(table', out', s, t, r);
      var last := table[n].lineItem;
      forall name | name != last ensures HasItem(table, name) == HasItem(table', name) {
        if HasItem(table, name) {
          var i :| 0 <= i < |table| && table[i].lineItem == name;
          assert i < n && table'[i].lineItem == name;
        }
      }
      assert HasItem(table, last);
      assert !HasItem(table', last);
    }
  }

  /**
   * If the income table names Services, Tips and Retail once each, the shown income lines
   * add up to within one cent of the rounded total income.
   */
  lemma IncomeModeIncomeSum(data: BudgetData, inputs: IncomeInputs)
    requires DistinctItems(data.income)
    requires HasItem(data.income, ServicesItem) && HasItem(data.income, TipsItem) && HasItem(data.income, RetailItem)
    ensures var b := BuildFromIncomeInputs(data, inputs);
      -0.01 <= Sum(Amounts(b.incomeLines)) - b.totalIncome <= 0.01
  {
    var b := BuildFromIncomeInputs(data, inputs);
    var total := inputs.services + inputs.tips + inputs.retail;
    IncomeModeIncomeLines(data, inputs);
    var s, t, r := RoundCurrency(inputs.services), RoundCurrency(inputs.tips), RoundCurrency(inputs.retail);
    forall i | 0 <= i < |data.income|
      ensures (data.income[i].lineItem == ServicesItem ==> b.incomeLines[i].amount == s)
      ensures (data.income[i].lineItem == TipsItem ==> b.incomeLines[i].amount == t)
      ensures (data.income[i].lineItem == RetailItem ==> b.incomeLines[i].amount == r)
    {
      assert IncomeLineRule(data.income[i], b.incomeLines[i], inputs, total);
    }
    SumByName(data.income, b.incomeLines, s, t, r);
    ThreeRoundingsWithinCent(inputs.services, inputs.tips, inputs.retail);
  }

  /** Without a Retail line the Retail input still counts toward the total, so the shown lines fall short of it. */
  lemma IncomeModeMissingRetail()
    ensures var data := BudgetData([BudgetLine("Income", ServicesItem, 0.0), BudgetLine("Income", TipsItem, 0.0)], [], []);
      var b := BuildFromIncomeInputs(data, IncomeInputs(1000.0, 200.0, 300.0));
      && b.totalIncome == 1500.0
      && Sum(Amounts(b.incomeLines)) == 1200.0
  {
    var data := BudgetData([BudgetLine("Income", ServicesItem, 0.0), BudgetLine("Income", TipsItem, 0.0)], [], []);
    var b := BuildFromIncomeInputs(data, IncomeInputs(1000.0, 200.0, 300.0));
    RoundCurrencyOfCents(1500.0);
    RoundCurrencyOfCents(1000.0);
    RoundCurrencyOfCents(200.0);
    IncomeModeIncomeLines(data, IncomeInputs(1000.0, 200.0, 300.0));
    assert IncomeLineRule(data.income[0], b.incomeLines[0], IncomeInputs(1000.0, 200.0, 300.0), 1500.0);
    assert IncomeLineRule(data.income[1], b.incomeLines[1], IncomeInputs(1000.0, 200.0, 300.0), 1500.0);
    assert Amounts(b.incomeLines) == [1000.0, 200.0];
  }

  /** Services 1000, Tips 200, Retail 300: Backbar is 150.00, reported as 10% of the total income rather than 15% of Services. */
  lemma IncomeModeBackbarExample()
    ensures var data := BudgetData([], [BudgetLine("Direct", BackbarItem, 0.0)], []);
      var b := BuildFromIncomeInputs(data, IncomeInputs(1000.0, 200.0, 300.0));
      && b.totalIncome == 1500.0
      && b.directExpenses == [CalculatedLine(BackbarItem, 150.0, 0.1)]
  {
    var data := BudgetData([], [BudgetLine("Direct", BackbarItem, 0.0)], []);
    RoundCurrencyOfCents(1500.0);
    RoundCurrencyOfCents(150.0);
    IncomeModeDirectLines(data, IncomeInputs(1000.0, 200.0, 300.0));
  }

  // ---------------------------------------------------------------- rent mode

  lemma FirstNamedUnique(lines: seq<BudgetLine>, name: string, k: int, k': int)
    requires IsFirstNamed(lines, name, k) && IsFirstNamed(lines, name, k')
    ensures k == k'
  {
  }

  /** Rent mode fails exactly when the first Rent Expense line has a non-positive fraction; without one it uses 0.09. */
  lemma RentModeFails(data: BudgetData, monthlyRentAmount: real)
    ensures BuildFromRent(data, monthlyRentAmount).Failure? <==>
      exists k :: IsFirstNamed(data.indirectExpenses, RentItem, k) && data.indirectExpenses[k].percentOfIncome <= 0.0
    ensures (forall j :: 0 <= j < |data.indirectExpenses| ==> data.indirectExpenses[j].lineItem != RentItem) ==>
      RentPercent(data) == DefaultRentPercent && BuildFromRent(data, monthlyRentAmount).Success?
  {
    match FindLine(data.indirectExpenses, RentItem)
    case Some(k) =>
      forall k' | IsFirstNamed(data.indirectExpenses, RentItem, k') ensures k' == k {
        FirstNamedUnique(data.indirectExpenses, RentItem, k, k');
      }
    case None =>
  }

  /** Rent mode succeeds with the budget built from rent / fraction whenever the fraction is positive. */
  lemma RentModeIsRentBudget(data: BudgetData, monthlyRentAmount: real)
    requires RentPercent(data) > 0.0
    ensures BuildFromRent(data, monthlyRentAmount).Success?
    ensures BuildFromRent(data, monthlyRentAmount).value == RentBudget(data, monthlyRentAmount / RentPercent(data),
      PercentOf(data.income, ServicesItem, 0.0), PercentOf(data.income, RetailItem, 0.0))
  {
  }

  lemma RentBudgetSections(data: BudgetData, totalIncome: real, servicesPercent: real, retailPercent: real)
    ensures var b := RentBudget(data, totalIncome, servicesPercent, retailPercent);
      && b.incomeLines == ShareLines(data.income, totalIncome)
      && b.directExpenses == DirectLines(data.directExpenses, totalIncome, totalIncome * servicesPercent, totalIncome * retailPercent)
      && b.indirectExpenses == IndirectLines(data.indirectExpenses, totalIncome)
      && b == Assemble(totalIncome, b.incomeLines, b.directExpenses, b.indirectExpenses)
  {
  }

  /** The direct-line rule of income mode, with Services and Retail the given fractions of the total. */
  predicate RentDirectLineRule(line: BudgetLine, out: CalculatedLine, totalIncome: real, servicesPercent: real, retailPercent: real) {
    DirectLineRule(line, out, totalIncome, totalIncome * servicesPercent, totalIncome * retailPercent)
  }

  lemma RentBudgetDirectLines(data: BudgetData, totalIncome: real, servicesPercent: real, retailPercent: real)
    ensures forall i :: 0 <= i < |data.directExpenses| ==>
      RentDirectLineRule(data.directExpenses[i], RentBudget(data, totalIncome, servicesPercent, retailPercent).directExpenses[i],
        totalIncome, servicesPercent, retailPercent)
  {
    RentBudgetSections(data, totalIncome, servicesPercent, retailPercent);
    DirectLinesMeetRule(data.directExpenses, totalIncome, totalIncome * servicesPercent, totalIncome * retailPercent);
  }

  /**
   * In rent mode every direct line follows the income-mode rule, with Services and Retail the
   * income table's Services and Retail fractions (0 when absent) of the derived total.
   */
  lemma RentModeDirectLines(data: BudgetData, monthlyRentAmount: real)
    requires RentPercent(data) > 0.0
    ensures forall i :: 0 <= i < |data.directExpenses| ==>
      RentDirectLineRule(data.directExpenses[i], BuildFromRent(data, monthlyRentAmount).value.directExpenses[i],
        monthlyRentAmount / RentPercent(data), PercentOf(data.income, ServicesItem, 0.0), PercentOf(data.income, RetailItem, 0.0))
  {
    RentModeIsRentBudget(data, monthlyRentAmount);
    RentBudgetDirectLines(data, monthlyRentAmount / RentPercent(data),
      PercentOf(data.income, ServicesItem, 0.0), PercentOf(data.income, RetailItem, 0.0));
  }

  /** The total is rent / fraction, and the income lines split it by the table's fractions, reported unchanged. */
  lemma RentModeIncomeLines(data: BudgetData, monthlyRentAmount: real)
    requires RentPercent(data) > 0.0
    ensures var r := BuildFromRent(data, monthlyRentAmount);
      var total := monthlyRentAmount / RentPercent(data);
      && r.value.totalIncome == RoundCurrency(total)
      && total * RentPercent(data) == monthlyRentAmount
      && forall i :: 0 <= i < |data.income| ==> ShareLineRule(data.income[i], r.value.incomeLines[i], total)
  {
    RentModeIsRentBudget(data, monthlyRentAmount);
    var total := monthlyRentAmount / RentPercent(data);
    RentBudgetSections(data, total, PercentOf(data.income, ServicesItem, 0.0), PercentOf(data.income, RetailItem, 0.0));
    ShareLinesMeetRule(data.income, total);
  }

  /** Every indirect line is its fraction of the derived total income. */
  lemma RentModeIndirectLines(data: BudgetData, monthlyRentAmount: real)
    requires RentPercent(data) > 0.0
    ensures var r := BuildFromRent(data, monthlyRentAmount);
      var total := monthlyRentAmount / RentPercent(data);
        forall i :: 0 <= i < |data.indirectExpenses| ==> IndirectLineRule(data.indirectExpenses[i], r.value.indirectExpenses[i], total)
  {
    RentModeIsRentBudget(data, monthlyRentAmount);
    var total := monthlyRentAmount / RentPercent(data);
    RentBudgetSections(data, total, PercentOf(data.income, ServicesItem, 0.0), PercentOf(data.income, RetailItem, 0.0));
    IndirectLinesMeetRule(data.indirectExpenses, total);
  }

  /** Every money figure is whole cents, the totals add up, and net income rounds the unrounded total less expenses. */
  lemma RentModeTotals(data: BudgetData, monthlyRentAmount: real)
    requires RentPercent(data) > 0.0
    ensures var r := BuildFromRent(data, monthlyRentAmount);
      && WholeCents(r.value)
      && TotalsAddUp(r.value)
      && TotalsRounded(r.value, monthlyRentAmount / RentPercent(data))
  {
    RentModeIsRentBudget(data, monthlyRentAmount);
    var total := monthlyRentAmount / RentPercent(data);
    var sp, rp := PercentOf(data.income, ServicesItem, 0.0), PercentOf(data.income, RetailItem, 0.0);
    RentBudgetSections(data, total, sp, rp);
    var b := RentBudget(data, total, sp, rp);
    AssembleTotals(total, b.incomeLines, b.directExpenses, b.indirectExpenses);
  }

  lemma DivideThenMultiply(x: real, p: real)
    requires p > 0.0
    ensures (x / p) * p == x
  {
  }

  /** A line at the Rent Expense fraction of a total derived as rent / fraction is the rounded rent. */
  lemma RentLineIsRent(line: BudgetLine, out: CalculatedLine, monthlyRentAmount: real)
    requires line.percentOfIncome > 0.0
    requires IndirectLineRule(line, out, monthlyRentAmount / line.percentOfIncome)
    ensures out.amount == RoundCurrency(monthlyRentAmount)
  {
    DivideThenMultiply(monthlyRentAmount, line.percentOfIncome);
  }

  /** The first Rent Expense line gives back the rent itself, rounded, because (rent / p) * p == rent. */
  lemma RentModeRoundTrip(data: BudgetData, monthlyRentAmount: real, k: int)
    requires IsFirstNamed(data.indirectExpenses, RentItem, k)
    requires data.indirectExpenses[k].percentOfIncome > 0.0
    ensures BuildFromRent(data, monthlyRentAmount).Success?
    ensures BuildFromRent(data, monthlyRentAmount).value.indirectExpenses[k].amount == RoundCurrency(monthlyRentAmount)
  {
    FirstNamedUnique(data.indirectExpenses, RentItem, k, FindLine(data.indirectExpenses, RentItem).value);
    RentModeFails(data, monthlyRentAmount);
    RentModeIndirectLines(data, monthlyRentAmount);
    RentLineIsRent(data.indirectExpenses[k], BuildFromRent(data, monthlyRentAmount).value.indirectExpenses[k], monthlyRentAmount);
  }

  /** A rent of 900 at a 9% Rent Expense fraction gives a total income of 10000, split by the income fractions. */
  lemma RentModeExample()
    ensures var data := BudgetData(
        [BudgetLine("Income", ServicesItem, 0.8), BudgetLine("Income", TipsItem, 0.1), BudgetLine("Income", RetailItem, 0.1)],
        [],
        [BudgetLine("Indirect", RentItem, 0.09)]);
      var r := BuildFromRent(data, 900.0);
      && r.Success?
      && r.value.totalIncome == 10000.0
      && r.value.incomeLines == [
        CalculatedLine(ServicesItem, 8000.0, 0.8), CalculatedLine(TipsItem, 1000.0, 0.1), CalculatedLine(RetailItem, 1000.0, 0.1)]
      && r.value.indirectExpenses == [CalculatedLine(RentItem, 900.0, 0.09)]
  {
    var data := BudgetData(
        [BudgetLine("Income", ServicesItem, 0.8), BudgetLine("Income", TipsItem, 0.1), BudgetLine("Income", RetailItem, 0.1)],
        [],
        [BudgetLine("Indirect", RentItem, 0.09)]);
    assert FindLine(data.indirectExpenses, RentItem) == Some(0);
    RoundCurrencyOfCents(10000.0);
    RoundCurrencyOfCents(8000.0);
    RoundCurrencyOfCents(1000.0);
    RoundCurrencyOfCents(900.0);
    RentModeIncomeLines(data, 900.0);
    RentModeIndirectLines(data, 900.0);
  }
}
