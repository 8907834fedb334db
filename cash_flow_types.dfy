/**
 * The record shapes shared by the client and the server (client/utils/types.ts),
 * the relations that tie a cash-flow summary to its months, and the values the
 * sample generator draws from its ambient sources.
 */
module CashFlowTypes {
  import opened JsMath

  datatype Option<T> = None | Some(value: T)

  /** One month of the report: `cashFlow` is meant to be `revenue - expenses`. */
  datatype MonthlyData = MonthlyData(month: string, revenue: int, expenses: int, cashFlow: int)

  /** The summary the wizard carries from upload to report. */
  datatype CashFlowData = CashFlowData(
    companyName: string,
    months: seq<MonthlyData>,
    totalRevenue: int,
    totalExpenses: int,
    totalCashFlow: int,
    averageMonthlyCashFlow: real,
    dcfValuation: int,
    multiple: int)

  datatype Assets = Assets(cash: int, accountsReceivable: int, inventory: int, equipment: int, totalAssets: int)
  datatype Liabilities = Liabilities(accountsPayable: int, shortTermDebt: int, longTermDebt: int, totalLiabilities: int)
  datatype Equity = Equity(shareholderEquity: int, retainedEarnings: int, totalEquity: int)
  datatype BalanceSheetData = BalanceSheetData(assets: Assets, liabilities: Liabilities, equity: Equity)

  /** The twelve month labels of the fixed annual horizon, in order. */
  const MonthLabels: seq<string> :=
    ["Jan", "Feb", "Mar", "Apr", "May", "Jun", "Jul", "Aug", "Sep", "Oct", "Nov", "Dec"]

  /** The horizon length the average divides by. */
  const Horizon: int := 12

  /**
   * What the generator takes, per month, from `Math.sin` and `Math.random`:
   * `sine` is `Math.sin(index * Math.PI / 6)`, the other two are the two
   * `Math.random()` results of that month.
   */
  datatype Draw = Draw(sine: real, revenueRandom: real, expenseRandom: real)

  /** The ranges `Math.sin` and `Math.random` produce. */
  predicate DrawInRange(d: Draw) {
    -1.0 <= d.sine <= 1.0 && 0.0 <= d.revenueRandom < 1.0 && 0.0 <= d.expenseRandom < 1.0
  }

  /** `months.reduce((sum, month) => sum + month.revenue, 0)`, folded from the left. */
  function SumRevenue(months: seq<MonthlyData>): int {
    if |months| == 0 then 0 else SumRevenue(months[..|months| - 1]) + months[|months| - 1].revenue
  }

  /** `months.reduce((sum, month) => sum + month.expenses, 0)`. */
  function SumExpenses(months: seq<MonthlyData>): int {
    if |months| == 0 then 0 else SumExpenses(months[..|months| - 1]) + months[|months| - 1].expenses
  }

  /** The sum of the per-month cash flows (the source never computes it; it is the reference). */
  function SumCashFlow(months: seq<MonthlyData>): int {
    if |months| == 0 then 0 else SumCashFlow(months[..|months| - 1]) + months[|months| - 1].cashFlow
  }

  predicate MonthConsistent(m: MonthlyData) {
    m.cashFlow == m.revenue - m.expenses
  }

  predicate AllMonthsConsistent(months: seq<MonthlyData>) {
    forall i :: 0 <= i < |months| ==> MonthConsistent(months[i])
  }

  /** Summing the monthly cash flows gives total revenue minus total expenses. */
  lemma {:induction false} SumCashFlowIsDifference(months: seq<MonthlyData>)
    requires AllMonthsConsistent(months)
    ensures SumCashFlow(months) == SumRevenue(months) - SumExpenses(months)
  {
    if |months| > 0 {
      var init := months[..|months| - 1];
      assert AllMonthsConsistent(init) by {
        forall i | 0 <= i < |init| ensures MonthConsistent(init[i]) {
          assert init[i] == months[i];
        }
      }
      SumCashFlowIsDifference(init);
      assert MonthConsistent(months[|months| - 1]);
    }
  }

  /** Positive monthly cash flows sum to at least one per month. */
  lemma {:induction false} SumCashFlowPositive(months: seq<MonthlyData>)
    requires |months| > 0
    requires forall i :: 0 <= i < |months| ==> months[i].cashFlow > 0
    ensures SumCashFlow(months) >= |months|
  {
    if |months| > 1 {
      var init := months[..|months| - 1];
      assert forall i :: 0 <= i < |init| ==> init[i].cashFlow > 0 by {
        forall i | 0 <= i < |init| ensures init[i].cashFlow > 0 {
          assert init[i] == months[i];
        }
      }
      SumCashFlowPositive(init);
    }
  }

  /** Every revenue in a range gives a sum in the scaled range. */
  lemma {:induction false} SumRevenueBounds(months: seq<MonthlyData>, lo: int, hi: int)
    requires forall i :: 0 <= i < |months| ==> lo <= months[i].revenue <= hi
    ensures |months| * lo <= SumRevenue(months) <= |months| * hi
  {
    if |months| > 0 {
      var init := months[..|months| - 1];
      assert forall i :: 0 <= i < |init| ==> lo <= init[i].revenue <= hi by {
        forall i | 0 <= i < |init| ensures lo <= init[i].revenue <= hi {
          assert init[i] == months[i];
        }
      }
      SumRevenueBounds(init, lo, hi);
      assert |months| * lo == |init| * lo + lo;
      assert |months| * hi == |init| * hi + hi;
    }
  }

  /**
   * The relations a summary is meant to satisfy: each month's cash flow is its
   * revenue minus its expenses, the totals are the sums of the months, the
   * average divides by the fixed horizon and the valuation is the rounded
   * average times the multiple.
   */
  predicate WellFormed(d: CashFlowData) {
    && AllMonthsConsistent(d.months)
    && d.totalRevenue == SumRevenue(d.months)
    && d.totalExpenses == SumExpenses(d.months)
    && d.totalCashFlow == d.totalRevenue - d.totalExpenses
    && d.averageMonthlyCashFlow == d.totalCashFlow as real / Horizon as real
    && d.dcfValuation == Round(d.averageMonthlyCashFlow * d.multiple as real)
  }

  /** The total cash flow of a well-formed summary is the sum of its months' cash flows. */
  lemma TotalIsSumOfMonthlyCashFlows(d: CashFlowData)
    requires WellFormed(d)
    ensures d.totalCashFlow == SumCashFlow(d.months)
  {
    SumCashFlowIsDifference(d.months);
  }

  /**
   * The average divides by the fixed horizon, not by the number of months, so
   * it is the mean monthly cash flow exactly when there are twelve months.
   */
  lemma AverageIsMeanOfFullYear(d: CashFlowData)
    requires WellFormed(d) && |d.months| > 0
    ensures d.averageMonthlyCashFlow * |d.months| as real == SumCashFlow(d.months) as real <==> |d.months| == 12 || d.totalCashFlow == 0
  {
    TotalIsSumOfMonthlyCashFlows(d);
    var t := d.totalCashFlow as real;
    var n := |d.months| as real;
    assert d.averageMonthlyCashFlow * n == t * n / 12.0;
    if t * n / 12.0 == t && t != 0.0 {
      assert n / 12.0 == 1.0;
    }
  }

  /**
   * With the multiple of 10, the valuation is an integer formula in the total:
   * `Math.round(T / 12 * 10)` is `floor((10 * T + 6) / 12)`.
   */
  lemma ValuationClosedForm(d: CashFlowData)
    requires WellFormed(d) && d.multiple == 10
    ensures d.dcfValuation == (10 * d.totalCashFlow + 6) / 12
  {
    var t := d.totalCashFlow;
    var q := (10 * t + 6) / 12;
    var r := (10 * t + 6) % 12;
    assert 10 * t + 6 == 12 * q + r && 0 <= r < 12;
    var x := d.averageMonthlyCashFlow * 10.0;
    assert x == (10 * t) as real / 12.0;
    assert x + 0.5 == (12 * q + r) as real / 12.0;
    assert x + 0.5 == q as real + r as real / 12.0;
    RoundUnique(x, q);
  }

  /** The balance-sheet identities: every total is the sum of its lines, and assets balance. */
  predicate Balanced(b: BalanceSheetData) {
    && b.assets.totalAssets == b.assets.cash + b.assets.accountsReceivable + b.assets.inventory + b.assets.equipment
    && b.liabilities.totalLiabilities == b.liabilities.accountsPayable + b.liabilities.shortTermDebt + b.liabilities.longTermDebt
    && b.equity.totalEquity == b.equity.shareholderEquity + b.equity.retainedEarnings
    && b.assets.totalAssets == b.liabilities.totalLiabilities + b.equity.totalEquity
  }
}
