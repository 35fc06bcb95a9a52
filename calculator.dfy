/** class PerformanceCalculator of src/main.ts: holds a plan and a lazily
    filled cache of its performance series. Each method is proved against
    the specification functions of modules Schedule, Returns and
    Performance. */
module Calculator {
  import opened Plan
  import opened Schedule
  import opened Returns
  import opened Performance

  class PerformanceCalculator {
    const investmentPlan: InvestmentPlan
    /** `_performances`: null until the series is first read. */
    var performances: array?<PerformanceMetrics>

    /** The cache, once filled, holds the plan's series. */
    ghost predicate Valid()
      reads this, performances
    {
      performances != null ==> performances[..] == Performances(investmentPlan)
    }

    constructor (investmentPlan: InvestmentPlan)
      ensures this.investmentPlan == investmentPlan && performances == null
      ensures Valid()
    {
      this.investmentPlan := investmentPlan;
      performances := null;
    }

    /** The `monthlyPerformances` getter: computes the series on the first
        read and from then on returns the very same array. */
    method MonthlyPerformances() returns (r: array<PerformanceMetrics>)
      requires InHorizon(investmentPlan.periods)
      modifies this
      ensures performances == r
      ensures old(performances) != null ==> r == old(performances)
      ensures old(performances) == null ==> fresh(r) && r[..] == Performances(investmentPlan)
      ensures old(Valid()) ==> Valid()
    {
      if performances == null {
        performances := EstimatePerformance();
      }
      r := performances;
    }

    /** estimateMonthlyInvestments: a zero-filled array to which each period
        adds its amount in every month it covers. */
    method EstimateMonthlyInvestments() returns (monthlyInvestments: array<real>)
      requires InHorizon(investmentPlan.periods)
      ensures fresh(monthlyInvestments)
      ensures monthlyInvestments[..] == MonthlyInvestments(investmentPlan.periods)
    {
      var ps := investmentPlan.periods;
      monthlyInvestments := new real[MAX_MONTH](_ => 0.0);
      for k := 0 to |ps|
        invariant monthlyInvestments.Length == MAX_MONTH
        invariant forall i {:trigger monthlyInvestments[i]} :: 0 <= i < MAX_MONTH ==> monthlyInvestments[i] == MonthlyAmount(ps[..k], i + 1)
      {
        var p := ps[k];
        assert p in ps;
        var month := p.startMonth - 1;
        while month < p.endMonth
          invariant p.startMonth - 1 <= month
          invariant month <= p.endMonth || month == p.startMonth - 1
          invariant forall i {:trigger monthlyInvestments[i]} :: 0 <= i < MAX_MONTH ==>
            monthlyInvestments[i] ==
              MonthlyAmount(ps[..k], i + 1) + (if p.startMonth - 1 <= i < month then p.investment else 0.0)
        {
          monthlyInvestments[month] := monthlyInvestments[month] + p.investment;
          month := month + 1;
        }
        assert ps[..k + 1][..k] == ps[..k];
      }
      assert ps[..|ps|] == ps;
    }

    /** estimateMonthlyReturns: one pass over the schedule threading the
        asset base `prevTotalAssets`. */
    method EstimateMonthlyReturns() returns (monthlyReturns: array<MonthlyReturn>)
      requires InHorizon(investmentPlan.periods)
      ensures fresh(monthlyReturns)
      ensures monthlyReturns[..] == MonthlyReturns(MonthlyInvestments(investmentPlan.periods), investmentPlan.stock)
    {
      var monthlyInvestments := EstimateMonthlyInvestments();
      var stock := investmentPlan.stock;
      ghost var ms := monthlyInvestments[..];
      var prevTotalAssets := 0.0;
      monthlyReturns := new MonthlyReturn[monthlyInvestments.Length](_ => MonthlyReturn(0.0, 0.0));
      for i := 0 to monthlyInvestments.Length
        modifies monthlyReturns
        invariant prevTotalAssets == AssetBase(ms, stock.capitalRate, i)
        invariant forall j {:trigger monthlyReturns[j]} :: 0 <= j < i ==> monthlyReturns[j] == ReturnAt(ms, stock, j)
      {
        var investment := monthlyInvestments[i];
        var monthlyIncome := Earned(investment + prevTotalAssets, stock.incomeRate);
        var monthlyCapital := Earned(investment + prevTotalAssets, stock.capitalRate);
        prevTotalAssets := prevTotalAssets + (investment + monthlyCapital);
        monthlyReturns[i] := MonthlyReturn(monthlyIncome, monthlyCapital);
      }
    }

    /** estimatePerformance: seeds record 0 with the first month's
        contribution, then fills records 1..MAX_MONTH (`Accumulate`). */
    method EstimatePerformance() returns (performance: array<PerformanceMetrics>)
      requires InHorizon(investmentPlan.periods)
      ensures fresh(performance)
      ensures performance[..] == Performances(investmentPlan)
    {
      performance := new PerformanceMetrics[MAX_MONTH + 1](i => PerformanceMetrics(i + 1, 0.0, 0.0, 0.0, 0.0, 0.0));
      var monthlyReturns := EstimateMonthlyReturns();
      var monthlyInvestments := EstimateMonthlyInvestments();
      performance[0] := PerformanceMetrics(1, monthlyInvestments[0], monthlyInvestments[0], 0.0, 0.0, 0.0);
      Accumulate(performance, monthlyInvestments, monthlyReturns);
      SeriesOfPlan(investmentPlan, performance[..]);
    }
  }

  /** The loop of estimatePerformance: for month = 1..MAX_MONTH, record
      `month` is record `month - 1` plus month index `month - 1`'s
      contribution and returns. Given the seed record, the array ends up
      holding the whole series. */
  method Accumulate(performance: array<PerformanceMetrics>, monthlyInvestments: array<real>, monthlyReturns: array<MonthlyReturn>)
    requires performance.Length == MAX_MONTH + 1
    requires monthlyInvestments.Length == MAX_MONTH && monthlyReturns.Length == MAX_MONTH
    requires performance[0] == Record(monthlyInvestments[..], monthlyReturns[..], 0)
    modifies performance
    ensures performance[..] == Series(monthlyInvestments[..], monthlyReturns[..])
  {
    ghost var ms := monthlyInvestments[..];
    ghost var rs := monthlyReturns[..];
    for month := 1 to MAX_MONTH + 1
      invariant forall k {:trigger performance[k]} :: 0 <= k < month ==> performance[k] == Record(ms, rs, k)
    {
      var prev := performance[month - 1];
      var investment := monthlyInvestments[month - 1];
      var income, capital := monthlyReturns[month - 1].income, monthlyReturns[month - 1].capital;
      performance[month] := PerformanceMetrics(
        month + 1,
        prev.investment + investment,
        prev.assets + investment + capital,
        prev.income + income,
        prev.capital + capital,
        prev.totalReturn + capital + income);
    }
  }

  /** Two reads of the series give the identical array. */
  method ReadTwice(calculator: PerformanceCalculator) returns (first: array<PerformanceMetrics>, second: array<PerformanceMetrics>)
    requires InHorizon(calculator.investmentPlan.periods)
    modifies calculator
    ensures first == second
  {
    first := calculator.MonthlyPerformances();
    second := calculator.MonthlyPerformances();
  }
}
