/** The cumulative performance series (estimatePerformance in src/main.ts).
    Record 0 is seeded with the first month's contribution; record k >= 1
    adds month index k - 1's contribution and returns to record k - 1. The
    source's loop runs k = 1..MAX_MONTH, so the series has MAX_MONTH + 1
    records and the first month's contribution is counted twice from
    record 1 on. */
module Performance {
  import opened Plan
  import opened Schedule
  import opened Returns

  datatype PerformanceMetrics = PerformanceMetrics(
    month: int, investment: real, assets: real, income: real, capital: real, totalReturn: real)

  /** Record `k` of the series built from contributions `ms` and returns `rs`. */
  function Record(ms: seq<real>, rs: seq<MonthlyReturn>, k: nat): PerformanceMetrics
    requires 0 < |ms| && |rs| == |ms| && k <= |ms|
  {
    if k == 0 then PerformanceMetrics(1, ms[0], ms[0], 0.0, 0.0, 0.0)
    else
      var prev := Record(ms, rs, k - 1);
      var investment := ms[k - 1];
      var r := rs[k - 1];
      PerformanceMetrics(
        k + 1,
        prev.investment + investment,
        prev.assets + investment + r.capital,
        prev.income + r.income,
        prev.capital + r.capital,
        prev.totalReturn + r.capital + r.income)
  }

  function Series(ms: seq<real>, rs: seq<MonthlyReturn>): seq<PerformanceMetrics>
    requires 0 < |ms| && |rs| == |ms|
  {
    seq(|ms| + 1, k requires 0 <= k <= |ms| => Record(ms, rs, k))
  }

  /** The series a plan yields over the horizon. */
  function Performances(plan: InvestmentPlan): seq<PerformanceMetrics> {
    var ms := MonthlyInvestments(plan.periods);
    Series(ms, MonthlyReturns(ms, plan.stock))
  }

  // ---------------------------------------------------------------------
  // Lemmas

  /** A list of MAX_MONTH + 1 records that agrees with `Record` at every
      index is the plan's series. */
  lemma SeriesOfPlan(plan: InvestmentPlan, s: seq<PerformanceMetrics>)
    requires var ms := MonthlyInvestments(plan.periods);
             |s| == MAX_MONTH + 1 &&
             forall k :: 0 <= k < |s| ==> s[k] == Record(ms, MonthlyReturns(ms, plan.stock), k)
    ensures s == Performances(plan)
  {
  }

  /** The series has one record more than there are months, numbered from
      1 without gaps. */
  lemma SeriesNumbering(plan: InvestmentPlan)
    ensures |Performances(plan)| == MAX_MONTH + 1
    ensures forall k :: 0 <= k < |Performances(plan)| ==> Performances(plan)[k].month == k + 1
  {
  }

  /** Each cumulative field is the running total of its monthly quantity,
      with the first month's contribution counted once more in
      `investment` and `assets`. */
  lemma {:induction false} RecordIsRunningTotal(ms: seq<real>, rs: seq<MonthlyReturn>, k: nat)
    requires 0 < |ms| && |rs| == |ms| && k <= |ms|
    ensures Record(ms, rs, k).investment == ms[0] + Sum(ms[..k])
    ensures Record(ms, rs, k).income == Sum(Incomes(rs)[..k])
    ensures Record(ms, rs, k).capital == Sum(Capitals(rs)[..k])
  {
    if k == 0 {
      assert ms[..0] == [] && Incomes(rs)[..0] == [] && Capitals(rs)[..0] == [];
    } else {
      RecordIsRunningTotal(ms, rs, k - 1);
      assert ms[..k][..k - 1] == ms[..k - 1];
      assert Incomes(rs)[..k][..k - 1] == Incomes(rs)[..k - 1];
      assert Capitals(rs)[..k][..k - 1] == Capitals(rs)[..k - 1];
    }
  }

  /** At every record, assets are investment plus capital gain and the total
      return is income plus capital gain. */
  lemma {:induction false} RecordIdentities(ms: seq<real>, rs: seq<MonthlyReturn>, k: nat)
    requires 0 < |ms| && |rs| == |ms| && k <= |ms|
    ensures Record(ms, rs, k).assets == Record(ms, rs, k).investment + Record(ms, rs, k).capital
    ensures Record(ms, rs, k).totalReturn == Record(ms, rs, k).income + Record(ms, rs, k).capital
  {
    if k > 0 {
      RecordIdentities(ms, rs, k - 1);
    }
  }

  /** When the returns come from the compounding pass, a record's assets are
      the pass's asset base plus the twice-counted first contribution. */
  lemma {:induction false} AssetsFollowTheBase(ms: seq<real>, stock: Stock, k: nat)
    requires 0 < |ms| && k <= |ms|
    ensures Record(ms, MonthlyReturns(ms, stock), k).assets == ms[0] + AssetBase(ms, stock.capitalRate, k)
  {
    if k > 0 {
      AssetsFollowTheBase(ms, stock, k - 1);
      assert MonthlyReturns(ms, stock)[k - 1] == ReturnAt(ms, stock, k - 1);
    }
  }

  /** With no negative contribution and no negative return, every cumulative
      field only grows from one record to the next. */
  lemma {:induction false} SeriesNonDecreasing(ms: seq<real>, rs: seq<MonthlyReturn>, j: nat, k: nat)
    requires 0 < |ms| && |rs| == |ms| && j <= k <= |ms|
    requires forall i :: 0 <= i < |ms| ==> ms[i] >= 0.0
    requires forall i :: 0 <= i < |rs| ==> rs[i].income >= 0.0 && rs[i].capital >= 0.0
    ensures var a, b := Record(ms, rs, j), Record(ms, rs, k);
            a.investment <= b.investment && a.assets <= b.assets && a.income <= b.income &&
            a.capital <= b.capital && a.totalReturn <= b.totalReturn
  {
    if j < k {
      SeriesNonDecreasing(ms, rs, j, k - 1);
    }
  }

  /** A plan with no negative amount and no negative rate yields a series
      whose cumulative fields never decrease. */
  lemma PlanSeriesNonDecreasing(plan: InvestmentPlan, j: nat, k: nat)
    requires forall p :: p in plan.periods ==> p.investment >= 0.0
    requires plan.stock.capitalRate >= 0.0 && plan.stock.incomeRate >= 0.0
    requires j <= k <= MAX_MONTH
    ensures var a, b := Performances(plan)[j], Performances(plan)[k];
            a.investment <= b.investment && a.assets <= b.assets && a.income <= b.income &&
            a.capital <= b.capital && a.totalReturn <= b.totalReturn
  {
    var ms := MonthlyInvestments(plan.periods);
    var rs := MonthlyReturns(ms, plan.stock);
    forall i | 0 <= i < |ms| ensures ms[i] >= 0.0 {
      MonthlyAmountNonNegative(plan.periods, i + 1);
    }
    forall i | 0 <= i < |rs| ensures rs[i].income >= 0.0 && rs[i].capital >= 0.0 {
      BaseGrows(ms, plan.stock, i);
    }
    SeriesNonDecreasing(ms, rs, j, k);
  }

  /** With both rates zero the series earns nothing: income, capital gain and
      total return stay zero and assets equal the investment. */
  lemma {:induction false} ZeroRatesSeries(ms: seq<real>, stock: Stock, k: nat)
    requires stock.capitalRate == 0.0 && stock.incomeRate == 0.0
    requires 0 < |ms| && k <= |ms|
    ensures var r := Record(ms, MonthlyReturns(ms, stock), k);
            r.income == 0.0 && r.capital == 0.0 && r.totalReturn == 0.0 && r.assets == r.investment
  {
    if k > 0 {
      ZeroRatesSeries(ms, stock, k - 1);
      ZeroRatesEarnNothing(ms, stock, k - 1);
    }
  }

  /** One period of `amount` from month 1 to month `last`, at zero rates:
      record k holds amount * (1 + min(k, last)). The record for month `last`
      reads amount * last, and every later record reads amount * (last + 1),
      one contribution more than was scheduled. */
  lemma SinglePeriodAtZeroRates(plan: InvestmentPlan, k: nat)
    requires plan.stock.capitalRate == 0.0 && plan.stock.incomeRate == 0.0
    requires |plan.periods| == 1 && plan.periods[0].startMonth == 1
    requires 1 <= plan.periods[0].endMonth <= MAX_MONTH && k <= MAX_MONTH
    ensures Performances(plan)[k] == StepRecord(plan.periods[0].investment, plan.periods[0].endMonth, k)
  {
    SinglePeriodSeries(plan.periods, plan.stock, k);
    PerformancesAt(plan, k, StepRecord(plan.periods[0].investment, plan.periods[0].endMonth, k));
  }

  /** Record k of a zero-rate schedule paying `amount` in its first `last`
      months: the seed contribution plus min(k, last) more, all of it in
      investment and assets. */
  function StepRecord(amount: real, last: int, k: nat): PerformanceMetrics {
    var total := amount * (1 + Min(k, last)) as real;
    PerformanceMetrics(k + 1, total, total, 0.0, 0.0, 0.0)
  }

  /** The series of a single period starting in month 1, at zero rates. */
  lemma SinglePeriodSeries(ps: seq<InvestmentPeriod>, stock: Stock, k: nat)
    requires stock.capitalRate == 0.0 && stock.incomeRate == 0.0
    requires |ps| == 1 && ps[0].startMonth == 1
    requires 1 <= ps[0].endMonth <= MAX_MONTH && k <= MAX_MONTH
    ensures var ms := MonthlyInvestments(ps);
            Record(ms, MonthlyReturns(ms, stock), k) == StepRecord(ps[0].investment, ps[0].endMonth, k)
  {
    SinglePeriodSchedule(ps);
    StepScheduleAtZeroRates(MonthlyInvestments(ps), stock, ps[0].investment, ps[0].endMonth, k);
  }

  /** A single period from month 1 to `last` fills the first `last` entries
      of the schedule with its amount and leaves the rest at 0. */
  lemma SinglePeriodSchedule(ps: seq<InvestmentPeriod>)
    requires |ps| == 1 && ps[0].startMonth == 1
    ensures var ms := MonthlyInvestments(ps);
            forall i :: 0 <= i < |ms| ==> ms[i] == if i < ps[0].endMonth then ps[0].investment else 0.0
  {
    var ms := MonthlyInvestments(ps);
    assert ps == [ps[0]];
    forall i | 0 <= i < |ms| ensures ms[i] == if i < ps[0].endMonth then ps[0].investment else 0.0 {
      SinglePeriodMonth(ps[0], i + 1);
    }
  }

  /** The series of a schedule that pays `amount` for its first `last`
      months, at zero rates. */
  lemma StepScheduleAtZeroRates(ms: seq<real>, stock: Stock, amount: real, last: nat, k: nat)
    requires stock.capitalRate == 0.0 && stock.incomeRate == 0.0
    requires 0 < last <= |ms| && k <= |ms|
    requires forall i :: 0 <= i < |ms| ==> ms[i] == if i < last then amount else 0.0
    ensures Record(ms, MonthlyReturns(ms, stock), k) == StepRecord(amount, last, k)
  {
    var rs := MonthlyReturns(ms, stock);
    var n := Min(k, last);
    assert ms[0] == amount;
    StepPrefixSum(ms, amount, last, k);
    assert Sum(ms[..k]) == amount * n as real;
    RecordIsRunningTotal(ms, rs, k);
    ZeroRatesSeries(ms, stock, k);
    var r := Record(ms, rs, k);
    assert r.investment == amount + amount * n as real;
    assert r == PerformanceMetrics(k + 1, r.investment, r.investment, 0.0, 0.0, 0.0);
    StepRecordIs(amount, last, k, r.investment);
  }

  lemma StepRecordIs(amount: real, last: int, k: nat, total: real)
    requires total == amount + amount * Min(k, last) as real
    ensures StepRecord(amount, last, k) == PerformanceMetrics(k + 1, total, total, 0.0, 0.0, 0.0)
  {
    OneMoreContribution(amount, Min(k, last), total);
  }

  /** Record k of a plan's series is `r` when `Record` says so. */
  lemma PerformancesAt(plan: InvestmentPlan, k: nat, r: PerformanceMetrics)
    requires k <= MAX_MONTH
    requires var ms := MonthlyInvestments(plan.periods);
             Record(ms, MonthlyReturns(ms, plan.stock), k) == r
    ensures Performances(plan)[k] == r
  {
  }

  function Min(a: int, b: int): int {
    if a < b then a else b
  }

  lemma OneMoreContribution(amount: real, n: int, total: real)
    requires total == amount + amount * n as real
    ensures total == amount * (1 + n) as real
  {
  }

  lemma SinglePeriodMonth(p: InvestmentPeriod, month: int)
    ensures MonthlyAmount([p], month) == if p.startMonth <= month <= p.endMonth then p.investment else 0.0
  {
    assert [p][..0] == [];
  }

  /** Prefix sums of a schedule that pays `amount` for its first `last`
      entries and nothing after. */
  lemma {:induction false} StepPrefixSum(ms: seq<real>, amount: real, last: nat, k: nat)
    requires k <= |ms|
    requires forall i :: 0 <= i < |ms| ==> ms[i] == if i < last then amount else 0.0
    ensures Sum(ms[..k]) == amount * Min(k, last) as real
  {
    if k == 0 {
      assert ms[..0] == [];
    } else {
      StepPrefixSum(ms, amount, last, k - 1);
      assert ms[..k][..k - 1] == ms[..k - 1];
      var n := Min(k - 1, last);
      assert Sum(ms[..k]) == amount * n as real + ms[k - 1];
      if k <= last {
        OneMoreContribution(amount, n, Sum(ms[..k]));
      }
    }
  }
}
