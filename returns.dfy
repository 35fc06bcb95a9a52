/** The monthly returns of a contribution schedule (estimateMonthlyReturns in
    src/main.ts): one pass in month order over a running asset base that
    starts at zero and grows by each month's contribution and capital gain;
    the income is paid out and never enters the base. */
module Returns {
  import opened Plan
  import opened Schedule

  /** What one month earns, for that month alone. */
  datatype MonthlyReturn = MonthlyReturn(income: real, capital: real)

  /** What `invested` earns in one month at a monthly `rate`. */
  function Earned(invested: real, rate: real): real {
    invested * rate
  }

  /** The asset base (`prevTotalAssets`) before month index `i` is processed. */
  function AssetBase(ms: seq<real>, capitalRate: real, i: nat): real
    requires i <= |ms|
  {
    if i == 0 then 0.0
    else
      var base := AssetBase(ms, capitalRate, i - 1);
      base + (ms[i - 1] + Earned(ms[i - 1] + base, capitalRate))
  }

  /** The return of month index `i`: both rates apply to that month's
      contribution plus the base accumulated before it. */
  function ReturnAt(ms: seq<real>, stock: Stock, i: nat): MonthlyReturn
    requires i < |ms|
  {
    var invested := ms[i] + AssetBase(ms, stock.capitalRate, i);
    MonthlyReturn(Earned(invested, stock.incomeRate), Earned(invested, stock.capitalRate))
  }

  function MonthlyReturns(ms: seq<real>, stock: Stock): seq<MonthlyReturn> {
    seq(|ms|, i requires 0 <= i < |ms| => ReturnAt(ms, stock, i))
  }

  function Capitals(rs: seq<MonthlyReturn>): seq<real> {
    seq(|rs|, i requires 0 <= i < |rs| => rs[i].capital)
  }

  function Incomes(rs: seq<MonthlyReturn>): seq<real> {
    seq(|rs|, i requires 0 <= i < |rs| => rs[i].income)
  }

  // ---------------------------------------------------------------------
  // Lemmas

  /** The base before month index `i` is what was contributed before it plus
      the capital gains earned before it; no income is in it. */
  lemma {:induction false} BaseIsContributionsPlusCapital(ms: seq<real>, stock: Stock, i: nat)
    requires i <= |ms|
    ensures AssetBase(ms, stock.capitalRate, i) == Sum(ms[..i]) + Sum(Capitals(MonthlyReturns(ms, stock))[..i])
  {
    var cs := Capitals(MonthlyReturns(ms, stock));
    if i > 0 {
      BaseIsContributionsPlusCapital(ms, stock, i - 1);
      assert MonthlyReturns(ms, stock)[i - 1] == ReturnAt(ms, stock, i - 1);
      assert ms[..i] == ms[..i - 1] + [ms[i - 1]];
      assert cs[..i] == cs[..i - 1] + [cs[i - 1]];
    } else {
      assert ms[..0] == [] && cs[..0] == [];
    }
  }

  /** With both rates zero nothing is earned and the base is just the
      contributions so far. */
  lemma {:induction false} ZeroRatesEarnNothing(ms: seq<real>, stock: Stock, i: nat)
    requires stock.capitalRate == 0.0 && stock.incomeRate == 0.0
    requires i <= |ms|
    ensures AssetBase(ms, stock.capitalRate, i) == Sum(ms[..i])
    ensures i < |ms| ==> ReturnAt(ms, stock, i) == MonthlyReturn(0.0, 0.0)
  {
    if i > 0 {
      ZeroRatesEarnNothing(ms, stock, i - 1);
      assert ms[..i][..i - 1] == ms[..i - 1];
    }
  }

  /** With no negative contribution and no negative rate, the base never
      shrinks and no month's return is negative. */
  lemma {:induction false} BaseGrows(ms: seq<real>, stock: Stock, i: nat)
    requires forall j :: 0 <= j < |ms| ==> ms[j] >= 0.0
    requires stock.capitalRate >= 0.0 && stock.incomeRate >= 0.0
    requires i < |ms|
    ensures 0.0 <= AssetBase(ms, stock.capitalRate, i) <= AssetBase(ms, stock.capitalRate, i + 1)
    ensures ReturnAt(ms, stock, i).income >= 0.0 && ReturnAt(ms, stock, i).capital >= 0.0
  {
    var base := AssetBase(ms, stock.capitalRate, i);
    if i > 0 {
      BaseGrows(ms, stock, i - 1);
    }
    EarnedNonNegative(ms[i] + base, stock.capitalRate);
    EarnedNonNegative(ms[i] + base, stock.incomeRate);
  }

  lemma EarnedNonNegative(invested: real, rate: real)
    requires invested >= 0.0 && rate >= 0.0
    ensures Earned(invested, rate) >= 0.0
  {
  }
}
