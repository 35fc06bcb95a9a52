/** The monthly contribution schedule of a plan (estimateMonthlyInvestments
    in src/main.ts), stated as a sum over the periods for each month. */
module Schedule {
  import opened Plan

  /** Sum of amounts, added from the first to the last. */
  function Sum(s: seq<real>): real {
    if s == [] then 0.0 else Sum(s[..|s| - 1]) + s[|s| - 1]
  }

  predicate Covers(p: InvestmentPeriod, month: int) {
    p.startMonth <= month <= p.endMonth
  }

  /** What month `month` (1-based) receives from the periods `ps`: the amount
      of every period that covers it, added up. */
  function MonthlyAmount(ps: seq<InvestmentPeriod>, month: int): real {
    if ps == [] then 0.0
    else
      var last := ps[|ps| - 1];
      MonthlyAmount(ps[..|ps| - 1], month) + (if Covers(last, month) then last.investment else 0.0)
  }

  /** The schedule over the horizon: entry i is what month i + 1 receives. */
  function MonthlyInvestments(ps: seq<InvestmentPeriod>): seq<real> {
    seq(MAX_MONTH, i => MonthlyAmount(ps, i + 1))
  }

  /** Every period lies inside the horizon, so the source's loop writes only
      to entries that exist. */
  ghost predicate InHorizon(ps: seq<InvestmentPeriod>) {
    forall p :: p in ps ==> 1 <= p.startMonth && p.endMonth <= MAX_MONTH
  }

  // ---------------------------------------------------------------------
  // Lemmas

  /** A month's amount from two lists of periods is the sum of what each
      list gives it. */
  lemma {:induction false} MonthlyAmountAppend(a: seq<InvestmentPeriod>, b: seq<InvestmentPeriod>, month: int)
    ensures MonthlyAmount(a + b, month) == MonthlyAmount(a, month) + MonthlyAmount(b, month)
  {
    if b != [] {
      var b' := b[..|b| - 1];
      assert (a + b)[..|a + b| - 1] == a + b';
      MonthlyAmountAppend(a, b', month);
    } else {
      assert a + b == a;
    }
  }

  /** A month outside every period receives nothing. */
  lemma {:induction false} UncoveredMonthGetsNothing(ps: seq<InvestmentPeriod>, month: int)
    requires forall i :: 0 <= i < |ps| ==> !Covers(ps[i], month)
    ensures MonthlyAmount(ps, month) == 0.0
  {
    if ps != [] {
      UncoveredMonthGetsNothing(ps[..|ps| - 1], month);
    }
  }

  /** A month covered by exactly one period receives exactly its amount. */
  lemma SoleCoverGetsItsAmount(ps: seq<InvestmentPeriod>, month: int, j: int)
    requires 0 <= j < |ps| && Covers(ps[j], month)
    requires forall i :: 0 <= i < |ps| && i != j ==> !Covers(ps[i], month)
    ensures MonthlyAmount(ps, month) == ps[j].investment
  {
    assert ps == ps[..j] + [ps[j]] + ps[j + 1..];
    MonthlyAmountAppend(ps[..j] + [ps[j]], ps[j + 1..], month);
    MonthlyAmountAppend(ps[..j], [ps[j]], month);
    assert MonthlyAmount([ps[j]], month) == ps[j].investment by {
      assert [ps[j]][..0] == [];
    }
    UncoveredMonthGetsNothing(ps[..j], month);
    UncoveredMonthGetsNothing(ps[j + 1..], month);
  }

  /** A month covered by exactly two periods receives both amounts: the
      accumulation adds, it does not overwrite. */
  lemma TwoCoversGetBoth(ps: seq<InvestmentPeriod>, month: int, i: int, j: int)
    requires 0 <= i < j < |ps| && Covers(ps[i], month) && Covers(ps[j], month)
    requires forall k :: 0 <= k < |ps| && k != i && k != j ==> !Covers(ps[k], month)
    ensures MonthlyAmount(ps, month) == ps[i].investment + ps[j].investment
  {
    assert ps == ps[..j] + ps[j..];
    MonthlyAmountAppend(ps[..j], ps[j..], month);
    SoleCoverGetsItsAmount(ps[..j], month, i);
    SoleCoverGetsItsAmount(ps[j..], month, 0);
  }

  /** In a constructed plan, a month strictly inside a period belongs to that
      period alone. */
  lemma InteriorMonthOfPlan(ps: seq<InvestmentPeriod>, j: int, month: int)
    requires WellFormed(ps)
    requires 0 <= j < |ps| && ps[j].startMonth < month < ps[j].endMonth
    ensures MonthlyAmount(ps, month) == ps[j].investment
  {
    forall k | 0 <= k < |ps| && k != j ensures !Covers(ps[k], month) {
      if k < j { ChainedSpansPlan(ps, k, j); } else { ChainedSpansPlan(ps, j, k); }
    }
    SoleCoverGetsItsAmount(ps, month, j);
  }

  /** In a constructed plan, the month in which one period ends and the next
      starts receives both periods' amounts. */
  lemma TouchingMonthOfPlan(ps: seq<InvestmentPeriod>, j: int)
    requires WellFormed(ps)
    requires 0 <= j && j + 1 < |ps|
    requires ps[j].startMonth < ps[j].endMonth == ps[j + 1].startMonth < ps[j + 1].endMonth
    ensures MonthlyAmount(ps, ps[j].endMonth) == ps[j].investment + ps[j + 1].investment
  {
    var month := ps[j].endMonth;
    forall k | 0 <= k < |ps| && k != j && k != j + 1 ensures !Covers(ps[k], month) {
      if k < j { ChainedSpansPlan(ps, k, j); } else { ChainedSpansPlan(ps, j + 1, k); }
    }
    TwoCoversGetBoth(ps, month, j, j + 1);
  }

  /** With no negative amount, no month receives a negative amount. */
  lemma {:induction false} MonthlyAmountNonNegative(ps: seq<InvestmentPeriod>, month: int)
    requires forall p :: p in ps ==> p.investment >= 0.0
    ensures MonthlyAmount(ps, month) >= 0.0
  {
    if ps != [] {
      assert ps[|ps| - 1] in ps;
      assert forall p :: p in ps[..|ps| - 1] ==> p in ps;
      MonthlyAmountNonNegative(ps[..|ps| - 1], month);
    }
  }

  /** Two back-to-back periods: the last month of the first gets only the
      first amount, the first month of the second only the second amount, and
      the month after both gets nothing. */
  lemma BackToBackPeriods()
    ensures var ps := [InvestmentPeriod(1000.0, 1, 12), InvestmentPeriod(2000.0, 13, 24)];
            MonthlyAmount(ps, 12) == 1000.0 && MonthlyAmount(ps, 13) == 2000.0 && MonthlyAmount(ps, 25) == 0.0
  {
    var ps := [InvestmentPeriod(1000.0, 1, 12), InvestmentPeriod(2000.0, 13, 24)];
    SoleCoverGetsItsAmount(ps, 12, 0);
    SoleCoverGetsItsAmount(ps, 13, 1);
    UncoveredMonthGetsNothing(ps, 25);
  }
}
