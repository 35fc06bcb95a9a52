/** The investment plan of one stock: its monthly rates and the contribution
    periods, sorted by start month and checked for consistency when the plan
    is built (class InvestmentPlan in src/main.ts). */
module Plan {

  /** The projection horizon: thirty years of months. */
  const MAX_MONTH: nat := 12 * 30

  /** A stock and its monthly rates; the reader has already divided the
      sheet's yearly rates by twelve. */
  datatype Stock = Stock(name: string, capitalRate: real, incomeRate: real)

  /** Every month from startMonth to endMonth (1-based, inclusive) receives
      `investment`. */
  datatype InvestmentPeriod = InvestmentPeriod(investment: real, startMonth: int, endMonth: int)

  /** The three errors the plan's constructor throws. */
  datatype PlanError =
    | NoInvestPlan        // the period list is empty
    | StartAfterEnd       // some period has startMonth > endMonth
    | OverlappingPeriods  // a sorted period ends after the next one starts

  datatype Option<T> = None | Some(value: T)

  datatype Result<T> = Ok(value: T) | Err(error: PlanError)

  /** Outcome of validateMonth: it returns normally or throws. */
  datatype Outcome = Pass | Fail(error: PlanError)

  /** A constructed plan; both fields are readonly in the source. */
  datatype InvestmentPlan = InvestmentPlan(stock: Stock, periods: seq<InvestmentPeriod>)

  // ---------------------------------------------------------------------
  // Properties of period lists

  ghost predicate SortedByStart(ps: seq<InvestmentPeriod>) {
    forall i, j :: 0 <= i < j < |ps| ==> ps[i].startMonth <= ps[j].startMonth
  }

  ghost predicate NoInvertedPeriod(ps: seq<InvestmentPeriod>) {
    forall p :: p in ps ==> p.startMonth <= p.endMonth
  }

  /** Each period ends no later than the next one starts (touching allowed). */
  ghost predicate Chained(ps: seq<InvestmentPeriod>) {
    forall i :: 0 <= i < |ps| - 1 ==> ps[i].endMonth <= ps[i + 1].startMonth
  }

  /** What a successfully constructed plan's period list satisfies. */
  ghost predicate WellFormed(ps: seq<InvestmentPeriod>) {
    ps != [] && SortedByStart(ps) && NoInvertedPeriod(ps) && Chained(ps)
  }

  /** The periods of `ps` that start in month `k`, in their order in `ps`:
      a stable sort keeps each of these lists as it is. */
  function Ties(ps: seq<InvestmentPeriod>, k: int): seq<InvestmentPeriod> {
    if ps == [] then []
    else (if ps[0].startMonth == k then [ps[0]] else []) + Ties(ps[1..], k)
  }

  // ---------------------------------------------------------------------
  // The sort of the constructor: a stable sort by startMonth

  /** Places `x` in front of the first period of `s` that starts no earlier
      than `x`, so `x` stays ahead of the ties that followed it in the input. */
  function Insert(x: InvestmentPeriod, s: seq<InvestmentPeriod>): seq<InvestmentPeriod> {
    if s == [] || x.startMonth <= s[0].startMonth then [x] + s
    else [s[0]] + Insert(x, s[1..])
  }

  /** `[...periods].sort((a, b) => a.startMonth - b.startMonth)`: a sorted
      copy of the caller's list, stable as Array.prototype.sort is. */
  function SortByStart(ps: seq<InvestmentPeriod>): seq<InvestmentPeriod> {
    if ps == [] then [] else Insert(ps[0], SortByStart(ps[1..]))
  }

  lemma TiesCons(e: InvestmentPeriod, s: seq<InvestmentPeriod>, k: int)
    ensures Ties([e] + s, k) == (if e.startMonth == k then [e] else []) + Ties(s, k)
  {
    assert ([e] + s)[1..] == s;
  }

  /** Inserting adds exactly the one period. */
  lemma {:induction false} InsertAddsOne(x: InvestmentPeriod, s: seq<InvestmentPeriod>)
    ensures multiset(Insert(x, s)) == multiset(s) + multiset{x}
  {
    if s != [] && x.startMonth > s[0].startMonth {
      InsertAddsOne(x, s[1..]);
      assert s == [s[0]] + s[1..];
    }
  }

  /** A lower bound on the start months of `x` and of `s` bounds the start
      months of their insertion. */
  lemma {:induction false} InsertBound(x: InvestmentPeriod, s: seq<InvestmentPeriod>, b: int)
    requires x.startMonth >= b
    requires forall i :: 0 <= i < |s| ==> s[i].startMonth >= b
    ensures forall i :: 0 <= i < |Insert(x, s)| ==> Insert(x, s)[i].startMonth >= b
  {
    if s != [] && x.startMonth > s[0].startMonth {
      InsertBound(x, s[1..], b);
    }
  }

  /** Inserting into a sorted list keeps it sorted. */
  lemma {:induction false} InsertKeepsOrder(x: InvestmentPeriod, s: seq<InvestmentPeriod>)
    requires SortedByStart(s)
    ensures SortedByStart(Insert(x, s))
  {
    if s != [] && x.startMonth > s[0].startMonth {
      var t := Insert(x, s[1..]);
      InsertKeepsOrder(x, s[1..]);
      InsertBound(x, s[1..], s[0].startMonth);
      var u := [s[0]] + t;
      assert Insert(x, s) == u;
      forall i, j | 0 <= i < j < |u| ensures u[i].startMonth <= u[j].startMonth {
        if i > 0 {
          assert u[i] == t[i - 1] && u[j] == t[j - 1];
        }
      }
    }
  }

  lemma {:induction false} InsertTies(x: InvestmentPeriod, s: seq<InvestmentPeriod>, k: int)
    ensures Ties(Insert(x, s), k) == (if x.startMonth == k then [x] else []) + Ties(s, k)
  {
    if s == [] || x.startMonth <= s[0].startMonth {
      TiesCons(x, s, k);
    } else {
      InsertTies(x, s[1..], k);
      TiesCons(s[0], Insert(x, s[1..]), k);
      TiesCons(s[0], s[1..], k);
      assert s == [s[0]] + s[1..];
    }
  }

  /** The sort returns a permutation of its input, sorted by start month,
      in which the periods sharing a start month keep their input order. */
  lemma {:induction false} SortByStartSpec(ps: seq<InvestmentPeriod>)
    ensures SortedByStart(SortByStart(ps))
    ensures multiset(SortByStart(ps)) == multiset(ps)
    ensures forall k :: Ties(SortByStart(ps), k) == Ties(ps, k)
  {
    if ps != [] {
      SortByStartSpec(ps[1..]);
      InsertKeepsOrder(ps[0], SortByStart(ps[1..]));
      InsertAddsOne(ps[0], SortByStart(ps[1..]));
      assert ps == [ps[0]] + ps[1..];
      forall k ensures Ties(SortByStart(ps), k) == Ties(ps, k) {
        InsertTies(ps[0], SortByStart(ps[1..]), k);
        TiesCons(ps[0], ps[1..], k);
      }
    }
  }

  // ---------------------------------------------------------------------
  // validateMonth

  /** The `forEach` pass: true exactly when some period starts after it ends. */
  function HasInvertedPeriod(ps: seq<InvestmentPeriod>): (b: bool)
    ensures b <==> !NoInvertedPeriod(ps)
  {
    if ps == [] then false
    else ps[0].startMonth > ps[0].endMonth || HasInvertedPeriod(ps[1..])
  }

  /** The `reduce` pass, with the accumulator `prev` (null at first): true
      exactly when no period ends after the next one starts. */
  function NoOverlapFrom(prev: Option<InvestmentPeriod>, ps: seq<InvestmentPeriod>): (ok: bool)
    ensures ok <==> (prev.Some? && ps != [] ==> prev.value.endMonth <= ps[0].startMonth) && Chained(ps)
    decreases |ps|
  {
    if ps == [] then true
    else if prev.Some? && prev.value.endMonth > ps[0].startMonth then false
    else NoOverlapFrom(Some(ps[0]), ps[1..])
  }

  /** validateMonth: the three checks in the order the source makes them. */
  function ValidateMonth(ps: seq<InvestmentPeriod>): (r: Outcome)
    ensures r == Fail(NoInvestPlan) <==> ps == []
    ensures r == Fail(StartAfterEnd) <==> ps != [] && !NoInvertedPeriod(ps)
    ensures r == Fail(OverlappingPeriods) <==> ps != [] && NoInvertedPeriod(ps) && !Chained(ps)
    ensures r == Pass <==> ps != [] && NoInvertedPeriod(ps) && Chained(ps)
  {
    if |ps| == 0 then Fail(NoInvestPlan)
    else if HasInvertedPeriod(ps) then Fail(StartAfterEnd)
    else if !NoOverlapFrom(None, ps) then Fail(OverlappingPeriods)
    else Pass
  }

  /** `new InvestmentPlan(stock, periods)`: sorts a copy of the periods and
      validates it; the amounts are not filtered here. */
  function NewPlan(stock: Stock, periods: seq<InvestmentPeriod>): (r: Result<InvestmentPlan>)
    ensures periods == [] ==> r == Err(NoInvestPlan)
    ensures periods != [] && !NoInvertedPeriod(periods) ==> r == Err(StartAfterEnd)
    ensures r == Err(OverlappingPeriods) <==>
              periods != [] && NoInvertedPeriod(periods) && !Chained(SortByStart(periods))
    ensures r.Ok? <==> periods != [] && NoInvertedPeriod(periods) && Chained(SortByStart(periods))
    ensures r.Ok? ==> r.value == InvestmentPlan(stock, SortByStart(periods))
    ensures r.Ok? ==> WellFormed(r.value.periods)
    ensures r.Ok? ==> multiset(r.value.periods) == multiset(periods)
    ensures r.Ok? ==> forall k :: Ties(r.value.periods, k) == Ties(periods, k)
  {
    var sorted := SortByStart(periods);
    SortByStartSpec(periods);
    assert |sorted| == |multiset(sorted)| == |multiset(periods)| == |periods|;
    assert forall p :: p in sorted <==> p in periods by {
      forall p ensures p in sorted <==> p in periods {
        assert p in sorted <==> p in multiset(sorted);
        assert p in periods <==> p in multiset(periods);
      }
    }
    match ValidateMonth(sorted)
    case Pass => Ok(InvestmentPlan(stock, sorted))
    case Fail(e) => Err(e)
  }

  // ---------------------------------------------------------------------
  // Consequences for constructed plans

  /** In a constructed plan every period ends no later than any later period
      starts, not only the next one. */
  lemma {:induction false} ChainedSpansPlan(ps: seq<InvestmentPeriod>, i: int, j: int)
    requires NoInvertedPeriod(ps) && Chained(ps)
    requires 0 <= i < j < |ps|
    ensures ps[i].endMonth <= ps[j].startMonth
  {
    if i + 1 < j {
      ChainedSpansPlan(ps, i, j - 1);
      assert ps[j - 1] in ps;
    }
  }

  /** The order of periods that start in the same month decides the outcome:
      the same two periods pass in one input order and fail in the other. */
  lemma TieOrderDecidesOverlap()
    ensures var short := InvestmentPeriod(100.0, 5, 5);
            var long := InvestmentPeriod(100.0, 5, 9);
            var stock := Stock("", 0.0, 0.0);
            NewPlan(stock, [short, long]).Ok? &&
            NewPlan(stock, [long, short]) == Err(OverlappingPeriods)
  {
    var short := InvestmentPeriod(100.0, 5, 5);
    var long := InvestmentPeriod(100.0, 5, 9);
    SortPair(short, long);
    SortPair(long, short);
  }

  /** Two periods already in start order sort to themselves. */
  lemma SortPair(a: InvestmentPeriod, b: InvestmentPeriod)
    requires a.startMonth <= b.startMonth
    ensures SortByStart([a, b]) == [a, b]
  {
    assert [a, b][1..] == [b];
    assert [b][1..] == [];
    assert SortByStart([b]) == [b];
    assert Insert(a, [b]) == [a, b];
  }

  /** Periods that touch (one ends in the month the next starts) are accepted;
      periods that overlap by more are refused, as is an inverted period. */
  lemma TouchingAcceptedOverlapRefused()
    ensures var stock := Stock("", 0.0, 0.0);
            NewPlan(stock, [InvestmentPeriod(100.0, 1, 12), InvestmentPeriod(200.0, 12, 24)]).Ok? &&
            NewPlan(stock, [InvestmentPeriod(100.0, 1, 12), InvestmentPeriod(200.0, 6, 18)]) == Err(OverlappingPeriods) &&
            NewPlan(stock, [InvestmentPeriod(100.0, 5, 3)]) == Err(StartAfterEnd) &&
            NewPlan(stock, [InvestmentPeriod(0.0, 1, 1)]).Ok?
  {
    var a := InvestmentPeriod(100.0, 1, 12);
    var b := InvestmentPeriod(200.0, 12, 24);
    var c := InvestmentPeriod(200.0, 6, 18);
    SortPair(a, b);
    SortPair(a, c);
    assert InvestmentPeriod(100.0, 5, 3) in [InvestmentPeriod(100.0, 5, 3)];
  }
}
