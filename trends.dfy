/** calcInvestmentTrends of src/main.ts: the running total of a constant
    monthly contribution, month by month. */
module Trends {
  import opened Schedule

  /** Entry i is `investment * (i + 1)`, which is what i + 1 equal
      contributions of `investment` add up to. */
  method CalcInvestmentTrends(investment: real, durationMonth: int) returns (investmentTrends: seq<real>)
    ensures |investmentTrends| == if durationMonth < 1 then 0 else durationMonth
    ensures forall i :: 0 <= i < |investmentTrends| ==>
              investmentTrends[i] == investment * (i + 1) as real &&
              investmentTrends[i] == Sum(seq(i + 1, _ => investment))
  {
    investmentTrends := [];
    var month := 1;
    while month <= durationMonth
      invariant 1 <= month
      invariant |investmentTrends| == month - 1
      invariant month <= (if durationMonth < 1 then 1 else durationMonth + 1)
      invariant forall i :: 0 <= i < |investmentTrends| ==>
                  investmentTrends[i] == investment * (i + 1) as real &&
                  investmentTrends[i] == Sum(seq(i + 1, _ => investment))
    {
      ConstantSum(investment, month);
      investmentTrends := investmentTrends + [investment * month as real];
      month := month + 1;
    }
  }

  /** n equal contributions of `x` add up to `x * n`. */
  lemma {:induction false} ConstantSum(x: real, n: nat)
    ensures Sum(seq(n, _ => x)) == x * n as real
  {
    if n > 0 {
      ConstantSum(x, n - 1);
      assert seq(n, _ => x)[..n - 1] == seq(n - 1, _ => x);
      assert x * (n - 1) as real + x == x * n as real;
    }
  }
}
