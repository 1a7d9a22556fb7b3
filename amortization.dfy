/** The French (constant-payment) schedule as exact arithmetic: the
    reference definition that the schedule loops of
    src/ArtemisBanking.Infrastructure.Persistence/Services/LoanService.cs
    (`GenerateFrenchSchedule`, `RecalculateFrenchScheduleFrom`) are proved
    against. The constant payment is an input: how the source computes it
    in floating point plays no part in these facts. */
module Amortization {
  import opened Common

  /** One period, unrounded: the payment, its capital and interest parts, and
      the balance left after it. */
  datatype Period = Period(payment: real, capital: real, interest: real, remaining: real)

  /** The balance owed before period `k` (counting from 0) once `k` regular
      periods have been paid: each regular period charges `balance * rate`
      and repays `payment - balance * rate`. */
  function BalanceBefore(principal: real, rate: real, payment: real, k: nat): real
  {
    if k == 0 then principal
    else
      var prev := BalanceBefore(principal, rate, payment, k - 1);
      prev - (payment - prev * rate)
  }

  /** One period on an opening `balance`: it charges `balance * rate`; a
      regular period pays `payment`, and the last one repays the whole
      balance plus its interest. */
  function PeriodStep(balance: real, rate: real, payment: real, last: bool): Period
  {
    var interest := balance * rate;
    if last then Period(balance + interest, balance, interest, balance - balance)
    else Period(payment, payment - interest, interest, balance - (payment - interest))
  }

  /** Period `k` of an `n`-period schedule. */
  function PeriodAt(principal: real, rate: real, payment: real, n: nat, k: nat): Period
    requires k < n
  {
    PeriodStep(BalanceBefore(principal, rate, payment, k), rate, payment, k == n - 1)
  }

  function Schedule(principal: real, rate: real, payment: real, n: nat): (s: seq<Period>)
    ensures |s| == n
  {
    seq(n, k requires 0 <= k < n => PeriodAt(principal, rate, payment, n, k))
  }

  function Capitals(s: seq<Period>): (c: seq<real>)
    ensures |c| == |s| && forall k :: 0 <= k < |s| ==> c[k] == s[k].capital
  {
    seq(|s|, k requires 0 <= k < |s| => s[k].capital)
  }

  /** Each period's payment is its capital plus its interest; the interest is
      the rate applied to the balance before it; periods chain, each one's
      remaining balance being the next one's opening balance; every period
      but the last pays the given payment; the last leaves exactly 0. */
  lemma PeriodFacts(principal: real, rate: real, payment: real, n: nat, k: nat)
    requires k < n
    ensures var p := PeriodAt(principal, rate, payment, n, k);
      && p.payment == p.capital + p.interest
      && p.interest == BalanceBefore(principal, rate, payment, k) * rate
      && (k < n - 1 ==> p.payment == payment
                        && p.remaining == BalanceBefore(principal, rate, payment, k + 1))
      && (k == n - 1 ==> p.remaining == 0.0 && p.capital == BalanceBefore(principal, rate, payment, k))
  {
  }

  /** The capital repaid by the first `k` regular periods is the principal
      less the balance still owed. */
  lemma {:induction false} CapitalPrefix(principal: real, rate: real, payment: real, n: nat, k: nat)
    requires k < n
    ensures Sum(Capitals(Schedule(principal, rate, payment, n))[..k])
            == principal - BalanceBefore(principal, rate, payment, k)
    decreases k
  {
    var c := Capitals(Schedule(principal, rate, payment, n));
    if k > 0 {
      CapitalPrefix(principal, rate, payment, n, k - 1);
      assert c[..k][..k - 1] == c[..k - 1];
      assert c[..k][k - 1] == PeriodAt(principal, rate, payment, n, k - 1).capital;
    }
  }

  /** The unrounded capital portions of a schedule telescope to the
      principal: the loan is repaid exactly. */
  lemma {:induction false} CapitalTelescopes(principal: real, rate: real, payment: real, n: nat)
    requires n >= 1
    ensures Sum(Capitals(Schedule(principal, rate, payment, n))) == principal
  {
    var c := Capitals(Schedule(principal, rate, payment, n));
    CapitalPrefix(principal, rate, payment, n, n - 1);
    assert c[..n][..n - 1] == c[..n - 1];
    assert c == c[..n];
  }

  /** Whatever the payment, the schedule's last balance is exactly 0, so its
      stored (rounded) value is 0 as well. */
  lemma LastPeriodClears(principal: real, rate: real, payment: real, n: nat)
    requires n >= 1
    ensures Schedule(principal, rate, payment, n)[n - 1].remaining == 0.0
    ensures Round2(Schedule(principal, rate, payment, n)[n - 1].remaining) == 0.0
  {
    RoundWholeCents(0.0);
  }

  function RoundAll(s: seq<real>): (r: seq<real>)
    ensures |r| == |s| && forall k :: 0 <= k < |s| ==> r[k] == Round2(s[k])
  {
    seq(|s|, k requires 0 <= k < |s| => Round2(s[k]))
  }

  /** Rounding each of `n` amounts to the cent moves their sum by at most
      `n` half-cents. */
  lemma {:induction false} RoundedSumError(s: seq<real>)
    ensures -0.005 * |s| as real <= Sum(RoundAll(s)) - Sum(s) <= 0.005 * |s| as real
    decreases |s|
  {
    if s != [] {
      var init := s[..|s| - 1];
      RoundedSumError(init);
      assert RoundAll(s)[..|s| - 1] == RoundAll(init);
    }
  }

  /** The stored (rounded) capital portions of an `n`-period schedule add up
      to the principal within `n` half-cents. */
  lemma StoredCapitalNearPrincipal(principal: real, rate: real, payment: real, n: nat)
    requires n >= 1
    ensures var stored := Sum(RoundAll(Capitals(Schedule(principal, rate, payment, n))));
      -0.005 * n as real <= stored - principal <= 0.005 * n as real
  {
    CapitalTelescopes(principal, rate, payment, n);
    RoundedSumError(Capitals(Schedule(principal, rate, payment, n)));
  }
}
