/** The loan service
    (src/ArtemisBanking.Infrastructure.Persistence/Services/LoanService.cs):
    the schedule loops, the rate change that recalculates the unpaid tail
    and the overdue sweep. */
module LoanService {
  import opened Common
  import opened Results
  import opened Users
  import opened Savings
  import opened Loans
  import opened Amortization
  import opened Persistence

  /* ------------- The schedule loops ------------- */

  /** `AnnualInterestRate / 12m / 100m`. */
  function MonthlyRate(annualRate: real): real
  {
    annualRate / 12.0 / 100.0
  }

  /** The installment stored for one period: every amount rounded to the cent. */
  function StoredRecord(loanId: Guid, number: int, due: Date, p: Period): InstallmentRecord
  {
    InstallmentRecord(loanId, number, due, Round2(p.payment), Round2(p.capital), Round2(p.interest),
                      Round2(p.remaining), Pending)
  }

  /** What the installment constructor throws for one stored period, if anything. */
  function PeriodError(loanId: Guid, number: int, p: Period): Option<Exception>
  {
    InstallmentError(loanId, number, Round2(p.payment), Round2(p.capital), Round2(p.interest), Round2(p.remaining))
  }

  /** The index of the first period, from `j` on, whose installment the
      constructor rejects when numbering starts after `base`; `|rows|` when
      it accepts all of them. */
  function FirstRejected(loanId: Guid, base: nat, rows: seq<Period>, j: nat): (k: nat)
    requires j <= |rows|
    ensures j <= k <= |rows|
    decreases |rows| - j
  {
    if j == |rows| then j
    else if PeriodError(loanId, base + j + 1, rows[j]).Some? then j
    else FirstRejected(loanId, base, rows, j + 1)
  }

  /** Every period before the first rejected one is accepted, and the first
      rejected one, if any, is rejected. */
  lemma {:induction false} FirstRejectedSpec(loanId: Guid, base: nat, rows: seq<Period>, j: nat)
    requires j <= |rows|
    ensures var k := FirstRejected(loanId, base, rows, j);
      && (forall i :: j <= i < k ==> PeriodError(loanId, base + i + 1, rows[i]).None?)
      && (k < |rows| ==> PeriodError(loanId, base + k + 1, rows[k]).Some?)
    decreases |rows| - j
  {
    if j < |rows| && PeriodError(loanId, base + j + 1, rows[j]).None? {
      FirstRejectedSpec(loanId, base, rows, j + 1);
    }
  }

  /** Once the search from `j` is known to pass `i`, an accepted period `i`
      lets it pass `i + 1`. */
  lemma {:induction false} FirstRejectedPasses(loanId: Guid, base: nat, rows: seq<Period>, j: nat, i: nat)
    requires j <= i < |rows| && FirstRejected(loanId, base, rows, j) >= i
    requires PeriodError(loanId, base + i + 1, rows[i]).None?
    ensures FirstRejected(loanId, base, rows, j) >= i + 1
    decreases i - j
  {
    if j < i {
      FirstRejectedPasses(loanId, base, rows, j + 1, i);
    }
  }

  /** Once the search from `j` is known to pass `i`, a rejected period `i`
      is where it stops. */
  lemma {:induction false} FirstRejectedStops(loanId: Guid, base: nat, rows: seq<Period>, j: nat, i: nat)
    requires j <= i < |rows| && FirstRejected(loanId, base, rows, j) >= i
    requires PeriodError(loanId, base + i + 1, rows[i]).Some?
    ensures FirstRejected(loanId, base, rows, j) == i
    decreases i - j
  {
    if j < i {
      FirstRejectedStops(loanId, base, rows, j + 1, i);
    }
  }

  /** `installs` holds `base` earlier installments followed by the stored
      records of the first `k` periods of `rows`, numbered `base + 1` on and
      due monthly from `firstDue`. */
  predicate AppendedSchedule(installs: seq<LoanInstallment>, base: nat, loanId: Guid, rows: seq<Period>,
                             firstDue: Date, k: nat)
    reads installs
  {
    && k <= |rows|
    && |installs| == base + k
    && forall j :: 0 <= j < k ==>
         installs[base + j].Record() == StoredRecord(loanId, base + j + 1, AddMonths(firstDue, j), rows[j])
  }

  /** What appending the installments of `rows` after `base` others throws:
      the constructor's exception for the first period it rejects, if any. */
  function ScheduleOutcome(loanId: Guid, base: nat, rows: seq<Period>): Option<Exception>
  {
    var k := FirstRejected(loanId, base, rows, 0);
    if k < |rows| then PeriodError(loanId, base + k + 1, rows[k]) else None
  }

  function PositivePart(n: int): nat
  {
    if n > 0 then n else 0
  }

  /** `RecalculateFrenchScheduleFrom`: appends one installment per period of
      the exact schedule of `remainingCapital` at the loan's monthly rate,
      numbered from `Installments.Count + 1` and due monthly from
      `firstDueDate`. An installment the constructor rejects throws out of
      the loop, leaving the installments appended before it. */
  method RecalculateFrenchScheduleFrom(loan: Loan, remainingCapital: real, firstDueDate: Date,
                                       remainingPeriods: int, payment: real)
    returns (r: Option<Exception>)
    modifies loan`installments
    ensures var rows := Schedule(remainingCapital, MonthlyRate(loan.annualInterestRate), payment,
                                 PositivePart(remainingPeriods));
      var base := |old(loan.installments)|;
      var k := FirstRejected(loan.id, base, rows, 0);
      && AppendedSchedule(loan.installments, base, loan.id, rows, firstDueDate, k)
      && loan.installments[..base] == old(loan.installments)
      && (forall j :: base <= j < |loan.installments| ==> fresh(loan.installments[j]))
      && r == ScheduleOutcome(loan.id, base, rows)
  {
    var monthlyRate := MonthlyRate(loan.annualInterestRate);
    ghost var n := PositivePart(remainingPeriods);
    ghost var rows := Schedule(remainingCapital, monthlyRate, payment, n);
    ghost var base := |loan.installments|;
    var pay := payment;
    var remaining := remainingCapital;
    var i := 0;
    while i < remainingPeriods
      invariant 0 <= i <= n
      invariant i < n ==> remaining == BalanceBefore(remainingCapital, monthlyRate, payment, i) && pay == payment
      invariant AppendedSchedule(loan.installments, base, loan.id, rows, firstDueDate, i)
      invariant loan.installments[..base] == old(loan.installments)
      invariant FirstRejected(loan.id, base, rows, 0) >= i
      invariant forall j :: base <= j < |loan.installments| ==> fresh(loan.installments[j])
    {
      var installmentNumber := |loan.installments| + 1;
      var period := NextPeriod(remaining, monthlyRate, pay, i == remainingPeriods - 1,
                               remainingCapital, payment, n, i);
      pay, remaining := period.payment, period.remaining;
      var e := AppendInstallment(loan, installmentNumber, AddMonths(firstDueDate, i), period,
                                 base, rows, firstDueDate, i);
      if e.Some? {
        FirstRejectedStops(loan.id, base, rows, 0, i);
        return e;
      }
      FirstRejectedPasses(loan.id, base, rows, 0, i);
      i := i + 1;
    }
    r := None;
  }

  /** One turn of the loop's arithmetic on the balance still owed: the
      interest is `remaining * monthlyRate`, the capital part is the payment
      less the interest, and in the last period the capital part is the
      whole balance and the payment is raised to cover it. Taken on the
      balance owed before period `k`, it computes period `k` of the schedule
      and leaves the balance owed before period `k + 1`. */
  method NextPeriod(remaining: real, monthlyRate: real, pay: real, isLast: bool,
                    ghost principal: real, ghost payment: real, ghost n: nat, ghost k: nat)
    returns (p: Period)
    requires k < n && isLast == (k == n - 1)
    requires remaining == BalanceBefore(principal, monthlyRate, payment, k) && pay == payment
    ensures p == Schedule(principal, monthlyRate, payment, n)[k]
    ensures !isLast ==> p.remaining == BalanceBefore(principal, monthlyRate, payment, k + 1) && p.payment == payment
  {
    StepIsPeriod(principal, monthlyRate, payment, n, k);
    var pmt := pay;
    var interest := remaining * monthlyRate;
    var capitalPortion := pmt - interest;
    if isLast {
      capitalPortion := remaining;
      pmt := capitalPortion + interest;
    }
    p := Period(pmt, capitalPortion, interest, remaining - capitalPortion);
  }

  /** Creates the installment of period `k`, every amount rounded to the
      cent, and appends it; a rejected installment throws before anything is
      appended. */
  method AppendInstallment(loan: Loan, number: int, due: Date, p: Period,
                           ghost base: nat, ghost rows: seq<Period>, ghost firstDue: Date, ghost k: nat)
    returns (e: Option<Exception>)
    requires AppendedSchedule(loan.installments, base, loan.id, rows, firstDue, k) && k < |rows|
    requires p == rows[k] && number == base + k + 1 && due == AddMonths(firstDue, k)
    modifies loan`installments
    ensures e == PeriodError(loan.id, number, p)
    ensures e.Some? ==> loan.installments == old(loan.installments)
    ensures e.None? ==>
      && AppendedSchedule(loan.installments, base, loan.id, rows, firstDue, k + 1)
      && loan.installments[..base] == old(loan.installments)[..base]
      && loan.installments[..base + k] == old(loan.installments)
      && fresh(loan.installments[base + k])
  {
    var created := LoanInstallment.Create(loan.id, number, due, Round2(p.payment), Round2(p.capital),
                                          Round2(p.interest), Round2(p.remaining));
    if created.Throws? {
      return Some(created.error);
    }
    AppendKeepsSchedule(loan.installments, base, loan.id, rows, firstDue, k, created.value);
    loan.installments := loan.installments + [created.value];
    e := None;
  }

  /** Period `k` of the schedule is the step taken on the balance owed
      before it, and a regular period leaves the balance owed before the
      next. */
  lemma StepIsPeriod(principal: real, rate: real, payment: real, n: nat, k: nat)
    requires k < n
    ensures var step := PeriodStep(BalanceBefore(principal, rate, payment, k), rate, payment, k == n - 1);
      && Schedule(principal, rate, payment, n)[k] == step
      && (k < n - 1 ==> step.remaining == BalanceBefore(principal, rate, payment, k + 1))
  {
  }

  lemma AppendKeepsSchedule(installs: seq<LoanInstallment>, base: nat, loanId: Guid, rows: seq<Period>,
                            firstDue: Date, k: nat, x: LoanInstallment)
    requires AppendedSchedule(installs, base, loanId, rows, firstDue, k) && k < |rows|
    requires x.Record() == StoredRecord(loanId, base + k + 1, AddMonths(firstDue, k), rows[k])
    ensures AppendedSchedule(installs + [x], base, loanId, rows, firstDue, k + 1)
    ensures (installs + [x])[..base] == installs[..base]
  {
    var t := installs + [x];
    forall j | 0 <= j < k + 1
      ensures t[base + j].Record() == StoredRecord(loanId, base + j + 1, AddMonths(firstDue, j), rows[j])
    {
      if j < k { assert t[base + j] == installs[base + j]; }
    }
  }

  /** `GenerateFrenchSchedule`: clears the installments and lays out the
      whole schedule of the loan's capital over its term, installment `i`
      (from 1) due `i - 1` months after the month following `today`. Its
      loop is the recalculation loop started on an empty list, where
      `Installments.Count + 1` is the loop counter `i`. */
  method GenerateFrenchSchedule(loan: Loan, today: Date, payment: real) returns (r: Option<Exception>)
    modifies loan`installments
    ensures var rows := Schedule(loan.capital, MonthlyRate(loan.annualInterestRate), payment,
                                 PositivePart(loan.termInMonths));
      && AppendedSchedule(loan.installments, 0, loan.id, rows, AddMonths(today, 1), FirstRejected(loan.id, 0, rows, 0))
      && (forall j :: 0 <= j < |loan.installments| ==> fresh(loan.installments[j]))
      && r == ScheduleOutcome(loan.id, 0, rows)
  {
    loan.installments := [];
    r := RecalculateFrenchScheduleFrom(loan, loan.capital, AddMonths(today, 1), loan.termInMonths, payment);
  }

  /** A schedule of `n` periods laid out after `base` earlier installments
      has installments numbered `base + 1` to `base + n`, the j-th due j
      months after the first, all Pending, whose stored last balance is 0 and
      whose stored capital portions add up to the principal within n
      half-cents. */
  lemma {:induction false} ScheduleFacts(installs: seq<LoanInstallment>, base: nat, loanId: Guid, principal: real,
                                         rate: real, payment: real, n: nat, firstDue: Date)
    requires n >= 1
    requires AppendedSchedule(installs, base, loanId, Schedule(principal, rate, payment, n), firstDue, n)
    ensures |installs| == base + n
    ensures forall j :: 0 <= j < n ==>
              installs[base + j].installmentNumber == base + j + 1
              && installs[base + j].dueDate == AddMonths(firstDue, j)
              && installs[base + j].status == Pending
    ensures installs[base + n - 1].remainingBalance == 0.0
    ensures var stored := Sum(StoredCapitals(installs[base..]));
      -0.005 * n as real <= stored - principal <= 0.005 * n as real
  {
    var rows := Schedule(principal, rate, payment, n);
    assert installs[base + (n - 1)].Record()
           == StoredRecord(loanId, base + (n - 1) + 1, AddMonths(firstDue, n - 1), rows[n - 1]);
    LastPeriodClears(principal, rate, payment, n);
    assert StoredCapitals(installs[base..]) == RoundAll(Capitals(rows)) by {
      forall j | 0 <= j < n ensures StoredCapitals(installs[base..])[j] == RoundAll(Capitals(rows))[j] {
        assert installs[base + j].Record() == StoredRecord(loanId, base + j + 1, AddMonths(firstDue, j), rows[j]);
      }
    }
    StoredCapitalNearPrincipal(principal, rate, payment, n);
  }

  /** The capital portions of a list of installments, in list order. */
  function StoredCapitals(s: seq<LoanInstallment>): (c: seq<real>)
    ensures |c| == |s| && forall k :: 0 <= k < |s| ==> c[k] == s[k].capitalPortion
  {
    seq(|s|, k requires 0 <= k < |s| => s[k].capitalPortion)
  }

  /* ------------- The rate change ------------- */

  lemma StoredCapitalsAppend(u: seq<LoanInstallment>, v: seq<LoanInstallment>)
    ensures StoredCapitals(u + v) == StoredCapitals(u) + StoredCapitals(v)
  {
  }

  /** The Paid installments, in list order. */
  function PaidOf(s: seq<LoanInstallment>): (r: seq<LoanInstallment>)
    reads s
    ensures |r| <= |s|
    decreases |s|
  {
    if s == [] then []
    else PaidOf(s[..|s| - 1]) + (if s[|s| - 1].status == Paid then [s[|s| - 1]] else [])
  }

  /** The installments not yet Paid (Pending or Overdue), in list order. */
  function UnpaidOf(s: seq<LoanInstallment>): (r: seq<LoanInstallment>)
    reads s
    ensures |r| <= |s|
    decreases |s|
  {
    if s == [] then []
    else UnpaidOf(s[..|s| - 1]) + (if s[|s| - 1].status != Paid then [s[|s| - 1]] else [])
  }

  /** The Paid list holds exactly the Paid installments, the unpaid list
      exactly the others. */
  lemma {:induction false} FilterMembers(s: seq<LoanInstallment>)
    ensures forall i :: 0 <= i < |PaidOf(s)| ==> PaidOf(s)[i] in s && PaidOf(s)[i].status == Paid
    ensures forall i :: 0 <= i < |UnpaidOf(s)| ==> UnpaidOf(s)[i] in s && UnpaidOf(s)[i].status != Paid
    ensures forall i :: 0 <= i < |s| ==> (s[i] in PaidOf(s) <==> s[i].status == Paid)
    ensures forall i :: 0 <= i < |s| ==> (s[i] in UnpaidOf(s) <==> s[i].status != Paid)
    decreases |s|
  {
    if s != [] {
      var init, x := s[..|s| - 1], s[|s| - 1];
      FilterMembers(init);
      assert forall i :: 0 <= i < |init| ==> s[i] == init[i];
    }
  }

  /** Every installment is either Paid or not, so the two lists together are
      as long as the installments. */
  lemma {:induction false} PaidUnpaidCount(s: seq<LoanInstallment>)
    ensures |PaidOf(s)| + |UnpaidOf(s)| == |s|
    decreases |s|
  {
    if s != [] {
      PaidUnpaidCount(s[..|s| - 1]);
    }
  }

  /** Every installment is either Paid or not: the two lists split the
      installments between them. */
  lemma {:induction false} PaidUnpaidPartition(s: seq<LoanInstallment>)
    ensures |PaidOf(s)| + |UnpaidOf(s)| == |s|
    ensures multiset(PaidOf(s)) + multiset(UnpaidOf(s)) == multiset(s)
    decreases |s|
  {
    if s != [] {
      var init, x := s[..|s| - 1], s[|s| - 1];
      PaidUnpaidPartition(init);
      assert multiset(s) == multiset(init) + multiset{x} by { assert s == init + [x]; }
      if x.status == Paid {
        assert PaidOf(s) == PaidOf(init) + [x] && UnpaidOf(s) == UnpaidOf(init);
      } else {
        assert PaidOf(s) == PaidOf(init) && UnpaidOf(s) == UnpaidOf(init) + [x];
      }
    }
  }

  /** The capital already repaid: the capital portions of the Paid installments. */
  function PaidCapital(s: seq<LoanInstallment>): real
    reads s
  {
    Sum(StoredCapitals(PaidOf(s)))
  }

  predicate SortedByNumber(s: seq<LoanInstallment>)
  {
    forall i, j :: 0 <= i < j < |s| ==> s[i].installmentNumber <= s[j].installmentNumber
  }

  /** A bound below `x` and every installment of `t` is a bound below any
      arrangement of them. */
  lemma LowerBoundKept(lo: int, x: LoanInstallment, t: seq<LoanInstallment>, r: seq<LoanInstallment>)
    requires multiset(r) == multiset(t) + multiset{x}
    requires lo <= x.installmentNumber
    requires forall k :: 0 <= k < |t| ==> lo <= t[k].installmentNumber
    ensures forall i :: 0 <= i < |r| ==> lo <= r[i].installmentNumber
  {
    forall i | 0 <= i < |r| ensures lo <= r[i].installmentNumber {
      assert r[i] in multiset(r);
      if r[i] != x {
        assert r[i] in multiset(t);
        var k :| 0 <= k < |t| && t[k] == r[i];
      }
    }
  }

  /** Inserts `x` before the first installment numbered at or above it. */
  function InsertByNumber(x: LoanInstallment, t: seq<LoanInstallment>): (r: seq<LoanInstallment>)
    requires SortedByNumber(t)
    ensures SortedByNumber(r) && multiset(r) == multiset(t) + multiset{x}
    decreases |t|
  {
    if t == [] || x.installmentNumber <= t[0].installmentNumber then [x] + t
    else
      var rest := InsertByNumber(x, t[1..]);
      assert multiset(t) == multiset{t[0]} + multiset(t[1..]) by { assert t == [t[0]] + t[1..]; }
      LowerBoundKept(t[0].installmentNumber, x, t[1..], rest);
      [t[0]] + rest
  }

  /** `OrderBy(i => i.InstallmentNumber)`: a sort on the number. */
  function SortByNumber(s: seq<LoanInstallment>): (r: seq<LoanInstallment>)
    ensures SortedByNumber(r) && multiset(r) == multiset(s) && |r| == |s|
    decreases |s|
  {
    if s == [] then []
    else
      assert multiset(s) == multiset{s[0]} + multiset(s[1..]) by { assert s == [s[0]] + s[1..]; }
      InsertByNumber(s[0], SortByNumber(s[1..]))
  }

  const NewRateNotPositive := "La nueva tasa anual debe ser mayor que cero."
  const LoanNotFound := "Préstamo no encontrado."
  const LoanNotActive := "Solo se pueden modificar préstamos activos."
  const NothingToRecalculate := "No hay cuotas pendientes para recalcular."
  const LoanLostAfterRateChange := "Préstamo no encontrado después de actualizar la tasa."

  /** The failure `UpdateAnnualRateAsync` returns before it changes anything,
      checks taken in the source's order: the rate, the loan's existence,
      its status, and whether any installment is left unpaid. */
  function RateChangeRejection(newAnnualRate: real, found: bool, status: LoanStatus, unpaid: nat): (r: Option<string>)
    ensures r.None? <==> newAnnualRate > 0.0 && found && status == Activo && unpaid > 0
    ensures newAnnualRate <= 0.0 ==> r == Some(NewRateNotPositive)
    ensures newAnnualRate > 0.0 && !found ==> r == Some(LoanNotFound)
  {
    if newAnnualRate <= 0.0 then Some(NewRateNotPositive)
    else if !found then Some(LoanNotFound)
    else if status != Activo then Some(LoanNotActive)
    else if unpaid == 0 then Some(NothingToRecalculate)
    else None
  }

  /** Neither the rate nor the installment list of any loan has changed. */
  twostate predicate LoansUntouched(loans: seq<Loan>)
    reads loans
  {
    forall l :: l in loans ==> l.annualInterestRate == old(l.annualInterestRate) && l.installments == old(l.installments)
  }

  /** What a rate change computes from the installments before it: the Paid
      installments and the others, each in number order, and the exact
      schedule of the capital not yet repaid over as many periods as there
      are unpaid installments. */
  datatype RatePlan = RatePlan(paid: seq<LoanInstallment>, unpaid: seq<LoanInstallment>,
                               principal: real, rate: real, payment: real)
  {
    /** The exact schedule of the capital not yet repaid over as many
        periods as there are unpaid installments. */
    function Rows(): (rows: seq<Period>)
      ensures |rows| == |unpaid|
    {
      Schedule(principal, rate, payment, |unpaid|)
    }
  }

  function PlanRateChange(installs: seq<LoanInstallment>, capital: real, newAnnualRate: real,
                          payment: real): RatePlan
    reads installs
  {
    RatePlan(SortByNumber(PaidOf(installs)), SortByNumber(UnpaidOf(installs)),
             capital - PaidCapital(installs), MonthlyRate(newAnnualRate), payment)
  }

  /** `installs` is the plan carried out: the Paid installments first, then
      the recalculated installments up to the first one the constructor
      rejects, numbered on from the Paid ones and due monthly from the first
      unpaid installment's due date. */
  predicate Replanned(installs: seq<LoanInstallment>, loanId: Guid, plan: RatePlan)
    reads installs
  {
    && plan.unpaid != []
    && |plan.paid| <= |installs|
    && installs[..|plan.paid|] == plan.paid
    && AppendedSchedule(installs, |plan.paid|, loanId, plan.Rows(), plan.unpaid[0].dueDate,
                        FirstRejected(loanId, |plan.paid|, plan.Rows(), 0))
  }

  /** `Installments.Clear()` followed by adding `kept` back one by one. */
  method RestoreInstallments(loan: Loan, kept: seq<LoanInstallment>)
    modifies loan`installments
    ensures loan.installments == kept
  {
    loan.installments := [];
    for j := 0 to |kept|
      invariant loan.installments == kept[..j]
    {
      loan.installments := loan.installments + [kept[j]];
    }
  }

  /** The part of `UpdateAnnualRateAsync` after its checks: the loan takes
      the new rate, its list is cleared and refilled with the Paid
      installments in number order, and the unpaid tail is recalculated: the
      capital less the Paid capital portions, over as many periods as there
      were unpaid installments, due monthly from the earliest-numbered unpaid
      one. */
  method ReplaceUnpaidInstallments(loan: Loan, newAnnualRate: real, payment: real) returns (e: Option<Exception>)
    requires newAnnualRate > 0.0 && UnpaidOf(loan.installments) != []
    modifies loan`annualInterestRate, loan`installments
    ensures var plan := old(PlanRateChange(loan.installments, loan.capital, newAnnualRate, payment));
      && loan.annualInterestRate == newAnnualRate
      && Replanned(loan.installments, loan.id, plan)
      && (forall j :: |plan.paid| <= j < |loan.installments| ==> fresh(loan.installments[j]))
      && e == ScheduleOutcome(loan.id, |plan.paid|, plan.Rows())
  {
    var paidCapital := PaidCapital(loan.installments);
    var remainingCapital := loan.capital - paidCapital;
    var remainingInstallments := SortByNumber(UnpaidOf(loan.installments));
    var paidInstallments := SortByNumber(PaidOf(loan.installments));
    var firstDueDate := remainingInstallments[0].dueDate;
    ghost var plan := PlanRateChange(loan.installments, loan.capital, newAnnualRate, payment);
    var _ := loan.UpdateAnnualInterestRate(newAnnualRate);
    RestoreInstallments(loan, paidInstallments);
    e := RecalculateFrenchScheduleFrom(loan, remainingCapital, firstDueDate, |remainingInstallments|, payment);
    assert Replanned(loan.installments, loan.id, plan);
  }

  /** `UpdateAnnualRateAsync`: a rejection changes nothing; otherwise the
      unpaid installments are replaced as `ReplaceUnpaidInstallments` says,
      an installment the constructor rejects escapes as an exception, and the
      loan detail is rebuilt, which fails only when the loan's owner is
      missing. No other loan changes. `payment` is the constant payment the
      source computes in floating point for the new rate. */
  method UpdateAnnualRate(db: BankingDb, loanId: Guid, newAnnualRate: real, payment: real) returns (r: Try<Result>)
    modifies db.loans`annualInterestRate, db.loans`installments
    ensures var found := FindLoan(db.loans, loanId);
      var rejection := RateChangeRejection(newAnnualRate, found.Some?, if found.Some? then found.value.status else Activo,
                                           if found.Some? then old(|UnpaidOf(found.value.installments)|) else 0);
      rejection.Some? ==> r == Ok(Failure(rejection.value)) && LoansUntouched(db.loans)
    ensures var found := FindLoan(db.loans, loanId);
      && newAnnualRate > 0.0 && found.Some? && found.value.status == Activo
      && old(UnpaidOf(found.value.installments)) != [] ==>
      var loan := found.value;
      var plan := old(PlanRateChange(loan.installments, loan.capital, newAnnualRate, payment));
      var outcome := ScheduleOutcome(loan.id, |plan.paid|, plan.Rows());
      && loan.annualInterestRate == newAnnualRate
      && Replanned(loan.installments, loan.id, plan)
      && (forall j :: |plan.paid| <= j < |loan.installments| ==> fresh(loan.installments[j]))
      && (forall l :: l in db.loans && l != loan ==>
            l.annualInterestRate == old(l.annualInterestRate) && l.installments == old(l.installments))
      && r == (if outcome.Some? then Throws(outcome.value)
               else if FindUser(db.users, loan.userId).None? then Ok(Failure(LoanLostAfterRateChange))
               else Ok(Success()))
  {
    if newAnnualRate <= 0.0 {
      return Ok(Failure(NewRateNotPositive));
    }
    var found := FindLoan(db.loans, loanId);
    if found.None? {
      return Ok(Failure(LoanNotFound));
    }
    var loan := found.value;
    if loan.status != Activo {
      return Ok(Failure(LoanNotActive));
    }
    if |UnpaidOf(loan.installments)| == 0 {
      return Ok(Failure(NothingToRecalculate));
    }
    var e := ReplaceUnpaidInstallments(loan, newAnnualRate, payment);
    if e.Some? {
      return Throws(e.value);
    }
    if FindUser(db.users, loan.userId).None? {
      return Ok(Failure(LoanLostAfterRateChange));
    }
    r := Ok(Success());
  }

  /** The search stops only at a rejected period or at the end. */
  lemma {:induction false} FirstRejectedIsRejected(loanId: Guid, base: nat, rows: seq<Period>, j: nat)
    requires j <= |rows|
    ensures var k := FirstRejected(loanId, base, rows, j);
      k < |rows| ==> PeriodError(loanId, base + k + 1, rows[k]).Some?
    decreases |rows| - j
  {
    if j < |rows| && PeriodError(loanId, base + j + 1, rows[j]).None? {
      FirstRejectedIsRejected(loanId, base, rows, j + 1);
    }
  }

  /** Nothing is thrown exactly when every period has been appended. */
  lemma ScheduleOutcomeNone(loanId: Guid, base: nat, rows: seq<Period>)
    ensures ScheduleOutcome(loanId, base, rows).None? <==> FirstRejected(loanId, base, rows, 0) == |rows|
  {
    FirstRejectedIsRejected(loanId, base, rows, 0);
  }

  /** Nothing is thrown exactly when the constructor accepts every period,
      and then every period has been appended. */
  lemma ScheduleOutcomeSpec(loanId: Guid, base: nat, rows: seq<Period>)
    ensures ScheduleOutcome(loanId, base, rows).None?
            <==> forall i :: 0 <= i < |rows| ==> PeriodError(loanId, base + i + 1, rows[i]).None?
    ensures ScheduleOutcome(loanId, base, rows).None? <==> FirstRejected(loanId, base, rows, 0) == |rows|
  {
    FirstRejectedSpec(loanId, base, rows, 0);
  }

  /** A plan splits the installments it is computed from: the Paid list and
      the unpaid list, each sorted by number, hold between them exactly the
      original installments, the first only Paid ones and the second only
      the others. */
  lemma PlanSplitsInstallments(installs: seq<LoanInstallment>, capital: real, newAnnualRate: real, payment: real)
    ensures var plan := PlanRateChange(installs, capital, newAnnualRate, payment);
      && |plan.paid| + |plan.unpaid| == |installs|
      && multiset(plan.paid) + multiset(plan.unpaid) == multiset(installs)
      && SortedByNumber(plan.paid) && SortedByNumber(plan.unpaid)
      && (forall i :: 0 <= i < |plan.paid| ==> plan.paid[i].status == Paid)
      && (forall i :: 0 <= i < |plan.unpaid| ==> plan.unpaid[i].status != Paid)
  {
    var plan := PlanRateChange(installs, capital, newAnnualRate, payment);
    PaidUnpaidPartition(installs);
    FilterMembers(installs);
    forall i | 0 <= i < |plan.paid| ensures plan.paid[i].status == Paid {
      assert plan.paid[i] in multiset(PaidOf(installs));
      var k :| 0 <= k < |PaidOf(installs)| && PaidOf(installs)[k] == plan.paid[i];
    }
    forall i | 0 <= i < |plan.unpaid| ensures plan.unpaid[i].status != Paid {
      assert plan.unpaid[i] in multiset(UnpaidOf(installs));
      var k :| 0 <= k < |UnpaidOf(installs)| && UnpaidOf(installs)[k] == plan.unpaid[i];
    }
  }

  /** The last element of `a` occurs in its permutation `b`, and what is
      left of each is again a permutation. */
  lemma PermutationLast(a: seq<LoanInstallment>, b: seq<LoanInstallment>) returns (i: nat)
    requires a != [] && multiset(a) == multiset(b)
    ensures i < |b| && b[i] == a[|a| - 1]
    ensures multiset(a[..|a| - 1]) == multiset(b[..i] + b[i + 1..])
  {
    var x := a[|a| - 1];
    assert a == a[..|a| - 1] + [x];
    assert x in multiset(b);
    i :| 0 <= i < |b| && b[i] == x;
    assert b == b[..i] + [x] + b[i + 1..];
    assert multiset(a) == multiset(a[..|a| - 1]) + multiset{x};
    assert multiset(b) == multiset(b[..i] + b[i + 1..]) + multiset{x} by {
      assert b == (b[..i] + b[i + 1..])[..i] + [x] + (b[..i] + b[i + 1..])[i..];
    }
    assert multiset(a[..|a| - 1]) == multiset(a) - multiset{x};
    assert multiset(b[..i] + b[i + 1..]) == multiset(b) - multiset{x};
  }

  /** Reordering installments does not change the sum of their capital
      portions. */
  lemma {:induction false} CapitalSumPermutation(a: seq<LoanInstallment>, b: seq<LoanInstallment>)
    requires multiset(a) == multiset(b)
    ensures Sum(StoredCapitals(a)) == Sum(StoredCapitals(b))
    decreases |a|
  {
    if a == [] {
      assert |b| == |multiset(b)| == 0;
    } else {
      var i := PermutationLast(a, b);
      var init, rest := a[..|a| - 1], b[..i] + b[i + 1..];
      CapitalSumPermutation(init, rest);
      assert StoredCapitals(a)[..|a| - 1] == StoredCapitals(init);
      CapitalSumRemove(b, i);
    }
  }

  /** Taking one installment out of a list takes its capital portion out of
      the sum. */
  lemma CapitalSumRemove(b: seq<LoanInstallment>, i: nat)
    requires i < |b|
    ensures Sum(StoredCapitals(b)) == Sum(StoredCapitals(b[..i] + b[i + 1..])) + b[i].capitalPortion
  {
    var p, x, q := b[..i], [b[i]], b[i + 1..];
    assert b == p + x + q;
    StoredCapitalsAppend(p + x, q);
    StoredCapitalsAppend(p, x);
    StoredCapitalsAppend(p, q);
    var u, v, w := StoredCapitals(p), StoredCapitals(x), StoredCapitals(q);
    SumAppend(u + v, w);
    SumAppend(u, v);
    SumAppend(u, w);
    assert Sum(v) == b[i].capitalPortion by {
      assert v[..0] == [];
    }
  }

  /** A plan carried out with every period accepted holds one installment
      per Paid one and per unpaid one, the last with a stored balance of 0. */
  lemma ReplannedCount(after: seq<LoanInstallment>, loanId: Guid, plan: RatePlan)
    requires Replanned(after, loanId, plan) && ScheduleOutcome(loanId, |plan.paid|, plan.Rows()).None?
    ensures |after| == |plan.paid| + |plan.unpaid|
    ensures after[|after| - 1].remainingBalance == 0.0
  {
    ScheduleOutcomeNone(loanId, |plan.paid|, plan.Rows());
    ScheduleFacts(after, |plan.paid|, loanId, plan.principal, plan.rate, plan.payment, |plan.unpaid|, plan.unpaid[0].dueDate);
  }

  /** With every period accepted, the recalculated capital portions add up
      to the capital still owed within half a cent each. */
  lemma ReplannedCapital(after: seq<LoanInstallment>, loanId: Guid, plan: RatePlan)
    requires Replanned(after, loanId, plan) && ScheduleOutcome(loanId, |plan.paid|, plan.Rows()).None?
    ensures var n := |plan.unpaid|;
      -0.005 * n as real <= Sum(StoredCapitals(after)) - Sum(StoredCapitals(plan.paid)) - plan.principal <= 0.005 * n as real
  {
    var p, n := |plan.paid|, |plan.unpaid|;
    ScheduleOutcomeNone(loanId, p, plan.Rows());
    ScheduleFacts(after, p, loanId, plan.principal, plan.rate, plan.payment, n, plan.unpaid[0].dueDate);
    assert after == plan.paid + after[p..];
    StoredCapitalsAppend(plan.paid, after[p..]);
    SumAppend(StoredCapitals(plan.paid), StoredCapitals(after[p..]));
  }

  /** A rate change the constructor accepts throughout keeps the number of
      installments and ends with a stored balance of 0. */
  lemma AcceptedRateChangeKeepsCount(before: seq<LoanInstallment>, after: seq<LoanInstallment>, loanId: Guid,
                                     capital: real, newAnnualRate: real, payment: real)
    requires var plan := PlanRateChange(before, capital, newAnnualRate, payment);
      Replanned(after, loanId, plan) && ScheduleOutcome(loanId, |plan.paid|, plan.Rows()).None?
    ensures |after| == |before|
    ensures after[|after| - 1].remainingBalance == 0.0
  {
    var plan := PlanRateChange(before, capital, newAnnualRate, payment);
    PaidUnpaidCount(before);
    ReplannedCount(after, loanId, plan);
  }

  /** After a rate change the constructor accepts throughout, the stored
      capital portions, Paid and recalculated together, add up to the loan's
      capital within half a cent per recalculated installment. */
  lemma AcceptedRateChangeRepaysCapital(before: seq<LoanInstallment>, after: seq<LoanInstallment>, loanId: Guid,
                                        capital: real, newAnnualRate: real, payment: real)
    requires var plan := PlanRateChange(before, capital, newAnnualRate, payment);
      Replanned(after, loanId, plan) && ScheduleOutcome(loanId, |plan.paid|, plan.Rows()).None?
    ensures var n := |UnpaidOf(before)|;
      -0.005 * n as real <= Sum(StoredCapitals(after)) - capital <= 0.005 * n as real
  {
    var plan := PlanRateChange(before, capital, newAnnualRate, payment);
    ReplannedCapital(after, loanId, plan);
    CapitalSumPermutation(plan.paid, PaidOf(before));
  }

  /* ------------- Numbering after a rate change ------------- */

  /** The installment numbers of a list, in list order. */
  function Numbers(s: seq<LoanInstallment>): (r: seq<int>)
    ensures |r| == |s| && forall k :: 0 <= k < |s| ==> r[k] == s[k].installmentNumber
  {
    seq(|s|, k requires 0 <= k < |s| => s[k].installmentNumber)
  }

  /** The numbers `Installments.Count + 1` hands out to `k` installments
      appended after `base` others. */
  function CountNumbers(base: nat, k: nat): (r: seq<int>)
    ensures |r| == k && forall j :: 0 <= j < k ==> r[j] == base + j + 1
  {
    seq(k, j requires 0 <= j < k => base + j + 1)
  }

  /** Whatever the periods, the installments appended after `base` others
      are Pending, due monthly from `firstDue` and numbered
      `base + 1, base + 2, ...`, whatever numbers the installments before
      them carry. */
  lemma AppendedNumbering(installs: seq<LoanInstallment>, base: nat, loanId: Guid, rows: seq<Period>,
                          firstDue: Date, k: nat)
    requires AppendedSchedule(installs, base, loanId, rows, firstDue, k)
    ensures Numbers(installs[base..]) == CountNumbers(base, k)
    ensures forall i :: base <= i < |installs| ==>
      installs[i].status == Pending && installs[i].dueDate == AddMonths(firstDue, i - base)
  {
    forall i | base <= i < |installs|
      ensures && installs[i].installmentNumber == i + 1
              && installs[i].status == Pending && installs[i].dueDate == AddMonths(firstDue, i - base)
    {
      var j := i - base;
      assert installs[base + j].Record() == StoredRecord(loanId, base + j + 1, AddMonths(firstDue, j), rows[j]);
    }
  }

  /** No number occurs twice. */
  predicate Distinct(xs: seq<int>)
  {
    forall a, b :: 0 <= a < b < |xs| ==> xs[a] != xs[b]
  }

  lemma {:induction false} DistinctOnce(xs: seq<int>, x: int)
    requires Distinct(xs)
    ensures multiset(xs)[x] <= 1
    decreases |xs|
  {
    if xs != [] {
      var init := xs[..|xs| - 1];
      assert xs == init + [xs[|xs| - 1]];
      DistinctOnce(init, x);
      if xs[|xs| - 1] == x {
        assert x !in init by {
          forall a | 0 <= a < |init| ensures init[a] != x {
            assert xs[a] != xs[|xs| - 1];
          }
        }
      }
    }
  }

  lemma RepeatTwice(xs: seq<int>, a: nat, b: nat)
    requires a < b < |xs| && xs[a] == xs[b]
    ensures multiset(xs)[xs[a]] >= 2
  {
    assert xs == xs[..a] + [xs[a]] + xs[a + 1..b] + [xs[b]] + xs[b + 1..];
  }

  /** Reordering keeps numbers distinct. */
  lemma DistinctPermutation(xs: seq<int>, ys: seq<int>)
    requires multiset(xs) == multiset(ys) && Distinct(xs)
    ensures Distinct(ys)
  {
    forall a, b | 0 <= a < b < |ys| ensures ys[a] != ys[b] {
      if ys[a] == ys[b] {
        RepeatTwice(ys, a, b);
        DistinctOnce(xs, ys[a]);
        assert false;
      }
    }
  }

  /** A Paid installment of the loan is among the plan's Paid ones. */
  lemma PaidInPlan(before: seq<LoanInstallment>, capital: real, newAnnualRate: real, payment: real, i: nat)
      returns (q: nat)
    requires i < |before| && before[i].status == Paid
    ensures var plan := PlanRateChange(before, capital, newAnnualRate, payment);
      q < |plan.paid| && plan.paid[q] == before[i]
  {
    var plan := PlanRateChange(before, capital, newAnnualRate, payment);
    PlanSplitsInstallments(before, capital, newAnnualRate, payment);
    assert before[i] in multiset(before);
    assert before[i] !in plan.unpaid;
    assert before[i] in plan.paid;
    q :| 0 <= q < |plan.paid| && plan.paid[q] == before[i];
  }

  /** The numbers the accepted plan leaves behind: the Paid installments'
      own, then `|Paid| + 1, |Paid| + 2, ...`. */
  lemma ReplannedNumbers(after: seq<LoanInstallment>, loanId: Guid, plan: RatePlan)
    requires Replanned(after, loanId, plan) && ScheduleOutcome(loanId, |plan.paid|, plan.Rows()).None?
    ensures |after| == |plan.paid| + |plan.unpaid|
    ensures after[..|plan.paid|] == plan.paid
    ensures forall i :: |plan.paid| <= i < |after| ==> after[i].installmentNumber == i + 1
    ensures forall i :: |plan.paid| <= i < |after| ==>
      after[i].Record() == StoredRecord(loanId, i + 1, AddMonths(plan.unpaid[0].dueDate, i - |plan.paid|),
                                        plan.Rows()[i - |plan.paid|])
  {
    var p := |plan.paid|;
    ReplannedCount(after, loanId, plan);
    ScheduleOutcomeNone(loanId, p, plan.Rows());
    forall i | p <= i < |after|
      ensures after[i].Record() == StoredRecord(loanId, i + 1, AddMonths(plan.unpaid[0].dueDate, i - p), plan.Rows()[i - p])
    {
      var j := i - p;
      assert after[p + j].Record() == StoredRecord(loanId, p + j + 1, AddMonths(plan.unpaid[0].dueDate, j), plan.Rows()[j]);
    }
  }

  /** The numbering as written collides: when the loan's installment numbers
      are distinct and some Paid installment carries a number above the count
      of Paid installments (installment 2 Paid, installment 1 still due), the
      installments the rate change leaves behind carry that number twice and
      no longer carry the numbers they carried before. */
  lemma RecalculationNumberCollision(before: seq<LoanInstallment>, after: seq<LoanInstallment>, loanId: Guid,
                                     capital: real, newAnnualRate: real, payment: real, i: nat)
    requires var plan := PlanRateChange(before, capital, newAnnualRate, payment);
      && Replanned(after, loanId, plan)
      && ScheduleOutcome(loanId, |plan.paid|, plan.Rows()).None?
    requires Distinct(Numbers(before))
    requires i < |before| && before[i].status == Paid
    requires |PlanRateChange(before, capital, newAnnualRate, payment).paid| < before[i].installmentNumber <= |before|
    ensures exists a, b :: 0 <= a < b < |after| && after[a].installmentNumber == after[b].installmentNumber
    ensures multiset(Numbers(after)) != multiset(Numbers(before))
  {
    var plan := PlanRateChange(before, capital, newAnnualRate, payment);
    var p, m := |plan.paid|, before[i].installmentNumber;
    PlanSplitsInstallments(before, capital, newAnnualRate, payment);
    ReplannedNumbers(after, loanId, plan);
    var q := PaidInPlan(before, capital, newAnnualRate, payment, i);
    assert after[q] == after[..p][q] == before[i];
    assert after[m - 1].installmentNumber == m;
    RepeatTwice(Numbers(after), q, m - 1);
    DistinctOnce(Numbers(before), m);
  }

  /** The numbers on a list of records, in list order. */
  function RecordNumbers(rs: seq<InstallmentRecord>): (r: seq<int>)
    ensures |r| == |rs| && forall k :: 0 <= k < |rs| ==> r[k] == rs[k].number
  {
    seq(|rs|, k requires 0 <= k < |rs| => rs[k].number)
  }

  /** The evidently intended result of the rate change: the Paid installments
      as they are, then one recalculated installment per unpaid one, in number
      order, each keeping the number of the unpaid installment it replaces and
      due monthly from the first unpaid installment's due date. */
  function CorrectedReplan(loanId: Guid, plan: RatePlan): (rs: seq<InstallmentRecord>)
    reads plan.paid
    ensures |rs| == |plan.paid| + |plan.unpaid|
    ensures RecordNumbers(rs) == Numbers(plan.paid) + Numbers(plan.unpaid)
  {
    var rows := plan.Rows();
    Records(plan.paid)
      + seq(|plan.unpaid|, k requires 0 <= k < |plan.unpaid| =>
              StoredRecord(loanId, plan.unpaid[k].installmentNumber, AddMonths(plan.unpaid[0].dueDate, k), rows[k]))
  }

  /** The corrected installment that replaces the `k`-th unpaid one. */
  lemma CorrectedTailAt(loanId: Guid, plan: RatePlan, k: nat)
    requires k < |plan.unpaid|
    ensures CorrectedReplan(loanId, plan)[|plan.paid| + k]
      == StoredRecord(loanId, plan.unpaid[k].installmentNumber, AddMonths(plan.unpaid[0].dueDate, k), plan.Rows()[k])
  {
  }

  lemma NumbersAppend(u: seq<LoanInstallment>, v: seq<LoanInstallment>)
    ensures Numbers(u + v) == Numbers(u) + Numbers(v)
  {
  }

  /** Reordering installments reorders their numbers. */
  lemma {:induction false} NumbersPermutation(a: seq<LoanInstallment>, b: seq<LoanInstallment>)
    requires multiset(a) == multiset(b)
    ensures multiset(Numbers(a)) == multiset(Numbers(b))
    decreases |a|
  {
    if a == [] {
      assert |b| == |multiset(b)| == 0;
    } else {
      var i := PermutationLast(a, b);
      var init, rest := a[..|a| - 1], b[..i] + b[i + 1..];
      NumbersPermutation(init, rest);
      assert a == init + [a[|a| - 1]];
      NumbersAppend(init, [a[|a| - 1]]);
      assert b == b[..i] + [b[i]] + b[i + 1..];
      NumbersAppend(b[..i] + [b[i]], b[i + 1..]);
      NumbersAppend(b[..i], [b[i]]);
      NumbersAppend(b[..i], b[i + 1..]);
    }
  }

  /** The corrected rate change hands out exactly the numbers the
      installments carried before it, so numbers that were distinct stay
      distinct. */
  lemma CorrectedReplanKeepsNumbers(before: seq<LoanInstallment>, loanId: Guid,
                                    capital: real, newAnnualRate: real, payment: real)
    ensures var plan := PlanRateChange(before, capital, newAnnualRate, payment);
      && multiset(RecordNumbers(CorrectedReplan(loanId, plan))) == multiset(Numbers(before))
      && (Distinct(Numbers(before)) ==> Distinct(RecordNumbers(CorrectedReplan(loanId, plan))))
  {
    var plan := PlanRateChange(before, capital, newAnnualRate, payment);
    PaidUnpaidPartition(before);
    NumbersPermutation(plan.paid + plan.unpaid, PaidOf(before) + UnpaidOf(before));
    NumbersAppend(plan.paid, plan.unpaid);
    NumbersPermutation(PaidOf(before) + UnpaidOf(before), before);
    if Distinct(Numbers(before)) {
      DistinctPermutation(Numbers(before), RecordNumbers(CorrectedReplan(loanId, plan)));
    }
  }

  /** What the code leaves behind and the corrected rate change differ in
      the numbers of the recalculated installments alone: the Paid
      installments, and the amounts, due dates and statuses of the
      recalculated ones, agree. */
  lemma CorrectedReplanAgrees(after: seq<LoanInstallment>, loanId: Guid, plan: RatePlan)
    requires Replanned(after, loanId, plan) && ScheduleOutcome(loanId, |plan.paid|, plan.Rows()).None?
    ensures var rs := CorrectedReplan(loanId, plan);
      && |after| == |rs|
      && (forall i :: 0 <= i < |plan.paid| ==> after[i].Record() == rs[i])
      && (forall i :: |plan.paid| <= i < |after| ==> after[i].Record() == rs[i].(number := i + 1))
  {
    var rs, p := CorrectedReplan(loanId, plan), |plan.paid|;
    ReplannedNumbers(after, loanId, plan);
    forall i | 0 <= i < p ensures after[i].Record() == rs[i] {
      assert after[i] == after[..p][i];
    }
    forall i | p <= i < |after| ensures after[i].Record() == rs[i].(number := i + 1) {
      CorrectedTailAt(loanId, plan, i - p);
    }
  }

  /** The code's result is the corrected one exactly when the unpaid
      installments were numbered on from the Paid ones. */
  lemma CorrectedReplanCoincides(after: seq<LoanInstallment>, loanId: Guid, plan: RatePlan)
    requires Replanned(after, loanId, plan) && ScheduleOutcome(loanId, |plan.paid|, plan.Rows()).None?
    ensures Records(after) == CorrectedReplan(loanId, plan)
      <==> Numbers(plan.unpaid) == CountNumbers(|plan.paid|, |plan.unpaid|)
  {
    var rs, p := CorrectedReplan(loanId, plan), |plan.paid|;
    CorrectedReplanAgrees(after, loanId, plan);
    if Numbers(plan.unpaid) == CountNumbers(p, |plan.unpaid|) {
      forall i | p <= i < |after| ensures after[i].Record() == rs[i] {
        assert rs[i].number == RecordNumbers(rs)[i] == Numbers(plan.unpaid)[i - p];
      }
      assert Records(after) == rs;
    }
    if Records(after) == rs {
      forall j | 0 <= j < |plan.unpaid| ensures Numbers(plan.unpaid)[j] == CountNumbers(p, |plan.unpaid|)[j] {
        assert Numbers(plan.unpaid)[j] == RecordNumbers(rs)[p + j] == rs[p + j].number;
        assert after[p + j].Record() == rs[p + j];
      }
    }
  }

  /* ------------- The overdue sweep ------------- */

  /** Every loan's installments, loan after loan: the LoanInstallments table. */
  function AllInstallments(loans: seq<Loan>): (r: seq<LoanInstallment>)
    reads loans
    decreases |loans|
  {
    if loans == [] then [] else AllInstallments(loans[..|loans| - 1]) + loans[|loans| - 1].installments
  }

  /** Pending and due before `today`. */
  predicate IsDue(x: LoanInstallment, today: Date)
    reads x
  {
    x.status == Pending && Before(x.dueDate, today)
  }

  /** The sweep's query: the installments that are due, in table order. */
  function DueInstallments(s: seq<LoanInstallment>, today: Date): (r: seq<LoanInstallment>)
    reads s
    decreases |s|
  {
    if s == [] then []
    else DueInstallments(s[..|s| - 1], today) + (if IsDue(s[|s| - 1], today) then [s[|s| - 1]] else [])
  }

  /** The query returns exactly the due installments of the table. */
  lemma {:induction false} DueMembers(s: seq<LoanInstallment>, today: Date)
    ensures forall j :: 0 <= j < |DueInstallments(s, today)| ==>
              DueInstallments(s, today)[j] in s && IsDue(DueInstallments(s, today)[j], today)
    ensures forall j :: 0 <= j < |s| ==> (s[j] in DueInstallments(s, today) <==> IsDue(s[j], today))
    decreases |s|
  {
    if s != [] {
      var init := s[..|s| - 1];
      DueMembers(init, today);
      assert forall j :: 0 <= j < |init| ==> s[j] == init[j];
    }
  }

  /** The status an installment has after a sweep on `today`. */
  function SweepStatus(s: LoanInstallmentStatus, due: Date, today: Date): LoanInstallmentStatus
  {
    if s == Pending && Before(due, today) then AfterMarkAsOverdue(s) else s
  }

  /** A sweep turns exactly the Pending installments due before `today`
      Overdue; it never touches a Paid one, leaves nothing due behind, is
      idempotent, and a later sweep subsumes an earlier one. */
  lemma SweepFacts(s: LoanInstallmentStatus, due: Date, today: Date, later: Date)
    ensures SweepStatus(s, due, today) == Overdue <==> s == Overdue || (s == Pending && Before(due, today))
    ensures SweepStatus(s, due, today) == Paid <==> s == Paid
    ensures !(SweepStatus(s, due, today) == Pending && Before(due, today))
    ensures SweepStatus(SweepStatus(s, due, today), due, today) == SweepStatus(s, due, today)
    ensures !Before(later, today) ==> SweepStatus(SweepStatus(s, due, today), due, later) == SweepStatus(s, due, later)
  {
  }

  /** The loans the source sets Moroso: those whose id is the `LoanId` of
      a swept installment. */
  function AffectedLoanIds(due: seq<LoanInstallment>): (r: set<Guid>)
    ensures forall id :: id in r <==> exists j :: 0 <= j < |due| && due[j].loanId == id
  {
    set j | 0 <= j < |due| :: due[j].loanId
  }

  /** `Loans.Where(l => affectedLoans.Contains(l.Id))`. */
  function LoansWithIds(loans: seq<Loan>, ids: set<Guid>): (r: seq<Loan>)
    ensures forall j :: 0 <= j < |loans| ==> (loans[j] in r <==> loans[j].id in ids)
    ensures forall j :: 0 <= j < |r| ==> r[j] in loans && r[j].id in ids
    decreases |loans|
  {
    if loans == [] then []
    else
      var init := loans[..|loans| - 1];
      var last := loans[|loans| - 1];
      assert forall j :: 0 <= j < |init| ==> loans[j] == init[j];
      LoansWithIds(init, ids) + (if last.id in ids then [last] else [])
  }

  /** The sweep's first loop: `MarkAsOverdue` on each installment found. */
  method MarkEachOverdue(installments: seq<LoanInstallment>)
    requires forall j :: 0 <= j < |installments| ==> installments[j].status != Paid
    modifies installments`status
    ensures forall j :: 0 <= j < |installments| ==> installments[j].status == Overdue
  {
    for i := 0 to |installments|
      invariant forall j :: 0 <= j < |installments| ==>
                  installments[j].status == (if installments[j] in installments[..i] then Overdue
                                             else old(installments[j].status))
    {
      installments[i].MarkAsOverdue();
    }
    assert installments[..|installments|] == installments;
  }

  /** The sweep's second loop: `ChangeStatus(Moroso)` on each loan found. */
  method MarkEachMoroso(loans: seq<Loan>)
    modifies loans`status
    ensures forall j :: 0 <= j < |loans| ==> loans[j].status == Moroso
  {
    for i := 0 to |loans|
      invariant forall j :: 0 <= j < i ==> loans[j].status == Moroso
    {
      loans[i].ChangeStatus(Moroso);
    }
  }

  /** `MarkOverdueInstallmentsAsync`: every installment of the table that is
      Pending and due before `today` becomes Overdue, and every loan named
      by one of them becomes Moroso, whatever its status was; nothing else
      changes, and the call always succeeds. `today` is the date the source
      reads from the clock. */
  method MarkOverdueInstallments(db: BankingDb, today: Date) returns (r: Result)
    modifies AllInstallments(db.loans)`status, db.loans`status
    ensures r == Success()
    ensures forall j :: 0 <= j < |old(AllInstallments(db.loans))| ==>
              old(AllInstallments(db.loans))[j].status
              == SweepStatus(old(AllInstallments(db.loans)[j].status), old(AllInstallments(db.loans))[j].dueDate, today)
    ensures var affected := old(AffectedLoanIds(DueInstallments(AllInstallments(db.loans), today)));
      forall l :: l in db.loans ==> l.status == (if l.id in affected then Moroso else old(l.status))
  {
    var all := AllInstallments(db.loans);
    var installments := DueInstallments(all, today);
    DueMembers(all, today);
    ghost var affected := AffectedLoanIds(installments);
    if |installments| == 0 {
      return Success();
    }
    var affectedLoans: set<Guid> := {};
    for i := 0 to |installments|
      invariant affectedLoans == set j | 0 <= j < i :: installments[j].loanId
    {
      affectedLoans := affectedLoans + {installments[i].loanId};
    }
    MarkEachOverdue(installments);
    var loans := LoansWithIds(db.loans, affectedLoans);
    MarkEachMoroso(loans);
    r := Success();
  }
}
