/** Loan assignment (`AssignLoanAsync` and `GenerateLoanNumber` in
    src/ArtemisBanking.Infrastructure.Persistence/Services/LoanService.cs):
    the validation chain, the high-risk rule, the loan number, and the
    credit of the loan's amount to the client's Principal account. */
module LoanAssignment {
  import opened Common
  import opened Results
  import opened Users
  import opened Savings
  import opened Loans
  import opened Amortization
  import opened Persistence
  import opened LoanService

  /* ------------- The loan number ------------- */

  /** `GenerateLoanNumber`: the year, a dash and the random draw zero-padded
      to six digits. `year` is the current UTC year and `draw` the value of
      `Random.Next(0, 999999)`, both passed in. */
  function GenerateLoanNumber(year: nat, draw: nat): string
  {
    NatToString(year) + "-" + FormatD(draw, 6)
  }

  /** The position of the first '-' in `s`, or `|s|` when there is none. */
  function DashIndex(s: string): (k: nat)
    ensures k <= |s|
    ensures k < |s| ==> s[k] == '-'
    ensures forall i :: 0 <= i < k ==> s[i] != '-'
  {
    if s == [] || s[0] == '-' then 0 else 1 + DashIndex(s[1..])
  }

  /** Reads a loan number back into its year and draw. */
  function ParseLoanNumber(s: string): Option<(nat, nat)>
  {
    var k := DashIndex(s);
    if k < |s| && AllDigits(s[..k]) && AllDigits(s[k + 1..])
    then Some((ParseDigits(s[..k]), ParseDigits(s[k + 1..])))
    else None
  }

  /** A loan number holds the year's digits, one dash and six digits for a
      draw of `Random.Next(0, 999999)`, so it is never blank. */
  lemma LoanNumberShape(year: nat, draw: nat)
    requires draw < 999999
    ensures var s := GenerateLoanNumber(year, draw);
      && |s| == |NatToString(year)| + 7
      && s[..|NatToString(year)|] == NatToString(year)
      && s[|NatToString(year)|] == '-'
      && s[|NatToString(year)| + 1..] == FormatD(draw, 6)
      && AllDigits(s[|NatToString(year)| + 1..])
      && !IsBlank(s)
  {
    var y := NatToString(year);
    var s := GenerateLoanNumber(year, draw);
    assert Pow10(6) == 1000000;
    FormatDRoundTrip(draw, 6);
    assert s[|y| + 1..] == FormatD(draw, 6);
    assert !IsWhiteSpace(s[|y|]);
  }

  /** A loan number reads back into the year and the draw it was made from. */
  lemma LoanNumberRoundTrip(year: nat, draw: nat)
    requires draw < 999999
    ensures ParseLoanNumber(GenerateLoanNumber(year, draw)) == Some((year, draw))
  {
    var y := NatToString(year);
    var d := FormatD(draw, 6);
    var s := GenerateLoanNumber(year, draw);
    LoanNumberShape(year, draw);
    FormatDRoundTrip(draw, 6);
    ParseNatToString(year);
    assert s[|y|..] == "-" + d;
    assert s == y + s[|y|..];
    DashAfterDigits(y, "-" + d);
  }

  lemma {:induction false} DashAfterDigits(d: string, t: string)
    requires AllDigits(d) && t != [] && t[0] == '-'
    ensures DashIndex(d + t) == |d|
    decreases |d|
  {
    if d != [] {
      assert (d + t)[1..] == d[1..] + t;
      DashAfterDigits(d[1..], t);
    } else {
      assert d + t == t;
    }
  }

  /** Loan numbers of one year are equal exactly when their draws are. */
  lemma LoanNumbersDistinct(year: nat, draw1: nat, draw2: nat)
    requires draw1 < 999999 && draw2 < 999999
    ensures GenerateLoanNumber(year, draw1) == GenerateLoanNumber(year, draw2) <==> draw1 == draw2
  {
    LoanNumberRoundTrip(year, draw1);
    LoanNumberRoundTrip(year, draw2);
  }

  /* ------------- The checks and the risk rule ------------- */

  const TermNotMultipleOfSix := "El plazo debe ser múltiplo de 6 meses."
  const AmountMustBePositive := "El monto debe ser mayor que cero."
  const AnnualRateMustBePositive := "La tasa anual debe ser mayor que cero."
  const InvalidClient := "Cliente no válido o inactivo."
  const ClientHasActiveLoan := "El cliente ya tiene un préstamo activo."
  const NoPrincipalAccount := "El cliente no tiene una cuenta de ahorro principal."
  const LoanLostAfterCreate := "Préstamo no encontrado después de crearlo."

  /** The user with this id exists, is a Client and is active. */
  predicate EligibleClient(users: seq<ApplicationUser>, clientId: Guid)
    reads users
  {
    var u := FindUser(users, clientId);
    u.Some? && u.value.role == Client && u.value.isActive
  }

  /** Some loan of the client is `Activo`. */
  predicate HasActiveLoan(loans: seq<Loan>, clientId: Guid)
    reads loans
  {
    exists j :: 0 <= j < |loans| && loans[j].userId == clientId && loans[j].status == Activo
  }

  /** The failure `AssignLoanAsync` returns before it builds anything, checks
      taken in the source's order. C#'s `%` truncates toward zero, but only
      whether the remainder is zero matters, and that agrees with Dafny's. */
  function AssignRejection(termInMonths: int, amount: real, annualRate: real, eligible: bool,
                           hasActiveLoan: bool): (r: Option<string>)
    ensures r.None? <==> termInMonths % 6 == 0 && amount > 0.0 && annualRate > 0.0 && eligible && !hasActiveLoan
    ensures termInMonths % 6 != 0 ==> r == Some(TermNotMultipleOfSix)
    ensures termInMonths % 6 == 0 && amount <= 0.0 ==> r == Some(AmountMustBePositive)
    ensures termInMonths % 6 == 0 && amount > 0.0 && annualRate <= 0.0 ==> r == Some(AnnualRateMustBePositive)
    ensures termInMonths % 6 == 0 && amount > 0.0 && annualRate > 0.0 && !eligible ==> r == Some(InvalidClient)
  {
    if termInMonths % 6 != 0 then Some(TermNotMultipleOfSix)
    else if amount <= 0.0 then Some(AmountMustBePositive)
    else if annualRate <= 0.0 then Some(AnnualRateMustBePositive)
    else if !eligible then Some(InvalidClient)
    else if hasActiveLoan then Some(ClientHasActiveLoan)
    else None
  }

  /** The capitals of the `Activo` loans, in table order; with `client`
      given, only that client's. */
  function ActiveCapitals(loans: seq<Loan>, client: Option<Guid>): (c: seq<real>)
    reads loans
    ensures |c| <= |loans|
    decreases |loans|
  {
    if loans == [] then []
    else
      var l := loans[|loans| - 1];
      ActiveCapitals(loans[..|loans| - 1], client)
      + (if l.status == Activo && (client.None? || l.userId == client.value) then [l.capital] else [])
  }

  /** The risk rule: the client's active capital plus the new amount exceeds
      the mean capital of all active loans, when that mean is positive. */
  predicate HighRisk(loans: seq<Loan>, clientId: Guid, amount: real)
    reads loans
  {
    var average := Average(ActiveCapitals(loans, None));
    average > 0.0 && Sum(ActiveCapitals(loans, Some(clientId))) + amount > average
  }

  /** A client without an active loan has no active capital, so once the
      duplicate check has passed the rule compares the amount alone with
      the mean. */
  lemma {:induction false} NoActiveLoanNoDebt(loans: seq<Loan>, clientId: Guid, amount: real)
    requires !HasActiveLoan(loans, clientId)
    ensures ActiveCapitals(loans, Some(clientId)) == []
    ensures HighRisk(loans, clientId, amount) <==>
              var average := Average(ActiveCapitals(loans, None)); average > 0.0 && amount > average
    decreases |loans|
  {
    if loans != [] {
      var init := loans[..|loans| - 1];
      assert forall j :: 0 <= j < |init| ==> init[j] == loans[j];
      NoActiveLoanNoDebt(init, clientId, amount);
    }
  }

  /** When every loan has a positive capital, so do the active ones, and
      there is an active capital exactly when some loan is `Activo`. */
  lemma {:induction false} ActiveCapitalsPositive(loans: seq<Loan>)
    requires forall j :: 0 <= j < |loans| ==> loans[j].capital > 0.0
    ensures forall k :: 0 <= k < |ActiveCapitals(loans, None)| ==> ActiveCapitals(loans, None)[k] > 0.0
    ensures ActiveCapitals(loans, None) != [] <==>
              exists j :: 0 <= j < |loans| && loans[j].status == Activo
    decreases |loans|
  {
    if loans != [] {
      var init := loans[..|loans| - 1];
      assert forall j :: 0 <= j < |init| ==> init[j] == loans[j];
      ActiveCapitalsPositive(init);
    }
  }

  lemma {:induction false} SumPositive(s: seq<real>)
    requires s != [] && forall k :: 0 <= k < |s| ==> s[k] > 0.0
    ensures Sum(s) > 0.0
    decreases |s|
  {
    if |s| > 1 {
      SumPositive(s[..|s| - 1]);
    }
  }

  /** No active loan anywhere means no risk; with positive capitals, an
      active loan anywhere makes the mean positive, so the rule is exactly
      "the client's active capital plus the amount exceeds the mean". */
  lemma RiskRule(loans: seq<Loan>, clientId: Guid, amount: real)
    requires forall j :: 0 <= j < |loans| ==> loans[j].capital > 0.0
    ensures (forall j :: 0 <= j < |loans| ==> loans[j].status != Activo) ==> !HighRisk(loans, clientId, amount)
    ensures (exists j :: 0 <= j < |loans| && loans[j].status == Activo) ==>
              (HighRisk(loans, clientId, amount)
               <==> Sum(ActiveCapitals(loans, Some(clientId))) + amount > Average(ActiveCapitals(loans, None)))
  {
    ActiveCapitalsPositive(loans);
    var c := ActiveCapitals(loans, None);
    if c != [] {
      AveragePositive(c);
    }
  }

  lemma AveragePositive(s: seq<real>)
    requires s != [] && forall k :: 0 <= k < |s| ==> s[k] > 0.0
    ensures Average(s) > 0.0
  {
    SumPositive(s);
    var n := |s| as real;
    assert n > 0.0;
    assert Average(s) == Sum(s) / n;
  }

  /* ------------- AssignLoanAsync ------------- */

  /** The description of the credit that pays the loan out. */
  function LoanCreditDescription(loanNumber: string): string
  {
    "Préstamo aprobado " + loanNumber
  }

  /** `BuildLoanDetailDtoAsync` finds something: the first loan with the id
      exists and so does its owner. */
  predicate DetailFound(loans: seq<Loan>, users: seq<ApplicationUser>, loanId: Guid)
  {
    var l := FindLoan(loans, loanId);
    l.Some? && FindUser(users, l.value.userId).Some?
  }

  /** `l` is a loan built by `AssignLoanAsync`: the arguments, status
      `Activo`, and the complete French schedule of the amount over the term,
      the first installment due a month after `today`. */
  predicate AssignedLoan(l: Loan, id: Guid, clientId: Guid, loanNumber: string, amount: real, annualRate: real,
                         termInMonths: nat, isHighRisk: bool, today: Date, payment: real)
    reads l, l.installments
  {
    && l.id == id && l.userId == clientId && l.loanNumber == loanNumber
    && l.capital == amount && l.annualInterestRate == annualRate && l.termInMonths == termInMonths
    && l.isHighRisk == isHighRisk && l.status == Activo
    && AppendedSchedule(l.installments, 0, id, Schedule(amount, MonthlyRate(annualRate), payment, termInMonths),
                        AddMonths(today, 1), termInMonths)
  }

  /** The exception the loan constructor or the schedule throws after the
      checks have passed, if any. Only a term that is not positive or an
      empty client id reach the constructor's own checks. */
  function BuildError(newLoanId: Guid, clientId: Guid, loanNumber: string, amount: real, annualRate: real,
                      termInMonths: int, payment: real): Option<Exception>
  {
    var e := LoanError(clientId, loanNumber, amount, annualRate, termInMonths);
    if e.Some? then e
    else ScheduleOutcome(newLoanId, 0, Schedule(amount, MonthlyRate(annualRate), payment, PositivePart(termInMonths)))
  }

  /** `Loan.Create` followed by `GenerateFrenchSchedule`: either the
      exception one of them throws, or a new loan as `AssignedLoan` says
      whose installments are all new. */
  method BuildLoan(newLoanId: Guid, clientId: Guid, loanNumber: string, amount: real, annualRate: real,
                   termInMonths: int, isHighRisk: bool, today: Date, payment: real)
    returns (r: Try<Loan>)
    ensures match BuildError(newLoanId, clientId, loanNumber, amount, annualRate, termInMonths, payment)
      case Some(e) => r == Throws(e)
      case None =>
        && r.Ok? && fresh(r.value) && termInMonths > 0
        && (forall j :: 0 <= j < |r.value.installments| ==> fresh(r.value.installments[j]))
        && AssignedLoan(r.value, newLoanId, clientId, loanNumber, amount, annualRate, termInMonths,
                        isHighRisk, today, payment)
  {
    var created := Loan.Create(newLoanId, clientId, loanNumber, amount, annualRate, termInMonths, isHighRisk);
    if created.Throws? {
      return Throws(created.error);
    }
    var loan := created.value;
    var e := GenerateFrenchSchedule(loan, today, payment);
    if e.Some? {
      return Throws(e.value);
    }
    ScheduleOutcomeNone(loan.id, 0, Schedule(amount, MonthlyRate(annualRate), payment, PositivePart(termInMonths)));
    r := Ok(loan);
  }

  /** The payout: the account is credited with the amount (it was
      validated positive, so `Credit` cannot throw) and the loan is added at
      the end of the table. */
  method PayOut(db: BankingDb, loan: Loan, account: SavingsAccount, amount: real, loanNumber: string)
    requires amount > 0.0
    modifies db`loans, account
    ensures db.loans == old(db.loans) + [loan]
    ensures account.Snapshot()
            == old(CreditLedger(account.id, account.Snapshot(), amount, LoanCreditDescription(loanNumber), Prestamo)).value
  {
    var _ := account.Credit(amount, LoanCreditDescription(loanNumber), Prestamo);
    db.loans := db.loans + [loan];
  }

  /** A new id finds the appended loan, whose owner is known. */
  lemma FreshIdFindsDetail(loans: seq<Loan>, users: seq<ApplicationUser>, l: Loan)
    requires forall k :: 0 <= k < |loans| ==> loans[k].id != l.id
    requires FindUser(users, l.userId).Some?
    ensures DetailFound(loans + [l], users, l.id)
  {
    var found := FindLoan(loans + [l], l.id);
    assert found.Some? by { assert (loans + [l])[|loans|] == l; }
    assert found.value == l;
  }

  /** The end of `AssignLoanAsync` once the loan is built: look up the
      client's first Principal account (none: a failure, and nothing
      changes), pay out, and rebuild the detail. */
  method Disburse(db: BankingDb, loan: Loan, clientId: Guid, amount: real, annualRate: real, termInMonths: nat,
                  newLoanId: Guid, loanNumber: string, isHighRisk: bool, today: Date, payment: real)
    returns (r: Result)
    requires amount > 0.0 && FindUser(db.users, clientId).Some?
    requires AssignedLoan(loan, newLoanId, clientId, loanNumber, amount, annualRate, termInMonths, isHighRisk,
                          today, payment)
    modifies db`loans, db.savingsAccounts
    ensures db.users == old(db.users) && db.savingsAccounts == old(db.savingsAccounts)
    ensures var account := FindPrincipalAccount(db.savingsAccounts, clientId);
      if account.None? then r == Failure(NoPrincipalAccount) && db.loans == old(db.loans)
                            && unchanged(db.savingsAccounts)
      else
        && db.loans == old(db.loans) + [loan]
        && AssignedLoan(loan, newLoanId, clientId, loanNumber, amount, annualRate, termInMonths, isHighRisk,
                        today, payment)
        && account.value.Snapshot()
           == old(CreditLedger(account.value.id, account.value.Snapshot(), amount,
                               LoanCreditDescription(loanNumber), Prestamo)).value
        && (forall a :: a in db.savingsAccounts && a != account.value ==> unchanged(a))
        && r == (if DetailFound(db.loans, db.users, newLoanId) then Success() else Failure(LoanLostAfterCreate))
        && ((forall k :: 0 <= k < |old(db.loans)| ==> old(db.loans)[k].id != newLoanId) ==> r == Success())
  {
    var account := FindPrincipalAccount(db.savingsAccounts, clientId);
    if account.None? {
      return Failure(NoPrincipalAccount);
    }
    ghost var before := db.loans;
    PayOut(db, loan, account.value, amount, loanNumber);
    if forall k :: 0 <= k < |before| ==> before[k].id != loan.id {
      FreshIdFindsDetail(before, db.users, loan);
    }
    if !DetailFound(db.loans, db.users, loan.id) {
      return Failure(LoanLostAfterCreate);
    }
    r := Success();
  }

  /** What `AssignLoanAsync` does once its checks have passed and the risk
      flag is known: build the loan and its schedule (an exception escapes
      and nothing changes), then disburse it. */
  method ApproveLoan(db: BankingDb, clientId: Guid, amount: real, annualRate: real, termInMonths: int,
                     newLoanId: Guid, loanNumber: string, isHighRisk: bool, today: Date, payment: real)
    returns (r: Try<Result>)
    requires amount > 0.0 && FindUser(db.users, clientId).Some?
    modifies db`loans, db.savingsAccounts
    ensures db.users == old(db.users) && db.savingsAccounts == old(db.savingsAccounts)
    ensures var error := BuildError(newLoanId, clientId, loanNumber, amount, annualRate, termInMonths, payment);
      var account := FindPrincipalAccount(db.savingsAccounts, clientId);
      if error.Some? then r == Throws(error.value) && db.loans == old(db.loans) && unchanged(db.savingsAccounts)
      else if account.None? then r == Ok(Failure(NoPrincipalAccount)) && db.loans == old(db.loans)
                                 && unchanged(db.savingsAccounts)
      else
        && |db.loans| == |old(db.loans)| + 1 && db.loans[..|old(db.loans)|] == old(db.loans)
        && fresh(db.loans[|old(db.loans)|])
        && AssignedLoan(db.loans[|old(db.loans)|], newLoanId, clientId, loanNumber, amount, annualRate,
                        termInMonths, isHighRisk, today, payment)
        && account.value.Snapshot()
           == old(CreditLedger(account.value.id, account.value.Snapshot(), amount,
                               LoanCreditDescription(loanNumber), Prestamo)).value
        && (forall a :: a in db.savingsAccounts && a != account.value ==> unchanged(a))
        && r == (if DetailFound(db.loans, db.users, newLoanId) then Ok(Success())
                 else Ok(Failure(LoanLostAfterCreate)))
        && ((forall k :: 0 <= k < |old(db.loans)| ==> old(db.loans)[k].id != newLoanId) ==> r == Ok(Success()))
  {
    var built := BuildLoan(newLoanId, clientId, loanNumber, amount, annualRate, termInMonths, isHighRisk,
                           today, payment);
    if built.Throws? {
      return Throws(built.error);
    }
    var res := Disburse(db, built.value, clientId, amount, annualRate, termInMonths, newLoanId, loanNumber,
                        isHighRisk, today, payment);
    r := Ok(res);
  }

  /** `AssignLoanAsync`. A rejection changes nothing; past the checks it
      does what `ApproveLoan` says, with the risk flag of `HighRisk` and the
      number of `GenerateLoanNumber`. The loan id, the year and random draw
      behind the number, `today` and the floating-point payment are passed
      in. */
  method AssignLoan(db: BankingDb, clientId: Guid, amount: real, annualRate: real, termInMonths: int,
                    newLoanId: Guid, year: nat, draw: nat, today: Date, payment: real)
    returns (r: Try<Result>)
    requires draw < 999999
    modifies db`loans, db.savingsAccounts
    ensures db.users == old(db.users) && db.savingsAccounts == old(db.savingsAccounts)
    ensures var rejection := AssignRejection(termInMonths, amount, annualRate, EligibleClient(db.users, clientId),
                                             old(HasActiveLoan(db.loans, clientId)));
      rejection.Some? ==> r == Ok(Failure(rejection.value)) && db.loans == old(db.loans)
                          && unchanged(db.savingsAccounts)
    ensures var loanNumber := GenerateLoanNumber(year, draw);
      var error := BuildError(newLoanId, clientId, loanNumber, amount, annualRate, termInMonths, payment);
      var account := FindPrincipalAccount(db.savingsAccounts, clientId);
      && AssignRejection(termInMonths, amount, annualRate, EligibleClient(db.users, clientId),
                         old(HasActiveLoan(db.loans, clientId))).None?
      ==>
      if error.Some? then r == Throws(error.value) && db.loans == old(db.loans) && unchanged(db.savingsAccounts)
      else if account.None? then r == Ok(Failure(NoPrincipalAccount)) && db.loans == old(db.loans)
                                 && unchanged(db.savingsAccounts)
      else
        && |db.loans| == |old(db.loans)| + 1 && db.loans[..|old(db.loans)|] == old(db.loans)
        && fresh(db.loans[|old(db.loans)|])
        && AssignedLoan(db.loans[|old(db.loans)|], newLoanId, clientId, loanNumber, amount, annualRate,
                        termInMonths, old(HighRisk(db.loans, clientId, amount)), today, payment)
        && account.value.Snapshot()
           == old(CreditLedger(account.value.id, account.value.Snapshot(), amount,
                               LoanCreditDescription(loanNumber), Prestamo)).value
        && (forall a :: a in db.savingsAccounts && a != account.value ==> unchanged(a))
        && r == (if DetailFound(db.loans, db.users, newLoanId) then Ok(Success())
                 else Ok(Failure(LoanLostAfterCreate)))
        && ((forall k :: 0 <= k < |old(db.loans)| ==> old(db.loans)[k].id != newLoanId) ==> r == Ok(Success()))
  {
    if termInMonths % 6 != 0 {
      return Ok(Failure(TermNotMultipleOfSix));
    }
    if amount <= 0.0 {
      return Ok(Failure(AmountMustBePositive));
    }
    if annualRate <= 0.0 {
      return Ok(Failure(AnnualRateMustBePositive));
    }
    var client := FindUser(db.users, clientId);
    if client.None? || client.value.role != Client || !client.value.isActive {
      return Ok(Failure(InvalidClient));
    }
    if HasActiveLoan(db.loans, clientId) {
      return Ok(Failure(ClientHasActiveLoan));
    }
    var currentDebt := Sum(ActiveCapitals(db.loans, Some(clientId)));
    var systemAverageDebt := 0.0;
    if |ActiveCapitals(db.loans, None)| > 0 {
      systemAverageDebt := Average(ActiveCapitals(db.loans, None));
    }
    var isHighRisk := systemAverageDebt > 0.0 && currentDebt + amount > systemAverageDebt;
    assert isHighRisk == HighRisk(db.loans, clientId, amount);
    var loanNumber := GenerateLoanNumber(year, draw);
    r := ApproveLoan(db, clientId, amount, annualRate, termInMonths, newLoanId, loanNumber, isHighRisk,
                     today, payment);
  }
}
