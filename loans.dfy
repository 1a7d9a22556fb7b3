/** The loan aggregate (src/ArtemisBanking.Core.Domain/Entities/Loan.cs and
    LoanInstallment.cs): a loan validates its arguments once, keeps its
    principal, term, number and owner fixed, and lets its rate, status and
    risk flag be set in place; an installment validates its amounts once and
    afterwards only moves between Pending, Paid and Overdue. */
module Loans {
  import opened Common

  datatype LoanStatus = Activo | Completado | Moroso | Cancelado
  datatype LoanInstallmentStatus = Pending | Paid | Overdue

  /* ------------- Installment status machine ------------- */

  function AfterMarkAsPaid(s: LoanInstallmentStatus): LoanInstallmentStatus
  {
    Paid
  }

  /** `MarkAsOverdue` returns early on a Paid installment. */
  function AfterMarkAsOverdue(s: LoanInstallmentStatus): LoanInstallmentStatus
  {
    if s == Paid then Paid else Overdue
  }

  datatype Mark = MarkPaid | MarkOverdue

  /** The status after applying the marks in order. */
  function ApplyMarks(s: LoanInstallmentStatus, marks: seq<Mark>): LoanInstallmentStatus
    decreases |marks|
  {
    if marks == [] then s
    else
      var t := ApplyMarks(s, marks[..|marks| - 1]);
      if marks[|marks| - 1] == MarkPaid then AfterMarkAsPaid(t) else AfterMarkAsOverdue(t)
  }

  /** Both marks are idempotent, and `MarkAsOverdue` never leaves Paid. */
  lemma MarksIdempotent(s: LoanInstallmentStatus)
    ensures AfterMarkAsPaid(AfterMarkAsPaid(s)) == AfterMarkAsPaid(s)
    ensures AfterMarkAsOverdue(AfterMarkAsOverdue(s)) == AfterMarkAsOverdue(s)
    ensures AfterMarkAsOverdue(s) == Paid <==> s == Paid
  {
  }

  /** Paid is absorbing: after any sequence of marks an installment is Paid
      exactly when it started Paid or was marked Paid at some point, and a
      non-empty sequence that leaves it unpaid leaves it Overdue. */
  lemma {:induction false} MarksOutcome(s: LoanInstallmentStatus, marks: seq<Mark>)
    ensures ApplyMarks(s, marks) == Paid <==> (s == Paid || MarkPaid in marks)
    ensures marks != [] && ApplyMarks(s, marks) != Paid ==> ApplyMarks(s, marks) == Overdue
    decreases |marks|
  {
    if marks != [] {
      var init := marks[..|marks| - 1];
      MarksOutcome(s, init);
      assert marks == init + [marks[|marks| - 1]];
      assert MarkPaid in marks <==> (MarkPaid in init || marks[|marks| - 1] == MarkPaid);
    }
  }

  /* ------------- Installments ------------- */

  const LoanRequired := Exception(ArgumentException, "El préstamo es requerido.")
  const NumberNotPositive := Exception(ArgumentException, "El número de cuota debe ser mayor que cero.")
  const PaymentNotPositive := Exception(ArgumentException, "El valor de la cuota debe ser mayor que cero.")
  const CapitalNegative := Exception(ArgumentException, "La porción de capital no puede ser negativa.")
  const InterestNegative := Exception(ArgumentException, "La porción de interés no puede ser negativa.")
  const RemainingNegative := Exception(ArgumentException, "El saldo restante no puede ser negativo.")

  /** The exception the installment constructor throws, checks taken in the
      source's order, or `None` when it accepts its arguments. */
  function InstallmentError(loanId: Guid, number: int, payment: real, capital: real,
                            interest: real, remaining: real): (r: Option<Exception>)
    ensures r.None? <==>
      loanId != EmptyGuid && number > 0 && payment > 0.0 && capital >= 0.0 && interest >= 0.0 && remaining >= 0.0
    ensures r.Some? ==> r.value.kind == ArgumentException
    ensures loanId == EmptyGuid ==> r == Some(LoanRequired)
  {
    if loanId == EmptyGuid then Some(LoanRequired)
    else if number <= 0 then Some(NumberNotPositive)
    else if payment <= 0.0 then Some(PaymentNotPositive)
    else if capital < 0.0 then Some(CapitalNegative)
    else if interest < 0.0 then Some(InterestNegative)
    else if remaining < 0.0 then Some(RemainingNegative)
    else None
  }

  /** Everything an installment holds. */
  datatype InstallmentRecord = InstallmentRecord(
    loanId: Guid, number: int, dueDate: Date, monthlyPayment: real,
    capitalPortion: real, interestPortion: real, remainingBalance: real,
    status: LoanInstallmentStatus)

  class LoanInstallment {
    const loanId: Guid
    const installmentNumber: int
    const dueDate: Date
    const monthlyPayment: real
    const capitalPortion: real
    const interestPortion: real
    const remainingBalance: real
    var status: LoanInstallmentStatus

    function Record(): InstallmentRecord
      reads this
    {
      InstallmentRecord(loanId, installmentNumber, dueDate, monthlyPayment,
                        capitalPortion, interestPortion, remainingBalance, status)
    }

    /** The private constructor, reached only through `Create` once the
        checks pass. */
    constructor (loanId: Guid, installmentNumber: int, dueDate: Date, monthlyPayment: real,
                 capitalPortion: real, interestPortion: real, remainingBalance: real)
      requires InstallmentError(loanId, installmentNumber, monthlyPayment, capitalPortion,
                                interestPortion, remainingBalance).None?
      ensures Record() == InstallmentRecord(loanId, installmentNumber, dueDate, monthlyPayment,
                                            capitalPortion, interestPortion, remainingBalance, Pending)
    {
      this.loanId, this.installmentNumber, this.dueDate := loanId, installmentNumber, dueDate;
      this.monthlyPayment, this.capitalPortion := monthlyPayment, capitalPortion;
      this.interestPortion, this.remainingBalance := interestPortion, remainingBalance;
      status := Pending;
    }

    static method Create(loanId: Guid, installmentNumber: int, dueDate: Date, monthlyPayment: real,
                         capitalPortion: real, interestPortion: real, remainingBalance: real)
      returns (r: Try<LoanInstallment>)
      ensures match InstallmentError(loanId, installmentNumber, monthlyPayment, capitalPortion,
                                     interestPortion, remainingBalance)
        case Some(e) => r == Throws(e)
        case None =>
          && r.Ok? && fresh(r.value)
          && r.value.Record() == InstallmentRecord(loanId, installmentNumber, dueDate, monthlyPayment,
                                                   capitalPortion, interestPortion, remainingBalance, Pending)
    {
      var e := InstallmentError(loanId, installmentNumber, monthlyPayment, capitalPortion,
                                interestPortion, remainingBalance);
      if e.Some? {
        return Throws(e.value);
      }
      var i := new LoanInstallment(loanId, installmentNumber, dueDate, monthlyPayment,
                                   capitalPortion, interestPortion, remainingBalance);
      r := Ok(i);
    }

    method MarkAsPaid()
      modifies this`status
      ensures status == AfterMarkAsPaid(old(status))
    {
      if status == Paid {
        return;
      }
      status := Paid;
    }

    method MarkAsOverdue()
      modifies this`status
      ensures status == AfterMarkAsOverdue(old(status))
    {
      if status == Paid {
        return;
      }
      status := Overdue;
    }
  }

  /** The records of a list of installments, in list order. */
  function Records(s: seq<LoanInstallment>): (rs: seq<InstallmentRecord>)
    reads s
    ensures |rs| == |s| && forall k :: 0 <= k < |s| ==> rs[k] == s[k].Record()
  {
    seq(|s|, k reads s requires 0 <= k < |s| => s[k].Record())
  }

  /* ------------- Loans ------------- */

  const ClientRequired := Exception(ArgumentException, "El cliente es requerido.")
  const LoanNumberRequired := Exception(ArgumentException, "El número de préstamo es requerido.")
  const CapitalNotPositive := Exception(ArgumentException, "El monto del préstamo debe ser mayor que cero.")
  const RateNotPositive := Exception(ArgumentException, "La tasa anual debe ser mayor que cero.")
  const TermNotPositive := Exception(ArgumentException, "El plazo en meses debe ser mayor que cero.")

  /** The exception the loan constructor throws, checks taken in the source's
      order, or `None` when it accepts its arguments. */
  function LoanError(userId: Guid, loanNumber: string, capital: real, annualInterestRate: real,
                     termInMonths: int): (r: Option<Exception>)
    ensures r.None? <==>
      userId != EmptyGuid && !IsBlank(loanNumber) && capital > 0.0 && annualInterestRate > 0.0 && termInMonths > 0
    ensures r.Some? ==> r.value.kind == ArgumentException
    ensures (userId != EmptyGuid && !IsBlank(loanNumber) && capital > 0.0 && annualInterestRate > 0.0
             && termInMonths <= 0) ==> r == Some(TermNotPositive)
  {
    if userId == EmptyGuid then Some(ClientRequired)
    else if IsBlank(loanNumber) then Some(LoanNumberRequired)
    else if capital <= 0.0 then Some(CapitalNotPositive)
    else if annualInterestRate <= 0.0 then Some(RateNotPositive)
    else if termInMonths <= 0 then Some(TermNotPositive)
    else None
  }

  class Loan {
    const id: Guid
    const loanNumber: string
    const userId: Guid
    const capital: real
    const termInMonths: int
    var annualInterestRate: real
    var status: LoanStatus
    var isHighRisk: bool
    var installments: seq<LoanInstallment>

    /** The private constructor, reached only through `Create` once the
        checks pass; `id` is the identity `Guid.NewGuid` would draw. */
    constructor (id: Guid, userId: Guid, loanNumber: string, capital: real, annualInterestRate: real,
                 termInMonths: int, isHighRisk: bool)
      requires LoanError(userId, loanNumber, capital, annualInterestRate, termInMonths).None?
      ensures this.id == id && this.userId == userId && this.loanNumber == loanNumber
      ensures this.capital == capital && this.annualInterestRate == annualInterestRate
      ensures this.termInMonths == termInMonths && this.isHighRisk == isHighRisk
      ensures status == Activo && installments == []
    {
      this.id, this.userId, this.loanNumber := id, userId, loanNumber;
      this.capital, this.annualInterestRate, this.termInMonths := capital, annualInterestRate, termInMonths;
      this.isHighRisk := isHighRisk;
      status := Activo;
      installments := [];
    }

    static method Create(id: Guid, userId: Guid, loanNumber: string, capital: real, annualInterestRate: real,
                         termInMonths: int, isHighRisk: bool)
      returns (r: Try<Loan>)
      ensures match LoanError(userId, loanNumber, capital, annualInterestRate, termInMonths)
        case Some(e) => r == Throws(e)
        case None =>
          && r.Ok? && fresh(r.value)
          && r.value.id == id && r.value.userId == userId && r.value.loanNumber == loanNumber
          && r.value.capital == capital && r.value.annualInterestRate == annualInterestRate
          && r.value.termInMonths == termInMonths && r.value.isHighRisk == isHighRisk
          && r.value.status == Activo && r.value.installments == []
    {
      var e := LoanError(userId, loanNumber, capital, annualInterestRate, termInMonths);
      if e.Some? {
        return Throws(e.value);
      }
      var loan := new Loan(id, userId, loanNumber, capital, annualInterestRate, termInMonths, isHighRisk);
      r := Ok(loan);
    }

    method MarkAsHighRisk()
      modifies this`isHighRisk
      ensures isHighRisk
    {
      isHighRisk := true;
    }

    /** No transition guard: any status may follow any other. */
    method ChangeStatus(newStatus: LoanStatus)
      modifies this`status
      ensures status == newStatus
    {
      status := newStatus;
    }

    method UpdateAnnualInterestRate(newAnnualRate: real) returns (r: Try<()>)
      modifies this`annualInterestRate
      ensures newAnnualRate <= 0.0 ==> r == Throws(RateNotPositive) && annualInterestRate == old(annualInterestRate)
      ensures newAnnualRate > 0.0 ==> r == Ok(()) && annualInterestRate == newAnnualRate
    {
      if newAnnualRate <= 0.0 {
        return Throws(RateNotPositive);
      }
      annualInterestRate := newAnnualRate;
      r := Ok(());
    }
  }
}
