/** Credit cards and their charges
    (src/ArtemisBanking.Core.Domain/Entities/CreditCard.cs and
    CreditCardTransaction.cs). A card is an object whose debt, limit, status
    and list of posted charges are updated in place; a charge is an object
    whose status alone can be overwritten after creation. */
module Cards {
  import opened Common

  /** `Blocked` stands for the blocked status the posting error message
      names; the model only distinguishes `Active` from the rest. */
  datatype CreditCardStatus = Active | Blocked | Cancelled
  datatype CreditCardTransactionType = Purchase | CashAdvance | Payment
  datatype CreditCardTransactionStatus = Approved | Rejected

  const CardNotActive := Exception(InvalidOperationException,
    "No se pueden registrar transacciones en una tarjeta cancelada o bloqueada.")
  const LimitBelowDebt := Exception(InvalidOperationException,
    "El nuevo límite no puede ser menor que la deuda actual.")
  const DebtOutstanding := Exception(InvalidOperationException,
    "No se puede cancelar una tarjeta con deuda pendiente.")

  class CreditCardTransaction {
    const creditCardId: Guid
    const amount: real
    const description: string
    const transactionType: CreditCardTransactionType
    var status: CreditCardTransactionStatus

    /** `Create`: copies the arguments, validates nothing, starts Approved. */
    constructor Create(creditCardId: Guid, amount: real, description: string,
                       transactionType: CreditCardTransactionType)
      ensures this.creditCardId == creditCardId && this.amount == amount
      ensures this.description == description && this.transactionType == transactionType
      ensures status == Approved
    {
      this.creditCardId, this.amount := creditCardId, amount;
      this.description, this.transactionType := description, transactionType;
      status := Approved;
    }

    method MarkAsApproved()
      modifies this`status
      ensures status == Approved
    {
      status := Approved;
    }

    method MarkAsRejected()
      modifies this`status
      ensures status == Rejected
    {
      status := Rejected;
    }
  }

  /* ------------- The card's balance as a value ------------- */

  /** What the card's mutators read and write, apart from the posted list. */
  datatype CardState = CardState(limit: real, debt: real, status: CreditCardStatus)

  /** The outcome of posting one charge: the new state, whether the charge is
      appended to the card's list, and whether it is marked Rejected. */
  datatype Posting = Posting(state: CardState, appended: bool, rejected: bool)

  predicate IsCharge(t: CreditCardTransactionType)
  {
    t == Purchase || t == CashAdvance
  }

  /** `RegisterTransaction` AS WRITTEN: a charge that would exceed the limit is
      rejected and not appended, but the debt has already been raised. */
  function PostAsWritten(s: CardState, t: CreditCardTransactionType, amount: real): Try<Posting>
  {
    if s.status != Active then Throws(CardNotActive)
    else if t == Payment then
      var d := s.debt - amount;
      Ok(Posting(s.(debt := if d < 0.0 then 0.0 else d), true, false))
    else
      var d := s.debt + amount;
      if d > s.limit then Ok(Posting(s.(debt := d), false, true))
      else Ok(Posting(s.(debt := d), true, false))
  }

  /** `RegisterTransaction` as evidently intended: a rejected charge leaves
      the debt where it was. */
  function PostIntended(s: CardState, t: CreditCardTransactionType, amount: real): Try<Posting>
  {
    if s.status != Active then Throws(CardNotActive)
    else if t == Payment then
      var d := s.debt - amount;
      Ok(Posting(s.(debt := if d < 0.0 then 0.0 else d), true, false))
    else if s.debt + amount > s.limit then Ok(Posting(s, false, true))
    else Ok(Posting(s.(debt := s.debt + amount), true, false))
  }

  /** The card's own invariant: no negative debt, and the debt within the limit. */
  predicate WithinLimit(s: CardState)
  {
    0.0 <= s.debt <= s.limit
  }

  /** Posting on a card that is not Active throws and changes nothing; a
      payment floors the debt at 0 and is appended; a charge is appended
      exactly when debt + amount stays within the limit, and otherwise is
      marked Rejected with the debt left at debt + amount. Limit and status
      never change. */
  lemma PostAsWrittenCases(s: CardState, t: CreditCardTransactionType, amount: real)
    ensures var r := PostAsWritten(s, t, amount);
      && (r.Throws? <==> s.status != Active)
      && (r.Throws? ==> r.error == CardNotActive)
      && (r.Ok? ==> r.value.state.limit == s.limit && r.value.state.status == s.status)
      && (r.Ok? && t == Payment ==>
            r.value.appended && !r.value.rejected
            && r.value.state.debt == (if s.debt - amount < 0.0 then 0.0 else s.debt - amount))
      && (r.Ok? && IsCharge(t) ==>
            && (r.value.appended <==> s.debt + amount <= s.limit)
            && (r.value.rejected <==> !r.value.appended)
            && r.value.state.debt == s.debt + amount)
  {
  }

  /** As written, a rejected charge always leaves the card over its limit. */
  lemma {:induction false} RejectedChargeOverLimit(s: CardState, t: CreditCardTransactionType, amount: real)
    requires PostAsWritten(s, t, amount).Ok? && PostAsWritten(s, t, amount).value.rejected
    ensures !WithinLimit(PostAsWritten(s, t, amount).value.state)
  {
  }

  /** A concrete run of the posting rule as written: with limit 1000 and debt
      900, a purchase of 150 is rejected yet the debt becomes 1050; a
      following purchase of 50, which fits under the limit the approved
      charges leave, is then rejected too, and the debt climbs to 1100. */
  lemma RejectedChargeRaisesDebt()
    ensures var s := CardState(1000.0, 900.0, Active);
      var p1 := PostAsWritten(s, Purchase, 150.0);
      && p1.Ok? && p1.value.rejected && !p1.value.appended && p1.value.state.debt == 1050.0
      && var p2 := PostAsWritten(p1.value.state, Purchase, 50.0);
      && p2.Ok? && p2.value.rejected && p2.value.state.debt == 1100.0
      && PostIntended(s, Purchase, 150.0) == Ok(Posting(s, false, true))
      && PostIntended(s, Purchase, 50.0).value.appended
  {
  }

  /** With the intended rule, every non-negative posting on an Active card
      keeps 0 <= debt <= limit, and a rejected charge changes nothing. */
  lemma {:induction false} PostIntendedKeepsWithinLimit(s: CardState, t: CreditCardTransactionType, amount: real)
    requires WithinLimit(s) && amount >= 0.0
    ensures var r := PostIntended(s, t, amount);
      && (r.Ok? ==> WithinLimit(r.value.state))
      && (r.Ok? && r.value.rejected ==> r.value.state == s && !r.value.appended)
      && (r.Ok? && IsCharge(t) ==> (r.value.appended <==> s.debt + amount <= s.limit))
  {
  }

  /** The two rules differ only in the debt left by a rejected charge. */
  lemma PostRulesAgreeOnAccepted(s: CardState, t: CreditCardTransactionType, amount: real)
    ensures PostAsWritten(s, t, amount).Throws? == PostIntended(s, t, amount).Throws?
    ensures PostAsWritten(s, t, amount).Ok? && !PostAsWritten(s, t, amount).value.rejected
            ==> PostAsWritten(s, t, amount) == PostIntended(s, t, amount)
  {
  }

  /** `ChangeLimit`: throws when the new limit is below the debt; otherwise
      sets the limit alone, so the debt stays within it. */
  function ChangeLimitState(s: CardState, newLimit: real): (r: Try<CardState>)
    ensures r.Throws? <==> newLimit < s.debt
    ensures r.Throws? ==> r.error == LimitBelowDebt
    ensures r.Ok? ==> r.value.limit == newLimit && r.value.debt == s.debt && r.value.status == s.status
    ensures r.Ok? && s.debt >= 0.0 ==> WithinLimit(r.value)
  {
    if newLimit < s.debt then Throws(LimitBelowDebt) else Ok(s.(limit := newLimit))
  }

  /** `Cancel`: throws while there is debt; otherwise the card is Cancelled,
      whatever its status was, so cancelling twice succeeds twice. */
  function CancelState(s: CardState): (r: Try<CardState>)
    ensures r.Throws? <==> s.debt > 0.0
    ensures r.Throws? ==> r.error == DebtOutstanding
    ensures r.Ok? ==> r.value == CardState(s.limit, s.debt, Cancelled)
  {
    if s.debt > 0.0 then Throws(DebtOutstanding) else Ok(s.(status := Cancelled))
  }

  /** Cancelling a cancelled card again succeeds and changes nothing. */
  lemma CancelIdempotent(s: CardState)
    requires CancelState(s).Ok?
    ensures CancelState(CancelState(s).value) == CancelState(s)
  {
  }

  /* ------------- The card object ------------- */

  class CreditCard {
    const id: Guid
    const userId: Guid
    const assignedByAdminUserId: Guid
    const cardNumber: string
    const cvcHash: string
    const expirationMonth: int
    const expirationYear: int
    var creditLimit: real
    var currentDebt: real
    var status: CreditCardStatus
    var transactions: seq<CreditCardTransaction>

    function State(): CardState
      reads this
    {
      CardState(creditLimit, currentDebt, status)
    }

    /** `AssignToClient`: a new Active card with no debt and no charges. */
    constructor AssignToClient(id: Guid, userId: Guid, assignedByAdminUserId: Guid, cardNumber: string,
                               limit: real, expMonth: int, expYear: int, cvcHash: string)
      ensures this.id == id && this.userId == userId && this.assignedByAdminUserId == assignedByAdminUserId
      ensures this.cardNumber == cardNumber && this.cvcHash == cvcHash
      ensures expirationMonth == expMonth && expirationYear == expYear
      ensures State() == CardState(limit, 0.0, Active) && transactions == []
    {
      this.id, this.userId, this.assignedByAdminUserId := id, userId, assignedByAdminUserId;
      this.cardNumber, this.cvcHash := cardNumber, cvcHash;
      expirationMonth, expirationYear := expMonth, expYear;
      creditLimit, currentDebt, status := limit, 0.0, Active;
      transactions := [];
    }

    /** `RegisterTransaction`, as written: only the debt, the posted list and
        the charge's status can change, as `PostAsWritten` says. */
    method RegisterTransaction(tx: CreditCardTransaction) returns (r: Try<()>)
      modifies this`currentDebt, this`transactions, tx`status
      ensures match PostAsWritten(old(State()), tx.transactionType, tx.amount)
        case Throws(e) =>
          r == Throws(e) && State() == old(State()) && transactions == old(transactions)
          && tx.status == old(tx.status)
        case Ok(p) =>
          && r == Ok(()) && State() == p.state
          && transactions == (if p.appended then old(transactions) + [tx] else old(transactions))
          && tx.status == (if p.rejected then Rejected else old(tx.status))
    {
      if status != Active {
        return Throws(CardNotActive);
      }
      if tx.transactionType == Payment {
        currentDebt := currentDebt - tx.amount;
        if currentDebt < 0.0 {
          currentDebt := 0.0;
        }
      } else {
        currentDebt := currentDebt + tx.amount;
        if currentDebt > creditLimit {
          tx.MarkAsRejected();
          return Ok(());
        }
      }
      transactions := transactions + [tx];
      r := Ok(());
    }

    method ChangeLimit(newLimit: real) returns (r: Try<()>)
      modifies this`creditLimit
      ensures match ChangeLimitState(old(State()), newLimit)
        case Throws(e) => r == Throws(e) && State() == old(State())
        case Ok(s) => r == Ok(()) && State() == s
    {
      if newLimit < currentDebt {
        return Throws(LimitBelowDebt);
      }
      creditLimit := newLimit;
      r := Ok(());
    }

    method Cancel() returns (r: Try<()>)
      modifies this`status
      ensures match CancelState(old(State()))
        case Throws(e) => r == Throws(e) && State() == old(State())
        case Ok(s) => r == Ok(()) && State() == s
    {
      if currentDebt > 0.0 {
        return Throws(DebtOutstanding);
      }
      status := Cancelled;
      r := Ok(());
    }
  }
}
