/** Savings accounts and their ledger
    (src/ArtemisBanking.Core.Domain/Entities/SavingsAccount.cs and
    SavingsAccountTransaction.cs). The account is an object whose balance and
    transaction list `Credit` and `Debit` update in place; a ledger entry is
    an immutable record. */
module Savings {
  import opened Common

  datatype AccountType = Principal | Secundaria
  datatype AccountStatus = Activa
  datatype TransactionType = Credito | Debito
  datatype TransactionOrigin = Cajero | Transferencia | Prestamo | TarjetaCredito | HermesPay | AjusteManual | System
  datatype TransactionStatus = Aprobada

  /** A ledger entry. It has no mutator, so it is a value. */
  datatype SavingsAccountTransaction = SavingsAccountTransaction(
    savingsAccountId: Guid,
    amount: real,
    txType: TransactionType,
    origin: TransactionOrigin,
    status: TransactionStatus,
    description: string,
    balanceAfterTransaction: real)

  /** `SavingsAccountTransaction.Create`: copies its arguments, validates
      nothing, and always records the entry as approved. */
  function CreateTransaction(accountId: Guid, amount: real, txType: TransactionType, origin: TransactionOrigin,
                             description: string, balanceAfter: real): (tx: SavingsAccountTransaction)
    ensures tx.savingsAccountId == accountId && tx.amount == amount && tx.txType == txType
    ensures tx.origin == origin && tx.description == description && tx.balanceAfterTransaction == balanceAfter
    ensures tx.status == Aprobada
  {
    SavingsAccountTransaction(accountId, amount, txType, origin, Aprobada, description, balanceAfter)
  }

  const AmountNotPositive := Exception(ArgumentException, "El monto debe ser mayor que cero.")
  const InsufficientFunds := Exception(InvalidOperationException, "Fondos insuficientes.")

  /* ------------- The ledger as a value: specification of Credit and Debit ------------- */

  /** What `Credit` and `Debit` can change: the balance and the entries. */
  datatype Ledger = Ledger(balance: real, transactions: seq<SavingsAccountTransaction>)

  function CreditLedger(accountId: Guid, l: Ledger, amount: real, description: string,
                        origin: TransactionOrigin): Try<Ledger>
  {
    if amount <= 0.0 then Throws(AmountNotPositive)
    else
      var b := l.balance + amount;
      Ok(Ledger(b, l.transactions + [CreateTransaction(accountId, amount, Credito, origin, description, b)]))
  }

  function DebitLedger(accountId: Guid, l: Ledger, amount: real, description: string,
                       origin: TransactionOrigin): Try<Ledger>
  {
    if amount <= 0.0 then Throws(AmountNotPositive)
    else if l.balance < amount then Throws(InsufficientFunds)
    else
      var b := l.balance - amount;
      Ok(Ledger(b, l.transactions + [CreateTransaction(accountId, amount, Debito, origin, description, b)]))
  }

  /** The signed effect of an entry on the balance. */
  function Effect(tx: SavingsAccountTransaction): real
  {
    if tx.txType == Credito then tx.amount else -tx.amount
  }

  /** The balance obtained by replaying `txs` from `opening`. */
  function Replay(opening: real, txs: seq<SavingsAccountTransaction>): real
  {
    if txs == [] then opening else Replay(opening, txs[..|txs| - 1]) + Effect(txs[|txs| - 1])
  }

  /** The ledger justifies the balance: every entry's balance snapshot is the
      replay of the entries up to it, and the balance is the replay of all. */
  predicate Justified(opening: real, l: Ledger)
  {
    && l.balance == Replay(opening, l.transactions)
    && forall k :: 0 <= k < |l.transactions| ==>
         l.transactions[k].balanceAfterTransaction == Replay(opening, l.transactions[..k + 1])
  }

  /** One successful entry keeps the ledger justified. */
  lemma AppendKeepsJustified(opening: real, l: Ledger, tx: SavingsAccountTransaction)
    requires Justified(opening, l)
    requires tx.balanceAfterTransaction == l.balance + Effect(tx)
    ensures Justified(opening, Ledger(tx.balanceAfterTransaction, l.transactions + [tx]))
  {
    var txs := l.transactions + [tx];
    assert txs[..|txs| - 1] == l.transactions;
    forall k | 0 <= k < |txs|
      ensures txs[k].balanceAfterTransaction == Replay(opening, txs[..k + 1])
    {
      if k < |l.transactions| {
        assert txs[..k + 1] == l.transactions[..k + 1];
      } else {
        assert txs[..k + 1] == txs;
      }
    }
  }

  /** A credit either throws for a non-positive amount or raises the balance
      by exactly the amount, appends exactly one approved `Credito` entry
      carrying the arguments and the new balance, and keeps every earlier
      entry and the ledger's justification. */
  lemma CreditSpec(accountId: Guid, opening: real, l: Ledger, amount: real, description: string, origin: TransactionOrigin)
    requires Justified(opening, l)
    ensures var r := CreditLedger(accountId, l, amount, description, origin);
      && (r.Throws? <==> amount <= 0.0)
      && (r.Throws? ==> r.error == AmountNotPositive)
      && (r.Ok? ==>
            && r.value.balance == l.balance + amount
            && |r.value.transactions| == |l.transactions| + 1
            && r.value.transactions[..|l.transactions|] == l.transactions
            && r.value.transactions[|l.transactions|]
               == SavingsAccountTransaction(accountId, amount, Credito, origin, Aprobada, description, r.value.balance)
            && Justified(opening, r.value))
  {
    if amount > 0.0 {
      var b := l.balance + amount;
      var tx := CreateTransaction(accountId, amount, Credito, origin, description, b);
      AppendKeepsJustified(opening, l, tx);
      assert (l.transactions + [tx])[..|l.transactions|] == l.transactions;
    }
  }

  /** A debit throws, with the amount check first, unless
      0 < amount <= balance; otherwise it lowers the balance by exactly the
      amount, appends one `Debito` entry recording the new balance, and keeps
      earlier entries and the justification. So a non-negative balance stays
      non-negative, and debiting the whole balance leaves exactly 0. */
  lemma DebitSpec(accountId: Guid, opening: real, l: Ledger, amount: real, description: string, origin: TransactionOrigin)
    requires Justified(opening, l)
    ensures var r := DebitLedger(accountId, l, amount, description, origin);
      && (amount <= 0.0 ==> r == Throws(AmountNotPositive))
      && (amount > 0.0 && l.balance < amount ==> r == Throws(InsufficientFunds))
      && (r.Ok? <==> 0.0 < amount <= l.balance)
      && (r.Ok? ==>
            && r.value.balance == l.balance - amount
            && (l.balance >= 0.0 ==> r.value.balance >= 0.0)
            && (amount == l.balance ==> r.value.balance == 0.0)
            && |r.value.transactions| == |l.transactions| + 1
            && r.value.transactions[..|l.transactions|] == l.transactions
            && r.value.transactions[|l.transactions|]
               == SavingsAccountTransaction(accountId, amount, Debito, origin, Aprobada, description, r.value.balance)
            && Justified(opening, r.value))
  {
    if 0.0 < amount <= l.balance {
      var b := l.balance - amount;
      var tx := CreateTransaction(accountId, amount, Debito, origin, description, b);
      AppendKeepsJustified(opening, l, tx);
      assert (l.transactions + [tx])[..|l.transactions|] == l.transactions;
    }
  }

  /** Crediting back what was debited restores the balance, and the ledger
      keeps both entries, the debit first. */
  lemma DebitThenCreditRestores(accountId: Guid, l: Ledger, amount: real, d1: string, d2: string,
                                o1: TransactionOrigin, o2: TransactionOrigin)
    requires DebitLedger(accountId, l, amount, d1, o1).Ok?
    ensures var m := DebitLedger(accountId, l, amount, d1, o1).value;
      var r := CreditLedger(accountId, m, amount, d2, o2);
      && r.Ok? && r.value.balance == l.balance
      && |r.value.transactions| == |l.transactions| + 2
      && r.value.transactions[..|l.transactions|] == l.transactions
      && r.value.transactions[|l.transactions|].txType == Debito
      && r.value.transactions[|l.transactions| + 1].txType == Credito
  {
    var m := DebitLedger(accountId, l, amount, d1, o1).value;
    var r := CreditLedger(accountId, m, amount, d2, o2).value;
    assert r.transactions[..|l.transactions|] == m.transactions[..|l.transactions|];
    assert m.transactions[..|l.transactions|] == l.transactions;
  }

  /* ------------- The account object ------------- */

  class SavingsAccount {
    const id: Guid
    const accountNumber: string
    const accountType: AccountType
    const status: AccountStatus
    const userId: Guid
    var balance: real
    var transactions: seq<SavingsAccountTransaction>

    /** The balance the account was opened with; the ledger is replayed from it. */
    ghost const openingBalance: real

    function Snapshot(): Ledger
      reads this
    {
      Ledger(balance, transactions)
    }

    ghost predicate Valid()
      reads this
    {
      Justified(openingBalance, Snapshot())
    }

    /** The shared private constructor: the initial amount is not validated. */
    constructor (id: Guid, userId: Guid, accountNumber: string, initialAmount: real, isPrincipal: bool)
      ensures this.id == id && this.userId == userId && this.accountNumber == accountNumber
      ensures accountType == (if isPrincipal then Principal else Secundaria) && status == Activa
      ensures balance == initialAmount && transactions == [] && openingBalance == initialAmount
      ensures Valid()
    {
      this.id, this.userId, this.accountNumber := id, userId, accountNumber;
      balance := initialAmount;
      accountType := if isPrincipal then Principal else Secundaria;
      status := Activa;
      transactions := [];
      openingBalance := initialAmount;
    }

    static method CreatePrincipal(id: Guid, userId: Guid, accountNumber: string, initialAmount: real)
      returns (a: SavingsAccount)
      ensures fresh(a) && a.Valid()
      ensures a.id == id && a.userId == userId && a.accountNumber == accountNumber
      ensures a.accountType == Principal && a.status == Activa
      ensures a.balance == initialAmount && a.transactions == []
    {
      a := new SavingsAccount(id, userId, accountNumber, initialAmount, true);
    }

    static method CreateSecondary(id: Guid, userId: Guid, accountNumber: string, initialAmount: real)
      returns (a: SavingsAccount)
      ensures fresh(a) && a.Valid()
      ensures a.id == id && a.userId == userId && a.accountNumber == accountNumber
      ensures a.accountType == Secundaria && a.status == Activa
      ensures a.balance == initialAmount && a.transactions == []
    {
      a := new SavingsAccount(id, userId, accountNumber, initialAmount, false);
    }

    /** `Credit`: on a thrown exception nothing changes; otherwise the new
        balance and entries are those of `CreditLedger` and the entry is
        returned. */
    method Credit(amount: real, description: string, origin: TransactionOrigin)
      returns (r: Try<SavingsAccountTransaction>)
      modifies this
      ensures match CreditLedger(id, old(Snapshot()), amount, description, origin)
        case Throws(e) => r == Throws(e) && Snapshot() == old(Snapshot())
        case Ok(l) => Snapshot() == l && r == Ok(transactions[|transactions| - 1])
      ensures old(Valid()) ==> Valid()
    {
      if amount <= 0.0 {
        return Throws(AmountNotPositive);
      }
      ghost var before := Snapshot();
      balance := balance + amount;
      var tx := CreateTransaction(id, amount, Credito, origin, description, balance);
      transactions := transactions + [tx];
      r := Ok(tx);
      if old(Valid()) {
        CreditSpec(id, openingBalance, before, amount, description, origin);
      }
    }

    /** `Debit`: both checks come before any change. */
    method Debit(amount: real, description: string, origin: TransactionOrigin)
      returns (r: Try<SavingsAccountTransaction>)
      modifies this
      ensures match DebitLedger(id, old(Snapshot()), amount, description, origin)
        case Throws(e) => r == Throws(e) && Snapshot() == old(Snapshot())
        case Ok(l) => Snapshot() == l && r == Ok(transactions[|transactions| - 1])
      ensures old(Valid()) ==> Valid()
    {
      if amount <= 0.0 {
        return Throws(AmountNotPositive);
      }
      if balance < amount {
        return Throws(InsufficientFunds);
      }
      ghost var before := Snapshot();
      balance := balance - amount;
      var tx := CreateTransaction(id, amount, Debito, origin, description, balance);
      transactions := transactions + [tx];
      r := Ok(tx);
      if old(Valid()) {
        DebitSpec(id, openingBalance, before, amount, description, origin);
      }
    }
  }
}
