/** The loan service's read side
    (src/ArtemisBanking.Infrastructure.Persistence/Services/LoanService.cs):
    the list-item map, the assignable-clients query and the paging clamps
    shared by the paged queries. */
module LoanViews {
  import opened Common
  import opened Results
  import opened Users
  import opened Loans
  import opened Amortization
  import opened Persistence
  import opened LoanService
  import opened LoanAssignment

  /* ------------- Paging ------------- */

  /** The clamps at the top of the paged queries: a page index below 1
      becomes 1 and a page size below 1 becomes the query's default (20 for
      the loan queries). */
  function ClampPaging(pageIndex: int, pageSize: int, defaultSize: nat): (r: (int, int))
    ensures r.0 >= 1 && (r.1 >= 1 || defaultSize == 0)
    ensures pageIndex >= 1 ==> r.0 == pageIndex
    ensures pageSize >= 1 ==> r.1 == pageSize
    ensures pageIndex <= 0 ==> r.0 == 1
    ensures pageSize <= 0 ==> r.1 == defaultSize
  {
    (if pageIndex <= 0 then 1 else pageIndex, if pageSize <= 0 then defaultSize else pageSize)
  }

  const LoanPageSize: nat := 20

  /** `Skip((pageIndex - 1) * pageSize).Take(pageSize)` on clamped values. */
  function Page<T>(s: seq<T>, pageIndex: nat, pageSize: nat): (r: seq<T>)
    requires pageIndex >= 1
    ensures |r| <= pageSize
  {
    var start := if (pageIndex - 1) * pageSize <= |s| then (pageIndex - 1) * pageSize else |s|;
    var end := if start + pageSize <= |s| then start + pageSize else |s|;
    s[start..end]
  }

  /** `(pageIndex - 1) * pageSize` as the C# `int` product computes it:
      unchecked, so it wraps into the range of a signed 32-bit integer. */
  function SkipCount(pageIndex: int, pageSize: int): (r: int)
    ensures -0x8000_0000 <= r < 0x8000_0000
    ensures (r - (pageIndex - 1) * pageSize) % 0x1_0000_0000 == 0
    ensures -0x8000_0000 <= (pageIndex - 1) * pageSize < 0x8000_0000 ==> r == (pageIndex - 1) * pageSize
  {
    var product := (pageIndex - 1) * pageSize;
    var w := product % 0x1_0000_0000;
    if w >= 0x8000_0000 then w - 0x1_0000_0000 else w
  }

  /** The page as the code computes it: `Skip` by the wrapped count, which
      the database refuses when it is negative (`None`), then
      `Take(pageSize)`. */
  function PageAsWritten<T>(s: seq<T>, pageIndex: nat, pageSize: nat): (r: Option<seq<T>>)
    requires pageIndex >= 1
    ensures r.Some? <==> SkipCount(pageIndex, pageSize) >= 0
    ensures r.Some? ==> |r.value| <= pageSize
    ensures (pageIndex - 1) * pageSize < 0x8000_0000 ==> r == Some(Page(s, pageIndex, pageSize))
  {
    var skip := SkipCount(pageIndex, pageSize);
    if skip < 0 then None
    else
      var start := if skip <= |s| then skip else |s|;
      var end := if start + pageSize <= |s| then start + pageSize else |s|;
      Some(s[start..end])
  }

  /** As written, page 1073741826 of size 4 skips 4 rows and so repeats
      page 2, and page 1073741825 of size 2 asks for a negative offset,
      where the exact skip leaves both pages empty on any table of at most
      2^31 rows. */
  lemma PageSkipWraps<T>(s: seq<T>)
    ensures PageAsWritten(s, 1073741826, 4) == Some(Page(s, 2, 4))
    ensures PageAsWritten(s, 1073741825, 2) == None
    ensures |s| <= 0x8000_0000 ==> Page(s, 1073741826, 4) == [] && Page(s, 1073741825, 2) == []
  {
    assert (1073741826 - 1) * 4 == 0x1_0000_0004 && (1073741825 - 1) * 2 == 0x8000_0000;
    assert SkipCount(1073741826, 4) == 4;
    assert SkipCount(1073741825, 2) == -0x8000_0000;
  }

  /** Below the wrap the code's pages are the exact ones, so `PagesTile`
      describes the code for the first `k` pages while `k * pageSize` stays
      within the `int` range. */
  lemma PagesTileAsWritten<T>(s: seq<T>, pageSize: nat, k: nat)
    requires pageSize >= 1 && k * pageSize <= 0x8000_0000
    ensures forall j :: 1 <= j <= k ==> PageAsWritten(s, j, pageSize) == Some(Page(s, j, pageSize))
  {
    forall j | 1 <= j <= k ensures PageAsWritten(s, j, pageSize) == Some(Page(s, j, pageSize)) {
      MulMonotone(j - 1, k - 1, pageSize);
      assert (k - 1) * pageSize + pageSize == k * pageSize;
    }
  }

  lemma MulMonotone(a: nat, b: nat, c: nat)
    requires a <= b
    ensures a * c <= b * c
  {
  }

  /** Clamping is idempotent, and the pages of a clamped size, taken in
      order, lay the whole result out without gaps or repeats: the first
      `k` pages are its first `k * pageSize` elements. */
  lemma {:induction false} PagesTile<T>(s: seq<T>, pageSize: nat, k: nat)
    requires pageSize >= 1
    ensures Concat(s, pageSize, k) == s[..if k * pageSize <= |s| then k * pageSize else |s|]
    decreases k
  {
    if k > 0 {
      PagesTile(s, pageSize, k - 1);
      assert (k - 1) * pageSize + pageSize == k * pageSize;
    }
  }

  /** Pages 1 to `k` of `s`, one after the other. */
  function Concat<T>(s: seq<T>, pageSize: nat, k: nat): seq<T>
    decreases k
  {
    if k == 0 then [] else Concat(s, pageSize, k - 1) + Page(s, k, pageSize)
  }

  lemma ClampIdempotent(pageIndex: int, pageSize: int, defaultSize: nat)
    ensures var r := ClampPaging(pageIndex, pageSize, defaultSize);
      defaultSize >= 1 ==> ClampPaging(r.0, r.1, defaultSize) == r
  {
  }

  /* ------------- The list item ------------- */

  /** `LoanListItemDto`. */
  datatype LoanListItem = LoanListItem(
    id: Guid, loanNumber: string, clientFullName: string, nationalId: string, capital: real,
    termInMonths: int, annualInterestRate: real, totalInstallments: nat, paidInstallments: nat,
    pendingAmount: real, status: LoanStatus, isInArrears: bool)

  /** Some installment is Overdue. */
  predicate AnyOverdue(s: seq<LoanInstallment>)
    reads s
  {
    exists i :: 0 <= i < |s| && s[i].status == Overdue
  }

  /** `MapToLoanListItemDto`: the loan's fields, the owner's name and
      national id, the number of installments and of Paid ones, the capital
      less the Paid capital portions, and whether any installment is
      Overdue. */
  function MapToLoanListItem(loan: Loan, user: ApplicationUser): (d: LoanListItem)
    reads loan, loan.installments, user
    ensures d.paidInstallments <= d.totalInstallments == |loan.installments|
    ensures d.isInArrears <==> exists i :: 0 <= i < |loan.installments| && loan.installments[i].status == Overdue
  {
    LoanListItem(loan.id, loan.loanNumber, FullName(user.firstName, user.lastName), user.nationalId,
                 loan.capital, loan.termInMonths, loan.annualInterestRate, |loan.installments|,
                 |PaidOf(loan.installments)|, loan.capital - PaidCapital(loan.installments), loan.status,
                 AnyOverdue(loan.installments))
  }

  lemma {:induction false} NonePaid(s: seq<LoanInstallment>)
    requires forall i :: 0 <= i < |s| ==> s[i].status != Paid
    ensures PaidOf(s) == []
    decreases |s|
  {
    if s != [] {
      NonePaid(s[..|s| - 1]);
    }
  }

  lemma {:induction false} AllPaid(s: seq<LoanInstallment>)
    requires forall i :: 0 <= i < |s| ==> s[i].status == Paid
    ensures PaidOf(s) == s
    decreases |s|
  {
    if s != [] {
      AllPaid(s[..|s| - 1]);
    }
  }

  lemma {:induction false} PaidOfAppend(u: seq<LoanInstallment>, v: seq<LoanInstallment>)
    ensures PaidOf(u + v) == PaidOf(u) + PaidOf(v)
    decreases |v|
  {
    if v == [] {
      assert u + v == u;
    } else {
      assert (u + v)[..|u + v| - 1] == u + v[..|v| - 1];
      PaidOfAppend(u, v[..|v| - 1]);
    }
  }

  /** The schedule lays out only Pending installments. */
  lemma ScheduledArePending(installs: seq<LoanInstallment>, base: nat, loanId: Guid, rows: seq<Period>,
                            firstDue: Date, k: nat)
    requires AppendedSchedule(installs, base, loanId, rows, firstDue, k)
    ensures forall i :: base <= i < |installs| ==> installs[i].status == Pending
  {
    forall i | base <= i < |installs| ensures installs[i].status == Pending {
      assert installs[base + (i - base)].Record()
             == StoredRecord(loanId, base + (i - base) + 1, AddMonths(firstDue, i - base), rows[i - base]);
    }
  }

  /** A loan just assigned lists its whole term as installments, none of
      them Paid, its whole capital as pending, and no arrears. */
  lemma AssignedLoanListing(l: Loan, user: ApplicationUser, id: Guid, clientId: Guid, loanNumber: string,
                            amount: real, annualRate: real, termInMonths: nat, isHighRisk: bool, today: Date,
                            payment: real)
    requires AssignedLoan(l, id, clientId, loanNumber, amount, annualRate, termInMonths, isHighRisk, today, payment)
    ensures var d := MapToLoanListItem(l, user);
      && d.totalInstallments == termInMonths && d.paidInstallments == 0
      && d.pendingAmount == amount && !d.isInArrears && d.status == Activo
  {
    ScheduledArePending(l.installments, 0, id, Schedule(amount, MonthlyRate(annualRate), payment, termInMonths),
                        AddMonths(today, 1), termInMonths);
    NonePaid(l.installments);
  }

  /** A plan carried out leaves the Paid installments it kept first and
      only Pending ones after them. */
  lemma ReplannedTail(after: seq<LoanInstallment>, loanId: Guid, plan: RatePlan)
    requires Replanned(after, loanId, plan)
    ensures after == plan.paid + after[|plan.paid|..]
    ensures forall i :: |plan.paid| <= i < |after| ==> after[i].status == Pending
  {
    var p := |plan.paid|;
    ScheduledArePending(after, p, loanId, plan.Rows(), plan.unpaid[0].dueDate,
                        FirstRejected(loanId, p, plan.Rows(), 0));
    assert after == after[..p] + after[p..];
  }

  /** When a plan keeps only Paid installments, carrying it out leaves
      those as the Paid ones, in their order, and none Overdue. */
  lemma ReplannedPaid(after: seq<LoanInstallment>, loanId: Guid, plan: RatePlan)
    requires Replanned(after, loanId, plan)
    requires forall i :: 0 <= i < |plan.paid| ==> plan.paid[i].status == Paid
    ensures PaidOf(after) == plan.paid
    ensures !AnyOverdue(after)
  {
    var p := |plan.paid|;
    ReplannedTail(after, loanId, plan);
    var tail := after[p..];
    assert forall i :: 0 <= i < |tail| ==> tail[i] == after[p + i];
    AllPaid(plan.paid);
    NonePaid(tail);
    PaidOfAppend(plan.paid, tail);
    forall i | 0 <= i < |after| ensures after[i].status != Overdue {
      if i < p {
        assert after[i] == plan.paid[i];
      }
    }
  }

  /** A rate change the constructor accepts throughout leaves the listing's
      installment count, Paid count and pending amount as they were, and
      clears the arrears flag: every Overdue installment has been replaced
      by a Pending one. */
  lemma RateChangeListing(before: seq<LoanInstallment>, after: seq<LoanInstallment>, loanId: Guid,
                          capital: real, newAnnualRate: real, payment: real)
    requires var plan := PlanRateChange(before, capital, newAnnualRate, payment);
      Replanned(after, loanId, plan) && ScheduleOutcome(loanId, |plan.paid|, plan.Rows()).None?
    ensures |after| == |before|
    ensures |PaidOf(after)| == |PaidOf(before)|
    ensures PaidCapital(after) == PaidCapital(before)
    ensures !AnyOverdue(after)
  {
    var plan := PlanRateChange(before, capital, newAnnualRate, payment);
    AcceptedRateChangeKeepsCount(before, after, loanId, capital, newAnnualRate, payment);
    PlanSplitsInstallments(before, capital, newAnnualRate, payment);
    ReplannedPaid(after, loanId, plan);
    CapitalSumPermutation(plan.paid, PaidOf(before));
  }

  /* ------------- Assignable clients ------------- */

  /** `AssignableClientDto`. */
  datatype AssignableClient = AssignableClient(
    clientId: Guid, fullName: string, nationalId: string, currentDebt: real, systemAverageDebt: real,
    hasActiveLoan: bool)

  /** The clients query: active Clients, and with a non-blank filter only
      those whose national id contains it. `None` is a null filter. */
  predicate ClientMatches(u: ApplicationUser, nationalId: Option<string>)
    reads u
  {
    && u.role == Client && u.isActive
    && (nationalId.None? || IsBlank(nationalId.value) || ContainsSubstring(u.nationalId, nationalId.value))
  }

  function MatchingClients(users: seq<ApplicationUser>, nationalId: Option<string>): (r: seq<ApplicationUser>)
    reads users
    decreases |users|
  {
    if users == [] then []
    else
      var u := users[|users| - 1];
      MatchingClients(users[..|users| - 1], nationalId) + (if ClientMatches(u, nationalId) then [u] else [])
  }

  /** The rows the loop emits for `clients`: one per client without an
      active loan, carrying its active debt and the system average. */
  function AssignableRows(clients: seq<ApplicationUser>, loans: seq<Loan>, average: real): seq<AssignableClient>
    reads clients, loans
    decreases |clients|
  {
    if clients == [] then []
    else
      var c := clients[|clients| - 1];
      AssignableRows(clients[..|clients| - 1], loans, average)
      + (if HasActiveLoan(loans, c.id) then []
         else [AssignableClient(c.id, FullName(c.firstName, c.lastName), c.nationalId,
                                Sum(ActiveCapitals(loans, Some(c.id))), average, false)])
  }

  /** `GetAssignableClientsAsync`: the mean capital of the `Activo` loans
      (0 when there are none), then a loop over the matching clients that
      skips those with an active loan. */
  method GetAssignableClients(db: BankingDb, nationalId: Option<string>)
    returns (r: ResultOf<seq<AssignableClient>>)
    ensures r == SuccessOf(AssignableRows(MatchingClients(db.users, nationalId), db.loans,
                                          Average(ActiveCapitals(db.loans, None))))
  {
    var systemAverageDebt := 0.0;
    if |ActiveCapitals(db.loans, None)| > 0 {
      systemAverageDebt := Average(ActiveCapitals(db.loans, None));
    }
    var clients := MatchingClients(db.users, nationalId);
    var resultList: seq<AssignableClient> := [];
    for i := 0 to |clients|
      invariant resultList == AssignableRows(clients[..i], db.loans, systemAverageDebt)
    {
      var client := clients[i];
      assert clients[..i + 1][..i] == clients[..i];
      var currentDebt := Sum(ActiveCapitals(db.loans, Some(client.id)));
      var hasActiveLoan := HasActiveLoan(db.loans, client.id);
      if hasActiveLoan {
        continue;
      }
      resultList := resultList + [AssignableClient(client.id, FullName(client.firstName, client.lastName),
                                                   client.nationalId, currentDebt, systemAverageDebt,
                                                   hasActiveLoan)];
    }
    assert clients[..|clients|] == clients;
    r := SuccessOf(resultList);
  }

  /** The matching clients are exactly the users the query selects. */
  lemma {:induction false} MatchingClientsMembers(users: seq<ApplicationUser>, nationalId: Option<string>)
    ensures forall i :: 0 <= i < |MatchingClients(users, nationalId)| ==>
              MatchingClients(users, nationalId)[i] in users && ClientMatches(MatchingClients(users, nationalId)[i], nationalId)
    ensures forall i :: 0 <= i < |users| ==> (users[i] in MatchingClients(users, nationalId) <==> ClientMatches(users[i], nationalId))
    decreases |users|
  {
    if users != [] {
      var init := users[..|users| - 1];
      MatchingClientsMembers(init, nationalId);
      assert forall i :: 0 <= i < |init| ==> users[i] == init[i];
    }
  }

  /** Every row is for one of the clients, has no active loan, a debt of 0
      and the given average. */
  lemma {:induction false} AssignableRowsSound(clients: seq<ApplicationUser>, loans: seq<Loan>, average: real)
    ensures forall k :: 0 <= k < |AssignableRows(clients, loans, average)| ==>
              var row := AssignableRows(clients, loans, average)[k];
              && (exists i :: 0 <= i < |clients| && clients[i].id == row.clientId && !HasActiveLoan(loans, clients[i].id))
              && row.currentDebt == 0.0 && row.systemAverageDebt == average && !row.hasActiveLoan
    decreases |clients|
  {
    if clients != [] {
      var init := clients[..|clients| - 1];
      var c := clients[|clients| - 1];
      AssignableRowsSound(init, loans, average);
      var rows := AssignableRows(clients, loans, average);
      var older := AssignableRows(init, loans, average);
      assert rows[..|older|] == older;
      forall k | 0 <= k < |older|
        ensures exists i :: 0 <= i < |clients| && clients[i].id == rows[k].clientId && !HasActiveLoan(loans, clients[i].id)
      {
        var i :| 0 <= i < |init| && init[i].id == older[k].clientId && !HasActiveLoan(loans, init[i].id);
        assert clients[i] == init[i];
      }
      if !HasActiveLoan(loans, c.id) {
        NoActiveLoanNoDebt(loans, c.id, 0.0);
        assert rows[|rows| - 1].clientId == clients[|clients| - 1].id;
      }
    }
  }

  /** Some row is for client `id`. */
  predicate HasRowFor(rows: seq<AssignableClient>, id: Guid)
  {
    exists k :: 0 <= k < |rows| && rows[k].clientId == id
  }

  /** Every client without an active loan has a row. */
  lemma {:induction false} AssignableRowsComplete(clients: seq<ApplicationUser>, loans: seq<Loan>, average: real)
    ensures forall i :: 0 <= i < |clients| && !HasActiveLoan(loans, clients[i].id) ==>
              HasRowFor(AssignableRows(clients, loans, average), clients[i].id)
    decreases |clients|
  {
    if clients != [] {
      var init := clients[..|clients| - 1];
      AssignableRowsComplete(init, loans, average);
      var rows := AssignableRows(clients, loans, average);
      var older := AssignableRows(init, loans, average);
      assert rows[..|older|] == older;
      forall i | 0 <= i < |clients| && !HasActiveLoan(loans, clients[i].id)
        ensures HasRowFor(rows, clients[i].id)
      {
        if i < |init| {
          assert clients[i] == init[i];
          var k :| 0 <= k < |older| && older[k].clientId == init[i].id;
          assert rows[k] == older[k];
        } else {
          var c := clients[|clients| - 1];
          assert rows == older + [AssignableClient(c.id, FullName(c.firstName, c.lastName), c.nationalId,
                                                   Sum(ActiveCapitals(loans, Some(c.id))), average, false)];
          assert rows[|rows| - 1].clientId == clients[i].id;
        }
      }
    }
  }
}
