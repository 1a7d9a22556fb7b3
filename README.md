# ArtemisBanking money-movement core in Dafny

This project models the part of ArtemisBanking that moves money and keeps
balances: savings accounts and their ledgers, credit cards and their
charges, loans with their French amortization schedules, and the client
users that own them. It also models the services that change them:
assigning a loan, changing its rate, the overdue sweep, assigning a card,
changing its limit, cancelling it, and creating, updating and switching
users on or off.

The Dafny follows the shape of the C# code:

- Entities whose methods update their fields are classes:
  `Savings.SavingsAccount`, `Cards.CreditCard`,
  `Cards.CreditCardTransaction`, `Loans.Loan`, `Loans.LoanInstallment`,
  `Users.User` and `Persistence.ApplicationUser`.
- The database context is `Persistence.BankingDb`, whose tables are
  sequences of objects.
- Each mutating method is tied by its postcondition to a pure function of
  the state before it. The properties are lemmas about those functions.

| module (file) | models |
|---|---|
| `Common` (common.dfy) | `decimal.Round(x, 2)` (banker's rounding), sums and means, blank and substring tests, `ToString("D<n>")` |
| `Results` (results.dfy) | `Result` and `Result<T>` |
| `Users` (users.dfy) | the `User` entity |
| `Savings` (savings.dfy) | `SavingsAccount` and `SavingsAccountTransaction` |
| `Cards` (cards.dfy) | `CreditCard` and `CreditCardTransaction` |
| `Loans` (loans.dfy) | `Loan` and `LoanInstallment` |
| `Amortization` (amortization.dfy) | the exact French schedule that the loan loops compute |
| `Persistence` (persistence.dfy) | `ApplicationUser`, the database context and its first-match lookups |
| `LoanService` (loanservice.dfy) | the two schedule loops, `UpdateAnnualRateAsync` and `MarkOverdueInstallmentsAsync` |
| `LoanAssignment` (loanassign.dfy) | `AssignLoanAsync`, the risk rule and `GenerateLoanNumber` |
| `LoanViews` (loanviews.dfy) | the paging clamps, `MapToLoanListItemDto` and the assignable-clients query |
| `CardProfile` (profile.dfy) | `CreditCardProfile` and `MaskCardNumber` |
| `CardService` (cardservice.dfy) | `CreditCardService` |
| `UserService` (userservice.dfy) | `CreateAsync`, `UpdateAsync`, `ToggleActiveAsync` and `GenerateAccountNumber` |

How the C# is represented:

- `decimal` is `real`, which is exact.
- A `Guid` is a `nat`, with `Guid.Empty` as 0.
- A `DateOnly` is a month index and a day.
- A thrown exception is the `Throws` case of a `Try` value.
- Values the code takes from its environment become parameters: the clock
  (`today`, `year`), `Random` (a draw or a stream of draws), `NewGuid`
  (fresh ids), the floating-point monthly payment and the hash of the CVC.
- The identity store's lookups and writes are also parameters: the owner a
  lookup finds, and the outcome a write reports.

Paging:

- LoanViews.ClampPaging: takes the default page size as a parameter.
- It serves every clamp in the code: the loan queries
  (LoanService.cs:30-31 and 74-75, default 20), the card queries
  (CreditCardService.cs:41-42 and 93-94, default 20) and the user list
  (UserService.cs:36-37, default 10).
- The skip count `(pageIndex - 1) * pageSize` is an unchecked `int`
  product at LoanService.cs:41 and 119, CreditCardService.cs:51 and 123
  and UserService.cs:50. `LoanViews.Page` skips by the exact product and
  `LoanViews.PageAsWritten` by the wrapped one (see Findings).

Three points where the code's own behaviour is easy to misread:

- **Schedule sum.** Each installment stores its payment, capital, interest
  and balance rounded to the cent separately
  (`LoanService.cs:545-548`, and `588-591` for a recalculation). The
  stored capital portions of n installments therefore add up to the
  capital within half a cent per installment, n/200 in all
  (`Amortization.StoredCapitalNearPrincipal`,
  `LoanService.AcceptedRateChangeRepaysCapital`). The unrounded portions
  add up to the capital exactly (`Amortization.CapitalTelescopes`).
- **Installment numbers.** The recalculation numbers the new installments
  from `loan.Installments.Count + 1` (`LoanService.cs:571`), which can
  repeat a Paid installment's number (see Findings). Nothing in the store
  stops that: `LoanInstallmentConfiguration.cs:7-36` declares no unique
  index on (loan, number), while the card number does get one
  (`CreditCardConfiguration.cs:20-21`).
- **Card debt.** A charge adds its amount to the debt before it tests the
  limit, and the rejected charge leaves the debt raised
  (`CreditCard.cs:66-73`, see Findings), so the debt can exceed the
  limit.

## Model

| member | source | states |
|---|---|---|
| Results.Success | src/ArtemisBanking.Application/Common/Result.cs:8 | a plain success: succeeded, no error |
| Results.Failure | src/ArtemisBanking.Application/Common/Result.cs:9 | a failure carrying exactly the given error message |
| Results.SuccessOf | src/ArtemisBanking.Application/Common/Result.cs:16-20 | a success carrying the data and no error |
| Results.FailureOf | src/ArtemisBanking.Application/Common/Result.cs:22-27 | a failure carrying the error and no data |
| Results.FactoriesWellFormed | src/ArtemisBanking.Application/Common/Result.cs:1-28 | every factory's result is well formed (succeeded exactly when there is no error, data only on success) and a failure never equals a success |
| Users.FullNameParts | src/ArtemisBanking.Core.Domain/Entities/User.cs:88 | the full name is the first name, one space and the last name |
| Users.User.CreateClient | src/ArtemisBanking.Core.Domain/Entities/User.cs:36-44 | a Client with the given identity fields, not yet active |
| Users.User.CreateAdmin | src/ArtemisBanking.Core.Domain/Entities/User.cs:46-54 | an Admin with the given identity fields, not yet active |
| Users.User.CreateCashier | src/ArtemisBanking.Core.Domain/Entities/User.cs:56-64 | a Cashier with the given identity fields, not yet active |
| Users.User.CreateMerchant | src/ArtemisBanking.Core.Domain/Entities/User.cs:66-74 | a Merchant with the given identity fields, not yet active |
| Users.User.Activate | src/ArtemisBanking.Core.Domain/Entities/User.cs:76-80 | the user is active afterwards, nothing else changes |
| Users.User.Deactivate | src/ArtemisBanking.Core.Domain/Entities/User.cs:82-86 | the user is inactive afterwards, nothing else changes |
| Users.User.GetFullName | src/ArtemisBanking.Core.Domain/Entities/User.cs:88 | the user's full name from its first and last names |
| Persistence.ApplicationUser.constructor | src/ArtemisBanking.Infrastructure.Identity/Models/ApplicationUser.cs:6-13 | an identity user holding exactly the given profile, role and active flag |
| Common.Round2 | src/ArtemisBanking.Infrastructure.Persistence/Services/LoanService.cs:545-548 | rounding to cents lands within half a cent of the value, on a whole number of cents |
| Common.RoundWholeCents | src/ArtemisBanking.Infrastructure.Persistence/Services/LoanService.cs:545-548 | a value already in whole cents rounds to itself |
| Common.RoundSign | src/ArtemisBanking.Infrastructure.Persistence/Services/LoanService.cs:545-548 | the rounded value is non-negative exactly when the value is at least -0.005, positive exactly when it exceeds 0.005 |
| Common.FormatDRoundTrip | src/ArtemisBanking.Infrastructure.Persistence/Services/LoanService.cs:597-603 | zero-padded formatting gives digits only, reads back as the number, and has exactly the width when the number fits |
| Savings.CreateTransaction | src/ArtemisBanking.Core.Domain/Entities/SavingsAccountTransaction.cs:20-44 | the entry carries the account, amount, type, origin, description and balance after, and starts Approved |
| Savings.AppendKeepsJustified | src/ArtemisBanking.Core.Domain/Entities/SavingsAccount.cs:33-72 | appending an entry whose balance-after is the old balance plus its effect keeps the ledger replayable from the opening balance |
| Savings.CreditSpec | src/ArtemisBanking.Core.Domain/Entities/SavingsAccount.cs:33-51 | a credit throws exactly for a non-positive amount; otherwise it raises the balance by the amount, appends one Credito entry with the new balance and keeps every earlier entry |
| Savings.DebitSpec | src/ArtemisBanking.Core.Domain/Entities/SavingsAccount.cs:53-72 | a debit throws (amount check first) unless 0 < amount <= balance; otherwise it lowers the balance by the amount, never below 0, and appends one Debito entry |
| Savings.DebitThenCreditRestores | src/ArtemisBanking.Core.Domain/Entities/SavingsAccount.cs:33-72 | crediting back what was debited restores the balance and records both entries, the debit first |
| Savings.SavingsAccount.constructor | src/ArtemisBanking.Core.Domain/Entities/SavingsAccount.cs:18-25 | an Active account with the given owner, number and type, whose balance is the initial amount and whose ledger is empty |
| Savings.SavingsAccount.CreatePrincipal | src/ArtemisBanking.Core.Domain/Entities/SavingsAccount.cs:27-28 | a fresh Principal account with the initial amount |
| Savings.SavingsAccount.CreateSecondary | src/ArtemisBanking.Core.Domain/Entities/SavingsAccount.cs:30-31 | a fresh Secundaria account with the initial amount |
| Savings.SavingsAccount.Credit | src/ArtemisBanking.Core.Domain/Entities/SavingsAccount.cs:33-51 | the account's balance and ledger become what the credit rule gives, or stay as they were when it throws; the ledger stays justified |
| Savings.SavingsAccount.Debit | src/ArtemisBanking.Core.Domain/Entities/SavingsAccount.cs:53-72 | the account's balance and ledger become what the debit rule gives, or stay as they were when it throws; the ledger stays justified |
| Cards.CreditCardTransaction.Create | src/ArtemisBanking.Core.Domain/Entities/CreditCardTransaction.cs:18-34 | a charge holding the given card, amount, description and type, starting Approved |
| Cards.CreditCardTransaction.MarkAsApproved | src/ArtemisBanking.Core.Domain/Entities/CreditCardTransaction.cs:36-40 | the charge is Approved afterwards |
| Cards.CreditCardTransaction.MarkAsRejected | src/ArtemisBanking.Core.Domain/Entities/CreditCardTransaction.cs:42-46 | the charge is Rejected afterwards |
| Cards.PostAsWritten | src/ArtemisBanking.Core.Domain/Entities/CreditCard.cs:53-78 | the posting rule as written; `Cards.PostAsWrittenCases`, `RejectedChargeOverLimit` and `RejectedChargeRaisesDebt` state its cases |
| Cards.PostAsWrittenCases | src/ArtemisBanking.Core.Domain/Entities/CreditCard.cs:53-78 | posting throws exactly on a card that is not Active; a payment floors the debt at 0; a charge is kept exactly when debt plus amount fits the limit and is rejected otherwise, with the debt raised either way |
| Cards.RejectedChargeOverLimit | src/ArtemisBanking.Core.Domain/Entities/CreditCard.cs:66-73 | as written, a rejected charge always leaves the card over its limit |
| Cards.RejectedChargeRaisesDebt | src/ArtemisBanking.Core.Domain/Entities/CreditCard.cs:66-73 | a concrete run: limit 1000, debt 900, a rejected purchase of 150 leaves the debt at 1050 and a later purchase of 50 is rejected too |
| Cards.PostIntendedKeepsWithinLimit | src/ArtemisBanking.Core.Domain/Entities/CreditCard.cs:53-78 | with the intended rule every non-negative posting keeps 0 <= debt <= limit, and a rejected charge changes nothing |
| Cards.PostRulesAgreeOnAccepted | src/ArtemisBanking.Core.Domain/Entities/CreditCard.cs:53-78 | the written and intended rules throw alike and agree on every posting that is not rejected |
| Cards.ChangeLimitState | src/ArtemisBanking.Core.Domain/Entities/CreditCard.cs:80-87 | a limit change throws exactly when the new limit is below the debt; otherwise only the limit changes and the debt is within it |
| Cards.CancelState | src/ArtemisBanking.Core.Domain/Entities/CreditCard.cs:89-96 | cancelling throws exactly while there is debt; otherwise the card is Cancelled and nothing else changes |
| Cards.CancelIdempotent | src/ArtemisBanking.Core.Domain/Entities/CreditCard.cs:89-96 | cancelling an already cancelled card succeeds and changes nothing |
| Cards.CreditCard.AssignToClient | src/ArtemisBanking.Core.Domain/Entities/CreditCard.cs:26-51 | a new Active card with the given fields, no debt and no charges |
| Cards.CreditCard.RegisterTransaction | src/ArtemisBanking.Core.Domain/Entities/CreditCard.cs:53-78 | the debt, status and posted list become what the posting rule as written gives; the charge's status is set Rejected when that rule rejects it |
| Cards.CreditCard.ChangeLimit | src/ArtemisBanking.Core.Domain/Entities/CreditCard.cs:80-87 | the card's state becomes what the limit-change rule gives, or stays when it throws |
| Cards.CreditCard.Cancel | src/ArtemisBanking.Core.Domain/Entities/CreditCard.cs:89-96 | the card's state becomes what the cancel rule gives, or stays when it throws |
| Loans.MarksIdempotent | src/ArtemisBanking.Core.Domain/Entities/LoanInstallment.cs:80-96 | both marks are idempotent and marking Overdue never leaves or reaches Paid |
| Loans.MarksOutcome | src/ArtemisBanking.Core.Domain/Entities/LoanInstallment.cs:80-96 | after any marks an installment is Paid exactly when it was Paid or was marked Paid; otherwise a non-empty run leaves it Overdue |
| Loans.InstallmentError | src/ArtemisBanking.Core.Domain/Entities/LoanInstallment.cs:42-58 | the installment constructor accepts exactly a loan id, a positive number and payment and non-negative capital, interest and remaining balance; its errors are argument errors, the loan id checked first |
| Loans.LoanInstallment.constructor | src/ArtemisBanking.Core.Domain/Entities/LoanInstallment.cs:33-68 | an installment holding exactly the accepted arguments, Pending |
| Loans.LoanInstallment.Create | src/ArtemisBanking.Core.Domain/Entities/LoanInstallment.cs:70-78 | throws the constructor's exception or returns a fresh installment holding the arguments, Pending |
| Loans.LoanInstallment.MarkAsPaid | src/ArtemisBanking.Core.Domain/Entities/LoanInstallment.cs:80-87 | the status becomes Paid |
| Loans.LoanInstallment.MarkAsOverdue | src/ArtemisBanking.Core.Domain/Entities/LoanInstallment.cs:89-96 | the status becomes Overdue unless it was Paid |
| Loans.LoanError | src/ArtemisBanking.Core.Domain/Entities/Loan.cs:35-48 | the loan constructor accepts exactly a client id, a non-blank number, positive capital and rate and a positive term; its errors are argument errors |
| Loans.Loan.constructor | src/ArtemisBanking.Core.Domain/Entities/Loan.cs:27-57 | an Activo loan holding the accepted arguments and no installments |
| Loans.Loan.Create | src/ArtemisBanking.Core.Domain/Entities/Loan.cs:60-67 | throws the constructor's exception or returns a fresh Activo loan holding the arguments |
| Loans.Loan.MarkAsHighRisk | src/ArtemisBanking.Core.Domain/Entities/Loan.cs:69-73 | the loan is flagged high-risk |
| Loans.Loan.ChangeStatus | src/ArtemisBanking.Core.Domain/Entities/Loan.cs:75-79 | the status becomes the given one, from any status |
| Loans.Loan.UpdateAnnualInterestRate | src/ArtemisBanking.Core.Domain/Entities/Loan.cs:80-87 | a non-positive rate throws and leaves the rate; a positive one is set |
| Amortization.Schedule | src/ArtemisBanking.Infrastructure.Persistence/Services/LoanService.cs:528-551 | the n periods the two schedule loops lay out, one per installment, as the first loop and the recalculation loop of lines 566-582 compute them; `Amortization.PeriodFacts`, `Amortization.CapitalTelescopes` and `Amortization.LastPeriodClears` state what they are |
| Amortization.PeriodFacts | src/ArtemisBanking.Infrastructure.Persistence/Services/LoanService.cs:528-551 | each period pays capital plus interest, the interest is the rate on the balance before it, regular periods pay the payment and chain balances, the last leaves exactly 0 |
| Amortization.CapitalTelescopes | src/ArtemisBanking.Infrastructure.Persistence/Services/LoanService.cs:528-551 | the exact capital portions of a schedule add up to the principal |
| Amortization.LastPeriodClears | src/ArtemisBanking.Infrastructure.Persistence/Services/LoanService.cs:530-548 | the last period's remaining balance is exactly 0, also once rounded |
| Amortization.RoundedSumError | src/ArtemisBanking.Infrastructure.Persistence/Services/LoanService.cs:545-548 | rounding n amounts to cents moves their sum by at most n half-cents |
| Amortization.StoredCapitalNearPrincipal | src/ArtemisBanking.Infrastructure.Persistence/Services/LoanService.cs:528-551 | the stored (rounded) capital portions of an n-period schedule add up to the principal within n half-cents |
| LoanService.NextPeriod | src/ArtemisBanking.Infrastructure.Persistence/Services/LoanService.cs:573-582 | one loop turn computes period k of the exact schedule and the balance owed before period k + 1 |
| LoanService.AppendInstallment | src/ArtemisBanking.Infrastructure.Persistence/Services/LoanService.cs:584-593 | throws the constructor's exception and appends nothing, or appends exactly the rounded installment of the period |
| LoanService.RecalculateFrenchScheduleFrom | src/ArtemisBanking.Infrastructure.Persistence/Services/LoanService.cs:554-595 | appends the installments of the exact schedule of the remaining capital, numbered from the count plus 1, due monthly, up to the first the constructor rejects, whose exception it returns |
| LoanService.GenerateFrenchSchedule | src/ArtemisBanking.Infrastructure.Persistence/Services/LoanService.cs:513-552 | clears the installments and lays out the whole schedule of the capital over the term, the first due a month after today, or returns the first exception |
| LoanService.ScheduleFacts | src/ArtemisBanking.Infrastructure.Persistence/Services/LoanService.cs:513-552 | a laid-out schedule is numbered base + 1 to base + n, due monthly, all Pending, ends at a stored balance of 0 and stores capital within n half-cents of the principal |
| LoanService.ScheduleOutcomeSpec | src/ArtemisBanking.Infrastructure.Persistence/Services/LoanService.cs:584-593 | nothing is thrown exactly when the constructor accepts every period, and then every period is appended |
| LoanService.PaidUnpaidPartition | src/ArtemisBanking.Infrastructure.Persistence/Services/LoanService.cs:337-356 | the Paid and unpaid lists together are a permutation of the installments, the first all Paid, the second none |
| LoanService.SortByNumber | src/ArtemisBanking.Infrastructure.Persistence/Services/LoanService.cs:343-356 | ordering by number gives a permutation sorted by installment number |
| LoanService.RateChangeRejection | src/ArtemisBanking.Infrastructure.Persistence/Services/LoanService.cs:318-351 | a failure exactly for a non-positive rate, a missing loan, a loan not Activo, or no unpaid installment, in that order |
| LoanService.RestoreInstallments | src/ArtemisBanking.Infrastructure.Persistence/Services/LoanService.cs:362-366 | after clearing and re-adding, the list is exactly the kept installments |
| LoanService.ReplaceUnpaidInstallments | src/ArtemisBanking.Infrastructure.Persistence/Services/LoanService.cs:337-372 | the rate is set and the list becomes the Paid installments in number order followed by the recalculated tail of the unpaid capital, due from the first unpaid installment |
| LoanService.UpdateAnnualRate | src/ArtemisBanking.Infrastructure.Persistence/Services/LoanService.cs:313-383 | a rejection changes nothing; otherwise the unpaid tail is replaced as planned, a constructor exception escapes, the detail is rebuilt; no other loan changes |
| LoanService.PlanRateChange | src/ArtemisBanking.Infrastructure.Persistence/Services/LoanService.cs:337-360 | the Paid and unpaid installments, each ordered by number, and the capital still unpaid at the new monthly rate; `LoanService.PlanSplitsInstallments` states the split |
| LoanService.PlanSplitsInstallments | src/ArtemisBanking.Infrastructure.Persistence/Services/LoanService.cs:337-356 | the plan's Paid and unpaid lists hold between them exactly the original installments, each sorted by number |
| LoanService.CapitalSumPermutation | src/ArtemisBanking.Infrastructure.Persistence/Services/LoanService.cs:337-341 | reordering installments keeps the sum of their capital portions |
| LoanService.ReplannedCount | src/ArtemisBanking.Infrastructure.Persistence/Services/LoanService.cs:343-372 | an accepted plan leaves one installment per Paid and per unpaid one, the last with stored balance 0 |
| LoanService.ReplannedCapital | src/ArtemisBanking.Infrastructure.Persistence/Services/LoanService.cs:368-372 | the recalculated capital portions add up to the unpaid capital within half a cent each |
| LoanService.AcceptedRateChangeKeepsCount | src/ArtemisBanking.Infrastructure.Persistence/Services/LoanService.cs:313-383 | an accepted rate change keeps the number of installments and ends at a stored balance of 0 |
| LoanService.AcceptedRateChangeRepaysCapital | src/ArtemisBanking.Infrastructure.Persistence/Services/LoanService.cs:337-372 | after an accepted rate change the Paid and recalculated capital portions add up to the loan's capital within half a cent per recalculated installment |
| LoanService.AppendedNumbering | src/ArtemisBanking.Infrastructure.Persistence/Services/LoanService.cs:571 | appended installments are Pending, due monthly and numbered base + 1, base + 2, ..., whatever the earlier ones carry |
| LoanService.ReplannedNumbers | src/ArtemisBanking.Infrastructure.Persistence/Services/LoanService.cs:554-595 | an accepted plan leaves the Paid installments first, unchanged, and numbers the recalculated ones from the count of Paid ones plus 1, each stored as its period rounded |
| LoanService.RecalculationNumberCollision | src/ArtemisBanking.Infrastructure.Persistence/Services/LoanService.cs:571 | as written: when numbers are distinct and a Paid installment is numbered above the count of Paid ones, the installments left behind carry a number twice and not the numbers they carried before |
| LoanService.CorrectedReplanKeepsNumbers | src/ArtemisBanking.Infrastructure.Persistence/Services/LoanService.cs:571 | corrected: the recalculated schedule carries exactly the numbers the installments carried before, so distinct numbers stay distinct |
| LoanService.CorrectedReplanAgrees | src/ArtemisBanking.Infrastructure.Persistence/Services/LoanService.cs:554-595 | the code's result and the corrected schedule have the same length, the same Paid installments, and recalculated installments that differ in their number alone |
| LoanService.CorrectedReplanCoincides | src/ArtemisBanking.Infrastructure.Persistence/Services/LoanService.cs:571 | the code's result is the corrected schedule exactly when the unpaid installments were numbered on from the Paid ones |
| LoanService.DueMembers | src/ArtemisBanking.Infrastructure.Persistence/Services/LoanService.cs:390-395 | the sweep's query returns exactly the Pending installments due before today |
| LoanService.SweepFacts | src/ArtemisBanking.Infrastructure.Persistence/Services/LoanService.cs:385-422 | a sweep turns exactly the due Pending installments Overdue, never touches Paid, is idempotent and is subsumed by a later sweep |
| LoanService.AffectedLoanIds | src/ArtemisBanking.Infrastructure.Persistence/Services/LoanService.cs:410-412 | exactly the loan ids of the swept installments |
| LoanService.LoansWithIds | src/ArtemisBanking.Infrastructure.Persistence/Services/LoanService.cs:410-412 | exactly the loans whose id is in the set |
| LoanService.MarkEachOverdue | src/ArtemisBanking.Infrastructure.Persistence/Services/LoanService.cs:404-408 | every installment found ends Overdue |
| LoanService.MarkEachMoroso | src/ArtemisBanking.Infrastructure.Persistence/Services/LoanService.cs:414-417 | every loan found ends Moroso |
| LoanService.MarkOverdueInstallments | src/ArtemisBanking.Infrastructure.Persistence/Services/LoanService.cs:385-422 | succeeds; every due Pending installment becomes Overdue and every loan named by one becomes Moroso, nothing else changes |
| LoanAssignment.GenerateLoanNumber | src/ArtemisBanking.Infrastructure.Persistence/Services/LoanService.cs:597-603 | the year, a dash and the draw in six digits; `LoanAssignment.LoanNumberShape`, `LoanNumberRoundTrip` and `LoanNumbersDistinct` state its shape, that it parses back and that draws give distinct numbers |
| LoanAssignment.LoanNumberShape | src/ArtemisBanking.Infrastructure.Persistence/Services/LoanService.cs:597-603 | a loan number is the year's digits, one dash and six digits, never blank |
| LoanAssignment.LoanNumberRoundTrip | src/ArtemisBanking.Infrastructure.Persistence/Services/LoanService.cs:597-603 | a loan number reads back into its year and draw |
| LoanAssignment.LoanNumbersDistinct | src/ArtemisBanking.Infrastructure.Persistence/Services/LoanService.cs:597-603 | numbers of one year are equal exactly when their draws are |
| LoanAssignment.AssignRejection | src/ArtemisBanking.Infrastructure.Persistence/Services/LoanService.cs:202-231 | a failure exactly for a term not a multiple of 6, a non-positive amount, a non-positive rate, a client that is missing, not a Client or inactive, or one with an Activo loan, in that order |
| LoanAssignment.NoActiveLoanNoDebt | src/ArtemisBanking.Infrastructure.Persistence/Services/LoanService.cs:233-248 | a client without an Activo loan has no active capital |
| LoanAssignment.HighRisk | src/ArtemisBanking.Infrastructure.Persistence/Services/LoanService.cs:233-248 | the risk rule on the Activo loans' capital; `LoanAssignment.RiskRule` and `NoActiveLoanNoDebt` state when it holds |
| LoanAssignment.RiskRule | src/ArtemisBanking.Infrastructure.Persistence/Services/LoanService.cs:233-248 | no Activo loan means no risk; with one, the loan is high-risk exactly when the client's active capital plus the amount exceeds the mean |
| LoanAssignment.BuildLoan | src/ArtemisBanking.Infrastructure.Persistence/Services/LoanService.cs:250-260 | throws what Loan.Create or the schedule throws, or returns a fresh Activo loan holding the arguments with the full schedule of the amount |
| LoanAssignment.PayOut | src/ArtemisBanking.Infrastructure.Persistence/Services/LoanService.cs:273-278 | the account is credited the amount and the loan is appended to the table |
| LoanAssignment.Disburse | src/ArtemisBanking.Infrastructure.Persistence/Services/LoanService.cs:262-297 | a missing Principal account fails and changes nothing; otherwise the amount is credited, the loan added and its detail found |
| LoanAssignment.ApproveLoan | src/ArtemisBanking.Infrastructure.Persistence/Services/LoanService.cs:250-297 | an exception leaves the tables unchanged; otherwise the loan is built and disbursed |
| LoanAssignment.AssignLoan | src/ArtemisBanking.Infrastructure.Persistence/Services/LoanService.cs:197-298 | a rejection changes nothing; otherwise the loan carries the risk flag and the generated number and is built and disbursed |
| LoanViews.ClampPaging | src/ArtemisBanking.Infrastructure.Persistence/Services/LoanService.cs:30-31 | a page index below 1 becomes 1, a size below 1 becomes the query's default, others are kept; the result is at least 1 on both |
| LoanViews.ClampIdempotent | src/ArtemisBanking.Infrastructure.Persistence/Services/LoanService.cs:74-75 | clamping twice is clamping once |
| LoanViews.Page | src/ArtemisBanking.Infrastructure.Persistence/Services/LoanService.cs:40-42 | a page holds at most the page size |
| LoanViews.PagesTile | src/ArtemisBanking.Infrastructure.Persistence/Services/LoanService.cs:40-42 | the first k pages, in order, are the first k * size elements |
| LoanViews.SkipCount | src/ArtemisBanking.Infrastructure.Persistence/Services/LoanService.cs:41 | the skip count is the product reduced into the signed 32-bit range, congruent to it modulo 2^32, and equal to it when it fits |
| LoanViews.PageAsWritten | src/ArtemisBanking.Infrastructure.Persistence/Services/LoanService.cs:40-42 | as written: no page when the wrapped skip is negative, otherwise at most the page size, and the exact page whenever the product fits in an `int` |
| LoanViews.PageSkipWraps | src/ArtemisBanking.Infrastructure.Persistence/Services/LoanService.cs:41 | as written: page 1073741826 of size 4 is page 2 again and page 1073741825 of size 2 asks for a negative offset, where the exact skip gives empty pages |
| LoanViews.PagesTileAsWritten | src/ArtemisBanking.Infrastructure.Persistence/Services/LoanService.cs:40-42 | while k * size fits in an `int`, the code's first k pages are the exact ones that `LoanViews.PagesTile` lays out |
| LoanViews.MapToLoanListItem | src/ArtemisBanking.Infrastructure.Persistence/Services/LoanService.cs:467-495 | paid count at most the installment count, which equals the list's length; in arrears exactly when some installment is Overdue |
| LoanViews.AssignedLoanListing | src/ArtemisBanking.Infrastructure.Persistence/Services/LoanService.cs:52-56 | a loan just assigned lists its whole term, none Paid, its whole capital pending, no arrears |
| LoanViews.ReplannedTail | src/ArtemisBanking.Infrastructure.Persistence/Services/LoanService.cs:343-372 | after a rate change the Paid installments come first and all later ones are Pending |
| LoanViews.ReplannedPaid | src/ArtemisBanking.Infrastructure.Persistence/Services/LoanService.cs:343-372 | the Paid installments after the change are the ones kept, and none is Overdue |
| LoanViews.RateChangeListing | src/ArtemisBanking.Infrastructure.Persistence/Services/LoanService.cs:124-128 | an accepted rate change keeps the listed count, Paid count and Paid capital, and clears arrears |
| LoanViews.GetAssignableClients | src/ArtemisBanking.Infrastructure.Persistence/Services/LoanService.cs:139-195 | one row, in order, per matching client without an Activo loan, with the mean active capital |
| LoanViews.MatchingClientsMembers | src/ArtemisBanking.Infrastructure.Persistence/Services/LoanService.cs:155-161 | the matching clients are exactly the active Clients whose national id contains a non-blank filter |
| LoanViews.AssignableRowsSound | src/ArtemisBanking.Infrastructure.Persistence/Services/LoanService.cs:172-192 | every row is for a client without an Activo loan, with debt 0 and the given average |
| LoanViews.AssignableRowsComplete | src/ArtemisBanking.Infrastructure.Persistence/Services/LoanService.cs:172-192 | every client without an Activo loan has a row |
| CardProfile.MaskCardNumber | src/ArtemisBanking.Application/CreditCards/MappingProfiles/CreditCardProfile.cs:26-33 | a blank or short number masks to four stars; any other shows three starred groups and its last 4 characters |
| CardProfile.MaskHidesPrefix | src/ArtemisBanking.Application/CreditCards/MappingProfiles/CreditCardProfile.cs:26-33 | the first 15 characters of every mask are stars and spaces |
| CardProfile.MaskSameLast4 | src/ArtemisBanking.Application/CreditCards/MappingProfiles/CreditCardProfile.cs:26-33 | two maskable numbers mask alike exactly when their last 4 characters agree |
| CardProfile.TransactionViews | src/ArtemisBanking.Application/CreditCards/MappingProfiles/CreditCardProfile.cs:13-21 | one view per charge, member by member |
| CardProfile.MapToListItem | src/ArtemisBanking.Application/CreditCards/MappingProfiles/CreditCardProfile.cs:13-21 | the card's fields with the number masked; `CardProfile.MapsShowOnlyLast4` states what it shows |
| CardProfile.MapToDetail | src/ArtemisBanking.Application/CreditCards/MappingProfiles/CreditCardProfile.cs:13-21 | the same fields and mask, with the card's posted charges; `CardProfile.MapsShowOnlyLast4` and `TransactionViews` state what it shows |
| CardProfile.MapsShowOnlyLast4 | src/ArtemisBanking.Application/CreditCards/MappingProfiles/CreditCardProfile.cs:13-21 | both maps mask the number alike and show nothing of it beyond its last 4 characters |
| CardService.GenerateUniqueCardNumber | src/ArtemisBanking.Infrastructure.Persistence/Services/CreditCardService.cs:239-257 | the number the retry loop settles on, the first 16-digit candidate no card carries |
| CardService.CardNumberDraw | src/ArtemisBanking.Infrastructure.Persistence/Services/CreditCardService.cs:239-257 | the first drawn candidate no card carries, or None when the draws run out; `CardService.CardNumberDrawSpec` states it |
| CardService.CardNumberDrawSpec | src/ArtemisBanking.Infrastructure.Persistence/Services/CreditCardService.cs:239-257 | a drawn number has 16 digits and no card carries it; there is none exactly when every candidate is taken |
| CardService.FreshNumberKeepsDistinct | src/ArtemisBanking.Infrastructure.Persistence/Services/CreditCardService.cs:239-257 | adding a card with a number no card has keeps card numbers distinct |
| CardService.DrawnNumberMasks | src/ArtemisBanking.Infrastructure.Persistence/Services/CreditCardService.cs:239-257 | a drawn number masks to its last 4 digits |
| CardService.GenerateCvc | src/ArtemisBanking.Infrastructure.Persistence/Services/CreditCardService.cs:259-263 | the draw in three digits; `CardService.CvcShape` states its shape and that it reads back |
| CardService.CvcShape | src/ArtemisBanking.Infrastructure.Persistence/Services/CreditCardService.cs:259-263 | the CVC is three digits that read back as the drawn value, so different draws differ |
| CardService.Expiry | src/ArtemisBanking.Infrastructure.Persistence/Services/CreditCardService.cs:217 | the month and year three years after issue; `CardService.ExpiryThreeYearsOn` states it |
| CardService.ExpiryThreeYearsOn | src/ArtemisBanking.Infrastructure.Persistence/Services/CreditCardService.cs:216-217 | the card expires in the issuing month, three years on |
| CardService.CardAssignRejection | src/ArtemisBanking.Infrastructure.Persistence/Services/CreditCardService.cs:190-209 | a failure exactly for a non-positive limit, an ineligible client, or one with an Active card, in that order |
| CardService.AssignCard | src/ArtemisBanking.Infrastructure.Persistence/Services/CreditCardService.cs:186-237 | a rejection changes nothing; otherwise a fresh Active card with a free number, the CVC hash and the expiry is added and its detail returned |
| CardService.IssuedCardKeepsNumbersDistinct | src/ArtemisBanking.Infrastructure.Persistence/Services/CreditCardService.cs:186-237 | issuing a card keeps card numbers distinct |
| CardService.Last4 | src/ArtemisBanking.Infrastructure.Persistence/Services/CreditCardService.cs:321-324 | the last 4 characters of the number, or all of a shorter one; `CardService.Last4Facts` states it |
| CardService.Last4Facts | src/ArtemisBanking.Infrastructure.Persistence/Services/CreditCardService.cs:319-330 | the last-4 text is a suffix of the number, 4 long when the number is, and what the mask shows |
| CardService.LimitNoticeFor | src/ArtemisBanking.Infrastructure.Persistence/Services/CreditCardService.cs:319-330 | a notice goes out exactly when the owner exists with a non-blank e-mail, with the last 4 characters and the new limit |
| CardService.UpdateLimit | src/ArtemisBanking.Infrastructure.Persistence/Services/CreditCardService.cs:295-333 | an unknown card or a limit below the debt fails and changes nothing; otherwise the limit is set and the notice is as the rule says; no card's debt, status or transactions change |
| CardService.CancelCard | src/ArtemisBanking.Infrastructure.Persistence/Services/CreditCardService.cs:335-356 | an unknown card or one with debt fails and changes nothing; otherwise it is Cancelled; no card's limit, debt or transactions change |
| CardService.CardOperationOutcomes | src/ArtemisBanking.Infrastructure.Persistence/Services/CreditCardService.cs:295-356 | the failures are the entity's messages, and a success leaves a non-negative debt within the limit |
| CardService.SystemAverageCardDebt | src/ArtemisBanking.Infrastructure.Persistence/Services/CreditCardService.cs:165-171 | the mean debt of all cards, or 0 without cards; `CardService.AverageCardDebtBounds` bounds it and `CardService.GetAssignableCardClients` uses it |
| CardService.CardDebts | src/ArtemisBanking.Infrastructure.Persistence/Services/CreditCardService.cs:165-171 | the debt of every card, in order |
| CardService.AverageCardDebtBounds | src/ArtemisBanking.Infrastructure.Persistence/Services/CreditCardService.cs:165-171 | the mean debt lies between the smallest and the largest debt |
| CardService.CardAssignableClients | src/ArtemisBanking.Infrastructure.Persistence/Services/CreditCardService.cs:157-184 | the row of each active Client with a given average; `CardService.CardAssignableClientsSpec`, `CardAssignableClientsSound` and `CardAssignableClientsUnique` state which rows there are |
| CardService.CardAssignableClientsSpec | src/ArtemisBanking.Infrastructure.Persistence/Services/CreditCardService.cs:157-184 | every active Client has a row, and every row carries the given average |
| CardService.CardAssignableClientsSound | src/ArtemisBanking.Infrastructure.Persistence/Services/CreditCardService.cs:157-184 | every row is the id, full name, national id and average of an active Client |
| CardService.CardAssignableClientsUnique | src/ArtemisBanking.Infrastructure.Persistence/Services/CreditCardService.cs:157-184 | with distinct user ids, no client has two rows |
| CardService.GetAssignableCardClients | src/ArtemisBanking.Infrastructure.Persistence/Services/CreditCardService.cs:157-184 | always succeeds; every active Client has a row, every row is an active Client's, and every row carries the mean debt over all cards, 0 without cards |
| UserService.GenerateAccountNumber | src/ArtemisBanking.Infrastructure.Identity/Services/UserService.cs:292-305 | the type code, the year, the draw and the check digit, dash separated; `UserService.AccountNumberSplit` and `AccountNumberFields` state its fields and that each reads back |
| UserService.CheckDigitShape | src/ArtemisBanking.Infrastructure.Identity/Services/UserService.cs:300-302 | the check digit is one digit, 0 to 8 |
| UserService.AccountNumberSplit | src/ArtemisBanking.Infrastructure.Identity/Services/UserService.cs:292-305 | a generated number splits on its dashes into code, year, draw and check digit |
| UserService.AccountNumberFields | src/ArtemisBanking.Infrastructure.Identity/Services/UserService.cs:292-305 | the fields have 2, the year's, 4 and 1 digits, read back as the inputs, and the last is the check digit of the others |
| UserService.CheckDigitCatchesTypo | src/ArtemisBanking.Infrastructure.Identity/Services/UserService.cs:300-302 | changing one digit by less than 9 changes the check digit |
| UserService.CreateRejection | src/ArtemisBanking.Infrastructure.Identity/Services/UserService.cs:97-112 | a failure exactly for mismatched passwords, a taken name or a taken e-mail, in that order |
| UserService.CreateUser | src/ArtemisBanking.Infrastructure.Identity/Services/UserService.cs:97-163 | a rejection or a failed create changes nothing; once created, the active user stays added even when the role write fails; a Client also gets a Principal account holding the initial amount; the view shows the user and that balance |
| UserService.NewClientBalance | src/ArtemisBanking.Infrastructure.Identity/Services/UserService.cs:153-163 | a new client is shown its initial amount, or 0 without one |
| UserService.ProfileUpdate | src/ArtemisBanking.Infrastructure.Identity/Services/UserService.cs:176-224 | the profile steps in order, stopping at the first failure with the earlier steps applied; `UserService.ProfileUpdateSpec` states the outcome |
| UserService.ProfileUpdateSpec | src/ArtemisBanking.Infrastructure.Identity/Services/UserService.cs:176-224 | names always apply; the e-mail is kept exactly when another user owns the new one; a success leaves the requested user name and e-mail |
| UserService.ApplyContact | src/ArtemisBanking.Infrastructure.Identity/Services/UserService.cs:176-189 | the user's profile becomes what the contact step gives |
| UserService.ApplyUserName | src/ArtemisBanking.Infrastructure.Identity/Services/UserService.cs:191-200 | the user's profile becomes what the name step gives |
| UserService.ApplyProfile | src/ArtemisBanking.Infrastructure.Identity/Services/UserService.cs:176-224 | the user's profile and the failure are what the profile update gives |
| UserService.DepositLedger | src/ArtemisBanking.Infrastructure.Identity/Services/UserService.cs:226-249 | the balance rises by a positive additional amount and otherwise stays, never falls, with one cashier Credito entry recording it |
| UserService.ApplyDeposit | src/ArtemisBanking.Infrastructure.Identity/Services/UserService.cs:226-249 | the client's Principal account, or a new one opened at 0, takes the deposit |
| UserService.UpdateUser | src/ArtemisBanking.Infrastructure.Identity/Services/UserService.cs:166-251 | an unknown user fails; otherwise the profile is updated, and a Client's deposit is taken, as the rules say |
| UserService.UpdateFound | src/ArtemisBanking.Infrastructure.Identity/Services/UserService.cs:176-251 | the profile update followed, on success for a Client, by the deposit |
| UserService.ToggleActive | src/ArtemisBanking.Infrastructure.Identity/Services/UserService.cs:254-274 | an unknown user fails; otherwise the active flag is flipped, nothing else changes, and the result follows the store's write |
| UserService.ToggleTwice | src/ArtemisBanking.Infrastructure.Identity/Services/UserService.cs:254-274 | two toggles restore the flag and leave the rest of the user unchanged |

## Left out

- Persistence: `SaveChangesAsync`, `AsNoTracking` and the change tracker. Tracked objects are updated in place, and a change is visible at once to every later read in the same call.
- Transactions: the database transaction around a service call, and the tracker reset when that transaction fails.
- LoanViews.Page: skips by the exact product `(pageIndex - 1) * pageSize`, where the code's `int` product wraps past 2^31 - 1. So `LoanViews.PagesTile` describes the code only while k * pageSize fits in an `int` (`LoanViews.PagesTileAsWritten`); `LoanViews.PageAsWritten` models the wrap.
- LoanViews.PageAsWritten: a negative offset is `None`; the database error it raises is not modelled further.
- Exception messages: an `ArgumentException` is modelled with the message the code passes. The code also passes `nameof(...)`, so .NET's `Message` ends in " (Parameter '…')". No result of the modelled services carries such a message: only the `InvalidOperationException` messages of `ChangeLimit` and `Cancel` reach a `Failure` (CreditCardService.cs:309-311 and 349-351), and those carry no suffix.
- Query order: the `OrderByDescending` of the list queries. The model keeps table order, so `LoanViews.Page` selects from the table in table order.
- CardService.CardAssignableClientsSpec: the rows follow table order, not the `OrderBy(FirstName).ThenBy(LastName)` of `CreditCardService.cs:161-162`, because the order of names depends on the database's collation. The contracts state which rows there are, not their order.
- CardService.GetAssignableCardClients: the same table order as `CardService.CardAssignableClientsSpec`, for the same reason.
- Other queries: `GetActiveLoansAsync`, `SearchLoansByNationalIdAsync`, `GetActiveCardsAsync`, `SearchCardsByNationalIdAsync`, `GetUsersAsync`, `GetByIdAsync`, `GetLoanDetailsAsync` and `GetCardDetailsAsync` are modelled only through their clamps, their pages and the maps they apply (`MapToLoanInstallmentDto` not at all). Their filters on status and national id and their total counts are not modelled.
- `BuildLoanDetailDtoAsync`: modelled only as "the loan and its owner are found". The loan detail object is not built.
- UserService.MapToUserView: a plain field copy with no contract of its own. Its result is stated through `UserService.CreateUser`.
- Transaction views: the id and creation time of a card or account transaction (`BaseAuditableEntity`) are not carried, so `CardProfile.TransactionViews` maps the other members only.
- Floating point: the monthly payment that `GenerateFrenchSchedule`, `RecalculateFrenchScheduleFrom` and `UpdateAnnualRate` compute in `double` is a parameter, because the model has no IEEE arithmetic. Every contract holds for any payment.
- Random, clock and ids: `Random.Next`, `DateTime.UtcNow` and `Guid.NewGuid` are parameters.
  - CardService.AssignCard: like `CardService.GenerateUniqueCardNumber`, it takes the random source as a finite stream of draws, and running out of draws returns `None`. The source instead loops until it finds a free number.
  - LoanAssignment.AssignLoan: its `draw < 999999` precondition is the range of `Random.Next(0, 999999)`.
- Identity store: `UserManager` and `RoleManager` (create, add to role, find by name or e-mail, password reset, update) are outcome parameters, and password hashing is not modelled. `UserService.ProfileUpdateSpec` takes the stores' answers as given.
- Hashing: SHA-256 of the CVC is the `sha256` parameter of `CardService.AssignCard`.
- Account type code: the numeric value of the `AccountType` enum is not part of this model. `UserService.GenerateAccountNumber` takes the code as a parameter.
- Notifications: the limit-change notice is returned as a value (`CardService.UpdateLimit`) instead of being sent through `INotificationService`.
- UserService.EqualsIgnoreCase: folds ASCII letters only; `StringComparison.OrdinalIgnoreCase` also folds non-ASCII letters.
- Common.AddMonths: adds whole months to a month index. The day clamp of `DateOnly.AddMonths` at month ends is not modelled.
- CardService.Expiry: keeps only the month and year of `AddYears(3)`, so the 29 February adjustment plays no part.
- Cards.CreditCard.RegisterTransaction: models the code as written. It is proved against `Cards.PostAsWritten`, and the corrected rule `Cards.PostIntended` is stated beside it (see Findings).
- LoanService.RecalculateFrenchScheduleFrom: models the numbering as written (`Installments.Count + 1`). The corrected schedule is `LoanService.CorrectedReplan` (see Findings).
- Controllers, authentication, JWT, the seeder, migrations and dependency injection are outside the modelled core.

## Findings

| source | as written | input that shows it | evidently intended | confidence | as-written member | corrected member |
|---|---|---|---|---|---|---|
| src/ArtemisBanking.Core.Domain/Entities/CreditCard.cs:66-73 | a charge that would exceed the limit is marked Rejected, but the debt is raised by its amount anyway | limit 1000, debt 900, a purchase of 150: it is rejected and the debt becomes 1050; a later purchase of 50 is rejected too and the debt becomes 1100 | a rejected charge leaves the debt unchanged, so 0 <= debt <= limit always holds | not executed | Cards.RejectedChargeRaisesDebt | Cards.PostIntendedKeepsWithinLimit |
| src/ArtemisBanking.Infrastructure.Persistence/Services/LoanService.cs:571 | the recalculated installments are numbered from `Installments.Count + 1` after the Paid ones are restored | installment 2 Paid and installment 1 still due: the recalculated installment is numbered 2, the number the Paid installment keeps, and number 1 disappears | each recalculated installment takes the number of the unpaid installment it replaces, so the loan keeps exactly the numbers it had | not executed | LoanService.RecalculationNumberCollision | LoanService.CorrectedReplanKeepsNumbers |
| src/ArtemisBanking.Infrastructure.Persistence/Services/LoanService.cs:41 | the skip count `(pageIndex - 1) * pageSize` is an unchecked `int` product, as at CreditCardService.cs:51 and 123 and UserService.cs:50, and the controllers pass any `int` through | page 1073741826 of size 4: the product 4294967300 wraps to 4, so the page repeats page 2; page 1073741825 of size 2 wraps to -2^31, a negative offset | the skip is the exact product, so the pages tile the result | not executed | LoanViews.PageSkipWraps | LoanViews.PagesTile |
