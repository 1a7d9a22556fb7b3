/** What the services read and write through their database context and
    the identity store: the identity user record
    (src/ArtemisBanking.Infrastructure.Identity/Models/ApplicationUser.cs),
    whose profile fields the user service assigns in place, and the tables of
    src/ArtemisBanking.Infrastructure.Persistence/ArtemisBankingDbContext.cs
    as lists of tracked entities. Queries become the lookups below; saving is
    not modelled, so a change to a tracked entity is visible at once. */
module Persistence {
  import opened Common
  import opened Users
  import opened Savings
  import opened Loans
  import opened Cards

  class ApplicationUser {
    const id: Guid
    var userName: string
    /** `None` stands for a null e-mail. */
    var email: Option<string>
    var firstName: string
    var lastName: string
    var nationalId: string
    var role: UserRole
    var isActive: bool

    constructor (id: Guid, userName: string, email: Option<string>, firstName: string, lastName: string,
                 nationalId: string, role: UserRole, isActive: bool)
      ensures this.id == id && this.userName == userName && this.email == email
      ensures this.firstName == firstName && this.lastName == lastName && this.nationalId == nationalId
      ensures this.role == role && this.isActive == isActive
    {
      this.id, this.userName, this.email := id, userName, email;
      this.firstName, this.lastName, this.nationalId := firstName, lastName, nationalId;
      this.role, this.isActive := role, isActive;
    }
  }

  class BankingDb {
    var users: seq<ApplicationUser>
    var savingsAccounts: seq<SavingsAccount>
    var loans: seq<Loan>
    var creditCards: seq<CreditCard>

    constructor ()
      ensures users == [] && savingsAccounts == [] && loans == [] && creditCards == []
    {
      users, savingsAccounts, loans, creditCards := [], [], [], [];
    }
  }

  /** `Users.FirstOrDefault(u => u.Id == id)`. */
  function FindUser(users: seq<ApplicationUser>, id: Guid): (r: Option<ApplicationUser>)
    ensures r.Some? <==> exists k :: 0 <= k < |users| && users[k].id == id
    ensures r.Some? ==> r.value in users && r.value.id == id
  {
    FirstWhere(users, (u: ApplicationUser) => u.id == id)
  }

  /** The user's first Principal savings account. */
  function FindPrincipalAccount(accounts: seq<SavingsAccount>, userId: Guid): (r: Option<SavingsAccount>)
    ensures r.Some? <==> exists k :: 0 <= k < |accounts| && accounts[k].userId == userId
                                     && accounts[k].accountType == Principal
    ensures r.Some? ==> r.value in accounts && r.value.userId == userId && r.value.accountType == Principal
  {
    FirstWhere(accounts, (a: SavingsAccount) => a.userId == userId && a.accountType == Principal)
  }

  function FindLoan(loans: seq<Loan>, id: Guid): (r: Option<Loan>)
    ensures r.Some? <==> exists k :: 0 <= k < |loans| && loans[k].id == id
    ensures r.Some? ==> r.value in loans && r.value.id == id
  {
    FirstWhere(loans, (l: Loan) => l.id == id)
  }

  function FindCard(cards: seq<CreditCard>, id: Guid): (r: Option<CreditCard>)
    ensures r.Some? <==> exists k :: 0 <= k < |cards| && cards[k].id == id
    ensures r.Some? ==> r.value in cards && r.value.id == id
  {
    FirstWhere(cards, (c: CreditCard) => c.id == id)
  }
}
