/** The user service
    (src/ArtemisBanking.Infrastructure.Identity/Services/UserService.cs):
    the account-number format with its digit-sum checksum, creating a user
    (and a client's Principal account), updating a user (and the deposit
    that may come with it), and switching a user on or off. The identity
    store's lookups and writes are outcomes given as parameters; the clock
    and the random draw are parameters too. */
module UserService {
  import opened Common
  import opened Results
  import opened Users
  import opened Savings
  import opened Persistence

  /* ------------- Account numbers ------------- */

  /** `raw.Sum(c => c - '0')`. */
  function DigitSum(s: string): int
    decreases |s|
  {
    if s == [] then 0 else DigitSum(s[..|s| - 1]) + DigitValue(s[|s| - 1])
  }

  /** The check digit of the digits `raw`: their digit sum modulo 9. */
  function CheckDigit(raw: string): (c: string)
  {
    NatToString(DigitSum(raw) % 9)
  }

  /** `GenerateAccountNumber`: the account type's code in two digits, the
      year, the draw in four digits, and the check digit of the three
      together, joined by dashes. */
  function GenerateAccountNumber(typeCode: nat, year: nat, draw: nat): string
  {
    var code, y, sq := FormatD(typeCode, 2), NatToString(year), FormatD(draw, 4);
    code + "-" + y + "-" + sq + "-" + CheckDigit(code + y + sq)
  }

  /** `s.Split(sep)`: the pieces between separators, in order. */
  function Split(s: string, sep: char): (r: seq<string>)
    ensures |r| >= 1
    decreases |s|
  {
    if s == [] then [""]
    else
      var init := Split(s[..|s| - 1], sep);
      if s[|s| - 1] == sep then init + [""]
      else init[..|init| - 1] + [init[|init| - 1] + [s[|s| - 1]]]
  }

  predicate NoSep(s: string, sep: char)
  {
    forall i :: 0 <= i < |s| ==> s[i] != sep
  }

  /** A piece after the last separator is appended to the last field. */
  lemma {:induction false} SplitField(a: string, b: string, sep: char)
    requires NoSep(b, sep)
    ensures Split(a + b, sep) == Split(a, sep)[..|Split(a, sep)| - 1]
                                 + [Split(a, sep)[|Split(a, sep)| - 1] + b]
    decreases |b|
  {
    if b == [] {
      assert a + b == a;
      var r := Split(a, sep);
      assert r[|r| - 1] + b == r[|r| - 1];
      assert r[..|r| - 1] + [r[|r| - 1]] == r;
    } else {
      var b' := b[..|b| - 1];
      assert (a + b)[..|a + b| - 1] == a + b';
      assert (a + b)[|a + b| - 1] == b[|b| - 1];
      SplitField(a, b', sep);
      var r := Split(a, sep);
      var init := Split(a + b', sep);
      assert init[..|init| - 1] == r[..|r| - 1];
      assert init[|init| - 1] + [b[|b| - 1]] == r[|r| - 1] + b by {
        assert b' + [b[|b| - 1]] == b;
      }
    }
  }

  /** Splitting a separator-free string gives it back whole, and a
      separator followed by a separator-free piece adds that piece as a new
      field. */
  lemma SplitFields(a: string, b: string, sep: char)
    requires NoSep(b, sep)
    ensures Split(b, sep) == [b]
    ensures Split(a + [sep] + b, sep) == Split(a, sep) + [b]
  {
    SplitField([], b, sep);
    assert [] + b == b;
    SplitField(a + [sep], b, sep);
    assert (a + [sep])[..|a + [sep]| - 1] == a;
  }

  lemma DigitsHaveNoDash(s: string)
    requires AllDigits(s)
    ensures NoSep(s, '-')
  {
    forall i | 0 <= i < |s| ensures s[i] != '-' {
      assert IsDigit(s[i]);
    }
  }

  /** A well-formed account number: four dash-separated digit fields, the
      last being the check digit of the first three. */
  predicate ValidAccountNumber(s: string)
  {
    var f := Split(s, '-');
    && |f| == 4 && AllDigits(f[0]) && AllDigits(f[1]) && AllDigits(f[2])
    && f[3] == CheckDigit(f[0] + f[1] + f[2])
  }

  /** The check digit is one digit, 0 to 8. */
  lemma CheckDigitShape(raw: string)
    ensures |CheckDigit(raw)| == 1 && AllDigits(CheckDigit(raw))
    ensures ParseDigits(CheckDigit(raw)) == DigitSum(raw) % 9 && DigitSum(raw) % 9 <= 8
  {
    ParseNatToString(DigitSum(raw) % 9);
  }

  /** A generated number splits on its dashes into the code, the year,
      the draw and the check digit. */
  lemma AccountNumberSplit(typeCode: nat, year: nat, draw: nat)
    ensures var code, y, sq := FormatD(typeCode, 2), NatToString(year), FormatD(draw, 4);
      Split(GenerateAccountNumber(typeCode, year, draw), '-') == [code, y, sq, CheckDigit(code + y + sq)]
  {
    var code, y, sq := FormatD(typeCode, 2), NatToString(year), FormatD(draw, 4);
    var ck := CheckDigit(code + y + sq);
    FormatDRoundTrip(typeCode, 2);
    FormatDRoundTrip(draw, 4);
    CheckDigitShape(code + y + sq);
    DigitsHaveNoDash(code);
    DigitsHaveNoDash(y);
    DigitsHaveNoDash(sq);
    DigitsHaveNoDash(ck);
    SplitFour(code, y, sq, ck);
  }

  /** Four dash-free fields joined by dashes split back into themselves. */
  lemma SplitFour(a: string, b: string, c: string, d: string)
    requires NoSep(a, '-') && NoSep(b, '-') && NoSep(c, '-') && NoSep(d, '-')
    ensures Split(a + "-" + b + "-" + c + "-" + d, '-') == [a, b, c, d]
  {
    SplitFields([], a, '-');
    SplitFields(a, b, '-');
    SplitFields(a + "-" + b, c, '-');
    SplitFields(a + "-" + b + "-" + c, d, '-');
  }

  /** A generated number has the code in 2 digits, the year, the draw in 4
      digits and a one-digit check digit; the fields read back as the
      inputs, and the last one is recomputed from the first three. */
  lemma AccountNumberFields(typeCode: nat, year: nat, draw: nat)
    requires typeCode < 100 && draw < 9999
    ensures var f := Split(GenerateAccountNumber(typeCode, year, draw), '-');
      && |f| == 4 && |f[0]| == 2 && |f[2]| == 4 && |f[3]| == 1
      && AllDigits(f[0]) && AllDigits(f[1]) && AllDigits(f[2])
      && ParseDigits(f[0]) == typeCode && ParseDigits(f[1]) == year && ParseDigits(f[2]) == draw
      && ValidAccountNumber(GenerateAccountNumber(typeCode, year, draw))
  {
    var code, y, sq := FormatD(typeCode, 2), NatToString(year), FormatD(draw, 4);
    AccountNumberSplit(typeCode, year, draw);
    FormatDRoundTrip(typeCode, 2);
    FormatDRoundTrip(draw, 4);
    ParseNatToString(year);
    CheckDigitShape(code + y + sq);
    assert Pow10(2) == 100 && Pow10(4) == 10000;
  }

  /** Changing one digit of the raw digits by less than 9 changes the check
      digit: a one-digit typo in an account number is caught. */
  lemma {:induction false} CheckDigitCatchesTypo(raw: string, i: nat, d: char)
    requires i < |raw| && AllDigits(raw) && IsDigit(d) && d != raw[i]
    requires !(raw[i] == '0' && d == '9') && !(raw[i] == '9' && d == '0')
    ensures CheckDigit(raw[i := d]) != CheckDigit(raw)
    decreases |raw|
  {
    DigitSumChange(raw, i, d);
    var a, b := DigitSum(raw), DigitSum(raw[i := d]);
    ParseNatToString(a % 9);
    ParseNatToString(b % 9);
    var delta := DigitValue(d) - DigitValue(raw[i]);
    assert b == a + delta && -8 <= delta <= 8 && delta != 0;
    assert b % 9 != a % 9;
  }

  lemma {:induction false} DigitSumChange(raw: string, i: nat, d: char)
    requires i < |raw|
    ensures DigitSum(raw[i := d]) == DigitSum(raw) + DigitValue(d) - DigitValue(raw[i])
    decreases |raw|
  {
    var t := raw[i := d];
    if i < |raw| - 1 {
      assert t[..|t| - 1] == raw[..|raw| - 1][i := d];
      DigitSumChange(raw[..|raw| - 1], i, d);
    } else {
      assert t[..|t| - 1] == raw[..|raw| - 1];
    }
  }

  /* ------------- Identity outcomes and messages ------------- */

  /** What an identity-store write reports: success, or the descriptions
      of its errors. */
  datatype IdentityOutcome = IdentityOk | IdentityFailed(errors: seq<string>)

  /** `string.Join(", ", errors)`. */
  function JoinErrors(errors: seq<string>): string
    decreases |errors|
  {
    if |errors| == 0 then ""
    else if |errors| == 1 then errors[0]
    else JoinErrors(errors[..|errors| - 1]) + ", " + errors[|errors| - 1]
  }

  const PasswordsDiffer := "Las contraseñas no coinciden."
  const UserNameTaken := "El nombre de usuario ya está en uso."
  const EmailTaken := "El correo electrónico ya está en uso."
  const CreateFailedPrefix := "Error al crear el usuario: "
  const RoleFailedPrefix := "Usuario creado, pero error al asignar el rol: "
  const UserNotFound := "Usuario no encontrado."
  /** One message, written as two literals so that the verifier can read
      its characters, which it cannot do for one literal this long. */
  const EmailTakenByOther := "El correo electrónico" + " ya está en uso por otro usuario."
  const UserNameTakenByOther := "El nombre de usuario ya está en uso por otro usuario."
  const NewPasswordsDiffer := "Las contraseñas nuevas no coinciden."
  const PasswordFailedPrefix := "Error al cambiar la contraseña: "
  const UpdateFailedPrefix := "Error al actualizar el usuario: "
  const ToggleFailedPrefix := "Error al actualizar el estado del usuario: "
  const DepositDescription := "Depósito adicional desde actualización de usuario"

  /** `UserDto`. */
  datatype UserView = UserView(
    id: Guid, username: string, email: Option<string>, firstName: string, lastName: string,
    nationalId: string, role: UserRole, isActive: bool, principalAccountBalance: real)

  function MapToUserView(u: ApplicationUser, balance: real): UserView
    reads u
  {
    UserView(u.id, u.userName, u.email, u.firstName, u.lastName, u.nationalId, u.role, u.isActive, balance)
  }

  /** The balance of the user's first Principal account, or 0. */
  function PrincipalBalance(accounts: seq<SavingsAccount>, userId: Guid): real
    reads accounts
  {
    match FindPrincipalAccount(accounts, userId)
    case Some(a) => a.balance
    case None => 0.0
  }

  /* ------------- Creating a user ------------- */

  /** `CreateUserDto`; `None` is a missing initial amount. */
  datatype CreateUserRequest = CreateUserRequest(
    username: string, email: string, firstName: string, lastName: string, nationalId: string,
    role: UserRole, password: string, confirmPassword: string, initialAmount: Option<real>)

  /** `InitialAmount ?? 0`. */
  function InitialBalance(amount: Option<real>): real
  {
    if amount.Some? then amount.value else 0.0
  }

  /** The failure `CreateAsync` returns before it writes anything: the
      passwords compared ordinally first, then the user name, then the
      e-mail. */
  function CreateRejection(password: string, confirmPassword: string, nameTaken: bool, emailTaken: bool)
    : (r: Option<string>)
    ensures r.None? <==> password == confirmPassword && !nameTaken && !emailTaken
    ensures password != confirmPassword ==> r == Some(PasswordsDiffer)
    ensures password == confirmPassword && nameTaken ==> r == Some(UserNameTaken)
    ensures password == confirmPassword && !nameTaken && emailTaken ==> r == Some(EmailTaken)
  {
    if password != confirmPassword then Some(PasswordsDiffer)
    else if nameTaken then Some(UserNameTaken)
    else if emailTaken then Some(EmailTaken)
    else None
  }

  /** The user `CreateAsync` builds from the request: active at once. */
  predicate NewUser(u: ApplicationUser, id: Guid, req: CreateUserRequest)
    reads u
  {
    && u.id == id && u.userName == req.username && u.email == Some(req.email)
    && u.firstName == req.firstName && u.lastName == req.lastName && u.nationalId == req.nationalId
    && u.role == req.role && u.isActive
  }

  /** The Principal account opened for a new client. */
  predicate NewPrincipal(a: SavingsAccount, id: Guid, userId: Guid, accountNumber: string, balance: real)
    reads a
  {
    && a.id == id && a.userId == userId && a.accountType == Principal && a.status == Activa
    && a.accountNumber == accountNumber && a.balance == balance && a.transactions == []
  }

  /** `CreateAsync`. `nameTaken` and `emailTaken` are what the identity
      store's lookups find; `created` and `roleAdded` are what its writes
      report. */
  method CreateUser(db: BankingDb, req: CreateUserRequest, newUserId: Guid, newAccountId: Guid,
                    typeCode: nat, year: nat, draw: nat, nameTaken: bool, emailTaken: bool,
                    created: IdentityOutcome, roleAdded: IdentityOutcome) returns (r: ResultOf<UserView>)
    modifies db`users, db`savingsAccounts
    ensures CreateRejection(req.password, req.confirmPassword, nameTaken, emailTaken).Some? ==>
      && r == FailureOf(CreateRejection(req.password, req.confirmPassword, nameTaken, emailTaken).value)
      && db.users == old(db.users) && db.savingsAccounts == old(db.savingsAccounts)
    ensures CreateRejection(req.password, req.confirmPassword, nameTaken, emailTaken).None? && created.IdentityFailed? ==>
      && r == FailureOf(CreateFailedPrefix + JoinErrors(created.errors))
      && db.users == old(db.users) && db.savingsAccounts == old(db.savingsAccounts)
    ensures CreateRejection(req.password, req.confirmPassword, nameTaken, emailTaken).None? && created.IdentityOk? ==>
      && |db.users| == |old(db.users)| + 1 && db.users[..|old(db.users)|] == old(db.users)
      && var u := db.users[|old(db.users)|];
      && fresh(u) && NewUser(u, newUserId, req)
      && (roleAdded.IdentityFailed? ==>
            r == FailureOf(RoleFailedPrefix + JoinErrors(roleAdded.errors))
            && db.savingsAccounts == old(db.savingsAccounts))
      && (roleAdded.IdentityOk? && req.role != Client ==>
            r == SuccessOf(MapToUserView(u, 0.0)) && db.savingsAccounts == old(db.savingsAccounts))
      && (roleAdded.IdentityOk? && req.role == Client ==>
            && |db.savingsAccounts| == |old(db.savingsAccounts)| + 1
            && db.savingsAccounts[..|old(db.savingsAccounts)|] == old(db.savingsAccounts)
            && var a := db.savingsAccounts[|old(db.savingsAccounts)|];
            && fresh(a)
            && NewPrincipal(a, newAccountId, newUserId, GenerateAccountNumber(typeCode, year, draw),
                            InitialBalance(req.initialAmount))
            && r == SuccessOf(MapToUserView(u, PrincipalBalance(db.savingsAccounts, newUserId))))
  {
    var rejection := CreateRejection(req.password, req.confirmPassword, nameTaken, emailTaken);
    if rejection.Some? {
      return FailureOf(rejection.value);
    }
    var user := new ApplicationUser(newUserId, req.username, Some(req.email), req.firstName, req.lastName,
                                    req.nationalId, req.role, true);
    if created.IdentityFailed? {
      return FailureOf(CreateFailedPrefix + JoinErrors(created.errors));
    }
    db.users := db.users + [user];
    if roleAdded.IdentityFailed? {
      return FailureOf(RoleFailedPrefix + JoinErrors(roleAdded.errors));
    }
    if req.role == Client {
      var accountNumber := GenerateAccountNumber(typeCode, year, draw);
      var account := SavingsAccount.CreatePrincipal(newAccountId, user.id, accountNumber,
                                                    InitialBalance(req.initialAmount));
      db.savingsAccounts := db.savingsAccounts + [account];
    }
    var balance := 0.0;
    if req.role == Client {
      balance := PrincipalBalance(db.savingsAccounts, user.id);
    }
    r := SuccessOf(MapToUserView(user, balance));
  }

  /** When no account belonged to the new user before, the balance the
      created client is shown is its initial amount, or 0 without one. */
  lemma NewClientBalance(accounts: seq<SavingsAccount>, a: SavingsAccount, id: Guid, userId: Guid,
                         accountNumber: string, amount: Option<real>)
    requires forall k :: 0 <= k < |accounts| ==> accounts[k].userId != userId
    requires NewPrincipal(a, id, userId, accountNumber, InitialBalance(amount))
    ensures PrincipalBalance(accounts + [a], userId) == InitialBalance(amount)
    ensures amount.None? ==> PrincipalBalance(accounts + [a], userId) == 0.0
  {
    assert (accounts + [a])[|accounts|] == a;
  }

  /* ------------- Updating a user ------------- */

  /** `UpdateUserDto`; `None` is a null password, confirmation or amount. */
  datatype UpdateUserRequest = UpdateUserRequest(
    email: string, firstName: string, lastName: string, nationalId: string, username: string,
    newPassword: Option<string>, confirmNewPassword: Option<string>, additionalAmount: Option<real>)

  /** The profile fields `UpdateAsync` can assign. */
  datatype Profile = Profile(userName: string, email: Option<string>, firstName: string, lastName: string,
                             nationalId: string)

  function ProfileOf(u: ApplicationUser): Profile
    reads u
  {
    Profile(u.userName, u.email, u.firstName, u.lastName, u.nationalId)
  }

  function AsciiUpper(c: char): char
  {
    if 'a' <= c <= 'z' then (c as int - 32) as char else c
  }

  /** `string.Equals(a, b, StringComparison.OrdinalIgnoreCase)` with a
      possibly null `a`, on the ASCII letters. */
  predicate EqualsIgnoreCase(a: Option<string>, b: string)
  {
    a.Some? && |a.value| == |b| && forall i :: 0 <= i < |b| ==> AsciiUpper(a.value[i]) == AsciiUpper(b[i])
  }

  /** A non-blank new password was given. */
  predicate ChangesPassword(req: UpdateUserRequest)
  {
    req.newPassword.Some? && !IsBlank(req.newPassword.value)
  }

  /** The first step of `UpdateAsync`: the names and national id are
      assigned at once; the e-mail, when it differs ignoring case, unless
      another user owns the new one. */
  function ContactStep(p: Profile, userId: Guid, req: UpdateUserRequest, emailOwner: Option<Guid>)
    : (Profile, Option<string>)
  {
    var p1 := p.(firstName := req.firstName, lastName := req.lastName, nationalId := req.nationalId);
    if EqualsIgnoreCase(p1.email, req.email) then (p1, None)
    else if emailOwner.Some? && emailOwner.value != userId then (p1, Some(EmailTakenByOther))
    else (p1.(email := Some(req.email)), None)
  }

  /** The second step: the user name, when it differs, unless another
      user owns the new one. */
  function NameStep(p: Profile, userId: Guid, req: UpdateUserRequest, nameOwner: Option<Guid>)
    : (Profile, Option<string>)
  {
    if p.userName == req.username then (p, None)
    else if nameOwner.Some? && nameOwner.value != userId then (p, Some(UserNameTakenByOther))
    else (p.(userName := req.username), None)
  }

  /** The last step: a non-blank new password must match its confirmation
      and be accepted by the store, and the store must accept the update. */
  function CommitStep(req: UpdateUserRequest, passwordReset: IdentityOutcome, updated: IdentityOutcome)
    : Option<string>
  {
    if ChangesPassword(req) && req.confirmNewPassword != req.newPassword then Some(NewPasswordsDiffer)
    else if ChangesPassword(req) && passwordReset.IdentityFailed? then
      Some(PasswordFailedPrefix + JoinErrors(passwordReset.errors))
    else if updated.IdentityFailed? then Some(UpdateFailedPrefix + JoinErrors(updated.errors))
    else None
  }

  /** The profile part of `UpdateAsync`: the profile left behind and the
      failure it stopped at; the steps already taken stay applied on the
      tracked user when a later one fails. */
  function ProfileUpdate(p: Profile, userId: Guid, req: UpdateUserRequest, emailOwner: Option<Guid>,
                         nameOwner: Option<Guid>, passwordReset: IdentityOutcome, updated: IdentityOutcome)
    : (Profile, Option<string>)
  {
    var (p1, f1) := ContactStep(p, userId, req, emailOwner);
    if f1.Some? then (p1, f1)
    else
      var (p2, f2) := NameStep(p1, userId, req, nameOwner);
      if f2.Some? then (p2, f2)
      else (p2, CommitStep(req, passwordReset, updated))
  }

  /** Whatever happens, the names and national id take the requested
      values; the e-mail is left alone exactly when another user owns the
      new one; and an update that goes through leaves the requested user
      name and an e-mail equal to the requested one up to case. */
  lemma ProfileUpdateSpec(p: Profile, userId: Guid, req: UpdateUserRequest, emailOwner: Option<Guid>,
                          nameOwner: Option<Guid>, passwordReset: IdentityOutcome, updated: IdentityOutcome)
    ensures var (q, failure) := ProfileUpdate(p, userId, req, emailOwner, nameOwner, passwordReset, updated);
      && q.firstName == req.firstName && q.lastName == req.lastName && q.nationalId == req.nationalId
      && (failure == Some(EmailTakenByOther) <==>
            !EqualsIgnoreCase(p.email, req.email) && emailOwner.Some? && emailOwner.value != userId)
      && (failure == Some(EmailTakenByOther) ==> q.email == p.email && q.userName == p.userName)
      && (failure.None? ==> q.userName == req.username && EqualsIgnoreCase(q.email, req.email))
      && (failure.None? ==> updated.IdentityOk? && (ChangesPassword(req) ==> req.confirmNewPassword == req.newPassword))
  {
    var e := Some(req.email);
    assert EqualsIgnoreCase(e, req.email);
    assert EmailTakenByOther[1] == 'l';
    assert forall x: string {:trigger PasswordFailedPrefix + x} :: (PasswordFailedPrefix + x)[1] == 'r';
    assert forall x: string {:trigger UpdateFailedPrefix + x} :: (UpdateFailedPrefix + x)[1] == 'r';
  }

  method ApplyContact(u: ApplicationUser, req: UpdateUserRequest, emailOwner: Option<Guid>)
    returns (failure: Option<string>)
    modifies u
    ensures (ProfileOf(u), failure) == ContactStep(old(ProfileOf(u)), u.id, req, emailOwner)
    ensures u.role == old(u.role) && u.isActive == old(u.isActive)
  {
    u.firstName, u.lastName, u.nationalId := req.firstName, req.lastName, req.nationalId;
    failure := None;
    if !EqualsIgnoreCase(u.email, req.email) {
      if emailOwner.Some? && emailOwner.value != u.id {
        return Some(EmailTakenByOther);
      }
      u.email := Some(req.email);
    }
  }

  method ApplyUserName(u: ApplicationUser, req: UpdateUserRequest, nameOwner: Option<Guid>)
    returns (failure: Option<string>)
    modifies u
    ensures (ProfileOf(u), failure) == NameStep(old(ProfileOf(u)), u.id, req, nameOwner)
    ensures u.role == old(u.role) && u.isActive == old(u.isActive)
  {
    failure := None;
    if u.userName != req.username {
      if nameOwner.Some? && nameOwner.value != u.id {
        return Some(UserNameTakenByOther);
      }
      u.userName := req.username;
    }
  }

  /** The profile part of `UpdateAsync` on the tracked user. */
  method ApplyProfile(u: ApplicationUser, req: UpdateUserRequest, emailOwner: Option<Guid>, nameOwner: Option<Guid>,
                      passwordReset: IdentityOutcome, updated: IdentityOutcome) returns (failure: Option<string>)
    modifies u
    ensures (ProfileOf(u), failure)
            == ProfileUpdate(old(ProfileOf(u)), u.id, req, emailOwner, nameOwner, passwordReset, updated)
    ensures u.role == old(u.role) && u.isActive == old(u.isActive)
  {
    failure := ApplyContact(u, req, emailOwner);
    if failure.Some? {
      return;
    }
    failure := ApplyUserName(u, req, nameOwner);
    if failure.Some? {
      return;
    }
    failure := CommitStep(req, passwordReset, updated);
  }
  /** An additional amount moves money only when it is present and
      positive. */
  predicate DepositDue(additional: Option<real>)
  {
    additional.Some? && additional.value > 0.0
  }

  /** The Principal account's ledger after the deposit rule: the balance
      rises by the additional amount when it is positive and by nothing
      otherwise, never falls, and the deposit is recorded as one cashier
      credit entry. */
  function DepositLedger(accountId: Guid, l: Ledger, additional: Option<real>): (d: Ledger)
    ensures d.balance == l.balance + (if DepositDue(additional) then additional.value else 0.0)
    ensures d.balance >= l.balance
    ensures !DepositDue(additional) ==> d == l
    ensures DepositDue(additional) ==>
      && |d.transactions| == |l.transactions| + 1 && d.transactions[..|l.transactions|] == l.transactions
      && var tx := d.transactions[|l.transactions|];
      && tx.txType == Credito && tx.origin == Cajero && tx.amount == additional.value
      && tx.description == DepositDescription && tx.balanceAfterTransaction == d.balance
  {
    if DepositDue(additional) then CreditLedger(accountId, l, additional.value, DepositDescription, Cajero).value
    else l
  }

  /** The client branch of `UpdateAsync`: with a Principal account, it takes
      the deposit; without one, a new Principal account with balance 0 is
      opened and takes it. */
  twostate predicate Deposited(db: BankingDb, userId: Guid, additional: Option<real>, newAccountId: Guid,
                               accountNumber: string)
    reads db, db.savingsAccounts
  {
    match old(FindPrincipalAccount(db.savingsAccounts, userId))
    case Some(a) =>
      && db.savingsAccounts == old(db.savingsAccounts)
      && a.Snapshot() == DepositLedger(a.id, old(a.Snapshot()), additional)
      && (forall b :: b in db.savingsAccounts && b != a ==> unchanged(b))
    case None =>
      && |db.savingsAccounts| == |old(db.savingsAccounts)| + 1
      && db.savingsAccounts[..|old(db.savingsAccounts)|] == old(db.savingsAccounts)
      && var n := db.savingsAccounts[|old(db.savingsAccounts)|];
      && fresh(n) && n.id == newAccountId && n.userId == userId && n.accountType == Principal
      && n.accountNumber == accountNumber
      && n.Snapshot() == DepositLedger(newAccountId, Ledger(0.0, []), additional)
      && (forall b :: b in old(db.savingsAccounts) ==> unchanged(b))
  }

  method ApplyDeposit(db: BankingDb, userId: Guid, additional: Option<real>, newAccountId: Guid,
                      accountNumber: string)
    modifies db`savingsAccounts, db.savingsAccounts
    ensures Deposited(db, userId, additional, newAccountId, accountNumber)
  {
    var found := FindPrincipalAccount(db.savingsAccounts, userId);
    var account: SavingsAccount;
    if found.None? {
      account := SavingsAccount.CreatePrincipal(newAccountId, userId, accountNumber, 0.0);
      db.savingsAccounts := db.savingsAccounts + [account];
    } else {
      account := found.value;
    }
    if DepositDue(additional) {
      var _ := account.Credit(additional.value, DepositDescription, Cajero);
    }
  }

  /** `UpdateAsync`. `emailOwner` and `nameOwner` are the ids of the users
      the identity store finds for the requested e-mail and user name;
      `passwordReset` and `updated` are what its writes report. */
  method UpdateUser(db: BankingDb, id: Guid, req: UpdateUserRequest, emailOwner: Option<Guid>,
                    nameOwner: Option<Guid>, passwordReset: IdentityOutcome, updated: IdentityOutcome,
                    newAccountId: Guid, typeCode: nat, year: nat, draw: nat) returns (r: Result)
    modifies db.users, db`savingsAccounts, db.savingsAccounts
    ensures FindUser(db.users, id).None? ==>
      r == Failure(UserNotFound) && unchanged(db.users) && db.savingsAccounts == old(db.savingsAccounts)
      && unchanged(db.savingsAccounts)
    ensures FindUser(db.users, id).Some? ==>
      var u := FindUser(db.users, id).value;
      var out := ProfileUpdate(old(ProfileOf(u)), id, req, emailOwner, nameOwner, passwordReset, updated);
      && ProfileOf(u) == out.0 && u.role == old(u.role) && u.isActive == old(u.isActive)
      && (forall v :: v in db.users && v != u ==> unchanged(v))
      && (out.1.Some? ==> r == Failure(out.1.value) && db.savingsAccounts == old(db.savingsAccounts)
                          && unchanged(db.savingsAccounts))
      && (out.1.None? && u.role != Client ==> r == Success() && db.savingsAccounts == old(db.savingsAccounts)
                                              && unchanged(db.savingsAccounts))
      && (out.1.None? && u.role == Client ==>
            r == Success() && Deposited(db, id, req.additionalAmount, newAccountId,
                                        GenerateAccountNumber(typeCode, year, draw)))
  {
    var user := FindUser(db.users, id);
    if user.None? {
      return Failure(UserNotFound);
    }
    r := UpdateFound(db, user.value, req, emailOwner, nameOwner, passwordReset, updated, newAccountId,
                     GenerateAccountNumber(typeCode, year, draw));
  }

  /** `UpdateAsync` once the user is found. */
  method UpdateFound(db: BankingDb, u: ApplicationUser, req: UpdateUserRequest, emailOwner: Option<Guid>,
                     nameOwner: Option<Guid>, passwordReset: IdentityOutcome, updated: IdentityOutcome,
                     newAccountId: Guid, accountNumber: string) returns (r: Result)
    requires u in db.users
    modifies u, db`savingsAccounts, db.savingsAccounts
    ensures var out := ProfileUpdate(old(ProfileOf(u)), u.id, req, emailOwner, nameOwner, passwordReset, updated);
      && ProfileOf(u) == out.0 && u.role == old(u.role) && u.isActive == old(u.isActive)
      && (out.1.Some? ==> r == Failure(out.1.value) && db.savingsAccounts == old(db.savingsAccounts)
                          && unchanged(db.savingsAccounts))
      && (out.1.None? && u.role != Client ==> r == Success() && db.savingsAccounts == old(db.savingsAccounts)
                                              && unchanged(db.savingsAccounts))
      && (out.1.None? && u.role == Client ==>
            r == Success() && Deposited(db, u.id, req.additionalAmount, newAccountId, accountNumber))
  {
    var failure := ApplyProfile(u, req, emailOwner, nameOwner, passwordReset, updated);
    if failure.Some? {
      return Failure(failure.value);
    }
    if u.role == Client {
      ApplyDeposit(db, u.id, req.additionalAmount, newAccountId, accountNumber);
    }
    r := Success();
  }

  /* ------------- Switching a user on or off ------------- */

  /** `ToggleActiveAsync`: the flag is flipped on the tracked user before
      the store's update is asked for, whatever that reports. */
  method ToggleActive(db: BankingDb, id: Guid, updated: IdentityOutcome) returns (r: Result)
    modifies db.users
    ensures FindUser(db.users, id).None? ==> r == Failure(UserNotFound) && unchanged(db.users)
    ensures FindUser(db.users, id).Some? ==>
      var u := FindUser(db.users, id).value;
      && u.isActive == !old(u.isActive) && ProfileOf(u) == old(ProfileOf(u)) && u.role == old(u.role)
      && (forall v :: v in db.users && v != u ==> unchanged(v))
      && r == (if updated.IdentityOk? then Success() else Failure(ToggleFailedPrefix + JoinErrors(updated.errors)))
  {
    var user := FindUser(db.users, id);
    if user.None? {
      return Failure(UserNotFound);
    }
    user.value.isActive := !user.value.isActive;
    if updated.IdentityFailed? {
      return Failure(ToggleFailedPrefix + JoinErrors(updated.errors));
    }
    r := Success();
  }

  /** Two toggles restore the flag, and nothing else about the user
      changes. */
  method ToggleTwice(db: BankingDb, id: Guid, first: IdentityOutcome, second: IdentityOutcome)
    returns (r1: Result, r2: Result)
    modifies db.users
    ensures FindUser(db.users, id).Some? ==>
      var u := FindUser(db.users, id).value;
      u.isActive == old(u.isActive) && ProfileOf(u) == old(ProfileOf(u)) && u.role == old(u.role)
  {
    r1 := ToggleActive(db, id, first);
    r2 := ToggleActive(db, id, second);
  }
}
