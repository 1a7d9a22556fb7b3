/** The card service
    (src/ArtemisBanking.Infrastructure.Persistence/Services/CreditCardService.cs):
    assigning a card to a client (its checks, a card number no other card
    has, the CVC and the expiry), changing a card's limit with the
    notification it triggers, cancelling a card, and the assignable-clients
    query. The random source is a stream of draws given as a parameter, the
    hash function and the clock are parameters, and the notification is
    returned instead of sent. */
module CardService {
  import opened Common
  import opened Results
  import opened Users
  import opened Cards
  import opened Persistence
  import opened CardProfile
  import opened LoanAssignment

  const LimitMustBePositive := "El límite inicial debe ser mayor que cero."
  const InvalidCardClient := "Cliente inválido o inactivo."
  const ClientHasActiveCard := "El cliente ya tiene una tarjeta activa."
  const CardNotFound := "Tarjeta no encontrada."

  const CardNumberLength: nat := 16

  /* ------------- The card number ------------- */

  /** Some card already carries `number`. */
  predicate NumberTaken(cards: seq<CreditCard>, number: string)
  {
    exists j :: 0 <= j < |cards| && cards[j].cardNumber == number
  }

  /** The digits `0`..`9` a run of draws stands for. */
  function DigitString(draws: seq<nat>): (s: string)
    requires forall i :: 0 <= i < |draws| ==> draws[i] < 10
    ensures |s| == |draws| && forall i :: 0 <= i < |draws| ==> s[i] == DigitChar(draws[i])
  {
    seq(|draws|, i requires 0 <= i < |draws| => DigitChar(draws[i]))
  }

  predicate DigitDraws(draws: seq<nat>)
  {
    forall i :: 0 <= i < |draws| ==> draws[i] < 10
  }

  /** The `k`-th candidate number: draws `16k` to `16k + 15`. */
  function Candidate(draws: seq<nat>, k: nat): (s: string)
    requires DigitDraws(draws) && CardNumberLength * k + CardNumberLength <= |draws|
  {
    DigitString(draws[CardNumberLength * k..CardNumberLength * k + CardNumberLength])
  }

  /** The number the retry loop settles on: the first candidate no card
      carries, or `None` when the draws run out first. */
  function CardNumberDraw(cards: seq<CreditCard>, draws: seq<nat>): Option<string>
    requires DigitDraws(draws)
    decreases |draws|
  {
    if |draws| < CardNumberLength then None
    else
      var candidate := DigitString(draws[..CardNumberLength]);
      if !NumberTaken(cards, candidate) then Some(candidate)
      else CardNumberDraw(cards, draws[CardNumberLength..])
  }

  /** `GenerateUniqueCardNumberAsync`: fill a 16-character buffer with
      drawn digits, keep it if no card has it, otherwise draw again. */
  method GenerateUniqueCardNumber(cards: seq<CreditCard>, draws: seq<nat>) returns (number: Option<string>)
    requires DigitDraws(draws)
    ensures number == CardNumberDraw(cards, draws)
  {
    var used := 0;
    while used + CardNumberLength <= |draws|
      invariant used <= |draws|
      invariant CardNumberDraw(cards, draws[used..]) == CardNumberDraw(cards, draws)
      decreases |draws| - used
    {
      var digits := new char[CardNumberLength];
      for i := 0 to CardNumberLength
        invariant forall k :: 0 <= k < i ==> digits[k] == DigitChar(draws[used + k])
      {
        digits[i] := DigitChar(draws[used + i]);
      }
      var candidate := digits[..];
      assert draws[used..][..CardNumberLength] == draws[used..used + CardNumberLength];
      assert candidate == DigitString(draws[used..][..CardNumberLength]);
      var taken := NumberTaken(cards, candidate);
      if !taken {
        return Some(candidate);
      }
      assert draws[used..][CardNumberLength..] == draws[used + CardNumberLength..];
      used := used + CardNumberLength;
    }
    number := None;
  }

  /** The number drawn has 16 digits and is carried by no card; there is
      none exactly when every candidate the draws make up is taken. */
  lemma {:induction false} CardNumberDrawSpec(cards: seq<CreditCard>, draws: seq<nat>)
    requires DigitDraws(draws)
    ensures var r := CardNumberDraw(cards, draws);
      r.Some? ==> |r.value| == CardNumberLength && AllDigits(r.value) && !NumberTaken(cards, r.value)
    ensures CardNumberDraw(cards, draws).None? <==>
              forall k :: 0 <= k < |draws| / CardNumberLength ==> NumberTaken(cards, Candidate(draws, k))
    decreases |draws|
  {
    if |draws| >= CardNumberLength {
      var rest := draws[CardNumberLength..];
      CardNumberDrawSpec(cards, rest);
      assert |rest| / CardNumberLength == |draws| / CardNumberLength - 1;
      assert Candidate(draws, 0) == DigitString(draws[..CardNumberLength]);
      forall k | 0 <= k < |rest| / CardNumberLength
        ensures Candidate(rest, k) == Candidate(draws, k + 1)
      {
        assert rest[CardNumberLength * k..CardNumberLength * k + CardNumberLength]
               == draws[CardNumberLength * (k + 1)..CardNumberLength * (k + 1) + CardNumberLength];
      }
      if NumberTaken(cards, Candidate(draws, 0)) {
        forall k | 0 <= k < |draws| / CardNumberLength
            && (forall j :: 0 <= j < |rest| / CardNumberLength ==> NumberTaken(cards, Candidate(rest, j)))
          ensures NumberTaken(cards, Candidate(draws, k))
        {
          if k > 0 {
            assert Candidate(rest, k - 1) == Candidate(draws, k);
          }
        }
      }
    }
  }

  /** Card numbers that no two cards share. */
  predicate DistinctNumbers(cards: seq<CreditCard>)
  {
    forall i, j :: 0 <= i < j < |cards| ==> cards[i].cardNumber != cards[j].cardNumber
  }

  /** Adding a card with a number no card has keeps the numbers distinct. */
  lemma FreshNumberKeepsDistinct(cards: seq<CreditCard>, card: CreditCard)
    requires DistinctNumbers(cards) && !NumberTaken(cards, card.cardNumber)
    ensures DistinctNumbers(cards + [card])
  {
    var all := cards + [card];
    forall i, j | 0 <= i < j < |all| ensures all[i].cardNumber != all[j].cardNumber {
      if j == |cards| {
        assert all[i] == cards[i];
      } else {
        assert all[i] == cards[i] && all[j] == cards[j];
      }
    }
  }

  /** A drawn number is never blank and is at least 4 long, so it masks to
      its last 4 digits. */
  lemma DrawnNumberMasks(number: string)
    requires |number| == CardNumberLength && AllDigits(number)
    ensures !IsBlank(number)
    ensures MaskCardNumber(number) == MaskPrefix + number[12..]
  {
    assert IsDigit(number[0]);
  }

  /* ------------- CVC and expiry ------------- */

  /** `GenerateCvc`: the drawn value, between 100 and 999, in three digits. */
  function GenerateCvc(value: int): (cvc: string)
    requires 100 <= value < 1000
  {
    FormatD(value, 3)
  }

  /** The CVC is three digits and reads back as the drawn value, so
      distinct draws give distinct CVCs. */
  lemma CvcShape(value: int, other: int)
    requires 100 <= value < 1000 && 100 <= other < 1000
    ensures |GenerateCvc(value)| == 3 && AllDigits(GenerateCvc(value))
    ensures ParseDigits(GenerateCvc(value)) == value
    ensures GenerateCvc(value) == GenerateCvc(other) <==> value == other
  {
    FormatDRoundTrip(value, 3);
    FormatDRoundTrip(other, 3);
  }

  /** `DateTime.Month` and `DateTime.Year` of an instant. */
  function MonthOf(d: Date): int
  {
    d.monthIndex % 12 + 1
  }

  function YearOf(d: Date): int
  {
    d.monthIndex / 12
  }

  /** `now.AddYears(3)`, of which only month and year are kept, so the day
      adjustment `AddYears` makes for 29 February plays no part. */
  function Expiry(now: Date): (int, int)
  {
    var e := AddMonths(now, 36);
    (MonthOf(e), YearOf(e))
  }

  /** A card expires in the month it is issued, three years on. */
  lemma ExpiryThreeYearsOn(now: Date)
    ensures Expiry(now) == (MonthOf(now), YearOf(now) + 3)
    ensures 1 <= Expiry(now).0 <= 12
  {
  }

  /* ------------- Assigning a card ------------- */

  /** Some card of the client is Active. */
  predicate HasActiveCard(cards: seq<CreditCard>, clientId: Guid)
    reads cards
  {
    exists j :: 0 <= j < |cards| && cards[j].userId == clientId && cards[j].status == Active
  }

  /** The failure `AssignCardAsync` returns before it draws a number, checks
      taken in the source's order. */
  function CardAssignRejection(initialLimit: real, eligible: bool, hasActiveCard: bool): (r: Option<string>)
    ensures r.None? <==> initialLimit > 0.0 && eligible && !hasActiveCard
    ensures initialLimit <= 0.0 ==> r == Some(LimitMustBePositive)
    ensures initialLimit > 0.0 && !eligible ==> r == Some(InvalidCardClient)
    ensures initialLimit > 0.0 && eligible && hasActiveCard ==> r == Some(ClientHasActiveCard)
  {
    if initialLimit <= 0.0 then Some(LimitMustBePositive)
    else if !eligible then Some(InvalidCardClient)
    else if hasActiveCard then Some(ClientHasActiveCard)
    else None
  }

  /** The detail `AssignCardAsync` returns: the detail map with the owner's
      name and national id and no charges. */
  function AssignedDetail(card: CreditCard, user: ApplicationUser): CardDetail
    reads card, card.transactions, user
  {
    MapToDetail(card).(clientFullName := Some(FullName(user.firstName, user.lastName)),
                       nationalId := Some(user.nationalId), transactions := [])
  }

  /** The card `AssignCardAsync` creates. */
  predicate IssuedCard(card: CreditCard, id: Guid, clientId: Guid, adminUserId: Guid, number: string,
                       initialLimit: real, cvcValue: int, sha256: string -> string, now: Date)
    requires 100 <= cvcValue < 1000
    reads card
  {
    && card.id == id && card.userId == clientId && card.assignedByAdminUserId == adminUserId
    && card.cardNumber == number && card.cvcHash == sha256(GenerateCvc(cvcValue))
    && (card.expirationMonth, card.expirationYear) == Expiry(now)
    && card.State() == CardState(initialLimit, 0.0, Active) && card.transactions == []
  }

  /** `AssignCardAsync`. `None` is a run in which the draws ran out before
      a free number came up, where the source would keep drawing. */
  method AssignCard(db: BankingDb, clientId: Guid, initialLimit: real, adminUserId: Guid, newCardId: Guid,
                    draws: seq<nat>, cvcValue: int, sha256: string -> string, now: Date)
    returns (r: Option<ResultOf<CardDetail>>)
    requires DigitDraws(draws) && 100 <= cvcValue < 1000
    modifies db`creditCards
    ensures var rejection := CardAssignRejection(initialLimit, EligibleClient(db.users, clientId),
                                                 old(HasActiveCard(db.creditCards, clientId)));
      rejection.Some? ==> r == Some(FailureOf(rejection.value)) && db.creditCards == old(db.creditCards)
    ensures CardAssignRejection(initialLimit, EligibleClient(db.users, clientId),
                                old(HasActiveCard(db.creditCards, clientId))).None? ==>
      match CardNumberDraw(old(db.creditCards), draws)
      case None => r.None? && db.creditCards == old(db.creditCards)
      case Some(number) =>
        && |db.creditCards| == |old(db.creditCards)| + 1
        && db.creditCards[..|old(db.creditCards)|] == old(db.creditCards)
        && var card := db.creditCards[|old(db.creditCards)|];
        && fresh(card)
        && IssuedCard(card, newCardId, clientId, adminUserId, number, initialLimit, cvcValue, sha256, now)
        && r == Some(SuccessOf(AssignedDetail(card, FindUser(db.users, clientId).value)))
  {
    var user := FindUser(db.users, clientId);
    var rejection := CardAssignRejection(initialLimit, EligibleClient(db.users, clientId),
                                         HasActiveCard(db.creditCards, clientId));
    if rejection.Some? {
      return Some(FailureOf(rejection.value));
    }
    var cardNumber := GenerateUniqueCardNumber(db.creditCards, draws);
    if cardNumber.None? {
      return None;
    }
    var cvc := GenerateCvc(cvcValue);
    var cvcHash := sha256(cvc);
    var (expMonth, expYear) := Expiry(now);
    var card := new CreditCard.AssignToClient(newCardId, user.value.id, adminUserId, cardNumber.value,
                                              initialLimit, expMonth, expYear, cvcHash);
    db.creditCards := db.creditCards + [card];
    r := Some(SuccessOf(AssignedDetail(card, user.value)));
  }

  /** A card is issued only to an active Client without an Active card, for
      a positive limit, with a number no other card had: distinct numbers
      stay distinct. */
  lemma IssuedCardKeepsNumbersDistinct(cards: seq<CreditCard>, draws: seq<nat>, card: CreditCard,
                                       id: Guid, clientId: Guid, adminUserId: Guid, initialLimit: real,
                                       cvcValue: int, sha256: string -> string, now: Date)
    requires DigitDraws(draws) && 100 <= cvcValue < 1000
    requires DistinctNumbers(cards) && CardNumberDraw(cards, draws).Some?
    requires IssuedCard(card, id, clientId, adminUserId, CardNumberDraw(cards, draws).value,
                        initialLimit, cvcValue, sha256, now)
    ensures DistinctNumbers(cards + [card])
    ensures |card.cardNumber| == CardNumberLength && AllDigits(card.cardNumber)
    ensures MaskCardNumber(card.cardNumber) == MaskPrefix + card.cardNumber[12..]
  {
    CardNumberDrawSpec(cards, draws);
    FreshNumberKeepsDistinct(cards, card);
    DrawnNumberMasks(card.cardNumber);
  }

  /* ------------- Limit and cancellation ------------- */

  /** The notification a limit change sends: to the owner's e-mail, with
      the card's last 4 characters and the new limit. */
  datatype LimitNotice = LimitNotice(email: string, last4: string, newLimit: real)

  /** The last 4 characters of a number, or the whole number when it is
      shorter. */
  function Last4(cardNumber: string): (s: string)
  {
    if |cardNumber| >= 4 then cardNumber[|cardNumber| - 4..] else cardNumber
  }

  /** The last-4 text is a suffix of the number, 4 long whenever the number
      is, and it is exactly what the mask shows of a maskable number. */
  lemma Last4Facts(cardNumber: string)
    ensures |Last4(cardNumber)| == if |cardNumber| >= 4 then 4 else |cardNumber|
    ensures cardNumber == cardNumber[..|cardNumber| - |Last4(cardNumber)|] + Last4(cardNumber)
    ensures !IsBlank(cardNumber) && |cardNumber| >= 4 ==>
              MaskCardNumber(cardNumber) == MaskPrefix + Last4(cardNumber)
  {
  }

  /** A notice goes out only when the owner exists and has a non-blank
      e-mail. */
  function LimitNoticeFor(user: Option<ApplicationUser>, cardNumber: string, newLimit: real): (n: Option<LimitNotice>)
    reads if user.Some? then {user.value} else {}
    ensures n.Some? <==> user.Some? && user.value.email.Some? && !IsBlank(user.value.email.value)
    ensures n.Some? ==> n.value == LimitNotice(user.value.email.value, Last4(cardNumber), newLimit)
  {
    if user.Some? && user.value.email.Some? && !IsBlank(user.value.email.value)
    then Some(LimitNotice(user.value.email.value, Last4(cardNumber), newLimit))
    else None
  }

  /** `UpdateLimitAsync`: an unknown card fails; a limit below the debt
      fails with the entity's message and changes nothing; otherwise the
      limit is set and the owner is notified as `LimitNoticeFor` says. */
  method UpdateLimit(db: BankingDb, cardId: Guid, newLimit: real) returns (r: Result, notice: Option<LimitNotice>)
    modifies db.creditCards`creditLimit
    ensures FindCard(db.creditCards, cardId).None? ==>
              r == Failure(CardNotFound) && notice.None? && unchanged(db.creditCards)
    ensures FindCard(db.creditCards, cardId).Some? ==>
      var card := FindCard(db.creditCards, cardId).value;
      && (forall c :: c in db.creditCards && c != card ==> unchanged(c))
      && match ChangeLimitState(old(card.State()), newLimit)
         case Throws(e) => r == Failure(e.message) && notice.None? && card.State() == old(card.State())
         case Ok(s) =>
           && r == Success() && card.State() == s
           && notice == LimitNoticeFor(FindUser(db.users, card.userId), card.cardNumber, newLimit)
  {
    var card := FindCard(db.creditCards, cardId);
    if card.None? {
      return Failure(CardNotFound), None;
    }
    var changed := card.value.ChangeLimit(newLimit);
    if changed.Throws? {
      return Failure(changed.error.message), None;
    }
    var user := FindUser(db.users, card.value.userId);
    notice := LimitNoticeFor(user, card.value.cardNumber, newLimit);
    r := Success();
  }

  /** `CancelCardAsync`: an unknown card fails; a card with debt fails with
      the entity's message and changes nothing; otherwise it is Cancelled. */
  method CancelCard(db: BankingDb, cardId: Guid) returns (r: Result)
    modifies db.creditCards`status
    ensures FindCard(db.creditCards, cardId).None? ==> r == Failure(CardNotFound) && unchanged(db.creditCards)
    ensures FindCard(db.creditCards, cardId).Some? ==>
      var card := FindCard(db.creditCards, cardId).value;
      && (forall c :: c in db.creditCards && c != card ==> unchanged(c))
      && match CancelState(old(card.State()))
         case Throws(e) => r == Failure(e.message) && card.State() == old(card.State())
         case Ok(s) => r == Success() && card.State() == s
  {
    var card := FindCard(db.creditCards, cardId);
    if card.None? {
      return Failure(CardNotFound);
    }
    var cancelled := card.value.Cancel();
    if cancelled.Throws? {
      return Failure(cancelled.error.message);
    }
    r := Success();
  }

  /** The failures the two card operations report are the entity's own
      messages, and a limit change or a cancellation that succeeds leaves
      the debt within the limit whenever the debt was not negative. */
  lemma CardOperationOutcomes(s: CardState, newLimit: real)
    requires s.debt >= 0.0
    ensures ChangeLimitState(s, newLimit).Throws? <==> newLimit < s.debt
    ensures ChangeLimitState(s, newLimit).Throws? ==>
              ChangeLimitState(s, newLimit).error.message == "El nuevo límite no puede ser menor que la deuda actual."
    ensures ChangeLimitState(s, newLimit).Ok? ==> WithinLimit(ChangeLimitState(s, newLimit).value)
    ensures CancelState(s).Throws? <==> s.debt > 0.0
    ensures CancelState(s).Ok? ==> CancelState(s).value.debt == 0.0
  {
  }

  /* ------------- Assignable clients ------------- */

  /** `AssignableCreditCardClientDto`. */
  datatype AssignableCardClient = AssignableCardClient(
    clientId: Guid, fullName: string, nationalId: string, systemAverageDebt: real)

  /** The debts of the cards, in order. */
  function CardDebts(cards: seq<CreditCard>): (d: seq<real>)
    reads cards
    ensures |d| == |cards| && forall k :: 0 <= k < |cards| ==> d[k] == cards[k].currentDebt
    decreases |cards|
  {
    if cards == [] then [] else CardDebts(cards[..|cards| - 1]) + [cards[|cards| - 1].currentDebt]
  }

  /** The mean debt over every card, whatever its status, or 0 without
      cards. */
  function SystemAverageCardDebt(cards: seq<CreditCard>): real
    reads cards
  {
    if |cards| > 0 then Average(CardDebts(cards)) else 0.0
  }

  /** The system average lies between the smallest and the largest debt. */
  lemma AverageCardDebtBounds(cards: seq<CreditCard>, lo: real, hi: real)
    requires forall k :: 0 <= k < |cards| ==> lo <= cards[k].currentDebt <= hi
    ensures |cards| > 0 ==> lo <= SystemAverageCardDebt(cards) <= hi
    ensures |cards| == 0 ==> SystemAverageCardDebt(cards) == 0.0
  {
    if |cards| > 0 {
      var d := CardDebts(cards);
      SumBounds(d, lo, hi);
      QuotientBounds(Sum(d), |d| as real, lo, hi);
    }
  }

  lemma QuotientBounds(total: real, n: real, lo: real, hi: real)
    requires n > 0.0 && lo * n <= total <= hi * n
    ensures lo <= total / n <= hi
  {
    var q := total / n;
    assert (q - lo) * n == total - lo * n && (hi - q) * n == hi * n - total;
  }

  /** `GetAssignableClientsAsync`: every active Client, whether or not it
      holds a card, each with the system average debt. */
  function CardAssignableClients(users: seq<ApplicationUser>, average: real): (r: seq<AssignableCardClient>)
    reads users
    decreases |users|
  {
    if users == [] then []
    else
      var u := users[|users| - 1];
      CardAssignableClients(users[..|users| - 1], average)
      + (if u.role == Client && u.isActive
         then [AssignableCardClient(u.id, FullName(u.firstName, u.lastName), u.nationalId, average)]
         else [])
  }

  /** The user ids are distinct, as the key of the Users table. */
  predicate DistinctUserIds(users: seq<ApplicationUser>)
    reads users
  {
    forall a, b :: 0 <= a < b < |users| ==> users[a].id != users[b].id
  }

  /** The row for one user. */
  function ClientRow(u: ApplicationUser, average: real): AssignableCardClient
    reads u
  {
    AssignableCardClient(u.id, FullName(u.firstName, u.lastName), u.nationalId, average)
  }

  /** Every active Client has a row, and every row carries the given
      average. */
  lemma {:induction false} CardAssignableClientsSpec(users: seq<ApplicationUser>, average: real)
    ensures |CardAssignableClients(users, average)| <= |users|
    ensures forall k :: 0 <= k < |CardAssignableClients(users, average)| ==>
              CardAssignableClients(users, average)[k].systemAverageDebt == average
    ensures forall i :: 0 <= i < |users| && users[i].role == Client && users[i].isActive ==>
              exists k :: 0 <= k < |CardAssignableClients(users, average)|
                          && CardAssignableClients(users, average)[k].clientId == users[i].id
    decreases |users|
  {
    if users != [] {
      var init := users[..|users| - 1];
      CardAssignableClientsSpec(init, average);
      var rows := CardAssignableClients(users, average);
      var older := CardAssignableClients(init, average);
      assert rows[..|older|] == older;
      forall i | 0 <= i < |users| && users[i].role == Client && users[i].isActive
        ensures exists k :: 0 <= k < |rows| && rows[k].clientId == users[i].id
      {
        if i < |init| {
          assert users[i] == init[i];
          var k :| 0 <= k < |older| && older[k].clientId == init[i].id;
          assert rows[k] == older[k];
        } else {
          assert rows[|rows| - 1].clientId == users[i].id;
        }
      }
    }
  }

  /** Nothing but active Clients: every row is the row of an active Client
      with the given average. */
  lemma {:induction false} CardAssignableClientsSound(users: seq<ApplicationUser>, average: real)
    ensures forall k :: 0 <= k < |CardAssignableClients(users, average)| ==>
              exists i :: 0 <= i < |users| && users[i].role == Client && users[i].isActive
                          && CardAssignableClients(users, average)[k] == ClientRow(users[i], average)
    decreases |users|
  {
    if users != [] {
      var init := users[..|users| - 1];
      CardAssignableClientsSound(init, average);
      var rows := CardAssignableClients(users, average);
      var older := CardAssignableClients(init, average);
      assert rows[..|older|] == older;
      forall k | 0 <= k < |rows|
        ensures exists i :: 0 <= i < |users| && users[i].role == Client && users[i].isActive
                            && rows[k] == ClientRow(users[i], average)
      {
        if k < |older| {
          var i :| 0 <= i < |init| && init[i].role == Client && init[i].isActive
                   && older[k] == ClientRow(init[i], average);
          assert users[i] == init[i] && rows[k] == older[k];
        } else {
          var u := users[|users| - 1];
          assert u.role == Client && u.isActive && rows == older + [ClientRow(u, average)];
          assert rows[k] == ClientRow(users[|users| - 1], average);
        }
      }
    } else {
      assert CardAssignableClients(users, average) == [];
    }
  }

  /** With distinct user ids, no client has two rows. */
  lemma {:induction false} CardAssignableClientsUnique(users: seq<ApplicationUser>, average: real)
    requires DistinctUserIds(users)
    ensures forall a, b :: 0 <= a < b < |CardAssignableClients(users, average)| ==>
              CardAssignableClients(users, average)[a].clientId != CardAssignableClients(users, average)[b].clientId
    decreases |users|
  {
    if users != [] {
      var init := users[..|users| - 1];
      var u := users[|users| - 1];
      assert DistinctUserIds(init) by {
        forall a, b | 0 <= a < b < |init| ensures init[a].id != init[b].id {
          assert init[a] == users[a] && init[b] == users[b];
        }
      }
      CardAssignableClientsUnique(init, average);
      CardAssignableClientsSound(init, average);
      var rows := CardAssignableClients(users, average);
      var older := CardAssignableClients(init, average);
      assert rows[..|older|] == older;
      forall a, b | 0 <= a < b < |rows| ensures rows[a].clientId != rows[b].clientId {
        if b < |older| {
          assert rows[a] == older[a] && rows[b] == older[b];
        } else {
          var i :| 0 <= i < |init| && init[i].role == Client && init[i].isActive
                   && older[a] == ClientRow(init[i], average);
          assert rows[a] == older[a] && users[i] == init[i];
          assert rows[b].clientId == u.id;
        }
      }
    }
  }

  /** `GetAssignableClientsAsync`: the active Clients, each with the mean
      debt over every card, or 0 when there is no card. */
  function GetAssignableCardClients(db: BankingDb): (r: ResultOf<seq<AssignableCardClient>>)
    reads db, db.users, db.creditCards
    ensures r.succeeded && r.error.None? && r.data.Some?
    ensures forall k :: 0 <= k < |r.data.value| ==>
              r.data.value[k].systemAverageDebt == SystemAverageCardDebt(db.creditCards)
    ensures db.creditCards == [] ==> forall k :: 0 <= k < |r.data.value| ==> r.data.value[k].systemAverageDebt == 0.0
    ensures forall i :: 0 <= i < |db.users| && db.users[i].role == Client && db.users[i].isActive ==>
              exists k :: 0 <= k < |r.data.value| && r.data.value[k].clientId == db.users[i].id
    ensures forall k :: 0 <= k < |r.data.value| ==>
              exists i :: 0 <= i < |db.users| && db.users[i].role == Client && db.users[i].isActive
                          && r.data.value[k] == ClientRow(db.users[i], SystemAverageCardDebt(db.creditCards))
  {
    var systemAverageDebt := if |db.creditCards| > 0 then Average(CardDebts(db.creditCards)) else 0.0;
    CardAssignableClientsSpec(db.users, systemAverageDebt);
    CardAssignableClientsSound(db.users, systemAverageDebt);
    SuccessOf(CardAssignableClients(db.users, systemAverageDebt))
  }
}
