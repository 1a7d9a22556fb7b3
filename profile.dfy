/** The card maps of
    src/ArtemisBanking.Application/CreditCards/MappingProfiles/CreditCardProfile.cs:
    a card becomes a list item or a detail view whose number is masked to
    its last four characters; the owner's name and national id are left for
    the service to fill in. */
module CardProfile {
  import opened Common
  import opened Cards

  const MaskPrefix := "**** **** **** "
  const FullMask := "****"

  /** `MaskCardNumber`: a blank number, or one shorter than 4 characters,
      masks to four stars; any other shows only its last 4 characters after
      three starred groups. */
  function MaskCardNumber(cardNumber: string): (m: string)
    ensures IsBlank(cardNumber) || |cardNumber| < 4 ==> m == FullMask
    ensures !IsBlank(cardNumber) && |cardNumber| >= 4 ==>
              && |m| == 19 && m[..15] == MaskPrefix && m[15..] == cardNumber[|cardNumber| - 4..]
  {
    if IsBlank(cardNumber) || |cardNumber| < 4 then FullMask
    else MaskPrefix + cardNumber[|cardNumber| - 4..]
  }

  /** Whatever the number, its mask is made of stars and spaces apart from
      what it copies from the last 4 characters: every other character of
      the number is hidden. */
  lemma MaskHidesPrefix(cardNumber: string)
    ensures var m := MaskCardNumber(cardNumber);
      forall i :: 0 <= i < |m| && i < 15 ==> m[i] == '*' || m[i] == ' '
  {
  }

  /** Two maskable numbers with the same last 4 characters mask alike, so the
      mask tells nothing about the rest of the number. */
  lemma MaskSameLast4(a: string, b: string)
    requires !IsBlank(a) && |a| >= 4 && !IsBlank(b) && |b| >= 4
    ensures MaskCardNumber(a) == MaskCardNumber(b) <==> a[|a| - 4..] == b[|b| - 4..]
  {
    var ma, mb := MaskCardNumber(a), MaskCardNumber(b);
    if ma == mb {
      assert ma[15..] == mb[15..];
    }
  }

  /** `CreditCardListItemDto`; `None` is a name or national id the map
      leaves unset. */
  datatype CardListItem = CardListItem(
    id: Guid, cardNumberMasked: string, clientFullName: Option<string>, nationalId: Option<string>,
    creditLimit: real, currentDebt: real, expirationMonth: int, expirationYear: int,
    status: CreditCardStatus)

  /** `CreditCardTransactionDto` without the id and creation instant, which
      the model does not carry. */
  datatype CardTransactionView = CardTransactionView(
    amount: real, description: string, transactionType: CreditCardTransactionType,
    status: CreditCardTransactionStatus)

  /** `CreditCardDetailDto`. */
  datatype CardDetail = CardDetail(
    id: Guid, cardNumberMasked: string, clientFullName: Option<string>, nationalId: Option<string>,
    creditLimit: real, currentDebt: real, expirationMonth: int, expirationYear: int,
    status: CreditCardStatus, transactions: seq<CardTransactionView>)

  /** The transaction map, member by member. */
  function TransactionViews(ts: seq<CreditCardTransaction>): (r: seq<CardTransactionView>)
    reads ts
    ensures |r| == |ts|
    ensures forall k :: 0 <= k < |ts| ==>
      r[k] == CardTransactionView(ts[k].amount, ts[k].description, ts[k].transactionType, ts[k].status)
    decreases |ts|
  {
    if ts == [] then []
    else
      var t := ts[|ts| - 1];
      TransactionViews(ts[..|ts| - 1]) + [CardTransactionView(t.amount, t.description, t.transactionType, t.status)]
  }

  /** The list map: the card's own fields, the number masked. */
  function MapToListItem(card: CreditCard): (d: CardListItem)
    reads card
  {
    CardListItem(card.id, MaskCardNumber(card.cardNumber), None, None, card.creditLimit, card.currentDebt,
                 card.expirationMonth, card.expirationYear, card.status)
  }

  /** The detail map: the same fields, the number masked the same way, and
      the card's posted charges. */
  function MapToDetail(card: CreditCard): (d: CardDetail)
    reads card, card.transactions
  {
    CardDetail(card.id, MaskCardNumber(card.cardNumber), None, None, card.creditLimit, card.currentDebt,
               card.expirationMonth, card.expirationYear, card.status, TransactionViews(card.transactions))
  }

  /** Both maps show the same masked number and the same balance, and
      neither shows more of the number than its last 4 characters: two
      cards that agree on everything but the digits before the last 4 map
      to the same list item and the same detail view. */
  lemma MapsShowOnlyLast4(a: CreditCard, b: CreditCard)
    requires a.id == b.id && a.creditLimit == b.creditLimit && a.currentDebt == b.currentDebt
    requires a.expirationMonth == b.expirationMonth && a.expirationYear == b.expirationYear
    requires a.status == b.status && a.transactions == b.transactions
    requires !IsBlank(a.cardNumber) && |a.cardNumber| >= 4 && !IsBlank(b.cardNumber) && |b.cardNumber| >= 4
    requires a.cardNumber[|a.cardNumber| - 4..] == b.cardNumber[|b.cardNumber| - 4..]
    ensures MapToListItem(a) == MapToListItem(b) && MapToDetail(a) == MapToDetail(b)
    ensures MapToListItem(a).cardNumberMasked == MapToDetail(a).cardNumberMasked
    ensures MapToDetail(a).cardNumberMasked[15..] == a.cardNumber[|a.cardNumber| - 4..]
  {
    MaskSameLast4(a.cardNumber, b.cardNumber);
  }
}
