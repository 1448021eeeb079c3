/** The add-card form: its fields, the network reset when the card type is
    switched, and `save`, which inserts one new card when the fields are
    valid. */
module AddCard {
  import opened Optional
  import opened Ledger
  import opened CardRules

  datatype Form = Form(
    name: string,
    cardType: CardType,
    network: PaymentNetwork,
    lastFourDigits: string,
    perkType: PerkType)

  /** The form as it opens: empty name and digits, a debit card on interac,
      points preselected as the perk type. */
  function InitialForm(): Form {
    Form("", DebitCard, Interac, "", Points)
  }

  /** Picking a card type; a change resets the network to the type's
      default. */
  function SelectCardType(f: Form, t: CardType): (r: Form)
    ensures r.cardType == t
    ensures t != f.cardType ==> r.network == DefaultNetwork(t)
    ensures t == f.cardType ==> r == f
    ensures r.(network := f.network, cardType := f.cardType) == f
  {
    if t == f.cardType then f else f.(cardType := t, network := DefaultNetwork(t))
  }

  /** Typing into the last-four-digits field. The edit form's field is bound
      through the same `CardRules.DigitsInput`. */
  function EnterDigits(f: Form, typed: string): (r: Form)
    ensures AllDigits(f.lastFourDigits) && |f.lastFourDigits| <= 4 ==>
              AllDigits(r.lastFourDigits) && |r.lastFourDigits| <= 4
    ensures r.(lastFourDigits := f.lastFourDigits) == f
  {
    f.(lastFourDigits := DigitsInput(f.lastFourDigits, typed))
  }

  /** The card `save` builds: a debit card carries no perk type, a credit
      card the selected one; a new card has no perk list yet. */
  function NewCard(f: Form, id: CardId): Card {
    if f.cardType == DebitCard then
      Card(id, f.name, f.cardType, f.network, f.lastFourDigits, None, None)
    else
      Card(id, f.name, f.cardType, f.network, f.lastFourDigits, Some(f.perkType), None)
  }

  /** `save` on the store's card list: nothing is inserted unless the name
      is non-empty and the digits have length 4; otherwise exactly the new
      card is appended. */
  function Save(cards: seq<Card>, f: Form, id: CardId): (r: seq<Card>)
    ensures !ValidCardFields(f.name, f.lastFourDigits) ==> r == cards
    ensures ValidCardFields(f.name, f.lastFourDigits) ==>
              && |r| == |cards| + 1
              && r[..|cards|] == cards
              && var c := r[|cards|];
                 && c.id == id && c.name == f.name && c.cardType == f.cardType
                 && c.network == f.network && c.lastFourDigits == f.lastFourDigits
                 && (f.cardType == DebitCard ==> c.perkType == None)
                 && (f.cardType == CreditCard ==> c.perkType == Some(f.perkType))
                 && CardConsistent(c)
  {
    if !ValidCardFields(f.name, f.lastFourDigits) then cards
    else cards + [NewCard(f, id)]
  }
}
