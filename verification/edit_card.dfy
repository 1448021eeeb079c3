/** The edit-card form: adding perks, the card-type and perk-type pickers
    with the perk-reset confirmation, the digits field and `save`. */
module EditCard {
  import opened Optional
  import opened Ledger
  import opened CardRules
  import Rewards

  datatype Form = Form(
    name: string,
    cardType: CardType,
    network: PaymentNetwork,
    lastFourDigits: string,
    perkType: PerkType,
    showPerkResetAlert: bool)

  /** The form as it appears for `card`: its stored fields, and its perk
      type when it has one (points otherwise). */
  function FormFor(card: Card): (r: Form)
    ensures card.perkType.Some? ==> Some(r.perkType) == card.perkType
    ensures !r.showPerkResetAlert
    ensures CardConsistent(card) && ValidCardFields(card.name, card.lastFourDigits) ==> Save(card, r) == card
  {
    Form(card.name, card.cardType, card.network, card.lastFourDigits,
         card.perkType.GetOr(Points), false)
  }

  /** `addCardPerk`: a card without a perk type first takes the selected
      one; then a perk whose category (or lack of one) is already taken on
      the card is refused, and otherwise one perk is added with the card's
      perk type and the chosen value and category. */
  function AddCardPerk(card: Card, f: Form, value: real, category: Option<CategoryId>): (r: (Card, bool))
    ensures card.perkType.Some? ==> r.0.perkType == card.perkType
    ensures card.perkType.None? ==> r.0.perkType == Some(f.perkType)
    ensures r.0.(perkType := card.perkType, perks := card.perks) == card
    ensures r.1 <==> Rewards.NoPerkFor(PerksOf(card), category)
    ensures !r.1 ==> PerksOf(r.0) == PerksOf(card)
    ensures r.1 ==> PerksOf(r.0) == PerksOf(card) + [Perk(card.id, r.0.perkType.value, value, category)]
    ensures DistinctPerkCategories(PerksOf(card)) ==> DistinctPerkCategories(PerksOf(r.0))
  {
    var withType := if card.perkType == None then card.(perkType := Some(f.perkType)) else card;
    var duplicate := card.perks.Some? && Rewards.FirstIndexFor(card.perks.value, category).Some?;
    if duplicate then (withType, false)
    else
      var perk := Perk(card.id, withType.perkType.value, value, category);
      (withType.(perks := Some(PerksOf(card) + [perk])), true)
  }

  /** `removeAllPerksOnCard`: every perk of the card is deleted. */
  function RemoveAllPerks(card: Card): (r: Card)
    ensures PerksOf(r) == []
    ensures r.(perks := card.perks) == card
  {
    card.(perks := if card.perks == None then None else Some([]))
  }

  /** `save`: with an empty name or digits not of length 4 nothing changes;
      otherwise the fields are copied, a credit card takes the selected
      perk type, and a debit card loses its perk type and all its perks. */
  function Save(card: Card, f: Form): (r: Card)
    ensures !ValidCardFields(f.name, f.lastFourDigits) ==> r == card
    ensures ValidCardFields(f.name, f.lastFourDigits) ==>
              && r.id == card.id && r.name == f.name && r.cardType == f.cardType
              && r.network == f.network && r.lastFourDigits == f.lastFourDigits
    ensures ValidCardFields(f.name, f.lastFourDigits) && f.cardType == CreditCard ==>
              r.perkType == Some(f.perkType) && r.perks == card.perks
    ensures ValidCardFields(f.name, f.lastFourDigits) && f.cardType == DebitCard ==>
              r.perkType == None && PerksOf(r) == []
    ensures ValidCardFields(f.name, f.lastFourDigits) && DistinctPerkCategories(PerksOf(card)) ==>
              CardConsistent(r)
  {
    if !ValidCardFields(f.name, f.lastFourDigits) then card
    else
      var updated := card.(name := f.name, cardType := f.cardType, network := f.network,
                           lastFourDigits := f.lastFourDigits);
      if updated.cardType == CreditCard then updated.(perkType := Some(f.perkType))
      else RemoveAllPerks(updated.(perkType := None))
  }

  /** Picking a card type: back to the stored type restores the stored
      network, any other type resets it to that type's default. */
  function SelectCardType(card: Card, f: Form, t: CardType): (r: Form)
    ensures r.cardType == t
    ensures t != f.cardType && t == card.cardType ==> r.network == card.network
    ensures t != f.cardType && t != card.cardType ==> r.network == DefaultNetwork(t)
    ensures r.(cardType := f.cardType, network := f.network) == f
  {
    if t == f.cardType then f
    else
      var network := if t == card.cardType then card.network else DefaultNetwork(t);
      f.(cardType := t, network := network)
  }

  /** Switching a card's type away and back leaves the form's network as
      stored on the card. */
  lemma SwitchCardTypeBack(card: Card, t: CardType)
    ensures var f := FormFor(card);
            SelectCardType(card, SelectCardType(card, f, t), card.cardType).network == card.network
  {
  }

  /** Picking a perk type: a change to a type other than the stored one on
      a card that has perks raises the reset alert. */
  function SelectPerkType(card: Card, f: Form, p: PerkType): (r: Form)
    ensures r.perkType == p
    ensures p != f.perkType && Some(p) != card.perkType && PerksOf(card) != [] ==> r.showPerkResetAlert
    ensures (p == f.perkType || Some(p) == card.perkType || PerksOf(card) == []) ==>
              r.showPerkResetAlert == f.showPerkResetAlert
    ensures r.(perkType := f.perkType, showPerkResetAlert := f.showPerkResetAlert) == f
  {
    if p == f.perkType then f
    else if Some(p) != card.perkType && PerksOf(card) != [] then f.(perkType := p, showPerkResetAlert := true)
    else f.(perkType := p)
  }

  /** "Don't Proceed": the selection reverts to the card's stored perk type
      and the card, with its perks, is left alone. */
  function DontProceed(card: Card, f: Form): (r: Form)
    ensures card.perkType.Some? ==> r.perkType == card.perkType.value
    ensures card.perkType.None? ==> r.perkType == f.perkType
    ensures !r.showPerkResetAlert
    ensures r == f.(perkType := r.perkType, showPerkResetAlert := false)
  {
    var reverted := if card.perkType.Some? then f.(perkType := card.perkType.value) else f;
    reverted.(showPerkResetAlert := false)
  }

  /** "Proceed": every perk on the card is removed; the new selection
      stays. */
  function Proceed(card: Card, f: Form): (r: (Card, Form))
    ensures PerksOf(r.0) == []
    ensures r.0.(perks := card.perks) == card
    ensures r.1 == f.(showPerkResetAlert := false)
  {
    (RemoveAllPerks(card), f.(showPerkResetAlert := false))
  }

  /** The perk-type change round trip on a credit card with perks: the
      alert is raised; declining restores the stored type with perks intact;
      confirming and saving leaves the card on the new type with no perks. */
  lemma PerkTypeChangeRoundTrip(card: Card, p: PerkType)
    requires card.perkType.Some? && Some(p) != card.perkType && PerksOf(card) != []
    requires card.cardType == CreditCard && ValidCardFields(card.name, card.lastFourDigits)
    ensures var f := SelectPerkType(card, FormFor(card), p);
            && f.showPerkResetAlert
            && DontProceed(card, f).perkType == card.perkType.value
            && var (cleared, f2) := Proceed(card, f);
               var saved := Save(cleared, f2);
               saved.perkType == Some(p) && PerksOf(saved) == []
  {
  }
}
