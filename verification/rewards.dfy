/** `calculateReward(card:transaction:)`: the reward a card earns on one
    transaction, from the card's perk table and perk type. */
module Rewards {
  import opened Optional
  import opened Ledger
  import opened Rounding

  /** `i` is the position of the first perk whose category is `category`
      (`first(where:)`). */
  predicate IsFirstFor(perks: seq<Perk>, i: int, category: Option<CategoryId>) {
    && 0 <= i < |perks|
    && perks[i].category == category
    && forall j :: 0 <= j < i ==> perks[j].category != category
  }

  /** No perk has category `category`. */
  predicate NoPerkFor(perks: seq<Perk>, category: Option<CategoryId>) {
    forall j :: 0 <= j < |perks| ==> perks[j].category != category
  }

  /** The position of the first perk for `category`, if there is one. */
  function FirstIndexFor(perks: seq<Perk>, category: Option<CategoryId>): (r: Option<nat>)
    ensures r.Some? ==> IsFirstFor(perks, r.value, category)
    ensures r.None? ==> NoPerkFor(perks, category)
  {
    if perks == [] then None
    else if perks[0].category == category then Some(0)
    else
      match FirstIndexFor(perks[1..], category)
      case None => None
      case Some(i) => Some(i + 1)
  }

  /** The rate applied to a transaction in `category`: the first matching
      perk's value, else the first default perk's value, else 0. */
  function PerkRate(perks: seq<Perk>, category: Option<CategoryId>): (rate: real)
    ensures forall i :: IsFirstFor(perks, i, category) ==> rate == perks[i].value
    ensures NoPerkFor(perks, category) ==>
              forall i :: IsFirstFor(perks, i, None) ==> rate == perks[i].value
    ensures NoPerkFor(perks, category) && NoPerkFor(perks, None) ==> rate == 0.0
  {
    var basicRate := match FirstIndexFor(perks, None)
      case Some(i) => perks[i].value
      case None => 0.0;
    match FirstIndexFor(perks, category)
    case Some(i) => perks[i].value
    case None => basicRate
  }

  /** The reward on an amount at a given rate: for a points card the
      amount times the rate rounded to a whole number, for any other card
      the amount times the rate percent rounded to cents. */
  function RewardAtRate(perkType: Option<PerkType>, amount: real, perkRate: real): (r: real)
    ensures perkType == Some(Points) ==> r == r.Floor as real
    ensures perkType != Some(Points) ==> r * 100.0 == (r * 100.0).Floor as real
    ensures perkRate == 0.0 ==> r == 0.0
  {
    var rewardAmount := if perkType == Some(Points) then amount * perkRate else amount * perkRate * 0.01;
    if perkType == Some(Points) then RoundHalfAway(rewardAmount) as real
    else RoundToCents(rewardAmount)
  }

  /** The reward on `tx` paid with `card`: 0 without a perk list, else the
      reward at the rate the perk table selects for the transaction's
      category. */
  function CalculateReward(card: Card, tx: Transaction): (r: real)
    ensures card.perks.None? ==> r == 0.0
  {
    match card.perks
    case None => 0.0
    case Some(perks) => RewardAtRate(card.perkType, tx.amount, PerkRate(perks, tx.category))
  }

  /** A points card earns a whole number within half a point of amount x
      rate, rounding ties away from zero. */
  lemma PointsReward(perkType: Option<PerkType>, amount: real, perkRate: real)
    requires perkType == Some(Points)
    ensures var r := RewardAtRate(perkType, amount, perkRate);
            var raw := amount * perkRate;
            && r == r.Floor as real
            && (raw >= 0.0 ==> raw - 0.5 < r <= raw + 0.5)
            && (raw < 0.0 ==> raw - 0.5 <= r < raw + 0.5)
  {
  }

  /** Any other card (cash back, or no perk type at all) earns a whole
      number of cents within half a cent of amount x rate percent. */
  lemma CashBackReward(perkType: Option<PerkType>, amount: real, perkRate: real)
    requires perkType != Some(Points)
    ensures var r := RewardAtRate(perkType, amount, perkRate);
            var raw := amount * perkRate * 0.01;
            && r * 100.0 == (r * 100.0).Floor as real
            && (raw >= 0.0 ==> raw - 0.005 < r <= raw + 0.005)
            && (raw < 0.0 ==> raw - 0.005 <= r < raw + 0.005)
  {
  }

  /** A selected rate of 0 -- in particular an empty perk list -- earns
      nothing. */
  lemma ZeroRateNoReward(card: Card, tx: Transaction)
    requires card.perks.Some? ==> PerkRate(card.perks.value, tx.category) == 0.0
    ensures CalculateReward(card, tx) == 0.0
  {
    if card.perks.Some? {
      RoundWhole(0);
    }
  }

  lemma EmptyPerkListNoReward(card: Card, tx: Transaction)
    requires card.perks == Some([])
    ensures CalculateReward(card, tx) == 0.0
  {
    ZeroRateNoReward(card, tx);
  }

  /** A category-specific perk overrides the default perk. */
  lemma CategoryPerkWins(perks: seq<Perk>, category: CategoryId, i: int)
    requires IsFirstFor(perks, i, Some(category))
    ensures PerkRate(perks, Some(category)) == perks[i].value
  {
  }

  /** An uncategorised transaction always gets the default perk's rate (or
      0 without one), because its lookup matches the default perk itself. */
  lemma UncategorisedGetsDefault(perks: seq<Perk>)
    ensures NoPerkFor(perks, None) ==> PerkRate(perks, None) == 0.0
    ensures forall i :: IsFirstFor(perks, i, None) ==> PerkRate(perks, None) == perks[i].value
  {
  }

  /** Worked examples: a cash-back card with 1% everywhere and 3% on
      dining earns 3.00 on a 100.00 dining purchase and 1.00 on a 100.00
      grocery purchase; a points card with 1x everywhere earns 47 points
      on 47.30. */
  lemma CashBackExample()
    ensures var dining, groceries := 1, 2;
            var card := Card(7, "Card", CreditCard, Visa, "1234", Some(Cashback),
                             Some([Perk(7, Cashback, 1.0, None), Perk(7, Cashback, 3.0, Some(dining))]));
            && CalculateReward(card, NewTransaction(1, Expense, 100.0, 0, Some(dining), Some(Credit), Some(7), None)) == 3.0
            && CalculateReward(card, NewTransaction(2, Expense, 100.0, 0, Some(groceries), Some(Credit), Some(7), None)) == 1.0
  {
    var dining, groceries := 1, 2;
    var perks := [Perk(7, Cashback, 1.0, None), Perk(7, Cashback, 3.0, Some(dining))];
    assert IsFirstFor(perks, 1, Some(dining));
    assert IsFirstFor(perks, 0, None);
    assert NoPerkFor(perks, Some(groceries));
    RoundHalfAwayUnique(300.0, 300);
    RoundHalfAwayUnique(100.0, 100);
  }

  lemma PointsExample()
    ensures var card := Card(7, "Card", CreditCard, Amex, "1000", Some(Points),
                             Some([Perk(7, Points, 1.0, None)]));
            CalculateReward(card, NewTransaction(1, Expense, 47.30, 0, Some(3), Some(Credit), Some(7), None)) == 47.0
  {
    var perks := [Perk(7, Points, 1.0, None)];
    assert NoPerkFor(perks, Some(3));
    assert IsFirstFor(perks, 0, None);
    RoundHalfAwayUnique(47.30, 47);
  }
}
