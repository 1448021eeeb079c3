/** The validation both transaction forms run before saving. */
module TransactionRules {
  import opened Optional
  import opened Ledger

  /** An expense not paid in cash must name a card. */
  predicate NeedsCard(ty: TransactionType, paymentType: Option<PaymentType>) {
    ty == Expense && paymentType != Some(Cash)
  }

  /** A category is chosen, the amount is not exactly 0 (negative amounts
      pass), and a card is chosen where one is needed. */
  predicate ValidFields(
    ty: TransactionType, amount: real, paymentType: Option<PaymentType>,
    category: Option<CategoryId>, card: Option<CardId>)
  {
    category.Some? && amount != 0.0 && !(NeedsCard(ty, paymentType) && card.None?)
  }
}
