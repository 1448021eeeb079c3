/** The add-transaction form: its field pickers with their resets, the
    inline warning flags, and `save`, which builds the stored transaction
    by transaction type and payment type. */
module AddTransaction {
  import opened Optional
  import opened Ledger
  import opened TransactionRules

  datatype Form = Form(
    txType: TransactionType,
    amount: real,
    date: int,
    paymentType: PaymentType,
    note: string,
    category: Option<CategoryId>,
    card: Option<CardId>,
    warnCategory: bool,
    warnAmount: bool,
    warnCard: bool)

  /** The form as it opens on `now`: an expense of 0 paid in cash. */
  function InitialForm(now: int): Form {
    Form(Expense, 0.0, now, Cash, "", None, None, false, false, false)
  }

  predicate Valid(f: Form) {
    ValidFields(f.txType, f.amount, Some(f.paymentType), f.category, f.card)
  }

  /** Picking a category; a change clears the category warning. */
  function SelectCategory(f: Form, c: Option<CategoryId>): (r: Form)
    ensures r.category == c
    ensures c != f.category ==> !r.warnCategory
    ensures r.(category := f.category, warnCategory := f.warnCategory) == f
  {
    if c == f.category then f else f.(category := c, warnCategory := false)
  }

  /** Picking a transaction type; a change resets the category to none. */
  function SelectType(f: Form, t: TransactionType): (r: Form)
    ensures r.txType == t
    ensures t != f.txType ==> r.category == None
    ensures r.(txType := f.txType, category := f.category, warnCategory := f.warnCategory) == f
  {
    if t == f.txType then f else SelectCategory(f.(txType := t), None)
  }

  /** Entering an amount; a change clears the amount warning. */
  function EnterAmount(f: Form, a: real): (r: Form)
    ensures r.amount == a
    ensures a != f.amount ==> !r.warnAmount
    ensures r.(amount := f.amount, warnAmount := f.warnAmount) == f
  {
    if a == f.amount then f else f.(amount := a, warnAmount := false)
  }

  /** Picking a payment type (the picker exists only for expenses); a
      change resets the card to none and clears the card warning. */
  function SelectPaymentType(f: Form, p: PaymentType): (r: Form)
    requires f.txType == Expense
    ensures r.paymentType == p
    ensures p != f.paymentType ==> r.card == None && !r.warnCard
    ensures r.(paymentType := f.paymentType, card := f.card, warnCard := f.warnCard) == f
  {
    if p == f.paymentType then f else f.(paymentType := p, card := None, warnCard := false)
  }

  /** Picking a card (the picker exists only for non-cash expenses); a
      change clears the card warning. */
  function SelectCard(f: Form, c: Option<CardId>): (r: Form)
    requires f.txType == Expense && f.paymentType != Cash
    ensures r.card == c
    ensures c != f.card ==> !r.warnCard
    ensures r.(card := f.card, warnCard := f.warnCard) == f
  {
    if c == f.card then f else f.(card := c, warnCard := false)
  }

  /** The transaction `save` stores: an income carries no payment type and
      no card, a cash expense is paid in cash without a card, and any other
      expense carries its payment type and the chosen card. */
  function BuildTransaction(f: Form, id: TransactionId): Transaction {
    if f.txType == Income then
      NewTransaction(id, Income, f.amount, f.date, f.category, None, None, Some(f.note))
    else if f.paymentType == Cash then
      NewTransaction(id, Expense, f.amount, f.date, f.category, Some(Cash), None, Some(f.note))
    else
      NewTransaction(id, Expense, f.amount, f.date, f.category, Some(f.paymentType), f.card, Some(f.note))
  }

  /** `save` with its warnings decided by the current fields: a
      transaction is stored exactly when the form is valid, and its payment
      shape is the consistent one for its type. */
  function Save(f: Form, id: TransactionId): (r: (Form, Option<Transaction>))
    ensures r.1.Some? <==> Valid(f)
    ensures r.0.warnCategory <==> f.category.None?
    ensures r.0.warnAmount <==> f.amount == 0.0
    ensures r.0.warnCard <==> NeedsCard(f.txType, Some(f.paymentType)) && f.card.None?
    ensures r.1.Some? ==>
              var t := r.1.value;
              && t.id == id && TypeOf(t) == f.txType && t.amount == f.amount && t.date == f.date
              && t.category == f.category && t.note == Some(f.note)
              && PaymentConsistent(t)
              && (f.txType == Income ==> t.paymentType == None && t.card == None)
              && (f.txType == Expense && f.paymentType == Cash ==>
                    t.paymentType == Some(Cash) && t.card == None)
              && (f.txType == Expense && f.paymentType != Cash ==>
                    t.paymentType == Some(f.paymentType) && t.card == f.card && t.card.Some?)
  {
    var warned := f.(warnCategory := f.category.None?, warnAmount := f.amount == 0.0,
                     warnCard := NeedsCard(f.txType, Some(f.paymentType)) && f.card.None?);
    if Valid(f) then (warned, Some(BuildTransaction(f, id))) else (warned, None)
  }

  /** `save` as written: each failed check raises its warning flag, flags
      are never lowered here, and the guard reads the flags. */
  function SaveAsWritten(f: Form, id: TransactionId): (r: (Form, Option<Transaction>))
    ensures !Valid(f) ==> r.1 == None
    ensures r.1.Some? ==> r.1 == Save(f, id).1
  {
    var warned := f.(
      warnCategory := f.warnCategory || f.category.None?,
      warnAmount := f.warnAmount || f.amount == 0.0,
      warnCard := f.warnCard || (f.txType == Expense && f.paymentType != Cash && f.card.None?));
    if warned.warnAmount || warned.warnCategory || warned.warnCard then (warned, None)
    else (warned, Some(BuildTransaction(f, id)))
  }

  /** Only an amount of exactly 0 is refused: a negative amount passes. */
  lemma NegativeAmountAccepted(f: Form, id: TransactionId)
    requires f.amount < 0.0 && f.category.Some?
    requires f.txType == Income || f.paymentType == Cash || f.card.Some?
    ensures Save(f, id).1.Some? && Save(f, id).1.value.amount < 0.0
  {
  }

  /** With no warning raised beforehand the two saves agree. */
  lemma SavesAgreeOnFreshForm(f: Form, id: TransactionId)
    requires !f.warnCategory && !f.warnAmount && !f.warnCard
    ensures SaveAsWritten(f, id).1 == Save(f, id).1
  {
  }

  /** A stale card warning blocks a valid income. Start an expense, pick
      debit without a card and save: the card warning goes up. Switch to
      income: the card picker and its resets disappear, so the flag stays.
      Choose a category and an amount: the form is now a valid income, yet
      the as-written save refuses it, while the field-based save stores it. */
  lemma StaleCardWarningBlocksIncome(now: int, category: CategoryId, id: TransactionId)
    ensures var f1 := SelectPaymentType(InitialForm(now), Debit);
            var f2 := SaveAsWritten(f1, id).0;
            var f3 := EnterAmount(SelectCategory(SelectType(f2, Income), Some(category)), 25.0);
            && f2.warnCard
            && Valid(f3)
            && SaveAsWritten(f3, id).1 == None
            && Save(f3, id).1.Some?
  {
  }
}
