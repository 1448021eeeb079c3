/** The edit-transaction form: it opens on a stored transaction, restores
    the stored category or card when the user switches back to the stored
    type or payment type, and `save` writes the form back into the
    transaction. */
module EditTransaction {
  import opened Optional
  import opened Ledger
  import opened TransactionRules

  datatype Form = Form(
    txType: TransactionType,
    amount: real,
    date: int,
    paymentType: Option<PaymentType>,
    note: string,
    category: Option<CategoryId>,
    card: Option<CardId>,
    warnCategory: bool,
    warnAmount: bool,
    warnCard: bool)

  /** Without a payment type no card is chosen: the card picker then offers
      only "Select a Card". Save's force-unwrap of the payment type relies
      on this. */
  predicate Wellformed(f: Form) {
    f.paymentType.None? ==> f.card.None?
  }

  predicate Valid(f: Form) {
    ValidFields(f.txType, f.amount, f.paymentType, f.category, f.card)
  }

  /** The form as `onAppear` fills it from the stored transaction. */
  function FormFor(tx: Transaction): (f: Form)
    ensures PaymentConsistent(tx) ==> Wellformed(f)
    ensures f.txType == TypeOf(tx) && f.category == tx.category && f.card == tx.card
    ensures f.paymentType == tx.paymentType && f.amount == tx.amount && f.date == tx.date
  {
    Form(TypeOf(tx), tx.amount, tx.date, tx.paymentType, tx.note.GetOr(""),
         tx.category, tx.card, false, false, false)
  }

  /** Picking a type: returning to the stored type restores the stored
      category, any other type clears it; a category change clears the
      category warning. */
  function SelectType(tx: Transaction, f: Form, t: TransactionType): (r: Form)
    ensures r.txType == t
    ensures t != f.txType && t == TypeOf(tx) ==> r.category == tx.category
    ensures t != f.txType && t != TypeOf(tx) ==> r.category == None
    ensures r.category != f.category ==> !r.warnCategory
    ensures r.(txType := f.txType, category := f.category, warnCategory := f.warnCategory) == f
    ensures Wellformed(f) ==> Wellformed(r)
  {
    if t == f.txType then f
    else
      var c := if t == TypeOf(tx) then tx.category else None;
      SelectCategory(f.(txType := t), c)
  }

  /** Picking a category; a change clears the category warning. */
  function SelectCategory(f: Form, c: Option<CategoryId>): (r: Form)
    ensures r.category == c
    ensures c != f.category ==> !r.warnCategory
    ensures r.(category := f.category, warnCategory := f.warnCategory) == f
    ensures Wellformed(f) ==> Wellformed(r)
  {
    if c == f.category then f else f.(category := c, warnCategory := false)
  }

  function EnterAmount(f: Form, a: real): (r: Form)
    ensures r.amount == a
    ensures a != f.amount ==> !r.warnAmount
    ensures r.(amount := f.amount, warnAmount := f.warnAmount) == f
    ensures Wellformed(f) ==> Wellformed(r)
  {
    if a == f.amount then f else f.(amount := a, warnAmount := false)
  }

  /** Picking a payment type (offered for expenses only, and the picker's
      tags are never "none"): returning to the stored non-cash payment type
      restores the stored card, anything else clears it; the card warning
      is cleared. */
  function SelectPaymentType(tx: Transaction, f: Form, p: PaymentType): (r: Form)
    requires f.txType == Expense
    ensures r.paymentType == Some(p)
    ensures Some(p) != f.paymentType && Some(p) == tx.paymentType && p != Cash ==> r.card == tx.card
    ensures Some(p) != f.paymentType && (Some(p) != tx.paymentType || p == Cash) ==> r.card == None
    ensures r.(paymentType := f.paymentType, card := f.card, warnCard := f.warnCard) == f
    ensures Wellformed(r)
  {
    if Some(p) == f.paymentType then f
    else
      var c := if Some(p) == tx.paymentType && p != Cash then tx.card else None;
      f.(paymentType := Some(p), card := c, warnCard := false)
  }

  /** Picking a card (shown for non-cash expenses); with no payment type
      chosen only "Select a Card" is offered. */
  function SelectCard(f: Form, c: Option<CardId>): (r: Form)
    requires f.txType == Expense && f.paymentType != Some(Cash)
    requires f.paymentType.None? ==> c.None?
    ensures r.card == c
    ensures c != f.card ==> !r.warnCard
    ensures r.(card := f.card, warnCard := f.warnCard) == f
    ensures Wellformed(f) ==> Wellformed(r)
  {
    if c == f.card then f else f.(card := c, warnCard := false)
  }

  /** The warning flags `save` leaves up: each failed check raises its flag
      and nothing lowers one. */
  function RaiseWarnings(f: Form): (r: Form)
    ensures r.(warnCategory := f.warnCategory, warnAmount := f.warnAmount, warnCard := f.warnCard) == f
    ensures !Valid(f) ==> r.warnCategory || r.warnAmount || r.warnCard
  {
    f.(warnCategory := f.warnCategory || f.category.None?,
       warnAmount := f.warnAmount || f.amount == 0.0,
       warnCard := f.warnCard || (NeedsCard(f.txType, f.paymentType) && f.card.None?))
  }

  /** The transaction's common fields as the form sets them. */
  function WithFields(tx: Transaction, f: Form): Transaction {
    WithType(tx, f.txType).(amount := f.amount, date := f.date, note := Some(f.note),
                            category := f.category)
  }

  /** `save` as written. A cash expense only sets the payment type and
      leaves the stored card in place. */
  function SaveAsWritten(tx: Transaction, f: Form): (r: (Form, Option<Transaction>))
    requires Wellformed(f)
    ensures !Valid(f) ==> r.1 == None
    ensures r.1.Some? ==>
              var t := r.1.value;
              && t.id == tx.id && TypeOf(t) == f.txType && t.amount == f.amount
              && t.date == f.date && t.category == f.category && t.note == Some(f.note)
              && (f.txType == Expense && f.paymentType == Some(Cash) ==> t.card == tx.card)
  {
    var warned := RaiseWarnings(f);
    if warned.warnAmount || warned.warnCategory || warned.warnCard then (warned, None)
    else if f.txType == Expense then
      var t := WithFields(tx, f).(paymentType := Some(f.paymentType.value));
      if f.paymentType != Some(Cash) then (warned, Some(t.(card := f.card))) else (warned, Some(t))
    else
      (warned, Some(WithFields(tx, f).(paymentType := None, card := None)))
  }

  /** `save` with the warnings decided by the current fields and the card
      cleared for a cash expense: the edit is stored exactly when the form
      is valid, and the stored transaction is payment-consistent. */
  function Save(tx: Transaction, f: Form): (r: (Form, Option<Transaction>))
    requires Wellformed(f)
    ensures r.1.Some? <==> Valid(f)
    ensures r.0.warnCategory <==> f.category.None?
    ensures r.0.warnAmount <==> f.amount == 0.0
    ensures r.0.warnCard <==> NeedsCard(f.txType, f.paymentType) && f.card.None?
    ensures r.1.Some? ==>
              var t := r.1.value;
              && t.id == tx.id && TypeOf(t) == f.txType && t.amount == f.amount
              && t.date == f.date && t.category == f.category && t.note == Some(f.note)
              && PaymentConsistent(t)
              && (f.txType == Expense ==> t.paymentType == f.paymentType)
              && (f.txType == Expense && f.paymentType != Some(Cash) ==> t.card == f.card)
  {
    var warned := f.(warnCategory := f.category.None?, warnAmount := f.amount == 0.0,
                     warnCard := NeedsCard(f.txType, f.paymentType) && f.card.None?);
    if !Valid(f) then (warned, None)
    else if f.txType == Expense then
      var t := WithFields(tx, f).(paymentType := Some(f.paymentType.value));
      if f.paymentType != Some(Cash) then (warned, Some(t.(card := f.card)))
      else (warned, Some(t.(card := None)))
    else
      (warned, Some(WithFields(tx, f).(paymentType := None, card := None)))
  }

  /** An accepted as-written save is payment-consistent exactly when it is
      not a cash expense over a transaction that had a card. */
  lemma SaveAsWrittenConsistency(tx: Transaction, f: Form)
    requires Wellformed(f) && SaveAsWritten(tx, f).1.Some?
    ensures PaymentConsistent(SaveAsWritten(tx, f).1.value)
            <==> !(f.txType == Expense && f.paymentType == Some(Cash) && tx.card.Some?)
  {
  }

  /** Both saves store the same edit unless a cash expense would keep a
      stale card. */
  lemma SavesAgreeOffCash(tx: Transaction, f: Form)
    requires Wellformed(f) && !f.warnCategory && !f.warnAmount && !f.warnCard
    requires !(f.txType == Expense && f.paymentType == Some(Cash) && tx.card.Some?)
    ensures SaveAsWritten(tx, f).1 == Save(tx, f).1
  {
  }

  /** A credit expense with a card, switched to cash and saved, is stored
      as a cash expense that still points at the card; the corrected save
      drops the card. */
  /** A debit expense is switched to credit and saved with no card, which
      raises the card warning; switching to income then leaves that warning
      up, because only the expense-only pickers lower it. The resulting
      income is valid, yet the as-written save refuses it. */
  lemma StaleCardWarningBlocksIncome(tx: Transaction, category: CategoryId)
    requires TypeOf(tx) == Expense && tx.paymentType == Some(Debit) && tx.card.Some? && tx.amount != 0.0
    ensures var f1 := SelectPaymentType(tx, FormFor(tx), Credit);
            var f2 := SaveAsWritten(tx, f1).0;
            var f3 := SelectCategory(SelectType(tx, f2, Income), Some(category));
            && Wellformed(f2)
            && f2.warnCard
            && Valid(f3)
            && SaveAsWritten(tx, f3).1 == None
            && Save(tx, f3).1.Some?
  {
  }

  lemma CashEditKeepsCard(tx: Transaction)
    requires TypeOf(tx) == Expense && tx.paymentType == Some(Credit) && tx.card.Some?
    requires tx.category.Some? && tx.amount != 0.0
    ensures var f := SelectPaymentType(tx, FormFor(tx), Cash);
            && SaveAsWritten(tx, f).1.Some?
            && SaveAsWritten(tx, f).1.value.paymentType == Some(Cash)
            && SaveAsWritten(tx, f).1.value.card == tx.card
            && !PaymentConsistent(SaveAsWritten(tx, f).1.value)
            && Save(tx, f).1.Some?
            && Save(tx, f).1.value.card == None
  {
  }

  /** Switching away from the stored type and back restores the stored
      category. */
  lemma SwitchTypeBackRestoresCategory(tx: Transaction, t: TransactionType)
    requires t != TypeOf(tx)
    ensures SelectType(tx, FormFor(tx), t).category == None
    ensures SelectType(tx, SelectType(tx, FormFor(tx), t), TypeOf(tx)).category == tx.category
  {
  }

  /** Switching away from the stored non-cash payment type and back
      restores the stored card. */
  lemma SwitchPaymentBackRestoresCard(tx: Transaction, p: PaymentType)
    requires TypeOf(tx) == Expense && tx.paymentType.Some? && tx.paymentType.value != Cash
    requires p != tx.paymentType.value
    ensures SelectPaymentType(tx, FormFor(tx), p).card == None
    ensures SelectPaymentType(tx, SelectPaymentType(tx, FormFor(tx), p), tx.paymentType.value).card
            == tx.card
  {
  }
}
