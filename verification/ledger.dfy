/** The app's entities, as the views use them: transactions, categories,
    cards and card perks, with the string raw values that the persistence
    layer stores for the transaction and payment types. Relationships are
    held as ids; an optional relationship is an `Option` of an id. */
module Ledger {
  import opened Optional

  type CategoryId = nat
  type CardId = nat
  type TransactionId = nat

  datatype TransactionType = Expense | Income
  datatype PaymentType = Cash | Debit | Credit
  datatype CardType = DebitCard | CreditCard
  datatype PaymentNetwork = Interac | Visa | Mastercard | Amex
  datatype PerkType = Points | Cashback

  /** The stored spelling of a transaction type. */
  function TransactionTypeRaw(t: TransactionType): string {
    match t
    case Expense => "Expense"
    case Income => "Income"
  }

  /** `TransactionType(rawValue:)`: the type spelled `s`, if any. */
  function TransactionTypeFromRaw(s: string): (r: Option<TransactionType>)
    ensures r.Some? ==> TransactionTypeRaw(r.value) == s
    ensures r.None? ==> s != TransactionTypeRaw(Expense) && s != TransactionTypeRaw(Income)
  {
    if s == "Expense" then Some(Expense)
    else if s == "Income" then Some(Income)
    else None
  }

  /** The stored spelling of a payment type. */
  function PaymentTypeRaw(p: PaymentType): string {
    match p
    case Cash => "Cash"
    case Debit => "Debit"
    case Credit => "Credit"
  }

  /** `PaymentType(rawValue:)`: the payment type spelled `s`, if any. */
  function PaymentTypeFromRaw(s: string): (r: Option<PaymentType>)
    ensures r.Some? ==> PaymentTypeRaw(r.value) == s
    ensures r.None? ==> forall p: PaymentType :: PaymentTypeRaw(p) != s
  {
    if s == "Cash" then Some(Cash)
    else if s == "Debit" then Some(Debit)
    else if s == "Credit" then Some(Credit)
    else None
  }

  /** Decoding inverts encoding, and distinct variants are stored under
      distinct strings. */
  lemma TransactionTypeRawRoundTrip(t: TransactionType, u: TransactionType)
    ensures TransactionTypeFromRaw(TransactionTypeRaw(t)) == Some(t)
    ensures TransactionTypeRaw(t) == TransactionTypeRaw(u) ==> t == u
  {
  }

  lemma PaymentTypeRawRoundTrip(p: PaymentType, q: PaymentType)
    ensures PaymentTypeFromRaw(PaymentTypeRaw(p)) == Some(p)
    ensures PaymentTypeRaw(p) == PaymentTypeRaw(q) ==> p == q
  {
  }

  datatype Category = Category(
    id: CategoryId,
    name: string,
    icon: string,
    isCustom: bool,
    typeRaw: string,
    index: int)

  /** A reward rule on a card; `category == None` is the card's default
      ("everything else") rule. */
  datatype Perk = Perk(
    card: CardId,
    perkType: PerkType,
    value: real,
    category: Option<CategoryId>)

  /** A payment card. `perks` is the card's perk relationship, which the
      reward calculation reads and which may be absent. */
  datatype Card = Card(
    id: CardId,
    name: string,
    cardType: CardType,
    network: PaymentNetwork,
    lastFourDigits: string,
    perkType: Option<PerkType>,
    perks: Option<seq<Perk>>)

  /** A logged transaction; the type is stored as its raw string and `date`
      counts seconds. */
  datatype Transaction = Transaction(
    id: TransactionId,
    typeRaw: string,
    amount: real,
    date: int,
    note: Option<string>,
    paymentType: Option<PaymentType>,
    category: Option<CategoryId>,
    card: Option<CardId>)

  /** The `transactionType` getter: the decoded raw value, with an unknown
      string read as an expense. */
  function TypeOf(t: Transaction): (r: TransactionType)
    ensures TransactionTypeFromRaw(t.typeRaw).Some? ==> TransactionTypeFromRaw(t.typeRaw) == Some(r)
    ensures TransactionTypeFromRaw(t.typeRaw).None? ==> r == Expense
  {
    TransactionTypeFromRaw(t.typeRaw).GetOr(Expense)
  }

  /** The `transactionType` setter: it stores the raw value and touches no
      other field. */
  function WithType(t: Transaction, ty: TransactionType): (r: Transaction)
    ensures TypeOf(r) == ty
    ensures r.(typeRaw := t.typeRaw) == t
  {
    t.(typeRaw := TransactionTypeRaw(ty))
  }

  /** The initializer: the raw value of the given type and every other
      field exactly as given. */
  function NewTransaction(
    id: TransactionId, ty: TransactionType, amount: real, date: int,
    category: Option<CategoryId>, paymentType: Option<PaymentType>,
    card: Option<CardId>, note: Option<string>): (r: Transaction)
    ensures TypeOf(r) == ty
    ensures TransactionTypeFromRaw(r.typeRaw) == Some(ty)
    ensures r.id == id && r.amount == amount && r.date == date && r.note == note
    ensures r.paymentType == paymentType && r.category == category && r.card == card
  {
    Transaction(id, TransactionTypeRaw(ty), amount, date, note, paymentType, category, card)
  }

  /** The stored income and expense predicates compare raw strings. */
  predicate IsIncomeRecord(t: Transaction) {
    t.typeRaw == TransactionTypeRaw(Income)
  }

  predicate IsExpenseRecord(t: Transaction) {
    t.typeRaw == TransactionTypeRaw(Expense)
  }

  function Amount(t: Transaction): real {
    t.amount
  }

  /** The amount a record adds to the income total: its amount when it is
      an income record, nothing otherwise. */
  function IncomeAmount(t: Transaction): real {
    if IsIncomeRecord(t) then t.amount else 0.0
  }

  /** The amount a record adds to the spending total: its amount when it is
      an expense record, nothing otherwise. */
  function ExpenseAmount(t: Transaction): real {
    if IsExpenseRecord(t) then t.amount else 0.0
  }

  /** The transaction is charged to `card`. */
  predicate OnCard(t: Transaction, card: Card) {
    t.card == Some(card.id)
  }

  /** No record is both; a record with a known raw value is exactly one, in
      agreement with the getter; a record with an unknown raw value is
      neither, although the getter reports it as an expense. */
  lemma RecordPredicates(t: Transaction)
    ensures !(IsIncomeRecord(t) && IsExpenseRecord(t))
    ensures IsIncomeRecord(t) <==> TransactionTypeFromRaw(t.typeRaw) == Some(Income)
    ensures IsExpenseRecord(t) <==> TransactionTypeFromRaw(t.typeRaw) == Some(Expense)
    ensures TransactionTypeFromRaw(t.typeRaw).None? ==>
              !IsIncomeRecord(t) && !IsExpenseRecord(t) && TypeOf(t) == Expense
  {
  }

  /** The payment shape every transaction should have: an income carries
      neither payment type nor card; an expense carries a payment type, and
      a card exactly when it was not paid in cash. */
  predicate PaymentConsistent(t: Transaction) {
    if TypeOf(t) == Income then t.paymentType.None? && t.card.None?
    else t.paymentType.Some? && (t.card.Some? <==> t.paymentType.value != Cash)
  }

  /** The perks on a card, with an absent relationship read as none. */
  function PerksOf(c: Card): seq<Perk> {
    c.perks.GetOr([])
  }

  /** At most one perk per category on a card, counting "no category" as a
      category of its own. */
  predicate DistinctPerkCategories(perks: seq<Perk>) {
    forall i, j :: 0 <= i < j < |perks| ==> perks[i].category != perks[j].category
  }

  /** The card shape the forms keep: a perk type exactly on credit cards,
      no perks on a debit card, and distinct perk categories. */
  predicate CardConsistent(c: Card) {
    && (c.perkType.Some? <==> c.cardType == CreditCard)
    && (c.cardType == DebitCard ==> PerksOf(c) == [])
    && DistinctPerkCategories(PerksOf(c))
  }
}
