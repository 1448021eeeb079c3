# PocketLedger rules in Dafny

A model of the decision and arithmetic rules inside the PocketLedger
personal-finance app (SwiftUI): the reward calculator, the add/edit card
forms, the add/edit transaction forms, category management, the monthly
budget and summary cards, the card detail screen, the transaction lists with
their date filter and day grouping, raw-value coding of the transaction and
payment types, and hex colour decoding.

Entities are immutable datatypes (`Ledger`): a transaction stores its type as
the raw string and refers to its category and card by id; a card holds its
optional perk list. The store is a `seq`; a form is a record, and each picker,
field or button is a function from form to form. Swift `Double` is `real`;
`rounded()` and C `round` are rounding half away from zero. Dates are integer
seconds with days of 86 400 seconds; "now" and the first instant of the month
are parameters.

Files follow the app: `ledger.dfy` (Data/Transaction.swift and the entities),
`rewards.dfy` and `rounding.dfy` (Helper/CalculateReward.swift),
`hex_color.dfy`, `card_rules.dfy`, `add_card.dfy`, `edit_card.dfy`,
`transaction_rules.dfy`, `add_transaction.dfy`, `edit_transaction.dfy`,
`card_detail.dfy`, `manage_category.dfy`, `dates.dfy`, `date_window.dfy`,
`monthly_budget.dfy`, `monthly_summary.dfy`, `transaction_list.dfy`,
`card_transaction_list.dfy`, `grouped_transaction_list.dfy`, with shared
helpers in `optional.dfy`, `seqs.dfy` (order-preserving filter, sums,
subsequences) and `sorting.dfy` (insertion sort by a real key).

Where a rule in the app is evidently wrong, the model holds both the code as
written (a member whose name ends in `AsWritten`, with a lemma exhibiting
the discrepancy) and the corrected rule, which carries the intended contract;
see "## Findings".

The category entity is taken from how ManageCategoryView uses it (raw type
string, `isCustom`, `index`): the repository's
PocketLedger/Data/TransactionCategory.swift is an older shape without those
fields. Likewise the card's `perkType`, `paymentNetwork` and `perks` come from
the views rather than PocketLedger/Data/Card.swift.

## Model

| member | source | states |
|---|---|---|
| Ledger.TransactionTypeFromRaw | PocketLedger/Data/Transaction.swift:11-13 | Decoding a raw string yields a type exactly when the string is that type's stored spelling; "Expense" and "Income" are the only spellings. |
| Ledger.PaymentTypeFromRaw | PocketLedger/Data/Transaction.swift:20-23 | Decoding yields a payment type exactly when the string is its spelling ("Cash", "Debit", "Credit"); anything else decodes to none. |
| Ledger.TransactionTypeRawRoundTrip | PocketLedger/Data/Transaction.swift:11-13 | Decoding the stored spelling of a type gives that type back, and distinct types have distinct spellings. |
| Ledger.PaymentTypeRawRoundTrip | PocketLedger/Data/Transaction.swift:20-23 | Decoding the stored spelling of a payment type gives it back, and the three spellings are distinct. |
| Ledger.TypeOf | PocketLedger/Data/Transaction.swift:39-40 | The getter reports the decoded raw type, and expense when the raw string is not a known spelling. |
| Ledger.WithType | PocketLedger/Data/Transaction.swift:41 | The setter makes the getter report the new type and changes no other field, so set-then-get is the identity. |
| Ledger.NewTransaction | PocketLedger/Data/Transaction.swift:47-62 | The initializer stores the raw value of the given type (so the getter returns it) and every other field exactly as given. |
| Ledger.RecordPredicates | PocketLedger/Data/Transaction.swift:87-99 | The income and expense predicates hold exactly for the raw strings "Income" and "Expense", never both; an unknown raw string satisfies neither although the getter reports expense. |
| Rewards.FirstIndexFor | PocketLedger/Helper/CalculateReward.swift:19-20 | Finds the first perk whose category equals the given one (absent matching absent), or reports that none matches. |
| Rewards.PerkRate | PocketLedger/Helper/CalculateReward.swift:19-20 | The rate is the first matching category perk's value; failing that, the first default perk's value; failing both, 0. |
| Rewards.CalculateReward | PocketLedger/Helper/CalculateReward.swift:17-28 | A card with no perk list earns 0 on every transaction. |
| Rewards.RewardAtRate | PocketLedger/Helper/CalculateReward.swift:21-25 | A points reward is a whole number and any other reward a whole number of cents; a rate of 0 earns 0. |
| Rewards.PointsReward | PocketLedger/Helper/CalculateReward.swift:21-23 | On a points card the reward is a whole number within half a point of amount x rate, ties rounded away from zero. |
| Rewards.CashBackReward | PocketLedger/Helper/CalculateReward.swift:21-25 | On any other card the reward is a whole number of cents within half a cent of amount x rate x 0.01, ties rounded away from zero. |
| Rewards.ZeroRateNoReward | PocketLedger/Helper/CalculateReward.swift:19-25 | A selected rate of 0 earns a reward of 0. |
| Rewards.EmptyPerkListNoReward | PocketLedger/Helper/CalculateReward.swift:18-20 | An empty perk list selects rate 0 and so earns 0. |
| Rewards.CategoryPerkWins | PocketLedger/Helper/CalculateReward.swift:20 | A perk for the transaction's category overrides the default perk. |
| Rewards.UncategorisedGetsDefault | PocketLedger/Helper/CalculateReward.swift:19-20 | An uncategorised transaction gets the first default perk's rate, or 0 when there is none. |
| Rewards.CashBackExample | PocketLedger/Helper/CalculateReward.swift:17-29 | Worked example: 3% dining and 1% default cash back on 100.00 earn 3.00 on dining and 1.00 elsewhere. |
| Rewards.PointsExample | PocketLedger/Helper/CalculateReward.swift:21-23 | Worked example: 1x points on 47.30 earn 47 points. |
| Rounding.RoundHalfAway | PocketLedger/Helper/CalculateReward.swift:23 | `rounded()`: the integer within one half of x, ties away from zero. |
| Rounding.RoundToCents | PocketLedger/Helper/CalculateReward.swift:25 | `round(x * 100) / 100`: a whole number of cents within half a cent of x, ties away from zero. |
| Rounding.RoundHalfAwayUnique | PocketLedger/Helper/CalculateReward.swift:23 | Any integer meeting the half-away bounds is the rounded value, so the bounds determine the result. |
| Rounding.RoundWhole | PocketLedger/Helper/CalculateReward.swift:23 | Whole numbers round to themselves. |
| Rounding.RoundOdd | PocketLedger/Helper/CalculateReward.swift:23 | Rounding is symmetric about 0. |
| Rounding.RoundKeepsSign | PocketLedger/Helper/CalculateReward.swift:23 | Rounding never changes the sign of a value. |
| HexColor.RedChannel | PocketLedger/Helper/HexColor.swift:15 | The red channel (bits 16-23) lies in 0..255. |
| HexColor.GreenChannel | PocketLedger/Helper/HexColor.swift:16 | The green channel (bits 8-15) lies in 0..255. |
| HexColor.BlueChannel | PocketLedger/Helper/HexColor.swift:17 | The blue channel (bits 0-7) lies in 0..255. |
| HexColor.FromHex | PocketLedger/Helper/HexColor.swift:12-20 | Each component times 255 is its channel, so each lies in [0, 1]; the opacity is the given alpha unchanged. |
| HexColor.ChannelsReassemble | PocketLedger/Helper/HexColor.swift:15-17 | r x 65536 + g x 256 + b equals hex mod 2^24. |
| HexColor.HighBitsIgnored | PocketLedger/Helper/HexColor.swift:15-17 | Bits above bit 23 do not change the colour. |
| CardRules.DigitsInput | PocketLedger/Views/Card/EditCardView.swift:277-282 | The typed text keeps only digits; it is accepted when at most four remain and otherwise the field keeps its value, so the field always holds at most four digits; a changed field holds only digits taken in order from the typed text. |
| CardRules.DigitsInputAcceptsDigitStrings | PocketLedger/Views/Card/AddCardView.swift:113-115 | Typing a string of at most four digits sets the field to exactly that string. |
| CardRules.DigitsInputRefusesLongInput | PocketLedger/Views/Card/AddCardView.swift:113-114 | Text holding more than four digits leaves the field unchanged. |
| AddCard.SelectCardType | PocketLedger/Views/Card/AddCardView.swift:92-98 | Switching to debit resets the network to interac, switching to credit resets it to visa; nothing else changes. |
| AddCard.EnterDigits | PocketLedger/Views/Card/AddCardView.swift:110-118 | The digits field stays numeric and at most four long under any typing. |
| AddCard.Save | PocketLedger/Views/Card/AddCardView.swift:28-53 | An empty name or digits not of length 4 insert nothing; otherwise exactly one card is appended with the form's fields, no perk type when debit and the selected one when credit. |
| EditCard.AddCardPerk | PocketLedger/Views/Card/EditCardView.swift:168-183 | A card without a perk type first takes the selected one; the perk is refused (result false, perks unchanged) exactly when one with the same category exists, absent matching absent; otherwise exactly one perk with the card's perk type, the value and the category is added; distinct categories stay distinct. |
| EditCard.RemoveAllPerks | PocketLedger/Views/Card/EditCardView.swift:192-196 | Every perk of the card is removed and nothing else changes. |
| EditCard.FormFor | PocketLedger/Views/Card/EditCardView.swift:385-393 | The form opens on the stored perk type when there is one, with no alert; saving the unedited form of a consistent card with valid fields gives back that card. |
| EditCard.Save | PocketLedger/Views/Card/EditCardView.swift:198-215 | An empty name or digits not of length 4 change nothing; a valid credit save sets the selected perk type; a valid debit save clears the perk type and every perk; a valid save leaves a consistent card. |
| EditCard.SelectCardType | PocketLedger/Views/Card/EditCardView.swift:253-263 | Changing to the stored card type restores the stored network; changing to the other type resets it to interac (debit) or visa (credit); no other field changes. |
| EditCard.SwitchCardTypeBack | PocketLedger/Views/Card/EditCardView.swift:253-263 | Switching the card type away and back leaves the stored network selected. |
| EditCard.SelectPerkType | PocketLedger/Views/Card/EditCardView.swift:312-316 | A perk-type change to a type other than the stored one on a card with perks raises the reset alert; any other selection leaves the alert as it was. |
| EditCard.DontProceed | PocketLedger/Views/Card/EditCardView.swift:319-324 | "Don't Proceed" reverts the selection to the stored perk type (or keeps it when none is stored), dismisses the alert and changes no other field of the form. |
| EditCard.Proceed | PocketLedger/Views/Card/EditCardView.swift:325-328 | "Proceed" removes every perk, keeps the new selection and dismisses the alert. |
| EditCard.PerkTypeChangeRoundTrip | PocketLedger/Views/Card/EditCardView.swift:312-328 | Changing the perk type of a credit card with perks raises the alert; declining reverts the selection to the stored type; proceeding and saving leaves the card with the new type and no perks. |
| AddTransaction.SelectCategory | PocketLedger/Views/Transaction/AddTransactionView.swift:138-140 | A category change clears the category warning. |
| AddTransaction.SelectType | PocketLedger/Views/Transaction/AddTransactionView.swift:135-137 | A transaction-type change resets the category to none. |
| AddTransaction.EnterAmount | PocketLedger/Views/Transaction/AddTransactionView.swift:160-162 | An amount change sets the amount and clears the amount warning; nothing else changes. |
| AddTransaction.SelectPaymentType | PocketLedger/Views/Transaction/AddTransactionView.swift:179-182 | A payment-type change resets the card to none and clears the card warning. |
| AddTransaction.SelectCard | PocketLedger/Views/Transaction/AddTransactionView.swift:198-200 | A card change sets the card and clears the card warning; nothing else changes. |
| AddTransaction.Save | PocketLedger/Views/Transaction/AddTransactionView.swift:51-95 | A transaction is stored exactly when a category is chosen, the amount is not 0 and a non-cash expense has a card; income has no payment type or card, a cash expense is cash without a card, any other expense has its payment type and card; every stored transaction is payment-consistent. |
| AddTransaction.SaveAsWritten | PocketLedger/Views/Transaction/AddTransactionView.swift:51-95 | The guard as written (on the raised warning flags) never stores an invalid form, and what it stores is what the field-based save stores. |
| AddTransaction.NegativeAmountAccepted | PocketLedger/Views/Transaction/AddTransactionView.swift:55-57 | Only an amount of exactly 0 is refused: a negative amount is stored. |
| AddTransaction.SavesAgreeOnFreshForm | PocketLedger/Views/Transaction/AddTransactionView.swift:51-63 | With no warning raised beforehand the as-written and field-based saves agree. |
| AddTransaction.StaleCardWarningBlocksIncome | PocketLedger/Views/Transaction/AddTransactionView.swift:58-63 | A card warning raised on an expense survives a switch to income and blocks a valid income save. |
| EditTransaction.FormFor | PocketLedger/Views/Transaction/EditTransactionView.swift:187-195 | The form opens on the stored type, amount, date, payment type, category and card; a payment-consistent transaction gives a form the save can unwrap. |
| EditTransaction.SelectCategory | PocketLedger/Views/Transaction/EditTransactionView.swift:93-95 | A category change sets the category and clears the category warning; nothing else changes, and a well-formed form stays well-formed. |
| EditTransaction.SelectType | PocketLedger/Views/Transaction/EditTransactionView.swift:90-95 | Back to the stored type restores the stored category, any other type clears it; a category change clears the category warning. |
| EditTransaction.EnterAmount | PocketLedger/Views/Transaction/EditTransactionView.swift:109-111 | An amount change sets the amount and clears the amount warning; nothing else changes. |
| EditTransaction.SelectPaymentType | PocketLedger/Views/Transaction/EditTransactionView.swift:131-138 | Back to the stored non-cash payment type restores the stored card, anything else clears it; the card warning is cleared. |
| EditTransaction.SelectCard | PocketLedger/Views/Transaction/EditTransactionView.swift:140-158 | A card change sets the card and clears the card warning; nothing else changes; with no payment type only "no card" can be picked. |
| EditTransaction.RaiseWarnings | PocketLedger/Views/Transaction/EditTransactionView.swift:43-51 | The save's checks touch only the warning flags, and an invalid form always ends with at least one raised. |
| EditTransaction.SaveAsWritten | PocketLedger/Views/Transaction/EditTransactionView.swift:42-70 | An invalid form is refused; an accepted save overwrites type, amount, date, note and category, and a cash expense keeps the stored card. Requires that an expense with no payment type has no card (the force unwrap). |
| EditTransaction.Save | PocketLedger/Views/Transaction/EditTransactionView.swift:42-70 | An edit is stored exactly when the form is valid; income clears payment type and card, an expense keeps its payment type, a non-cash expense its card, and the result is payment-consistent. |
| EditTransaction.SaveAsWrittenConsistency | PocketLedger/Views/Transaction/EditTransactionView.swift:60-64 | An accepted as-written save is payment-consistent exactly unless it is a cash expense over a transaction that had a card. |
| EditTransaction.SavesAgreeOffCash | PocketLedger/Views/Transaction/EditTransactionView.swift:42-70 | Without prior warnings and outside that cash case, the as-written and corrected saves store the same edit. |
| EditTransaction.StaleCardWarningBlocksIncome | PocketLedger/Views/Transaction/EditTransactionView.swift:49-52 | A card warning raised by saving a debit expense switched to credit without a card survives a switch to income and blocks a valid income save that the corrected save accepts. |
| EditTransaction.CashEditKeepsCard | PocketLedger/Views/Transaction/EditTransactionView.swift:60-64 | A credit expense with a card, switched to cash and saved, is stored as cash still pointing at the card. |
| EditTransaction.SwitchTypeBackRestoresCategory | PocketLedger/Views/Transaction/EditTransactionView.swift:90-92 | Switching away from the stored type clears the category, and switching back restores it. |
| EditTransaction.SwitchPaymentBackRestoresCard | PocketLedger/Views/Transaction/EditTransactionView.swift:131-136 | Switching away from the stored non-cash payment type clears the card, and switching back restores it. |
| CardDetail.RowReward | PocketLedger/Views/Card/CardDetailView.swift:48-55 | A row shows a reward exactly when its transaction has a card and the card is credit, and then it is the calculated reward. |
| CardDetail.TotalRewards | PocketLedger/Views/Card/CardDetailView.swift:153-161 | The total is 0 for a non-credit card or a card without a transaction list, and otherwise the sum of every transaction's reward. |
| CardDetail.NoPerksNoRewards | PocketLedger/Views/Card/CardDetailView.swift:153-161 | A card without perks has a total of 0 over any list. |
| CardDetail.PerksOnCard | PocketLedger/Views/Card/CardDetailView.swift:112-122 | The listed perks are exactly this card's perks, each as often as stored (same multiset as the card's perks), by value descending. |
| CardDetail.RecentTransactionsAsWritten | PocketLedger/Views/Card/CardDetailView.swift:132-143 | At most five (fewer only when the card has fewer) of the card's transactions, each no more often than stored, by date ascending. |
| CardDetail.AsWrittenShowsOldest | PocketLedger/Views/Card/CardDetailView.swift:138-142 | As written, no card transaction left out is older than one shown: the list holds the oldest. |
| CardDetail.RecentTransactions | PocketLedger/Views/Card/CardDetailView.swift:132-143 | At most five (fewer only when the card has fewer) of the card's transactions, each no more often than stored (a sub-multiset of the card's transactions), newest first. |
| CardDetail.RecentAreNewest | PocketLedger/Views/Card/CardDetailView.swift:132-143 | No card transaction left out is newer than one shown. |
| CardDetail.NewestIsShown | PocketLedger/Views/Card/CardDetailView.swift:132-143 | A card transaction newer than all the card's others is always shown. |
| CardDetail.AsWrittenHidesNewest | PocketLedger/Views/Card/CardDetailView.swift:138-142 | With six or more card transactions on increasing dates, the as-written list leaves out the newest and the corrected list shows it. |
| ManageCategory.CategoryList | PocketLedger/Views/TransactionCategory/ManageCategory/ManageCategoryView.swift:131-146 | A list holds exactly the stored categories of its raw type and custom flag, each as often as stored (same multiset), by ascending index. |
| ManageCategory.InCategoryList | PocketLedger/Views/TransactionCategory/ManageCategory/ManageCategoryView.swift:131-146 | A category is in a list exactly when it is stored with that list's raw type and custom flag. |
| ManageCategory.ListsPartitionCategories | PocketLedger/Views/TransactionCategory/ManageCategory/ManageCategoryView.swift:131-146 | A category of a known type is in exactly one of the four lists, so the lists are pairwise disjoint and cover every such category. |
| ManageCategory.NewCategoryIndex | PocketLedger/Views/TransactionCategory/ManageCategory/ManageCategoryView.swift:152-157 | The new index is the largest index in use (not one past it), or 0 with no categories. |
| ManageCategory.AddCategory | PocketLedger/Views/TransactionCategory/ManageCategory/ManageCategoryView.swift:150-165 | Exactly one category is appended, custom, of the selected type, with the entered name and icon and an index no smaller than any existing one. |
| ManageCategory.AddedCategoryListed | PocketLedger/Views/TransactionCategory/ManageCategory/ManageCategoryView.swift:150-165 | The new category appears in its type's custom list and, when categories existed, shares its index with one of them. |
| ManageCategory.DeleteCategories | PocketLedger/Views/TransactionCategory/ManageCategory/ManageCategoryView.swift:175-191 | Every category at a swiped position of the selected custom list is removed and every other category is kept. |
| ManageCategory.DeleteKeepsDefaults | PocketLedger/Views/TransactionCategory/ManageCategory/ManageCategoryView.swift:175-183 | A default category, or one of the other type, is never deleted. |
| Dates.StartOfDay | PocketLedger/Views/Home/MonthlyBudgetView.swift:26 | The start of a day is at or before the instant, less than a day before it, and on a day boundary. |
| Dates.AddOneDay | PocketLedger/Views/Home/MonthlyBudgetView.swift:27 | Adding a day moves a date exactly one day later. |
| Dates.StartOfDayCharacterised | PocketLedger/Views/Home/MonthlyBudgetView.swift:26 | The start of day is the unique day boundary within a day before the instant. |
| Dates.StartOfDayIdempotent | PocketLedger/Views/Transaction/TransactionList/GroupedTransactionListView.swift:21-23 | The start of a day is its own start of day. |
| Dates.EndDayIncluded | PocketLedger/Views/Transaction/TransactionList/TransactionListView.swift:23-28 | With an end day on a day boundary, a date after the start is in the window exactly when its day is not after the end day. |
| DateWindow.Window | PocketLedger/Views/Transaction/TransactionList/TransactionListView.swift:23-37 | The window keeps exactly the transactions with start <= date < end day + 1 day. |
| DateWindow.MonthWindow | PocketLedger/Views/Home/MonthlyBudgetView.swift:21-31 | This month's window keeps exactly the transactions from the first of the month through the whole of today. |
| MonthlyBudget.TotalAsWritten | PocketLedger/Views/Home/MonthlyBudgetView.swift:34-38 | The as-written total is the left-to-right running total from 0 over every transaction in the window. |
| MonthlyBudget.TotalMonthlyExpense | PocketLedger/Views/Home/MonthlyBudgetView.swift:34-38 | The spending total is the sum over the window with every non-expense record counting 0, and the running total over the expense records. |
| MonthlyBudget.BudgetExceeded | PocketLedger/Views/Home/MonthlyBudgetView.swift:40-54 | The budget is exceeded exactly when the overspend is positive; then the remaining chart slice is 0, otherwise spending and the remaining slice add up to the budget. |
| MonthlyBudget.AsWrittenAddsNonExpenses | PocketLedger/Views/Home/MonthlyBudgetView.swift:34-38 | The as-written total is the expense total plus the amounts of every non-expense record in the window. |
| MonthlyBudget.TotalsAgreeOnExpenses | PocketLedger/Views/Home/MonthlyBudgetView.swift:34-38 | When the window holds only expense records the two totals agree. |
| MonthlyBudget.IncomeCountsAsSpending | PocketLedger/Views/Home/MonthlyBudgetView.swift:34-42 | A 100 expense and a 2000 income against a 1000 budget read as exceeded by 1100 as written, while 100 was spent. |
| MonthlyBudget.RemainingBudget | PocketLedger/Views/Home/MonthlyBudgetView.swift:54 | The remaining budget is never negative, is 0 exactly when the total reaches the budget, and adds up with the total to the budget when not exceeded. |
| MonthlyBudget.Overspend | PocketLedger/Views/Home/MonthlyBudgetView.swift:150-151 | The reported overspend is total minus budget, positive exactly when the budget is exceeded. |
| MonthlyBudget.Apply | PocketLedger/Views/Home/MonthlyBudgetView.swift:60-66 | Setting stores the new budget when it is not negative and otherwise keeps the stored one, and closes the editor; no other press changes the stored budget. |
| MonthlyBudget.BudgetNeverNegative | PocketLedger/Views/Home/MonthlyBudgetView.swift:60-64 | No sequence of presses stores a negative budget. |
| MonthlyBudget.Steps | PocketLedger/Views/Home/MonthlyBudgetView.swift:77-99 | n presses of one stepper move the editor value by exactly 10n and change nothing stored. |
| MonthlyBudget.StepsCancel | PocketLedger/Views/Home/MonthlyBudgetView.swift:77-131 | Opening the editor (which starts from the stored budget), n minus and n plus presses, and setting, store the budget unchanged. |
| MonthlySummary.IncomeTransactions | PocketLedger/Views/Home/MonthlySummaryView.swift:29-33 | The income list is the order-preserving subsequence of the window's records whose raw type is "Income". |
| MonthlySummary.ExpenseTransactions | PocketLedger/Views/Home/MonthlySummaryView.swift:43-47 | The expense list is the order-preserving subsequence of the window's records whose raw type is "Expense". |
| MonthlySummary.Summarise | PocketLedger/Views/Home/MonthlySummaryView.swift:57-79 | The "no transactions this month" message appears exactly when the window is empty; otherwise the income total is the running total of the income list and the expense total that of the expense list, each equal to the sum over the window with every other record counting 0. |
| MonthlySummary.ListsSplitMonth | PocketLedger/Views/Home/MonthlySummaryView.swift:29-65 | With every raw type known, the two lists together are a permutation of the window and the two totals add up to the sum of all amounts. |
| MonthlySummary.ListsDisjoint | PocketLedger/Views/Home/MonthlySummaryView.swift:29-55 | No transaction is in both lists. |
| TransactionList.BaseList | PocketLedger/Views/Transaction/TransactionList/TransactionListView.swift:19-21 | The base list is every transaction, sorted by date descending. |
| TransactionList.Filtered | PocketLedger/Views/Transaction/TransactionList/TransactionListView.swift:30-46 | Filter off: the list unchanged; filter on: exactly the transactions in the half-open date range, in their order. |
| TransactionList.InitialRange | PocketLedger/Views/Transaction/TransactionList/TransactionListView.swift:16-17 | The filter opens on day boundaries thirty days apart, covering both now and thirty days ago. |
| TransactionList.ScreenFor | PocketLedger/Views/Transaction/TransactionList/TransactionListView.swift:65-76 | "No transactions" exactly for an empty base list, "no matches" exactly for a non-empty base list with nothing kept, else the kept list grouped. |
| TransactionList.ListScreen | PocketLedger/Views/Transaction/TransactionList/TransactionListView.swift:19-76 | "No transactions" means none at all; with the range applied, the grouped list holds every stored transaction inside the range and nothing else (no more often than stored), newest first. |
| TransactionList.ListScreenAsWritten | PocketLedger/Views/Transaction/TransactionList/TransactionListView.swift:15-76 | As written the "no matches" message never appears and the grouped list is every stored transaction, newest first, whatever range was picked. |
| TransactionList.NoMatchesExactly | PocketLedger/Views/Transaction/TransactionList/TransactionListView.swift:65-76 | "No matches" shows exactly when there are transactions but none in range. |
| TransactionList.AsWrittenIgnoresRange | PocketLedger/Views/Transaction/TransactionList/TransactionListView.swift:15-32 | As written, a transaction outside the chosen range is still listed; with the range applied it is not. |
| CardTransactionList.CardBase | PocketLedger/Views/Card/CardTransactionListView.swift:26-33 | The base list holds exactly this card's transactions, in store order. |
| CardTransactionList.CardScreenAsWritten | PocketLedger/Views/Card/CardTransactionListView.swift:70-78 | "No transactions" exactly when the card has none; "no matches" exactly when it has some and none passes the filter; otherwise, whenever the filtered list is non-empty, the list is shown, and it is the unfiltered card list. |
| CardTransactionList.CardFilterKeepsMatches | PocketLedger/Views/Card/CardTransactionListView.swift:35-78 | The card list after the date filter holds nothing beyond the stored transactions and every one on the card (and, when filtering, in range). |
| CardTransactionList.CardFilterSound | PocketLedger/Views/Card/CardTransactionListView.swift:29-58 | Everything in the card list after the date filter is on the card, and with the filter on inside the range. |
| CardTransactionList.CardFilterEmptyExactly | PocketLedger/Views/Card/CardTransactionListView.swift:29-58 | The card list after the date filter is empty exactly when no transaction on the card passes the filter. |
| CardTransactionList.CardScreen | PocketLedger/Views/Card/CardTransactionListView.swift:35-78 | "No transactions" exactly when the card has none; "no matches" exactly when it has some and none passes the filter; the list is shown exactly when the filtered list is non-empty, and it is that list: this card's stored transactions (no more often than stored), with the filter on exactly those in range. |
| CardTransactionList.ScreensAgreeOnState | PocketLedger/Views/Card/CardTransactionListView.swift:70-78 | Both screens choose the same state, and with the filter off they are identical. |
| CardTransactionList.AsWrittenShowsFilteredOut | PocketLedger/Views/Card/CardTransactionListView.swift:73-76 | With the filter on and a match, a card transaction outside the range is displayed as written and hidden once corrected. |
| GroupedTransactionList.InsertKey | PocketLedger/Views/Transaction/TransactionList/GroupedTransactionListView.swift:21-24 | Adding a day key keeps the keys strictly descending and the key set grows by exactly that day. |
| GroupedTransactionList.DayKeys | PocketLedger/Views/Transaction/TransactionList/GroupedTransactionListView.swift:21-24 | The section keys are strictly descending and are exactly the start-of-day of some transaction. |
| GroupedTransactionList.SectionAt | PocketLedger/Views/Transaction/TransactionList/GroupedTransactionListView.swift:21-26 | Section j is the j-th key's day holding exactly that day's transactions, in input order. |
| GroupedTransactionList.SectionsOrderedAndNonEmpty | PocketLedger/Views/Transaction/TransactionList/GroupedTransactionListView.swift:24-26 | Sections come newest day first, no day twice, and none is empty. |
| GroupedTransactionList.EachInItsDay | PocketLedger/Views/Transaction/TransactionList/GroupedTransactionListView.swift:21-26 | A transaction is in a section exactly when the section's day is its start of day, and each section keeps input order. |
| GroupedTransactionList.EveryTransactionHasSection | PocketLedger/Views/Transaction/TransactionList/GroupedTransactionListView.swift:21-24 | Every transaction has a section. |
| GroupedTransactionList.FlattenHoldsKeyedDays | PocketLedger/Views/Transaction/TransactionList/GroupedTransactionListView.swift:21-26 | Over distinct keys, the flattened sections hold exactly the transactions whose day is a key. |
| GroupedTransactionList.GroupIsPermutation | PocketLedger/Views/Transaction/TransactionList/GroupedTransactionListView.swift:21-26 | The sections taken together are a permutation of the input. |

## Left out

- Persistence: SwiftData inserts, deletes, fetches, `@Query` and delete rules are modelled as the resulting `seq` (or `Option` result); commit failures and the error messages they post are I/O.
- Ids: UUID generation and object identity are replaced by ids passed in as parameters and compared for equality.
- The clock and calendar: "now" and the first instant of the month are parameters; days are a fixed 86 400 seconds (no time zones or daylight saving).
- Floating point: amounts, rates and sums are exact reals, so the order in which a total is accumulated does not matter; NaN, overflow and rounding error are not modelled.
- Formatting: `formatCurrency`, `twoDecimalString` and the other string rendering (including the total-rewards string) are left out; TotalRewards returns the number.
- CardRules.IsNumber: Swift's `isNumber` accepts every Unicode numeric character; the model accepts ASCII '0' to '9' only.
- Sort ties: the store's order among equal keys is unspecified; the model's insertion sort fixes one, and no contract depends on it.
- CardDetail.NewestIsShown: stated for a transaction strictly newer than every other on the card; with ties for newest, which one is shown depends on the store's tie order.
- The `catch` paths of the list filters (TransactionListView.swift:38-43, CardTransactionListView.swift:50-55, MonthlySummaryView.swift:34-39 and 48-53): evaluating these date and type comparisons cannot fail in the model, so `Filtered`, `CardBase`, `IncomeTransactions` and `ExpenseTransactions` never take the empty-list-and-error-message branch.
- Picker contents: which payment types and cards a picker offers (only types with existing cards, only cards of the chosen type) are not modelled; a picker's selection is a parameter.
- EditTransaction.FormFor: models the state after `onAppear`; the onChange handlers that `onAppear` itself can fire are not replayed.
- `deletePerk(at:)` in EditCardView, card deletion in CardDetailView, and the default-category bootstrapper (which is not part of this model) are persistence actions outside the modelled rules.
- MessageService, KeyboardResponder, charts, logos, icons and other rendering views are platform glue.
- The older duplicate PocketLedger/Views/Transaction/TransactionListView.swift is not part of this model; the list screen modelled is the one under TransactionList/.
- The perk JSON coding in PocketLedger/Data/Card.swift wraps a foreign coder and is not part of this model.

## Findings

| source | as written | input that shows it | evidently intended | confidence | as-written member | corrected member |
|---|---|---|---|---|---|---|
| PocketLedger/Views/Transaction/AddTransactionView.swift:51-63 | The save guard reads the warning flags; the card warning is only lowered by handlers inside the expense-only section, so it survives a switch to income | Expense, debit, no card, save (card warning raised); switch to income; pick a category; enter 25; save | A valid form is saved; warnings reflect the current fields | high; not executed | AddTransaction.SaveAsWritten, AddTransaction.StaleCardWarningBlocksIncome | AddTransaction.Save |
| PocketLedger/Views/Transaction/EditTransactionView.swift:60-64 | Saving a cash expense sets the payment type but leaves the stored card reference | A credit expense with a card, payment type switched to cash, saved | A cash expense has no card, as the add form stores it | high; not executed | EditTransaction.SaveAsWritten, EditTransaction.CashEditKeepsCard | EditTransaction.Save |
| PocketLedger/Views/Transaction/EditTransactionView.swift:49-52 | The save guard reads the sticky warning flags, and the card warning is only lowered by the payment-type and card handlers inside the expense-only section (lines 116-159), so it survives a switch to income, as on the add form | A debit expense with a card: payment type switched to credit, save (card warning raised); switch to income; pick a category; save | A valid form is saved; warnings reflect the current fields | high; not executed | EditTransaction.SaveAsWritten, EditTransaction.StaleCardWarningBlocksIncome | EditTransaction.Save |
| PocketLedger/Views/Card/CardTransactionListView.swift:73-76 | The grouped list is given the unfiltered card list whenever the filtered one is non-empty | Filter on; one card transaction inside the range and one outside | The filtered list is displayed | high; not executed | CardTransactionList.CardScreenAsWritten, CardTransactionList.AsWrittenShowsFilteredOut | CardTransactionList.CardScreen |
| PocketLedger/Views/Card/CardDetailView.swift:138-142 | "Recent" transactions are sorted by date ascending and cut at five, giving the five oldest | Six card transactions on six successive days | The five newest, newest first | high; not executed | CardDetail.RecentTransactionsAsWritten, CardDetail.AsWrittenHidesNewest | CardDetail.RecentTransactions |
| PocketLedger/Views/Home/MonthlyBudgetView.swift:34-38 | The month's spending sums every transaction in the window, income included | A 100 expense and a 2000 income against a 1000 budget | Sum expense records only | high; not executed | MonthlyBudget.TotalAsWritten, MonthlyBudget.IncomeCountsAsSpending | MonthlyBudget.TotalMonthlyExpense |
| PocketLedger/Views/Transaction/TransactionList/TransactionListView.swift:15-32 | The flag that enables the date filter starts false and nothing on this screen sets it, so the dates picked in its date filter never apply | Any transaction dated outside the picked range | The picked range filters the list | medium; not executed | TransactionList.ListScreenAsWritten, TransactionList.AsWrittenIgnoresRange | TransactionList.ListScreen |

Not logged as a finding: a new custom category takes the largest index in use
rather than one past it (ManageCategory.NewCategoryIndex), so it ties with an
existing category in the index order; this is modelled as written.
