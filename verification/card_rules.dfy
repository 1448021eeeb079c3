/** Rules the add-card and edit-card forms share: the last-four-digits
    input filter, save validation and the network a card type starts on. */
module CardRules {
  import opened Ledger
  import Seqs

  /** A decimal digit (Swift's `isNumber`, restricted to ASCII). */
  predicate IsNumber(c: char) {
    '0' <= c <= '9'
  }

  predicate AllDigits(s: string) {
    forall i :: 0 <= i < |s| ==> IsNumber(s[i])
  }

  /** The binding setter of the last-four-digits field: the typed text
      loses every non-digit, and the result replaces the field only when at
      most 4 digits remain; otherwise the field keeps its value. */
  function DigitsInput(current: string, typed: string): (r: string)
    ensures var digits := Seqs.Filter(typed, IsNumber);
            if |digits| <= 4 then r == digits else r == current
    ensures AllDigits(current) && |current| <= 4 ==> AllDigits(r) && |r| <= 4
    ensures r != current ==> AllDigits(r) && Seqs.SubsequenceOf(r, typed)
  {
    var filtered := Seqs.Filter(typed, IsNumber);
    Seqs.FilterSubsequence(typed, IsNumber);
    // `prefix(4)` of at most four characters is the whole string
    if |filtered| <= 4 then filtered else current
  }

  /** Typing a value the field could hold is accepted as typed. */
  lemma DigitsInputAcceptsDigitStrings(current: string, typed: string)
    requires AllDigits(typed) && |typed| <= 4
    ensures DigitsInput(current, typed) == typed
  {
    Seqs.FilterAll(typed, IsNumber);
  }

  /** Text with more than four digits is refused whatever else it holds. */
  lemma DigitsInputRefusesLongInput(current: string, typed: string)
    requires |Seqs.Filter(typed, IsNumber)| > 4
    ensures DigitsInput(current, typed) == current
  {
  }

  /** What both forms demand before saving: a non-empty name and exactly
      four characters of digits. */
  predicate ValidCardFields(name: string, lastFourDigits: string) {
    |name| > 0 && |lastFourDigits| == 4
  }

  /** The network a card type is reset to when the type is switched:
      interac for debit, visa for credit. */
  function DefaultNetwork(t: CardType): PaymentNetwork {
    match t
    case DebitCard => Interac
    case CreditCard => Visa
  }
}
