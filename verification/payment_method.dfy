/**
 * The payment step: a choice between card and PayPal, the card fields formatted as they
 * are typed (number in groups of four, expiry as MM/YY, CVV), and the rule that decides
 * whether the chosen method is complete.
 */
module PaymentMethod {
  import Text

  // ---- the card-number formatter ----

  /**
   * `d.replace(/(\d{4})(?=\d)/g, '$1 ')` for a string of digits: a space after every group
   * of four that is followed by another digit.
   */
  function Group4(d: string): (r: string)
    decreases |d|
  {
    if |d| > 4 then d[..4] + " " + Group4(d[4..]) else d
  }

  /** `value.replace(/\D/g, '').slice(0, 16)`, then grouped. */
  function FormatCardNumber(value: string): string {
    Group4(Text.Take(Text.Digits(value), 16))
  }

  lemma SpaceHasNoDigits()
    ensures Text.Digits(" ") == "" && Text.StripWhitespace(" ") == ""
  {
    assert " "[1..] == "";
  }

  /** Grouping only inserts spaces: dropping the non-digits, or the spaces, gives the digits back. */
  lemma {:induction false} GroupKeepsDigits(d: string)
    requires Text.AllDigits(d)
    ensures Text.Digits(Group4(d)) == d
    ensures Text.StripWhitespace(Group4(d)) == d
    decreases |d|
  {
    if |d| > 4 {
      var head, tail := d[..4], d[4..];
      GroupKeepsDigits(tail);
      SpaceHasNoDigits();
      Text.DigitsOfDigits(head);
      Text.StripWhitespaceOfDigits(head);
      Text.DigitsAppend(head + " ", Group4(tail));
      Text.DigitsAppend(head, " ");
      Text.StripWhitespaceAppend(head + " ", Group4(tail));
      Text.StripWhitespaceAppend(head, " ");
      assert head + "" + tail == d;
    } else {
      Text.DigitsOfDigits(d);
      Text.StripWhitespaceOfDigits(d);
    }
  }

  /** One space per full group of four that has a digit after it; the last character is a digit. */
  lemma {:induction false} GroupShape(d: string)
    requires Text.AllDigits(d)
    ensures |Group4(d)| == |d| + (if d == [] then 0 else (|d| - 1) / 4)
    ensures d != [] ==> Group4(d)[|Group4(d)| - 1] == d[|d| - 1]
    decreases |d|
  {
    if |d| > 4 {
      GroupShape(d[4..]);
    }
  }

  /**
   * The formatted number holds the first (at most 16) digits typed, in order, is at most
   * 19 characters long and never ends in a space.
   */
  lemma CardNumberShape(value: string)
    ensures Text.Digits(FormatCardNumber(value)) == Text.Take(Text.Digits(value), 16)
    ensures Text.StripWhitespace(FormatCardNumber(value)) == Text.Take(Text.Digits(value), 16)
    ensures |FormatCardNumber(value)| <= 19
    ensures FormatCardNumber(value) != "" ==> FormatCardNumber(value)[|FormatCardNumber(value)| - 1] != ' '
  {
    var d := Text.Take(Text.Digits(value), 16);
    assert Text.AllDigits(d);
    GroupKeepsDigits(d);
    GroupShape(d);
  }

  /** Formatting an already formatted number changes nothing. */
  lemma CardNumberIdempotent(value: string)
    ensures FormatCardNumber(FormatCardNumber(value)) == FormatCardNumber(value)
  {
    CardNumberShape(value);
  }

  // ---- expiry and CVV ----

  /** `slice(0, 4)` of the digits, with "/" after the first two once there are two. */
  function FormatExpiry(value: string): string {
    var d := Text.Take(Text.Digits(value), 4);
    if |d| >= 2 then d[..2] + "/" + d[2..] else d
  }

  /** Inserting "/" after two digits leaves the digits as they were. */
  lemma {:induction false} SlashKeepsDigits(d: string)
    requires Text.AllDigits(d) && |d| >= 2
    ensures Text.Digits(d[..2] + "/" + d[2..]) == d
  {
    var a, b := d[..2], d[2..];
    Text.DigitsAppend(a + "/", b);
    Text.DigitsAppend(a, "/");
    Text.DigitsOfNonDigit('/');
    Text.DigitsOfDigits(a);
    Text.DigitsOfDigits(b);
    assert a + b == d;
  }

  lemma ExpiryShape(value: string)
    ensures var r, d := FormatExpiry(value), Text.Take(Text.Digits(value), 4);
      Text.Digits(r) == d && |r| <= 5 && (|r| == 5 <==> |Text.Digits(value)| >= 4)
      && (|r| >= 3 ==> r[2] == '/') && (|d| >= 2 <==> |r| >= 3)
  {
    var d := Text.Take(Text.Digits(value), 4);
    assert Text.AllDigits(d);
    if |d| >= 2 {
      SlashKeepsDigits(d);
    } else {
      Text.DigitsOfDigits(d);
    }
  }

  /** "12" becomes "12/", and formatting a formatted expiry changes nothing. */
  lemma ExpiryIdempotent(value: string)
    ensures FormatExpiry(FormatExpiry(value)) == FormatExpiry(value)
  {
    ExpiryShape(value);
  }

  /** `value.replace(/\D/g, '').slice(0, 4)` */
  function FormatCvv(value: string): (r: string)
    ensures Text.AllDigits(r) && |r| <= 4
  {
    Text.Take(Text.Digits(value), 4)
  }

  lemma CvvIdempotent(value: string)
    ensures FormatCvv(FormatCvv(value)) == FormatCvv(value)
  {
    Text.DigitsOfDigits(FormatCvv(value));
  }

  // ---- the card record and the validity rule ----

  datatype Field = CardNumber | CardName | ExpiryDate | Cvv

  datatype CardData = CardData(cardNumber: string, cardName: string, expiryDate: string, cvv: string)

  /** The value `handleCardChange` stores for what was typed into `field`. */
  function FormatField(field: Field, value: string): string {
    match field
    case CardNumber => FormatCardNumber(value)
    case ExpiryDate => FormatExpiry(value)
    case Cvv => FormatCvv(value)
    case CardName => value
  }

  /** The text a card field holds. */
  function FieldOf(data: CardData, field: Field): string {
    match field
    case CardNumber => data.cardNumber
    case CardName => data.cardName
    case ExpiryDate => data.expiryDate
    case Cvv => data.cvv
  }

  /** `{ ...prev, [name]: formatted }`: the named field holds `v` and every other field is kept. */
  function WithField(data: CardData, field: Field, v: string): (r: CardData)
    ensures FieldOf(r, field) == v
    ensures forall g :: g != field ==> FieldOf(r, g) == FieldOf(data, g)
  {
    match field
    case CardNumber => data.(cardNumber := v)
    case CardName => data.(cardName := v)
    case ExpiryDate => data.(expiryDate := v)
    case Cvv => data.(cvv := v)
  }

  /** The card branch of the validation effect. */
  predicate CardValid(data: CardData) {
    |Text.StripWhitespace(data.cardNumber)| == 16 && !Text.IsBlank(data.cardName)
    && |data.expiryDate| == 5 && |data.cvv| >= 3
  }

  /** The PayPal branch: the e-mail matches `^[^\s@]+@[^\s@]+\.[^\s@]+$`. */
  predicate PaypalValid(email: string) {
    Text.MatchesEmailPattern(email)
  }

  /** The validation effect: any method other than the two known ones is invalid. */
  predicate IsValid(selected: string, data: CardData, paypalEmail: string) {
    if selected == "card" then CardValid(data)
    else if selected == "paypal" then PaypalValid(paypalEmail)
    else false
  }

  /**
   * For fields filled through the formatters, the card is complete exactly when at least
   * 16 digits went into the number, the name is not blank, at least 4 digits went into
   * the expiry and at least 3 into the CVV.
   */
  lemma FormattedCardValid(number: string, name: string, expiry: string, cvv: string)
    ensures CardValid(CardData(FormatCardNumber(number), name, FormatExpiry(expiry), FormatCvv(cvv)))
      <==> |Text.Digits(number)| >= 16 && !Text.IsBlank(name) && |Text.Digits(expiry)| >= 4
           && |Text.Digits(cvv)| >= 3
  {
    CardNumberShape(number);
    ExpiryShape(expiry);
  }

  /** The PayPal rule, spelt out: one "@", no whitespace, and a dot inside the domain. */
  lemma PaypalValidShape(email: string)
    ensures PaypalValid(email) <==> Text.EmailShape(email)
  {
    Text.EmailPatternCharacterized(email);
  }

  /** Every stored card field is what its formatter makes of it. */
  predicate Formatted(data: CardData) {
    FormatCardNumber(data.cardNumber) == data.cardNumber && FormatExpiry(data.expiryDate) == data.expiryDate
    && FormatCvv(data.cvv) == data.cvv
  }

  /** A change through `handleCardChange` keeps every field formatted. */
  lemma ChangeKeepsFormatted(data: CardData, field: Field, value: string)
    requires Formatted(data)
    ensures Formatted(WithField(data, field, FormatField(field, value)))
  {
    match field
    case CardNumber => CardNumberIdempotent(value);
    case ExpiryDate => ExpiryIdempotent(value);
    case Cvv => CvvIdempotent(value);
    case CardName =>
  }

  // ---- the component ----

  class PaymentForm {
    var selectedMethod: string
    var cardData: CardData
    var paypalEmail: string
    /** The ids passed to `onUpdate`, oldest first. */
    var selections: seq<string>

    predicate Valid()
      reads this
    {
      Formatted(cardData)
    }

    constructor ()
      ensures Valid()
      ensures selectedMethod == "card" && cardData == CardData("", "", "", "") && paypalEmail == ""
      ensures selections == []
    {
      selectedMethod := "card";
      cardData := CardData("", "", "", "");
      paypalEmail := "";
      selections := [];
      assert Text.Digits("") == "";
    }

    /** What the validation effect reports through `onValidation`. */
    predicate Validation()
      reads this
    {
      IsValid(selectedMethod, cardData, paypalEmail)
    }

    /** `handleSelect(methodId)`: select it and report the same id. */
    method HandleSelect(methodId: string)
      modifies this
      ensures selectedMethod == methodId && selections == old(selections) + [methodId]
      ensures cardData == old(cardData) && paypalEmail == old(paypalEmail)
    {
      selectedMethod := methodId;
      selections := selections + [methodId];
    }

    method HandleCardChange(field: Field, value: string)
      requires Valid()
      modifies this
      ensures Valid()
      ensures cardData == WithField(old(cardData), field, FormatField(field, value))
      ensures selectedMethod == old(selectedMethod) && paypalEmail == old(paypalEmail)
      ensures selections == old(selections)
    {
      ChangeKeepsFormatted(cardData, field, value);
      var formattedValue := FormatField(field, value);
      cardData := WithField(cardData, field, formattedValue);
    }

    /** The PayPal input stores what was typed verbatim. */
    method SetPaypalEmail(value: string)
      modifies this
      ensures paypalEmail == value
      ensures selectedMethod == old(selectedMethod) && cardData == old(cardData)
      ensures selections == old(selections)
    {
      paypalEmail := value;
    }
  }
}
