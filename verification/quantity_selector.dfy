/**
 * The quantity picker on a book's page: "-", a number input and "+", kept between 1 and
 * `max` (99 by default), either on its own state or on a value and setter handed in.
 */
module QuantitySelector {
  import opened Wrappers
  import Text

  const DefaultMax: int := 99

  // ---- `parseInt(text)` with no radix ----

  predicate IsHexDigit(c: char) {
    Text.IsDigit(c) || 'a' <= c <= 'f' || 'A' <= c <= 'F'
  }

  function HexDigitValue(c: char): (d: nat)
    requires IsHexDigit(c)
    ensures d < 16
  {
    if Text.IsDigit(c) then c as int - '0' as int
    else if 'a' <= c <= 'f' then c as int - 'a' as int + 10
    else c as int - 'A' as int + 10
  }

  /** The longest prefix of `s` whose characters all satisfy `p`. */
  function PrefixWhile(s: string, p: char -> bool): (r: string)
    ensures |r| <= |s| && r == s[..|r|]
    ensures forall i :: 0 <= i < |r| ==> p(r[i])
    ensures |r| < |s| ==> !p(s[|r|])
  {
    if s == [] || !p(s[0]) then [] else [s[0]] + PrefixWhile(s[1..], p)
  }

  /** The value of a numeral in base `base`, most significant digit first. */
  function NumeralValue(s: string, base: nat): nat
    requires base == 10 || base == 16
    requires forall i :: 0 <= i < |s| ==> IsHexDigit(s[i])
  {
    if s == [] then 0
    else base * NumeralValue(s[..|s| - 1], base) + HexDigitValue(s[|s| - 1])
  }

  /**
   * `parseInt` after the sign: read base 16 after "0x" or "0X" and base 10 otherwise, and
   * stop at the first character that is not a digit of that base. `None` is NaN: no digit.
   */
  function ParseUnsigned(unsigned: string): (r: Option<nat>)
    ensures r.Some? ==> unsigned != [] && Text.IsDigit(unsigned[0])
  {
    var hex := |unsigned| >= 2 && unsigned[0] == '0' && (unsigned[1] == 'x' || unsigned[1] == 'X');
    var body := if hex then unsigned[2..] else unsigned;
    var digits := if hex then PrefixWhile(body, IsHexDigit) else PrefixWhile(body, Text.IsDigit);
    if digits == [] then None
    else
      assert hex || digits[0] == unsigned[0];
      Some(NumeralValue(digits, if hex then 16 else 10))
  }

  /** `parseInt(text)`: skip leading whitespace, take an optional sign, read the numeral. */
  function ParseInt(text: string): (r: Option<int>)
    ensures r.Some? ==> exists i :: 0 <= i < |text| && Text.IsDigit(text[i])
  {
    var s := Text.TrimStart(text);
    TrimStartSuffix(text);
    var negative := s != [] && s[0] == '-';
    var unsigned := if s != [] && (s[0] == '-' || s[0] == '+') then s[1..] else s;
    match ParseUnsigned(unsigned)
    case None => None
    case Some(magnitude) =>
      assert unsigned[0] == text[|text| - |unsigned|];
      Some(if negative then -(magnitude as int) else magnitude)
  }

  lemma {:induction false} TrimStartSuffix(s: string)
    ensures |Text.TrimStart(s)| <= |s| && Text.TrimStart(s) == s[|s| - |Text.TrimStart(s)|..]
  {
    if s != [] && Text.IsWhitespace(s[0]) {
      TrimStartSuffix(s[1..]);
    }
  }

  /** Base ten agrees with the numerals `Text.DecimalString` writes. */
  lemma {:induction false} DecimalValueAgrees(s: string)
    requires Text.AllDigits(s)
    ensures NumeralValue(s, 10) == Text.DigitsValue(s)
  {
    if s != [] {
      DecimalValueAgrees(s[..|s| - 1]);
    }
  }

  lemma {:induction false} PrefixWhileAll(s: string, p: char -> bool)
    requires forall i :: 0 <= i < |s| ==> p(s[i])
    ensures PrefixWhile(s, p) == s
  {
    if s != [] {
      PrefixWhileAll(s[1..], p);
    }
  }

  /** The numeral `String(n)` writes reads back as `n`: it never looks like a "0x" prefix. */
  lemma UnsignedDecimalString(n: nat)
    ensures ParseUnsigned(Text.DecimalString(n)) == Some(n)
  {
    var d := Text.DecimalString(n);
    PrefixWhileAll(d, Text.IsDigit);
    DecimalValueAgrees(d);
  }

  /** Reading back what `String(n)` writes gives `n`: the number input round-trips. */
  lemma ParseDecimalString(n: nat)
    ensures ParseInt(Text.DecimalString(n)) == Some(n)
  {
    var s := Text.DecimalString(n);
    assert !Text.IsWhitespace(s[0]);
    assert Text.TrimStart(s) == s;
    UnsignedDecimalString(n);
  }

  /** A minus sign in front reads back as the negated number. */
  lemma ParseNegativeDecimalString(n: nat)
    ensures ParseInt("-" + Text.DecimalString(n)) == Some(-(n as int))
  {
    var s := "-" + Text.DecimalString(n);
    assert !Text.IsWhitespace(s[0]);
    assert Text.TrimStart(s) == s;
    assert s[1..] == Text.DecimalString(n);
    UnsignedDecimalString(n);
    assert ParseUnsigned(s[1..]) == Some(n);
  }

  /** `parseInt(String(i)) == i` for every integer. */
  lemma ParseIntString(i: int)
    ensures ParseInt(Text.IntString(i)) == Some(i)
  {
    if i < 0 {
      ParseNegativeDecimalString(-i);
    } else {
      ParseDecimalString(i);
    }
  }

  /** `parseInt(text) || 1`: NaN and 0 both become 1. */
  function ParsedOrOne(text: string): (r: int)
    ensures r != 0
    ensures ParseInt(text).Some? && ParseInt(text).value != 0 ==> r == ParseInt(text).value
    ensures ParseInt(text).None? ==> r == 1
    ensures ParseInt(text) == Some(0) ==> r == 1
  {
    match ParseInt(text)
    case None => 1
    case Some(v) => if v == 0 then 1 else v
  }

  /** `Math.min(Math.max(v, 1), max)` */
  function Clamp(v: int, max: int): (r: int)
    ensures r <= max
    ensures max >= 1 ==> 1 <= r
    ensures 1 <= v <= max ==> r == v
    ensures max >= 1 && v < 1 ==> r == 1
    ensures v > max ==> r == max
  {
    var atLeastOne := if v < 1 then 1 else v;
    if atLeastOne < max then atLeastOne else max
  }

  /** The number `handleChange` sets for the typed text. */
  function Typed(text: string, max: int): (r: int)
    ensures max >= 1 ==> 1 <= r <= max
  {
    Clamp(ParsedOrOne(text), max)
  }

  /** Typing a number already in range keeps it. */
  lemma TypedInRange(n: nat, max: int)
    requires 1 <= n <= max
    ensures Typed(Text.DecimalString(n), max) == n
  {
    ParseDecimalString(n);
  }

  /** With the default bound, typing a number above 99 shows 99. */
  lemma TypedAboveDefault(n: nat)
    requires n > DefaultMax
    ensures Typed(Text.DecimalString(n), DefaultMax) == DefaultMax
  {
    ParseDecimalString(n);
  }

  /** `useState(value || 1)`: a missing or zero value starts at 1. */
  function InitialQuantity(value: Option<int>): (r: int)
    ensures r != 0
    ensures value.Some? && value.value != 0 ==> r == value.value
    ensures value.None? || value.value == 0 ==> r == 1
  {
    if value.None? || value.value == 0 then 1 else value.value
  }

  /** What `handleIncrement` sets and reports, if anything. */
  function Incremented(quantity: int, max: int): (r: Option<int>)
    ensures r.Some? <==> quantity < max
    ensures r.Some? ==> r.value == quantity + 1 && r.value <= max
  {
    if quantity < max then Some(quantity + 1) else None
  }

  /** What `handleDecrement` sets and reports, if anything. */
  function Decremented(quantity: int): (r: Option<int>)
    ensures r.Some? <==> quantity > 1
    ensures r.Some? ==> r.value == quantity - 1 && r.value >= 1
  {
    if quantity > 1 then Some(quantity - 1) else None
  }

  /** Starting in [1, max], every handler's new number is in [1, max] too. */
  lemma StepsStayInRange(quantity: int, max: int, text: string)
    requires 1 <= quantity <= max
    ensures Incremented(quantity, max).Some? ==> 1 <= Incremented(quantity, max).value <= max
    ensures Decremented(quantity).Some? ==> 1 <= Decremented(quantity).value <= max
    ensures 1 <= Typed(text, max) <= max
  {
  }

  class Selector {
    const max: int
    /** The `value` prop: when present, it is what is shown. */
    const value: Option<int>
    /** Whether `onValueChange` was handed in; it then replaces the internal setter. */
    const hasSetter: bool
    var internal: int
    /** The numbers passed to `onValueChange`, oldest first. */
    var setterCalls: seq<int>
    /** The numbers passed to `onChange`, oldest first. */
    var reported: seq<int>

    constructor (max: int, value: Option<int>, hasSetter: bool)
      ensures this.max == max && this.value == value && this.hasSetter == hasSetter
      ensures internal == InitialQuantity(value) && setterCalls == [] && reported == []
    {
      this.max := max;
      this.value := value;
      this.hasSetter := hasSetter;
      internal := InitialQuantity(value);
      setterCalls := [];
      reported := [];
    }

    /** `quantity`: the controlled value when there is one, the internal one otherwise. */
    function Quantity(): int
      reads this
    {
      if value.Some? then value.value else internal
    }

    /** The selector keeps its own number in range (only it, not the parent, decides it). */
    predicate OwnsRange()
      reads this
    {
      value.None? && !hasSetter ==> 1 <= internal <= max
    }

    /** `setQuantity(n)` followed by `onChange(n)`. */
    method SetAndReport(n: int)
      modifies this
      ensures internal == if hasSetter then old(internal) else n
      ensures setterCalls == if hasSetter then old(setterCalls) + [n] else old(setterCalls)
      ensures reported == old(reported) + [n]
    {
      if hasSetter {
        setterCalls := setterCalls + [n];
      } else {
        internal := n;
      }
      reported := reported + [n];
    }

    method HandleIncrement()
      requires OwnsRange()
      modifies this
      ensures OwnsRange()
      ensures Incremented(old(Quantity()), max).Some? ==>
        reported == old(reported) + [Incremented(old(Quantity()), max).value]
      ensures Incremented(old(Quantity()), max).None? ==>
        reported == old(reported) && internal == old(internal) && setterCalls == old(setterCalls)
      ensures hasSetter ==> internal == old(internal)
      ensures !hasSetter && Incremented(old(Quantity()), max).Some? ==>
        internal == Incremented(old(Quantity()), max).value
      ensures setterCalls == if hasSetter && Incremented(old(Quantity()), max).Some? then old(setterCalls) + [Incremented(old(Quantity()), max).value]
                             else old(setterCalls)
    {
      var next := Incremented(Quantity(), max);
      if next.Some? {
        SetAndReport(next.value);
      }
    }

    method HandleDecrement()
      requires OwnsRange()
      modifies this
      ensures OwnsRange()
      ensures Decremented(old(Quantity())).Some? ==>
        reported == old(reported) + [Decremented(old(Quantity())).value]
      ensures Decremented(old(Quantity())).None? ==>
        reported == old(reported) && internal == old(internal) && setterCalls == old(setterCalls)
      ensures hasSetter ==> internal == old(internal)
      ensures !hasSetter && Decremented(old(Quantity())).Some? ==>
        internal == Decremented(old(Quantity())).value
      ensures setterCalls == if hasSetter && Decremented(old(Quantity())).Some? then old(setterCalls) + [Decremented(old(Quantity())).value]
                             else old(setterCalls)
    {
      var next := Decremented(Quantity());
      if next.Some? {
        SetAndReport(next.value);
      }
    }

    /** `handleChange` with the input's text: always sets and reports a number. */
    method HandleChange(text: string)
      requires max >= 1
      modifies this
      ensures OwnsRange()
      ensures reported == old(reported) + [Typed(text, max)]
      ensures internal == if hasSetter then old(internal) else Typed(text, max)
      ensures setterCalls == if hasSetter then old(setterCalls) + [Typed(text, max)] else old(setterCalls)
    {
      var val := ParsedOrOne(text);
      var newQuantity := Clamp(val, max);
      SetAndReport(newQuantity);
    }
  }
}
