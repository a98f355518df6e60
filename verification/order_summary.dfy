/**
 * The order summary beside the checkout forms: a fixed table of discount codes, the
 * code the shopper types and applies, and the shipping, discount, tax and total shown
 * for the current cart.
 */
module OrderSummary {
  import opened Wrappers
  import Text
  import CartContext

  datatype Kind = Percentage | FreeShipping

  /** An entry of the code table, together with the code it was found under. */
  datatype Discount = Discount(code: string, kind: Kind, value: int, description: string)

  /** The `discountCodes` table, looked up by the upper-cased code. */
  function Lookup(code: string): (r: Option<Discount>)
    ensures r.Some? ==> r.value.code == code && 0 <= r.value.value <= 100
  {
    if code == "DESC10" then Some(Discount(code, Percentage, 10, "10% de descuento"))
    else if code == "DESC20" then Some(Discount(code, Percentage, 20, "20% de descuento"))
    else if code == "ENVIOGRATIS" then Some(Discount(code, FreeShipping, 0, "Envío gratis"))
    else None
  }

  /** A state of `appliedDiscount`: nothing, or an entry taken from the table. */
  predicate FromTable(applied: Option<Discount>) {
    applied.None? || Lookup(applied.value.code) == applied
  }

  const TaxRate: real := 0.08

  /** `discountAmount`: a percentage of the subtotal for a percentage code, 0 otherwise. */
  function DiscountAmount(subtotal: real, applied: Option<Discount>): real {
    if applied.Some? && applied.value.kind == Percentage then subtotal * (applied.value.value as real / 100.0)
    else 0.0
  }

  /** `shipping`: free under the shipping code, the cart's own shipping otherwise. */
  function SummaryShipping(items: seq<CartContext.Line>, applied: Option<Discount>): real {
    if applied.Some? && applied.value.kind == FreeShipping then 0.0 else CartContext.Shipping(items)
  }

  datatype Totals = Totals(subtotal: real, shipping: real, discount: real, taxes: real, total: real)

  /** The figures the summary shows for `items` with `applied` in force. */
  function Summarize(items: seq<CartContext.Line>, applied: Option<Discount>): (r: Totals)
    ensures r.subtotal == CartContext.Subtotal(items)
    ensures r.taxes == TaxRate * (r.subtotal - r.discount)
    ensures r.total == (r.subtotal - r.discount) * 1.08 + r.shipping
  {
    var subtotal := CartContext.Subtotal(items);
    var shipping := SummaryShipping(items, applied);
    var discount := DiscountAmount(subtotal, applied);
    var taxes := (subtotal - discount) * TaxRate;
    Totals(subtotal, shipping, discount, taxes, subtotal - discount + shipping + taxes)
  }

  // ---- properties of the table and the arithmetic ----

  /** The table holds exactly three codes: two percentages and the free-shipping code. */
  lemma CodeTable(code: string)
    ensures Lookup(code).Some? <==> code == "DESC10" || code == "DESC20" || code == "ENVIOGRATIS"
    ensures Lookup(code).Some? && Lookup(code).value.kind == Percentage <==>
      code == "DESC10" || code == "DESC20"
    ensures code == "DESC10" ==> Lookup(code).value.value == 10
    ensures code == "DESC20" ==> Lookup(code).value.value == 20
  {
  }

  /** Codes are matched after upper-casing, so "desc10" applies DESC10. */
  lemma LowerCaseCodeApplies()
    ensures Lookup(Text.ToUpper("desc10")) == Some(Discount("DESC10", Percentage, 10, "10% de descuento"))
  {
    assert Text.ToUpper("desc10") == "DESC10";
  }

  /** For a non-negative subtotal and a table entry, the discount lies between 0 and the subtotal. */
  lemma DiscountBounds(subtotal: real, applied: Option<Discount>)
    requires subtotal >= 0.0 && FromTable(applied)
    ensures 0.0 <= DiscountAmount(subtotal, applied) <= subtotal
  {
  }

  /** Only a percentage code discounts; with none applied the summary charges the cart's own shipping. */
  lemma NoCodeNoDiscount(items: seq<CartContext.Line>, applied: Option<Discount>)
    requires applied.None? || applied.value.kind == FreeShipping
    ensures Summarize(items, applied).discount == 0.0
    ensures applied.None? ==> Summarize(items, applied).shipping == CartContext.Shipping(items)
  {
  }

  /** The free-shipping code zeroes shipping whatever the subtotal, and saves exactly the cart's fee. */
  lemma FreeShippingZeroes(items: seq<CartContext.Line>, applied: Option<Discount>)
    requires applied.Some? && applied.value.kind == FreeShipping
    ensures Summarize(items, applied).shipping == 0.0
    ensures Summarize(items, applied).total == Summarize(items, None).total - CartContext.Shipping(items)
  {
  }

  /** A percentage code keeps the cart's shipping and lowers the total by 1.08 times the discount. */
  lemma PercentageSaves(items: seq<CartContext.Line>, applied: Option<Discount>)
    requires applied.Some? && applied.value.kind == Percentage
    ensures Summarize(items, applied).shipping == CartContext.Shipping(items)
    ensures Summarize(items, applied).total
            == Summarize(items, None).total - 1.08 * Summarize(items, applied).discount
  {
  }

  /** DESC10 on a subtotal of 100: discount 10, taxable 90, tax 7.2, free shipping, total 97.2. */
  lemma Desc10OnHundred(items: seq<CartContext.Line>)
    requires CartContext.Subtotal(items) == 100.0
    ensures var t := Summarize(items, Lookup("DESC10"));
      t.discount == 10.0 && t.subtotal - t.discount == 90.0 && t.taxes == 7.2
      && t.shipping == 0.0 && t.total == 97.2
  {
  }

  /** For a non-negative subtotal, DESC20 never costs more than DESC10, nor DESC10 more than no code. */
  lemma LargerCodeCheaper(items: seq<CartContext.Line>)
    requires CartContext.Subtotal(items) >= 0.0
    ensures Summarize(items, Lookup("DESC20")).total <= Summarize(items, Lookup("DESC10")).total
    ensures Summarize(items, Lookup("DESC10")).total <= Summarize(items, None).total
  {
  }

  // ---- the code input and its two buttons ----

  class DiscountForm {
    /** The text in the code input. */
    var discountCode: string
    var applied: Option<Discount>

    /** An applied code is the table's entry for the upper-cased text still in the input. */
    predicate Valid()
      reads this
    {
      FromTable(applied) && (applied.Some? ==> applied.value.code == Text.ToUpper(discountCode))
    }

    constructor ()
      ensures Valid() && discountCode == "" && applied.None?
    {
      discountCode := "";
      applied := None;
    }

    /** Typing in the input; it is disabled while a code is applied. */
    method TypeCode(s: string)
      requires Valid()
      modifies this
      ensures Valid()
      ensures applied == old(applied)
      ensures discountCode == if old(applied).None? then s else old(discountCode)
    {
      if applied.None? {
        discountCode := s;
      }
    }

    /** `handleApplyDiscount`; `rejected` is the "invalid code" alert, which changes nothing. */
    method HandleApplyDiscount() returns (rejected: bool)
      requires Valid()
      modifies this
      ensures Valid()
      ensures discountCode == old(discountCode)
      ensures rejected <==> Lookup(Text.ToUpper(discountCode)).None?
      ensures applied == if rejected then old(applied) else Lookup(Text.ToUpper(discountCode))
    {
      var code := Text.ToUpper(discountCode);
      var entry := Lookup(code);
      if entry.Some? {
        applied := entry;
        rejected := false;
      } else {
        rejected := true;
      }
    }

    /** `handleRemoveDiscount`: both the applied code and the typed text are cleared. */
    method HandleRemoveDiscount()
      modifies this
      ensures Valid()
      ensures applied.None? && discountCode == ""
    {
      applied := None;
      discountCode := "";
    }

    /** The one button beside the input: "Aplicar" while nothing is applied, "Quitar" after. */
    method PressButton() returns (rejected: bool)
      requires Valid()
      modifies this
      ensures Valid()
      ensures old(applied).Some? ==> !rejected && applied.None? && discountCode == ""
      ensures old(applied).None? ==> discountCode == old(discountCode)
      ensures old(applied).None? ==> (rejected <==> applied.None?)
    {
      if applied.None? {
        rejected := HandleApplyDiscount();
      } else {
        HandleRemoveDiscount();
        rejected := false;
      }
    }
  }
}
