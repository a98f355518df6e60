/**
 * The confirmation page: an order number fixed when the page mounts, a one-time receipt
 * snapshot of the cart, the clearing of the cart once the snapshot exists, the checkout
 * details read back from local storage, and the finish button that forgets them.
 */
module OrderConfirmation {
  import opened Wrappers
  import Text
  import Browser
  import CartContext
  import OrderSummary

  // ---- the order number ----

  /** `Math.floor(Math.random() * 1000)` for a draw in [0, 1). */
  function RandomSuffix(random: real): (n: nat)
    requires 0.0 <= random < 1.0
    ensures n < 1000
    ensures n as real <= random * 1000.0 < n as real + 1.0
  {
    (random * 1000.0).Floor
  }

  /** `ML-${Date.now()}-${suffix}`, with the clock reading and the draw as parameters. */
  function OrderNumber(now: nat, random: real): string
    requires 0.0 <= random < 1.0
  {
    "ML-" + Text.DecimalString(now) + "-" + Text.DecimalString(RandomSuffix(random))
  }

  /** The suffix is written with at most three digits. */
  lemma SuffixDigits(random: real)
    requires 0.0 <= random < 1.0
    ensures 1 <= |Text.DecimalString(RandomSuffix(random))| <= 3
  {
    var n := RandomSuffix(random);
    if n >= 10 {
      assert Text.DecimalString(n) == Text.DecimalString(n / 10) + [Text.DigitChar(n % 10)];
      if n / 10 >= 10 {
        assert Text.DecimalString(n / 10) == Text.DecimalString(n / 10 / 10) + [Text.DigitChar(n / 10 % 10)];
        assert n / 10 / 10 < 10;
      }
    }
  }

  /** A dash cannot be a decimal digit, so the two numerals are read back unambiguously. */
  lemma {:induction false} SplitAtDashes(a: string, b: string, c: string, d: string)
    requires Text.AllDigits(a) && Text.AllDigits(c)
    ensures "ML-" + a + "-" + b == "ML-" + c + "-" + d <==> a == c && b == d
  {
    var l := "ML-" + a + "-" + b;
    var r := "ML-" + c + "-" + d;
    if |a| < |c| {
      assert l[3 + |a|] == '-' && r[3 + |a|] == c[|a|];
      assert l[3 + |a|] != r[3 + |a|];
    } else if |c| < |a| {
      assert r[3 + |c|] == '-' && l[3 + |c|] == a[|c|];
      assert l[3 + |c|] != r[3 + |c|];
    } else if l == r {
      assert a == l[3..3 + |a|] && c == r[3..3 + |c|];
      assert b == l[4 + |a|..] && d == r[4 + |c|..];
    }
  }

  /** Two order numbers are equal exactly when both the clock reading and the suffix agree. */
  lemma OrderNumberInjective(now1: nat, random1: real, now2: nat, random2: real)
    requires 0.0 <= random1 < 1.0 && 0.0 <= random2 < 1.0
    ensures OrderNumber(now1, random1) == OrderNumber(now2, random2)
            <==> now1 == now2 && RandomSuffix(random1) == RandomSuffix(random2)
  {
    var n1, n2 := RandomSuffix(random1), RandomSuffix(random2);
    SplitAtDashes(Text.DecimalString(now1), Text.DecimalString(n1),
                  Text.DecimalString(now2), Text.DecimalString(n2));
    if Text.DecimalString(now1) == Text.DecimalString(now2) {
      Text.DecimalStringInjective(now1, now2);
    }
    if Text.DecimalString(n1) == Text.DecimalString(n2) {
      Text.DecimalStringInjective(n1, n2);
    }
  }

  // ---- the receipt snapshot ----

  datatype Snapshot = Snapshot(items: seq<CartContext.Line>, subtotal: real, shipping: real,
                               taxes: real, total: real)

  /** The receipt: 8% tax on the undiscounted subtotal and the cart's own shipping. */
  function TakeSnapshot(items: seq<CartContext.Line>): (r: Snapshot)
    ensures r.items == items
    ensures r.subtotal == CartContext.Subtotal(items) && r.shipping == CartContext.Shipping(items)
    ensures r.total == r.subtotal * 1.08 + r.shipping
  {
    var subtotal := CartContext.Subtotal(items);
    var shipping := CartContext.Shipping(items);
    var taxes := subtotal * 0.08;
    Snapshot(items, subtotal, shipping, taxes, subtotal + shipping + taxes)
  }

  /** The receipt agrees with the order summary as it reads with no code applied. */
  lemma SnapshotIsUndiscountedSummary(items: seq<CartContext.Line>)
    ensures var s, t := TakeSnapshot(items), OrderSummary.Summarize(items, None);
      s.subtotal == t.subtotal && s.shipping == t.shipping && s.taxes == t.taxes && s.total == t.total
  {
  }

  /**
   * Discounts are not carried over: for a non-negative subtotal the receipt total is never
   * below the summary total, whichever table code was applied there.
   */
  lemma SnapshotIgnoresDiscount(items: seq<CartContext.Line>, applied: Option<OrderSummary.Discount>)
    requires CartContext.Subtotal(items) >= 0.0 && OrderSummary.FromTable(applied)
    ensures OrderSummary.Summarize(items, applied).total <= TakeSnapshot(items).total
    ensures applied.Some? && applied.value.kind == OrderSummary.Percentage && CartContext.Subtotal(items) > 0.0
      ==> OrderSummary.Summarize(items, applied).total < TakeSnapshot(items).total
  {
    OrderSummary.DiscountBounds(CartContext.Subtotal(items), applied);
    if applied.Some? && applied.value.kind == OrderSummary.FreeShipping {
      OrderSummary.FreeShippingZeroes(items, applied);
    } else if applied.Some? {
      OrderSummary.PercentageSaves(items, applied);
    }
  }

  // ---- the checkout details handed over in local storage ----

  const ShippingKey := "checkoutShipping"
  const PaymentKey := "checkoutPayment"

  /**
   * `JSON.parse(localStorage.getItem('checkoutShipping') || '{}')`: nothing stored, or the
   * empty string, reads as the empty record. `None` is a value the page cannot show: a
   * stored `null` (reading a field of it throws) or a raw string, whose parse is not modelled.
   */
  function ShippingInfo(saved: Option<Browser.Value>): (r: Option<map<string, string>>)
    ensures saved.None? ==> r == Some(map[])
    ensures saved.Some? && saved.value.Record? ==> r == Some(saved.value.fields)
    ensures r.None? <==> saved.Some? && (saved.value.JsonNull? || (saved.value.Raw? && saved.value.text != ""))
  {
    match saved
    case None => Some(map[])
    case Some(Raw(text)) => if text == "" then Some(map[]) else None
    case Some(Record(fields)) => Some(fields)
    case Some(JsonNull) => None
  }

  /**
   * `localStorage.getItem('checkoutPayment') || 'card'`: "card" when nothing (or "") is
   * stored; `None` for a record, whose JSON text is not modelled.
   */
  function PaymentShown(saved: Option<Browser.Value>): (r: Option<string>)
    ensures saved.None? ==> r == Some("card")
    ensures saved.Some? && saved.value.Raw? ==>
      r == Some(if saved.value.text == "" then "card" else saved.value.text)
    ensures r.Some? ==> r.value != ""
  {
    match saved
    case None => Some("card")
    case Some(Raw(text)) => Some(if text == "" then "card" else text)
    case Some(_) => None
  }

  /** What `handleFinish` leaves in storage: everything but the two checkout keys. */
  function WithoutCheckoutKeys(entries: map<string, Browser.Value>): (r: map<string, Browser.Value>)
    ensures ShippingKey !in r && PaymentKey !in r
    ensures forall k :: k in entries && k != ShippingKey && k != PaymentKey ==> k in r && r[k] == entries[k]
    ensures forall k :: k in r ==> k in entries
  {
    entries - {ShippingKey, PaymentKey}
  }

  // ---- the page ----

  class ConfirmationPage {
    /** Drawn once, when the page mounts. */
    const orderNumber: string
    /** `orderSummary`: `None` until the snapshot is taken. */
    var summary: Option<Snapshot>

    constructor (now: nat, random: real)
      requires 0.0 <= random < 1.0
      ensures orderNumber == OrderNumber(now, random) && summary.None?
    {
      orderNumber := OrderNumber(now, random);
      summary := None;
    }

    /** The snapshot effect: it fires only for a non-empty cart and only while there is no snapshot. */
    method CaptureSnapshot(cart: CartContext.CartStore)
      modifies this
      ensures old(summary).None? && |cart.items| > 0 ==> summary == Some(TakeSnapshot(cart.items))
      ensures old(summary).Some? || |cart.items| == 0 ==> summary == old(summary)
    {
      if |cart.items| > 0 && summary.None? {
        summary := Some(TakeSnapshot(cart.items));
      }
    }

    /** The clearing effect: the cart is emptied once a snapshot exists, and only then. */
    method ClearAfterSnapshot(cart: CartContext.CartStore)
      requires cart.Valid()
      modifies cart
      ensures cart.Valid()
      ensures summary.Some? ==> cart.items == []
      ensures summary.None? ==> cart.items == old(cart.items)
    {
      if summary.Some? {
        cart.ClearCart();
      }
    }

    /**
     * Both effects in order. The receipt keeps a copy of the lines: clearing the cart
     * afterwards leaves it as it was taken, and a second round leaves it alone.
     */
    method Settle(cart: CartContext.CartStore)
      requires cart.Valid()
      modifies this, cart
      ensures cart.Valid()
      ensures old(summary).None? && old(|cart.items|) > 0 ==>
        summary == Some(TakeSnapshot(old(cart.items))) && cart.items == []
      ensures old(summary).Some? ==> summary == old(summary) && cart.items == []
      ensures old(summary).None? && old(|cart.items|) == 0 ==> summary.None? && cart.items == []
    {
      CaptureSnapshot(cart);
      ClearAfterSnapshot(cart);
    }

    /** `handleFinish`: forget the checkout details, then go to the home page. */
    method HandleFinish(storage: Browser.Storage) returns (href: string)
      modifies storage
      ensures storage.entries == WithoutCheckoutKeys(old(storage.entries))
      ensures href == "/"
    {
      storage.RemoveItem(ShippingKey);
      storage.RemoveItem(PaymentKey);
      href := "/";
    }
  }
}
