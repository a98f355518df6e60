/**
 * The checkout page: three accordion sections of which at most one is open, the two
 * validity flags reported by the shipping and payment forms, the continue button they
 * gate, and the hand-over of the checkout details to the confirmation page through
 * local storage.
 */
module CheckoutPage {
  import opened Wrappers
  import Browser
  import CartContext
  import OrderConfirmation

  /** `handleSectionToggle(section)`: close it if it is the open one, open it otherwise. */
  function Toggle(open: Option<int>, section: int): (r: Option<int>)
    ensures r == Some(section) <==> open != Some(section)
    ensures r.None? <==> open == Some(section)
  {
    if open == Some(section) then None else Some(section)
  }

  /** Toggling the same section twice restores it when it was open, and closes everything otherwise. */
  lemma ToggleTwice(open: Option<int>, section: int)
    ensures Toggle(Toggle(open, section), section) == if open == Some(section) then open else None
  {
  }

  datatype Outcome = Reopen(section: int) | Navigate

  /** `handleContinue`: shipping is checked first, then payment. */
  function Continue(shippingValid: bool, paymentValid: bool): (r: Outcome)
    ensures r == Navigate <==> shippingValid && paymentValid
    ensures !shippingValid ==> r == Reopen(1)
    ensures shippingValid && !paymentValid ==> r == Reopen(2)
  {
    if !shippingValid then Reopen(1) else if !paymentValid then Reopen(2) else Navigate
  }

  /** `disabled={!isShippingValid || !isPaymentValid}` */
  predicate ContinueDisabled(shippingValid: bool, paymentValid: bool) {
    !shippingValid || !paymentValid
  }

  const BothMissing := "Por favor completa la información de envío y pago"
  const ShippingMissing := "Por favor completa la información de envío"
  const PaymentMissing := "Por favor completa la información de pago"

  /** The warnings under the button, in the order the page lists its three conditions. */
  function Warnings(shippingValid: bool, paymentValid: bool): seq<string> {
    (if !shippingValid && !paymentValid then [BothMissing] else [])
    + (if !shippingValid && paymentValid then [ShippingMissing] else [])
    + (if shippingValid && !paymentValid then [PaymentMissing] else [])
  }

  /** Exactly one warning shows while the button is disabled, and none once it is enabled. */
  lemma OneWarningWhileDisabled(shippingValid: bool, paymentValid: bool)
    ensures |Warnings(shippingValid, paymentValid)| <= 1
    ensures |Warnings(shippingValid, paymentValid)| == 1 <==> ContinueDisabled(shippingValid, paymentValid)
    ensures !ContinueDisabled(shippingValid, paymentValid) ==> Warnings(shippingValid, paymentValid) == []
    ensures !shippingValid && !paymentValid ==> Warnings(shippingValid, paymentValid) == [BothMissing]
  {
  }

  /** The button is disabled exactly when pressing it would not navigate. */
  lemma DisabledIffNoNavigation(shippingValid: bool, paymentValid: bool)
    ensures ContinueDisabled(shippingValid, paymentValid) <==> Continue(shippingValid, paymentValid) != Navigate
  {
  }

  /** What the two `setItem` calls make of storage. */
  function SaveCheckout(entries: map<string, Browser.Value>, shippingData: Option<map<string, string>>,
                        paymentMethod: string): map<string, Browser.Value>
  {
    var shipping := if shippingData.Some? then Browser.Record(shippingData.value) else Browser.JsonNull;
    entries[OrderConfirmation.ShippingKey := shipping][OrderConfirmation.PaymentKey := Browser.Raw(paymentMethod)]
  }

  /**
   * The confirmation page reads back what the checkout page saved: the shipping record and
   * the chosen method. A shipping record that was never filled in is saved as `null`,
   * which the confirmation page cannot show.
   */
  lemma HandOff(entries: map<string, Browser.Value>, shippingData: Option<map<string, string>>,
                paymentMethod: string)
    requires paymentMethod != ""
    ensures var saved := SaveCheckout(entries, shippingData, paymentMethod);
      OrderConfirmation.ShippingInfo(Browser.Lookup(saved, OrderConfirmation.ShippingKey)) == shippingData
      && OrderConfirmation.PaymentShown(Browser.Lookup(saved, OrderConfirmation.PaymentKey)) == Some(paymentMethod)
  {
  }

  /** Saving leaves every other key of storage as it was. */
  lemma SaveKeepsOthers(entries: map<string, Browser.Value>, shippingData: Option<map<string, string>>,
                        paymentMethod: string, k: string)
    requires k != OrderConfirmation.ShippingKey && k != OrderConfirmation.PaymentKey
    ensures Browser.Lookup(SaveCheckout(entries, shippingData, paymentMethod), k) == Browser.Lookup(entries, k)
  {
  }

  class Page {
    /** `openSection`, `None` being `null`. */
    var openSection: Option<int>
    var shippingData: Option<map<string, string>>
    var paymentMethod: string
    var isShippingValid: bool
    var isPaymentValid: bool
    /** Where `window.location.href` was last sent, if anywhere. */
    var location: Option<string>

    constructor ()
      ensures openSection == Some(1) && shippingData.None? && paymentMethod == "card"
      ensures !isShippingValid && !isPaymentValid && location.None?
    {
      openSection := Some(1);
      shippingData := None;
      paymentMethod := "card";
      isShippingValid := false;
      isPaymentValid := false;
      location := None;
    }

    /** The redirect effect: an empty cart sends the shopper back to the cart page. */
    method RedirectIfEmpty(cart: CartContext.CartStore)
      modifies this
      ensures location == if |cart.items| == 0 then Some("/carrito") else old(location)
      ensures openSection == old(openSection) && shippingData == old(shippingData)
      ensures paymentMethod == old(paymentMethod)
      ensures isShippingValid == old(isShippingValid) && isPaymentValid == old(isPaymentValid)
    {
      if |cart.items| == 0 {
        location := Some("/carrito");
      }
    }

    method HandleSectionToggle(section: int)
      modifies this
      ensures openSection == Toggle(old(openSection), section)
      ensures shippingData == old(shippingData) && paymentMethod == old(paymentMethod)
      ensures isShippingValid == old(isShippingValid) && isPaymentValid == old(isPaymentValid)
      ensures location == old(location)
    {
      openSection := if openSection == Some(section) then None else Some(section);
    }

    /** The four callbacks the two forms are given. */
    method SetShippingData(data: map<string, string>)
      modifies this
      ensures shippingData == Some(data)
      ensures openSection == old(openSection) && paymentMethod == old(paymentMethod)
      ensures isShippingValid == old(isShippingValid) && isPaymentValid == old(isPaymentValid)
      ensures location == old(location)
    {
      shippingData := Some(data);
    }

    method SetPaymentMethod(id: string)
      modifies this
      ensures paymentMethod == id
      ensures openSection == old(openSection) && shippingData == old(shippingData)
      ensures isShippingValid == old(isShippingValid) && isPaymentValid == old(isPaymentValid)
      ensures location == old(location)
    {
      paymentMethod := id;
    }

    method SetValidity(shippingValid: bool, paymentValid: bool)
      modifies this
      ensures isShippingValid == shippingValid && isPaymentValid == paymentValid
      ensures openSection == old(openSection) && shippingData == old(shippingData)
      ensures paymentMethod == old(paymentMethod) && location == old(location)
    {
      isShippingValid := shippingValid;
      isPaymentValid := paymentValid;
    }

    /**
     * `handleContinue`: reopen the first incomplete section, or save the details and go to
     * the confirmation page. Storage is written only when both forms are valid.
     */
    method HandleContinue(storage: Browser.Storage)
      modifies this, storage
      ensures Continue(isShippingValid, isPaymentValid) == Navigate ==>
        storage.entries == SaveCheckout(old(storage.entries), shippingData, paymentMethod)
        && location == Some("/confirmacion") && openSection == old(openSection)
      ensures Continue(isShippingValid, isPaymentValid) != Navigate ==>
        storage.entries == old(storage.entries) && location == old(location)
        && openSection == Some(Continue(isShippingValid, isPaymentValid).section)
      ensures shippingData == old(shippingData) && paymentMethod == old(paymentMethod)
      ensures isShippingValid == old(isShippingValid) && isPaymentValid == old(isPaymentValid)
    {
      if !isShippingValid {
        openSection := Some(1);
        return;
      }
      if !isPaymentValid {
        openSection := Some(2);
        return;
      }
      var shipping := if shippingData.Some? then Browser.Record(shippingData.value) else Browser.JsonNull;
      storage.SetItem(OrderConfirmation.ShippingKey, shipping);
      storage.SetItem(OrderConfirmation.PaymentKey, Browser.Raw(paymentMethod));
      location := Some("/confirmacion");
    }
  }
}
