# Mercado Libro storefront: cart, checkout and admin logic in Dafny

This project models the client-side logic of the Mercado Libro bookshop, a React
storefront with a small admin page. It covers:

- **the cart context.** Lines are kept unique by book id. Adding an existing book raises that
  line's quantity; removing and updating keep the order of the other lines. The context
  also computes item count, subtotal, flat shipping (free strictly above 50) and total, and
  mirrors the cart in local storage.
- **the order summary.** It holds the three discount codes, their apply and remove handlers,
  and the discount, 8 % tax and total computation.
- **the confirmation page.** It builds the order number from the clock and a random draw,
  takes a one-time snapshot of the cart before clearing it, reads the shipping record and
  payment method that the checkout page stored, and clears them when the shopper finishes.
- **the checkout page.** It has the accordion toggle, the continue gate (shipping checked
  before payment), the warnings under the button and the empty-cart redirect.
- **the two checkout forms.**
  - Payment: card-number grouping, MM/YY expiry, CVV, and the per-method validity rule.
  - Shipping: the e-mail regex, the 5-digit postal code, and error priority on blur.
- **the registration form.** `handleSubmit` runs two checks in a fixed order before it sends
  the request; `handleChange` writes one field.
- **the bounded controls.**
  - The quantity selector (JavaScript `parseInt`, clamped to `[1, max]`).
  - The cart line's +/− buttons, guarded by stock and by 1.
  - The book carousel, which scrolls four cards at a time within `[0, len − 4]`.
- **the admin dashboard.** It has the search and stock filter, the stock statistics, and the
  edit form with its field handlers.

Modules follow the source files: `CartContext`, `OrderSummary`, `OrderConfirmation`,
`CheckoutPage`, `PaymentMethod`, `ShippingForm`, `RegisterForm`, `QuantitySelector`,
`CartItem`, `BookCarousel` and `AdminDashboard`. They rest on these helpers:

- `Wrappers` (Option/Result);
- `Seqs` (an order-preserving filter and its lemmas);
- `Text` (the ECMAScript whitespace class, trim, ASCII case, decimal strings, the e-mail
  regex);
- `Browser` (local storage as a key/value map).

Where a React component mutates state, it is a `class` whose methods say what the new state
is. The pure computations are functions, and lemmas prove properties about them.

Modelling conventions:

- Money is an exact `real`.
- The admin price is kept in integer cents, so that its `toString` can be written out.
- `Date.now()`, `Math.random()` and the server's reply to the registration request are
  parameters.
- `JSON.stringify`/`JSON.parse` of a record is kept structural: a record that is written is
  read back unchanged.

## Model

| member | source | states |
|---|---|---|
| CartContext.NewLine | Frontend/src/contexts/CartContext.jsx:37-40 | a new line copies the book's id, price and stock and carries the added quantity |
| CartContext.AddLine | Frontend/src/contexts/CartContext.jsx:26-42 | the book's id is present afterwards; the length grows by one exactly when the id was absent; no other id appears or disappears |
| CartContext.AddExisting | Frontend/src/contexts/CartContext.jsx:28-36 | with unique ids and the id at index k, only line k changes, to quantity old + added; length and order unchanged |
| CartContext.AddAbsent | Frontend/src/contexts/CartContext.jsx:37-40 | an absent id appends exactly one new line at the end |
| CartContext.AddKeepsUnique | Frontend/src/contexts/CartContext.jsx:26-42 | adding preserves unique ids |
| CartContext.AddAllToLast | Frontend/src/contexts/CartContext.jsx:28-36 | repeated adds to the line at the end sum their amounts into that line |
| CartContext.RepeatedAdds | Frontend/src/contexts/CartContext.jsx:26-42 | repeated adds of an absent id leave one new line at the end whose quantity is the sum of the amounts |
| CartContext.RemoveKeepsOthers | Frontend/src/contexts/CartContext.jsx:45-47 | after removal the id is gone, every other line stays, and the result is a subsequence (order kept) |
| CartContext.RemoveAbsent | Frontend/src/contexts/CartContext.jsx:45-47 | removing an absent id changes nothing |
| CartContext.RemovePresent | Frontend/src/contexts/CartContext.jsx:45-47 | with unique ids, removing line k's id drops exactly line k |
| CartContext.RemoveKeepsUnique | Frontend/src/contexts/CartContext.jsx:45-47 | removal preserves unique ids |
| CartContext.SetQuantity | Frontend/src/contexts/CartContext.jsx:54-61 | the mapped quantity update keeps the length and every line's id in place |
| CartContext.UpdateToZeroRemoves | Frontend/src/contexts/CartContext.jsx:50-53 | a quantity of 0 or less is a removal |
| CartContext.UpdatePositive | Frontend/src/contexts/CartContext.jsx:54-61 | a positive quantity sets line k's quantity and leaves every other line unchanged |
| CartContext.UpdateKeepsUnique | Frontend/src/contexts/CartContext.jsx:50-62 | updating preserves unique ids |
| CartContext.TotalItemsAppend | Frontend/src/contexts/CartContext.jsx:70-72 | the item count is additive over concatenation |
| CartContext.SubtotalAppend | Frontend/src/contexts/CartContext.jsx:75-77 | the subtotal is additive over concatenation |
| CartContext.SubtotalAround | Frontend/src/contexts/CartContext.jsx:70-77 | count and subtotal split around any line |
| CartContext.AddExistingTotals | Frontend/src/contexts/CartContext.jsx:28-36 | adding to an existing line raises the count by the amount and the subtotal by price × amount |
| CartContext.AddTotals | Frontend/src/contexts/CartContext.jsx:26-42 | any add raises the count by the amount, and the subtotal by the book's (new line) or the line's (existing) price × amount |
| CartContext.UpdateSubtotal | Frontend/src/contexts/CartContext.jsx:54-61 | a positive update changes subtotal and count by the quantity difference of that line |
| CartContext.ChangeOneTotals | Frontend/src/contexts/CartContext.jsx:70-77 | two carts that differ only in one line's quantity, by d, differ in count by d and in subtotal by that price × d |
| CartContext.SubtotalNonNegative | Frontend/src/contexts/CartContext.jsx:75-77 | non-negative prices and quantities give a non-negative subtotal |
| CartContext.Shipping | Frontend/src/contexts/CartContext.jsx:80-83 | shipping is 0 exactly when the subtotal is above 50, else 5 |
| CartContext.EmptyCartTotals | Frontend/src/contexts/CartContext.jsx:70-88 | an empty cart counts 0 items, subtotal 0, and still pays 5 shipping (total 5) |
| CartContext.ShippingThresholdIsStrict | Frontend/src/contexts/CartContext.jsx:80-88 | exactly 50 still pays shipping (total 55); above 50 the total is the subtotal |
| CartContext.UniqueCons | Frontend/src/contexts/CartContext.jsx:26-42 | ids of `x :: t` are unique iff x's id is not in t and t's ids are unique |
| CartContext.OthersDiffer | Frontend/src/contexts/CartContext.jsx:28-36 | with unique ids, no line before or after index k shares its id |
| CartContext.CartStore.Load | Frontend/src/contexts/CartContext.jsx:8-18 | a saved list is restored; nothing saved or unparsable data gives an empty cart |
| CartContext.CartStore.AddToCart | Frontend/src/contexts/CartContext.jsx:26-42 | the cart becomes AddLine of the old cart, is saved, and keeps unique ids (the quantity is always passed) |
| CartContext.CartStore.RemoveFromCart | Frontend/src/contexts/CartContext.jsx:45-47 | the cart becomes RemoveLine of the old cart, is saved, and keeps unique ids |
| CartContext.CartStore.UpdateQuantity | Frontend/src/contexts/CartContext.jsx:50-62 | the cart becomes UpdateLine of the old cart, is saved, and keeps unique ids |
| CartContext.CartStore.ClearCart | Frontend/src/contexts/CartContext.jsx:65-67 | the cart and its saved copy are empty |
| CartContext.ReloadRestores | Frontend/src/contexts/CartContext.jsx:8-23 | loading what the save effect stored gives back the current cart |
| CartItem.DisabledMeansNoOp | Frontend/src/components/CartItem.jsx:10-20 | when a button is disabled (quantity ≤ 1, or quantity ≥ stock) its handler changes nothing |
| CartItem.DecrementNeverRemoves | Frontend/src/components/CartItem.jsx:16-20 | the − button never removes a line: length and ids are kept |
| CartItem.ControlStep | Frontend/src/components/CartItem.jsx:10-20 | a +/− press changes only that line's quantity, by exactly one when enabled |
| CartItem.ControlsStayInRange | Frontend/src/components/CartItem.jsx:10-20 | quantities in [1, stock] stay in [1, stock] after any press |
| CartItem.HandleIncrement | Frontend/src/components/CartItem.jsx:10-14 | the cart becomes Increment of the old cart |
| CartItem.HandleDecrement | Frontend/src/components/CartItem.jsx:16-20 | the cart becomes Decrement of the old cart |
| CartItem.HandleRemove | Frontend/src/components/CartItem.jsx:71 | the line's id is removed from the cart |
| OrderSummary.Lookup | Frontend/src/components/OrderSummary.jsx:9-13 | a table hit carries the code it was looked up by and a value in 0..100 |
| OrderSummary.CodeTable | Frontend/src/components/OrderSummary.jsx:9-13 | exactly DESC10, DESC20 and ENVIOGRATIS are codes; the first two are percentages of 10 and 20 |
| OrderSummary.LowerCaseCodeApplies | Frontend/src/components/OrderSummary.jsx:32-39 | a code typed in lower case is upper-cased and found |
| OrderSummary.Summarize | Frontend/src/components/OrderSummary.jsx:16-30 | subtotal from the cart; taxes 8 % of subtotal − discount; total (subtotal − discount) × 1.08 + shipping |
| OrderSummary.DiscountBounds | Frontend/src/components/OrderSummary.jsx:19-22 | a table discount lies between 0 and the subtotal |
| OrderSummary.NoCodeNoDiscount | Frontend/src/components/OrderSummary.jsx:16-22 | with no code or the shipping code there is no discount; with no code, shipping is the cart's |
| OrderSummary.FreeShippingZeroes | Frontend/src/components/OrderSummary.jsx:16 | ENVIOGRATIS zeroes shipping and lowers the total by exactly the cart's shipping |
| OrderSummary.PercentageSaves | Frontend/src/components/OrderSummary.jsx:19-30 | a percentage code keeps shipping and lowers the total by the discount × 1.08 |
| OrderSummary.Desc10OnHundred | Frontend/src/components/OrderSummary.jsx:16-30 | DESC10 on a subtotal of 100: discount 10, tax 7.2, free shipping, total 97.2 |
| OrderSummary.LargerCodeCheaper | Frontend/src/components/OrderSummary.jsx:19-30 | DESC20 never costs more than DESC10, which never costs more than no code |
| OrderSummary.DiscountForm.constructor | Frontend/src/components/OrderSummary.jsx:6-7 | empty code, nothing applied |
| OrderSummary.DiscountForm.TypeCode | Frontend/src/components/OrderSummary.jsx:84 | typing changes the code only while no discount is applied |
| OrderSummary.DiscountForm.HandleApplyDiscount | Frontend/src/components/OrderSummary.jsx:32-39 | rejected exactly when the upper-cased code is not in the table; otherwise that entry is applied |
| OrderSummary.DiscountForm.HandleRemoveDiscount | Frontend/src/components/OrderSummary.jsx:41-44 | nothing applied and the code is cleared |
| OrderSummary.DiscountForm.PressButton | Frontend/src/components/OrderSummary.jsx:88-102 | with a code applied the button removes it; otherwise it applies, and rejection means nothing applied |
| OrderConfirmation.RandomSuffix | Frontend/src/components/OrderConfirmation.jsx:8 | `Math.floor(Math.random() * 1000)` is below 1000 and is the floor |
| OrderConfirmation.SuffixDigits | Frontend/src/components/OrderConfirmation.jsx:8 | the suffix prints with one to three digits |
| OrderConfirmation.SplitAtDashes | Frontend/src/components/OrderConfirmation.jsx:8 | "ML-a-b" determines a and b when a is all digits |
| OrderConfirmation.OrderNumberInjective | Frontend/src/components/OrderConfirmation.jsx:8 | equal order numbers mean equal timestamps and equal suffixes |
| OrderConfirmation.TakeSnapshot | Frontend/src/components/OrderConfirmation.jsx:23-39 | the snapshot copies the lines, subtotal and shipping; total = subtotal × 1.08 + shipping |
| OrderConfirmation.SnapshotIsUndiscountedSummary | Frontend/src/components/OrderConfirmation.jsx:25-37 | the receipt equals the order summary with no code applied |
| OrderConfirmation.SnapshotIgnoresDiscount | Frontend/src/components/OrderConfirmation.jsx:25-37 | the receipt is never below the summary's discounted total, and strictly above it for a percentage code on a positive subtotal |
| OrderConfirmation.ShippingInfo | Frontend/src/components/OrderConfirmation.jsx:14-16 | nothing stored reads as `{}`, a record as itself; a stored `null` cannot be shown |
| OrderConfirmation.PaymentShown | Frontend/src/components/OrderConfirmation.jsx:18-20 | nothing or "" stored reads as "card", a string as itself; the result is never empty |
| OrderConfirmation.WithoutCheckoutKeys | Frontend/src/components/OrderConfirmation.jsx:52-57 | both checkout keys are gone and every other key is kept unchanged |
| OrderConfirmation.ConfirmationPage.constructor | Frontend/src/components/OrderConfirmation.jsx:8-11 | the order number is fixed once from the clock and the draw; no snapshot yet |
| OrderConfirmation.ConfirmationPage.CaptureSnapshot | Frontend/src/components/OrderConfirmation.jsx:23-39 | the snapshot is taken once, and only from a non-empty cart |
| OrderConfirmation.ConfirmationPage.ClearAfterSnapshot | Frontend/src/components/OrderConfirmation.jsx:42-50 | the cart is cleared only once a snapshot exists |
| OrderConfirmation.ConfirmationPage.Settle | Frontend/src/components/OrderConfirmation.jsx:23-50 | the two effects in order: the receipt keeps the cart that was cleared |
| OrderConfirmation.ConfirmationPage.HandleFinish | Frontend/src/components/OrderConfirmation.jsx:52-57 | both checkout keys are removed from storage and the page goes to "/" |
| CheckoutPage.Toggle | Frontend/src/components/CheckoutPageWrapper.jsx:26-28 | the section opens iff it was not the open one, and everything closes iff it was |
| CheckoutPage.ToggleTwice | Frontend/src/components/CheckoutPageWrapper.jsx:26-28 | toggling twice restores an open section and otherwise closes all |
| CheckoutPage.Continue | Frontend/src/components/CheckoutPageWrapper.jsx:30-48 | navigate iff both forms are valid; invalid shipping reopens section 1 first, then invalid payment section 2 |
| CheckoutPage.OneWarningWhileDisabled | Frontend/src/components/CheckoutPageWrapper.jsx:169-183 | exactly one warning while the button is disabled, none when enabled |
| CheckoutPage.DisabledIffNoNavigation | Frontend/src/components/CheckoutPageWrapper.jsx:146 | the button is disabled exactly when continuing would not navigate |
| CheckoutPage.HandOff | Frontend/src/components/CheckoutPageWrapper.jsx:42-47 | the confirmation page reads back the shipping data and the chosen method that were saved |
| CheckoutPage.SaveKeepsOthers | Frontend/src/components/CheckoutPageWrapper.jsx:42-47 | saving leaves every other storage key unchanged |
| CheckoutPage.Page.constructor | Frontend/src/components/CheckoutPageWrapper.jsx:13-17 | section 1 open, no data, "card", both flags false |
| CheckoutPage.Page.RedirectIfEmpty | Frontend/src/components/CheckoutPageWrapper.jsx:20-24 | an empty cart sends the page to "/carrito"; nothing else changes |
| CheckoutPage.Page.HandleSectionToggle | Frontend/src/components/CheckoutPageWrapper.jsx:26-28 | the open section becomes Toggle of the old one |
| CheckoutPage.Page.SetShippingData | Frontend/src/components/CheckoutPageWrapper.jsx:93-96 | the shipping callback stores the record only |
| CheckoutPage.Page.SetPaymentMethod | Frontend/src/components/CheckoutPageWrapper.jsx:106-109 | the payment callback stores the method only |
| CheckoutPage.Page.SetValidity | Frontend/src/components/CheckoutPageWrapper.jsx:93-109 | the validation callbacks store the two flags only |
| CheckoutPage.Page.HandleContinue | Frontend/src/components/CheckoutPageWrapper.jsx:30-48 | storage is written and the page goes to "/confirmacion" only when both are valid; otherwise the first invalid section reopens and storage is untouched |
| PaymentMethod.GroupKeepsDigits | Frontend/src/components/PaymentMethod.jsx:72 | grouping inserts only spaces: the digits are unchanged |
| PaymentMethod.GroupShape | Frontend/src/components/PaymentMethod.jsx:72 | grouping adds one space per full group of four followed by a digit, and ends on the last digit |
| PaymentMethod.CardNumberShape | Frontend/src/components/PaymentMethod.jsx:69-73 | the number keeps the first 16 typed digits, is at most 19 characters, and never ends in a space |
| PaymentMethod.CardNumberIdempotent | Frontend/src/components/PaymentMethod.jsx:69-73 | reformatting a formatted number changes nothing |
| PaymentMethod.ExpiryShape | Frontend/src/components/PaymentMethod.jsx:76-81 | the expiry keeps the first 4 digits, is at most 5 long (5 iff 4 digits were typed), with "/" third |
| PaymentMethod.SlashKeepsDigits | Frontend/src/components/PaymentMethod.jsx:78-80 | inserting "/" after the month leaves the typed digits unchanged |
| PaymentMethod.ExpiryIdempotent | Frontend/src/components/PaymentMethod.jsx:76-81 | reformatting a formatted expiry changes nothing |
| PaymentMethod.FormatCvv | Frontend/src/components/PaymentMethod.jsx:84-86 | the CVV is all digits and at most 4 long |
| PaymentMethod.CvvIdempotent | Frontend/src/components/PaymentMethod.jsx:84-86 | reformatting a CVV changes nothing |
| PaymentMethod.WithField | Frontend/src/components/PaymentMethod.jsx:88 | the named card field holds the new text and the other three fields keep theirs |
| PaymentMethod.FormattedCardValid | Frontend/src/components/PaymentMethod.jsx:38-45 | a formatted card is valid iff ≥16 digits were typed, the name is not blank, ≥4 expiry digits and ≥3 CVV digits |
| PaymentMethod.PaypalValidShape | Frontend/src/components/PaymentMethod.jsx:46-50 | the PayPal regex holds iff one "@", no whitespace, and a dot inside the domain |
| PaymentMethod.ChangeKeepsFormatted | Frontend/src/components/PaymentMethod.jsx:64-89 | every change keeps all card fields in formatted form |
| PaymentMethod.PaymentForm.constructor | Frontend/src/components/PaymentMethod.jsx:4-11 | "card" selected, empty card and e-mail |
| PaymentMethod.PaymentForm.HandleSelect | Frontend/src/components/PaymentMethod.jsx:57-62 | the method is selected and reported; card data and e-mail unchanged |
| PaymentMethod.PaymentForm.HandleCardChange | Frontend/src/components/PaymentMethod.jsx:64-89 | the named field gets its formatted value; everything else unchanged; stays formatted |
| PaymentMethod.PaymentForm.SetPaypalEmail | Frontend/src/components/PaymentMethod.jsx:207 | the e-mail changes only |
| ShippingForm.ValidateEmailShape | Frontend/src/components/ShippingForm.jsx:46-48 | the e-mail regex holds iff one "@", no whitespace, and a dot inside the domain with text on both sides |
| ShippingForm.ValidIsNotBlank | Frontend/src/components/ShippingForm.jsx:15-24 | a valid e-mail or postal code is never blank |
| ShippingForm.BlurError | Frontend/src/components/ShippingForm.jsx:54-69 | a blank value gives "required"; only the three messages or nothing are produced |
| ShippingForm.BlurPriority | Frontend/src/components/ShippingForm.jsx:54-69 | no error iff non-blank and the field's rule holds; the e-mail and postal messages exactly in their cases |
| ShippingForm.FormValidSimplified | Frontend/src/components/ShippingForm.jsx:15-24 | the validity formula is equivalent to the one without its redundant trims |
| ShippingForm.ValidFormBlursClean | Frontend/src/components/ShippingForm.jsx:15-24 | in a valid form, leaving any field records no error |
| ShippingForm.Form.constructor | Frontend/src/components/ShippingForm.jsx:4-12 | five empty fields, no errors |
| ShippingForm.Form.HandleChange | Frontend/src/components/ShippingForm.jsx:31-44 | the field is stored, its error cleared if set, and the record reported |
| ShippingForm.Form.HandleBlur | Frontend/src/components/ShippingForm.jsx:54-69 | the field's error is recorded when there is one; no error is ever cleared |
| RegisterForm.InitialForm | Frontend/src/components/RegisterForm.jsx:4-13 | seven empty text fields and an unticked terms box |
| RegisterForm.Change | Frontend/src/components/RegisterForm.jsx:19-25 | a checkbox stores `checked`, other inputs `value`; only the named field changes |
| RegisterForm.SubmitDecision | Frontend/src/components/RegisterForm.jsx:32-42 | sent iff passwords match and terms are accepted; a mismatch wins over unaccepted terms |
| RegisterForm.FreshFormNeedsTerms | Frontend/src/components/RegisterForm.jsx:4-40 | the fresh form fails on the terms, not on the passwords |
| RegisterForm.FillingInSends | Frontend/src/components/RegisterForm.jsx:19-42 | one password in both fields plus the ticked box sends; a different confirmation fails on the mismatch whatever the box says |
| RegisterForm.FailureMessage | Frontend/src/components/RegisterForm.jsx:54-63 | a failed request shows a non-empty message: the thrown one, or the fallback |
| RegisterForm.Register.HandleChange | Frontend/src/components/RegisterForm.jsx:19-25 | the form becomes Change of the old form; nothing else changes |
| RegisterForm.Register.HandleSubmit | Frontend/src/components/RegisterForm.jsx:27-67 | the error is cleared first; a rejection sets its message without loading or request; otherwise loading is raised once, one request is sent, and success goes to the login page |
| QuantitySelector.ParseInt | Frontend/src/components/QuantitySelector.jsx:27 | `parseInt` yields a number only when the text contains a digit |
| QuantitySelector.ParseUnsigned | Frontend/src/components/QuantitySelector.jsx:27 | the numeral after the sign (hex after "0x"/"0X") is read only when it starts with a digit |
| QuantitySelector.PrefixWhile | Frontend/src/components/QuantitySelector.jsx:27 | the longest prefix of characters that satisfy the test |
| QuantitySelector.ParseDecimalString | Frontend/src/components/QuantitySelector.jsx:27 | `parseInt` reads back any printed natural number |
| QuantitySelector.ParseNegativeDecimalString | Frontend/src/components/QuantitySelector.jsx:27 | `parseInt` reads back a printed negative number |
| QuantitySelector.ParseIntString | Frontend/src/components/QuantitySelector.jsx:27 | `parseInt(String(i))` gives back any integer i |
| QuantitySelector.ParsedOrOne | Frontend/src/components/QuantitySelector.jsx:27 | `parseInt(...) \|\| 1` is never 0, is the parsed value when non-zero, and 1 on NaN and on a parsed 0 |
| QuantitySelector.Clamp | Frontend/src/components/QuantitySelector.jsx:28 | at most max; at least 1 when max ≥ 1; the identity inside [1, max] |
| QuantitySelector.Typed | Frontend/src/components/QuantitySelector.jsx:26-31 | a typed quantity lands in [1, max] |
| QuantitySelector.TypedInRange | Frontend/src/components/QuantitySelector.jsx:26-31 | typing a number in [1, max] gives that number |
| QuantitySelector.TypedAboveDefault | Frontend/src/components/QuantitySelector.jsx:3 | with the default max 99, any larger number typed gives 99 |
| QuantitySelector.InitialQuantity | Frontend/src/components/QuantitySelector.jsx:4 | `value \|\| 1` keeps a non-zero value and is exactly 1 for a missing or 0 value |
| QuantitySelector.Incremented | Frontend/src/components/QuantitySelector.jsx:10-16 | + acts iff below max, by one |
| QuantitySelector.Decremented | Frontend/src/components/QuantitySelector.jsx:18-24 | − acts iff above 1, by one |
| QuantitySelector.StepsStayInRange | Frontend/src/components/QuantitySelector.jsx:10-31 | from [1, max], +, − and typing stay in [1, max] |
| QuantitySelector.Selector.constructor | Frontend/src/components/QuantitySelector.jsx:3-4 | the internal quantity starts at `value \|\| 1` |
| QuantitySelector.Selector.SetAndReport | Frontend/src/components/QuantitySelector.jsx:7-8 | a parent setter receives the value and the internal state stays; otherwise the internal state takes it; `onChange` always hears it |
| QuantitySelector.Selector.HandleIncrement | Frontend/src/components/QuantitySelector.jsx:10-16 | below max, quantity + 1 goes to `onValueChange` when given (else to the internal state) and to `onChange`; otherwise nothing happens |
| QuantitySelector.Selector.HandleDecrement | Frontend/src/components/QuantitySelector.jsx:18-24 | above 1, quantity − 1 goes to `onValueChange` when given (else to the internal state) and to `onChange`; otherwise nothing happens |
| QuantitySelector.Selector.HandleChange | Frontend/src/components/QuantitySelector.jsx:26-31 | reports the clamped typed value |
| BookCarousel.ScrollLeftTarget | Frontend/src/components/BookCarousel.jsx:12-14 | `Math.max(0, position − 4)`: four back when possible, exactly 0 below position 4, always below a positive position |
| BookCarousel.ScrollRightTarget | Frontend/src/components/BookCarousel.jsx:16-18 | `Math.min(len − 4, position + 4)`: four ahead when that fits, exactly len − 4 when four would overshoot, always ahead while scrolling right is possible |
| BookCarousel.Offset | Frontend/src/components/BookCarousel.jsx:64 | the pixel offset is 0 exactly at the first card |
| BookCarousel.EnabledPressesStayInRange | Frontend/src/components/BookCarousel.jsx:9-18 | an enabled button keeps the position in [0, max(0, len − 4)] |
| BookCarousel.RightTargetNeedsFourBooks | Frontend/src/components/BookCarousel.jsx:16-18 | the right target is non-negative iff there are at least four books |
| BookCarousel.FewBooksNoScrolling | Frontend/src/components/BookCarousel.jsx:9-10 | with at most four books neither button is enabled |
| BookCarousel.RenderAsWritten | Frontend/src/components/BookCarousel.jsx:9-22 | a missing list throws, since its length is read before the guard |
| BookCarousel.Render | Frontend/src/components/BookCarousel.jsx:9-22 | nothing is rendered iff the list is missing or empty; otherwise the flags are pos > 0 and pos < len − 4 and the offset is pos × 280 |
| BookCarousel.MissingListCrashes | Frontend/src/components/BookCarousel.jsx:9-22 | the as-written render fails on a missing list, where the corrected one renders nothing |
| BookCarousel.RenderAgreesWhenPresent | Frontend/src/components/BookCarousel.jsx:9-22 | for any present list the two renders agree |
| BookCarousel.Carousel.constructor | Frontend/src/components/BookCarousel.jsx:5 | the position starts at 0, in range |
| BookCarousel.Carousel.ScrollLeft | Frontend/src/components/BookCarousel.jsx:12-14 | the position becomes the left target and stays in range |
| BookCarousel.Carousel.ScrollRight | Frontend/src/components/BookCarousel.jsx:16-18 | the position becomes the right target; in range afterwards iff there are at least four books |
| BookCarousel.Carousel.PressPrevious | Frontend/src/components/BookCarousel.jsx:33 | the disabled-guarded left button keeps the position in range |
| BookCarousel.Carousel.PressNext | Frontend/src/components/BookCarousel.jsx:46 | the disabled-guarded right button keeps the position in range |
| AdminDashboard.FilterBooksIsOneFilter | Frontend/src/components/AdminDashboard.jsx:63-83 | the search filter then the stock filter equal one filter by their conjunction |
| AdminDashboard.FilterBooksSpec | Frontend/src/components/AdminDashboard.jsx:63-83 | the result keeps the order of the books and holds exactly the books passing both filters |
| AdminDashboard.EmptyTermMatchesAll | Frontend/src/components/AdminDashboard.jsx:67-73 | an empty search term matches every book |
| AdminDashboard.NoFilterKeepsAll | Frontend/src/components/AdminDashboard.jsx:63-83 | no term and the "all" stock filter keep every book |
| AdminDashboard.StockCountsPartition | Frontend/src/components/AdminDashboard.jsx:342-354 | with non-negative stock, in-stock plus out-of-stock counts every book |
| AdminDashboard.CountsMatchStockFilter | Frontend/src/components/AdminDashboard.jsx:76-80 | the statistics equal the sizes of the two stock filters |
| AdminDashboard.WithField | Frontend/src/components/AdminDashboard.jsx:85-91 | the named form field holds the new text and the other six fields keep theirs |
| AdminDashboard.FractionText | Frontend/src/components/AdminDashboard.jsx:128 | the printed cents part is empty iff zero, else starts with "." and ends in a non-zero digit |
| AdminDashboard.FractionTextInjective | Frontend/src/components/AdminDashboard.jsx:128 | different cents print differently |
| AdminDashboard.SplitAtDot | Frontend/src/components/AdminDashboard.jsx:128 | a digits-then-fraction string determines both parts |
| AdminDashboard.PriceTextInjective | Frontend/src/components/AdminDashboard.jsx:128 | two prices print equal iff they are equal |
| AdminDashboard.WholePriceText | Frontend/src/components/AdminDashboard.jsx:128 | a whole price prints without a decimal point |
| AdminDashboard.EditForm | Frontend/src/components/AdminDashboard.jsx:122-134 | the form copies the text fields and prints price and stock |
| AdminDashboard.EditStockRoundTrip | Frontend/src/components/AdminDashboard.jsx:122-134 | parsing the printed stock gives the stock back |
| AdminDashboard.Dashboard.constructor | Frontend/src/components/AdminDashboard.jsx:17-25 | no books, empty term, "all" filter, empty form, no modal |
| AdminDashboard.Dashboard.RunFilter | Frontend/src/components/AdminDashboard.jsx:46-48 | the filtered list becomes FilterBooks of the inputs, nothing else changes |
| AdminDashboard.Dashboard.SetBooks | Frontend/src/components/AdminDashboard.jsx:46-48 | new books, refiltered; the term, stock filter, form, edited book and modal are unchanged |
| AdminDashboard.Dashboard.SetSearchTerm | Frontend/src/components/AdminDashboard.jsx:46-48 | new term, refiltered; the books, stock filter, form, edited book and modal are unchanged |
| AdminDashboard.Dashboard.SetFilterStock | Frontend/src/components/AdminDashboard.jsx:46-48 | new stock filter, refiltered; the books, term, form, edited book and modal are unchanged |
| AdminDashboard.Dashboard.HandleInputChange | Frontend/src/components/AdminDashboard.jsx:85-91 | only the named field of the form changes |
| AdminDashboard.Dashboard.HandleEditClick | Frontend/src/components/AdminDashboard.jsx:122-134 | the book is being edited, the form holds its fields, the modal shows |
| AdminDashboard.Dashboard.ResetForm | Frontend/src/components/AdminDashboard.jsx:93-103 | all seven fields are "" |
| Browser.Lookup | Frontend/src/components/OrderConfirmation.jsx:14-20 | `getItem` finds a value exactly for a stored key |
| Browser.Storage.SetItem | Frontend/src/components/CheckoutPageWrapper.jsx:42-47 | `setItem` replaces one key only |
| Browser.Storage.RemoveItem | Frontend/src/components/OrderConfirmation.jsx:52-57 | `removeItem` drops one key only |
| Seqs.FilterIsSubsequence | Frontend/src/contexts/CartContext.jsx:45-47 | a filter keeps the order of what it keeps |
| Seqs.FilterMembers | Frontend/src/components/AdminDashboard.jsx:63-83 | a filter keeps exactly the elements that pass its test |
| Seqs.FilterDropsOne | Frontend/src/contexts/CartContext.jsx:45-47 | filtering out one element between kept ones leaves the two sides joined |
| Text.EmailPatternCharacterized | Frontend/src/components/ShippingForm.jsx:46-48 | the e-mail regex is equivalent to its plain-words shape |
| Text.DecimalStringInjective | Frontend/src/components/OrderConfirmation.jsx:8 | different naturals print differently |
| Text.BlankIffAllWhitespace | Frontend/src/components/ShippingForm.jsx:15-24 | `trim() === ""` iff every character is whitespace |

## Left out

- Network calls are not modelled: the register request, `fetchBooks`, `createBook`,
  `updateBook`, `deleteBook`, the login form and `utils/api.js`. The server's answer to the
  registration request is a parameter.
- The backend is not part of this model: the FastAPI/SQLModel routers, the database and
  `main.py`. It is thin ORM code, and some of it is not mounted.
- Password hashing in `backend/security.py` is not modelled; it is a foreign passlib call.
- JSX markup and the purely presentational components are not modelled: BookCard, Header,
  Logo, Catalogo, CheckoutAccordion, BookDetailsPage, the wrapper, header and home pages,
  and AddToCartButton, which only forwards to `addToCart` and starts a 2 s timer.
- `alert` and `confirm` dialogs are not modelled. A rejected discount code is a `rejected`
  result.
- `setTimeout` delays are not modelled.
- Money is exact: IEEE-754 rounding of prices and of `toFixed(2)` on the receipt is not
  modelled.
- AdminDashboard.SearchMatch: `toLowerCase` is modelled by an ASCII-only `Text.ToLower`, so
  non-ASCII capitals are left unmapped. A search for "ZAFÓN" therefore does not find a book by
  "Carlos Ruiz Zafón", although the JavaScript search does. The same holds for
  AdminDashboard.FilterBooks, which is built on it.
- OrderSummary.DiscountForm.HandleApplyDiscount: `toUpperCase` is modelled by an ASCII-only
  `Text.ToUpper`. JavaScript maps some non-ASCII letters onto ASCII capitals ("ſ" to "S",
  "ı" to "I"). A typed code such as "deſc10" is therefore applied by the page and rejected
  by the model.
- Strings are sequences of characters, not UTF-16 code units.
- QuantitySelector.ParseInt: number precision above 2^53 is not modelled. Integers are
  exact.
- OrderConfirmation.ShippingInfo: a raw non-JSON string under the shipping key counts as
  unparsable (`None`). The exceptions of `JSON.parse` and the render errors that follow
  are not modelled.
- OrderConfirmation.PaymentShown: a record or a JSON `null` stored under the payment key
  yields `None`. `getItem` would return their JSON text (for `null`, the text "null"), which
  the page would show. The JSON text of stored values is not modelled. The checkout page
  only ever stores the raw method id under that key.
- CartContext.CartStore.AddToCart: the quantity is always passed. The default
  `quantity = 1` of `addToCart` is not modelled, because its one caller, the add-to-cart
  button, always passes a quantity.
- CheckoutPage.Page.HandleContinue: the page does not tie `isShippingValid` to shipping data
  being present. So navigation can store `null` shipping data, which the confirmation page
  cannot show. The model keeps that gap.
- React effect scheduling and batching are not modelled. Each effect is a method, and the
  caller runs the methods in the order React runs the effects.
- The cart's loading flag is not modelled. `isLoading` is read from the cart context, which
  never provides it, so it is always `undefined`.
- The discount table is a plain object, so inherited names such as `constructor` would be
  found by `discountCodes[code]`. The code is upper-cased first, so the inherited names
  never match, and the model's table holds only the three codes.
- AdminDashboard: the `is_admin` redirect and the create, update and delete handlers are
  not modelled. They are network round trips.
- RegisterForm: the browser's own `required` check on the text inputs is not modelled.
  `handleSubmit` does not check those fields itself.
- The `showPassword` toggles in RegisterForm are not modelled; they are presentation only.

## Findings

| source | as written | input that shows it | evidently intended | confidence | as-written member | corrected member |
|---|---|---|---|---|---|---|
| Frontend/src/components/BookCarousel.jsx:9-22 | `canScrollRight` reads `books.length` at line 10, before the `!books` guard at line 20 | rendering the carousel with no `books` prop (`books` undefined) | a missing list renders nothing, as the guard at line 20 says | not executed | BookCarousel.RenderAsWritten, BookCarousel.MissingListCrashes | BookCarousel.Render, BookCarousel.RenderAgreesWhenPresent |
