/** The checkout page: its payment-method table and payment fields, the
    on-screen summary, the order message it builds, and the submit handler
    that assembles the order, posts it and reacts to the answer. Effects
    (the POST, toasts, the WhatsApp service, `window.open`, navigation) are
    returned as a trace instead of being performed. */
module Checkout {
  import opened Text
  import opened Shop

  // ---------------------------------------------------------------------------
  // Payment methods
  // ---------------------------------------------------------------------------

  datatype PaymentMethod = PaymentMethod(id: string, title: string)

  const PaymentMethods: seq<PaymentMethod> := [
    PaymentMethod("cash-on-delivery", "Cash on Delivery"),
    PaymentMethod("bikash", "Bikash"),
    PaymentMethod("credit-card", "Credit card"),
    PaymentMethod("paypal", "PayPal"),
    PaymentMethod("etransfer", "eTransfer")
  ]

  /** The ids of the radio buttons, in display order. */
  function PaymentMethodIds(): (ids: seq<string>)
    ensures |ids| == 5
    ensures ids[0] == "cash-on-delivery"
    ensures forall i, j | 0 <= i < j < |ids| :: ids[i] != ids[j]
    ensures forall i | 0 <= i < |ids| :: ids[i] == PaymentMethods[i].id
  {
    seq(|PaymentMethods|, i requires 0 <= i < |PaymentMethods| => PaymentMethods[i].id)
  }

  /** The inputs `renderPaymentFields` adds to the form for a selection. */
  function PaymentFieldNames(selected: string): (names: seq<string>)
    ensures "nameOnCard" in names <==> selected == "credit-card"
    ensures "cardNumber" in names <==> selected == "credit-card"
    ensures "bikashNumber" in names <==> selected == "bikash"
    ensures selected != "credit-card" && selected != "bikash" ==> names == []
  {
    if selected == "credit-card" then ["cardNumber", "nameOnCard", "expirationDate", "cvc"]
    else if selected == "bikash" then ["bikashNumber"]
    else []
  }

  /** The page's one piece of state: the selected payment method, which
      starts on the first radio button, the one checked by default. */
  class CheckoutPage {
    var selectedPayment: string

    constructor ()
      ensures selectedPayment == PaymentMethodIds()[0]
    {
      selectedPayment := "cash-on-delivery";
    }

    method SelectPayment(value: string)
      modifies this
      ensures selectedPayment == value
    {
      selectedPayment := value;
    }
  }

  // ---------------------------------------------------------------------------
  // Summary panel
  // ---------------------------------------------------------------------------

  /** The order summary beside the form: shipping, taxes and total are 0
      while the subtotal is 0 (falsy), and otherwise the order totals. */
  function SummaryTotals(subtotal: real): (t: Totals)
    ensures t.subtotal == subtotal
    ensures subtotal == 0.0 ==> t.shipping == 0.0 && t.taxes == 0.0 && t.total == 0.0
    ensures subtotal != 0.0 ==> t.shipping == 5.0 && 5.0 * t.taxes == subtotal
    ensures subtotal != 0.0 ==> t.total == subtotal + 5.0 + subtotal / 5.0
  {
    if subtotal != 0.0 then Totals(subtotal, 5.0, subtotal / 5.0, subtotal + 5.0 + subtotal / 5.0)
    else Totals(subtotal, 0.0, 0.0, 0.0)
  }

  /** The summary agrees with the totals in the order message exactly when
      the subtotal is not 0: an empty cart shows a total of 0, the message
      would say 5. */
  lemma SummaryAgreesWithMessage(subtotal: real)
    ensures SummaryTotals(subtotal) == OrderTotals(subtotal) <==> subtotal != 0.0
  {
    if subtotal == 0.0 {
      assert OrderTotals(subtotal).shipping == 5.0;
    }
  }

  // ---------------------------------------------------------------------------
  // The order message
  // ---------------------------------------------------------------------------

  /** One `message += …` of `formatOrderMessage`, by what it reports (the
      emoji, the markup and the `toFixed(2)` rendering are not modelled). */
  datatype MessagePart =
    | Heading
    | CustomerHeading
    | NameLine(firstName: Option<string>, lastName: Option<string>)
    | PhoneLine(phone: Option<string>)
    | AddressLine(address: Option<string>, city: Option<string>, region: Option<string>,
                  country: Option<string>, postalCode: Option<string>)
    | ItemsHeading
    | ItemTitle(number: nat, title: string)
    | ItemVariant(color: string, size: string)
    | ItemPrice(price: real, quantity: int, amount: real)
    | PaymentMethodLine(paymentType: Option<string>)
    | BikashNumberLine(bikashNumber: string)
    | CardHolderLine(nameOnCard: string)
    | BlankLine
    | SummaryHeading
    | SubtotalLine(subtotal: real)
    | ShippingLine(shipping: real)
    | TaxesLine(taxes: real)
    | TotalLine(total: real)
    | OrderDateLine
    | OrderIdLine

  function CustomerPart(data: FormData): seq<MessagePart>
  {
    [Heading, CustomerHeading,
     NameLine(data.firstName, data.lastName),
     PhoneLine(data.phone),
     AddressLine(data.address, data.city, data.region,
                 data.country, data.postalCode),
     ItemsHeading]
  }

  /** The three lines for the `n`-th cart line (counting from 1). */
  function ItemBlock(n: nat, p: CartLine): seq<MessagePart>
  {
    [ItemTitle(n, p.title), ItemVariant(p.color, p.size),
     ItemPrice(p.price, p.quantity, LineAmount(p.price, p.quantity))]
  }

  /** The item section, one block per cart line in cart order. */
  function ItemLines(products: seq<CartLine>): (r: seq<MessagePart>)
    ensures |r| == 3 * |products|
  {
    if products == [] then []
    else ItemLines(products[..|products| - 1]) + ItemBlock(|products|, products[|products| - 1])
  }

  /** The `k`-th cart line (from 0) is reported as item number `k + 1`, with
      its colour and size, and priced as price × quantity. */
  lemma {:induction false} ItemLinesAt(products: seq<CartLine>, k: nat)
    requires k < |products|
    ensures var r := ItemLines(products); var p := products[k];
      r[3 * k] == ItemTitle(k + 1, p.title)
      && r[3 * k + 1] == ItemVariant(p.color, p.size)
      && r[3 * k + 2] == ItemPrice(p.price, p.quantity, LineAmount(p.price, p.quantity))
  {
    var n := |products|;
    var front := products[..n - 1];
    if k < n - 1 {
      ItemLinesAt(front, k);
      assert front[k] == products[k];
    }
  }

  predicate HasBikashLine(lines: seq<MessagePart>)
  {
    exists i | 0 <= i < |lines| :: lines[i].BikashNumberLine?
  }

  predicate HasCardHolderLine(lines: seq<MessagePart>)
  {
    exists i | 0 <= i < |lines| :: lines[i].CardHolderLine?
  }

  /** The payment section: the method, then a Bikash number only for a
      `bikash` order that gave one, a card holder only for a `credit-card`
      order that gave one, and a blank line (what it reports is stated by
      `PaymentPartLines`). */
  function PaymentPart(data: FormData): seq<MessagePart>
  {
    var paymentType := data.paymentType;
    var bikash := data.bikashNumber;
    var holder := data.nameOnCard;
    if paymentType == Some("bikash") && Truthy(bikash) then
      [PaymentMethodLine(paymentType), BikashNumberLine(bikash.value), BlankLine]
    else if paymentType == Some("credit-card") && Truthy(holder) then
      [PaymentMethodLine(paymentType), CardHolderLine(holder.value), BlankLine]
    else
      [PaymentMethodLine(paymentType), BlankLine]
  }

  /** The Bikash line appears exactly for a `bikash` order that gave a
      number, the card-holder line exactly for a `credit-card` order that
      gave a name, so never both; each carries the value from the form. */
  lemma PaymentPartLines(data: FormData)
    ensures var r := PaymentPart(data);
      && 2 <= |r| <= 3 && r[0] == PaymentMethodLine(data.paymentType) && r[|r| - 1] == BlankLine
      && (HasBikashLine(r) <==>
            data.paymentType == Some("bikash") && Truthy(data.bikashNumber))
      && (HasCardHolderLine(r) <==>
            data.paymentType == Some("credit-card") && Truthy(data.nameOnCard))
      && (forall i | 0 <= i < |r| && r[i].BikashNumberLine? ::
            data.bikashNumber == Some(r[i].bikashNumber))
      && (forall i | 0 <= i < |r| && r[i].CardHolderLine? ::
            data.nameOnCard == Some(r[i].nameOnCard))
  {
    var r := PaymentPart(data);
    if HasBikashLine(r) || HasCardHolderLine(r) {
      assert |r| == 3;
    } else {
      assert !r[1].BikashNumberLine? && !r[1].CardHolderLine?;
    }
  }

  /** The summary section: the subtotal, a flat shipping of 5, taxes of a
      fifth, and their sum. */
  function SummaryPart(subtotal: real): seq<MessagePart>
  {
    var t := OrderTotals(subtotal);
    [SummaryHeading, SubtotalLine(t.subtotal), ShippingLine(t.shipping),
     TaxesLine(t.taxes), TotalLine(t.total)]
  }

  /** The summary section reports the subtotal, a shipping of 5, taxes whose
      fivefold is the subtotal, and subtotal + 5 + subtotal/5 as the total. */
  lemma SummaryPartLines(subtotal: real)
    ensures var r := SummaryPart(subtotal);
      && |r| == 5 && r[0] == SummaryHeading
      && r[1] == SubtotalLine(subtotal) && r[2] == ShippingLine(5.0)
      && r[3].TaxesLine? && 5.0 * r[3].taxes == subtotal
      && r[4] == TotalLine(subtotal + 5.0 + subtotal / 5.0)
  {
  }

  /** The whole message, section by section. */
  function OrderMessage(order: OrderData): seq<MessagePart>
  {
    CustomerPart(order.data) + ItemLines(order.products) + PaymentPart(order.data)
      + SummaryPart(order.subtotal) + [OrderDateLine, OrderIdLine]
  }

  /** `formatOrderMessage`: appends the sections line by line. */
  method FormatOrderMessage(order: OrderData) returns (message: seq<MessagePart>)
    ensures message == OrderMessage(order)
  {
    var data := order.data;
    var totals := OrderTotals(order.subtotal);

    message := [Heading];
    message := message + [CustomerHeading];
    message := message + [NameLine(data.firstName, data.lastName)];
    message := message + [PhoneLine(data.phone)];
    message := message + [AddressLine(data.address, data.city, data.region,
                                      data.country, data.postalCode)];
    message := message + [ItemsHeading];
    assert message == CustomerPart(data);

    message := AppendItems(message, order.products);
    ghost var beforePayment := message;

    var paymentType := data.paymentType;
    message := message + [PaymentMethodLine(paymentType)];
    if paymentType == Some("bikash") && Truthy(data.bikashNumber) {
      message := message + [BikashNumberLine(data.bikashNumber.value)];
    }
    if paymentType == Some("credit-card") && Truthy(data.nameOnCard) {
      message := message + [CardHolderLine(data.nameOnCard.value)];
    }
    message := message + [BlankLine];
    assert message == beforePayment + PaymentPart(data);
    ghost var beforeSummary := message;

    message := message + [SummaryHeading];
    message := message + [SubtotalLine(totals.subtotal)];
    message := message + [ShippingLine(totals.shipping)];
    message := message + [TaxesLine(totals.taxes)];
    message := message + [TotalLine(totals.total)];
    assert message == beforeSummary + SummaryPart(order.subtotal);

    message := message + [OrderDateLine];
    message := message + [OrderIdLine];
  }

  /** The `products.forEach` of `formatOrderMessage`: three lines per cart
      line, appended in cart order. */
  method AppendItems(start: seq<MessagePart>, products: seq<CartLine>) returns (message: seq<MessagePart>)
    ensures message == start + ItemLines(products)
  {
    message := start;
    var index := 0;
    while index < |products|
      invariant 0 <= index <= |products|
      invariant message == start + ItemLines(products[..index])
    {
      var product := products[index];
      ghost var previous := message;
      assert products[..index + 1][..index] == products[..index];
      message := message + [ItemTitle(index + 1, product.title)];
      message := message + [ItemVariant(product.color, product.size)];
      message := message + [ItemPrice(product.price, product.quantity, LineAmount(product.price, product.quantity))];
      var block := ItemBlock(index + 1, product);
      assert block[0] == ItemTitle(index + 1, product.title);
      assert block[1] == ItemVariant(product.color, product.size);
      assert block[2] == ItemPrice(product.price, product.quantity, LineAmount(product.price, product.quantity));
      assert |block| == 3;
      assert message == previous + block;
      index := index + 1;
    }
    assert products[..index] == products;
  }

  /** Every cart line is in the message as its three lines, numbered by its
      position in the cart, right after the customer section. */
  lemma MessageListsEveryItem(order: OrderData, k: nat)
    requires k < |order.products|
    ensures var m := OrderMessage(order); var p := order.products[k];
      m[6 + 3 * k] == ItemTitle(k + 1, p.title)
      && m[6 + 3 * k + 1] == ItemVariant(p.color, p.size)
      && m[6 + 3 * k + 2] == ItemPrice(p.price, p.quantity, LineAmount(p.price, p.quantity))
  {
    ItemLinesAt(order.products, k);
    ItemsFollowCustomer(order, 3 * k);
    ItemsFollowCustomer(order, 3 * k + 1);
    ItemsFollowCustomer(order, 3 * k + 2);
  }

  /** The item section starts right after the six lines of the customer
      section. */
  lemma ItemsFollowCustomer(order: OrderData, j: nat)
    requires j < |ItemLines(order.products)|
    ensures OrderMessage(order)[6 + j] == ItemLines(order.products)[j]
  {
    var c := CustomerPart(order.data);
    var items := ItemLines(order.products);
    assert |c| == 6;
    assert (c + items)[6 + j] == items[j];
  }

  /** The message's total line states subtotal + 5 + subtotal/5; for a
      subtotal of 100 that is 125. */
  lemma MessageTotal(order: OrderData)
    ensures TotalLine(order.subtotal + 5.0 + order.subtotal / 5.0) in OrderMessage(order)
    ensures order.subtotal == 100.0 ==> TotalLine(125.0) in OrderMessage(order)
  {
    var m := OrderMessage(order);
    var pre := CustomerPart(order.data) + ItemLines(order.products) + PaymentPart(order.data);
    var s := SummaryPart(order.subtotal);
    assert m == pre + s + [OrderDateLine, OrderIdLine];
    assert m[|pre| + 4] == s[4];
  }

  // ---------------------------------------------------------------------------
  // Submitting the order
  // ---------------------------------------------------------------------------

  /** The stored user once parsed: a missing entry reads as a user with
      neither email nor id. */
  datatype StoredUser = StoredUser(email: Option<string>, id: Option<string>)

  /** What `JSON.parse(localStorage.getItem("user") || "{}")` gives: the
      parsed user, or a `SyntaxError` for a malformed entry. The handler
      parses before its `try`, so the error escapes it. */
  datatype StoredUserEntry = Parsed(user: StoredUser) | Unparsable

  /** What `customFetch.post("/orders", …)` did: answered with a status, or
      threw. */
  datatype PostOutcome = Responded(status: int) | Threw

  datatype Effect =
    | PostOrder(order: OrderData)
    | SendOrderToWhatsApp(order: OrderData)
    | ToastSuccess(toast: Toast)
    | ToastError(toast: Toast)
    | OpenWindow(url: string)
    | NavigateAfter(path: string, delayMs: nat)

  const ShopWhatsAppNumber: string := "+8801839502332"
  const ConfirmationPath: string := "/order-confirmation"
  const NavigationDelayMs: nat := 3000

  /** The toasts the handler can raise (their wording is not modelled). */
  datatype Toast =
    | CashOnDeliveryToast
    | BikashToast
    | PlacedToast
    | SentToWhatsAppToast
    | ShareManuallyToast
    | SubmitErrorToast

  /** The order record: the form data, cart and subtotal, stamped
      "Processing"; a stored user with an email is attached and the order
      gets an ISO timestamp, otherwise no user and a locale date. */
  function AssembleOrder(data: FormData, products: seq<CartLine>, subtotal: real, stored: StoredUser)
    : (order: OrderData)
    ensures order.data == data && order.products == products && order.subtotal == subtotal
    ensures order.orderStatus == "Processing"
    ensures order.user.Some? <==> Truthy(stored.email)
    ensures order.user.Some? ==> order.user.value == UserRef(stored.email.value, stored.id)
    ensures order.orderDate == (if Truthy(stored.email) then IsoTimestamp else LocaleDate)
  {
    if Truthy(stored.email) then
      OrderData(data, products, subtotal, "Processing", IsoTimestamp, Some(UserRef(stored.email.value, stored.id)))
    else
      OrderData(data, products, subtotal, "Processing", LocaleDate, None)
  }

  /** The first success toast, by payment type. */
  function PaymentToast(paymentType: Option<string>): (toast: Toast)
    ensures toast == CashOnDeliveryToast <==> paymentType == Some("cash-on-delivery")
    ensures toast == BikashToast <==> paymentType == Some("bikash")
    ensures toast == PlacedToast <==> paymentType != Some("cash-on-delivery") && paymentType != Some("bikash")
  {
    if paymentType == Some("cash-on-delivery") then CashOnDeliveryToast
    else if paymentType == Some("bikash") then BikashToast
    else PlacedToast
  }

  /** The `wa.me` deep link to the shop's number carrying `text`. */
  function ShopLink(text: string): string
  {
    "https://wa.me/" + ShopWhatsAppNumber + "?text=" + text
  }

  /** The deep link carrying the encoded message for `order`. */
  function MessageLink(order: OrderData, encode: seq<MessagePart> -> string): string
  {
    ShopLink(encode(OrderMessage(order)))
  }

  predicate Navigates(effects: seq<Effect>)
  {
    exists i | 0 <= i < |effects| :: effects[i].NavigateAfter?
  }

  predicate OpensWindow(effects: seq<Effect>)
  {
    exists i | 0 <= i < |effects| :: effects[i].OpenWindow?
  }

  /** Where a step after a 201 answer throws, sending control to the
      handler's `catch`: the awaited WhatsApp service, or, once the service
      reported success, building or opening the deep link
      (`encodeURIComponent` or `window.open`). */
  datatype ConfirmationFault = NoFault | ServiceThrows | LinkThrows

  /** Whether a fault is actually reached: the link is only built when the
      service reported success. */
  predicate ThrowsAfterCreated(whatsappSuccess: bool, fault: ConfirmationFault)
  {
    fault == ServiceThrows || (fault == LinkThrows && whatsappSuccess)
  }

  /** What follows a 201 answer: the WhatsApp service is asked to send the
      order, a toast names the payment type, and, when the service reported
      success, a second toast and the shop's deep link carrying the message;
      then the delayed navigation to the confirmation page. A throw on the
      way ends the steps with the error toast instead. */
  function ConfirmationTrace(
    order: OrderData, whatsappSuccess: bool, fault: ConfirmationFault, encode: seq<MessagePart> -> string)
    : seq<Effect>
  {
    var navigation := NavigateAfter(ConfirmationPath, NavigationDelayMs);
    if fault == ServiceThrows then [SendOrderToWhatsApp(order), ToastError(SubmitErrorToast)]
    else
      [SendOrderToWhatsApp(order), ToastSuccess(PaymentToast(order.data.paymentType))]
        + (if !whatsappSuccess then [ToastSuccess(ShareManuallyToast), navigation]
           else if fault == LinkThrows then [ToastSuccess(SentToWhatsAppToast), ToastError(SubmitErrorToast)]
           else [ToastSuccess(SentToWhatsAppToast), OpenWindow(MessageLink(order, encode)), navigation])
  }

  /** Whether the handler reaches its POST: the form is valid and the stored
      user parses. */
  predicate Proceeds(formValid: bool, stored: StoredUserEntry)
  {
    formValid && stored.Parsed?
  }

  /** Everything `handleCheckoutSubmit` does, in order: nothing for an invalid
      form or a stored user that does not parse; otherwise the POST of the
      assembled order, then the confirmation steps for a 201 answer and the
      error toast for any other answer or a failed request. */
  function SubmitTrace(
    data: FormData, productsInCart: seq<CartLine>, subtotal: real, formValid: bool,
    stored: StoredUserEntry, post: PostOutcome, whatsappSuccess: bool, fault: ConfirmationFault,
    encode: seq<MessagePart> -> string): seq<Effect>
  {
    if !Proceeds(formValid, stored) then []
    else
      var order := AssembleOrder(data, productsInCart, subtotal, stored.user);
      [PostOrder(order)]
        + (if post == Responded(201) then ConfirmationTrace(order, whatsappSuccess, fault, encode)
           else [ToastError(SubmitErrorToast)])
  }

  /** The steps after a 201 answer, performed one by one. */
  method ConfirmOrder(
    orderData: OrderData, whatsappSuccess: bool, fault: ConfirmationFault, encode: seq<MessagePart> -> string)
    returns (effects: seq<Effect>)
    ensures effects == ConfirmationTrace(orderData, whatsappSuccess, fault, encode)
  {
    var whatsappMessage := FormatOrderMessage(orderData);
    effects := [SendOrderToWhatsApp(orderData)];
    if fault == ServiceThrows {
      effects := effects + [ToastError(SubmitErrorToast)];
      return;
    }
    effects := effects + [ToastSuccess(PaymentToast(orderData.data.paymentType))];
    if whatsappSuccess {
      effects := effects + [ToastSuccess(SentToWhatsAppToast)];
      if fault == LinkThrows {
        effects := effects + [ToastError(SubmitErrorToast)];
        return;
      }
      var whatsappUrl := ShopLink(encode(whatsappMessage));
      effects := effects + [OpenWindow(whatsappUrl)];
    } else {
      effects := effects + [ToastSuccess(ShareManuallyToast)];
    }
    effects := effects + [NavigateAfter(ConfirmationPath, NavigationDelayMs)];
  }

  /** `handleCheckoutSubmit`. `formValid` is the verdict of
      `checkCheckoutFormData`, `stored` how the stored user parsed, `post`
      how the POST went, `whatsappSuccess` what the WhatsApp service
      reported, `fault` where a later step throws, and `encode` stands for
      `encodeURIComponent` applied to the message. */
  method HandleCheckoutSubmit(
    data: FormData, productsInCart: seq<CartLine>, subtotal: real, formValid: bool,
    stored: StoredUserEntry, post: PostOutcome, whatsappSuccess: bool, fault: ConfirmationFault,
    encode: seq<MessagePart> -> string)
    returns (effects: seq<Effect>)
    ensures effects == SubmitTrace(data, productsInCart, subtotal, formValid, stored, post, whatsappSuccess, fault, encode)
  {
    if !formValid {
      return [];
    }
    if stored.Unparsable? {
      // `JSON.parse` throws before the `try`: the handler rejects.
      return [];
    }
    var orderData := AssembleOrder(data, productsInCart, subtotal, stored.user);
    effects := [PostOrder(orderData)];
    if post == Responded(201) {
      var confirmation := ConfirmOrder(orderData, whatsappSuccess, fault, encode);
      effects := effects + confirmation;
    } else {
      effects := effects + [ToastError(SubmitErrorToast)];
    }
  }

  /** The trace of a submission, spelled out for each way the stored user
      reads, each answer and each place a later step can throw. */
  lemma SubmitTraceCases(
    data: FormData, productsInCart: seq<CartLine>, subtotal: real,
    stored: StoredUserEntry, post: PostOutcome, whatsappSuccess: bool, fault: ConfirmationFault,
    encode: seq<MessagePart> -> string)
    ensures stored.Unparsable? ==>
      SubmitTrace(data, productsInCart, subtotal, true, stored, post, whatsappSuccess, fault, encode) == []
    ensures stored.Parsed? ==>
      var t := SubmitTrace(data, productsInCart, subtotal, true, stored, post, whatsappSuccess, fault, encode);
      var order := AssembleOrder(data, productsInCart, subtotal, stored.user);
      var paymentToast := ToastSuccess(PaymentToast(data.paymentType));
      var navigation := NavigateAfter(ConfirmationPath, NavigationDelayMs);
      var error := ToastError(SubmitErrorToast);
      && (post != Responded(201) ==> t == [PostOrder(order), error])
      && (post == Responded(201) && fault == ServiceThrows ==>
            t == [PostOrder(order), SendOrderToWhatsApp(order), error])
      && (post == Responded(201) && whatsappSuccess && fault == LinkThrows ==>
            t == [PostOrder(order), SendOrderToWhatsApp(order), paymentToast,
                  ToastSuccess(SentToWhatsAppToast), error])
      && (post == Responded(201) && whatsappSuccess && fault == NoFault ==>
            t == [PostOrder(order), SendOrderToWhatsApp(order), paymentToast,
                  ToastSuccess(SentToWhatsAppToast), OpenWindow(MessageLink(order, encode)), navigation])
      && (post == Responded(201) && !whatsappSuccess && fault != ServiceThrows ==>
            t == [PostOrder(order), SendOrderToWhatsApp(order), paymentToast,
                  ToastSuccess(ShareManuallyToast), navigation])
  {
  }

  /** An invalid form or an unparsable stored user does nothing; otherwise
      the assembled order is posted first and never again. */
  lemma SubmitPostsOnce(
    data: FormData, productsInCart: seq<CartLine>, subtotal: real, formValid: bool,
    stored: StoredUserEntry, post: PostOutcome, whatsappSuccess: bool, fault: ConfirmationFault,
    encode: seq<MessagePart> -> string)
    ensures var t := SubmitTrace(data, productsInCart, subtotal, formValid, stored, post, whatsappSuccess, fault, encode);
      && (t == [] <==> !Proceeds(formValid, stored))
      && (Proceeds(formValid, stored) ==>
            |t| >= 2 && t[0] == PostOrder(AssembleOrder(data, productsInCart, subtotal, stored.user)))
      && forall i | 0 < i < |t| :: !t[i].PostOrder?
  {
    if formValid {
      SubmitTraceCases(data, productsInCart, subtotal, stored, post, whatsappSuccess, fault, encode);
    }
  }

  /** The page moves to the confirmation page exactly when the order was
      created (status 201) and no later step threw, and that navigation is
      the last step. */
  lemma SubmitNavigatesIffCreated(
    data: FormData, productsInCart: seq<CartLine>, subtotal: real, formValid: bool,
    stored: StoredUserEntry, post: PostOutcome, whatsappSuccess: bool, fault: ConfirmationFault,
    encode: seq<MessagePart> -> string)
    ensures var t := SubmitTrace(data, productsInCart, subtotal, formValid, stored, post, whatsappSuccess, fault, encode);
      && (Navigates(t) <==>
            Proceeds(formValid, stored) && post == Responded(201) && !ThrowsAfterCreated(whatsappSuccess, fault))
      && (Navigates(t) ==> t[|t| - 1] == NavigateAfter(ConfirmationPath, NavigationDelayMs))
  {
    var t := SubmitTrace(data, productsInCart, subtotal, formValid, stored, post, whatsappSuccess, fault, encode);
    if formValid {
      SubmitTraceCases(data, productsInCart, subtotal, stored, post, whatsappSuccess, fault, encode);
      if stored.Parsed? && post == Responded(201) && !ThrowsAfterCreated(whatsappSuccess, fault) {
        assert t[|t| - 1].NavigateAfter?;
      }
    }
  }

  /** The error toast appears exactly when the order was posted and not
      answered with 201 (another status, or the request threw) or a step
      after the 201 threw; it is then the last step, and after a failed POST
      the only one. */
  lemma SubmitErrorIffFailed(
    data: FormData, productsInCart: seq<CartLine>, subtotal: real, formValid: bool,
    stored: StoredUserEntry, post: PostOutcome, whatsappSuccess: bool, fault: ConfirmationFault,
    encode: seq<MessagePart> -> string)
    ensures var t := SubmitTrace(data, productsInCart, subtotal, formValid, stored, post, whatsappSuccess, fault, encode);
      && (ToastError(SubmitErrorToast) in t <==>
            Proceeds(formValid, stored) && (post != Responded(201) || ThrowsAfterCreated(whatsappSuccess, fault)))
      && (ToastError(SubmitErrorToast) in t ==> t[|t| - 1] == ToastError(SubmitErrorToast))
      && (Proceeds(formValid, stored) && post != Responded(201) ==> |t| == 2)
  {
    if formValid {
      SubmitTraceCases(data, productsInCart, subtotal, stored, post, whatsappSuccess, fault, encode);
    }
  }

  /** A created order is handed to the WhatsApp service, and acknowledged by
      the toast for its payment type unless the service threw. */
  lemma SubmitSendsCreatedOrder(
    data: FormData, productsInCart: seq<CartLine>, subtotal: real,
    stored: StoredUser, whatsappSuccess: bool, fault: ConfirmationFault, encode: seq<MessagePart> -> string)
    ensures var t := SubmitTrace(data, productsInCart, subtotal, true, Parsed(stored), Responded(201), whatsappSuccess, fault, encode);
      && SendOrderToWhatsApp(AssembleOrder(data, productsInCart, subtotal, stored)) in t
      && (ToastSuccess(PaymentToast(data.paymentType)) in t <==> fault != ServiceThrows)
  {
    SubmitTraceCases(data, productsInCart, subtotal, Parsed(stored), Responded(201), whatsappSuccess, fault, encode);
  }

  /** The shop's WhatsApp link is opened exactly when the order was created,
      the service reported success and nothing threw, and it carries the
      message built from the posted order. */
  lemma SubmitOpensLinkIffSent(
    data: FormData, productsInCart: seq<CartLine>, subtotal: real, formValid: bool,
    stored: StoredUserEntry, post: PostOutcome, whatsappSuccess: bool, fault: ConfirmationFault,
    encode: seq<MessagePart> -> string)
    ensures var t := SubmitTrace(data, productsInCart, subtotal, formValid, stored, post, whatsappSuccess, fault, encode);
      && (OpensWindow(t) <==>
            Proceeds(formValid, stored) && post == Responded(201) && whatsappSuccess && fault == NoFault)
      && (OpensWindow(t) ==>
            t[4] == OpenWindow(MessageLink(AssembleOrder(data, productsInCart, subtotal, stored.user), encode)))
  {
    var t := SubmitTrace(data, productsInCart, subtotal, formValid, stored, post, whatsappSuccess, fault, encode);
    if formValid {
      SubmitTraceCases(data, productsInCart, subtotal, stored, post, whatsappSuccess, fault, encode);
      if stored.Parsed? && post == Responded(201) && whatsappSuccess && fault == NoFault {
        assert t[4].OpenWindow?;
      }
    }
  }
}
