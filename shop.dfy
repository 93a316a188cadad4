/** The storefront's shared records: a catalogue product, a cart line, the
    checkout form, the order record that is persisted, and the order totals
    that every order message and the checkout summary derive from the
    subtotal. Money is a `real`. */
module Shop {
  import opened Text

  datatype Product = Product(
    id: string, image: string, title: string, category: string,
    price: real, popularity: real, stock: real)

  /** A cart entry: a snapshot of a product in one size and colour. */
  datatype CartLine = CartLine(
    id: string, image: string, title: string, category: string,
    price: real, quantity: int, size: string, color: string,
    popularity: real, stock: real)

  /** What a cart line costs: its unit price times its quantity. */
  function LineAmount(price: real, quantity: int): real
  {
    price * quantity as real
  }

  /** The submitted checkout form, `Object.fromEntries(formData)`: one entry
      per input the storefront reads, `None` when the form did not submit it
      (reading it gives `undefined`), and every other input by its name. */
  datatype FormData = FormData(
    firstName: Option<string>, lastName: Option<string>, phone: Option<string>,
    address: Option<string>, city: Option<string>, region: Option<string>,
    country: Option<string>, postalCode: Option<string>,
    paymentType: Option<string>, bikashNumber: Option<string>, nameOnCard: Option<string>,
    otherFields: map<string, string>)

  datatype UserRef = UserRef(email: string, id: Option<string>)

  /** How the order was stamped: `toISOString` or `toLocaleDateString` of the
      current time (the clock itself is not modelled). */
  datatype OrderDate = IsoTimestamp | LocaleDate

  datatype OrderData = OrderData(
    data: FormData, products: seq<CartLine>, subtotal: real,
    orderStatus: string, orderDate: OrderDate, user: Option<UserRef>)

  datatype Totals = Totals(subtotal: real, shipping: real, taxes: real, total: real)

  const FlatShipping: real := 5.0

  /** Shipping is a flat 5, taxes are a fifth of the subtotal, and the total
      adds both to the subtotal. */
  function OrderTotals(subtotal: real): (t: Totals)
    ensures t.subtotal == subtotal && t.shipping == FlatShipping
    ensures 5.0 * t.taxes == subtotal
    ensures t.total == 6.0 * subtotal / 5.0 + 5.0
  {
    var shipping := FlatShipping;
    var taxes := subtotal / 5.0;
    Totals(subtotal, shipping, taxes, subtotal + shipping + taxes)
  }

  /** A subtotal of 100 gives taxes of 20 and a total of 125. */
  lemma OrderTotalsOfHundred()
    ensures OrderTotals(100.0) == Totals(100.0, 5.0, 20.0, 125.0)
  {
  }

  /** `isValidPhoneNumber`, the same in both WhatsApp services: a number is
      valid when it holds between 10 and 15 digits, whatever else it holds. */
  function IsValidPhoneNumber(phone: string): (valid: bool)
    ensures valid <==> 10 <= |DigitIndices(phone)| <= 15
  {
    var cleanNumber := DigitsOf(phone);
    DigitsOfCountsDigits(phone);
    10 <= |cleanNumber| <= 15
  }
}
