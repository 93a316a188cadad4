/** The WhatsApp order service of the `f/` front end: it keeps the shop's
    number in a mutable field, rewrites a local Bangladeshi number to its
    international form, and lists the ordered items in the message. */
module FWhatsApp {
  import opened Text
  import opened Shop

  const CountryCode: string := "880"
  const DefaultPhoneNumber: string := "01887569963"

  /** What `formatPhoneNumber` yields, by the shape of the digits `d` of the
      input: a leading `0` is replaced by the country code, and a number that
      is then 10 digits long gets the country code in front. So a leading-zero
      number of 8 digits is prefixed twice, and one of any other length once. */
  function InternationalNumber(phone: string): (r: string)
    ensures AllDigits(r)
  {
    var d := DigitsOf(phone);
    if StartsWith(d, "0") then
      if |d| == 8 then CountryCode + CountryCode + d[1..] else CountryCode + d[1..]
    else if |d| == 10 then CountryCode + d
    else d
  }

  /** The number configured in the service becomes `8801887569963`. */
  lemma DefaultNumberIsInternational(phone: string)
    requires phone == DefaultPhoneNumber
    ensures InternationalNumber(phone) == "8801887569963"
  {
    var rest := "1887569963";
    assert CountryCode + rest == "8801887569963";
    assert phone == "0" + rest;
    assert AllDigits(rest) && |rest| == 10;
    ZeroAndTenDigits(phone, rest);
  }

  lemma ZeroAndTenDigits(phone: string, rest: string)
    requires phone == "0" + rest && AllDigits(rest) && |rest| == 10
    ensures InternationalNumber(phone) == CountryCode + rest
  {
    assert phone[1..] == rest;
    LocalElevenDigits(phone);
  }

  /** An eleven-digit local number loses its zero to the country code. */
  lemma LocalElevenDigits(phone: string)
    requires AllDigits(phone) && |phone| == 11 && phone[0] == '0'
    ensures InternationalNumber(phone) == CountryCode + phone[1..]
  {
    DigitsOfFixesDigits(phone);
  }

  /** A ten-digit number with a leading zero becomes twelve digits: its zero
      is replaced and it is not prefixed a second time. */
  lemma TenDigitsWithZeroPrefixedOnce(phone: string)
    requires var d := DigitsOf(phone); |d| == 10 && d[0] == '0'
    ensures InternationalNumber(phone) == CountryCode + DigitsOf(phone)[1..]
    ensures |InternationalNumber(phone)| == 12
  {
  }

  /** A ten-digit number without a leading zero gets the country code. */
  lemma TenDigitsGetCountryCode(phone: string)
    requires var d := DigitsOf(phone); |d| == 10 && d[0] != '0'
    ensures InternationalNumber(phone) == CountryCode + DigitsOf(phone)
  {
  }

  /** Separators do not matter: putting any non-digit character anywhere in
      the input leaves the formatted number unchanged. */
  lemma SeparatorIgnored(a: string, c: char, b: string)
    requires !IsDigit(c)
    ensures InternationalNumber(a + [c] + b) == InternationalNumber(a + b)
  {
    assert DigitsOf(a + [c] + b) == DigitsOf(a + b) by {
      DigitsOfAppend(a + [c], b);
      DigitsOfAppend(a, [c]);
      DigitsOfAppend(a, b);
      assert DigitsOf([c]) == [] by {
        assert [c][1..] == [];
      }
    }
    SameDigitsSameNumber(a + [c] + b, a + b);
  }

  /** The formatted number depends on the digits only. */
  lemma SameDigitsSameNumber(x: string, y: string)
    requires DigitsOf(x) == DigitsOf(y)
    ensures InternationalNumber(x) == InternationalNumber(y)
  {
  }

  /** `products.map(line).join('%0A')`: one rendered line per cart line. */
  function ProductList(products: seq<CartLine>, render: CartLine -> string): string
  {
    Join(RenderAll(products, render), "%0A")
  }

  function RenderAll(products: seq<CartLine>, render: CartLine -> string): (r: seq<string>)
    ensures |r| == |products|
    ensures forall i | 0 <= i < |products| :: r[i] == render(products[i])
  {
    if products == [] then [] else [render(products[0])] + RenderAll(products[1..], render)
  }

  /** The product list has exactly one entry per cart line, in cart order:
      splitting it at `%0A` gives the rendered lines back, provided the cart is
      not empty and no rendered line holds a `%`. */
  lemma ProductListOnePerLine(products: seq<CartLine>, render: CartLine -> string)
    requires |products| >= 1
    requires forall i | 0 <= i < |products| :: '%' !in render(products[i])
    ensures Split(ProductList(products, render), "%0A") == RenderAll(products, render)
  {
    SplitJoin(RenderAll(products, render), "%0A");
  }

  /** The parts of `formatOrderMessage` that the model keeps: the stamp,
      the status, the product list and the totals (the template text is not
      modelled). */
  datatype OrderMessage = OrderMessage(
    orderDate: OrderDate, orderStatus: string, productList: string,
    totals: Totals, paymentType: Option<string>)

  function FormatOrderMessage(order: OrderData, render: CartLine -> string): (m: OrderMessage)
    ensures m.totals.shipping == 5.0 && 5.0 * m.totals.taxes == order.subtotal
    ensures m.totals.total == order.subtotal + 5.0 + order.subtotal / 5.0
    ensures m.orderStatus == order.orderStatus && m.orderDate == order.orderDate
    ensures m.productList == ProductList(order.products, render)
    ensures m.paymentType == order.data.paymentType
  {
    OrderMessage(
      order.orderDate, order.orderStatus, ProductList(order.products, render),
      OrderTotals(order.subtotal), order.data.paymentType)
  }

  class WhatsAppService {
    var phoneNumber: string

    constructor ()
      ensures phoneNumber == DefaultPhoneNumber
    {
      phoneNumber := DefaultPhoneNumber;
    }

    /** `setPhoneNumber` keeps only the digits of its argument. */
    method SetPhoneNumber(phone: string)
      modifies this
      ensures phoneNumber == DigitsOf(phone)
      ensures AllDigits(phoneNumber)
    {
      phoneNumber := DigitsOf(phone);
    }

    method GetPhoneNumber() returns (phone: string)
      ensures phone == phoneNumber
    {
      phone := phoneNumber;
    }

    /** `formatPhoneNumber`: strip to digits, then rewrite `cleanNumber`
        rule by rule. */
    method FormatPhoneNumber(phone: string) returns (cleanNumber: string)
      ensures cleanNumber == InternationalNumber(phone)
      ensures AllDigits(cleanNumber)
    {
      cleanNumber := DigitsOf(phone);
      if StartsWith(cleanNumber, "0") {
        cleanNumber := CountryCode + cleanNumber[1..];
      }
      if |cleanNumber| == 10 {
        cleanNumber := CountryCode + cleanNumber;
      }
    }
  }
}
