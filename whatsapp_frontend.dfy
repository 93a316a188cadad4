/** The WhatsApp order service of the `frontend/` app: it keeps the shop's
    number verbatim, normalises it with a `+`-aware rule chain when it builds
    a `wa.me` deep link, and formats the order as numbered line items. */
module FrontendWhatsApp {
  import opened Text
  import opened Shop

  const DefaultPhoneNumber: string := "+880 1843-426422"
  const LinkPrefix: string := "https://wa.me/"
  const NotProvided: string := "Not provided"

  predicate IsDigitOrPlus(c: char) { IsDigit(c) || c == '+' }

  /** `phone.replace(/[^\d+]/g, '')`. */
  function CleanedNumber(phone: string): (r: string)
    ensures forall i | 0 <= i < |r| :: IsDigitOrPlus(r[i])
    ensures |r| <= |phone|
  {
    if phone == [] then []
    else (if IsDigitOrPlus(phone[0]) then [phone[0]] else []) + CleanedNumber(phone[1..])
  }

  /** Cleaning keeps every digit, in order. */
  lemma {:induction false} CleanedKeepsDigits(phone: string)
    ensures DigitsOf(CleanedNumber(phone)) == DigitsOf(phone)
  {
    if phone != [] {
      CleanedKeepsDigits(phone[1..]);
      var head := if IsDigitOrPlus(phone[0]) then [phone[0]] else [];
      DigitsOfAppend(head, CleanedNumber(phone[1..]));
      assert DigitsOf(head) == if IsDigit(phone[0]) then [phone[0]] else [] by {
        if head != [] {
          assert head[1..] == [];
        }
      }
    }
  }

  /** `s.replace('+', '')`: a string pattern replaces the first occurrence only. */
  function RemoveFirstPlus(s: string): (r: string)
    ensures '+' !in s ==> r == s
    ensures '+' in s ==> |r| == |s| - 1
  {
    if s == [] then []
    else if s[0] == '+' then s[1..]
    else [s[0]] + RemoveFirstPlus(s[1..])
  }

  lemma {:induction false} RemoveFirstPlusAt(x: string, y: string)
    requires '+' !in x
    ensures RemoveFirstPlus(x + "+" + y) == x + y
  {
    var w := x + "+" + y;
    if x == [] {
      assert w == "+" + y && w[0] == '+' && w[1..] == y;
    } else {
      var t := x[1..] + "+" + y;
      assert RemoveFirstPlus(w) == [x[0]] + RemoveFirstPlus(t) by {
        assert w == [x[0]] + t;
        assert w[0] == x[0] != '+' && w[1..] == t;
      }
      RemoveFirstPlusAt(x[1..], y);
      assert x + y == [x[0]] + (x[1..] + y);
    }
  }

  /** The country-code rules applied to the cleaned string `c`, one branch of
      the if/else-if chain: an eleven-character `01…` number and any other
      `0…` number that is not `01…` lose their zero to `880`; failing both, a
      ten-character number not starting with `+` gets `880` in front. */
  function WithCountryCode(c: string): (r: string)
  {
    if StartsWith(c, "01") && |c| == 11 then "880" + c[1..]
    else if StartsWith(c, "0") && !StartsWith(c, "01") then "880" + c[1..]
    else if |c| == 10 && !StartsWith(c, "+") then "880" + c
    else c
  }

  /** What `formatPhoneNumber` returns. */
  function NormalisedNumber(phone: string): (r: string)
    ensures forall i | 0 <= i < |r| :: IsDigitOrPlus(r[i])
  {
    var r := RemoveFirstPlus(WithCountryCode(CleanedNumber(phone)));
    assert forall i | 0 <= i < |r| :: IsDigitOrPlus(r[i]) by {
      OnlyDigitsOrPlus(WithCountryCode(CleanedNumber(phone)));
    }
    r
  }

  lemma {:induction false} OnlyDigitsOrPlus(s: string)
    requires forall i | 0 <= i < |s| :: IsDigitOrPlus(s[i])
    ensures forall i | 0 <= i < |RemoveFirstPlus(s)| :: IsDigitOrPlus(RemoveFirstPlus(s)[i])
  {
    if s != [] && s[0] != '+' {
      OnlyDigitsOrPlus(s[1..]);
    }
  }

  /** The rules prepend `880` at most once: the result, before the `+` is
      removed, is the cleaned string, or it with its first character replaced
      by `880`, or it with `880` in front. */
  lemma CountryCodeAtMostOnce(c: string)
    ensures var r := WithCountryCode(c);
      r == c || (c != [] && r == "880" + c[1..]) || r == "880" + c
  {
  }

  /** An eleven-digit `01…` number becomes `880` followed by its last ten. */
  lemma LocalMobileNumber(phone: string)
    requires var c := CleanedNumber(phone); AllDigits(c) && StartsWith(c, "01") && |c| == 11
    ensures NormalisedNumber(phone) == "880" + CleanedNumber(phone)[1..]
  {
    var c := CleanedNumber(phone);
    var r := "880" + c[1..];
    assert '+' !in r by {
      forall i | 0 <= i < |r| ensures r[i] != '+' {
        if i >= 3 {
          assert r[i] == c[i - 2];
        }
      }
    }
  }

  /** The chain decides between its rules in order: a ten-character `0…`
      number that is not `01…` meets the guard of the third rule as well, but
      the second wins, so the zero is replaced and `880` is not also put in
      front. */
  lemma ZeroTenCharactersReplacedNotPrefixed(c: string)
    requires |c| == 10 && StartsWith(c, "0") && !StartsWith(c, "01")
    ensures WithCountryCode(c) == "880" + c[1..]
    ensures |WithCountryCode(c)| == 12
  {
  }

  /** A `01…` number that is ten characters long meets neither of the first
      two guards, and the third puts `880` in front of the whole string. */
  lemma ZeroOneTenCharactersPrefixed(c: string)
    requires |c| == 10 && StartsWith(c, "01")
    ensures WithCountryCode(c) == "880" + c
  {
    assert c[0] == c[..2][0] == '0';
    assert c[..1] != "+";
  }

  /** A `01…` number of any length other than ten or eleven is left as it is. */
  lemma ZeroOneOtherLengthUnchanged(c: string)
    requires StartsWith(c, "01") && |c| != 10 && |c| != 11
    ensures WithCountryCode(c) == c
  {
  }

  /** Only the first `+` is removed: a second one survives into the link. */
  lemma OnlyFirstPlusRemoved(x: string, y: string)
    requires '+' !in x
    ensures RemoveFirstPlus(x + "+" + y) == x + y
    ensures '+' in y ==> '+' in RemoveFirstPlus(x + "+" + y)
  {
    RemoveFirstPlusAt(x, y);
  }

  /** A number written as `+` and digits, with any separators, normalises
      to exactly its digits: no rule applies and the `+` is dropped. */
  lemma InternationalWithPlus(phone: string, d: string)
    requires CleanedNumber(phone) == "+" + d && AllDigits(d)
    ensures NormalisedNumber(phone) == d
    ensures d == DigitsOf(phone)
  {
    var c := CleanedNumber(phone);
    assert c[0] == '+';
    assert !StartsWith(c, "0") && !StartsWith(c, "01") && StartsWith(c, "+") by {
      assert c[..1] == "+" && c[..1][0] == c[0];
    }
    assert WithCountryCode(c) == c;
    RemoveFirstPlusAt("", d);
    assert "" + "+" + d == c;
    CleanedKeepsDigits(phone);
    DigitsOfAppend("+", d);
    DigitsOfFixesDigits(d);
    assert DigitsOf("+") == [] by {
      assert "+"[1..] == [];
    }
  }

  /** The configured number normalises to `8801843426422`. */
  lemma DefaultNumberNormalised(phone: string)
    requires phone == DefaultPhoneNumber
    ensures NormalisedNumber(phone) == "8801843426422"
  {
    assert "880" + "1843" + "426422" == "8801843426422";
    assert phone == "+880" + " 1843" + "-426422";
    assert " 1843" == [' '] + "1843" && "-426422" == ['-'] + "426422";
    NormalisedPlusWithSeparators(phone, "880", ' ', "1843", '-', "426422");
  }

  /** A `+` and three digit groups with separators between them, the shape
      of the configured number, normalise to the digits. */
  lemma NormalisedPlusWithSeparators(
    phone: string, code: string, sep1: char, area: string, sep2: char, line: string)
    requires phone == "+" + code + [sep1] + area + [sep2] + line
    requires AllDigits(code) && AllDigits(area) && AllDigits(line)
    requires !IsDigitOrPlus(sep1) && !IsDigitOrPlus(sep2)
    ensures NormalisedNumber(phone) == code + area + line
  {
    PlusWithSeparators(code, sep1, area, sep2, line);
    assert AllDigits(code + area + line) by {
      var d := code + area + line;
      forall i | 0 <= i < |d| ensures IsDigit(d[i]) {
        if i < |code| { assert d[i] == code[i]; }
        else if i < |code| + |area| { assert d[i] == area[i - |code|]; }
        else { assert d[i] == line[i - |code| - |area|]; }
      }
    }
    InternationalWithPlus(phone, code + area + line);
  }

  /** A `+` and three digit groups with separators between them clean to the
      `+` and the digits. */
  lemma PlusWithSeparators(code: string, sep1: char, area: string, sep2: char, line: string)
    requires AllDigits(code) && AllDigits(area) && AllDigits(line)
    requires !IsDigitOrPlus(sep1) && !IsDigitOrPlus(sep2)
    ensures CleanedNumber("+" + code + [sep1] + area + [sep2] + line) == "+" + (code + area + line)
  {
    var head := "+" + code;
    var middle := [sep1] + area;
    var tail := [sep2] + line;
    assert "+" + code + [sep1] + area + [sep2] + line == (head + middle) + tail;
    assert CleanedNumber(head) == head by {
      forall i | 0 <= i < |head| ensures IsDigitOrPlus(head[i]) {
        if i > 0 { assert head[i] == code[i - 1]; }
      }
      CleanedOfDigitsAndPlus(head);
    }
    assert CleanedNumber(head + middle) == head + area by {
      CleanedSplit(head, middle);
      SeparatorThenDigits(sep1, area);
    }
    assert CleanedNumber((head + middle) + tail) == (head + area) + line by {
      CleanedSplit(head + middle, tail);
      SeparatorThenDigits(sep2, line);
    }
    assert (head + area) + line == "+" + (code + area + line);
  }

  lemma {:induction false} CleanedSplit(a: string, b: string)
    ensures CleanedNumber(a + b) == CleanedNumber(a) + CleanedNumber(b)
  {
    if a == [] {
      assert a + b == b;
    } else {
      assert (a + b)[1..] == a[1..] + b;
      CleanedSplit(a[1..], b);
    }
  }

  lemma {:induction false} CleanedOfDigitsAndPlus(s: string)
    requires forall i | 0 <= i < |s| :: IsDigitOrPlus(s[i])
    ensures CleanedNumber(s) == s
  {
    if s != [] {
      CleanedOfDigitsAndPlus(s[1..]);
    }
  }

  lemma SeparatorThenDigits(c: char, d: string)
    requires !IsDigitOrPlus(c) && AllDigits(d)
    ensures CleanedNumber([c] + d) == d
  {
    CleanedSplit([c], d);
    CleanedOfOther(c);
    CleanedOfDigitsAndPlus(d);
  }

  lemma CleanedOfOther(c: char)
    requires !IsDigitOrPlus(c)
    ensures CleanedNumber([c]) == []
  {
    assert [c][1..] == [];
  }

  /** One entry of the product list: number, title, variant, unit price,
      quantity and the line amount. */
  datatype ItemEntry = ItemEntry(
    number: nat, title: string, color: string, size: string,
    price: real, quantity: int, amount: real)

  /** `products.map((product, index) => …)`, numbering from `first`. */
  function ItemEntries(products: seq<CartLine>, first: nat): (r: seq<ItemEntry>)
    ensures |r| == |products|
    ensures forall i | 0 <= i < |products| ::
      var p := products[i];
      r[i] == ItemEntry(first + i, p.title, p.color, p.size, p.price, p.quantity, LineAmount(p.price, p.quantity))
  {
    if products == [] then []
    else
      var p := products[0];
      [ItemEntry(first, p.title, p.color, p.size, p.price, p.quantity, LineAmount(p.price, p.quantity))]
        + ItemEntries(products[1..], first + 1)
  }

  /** `orderData.user?.email || storedUser.email || "Not provided"`. */
  function UserEmail(user: Option<UserRef>, storedEmail: Option<string>): (e: string)
    ensures user.Some? && user.value.email != "" ==> e == user.value.email
    ensures (user.None? || user.value.email == "") && Truthy(storedEmail) ==> e == storedEmail.value
    ensures (user.None? || user.value.email == "") && !Truthy(storedEmail) ==> e == NotProvided
  {
    if user.Some? && user.value.email != "" then user.value.email
    else if Truthy(storedEmail) then storedEmail.value
    else NotProvided
  }

  /** The parts of the message that the model keeps (the template text, the
      clock and the `Date.now()` order id are not modelled). */
  datatype OrderMessage = OrderMessage(
    firstName: Option<string>, lastName: Option<string>, phone: Option<string>,
    email: string,
    address: Option<string>, city: Option<string>, region: Option<string>,
    country: Option<string>, postalCode: Option<string>,
    items: seq<ItemEntry>, paymentType: Option<string>,
    bikashNumber: Option<string>, cardHolder: Option<string>, totals: Totals)

  /** The bKash number is listed only for a bKash payment that gave one. */
  function BikashNumberOf(data: FormData): (n: Option<string>)
    ensures n.Some? <==> data.paymentType == Some("bikash") && Truthy(data.bikashNumber)
    ensures n.Some? ==> n == data.bikashNumber
  {
    if data.paymentType == Some("bikash") && Truthy(data.bikashNumber)
    then data.bikashNumber else None
  }

  /** The card holder is listed only for a card payment that gave one. */
  function CardHolderOf(data: FormData): (n: Option<string>)
    ensures n.Some? <==> data.paymentType == Some("credit-card") && Truthy(data.nameOnCard)
    ensures n.Some? ==> n == data.nameOnCard
  {
    if data.paymentType == Some("credit-card") && Truthy(data.nameOnCard)
    then data.nameOnCard else None
  }

  function FormatOrderMessage(order: OrderData, storedEmail: Option<string>): (m: OrderMessage)
    ensures var data := order.data;
      && m.firstName == data.firstName && m.lastName == data.lastName && m.phone == data.phone
      && m.address == data.address && m.city == data.city && m.region == data.region
      && m.country == data.country && m.postalCode == data.postalCode
      && m.paymentType == data.paymentType
    ensures m.email == UserEmail(order.user, storedEmail)
    ensures |m.items| == |order.products|
    ensures forall i | 0 <= i < |m.items| ::
      m.items[i].number == i + 1
      && m.items[i].amount == LineAmount(order.products[i].price, order.products[i].quantity)
    ensures m.totals.shipping == 5.0 && 5.0 * m.totals.taxes == order.subtotal
    ensures m.totals.total == order.subtotal + 5.0 + order.subtotal / 5.0
    ensures m.bikashNumber.Some? <==>
      order.data.paymentType == Some("bikash") && Truthy(order.data.bikashNumber)
    ensures m.cardHolder.Some? <==>
      order.data.paymentType == Some("credit-card") && Truthy(order.data.nameOnCard)
  {
    var data := order.data;
    OrderMessage(
      data.firstName, data.lastName, data.phone, UserEmail(order.user, storedEmail),
      data.address, data.city, data.region, data.country, data.postalCode,
      ItemEntries(order.products, 1), data.paymentType,
      BikashNumberOf(data), CardHolderOf(data), OrderTotals(order.subtotal))
  }

  /** The toast `sendManualMessage` raises: the link was opened, or opening
      it failed and the customer should share the order by hand. */
  datatype ManualToast = OpenedToast | OpenFailedToast

  /** What `sendManualMessage` did: the link it handed to `window.open`
      (none when encoding the message threw first), whether it reported
      success, and its toast. */
  datatype SendOutcome = SendOutcome(url: Option<string>, ok: bool, toast: ManualToast)

  class WhatsAppService {
    var phoneNumber: string

    constructor ()
      ensures phoneNumber == DefaultPhoneNumber
    {
      phoneNumber := DefaultPhoneNumber;
    }

    /** Unlike the `f/` service, the number is stored as given. */
    method SetPhoneNumber(phone: string)
      modifies this
      ensures phoneNumber == phone
    {
      phoneNumber := phone;
    }

    method GetPhoneNumber() returns (phone: string)
      ensures phone == phoneNumber
    {
      phone := phoneNumber;
    }

    /** `formatPhoneNumber`: clean, apply the first rule of the chain whose
        guard holds, then drop the first `+`. */
    method FormatPhoneNumber(phone: string) returns (cleanNumber: string)
      ensures cleanNumber == NormalisedNumber(phone)
    {
      cleanNumber := CleanedNumber(phone);
      if StartsWith(cleanNumber, "01") && |cleanNumber| == 11 {
        cleanNumber := "880" + cleanNumber[1..];
      } else if StartsWith(cleanNumber, "0") && !StartsWith(cleanNumber, "01") {
        cleanNumber := "880" + cleanNumber[1..];
      } else if |cleanNumber| == 10 && !StartsWith(cleanNumber, "+") {
        cleanNumber := "880" + cleanNumber;
      }
      cleanNumber := RemoveFirstPlus(cleanNumber);
    }

    /** `sendManualMessage`: open the deep link to the formatted number with
        the encoded message (`encode` stands for `encodeURIComponent`), and
        report success unless encoding the message (`encodeThrows`, a lone
        surrogate) or opening the window (`openThrows`) threw inside the
        `try`; the toast says which way it went. */
    method SendManualMessage(
      formattedMessage: string, encode: string -> string, encodeThrows: bool, openThrows: bool)
      returns (outcome: SendOutcome)
      ensures outcome.url.Some? <==> !encodeThrows
      ensures outcome.url.Some? ==>
        outcome.url.value == LinkPrefix + NormalisedNumber(phoneNumber) + "?text=" + encode(formattedMessage)
      ensures outcome.ok <==> !encodeThrows && !openThrows
      ensures outcome.toast == (if outcome.ok then OpenedToast else OpenFailedToast)
    {
      var formattedNumber := FormatPhoneNumber(phoneNumber);
      if encodeThrows {
        return SendOutcome(None, false, OpenFailedToast);
      }
      var encodedMessage := encode(formattedMessage);
      var whatsappUrl := LinkPrefix + formattedNumber + "?text=" + encodedMessage;
      if openThrows {
        return SendOutcome(Some(whatsappUrl), false, OpenFailedToast);
      }
      outcome := SendOutcome(Some(whatsappUrl), true, OpenedToast);
    }
  }

  /** The recipient can be read back from the link: it is everything between
      `https://wa.me/` and the first `?`, because the normalised number holds
      only digits and `+`. */
  lemma RecipientOfLink(phone: string, encoded: string)
    ensures var url := LinkPrefix + NormalisedNumber(phone) + "?text=" + encoded;
      StartsWith(url, LinkPrefix)
      && TakeUntil(url[|LinkPrefix|..], '?') == NormalisedNumber(phone)
  {
    NoQuestionMark(phone);
    ReadBackRecipient(LinkPrefix, NormalisedNumber(phone), "?text=", encoded);
  }

  lemma NoQuestionMark(phone: string)
    ensures '?' !in NormalisedNumber(phone)
  {
    var n := NormalisedNumber(phone);
    forall i | 0 <= i < |n| ensures n[i] != '?' {
      assert IsDigitOrPlus(n[i]);
    }
  }

  /** In `prefix + n + sep + query` with `sep` starting with the first `?`,
      the text between the prefix and that `?` is `n`. */
  lemma ReadBackRecipient(prefix: string, n: string, sep: string, query: string)
    requires '?' !in n && |sep| >= 1 && sep[0] == '?'
    ensures var url := prefix + n + sep + query;
      StartsWith(url, prefix) && TakeUntil(url[|prefix|..], '?') == n
  {
    var url := prefix + n + sep + query;
    assert url[..|prefix|] == prefix;
    assert url[|prefix|..] == n + ['?'] + (sep[1..] + query);
    TakeUntilStopsAtFirst(n, '?', sep[1..] + query);
  }
}
