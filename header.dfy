/** The cart badge of the `f/` header: the number of items in the cart, shown
    only when it is positive. */
module Header {
  import opened Text
  import opened Shop

  /** `(productsInCart || []).reduce((total, product) => total + product.quantity, 0)`:
      a fold from the left, starting at `total`. */
  function ReduceQuantities(total: int, lines: seq<CartLine>): int
    decreases |lines|
  {
    if lines == [] then total else ReduceQuantities(total + lines[0].quantity, lines[1..])
  }

  /** The sum of the quantities, as a plain recursive definition. */
  function SumOfQuantities(lines: seq<CartLine>): int
  {
    if lines == [] then 0 else SumOfQuantities(lines[..|lines| - 1]) + lines[|lines| - 1].quantity
  }

  lemma {:induction false} SumOfQuantitiesCons(line: CartLine, lines: seq<CartLine>)
    ensures SumOfQuantities([line] + lines) == line.quantity + SumOfQuantities(lines)
  {
    if lines != [] {
      var all := [line] + lines;
      assert all[..|all| - 1] == [line] + lines[..|lines| - 1];
      SumOfQuantitiesCons(line, lines[..|lines| - 1]);
    } else {
      assert ([line] + lines)[..0] == [];
    }
  }

  /** The fold adds the sum of the quantities to its starting total. */
  lemma {:induction false} ReduceIsSum(total: int, lines: seq<CartLine>)
    ensures ReduceQuantities(total, lines) == total + SumOfQuantities(lines)
    decreases |lines|
  {
    if lines != [] {
      ReduceIsSum(total + lines[0].quantity, lines[1..]);
      SumOfQuantitiesCons(lines[0], lines[1..]);
      assert [lines[0]] + lines[1..] == lines;
    }
  }

  /** `totalQuantity`: a missing cart counts as empty. */
  function TotalQuantity(cart: Option<seq<CartLine>>): (total: int)
    ensures cart.None? ==> total == 0
    ensures cart.Some? ==> total == SumOfQuantities(cart.value)
  {
    var lines := if cart.Some? then cart.value else [];
    ReduceIsSum(0, lines);
    ReduceQuantities(0, lines)
  }

  /** Adding a line with quantity `q` raises the total by exactly `q`. */
  lemma TotalQuantityAdditive(lines: seq<CartLine>, line: CartLine)
    ensures TotalQuantity(Some(lines + [line])) == TotalQuantity(Some(lines)) + line.quantity
  {
    assert (lines + [line])[..|lines|] == lines;
  }

  /** The totals of two carts put together add up. */
  lemma {:induction false} TotalQuantityOfConcat(a: seq<CartLine>, b: seq<CartLine>)
    ensures TotalQuantity(Some(a + b)) == TotalQuantity(Some(a)) + TotalQuantity(Some(b))
  {
    if b != [] {
      var front := b[..|b| - 1];
      TotalQuantityOfConcat(a, front);
      assert (a + b)[..|a + b| - 1] == a + front;
    } else {
      assert a + b == a;
    }
  }

  /** The badge: `Some(n)` when it is rendered with the number `n`. */
  function Badge(cart: Option<seq<CartLine>>): (badge: Option<int>)
    ensures badge.Some? <==> TotalQuantity(cart) > 0
    ensures badge.Some? ==> badge.value == TotalQuantity(cart) && badge.value > 0
  {
    var totalQuantity := TotalQuantity(cart);
    if totalQuantity > 0 then Some(totalQuantity) else None
  }

  /** When every line holds at least one item, the total is at least the
      number of lines. */
  lemma {:induction false} TotalAtLeastLineCount(lines: seq<CartLine>)
    requires forall i | 0 <= i < |lines| :: lines[i].quantity >= 1
    ensures TotalQuantity(Some(lines)) >= |lines|
  {
    if lines != [] {
      TotalAtLeastLineCount(lines[..|lines| - 1]);
    }
  }

  /** With positive quantities in every line, the badge shows exactly when the
      cart has a line; a missing cart never shows one. */
  lemma BadgeShownIffCartNotEmpty(lines: seq<CartLine>)
    requires forall i | 0 <= i < |lines| :: lines[i].quantity >= 1
    ensures Badge(Some(lines)).Some? <==> lines != []
    ensures Badge(None).None?
  {
    TotalAtLeastLineCount(lines);
  }
}
