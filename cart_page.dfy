/**
 * The cart page: pricing (subtotal, the 10% discount for three or more lines, total),
 * the summary it shows, and where its buttons navigate.
 */
module CartPage {
  import opened Types
  import Text
  import AppState

  /** `cart.reduce((sum, item) => sum + item.price, 0)`. */
  function Subtotal(cart: seq<CartItem>): real
  {
    if cart == [] then 0.0 else Subtotal(cart[..|cart| - 1]) + cart[|cart| - 1].price
  }

  /** 10% of the subtotal from the third line on, otherwise nothing. */
  function Discount(cart: seq<CartItem>): real
  {
    if |cart| >= 3 then Subtotal(cart) * 0.1 else 0.0
  }

  function Total(cart: seq<CartItem>): real
  {
    Subtotal(cart) - Discount(cart)
  }

  predicate NonNegativePrices(cart: seq<CartItem>)
  {
    forall i :: 0 <= i < |cart| ==> cart[i].price >= 0.0
  }

  /** The subtotal of two carts laid end to end is the sum of their subtotals. */
  lemma {:induction false} SubtotalAppend(a: seq<CartItem>, b: seq<CartItem>)
    ensures Subtotal(a + b) == Subtotal(a) + Subtotal(b)
  {
    if b != [] {
      var ab := a + b;
      assert ab[..|ab| - 1] == a + b[..|b| - 1];
      assert ab[|ab| - 1] == b[|b| - 1];
      SubtotalAppend(a, b[..|b| - 1]);
    } else {
      assert a + b == a;
    }
  }

  lemma {:induction false} SubtotalNonNegative(cart: seq<CartItem>)
    requires NonNegativePrices(cart)
    ensures Subtotal(cart) >= 0.0
  {
    if cart != [] {
      SubtotalNonNegative(cart[..|cart| - 1]);
    }
  }

  /**
   * The discount policy: below three lines nothing is taken off; from three lines on the
   * total is nine tenths of the subtotal. With non-negative prices 0 <= total <= subtotal.
   */
  lemma TotalBounds(cart: seq<CartItem>)
    requires NonNegativePrices(cart)
    ensures |cart| < 3 ==> Discount(cart) == 0.0 && Total(cart) == Subtotal(cart)
    ensures |cart| >= 3 ==> Total(cart) == Subtotal(cart) * 0.9
    ensures 0.0 <= Total(cart) <= Subtotal(cart)
  {
    SubtotalNonNegative(cart);
  }

  /** Three photos at 15.00, 18.00 and 20.00: subtotal 53.00, discount 5.30, total 47.70. */
  lemma ThreePhotoExample(a: CartItem, b: CartItem, c: CartItem)
    requires a.price == 15.0 && b.price == 18.0 && c.price == 20.0
    ensures Subtotal([a, b, c]) == 53.0
    ensures Discount([a, b, c]) == 5.3 && Total([a, b, c]) == 47.7
  {
    assert [a][..0] == [];
    assert Subtotal([a]) == 15.0;
    assert [a, b][..1] == [a];
    assert Subtotal([a, b]) == 33.0;
    assert [a, b, c][..2] == [a, b];
  }

  /** Adding one photo twice and removing one of the two lines by id prices one extra photo. */
  lemma DuplicateRemovalTotals(cart: seq<CartItem>, next: nat, item: NewCartItem)
    requires AppState.FreshIds(cart, next)
    ensures var twice := cart + [AppState.Line(next, item), AppState.Line(next + 1, item)];
      && Subtotal(twice) == Subtotal(cart) + 2.0 * item.price
      && Subtotal(AppState.RemoveLine(twice, next)) == Subtotal(cart) + item.price
  {
    var l1, l2 := AppState.Line(next, item), AppState.Line(next + 1, item);
    AppState.AddTwiceThenRemoveOne(cart, next, item);
    SubtotalAppend(cart, [l1, l2]);
    SubtotalAppend(cart, [l2]);
    assert [l1, l2][..1] == [l1];
  }

  /** What the cart page renders. */
  datatype CartView =
    | EmptyCart
    | Summary(lines: nat, subtotal: real, discount: real, total: real,
              showDiscountRow: bool, showSavingsBanner: bool, morePhotosHint: Option<nat>)

  /** The page: the empty view comes before any pricing; then the summary and the hints. */
  function View(cart: seq<CartItem>): (v: CartView)
    ensures v.EmptyCart? <==> cart == []
    ensures v.Summary? ==> v.lines == |cart| && v.total == v.subtotal - v.discount
    ensures v.Summary? ==> v.subtotal == Subtotal(cart)
    ensures v.Summary? ==> v.discount == (if |cart| >= 3 then v.subtotal * 0.1 else 0.0)
    ensures v.Summary? ==> (v.showDiscountRow <==> v.discount > 0.0)
    ensures v.Summary? ==> (v.showSavingsBanner <==> |cart| >= 3)
    ensures v.Summary? ==> (v.morePhotosHint.Some? <==> |cart| < 3)
    ensures v.Summary? && v.morePhotosHint.Some? ==>
              1 <= v.morePhotosHint.value <= 2 && v.morePhotosHint.value + |cart| == 3
  {
    if |cart| == 0 then EmptyCart
    else
      var subtotal := Subtotal(cart);
      var discount := Discount(cart);
      Summary(|cart|, subtotal, discount, subtotal - discount,
              discount > 0.0, |cart| >= 3, if |cart| < 3 then Some(3 - |cart|) else None)
  }

  /** The discount row appears exactly for a priced cart of three or more lines. */
  lemma DiscountRowShown(cart: seq<CartItem>)
    requires cart != [] && NonNegativePrices(cart)
    ensures View(cart).showDiscountRow <==> |cart| >= 3 && Subtotal(cart) > 0.0
  {
    SubtotalNonNegative(cart);
  }

  /** `handleCheckout`: to the login page without a session, otherwise to checkout. */
  function CheckoutTarget(user: Option<User>): (r: string)
    ensures r == "/login" <==> user.None?
    ensures r == "/checkout" <==> user.Some?
  {
    if user.None? then "/login" else "/checkout"
  }

  /** `handleContinueShopping`: back to the event of the most recently added line. */
  function ContinueShoppingTarget(cart: seq<CartItem>): (r: string)
    ensures cart == [] ==> r == "/search"
    ensures cart != [] ==> Text.StartsWith(r, "/event/") && r[7..] == cart[|cart| - 1].eventId
  {
    if |cart| == 0 then "/search" else "/event/" + cart[|cart| - 1].eventId
  }

  /** `photoId.split("-")[1]`: the text between the first and the second '-', None for undefined. */
  function PhotoLabel(photoId: string): (r: Option<string>)
    ensures r.None? <==> '-' !in photoId
    ensures r.Some? ==> '-' !in r.value
    ensures r.Some? ==>
              var i := Text.IndexOf(photoId, '-').value;
              && r.value <= photoId[i + 1..]
              && (i + 1 + |r.value| == |photoId| || photoId[i + 1 + |r.value|] == '-')
  {
    match Text.IndexOf(photoId, '-')
    case None => None
    case Some(i) =>
      var rest := photoId[i + 1..];
      match Text.IndexOf(rest, '-')
      case None => Some(rest)
      case Some(j) => Some(rest[..j])
  }

  /** A catalogue photo id `<eventId>-<n>` is labelled with its number within the event. */
  lemma CatalogueLabel(eventId: string, index: string)
    requires '-' !in eventId && '-' !in index
    ensures PhotoLabel(eventId + "-" + index) == Some(index)
  {
    var s := eventId + "-" + index;
    assert s[|eventId|] == '-';
    assert s[..|eventId|] == eventId;
    assert Text.IndexOf(s, '-') == Some(|eventId|);
    assert s[|eventId| + 1..] == index;
  }
}
