/**
 * The checkout page: the login guard, the empty-cart guard, the pricing (the same rule as the
 * cart page) and the simulated payment, which clears the cart.
 */
module CheckoutPage {
  import opened Types
  import AppState
  import CartPage

  /** What one render of the page produces; `Redirect` stands for a router push and `null`. */
  datatype CheckoutView =
    | Redirect(path: string)
    | Completed
    | PaymentForm(subtotal: real, discount: real, total: real, showDiscountRow: bool)

  /** The price summary shown next to the payment form. */
  function PriceSummary(cart: seq<CartItem>): (v: CheckoutView)
    ensures v.PaymentForm? && v.total == v.subtotal - v.discount
    ensures v.subtotal == CartPage.Subtotal(cart)
    ensures v.discount == (if |cart| >= 3 then v.subtotal * 0.1 else 0.0)
    ensures v.showDiscountRow <==> v.discount > 0.0
  {
    var subtotal := CartPage.Subtotal(cart);
    var discount := CartPage.Discount(cart);
    PaymentForm(subtotal, discount, subtotal - discount, discount > 0.0)
  }

  /** The render as written: login guard, then the empty-cart guard, then the completion view. */
  function RenderAsWritten(user: Option<User>, cart: seq<CartItem>, isComplete: bool): (v: CheckoutView)
    ensures user.None? ==> v == Redirect("/login")
    ensures user.Some? && cart == [] ==> v == Redirect("/cart")
    ensures v.Completed? ==> user.Some? && cart != [] && isComplete
  {
    if user.None? then Redirect("/login")
    else if |cart| == 0 then Redirect("/cart")
    else if isComplete then Completed
    else PriceSummary(cart)
  }

  /** The render with the completion view checked before the empty-cart guard. */
  function Render(user: Option<User>, cart: seq<CartItem>, isComplete: bool): (v: CheckoutView)
    ensures user.None? ==> v == Redirect("/login")
    ensures user.Some? && isComplete ==> v == Completed
    ensures user.Some? && !isComplete && cart == [] ==> v == Redirect("/cart")
  {
    if user.None? then Redirect("/login")
    else if isComplete then Completed
    else if |cart| == 0 then Redirect("/cart")
    else PriceSummary(cart)
  }

  /** Both renders agree everywhere except after a completed payment on an empty cart. */
  lemma RendersAgreeBeforePayment(user: Option<User>, cart: seq<CartItem>, isComplete: bool)
    requires !isComplete || cart != []
    ensures Render(user, cart, isComplete) == RenderAsWritten(user, cart, isComplete)
  {
  }

  /** Checkout prices a cart exactly as the cart page does. */
  lemma CheckoutPricingMatchesCart(u: User, cart: seq<CartItem>)
    requires cart != []
    ensures var v := Render(Some(u), cart, false);
      var c := CartPage.View(cart);
      && v.PaymentForm? && c.Summary?
      && v.subtotal == c.subtotal && v.discount == c.discount && v.total == c.total
      && v.showDiscountRow == c.showDiscountRow
  {
  }

  class Checkout {
    var paymentMethod: string
    var isProcessing: bool
    var isComplete: bool

    constructor ()
      ensures paymentMethod == "pix" && !isProcessing && !isComplete
    {
      paymentMethod := "pix";
      isProcessing := false;
      isComplete := false;
    }

    method SetPaymentMethod(m: string)
      modifies this`paymentMethod
      ensures paymentMethod == m
    {
      paymentMethod := m;
    }

    /** `handlePayment`: processing on, then off, complete, and the cart cleared. */
    method HandlePayment(app: AppState.App)
      requires app.Valid()
      modifies this`isProcessing, this`isComplete, app`cart
      ensures app.Valid()
      ensures !isProcessing && isComplete && app.cart == []
    {
      isProcessing := true;
      isProcessing := false;
      isComplete := true;
      app.ClearCart();
    }
  }

  /**
   * As written, the render after a payment never shows the completion view: the payment
   * leaves the cart empty and the empty-cart guard runs first.
   */
  lemma PaymentHidesCompletion(app: AppState.App, page: Checkout)
    requires app.user.Some? && app.cart == [] && page.isComplete
    ensures RenderAsWritten(app.user, app.cart, page.isComplete) == Redirect("/cart")
  {
  }

  /** With the guards reordered, the render after a payment is the completion view. */
  lemma PaymentShowsCompletion(app: AppState.App, page: Checkout)
    requires app.user.Some? && app.cart == [] && page.isComplete
    ensures Render(app.user, app.cart, page.isComplete) == Completed
  {
  }
}
