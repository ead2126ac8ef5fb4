/** The cart page: what it shows for the visitor's state, the row and summary
    figures, and the row controls that call into the cart store. */
module CartPage {
  import opened Seqs
  import opened Catalog
  import CartStore
  import Checkout

  datatype View = LoginPrompt | EmptyCart | Lines

  /** No user: a login prompt; an empty cart: the empty state; else the table. */
  function PageView(signedIn: bool, lineCount: nat): (v: View)
    ensures v == LoginPrompt <==> !signedIn
    ensures v == EmptyCart <==> signedIn && lineCount == 0
  {
    if !signedIn then LoginPrompt else if lineCount == 0 then EmptyCart else Lines
  }

  /** The row subtotal: `(salePrice || price) * quantity`. */
  function RowSubtotal(l: CartStore.Line): (r: int)
    ensures r != CartStore.LineCharge()(l) ==> l.product.salePrice == Some(0)
    ensures l.product.salePrice == Some(0) ==> r == l.product.price * l.quantity
  {
    ShownPrice(l.product) * l.quantity
  }

  /** "Free" appears in the summary exactly when the checkout charges no shipping. */
  function ShowsFreeShipping(total: int): (free: bool)
    ensures free <==> Checkout.ShippingCost(total) == 0
  {
    total >= 999
  }

  /** The summary total: `totalPrice + (totalPrice >= 999 ? 0 : 99)`; the same
      figure the checkout page charges. */
  function SummaryTotal(total: int): (r: int)
    ensures r == Checkout.FinalTotal(total)
  {
    total + (if total >= 999 then 0 else 99)
  }

  /** Where "Proceed to Checkout" leads. */
  function ProceedTarget(signedIn: bool): (target: string)
    ensures signedIn <==> target == "/checkout"
    ensures !signedIn ==> target == "/login?redirect=/checkout"
  {
    if signedIn then "/checkout" else "/login?redirect=/checkout"
  }

  /** The "-" button: disabled at quantity 1 or less, else one less for the product. */
  method DecrementRow(cart: CartStore.Cart, row: CartStore.Line)
    requires cart.Valid()
    modifies cart
    ensures cart.Valid() && cart.user == old(cart.user)
    ensures row.quantity <= 1 ==> unchanged(cart)
    ensures row.quantity > 1 ==> cart.items == CartStore.Updated(old(cart.items), row.product.id, row.quantity - 1)
    ensures row.quantity > 1 ==> cart.storage == CartStore.Persisted(old(cart.storage), cart.user, cart.items)
  {
    if row.quantity <= 1 {
      return;
    }
    cart.UpdateQuantity(row.product.id, row.quantity - 1);
  }

  /** The "+" button: one more for the product. */
  method IncrementRow(cart: CartStore.Cart, row: CartStore.Line)
    requires cart.Valid()
    modifies cart
    ensures cart.Valid() && cart.user == old(cart.user)
    ensures cart.items == CartStore.Updated(old(cart.items), row.product.id, row.quantity + 1)
    ensures cart.storage == CartStore.Persisted(old(cart.storage), cart.user, cart.items)
  {
    cart.UpdateQuantity(row.product.id, row.quantity + 1);
  }

  /** The quantity box: `parseInt` of the text (`None` for NaN), forwarded
      only when it is greater than zero. */
  method TypeQuantity(cart: CartStore.Cart, row: CartStore.Line, parsed: Option<int>)
    requires cart.Valid()
    modifies cart
    ensures cart.Valid() && cart.user == old(cart.user)
    ensures !(parsed.Some? && parsed.value > 0) ==> unchanged(cart)
    ensures parsed.Some? && parsed.value > 0 ==>
      cart.items == CartStore.Updated(old(cart.items), row.product.id, parsed.value)
    ensures parsed.Some? && parsed.value > 0 ==> cart.storage == CartStore.Persisted(old(cart.storage), cart.user, cart.items)
  {
    if parsed.Some? && parsed.value > 0 {
      cart.UpdateQuantity(row.product.id, parsed.value);
    }
  }

  /** The bin icon: removes the product, every size of it. */
  method RemoveRow(cart: CartStore.Cart, row: CartStore.Line)
    requires cart.Valid()
    modifies cart
    ensures cart.Valid() && cart.user == old(cart.user)
    ensures cart.items == CartStore.Removed(old(cart.items), row.product.id)
    ensures cart.storage == CartStore.Persisted(old(cart.storage), cart.user, cart.items)
  {
    cart.RemoveFromCart(row.product.id);
  }

  /** The row controls act on the product, not on the row: lowering the
      quantity of one size of a product lowers it for its other size too. */
  lemma StepperActsOnEverySize(p: Product)
    ensures var lines := [CartStore.Line(p, 3, Some("M")), CartStore.Line(p, 1, Some("L"))];
      CartStore.Updated(lines, p.id, 2) == [CartStore.Line(p, 2, Some("M")), CartStore.Line(p, 2, Some("L"))]
  {
    var lines := [CartStore.Line(p, 3, Some("M")), CartStore.Line(p, 1, Some("L"))];
    var r := CartStore.Updated(lines, p.id, 2);
    assert |r| == 2;
  }
}
