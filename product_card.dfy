/** The product card on the listing pages: the wishlist heart, the add-to-cart
    button and the size dialog it opens for sized products. */
module ProductCard {
  import opened Seqs
  import opened Catalog
  import opened CartStore

  /** Sarees are always "Free Size"; any other product that lists sizes asks
      for one before it goes into the cart. */
  predicate NeedsSizeChoice(p: Product) {
    p.category != Sarees && |p.size| > 0
  }

  class Card {
    const product: Product
    var isWishlist: bool
    var showSizeDialog: bool
    var selectedSize: Option<string>

    constructor (p: Product)
      ensures product == p && !isWishlist && !showSizeDialog && selectedSize == None
    {
      product := p;
      isWishlist := false;
      showSizeDialog := false;
      selectedSize := None;
    }

    /** `toggleWishlist`: a visitor who is not signed in only gets a notice. */
    method ToggleWishlist(signedIn: bool)
      modifies this`isWishlist
      ensures isWishlist == (if signedIn then !old(isWishlist) else old(isWishlist))
    {
      if !signedIn {
        return;
      }
      isWishlist := !isWishlist;
    }

    /** `handleAddToCart`. The signed-in user is the one the cart store
        tracks. Nobody signed in: nothing happens. A product that needs a size
        opens the dialog; any other goes into the cart once, without a size. */
    method HandleAddToCart(cart: CartStore.Cart)
      requires cart.Valid()
      modifies this`showSizeDialog, cart
      ensures cart.Valid() && cart.user == old(cart.user)
      ensures old(cart.user).None? ==>
        cart.items == old(cart.items) && cart.storage == old(cart.storage) && showSizeDialog == old(showSizeDialog)
      ensures old(cart.user).Some? && NeedsSizeChoice(product) ==>
        showSizeDialog && cart.items == old(cart.items) && cart.storage == old(cart.storage)
      ensures old(cart.user).Some? && !NeedsSizeChoice(product) ==>
        showSizeDialog == old(showSizeDialog) && cart.items == Added(old(cart.items), product, 1, None) &&
        cart.storage == Persisted(old(cart.storage), cart.user, cart.items)
    {
      if cart.user.None? {
        return;
      }
      if NeedsSizeChoice(product) {
        showSizeDialog := true;
      } else {
        cart.AddToCart(product, 1, None);
      }
    }

    /** A size button in the dialog. */
    method SelectSize(s: string)
      modifies this`selectedSize
      ensures selectedSize == Some(s)
    {
      selectedSize := Some(s);
    }

    /** The dialog's Cancel button, or closing it: the chosen size is kept. */
    method CloseDialog()
      modifies this`showSizeDialog
      ensures !showSizeDialog
    {
      showSizeDialog := false;
    }

    /** `confirmAddToCart`: without a chosen size only a notice; with one the
        product goes into the cart once in that size and the dialog resets. */
    method ConfirmAddToCart(cart: CartStore.Cart)
      requires cart.Valid()
      modifies this`showSizeDialog, this`selectedSize, cart
      ensures cart.Valid() && cart.user == old(cart.user)
      ensures !TruthyText(old(selectedSize)) ==>
        cart.items == old(cart.items) && cart.storage == old(cart.storage) &&
        showSizeDialog == old(showSizeDialog) && selectedSize == old(selectedSize)
      ensures TruthyText(old(selectedSize)) ==>
        !showSizeDialog && selectedSize == None &&
        cart.items == (if cart.user.Some? then Added(old(cart.items), product, 1, old(selectedSize)) else old(cart.items)) &&
        cart.storage == Persisted(old(cart.storage), cart.user, cart.items)
    {
      if !TruthyText(selectedSize) {
        return;
      }
      cart.AddToCart(product, 1, selectedSize);
      showSizeDialog := false;
      selectedSize := None;
    }
  }

  /** A signed-in shopper adds a sized product: the button opens the dialog,
      choosing a size and confirming puts exactly one unit of that size in the
      cart, and the dialog is closed and reset afterwards. */
  method AddSizedProduct(card: Card, cart: CartStore.Cart, s: string)
    requires cart.Valid() && cart.user.Some? && NeedsSizeChoice(card.product) && s != ""
    modifies card, cart
    ensures cart.Valid() && cart.items == Added(old(cart.items), card.product, 1, Some(s))
    ensures FindLine(cart.items, card.product.id, Some(s)) >= 0
    ensures ItemCount(cart.items) == ItemCount(old(cart.items)) + 1
    ensures !card.showSizeDialog && card.selectedSize == None
  {
    card.HandleAddToCart(cart);
    card.SelectSize(s);
    card.ConfirmAddToCart(cart);
  }

  /** Toggling the heart twice while signed in leaves it as it was. */
  method ToggleTwice(card: Card)
    modifies card
    ensures card.isWishlist == old(card.isWishlist)
  {
    card.ToggleWishlist(true);
    card.ToggleWishlist(true);
  }
}
