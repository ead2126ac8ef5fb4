/** The product page: which product it shows, the quantity stepper bounded by
    the stock, the size buttons, and the add-to-cart button. */
module ProductDetail {
  import opened Seqs
  import opened Catalog
  import opened CartStore
  import ProductCard

  /** The product shown when the id in the address matches nothing. */
  function FallbackProduct(): Product {
    Product("1", "Classic Chanderi Silk Saree",
      "Elegant Chanderi silk saree with golden zari work border and handcrafted designs.",
      4999, Some(3999), 20, Sarees, ["Free Size"], Some(["festive", "wedding", "silk"]), true, Some(10))
  }

  /** The first catalog product with the id, or the fallback saree. */
  function ResolveProduct(catalog: seq<Product>, id: string): (r: Product)
    ensures (exists i :: 0 <= i < |catalog| && catalog[i].id == id) ==> r.id == id && r in catalog
    ensures (forall i :: 0 <= i < |catalog| ==> catalog[i].id != id) ==> r == FallbackProduct()
    ensures FindById(catalog, id).Some? ==> r == FindById(catalog, id).value
  {
    var found := FindById(catalog, id);
    if found.Some? then found.value else FallbackProduct()
  }

  /** A page for an unknown id shows, and sells, product "1". */
  lemma UnknownIdShowsFallback(catalog: seq<Product>, id: string)
    requires forall i :: 0 <= i < |catalog| ==> catalog[i].id != id
    ensures ResolveProduct(catalog, id).id == "1"
    ensures ResolveProduct(catalog, id).category == Sarees
  {
  }

  /** The stepper's bound: at least one, and within a truthy stock figure
      unless it is still the initial one. */
  predicate QuantityFits(p: Product, q: int) {
    q >= 1 && (Truthy(p.inStock) ==> q == 1 || q <= p.inStock.value)
  }

  /** What a click on Add to Cart did. */
  datatype AddOutcome = Disabled | NotSignedIn | SizeMissing | AddedToCart

  /** The page's state lives as long as the route element: following a link
      to another product re-reads the id but keeps the quantity, the size and
      the heart chosen for the previous one. */
  class Page {
    var product: Product
    var quantity: int
    var selectedSize: string
    var isWishlist: bool

    /** The steppers never go below one; the stock bound holds only until the
        product changes under the page (see `ChangeProduct`). */
    ghost predicate Valid()
      reads this
    {
      quantity >= 1
    }

    constructor (catalog: seq<Product>, id: string)
      ensures Valid() && product == ResolveProduct(catalog, id)
      ensures quantity == 1 && selectedSize == "" && !isWishlist
      ensures QuantityFits(product, quantity)
    {
      product := ResolveProduct(catalog, id);
      quantity := 1;
      selectedSize := "";
      isWishlist := false;
    }

    /** The route's id changes while the page stays mounted: the product is
        resolved again and nothing else is reset. */
    method ChangeProduct(catalog: seq<Product>, id: string)
      requires Valid()
      modifies this`product
      ensures Valid() && product == ResolveProduct(catalog, id)
    {
      product := ResolveProduct(catalog, id);
    }

    /** The minus button: only above one. */
    method Decrement()
      requires Valid()
      modifies this`quantity
      ensures Valid()
      ensures QuantityFits(product, old(quantity)) ==> QuantityFits(product, quantity)
      ensures quantity == if old(quantity) > 1 then old(quantity) - 1 else old(quantity)
    {
      if quantity > 1 {
        quantity := quantity - 1;
      }
    }

    /** The plus button: only below a truthy stock figure, freely otherwise. */
    method Increment()
      requires Valid()
      modifies this`quantity
      ensures Valid()
      ensures QuantityFits(product, old(quantity)) ==> QuantityFits(product, quantity)
      ensures quantity == if !Truthy(product.inStock) || old(quantity) < product.inStock.value
                          then old(quantity) + 1 else old(quantity)
    {
      if !Truthy(product.inStock) || quantity < product.inStock.value {
        quantity := quantity + 1;
      }
    }

    /** The number field, given what `parseInt` made of the text (`None` for
        `NaN`): a positive value within the stock is taken, anything else ignored. */
    method TypeQuantity(parsed: Option<int>)
      requires Valid()
      modifies this`quantity
      ensures Valid()
      ensures QuantityFits(product, old(quantity)) ==> QuantityFits(product, quantity)
      ensures quantity == if parsed.Some? && parsed.value > 0 &&
                             (!Truthy(product.inStock) || parsed.value <= product.inStock.value)
                          then parsed.value else old(quantity)
    {
      if parsed.Some? && parsed.value > 0 && (!Truthy(product.inStock) || parsed.value <= product.inStock.value) {
        quantity := parsed.value;
      }
    }

    /** A size button; the buttons are shown only for products that need a size. */
    method SelectSize(s: string)
      modifies this`selectedSize
      ensures selectedSize == s
    {
      selectedSize := s;
    }

    method ToggleWishlist(signedIn: bool)
      modifies this`isWishlist
      ensures isWishlist == (if signedIn then !old(isWishlist) else old(isWishlist))
    {
      if signedIn {
        isWishlist := !isWishlist;
      }
    }

    /** `handleAddToCart`, with the button disabled for an unavailable product.
        The signed-in user is the one the cart store tracks. The chosen size,
        even the empty one, goes along with the chosen quantity. */
    method AddToCart(cart: CartStore.Cart) returns (o: AddOutcome)
      requires cart.Valid()
      modifies cart
      ensures cart.Valid() && cart.user == old(cart.user)
      ensures o == Disabled <==> !product.available
      ensures o == NotSignedIn <==> product.available && old(cart.user).None?
      ensures o == SizeMissing <==>
        product.available && old(cart.user).Some? && ProductCard.NeedsSizeChoice(product) && selectedSize == ""
      ensures o != AddedToCart ==> cart.items == old(cart.items) && cart.storage == old(cart.storage)
      ensures o == AddedToCart ==> cart.items == Added(old(cart.items), product, quantity, Some(selectedSize))
      ensures o == AddedToCart ==> cart.storage == Persisted(old(cart.storage), cart.user, cart.items)
    {
      if !product.available {
        return Disabled;
      }
      if cart.user.None? {
        return NotSignedIn;
      }
      if ProductCard.NeedsSizeChoice(product) && selectedSize == "" {
        return SizeMissing;
      }
      cart.AddToCart(product, quantity, Some(selectedSize));
      o := AddedToCart;
    }
  }

  /** Following a link from one product page to another and pressing Add to
      Cart adds the quantity chosen for the first product, with its size; the
      quantity may then exceed the new product's stock. */
  method SwitchThenAdd(page: Page, cart: CartStore.Cart, catalog: seq<Product>, id: string)
    returns (o: AddOutcome)
    requires page.Valid() && cart.Valid()
    modifies page, cart
    ensures page.Valid() && page.product == ResolveProduct(catalog, id)
    ensures page.quantity == old(page.quantity) && page.selectedSize == old(page.selectedSize)
    ensures o == AddedToCart ==>
      cart.items == Added(old(cart.items), ResolveProduct(catalog, id), old(page.quantity), Some(old(page.selectedSize)))
    ensures var stock := ResolveProduct(catalog, id).inStock;
      Truthy(stock) && old(page.quantity) > 1 && old(page.quantity) > stock.value ==>
        !QuantityFits(page.product, page.quantity)
  {
    page.ChangeProduct(catalog, id);
    o := page.AddToCart(cart);
  }

  /** The page sends an unsized product with the empty size and the card sends
      it with none; the cart files both under one line, so adding the same
      product from both places into a cart without it leaves a single line
      holding both quantities. */
  lemma {:induction false} CardAndPageAddsShareALine(lines: seq<Line>, p: Product, q1: int, q2: int)
    requires SumOf(lines, KeyedCount(p.id, None)) == 0
    ensures var r := Added(Added(lines, p, q1, None), p, q2, Some(""));
      SumOf(r, KeyedCount(p.id, None)) == 1 &&
      SumOf(r, KeyedQuantity(p.id, None)) == SumOf(lines, KeyedQuantity(p.id, None)) + q1 + q2
  {
    AddedByIdentity(lines, p, q1, None, p.id, None);
    AddedByIdentity(Added(lines, p, q1, None), p, q2, Some(""), p.id, None);
  }
}
