/** The catalog's records (a product, an order) and the two ways the storefront
    reads a product's effective price. */
module Catalog {
  import opened Seqs

  /** A catalog product. The image URL and the colour list are display-only
      and left out. */
  datatype Product = Product(
    id: string,
    name: string,
    description: string,
    price: int,
    salePrice: Option<int>,
    discount: int,
    category: string,
    size: seq<string>,
    tags: Option<seq<string>>,
    available: bool,
    inStock: Option<int>)

  const Sarees := "sarees"

  /** JavaScript truthiness of an optional number: present and not zero. */
  predicate Truthy(n: Option<int>) {
    n.Some? && n.value != 0
  }

  /** JavaScript truthiness of an optional string: present and not empty. */
  predicate TruthyText(s: Option<string>) {
    s.Some? && s.value != ""
  }

  /** `salePrice ?? price`: the unit price the cart store charges. */
  function ChargedPrice(p: Product): int {
    if p.salePrice.Some? then p.salePrice.value else p.price
  }

  /** `salePrice || price`: the unit price the pages display, filter and sort by. */
  function ShownPrice(p: Product): int {
    if Truthy(p.salePrice) then p.salePrice.value else p.price
  }

  /** The two price readings disagree exactly when the sale price is present
      but zero and the list price is not. */
  lemma PriceReadingsDiffer(p: Product)
    ensures ChargedPrice(p) != ShownPrice(p) <==> p.salePrice == Some(0) && p.price != 0
  {
  }

  /** `products.find(p => p.id === id)`: the first product with the id, if any. */
  function FindById(products: seq<Product>, id: string): (r: Option<Product>)
    ensures r.None? <==> forall i :: 0 <= i < |products| ==> products[i].id != id
    ensures r.Some? ==> r.value.id == id
    ensures r.Some? ==> exists k :: (0 <= k < |products| && products[k] == r.value &&
      forall i :: 0 <= i < k ==> products[i].id != id)
  {
    if products == [] then None
    else if products[0].id == id then assert products[0] == products[0]; Some(products[0])
    else
      var r := FindById(products[1..], id);
      assert r.Some? ==> exists k :: (0 <= k < |products| && products[k] == r.value &&
        forall i :: 0 <= i < k ==> products[i].id != id) by {
        if r.Some? {
          var k :| 0 <= k < |products[1..]| && products[1..][k] == r.value &&
            forall i :: 0 <= i < k ==> products[1..][i].id != id;
          assert products[k + 1] == r.value;
          assert forall i :: 0 <= i < k + 1 ==> products[i].id != id by {
            forall i | 0 <= i < k + 1 ensures products[i].id != id {
              if i > 0 { assert products[i] == products[1..][i - 1]; }
            }
          }
        }
      }
      r
  }

  datatype OrderItem = OrderItem(productId: string, quantity: int, price: int)

  datatype ShippingAddress = ShippingAddress(
    name: string, address: string, city: string, state: string, pincode: string, phone: string)

  /** An order. Its date is kept as the timestamp it parses to, a comparable key. */
  datatype Order = Order(
    id: string,
    userId: string,
    items: seq<OrderItem>,
    total: int,
    status: string,
    date: int,
    shippingAddress: Option<ShippingAddress>)
}
