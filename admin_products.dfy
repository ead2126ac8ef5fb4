/** The administrator's product table: the search over it, and adding,
    editing and deleting products, all in the page's own copy of the catalog. */
module AdminProducts {
  import opened Seqs
  import opened Text
  import opened Catalog

  /** The add form: the fields a new product starts from. */
  datatype Draft = Draft(
    name: string, description: string, price: int, category: string,
    size: seq<string>, available: bool, inStock: int, discount: int)

  /** The form as it opens and as it is reset after an add. */
  function BlankDraft(): Draft {
    Draft("", "", 0, "", ["Free Size"], true, 10, 0)
  }

  /** `Math.round(price * (1 - discount / 100))` when both numbers are truthy,
      `undefined` otherwise; the product is computed exactly and rounded half up. */
  function SalePriceFor(price: int, discount: int): (r: Option<int>)
    ensures r.None? <==> price == 0 || discount == 0
    ensures r.Some? ==> 100 * r.value - 50 <= price * (100 - discount) < 100 * r.value + 50
  {
    if discount != 0 && price != 0 then Some((2 * price * (100 - discount) + 100) / 200) else None
  }

  /** A discount of at most 100 percent on a positive price gives a sale price
      between zero and the price. */
  lemma SalePriceWithinPrice(price: int, discount: int)
    requires price > 0 && 0 < discount <= 100
    ensures 0 <= SalePriceFor(price, discount).value <= price
  {
  }

  /** `product-${products.length + 1}`. */
  function ProductId(count: nat): string {
    "product-" + NatToString(count + 1)
  }

  /** The product `handleAddProductSubmit` appends to a table of `count` products. */
  function NewProduct(d: Draft, count: nat): (p: Product)
    ensures p.id == ProductId(count)
    ensures p.name == d.name && p.description == d.description && p.price == d.price
    ensures p.category == d.category && p.size == d.size && p.available == d.available
    ensures p.inStock == Some(d.inStock) && p.discount == d.discount && p.tags == None
    ensures p.salePrice == SalePriceFor(d.price, d.discount)
  {
    Product(ProductId(count), d.name, d.description, d.price, SalePriceFor(d.price, d.discount),
            d.discount, d.category, d.size, None, d.available, Some(d.inStock))
  }

  /** The revised product with its sale price recomputed from its price and
      discount; every other field as revised. */
  function WithSalePrice(p: Product): (r: Product)
    ensures r.salePrice == SalePriceFor(p.price, p.discount)
    ensures r.(salePrice := p.salePrice) == p
  {
    p.(salePrice := SalePriceFor(p.price, p.discount))
  }

  function HasId(id: string): Product -> bool { (p: Product) => p.id == id }
  function LacksId(id: string): Product -> bool { (p: Product) => p.id != id }
  function Replacing(p: Product): Product -> Product { (_: Product) => WithSalePrice(p) }

  /** `handleEditProductSubmit`: every product carrying the revised product's
      id becomes the revised product; the others stay in place. */
  function Edited(products: seq<Product>, revised: Product): (r: seq<Product>)
    ensures |r| == |products|
    ensures forall i :: 0 <= i < |r| ==> r[i].id == products[i].id
    ensures forall i :: 0 <= i < |r| && products[i].id == revised.id ==> r[i] == WithSalePrice(revised)
    ensures forall i :: 0 <= i < |r| && products[i].id != revised.id ==> r[i] == products[i]
  {
    MapWhere(products, HasId(revised.id), Replacing(revised))
  }

  /** `handleDeleteProductSubmit`: drop every product with the id. */
  function Deleted(products: seq<Product>, id: string): (r: seq<Product>)
    ensures forall p :: p in r <==> p in products && p.id != id
    ensures forall p: Product :: p.id != id ==> multiset(r)[p] == multiset(products)[p]
    ensures |r| <= |products|
  {
    Filter(products, LacksId(id))
  }

  /** Deleting keeps the others in their order: it acts on each product alone
      and the pieces are joined in place. */
  lemma DeletedKeepsOrder(a: seq<Product>, b: seq<Product>, p: Product, id: string)
    ensures Deleted(a + b, id) == Deleted(a, id) + Deleted(b, id)
    ensures Deleted([p], id) == if p.id == id then [] else [p]
  {
    FilterAppend(a, b, LacksId(id));
    assert [p][1..] == [];
  }

  /** Editing twice with the same revision is editing once. */
  lemma EditIdempotent(products: seq<Product>, revised: Product)
    ensures Edited(Edited(products, revised), revised) == Edited(products, revised)
  {
  }

  /** A freshly added product can be deleted again, leaving the table as it
      was, as long as no older product already carried the new id. */
  lemma DeleteUndoesAdd(products: seq<Product>, d: Draft)
    requires forall i :: 0 <= i < |products| ==> products[i].id != ProductId(|products|)
    ensures Deleted(products + [NewProduct(d, |products|)], ProductId(|products|)) == products
  {
    var keep := LacksId(ProductId(|products|));
    FilterAppend(products, [NewProduct(d, |products|)], keep);
    FilterKeepsAll(products, keep);
    assert Filter([NewProduct(d, |products|)], keep) == [];
  }

  /** The id counts the table, not the ids handed out: add two products to an
      empty table, delete the first, add again, and two products share the id
      "product-2". An edit or a delete of either then acts on both. */
  lemma AddAfterDeleteReusesId(d: Draft)
    ensures var s := Deleted([NewProduct(d, 0), NewProduct(d, 1)], ProductId(0));
      var t := s + [NewProduct(d, |s|)];
      |t| == 2 && t[0].id == t[1].id == "product-2"
  {
    var a := NewProduct(d, 0);
    var b := NewProduct(d, 1);
    ProductIdsDiffer(0, 1);
    SecondId();
    assert [a, b] == [a] + [b];
    DeletedKeepsOrder([a], [b], a, ProductId(0));
    DeletedKeepsOrder([a], [b], b, ProductId(0));
    var s := Deleted([a, b], ProductId(0));
    assert s == [b];
    assert NewProduct(d, |s|) == b;
  }

  lemma SecondId()
    ensures ProductId(1) == "product-2"
  {
    assert NatToString(2) == "2";
  }

  /** Tables of different sizes hand out different ids. */
  lemma ProductIdsDiffer(m: nat, n: nat)
    requires m != n
    ensures ProductId(m) != ProductId(n)
  {
    NatToStringInjective(m + 1, n + 1);
    var a, b := ProductId(m), ProductId(n);
    assert a[8..] == NatToString(m + 1) && b[8..] == NatToString(n + 1);
  }

  /** The table's search: the term, ignoring case, occurs in the name or the category. */
  predicate AdminMatch(p: Product, term: string) {
    ContainsIgnoringCase(p.name, term) || ContainsIgnoringCase(p.category, term)
  }

  function Matching(term: string): Product -> bool { (p: Product) => AdminMatch(p, term) }

  /** `filteredProducts`: the rows shown, in table order. */
  function FilteredProducts(products: seq<Product>, term: string): (r: seq<Product>)
    ensures forall p :: p in r <==> p in products && AdminMatch(p, term)
    ensures forall p :: multiset(r)[p] == if AdminMatch(p, term) then multiset(products)[p] else 0
    ensures |r| <= |products|
  {
    Filter(products, Matching(term))
  }

  class Table {
    var products: seq<Product>
    var draft: Draft
    var current: Option<Product>
    var searchTerm: string

    constructor (catalog: seq<Product>)
      ensures products == catalog && draft == BlankDraft() && current == None && searchTerm == ""
    {
      products := catalog;
      draft := BlankDraft();
      current := None;
      searchTerm := "";
    }

    method Search(term: string)
      modifies this`searchTerm
      ensures searchTerm == term
    {
      searchTerm := term;
    }

    /** The add form's inputs. */
    method EditDraft(d: Draft)
      modifies this`draft
      ensures draft == d
    {
      draft := d;
    }

    /** `handleAddProductSubmit`: append the product built from the form and
        reset the form. */
    method AddSubmit() returns (p: Product)
      modifies this`products, this`draft
      ensures p == NewProduct(old(draft), |old(products)|)
      ensures products == old(products) + [p] && draft == BlankDraft()
    {
      p := NewProduct(draft, |products|);
      products := products + [p];
      draft := BlankDraft();
    }

    /** The edit and delete buttons of a row pick its product. */
    method Select(p: Product)
      modifies this`current
      ensures current == Some(p)
    {
      current := Some(p);
    }

    /** `handleEditProductSubmit`: without a chosen product nothing happens. */
    method EditSubmit()
      modifies this`products, this`current
      ensures old(current).None? ==> products == old(products) && current == None
      ensures old(current).Some? ==> products == Edited(old(products), old(current).value) && current == None
    {
      if current.None? {
        return;
      }
      products := Edited(products, current.value);
      current := None;
    }

    /** `handleDeleteProductSubmit`: without a chosen product nothing happens. */
    method DeleteSubmit()
      modifies this`products, this`current
      ensures old(current).None? ==> products == old(products) && current == None
      ensures old(current).Some? ==> products == Deleted(old(products), old(current).value.id) && current == None
    {
      if current.None? {
        return;
      }
      products := Deleted(products, current.value.id);
      current := None;
    }
  }
}
