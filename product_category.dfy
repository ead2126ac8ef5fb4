/** The category listing page: the products a category id selects, the search,
    size and price filters applied to them, the price sort, and the filter
    panel's state. */
module ProductCategory {
  import opened Seqs
  import opened Text
  import opened Catalog
  import Sorting

  /** The catalog fixtures the page reads: the main catalog and the three
      curated lists. */
  datatype Collections = Collections(
    main: seq<Product>, newArrivals: seq<Product>, bestSellers: seq<Product>, special: seq<Product>)

  const WishlistId := "wishlist"
  const NewArrivalsId := "new-arrivals"
  const BestSellersId := "best-sellers"
  const SpecialId := "special-collection"
  const SaleId := "sale"
  const AllId := "all"

  /** The ids that do not name a product category. */
  predicate IsListId(id: string) {
    id == WishlistId || id == NewArrivalsId || id == BestSellersId || id == SpecialId || id == SaleId || id == AllId
  }

  /** `p.discount && p.discount > 0`. */
  function OnSale(): Product -> bool { (p: Product) => p.discount > 0 }

  function InCategory(id: string): Product -> bool { (p: Product) => p.category == id }

  /** The products the category id selects before any filter. The wishlist is
      a stand-in: two special-collection and two best-selling products. */
  function BaseProducts(c: Collections, id: string): (r: seq<Product>)
    ensures id == WishlistId ==> r == Take(c.special, 2) + Take(c.bestSellers, 2) && |r| <= 4
    ensures id == NewArrivalsId ==> r == c.newArrivals
    ensures id == BestSellersId ==> r == c.bestSellers
    ensures id == SpecialId ==> r == c.special
    ensures id == AllId ==> r == c.main
    ensures id == SaleId ==> forall p :: p in r <==> p in c.main && p.discount > 0
    ensures id == SaleId ==> forall p :: multiset(r)[p] == if p.discount > 0 then multiset(c.main)[p] else 0
    ensures !IsListId(id) ==> forall p :: p in r <==> p in c.main && p.category == id
    ensures !IsListId(id) ==> forall p :: multiset(r)[p] == if p.category == id then multiset(c.main)[p] else 0
    ensures id == SaleId || !IsListId(id) ==> |r| <= |c.main|
  {
    if id == WishlistId then Take(c.special, 2) + Take(c.bestSellers, 2)
    else if id == NewArrivalsId then c.newArrivals
    else if id == BestSellersId then c.bestSellers
    else if id == SpecialId then c.special
    else if id == SaleId then Filter(c.main, OnSale())
    else if id == AllId then c.main
    else Filter(c.main, InCategory(id))
  }

  /** An id that is no list id and no product's category lists nothing. The
      `/wishlist` route mounts the page with no category id at all, which
      compares unequal to every category in the same way, so the wishlist
      branch is never taken there and the page is empty. */
  lemma UnmatchedCategoryListsNothing(c: Collections, id: string)
    requires !IsListId(id) && forall p :: p in c.main ==> p.category != id
    ensures BaseProducts(c, id) == []
  {
  }

  /** The search box's match: the lower-cased query, untrimmed, occurs in the
      name, the description, the category or one of the tags. */
  predicate MatchesSearch(p: Product, query: string) {
    ContainsIgnoringCase(p.name, query) || ContainsIgnoringCase(p.description, query) ||
    ContainsIgnoringCase(p.category, query) ||
    (p.tags.Some? && exists t :: t in p.tags.value && ContainsIgnoringCase(t, query))
  }

  /** The size filter keeps every saree and any product offering a selected size. */
  predicate FitsSizes(p: Product, sizes: seq<string>) {
    p.category == Sarees || exists s :: s in p.size && s in sizes
  }

  /** The price filter reads the shown price. */
  predicate InPriceRange(p: Product, lo: int, hi: int) {
    lo <= ShownPrice(p) <= hi
  }

  function Searching(query: string): Product -> bool { (p: Product) => MatchesSearch(p, query) }
  function Sized(sizes: seq<string>): Product -> bool { (p: Product) => FitsSizes(p, sizes) }
  function Priced(lo: int, hi: int): Product -> bool { (p: Product) => InPriceRange(p, lo, hi) }

  /** Whether a product passes the three filters. */
  predicate Passes(p: Product, query: string, sizes: seq<string>, lo: int, hi: int) {
    (query == "" || MatchesSearch(p, query)) && (sizes == [] || FitsSizes(p, sizes)) && InPriceRange(p, lo, hi)
  }

  /** The filters, applied only to a non-empty selection: search when there is
      a query, sizes when some are ticked, and always the price range. Each
      product is kept, as often as it occurs, exactly when it passes. */
  function Refined(base: seq<Product>, query: string, sizes: seq<string>, lo: int, hi: int): (r: seq<Product>)
    ensures forall p :: multiset(r)[p] == if Passes(p, query, sizes, lo, hi) then multiset(base)[p] else 0
    ensures forall p :: p in r <==> p in base && Passes(p, query, sizes, lo, hi)
  {
    if |base| == 0 then base
    else
      var a := if query != "" then Filter(base, Searching(query)) else base;
      var b := if |sizes| > 0 then Filter(a, Sized(sizes)) else a;
      Filter(b, Priced(lo, hi))
  }

  /** The empty query occurs in every text. */
  lemma EmptyQueryMatchesAll(p: Product)
    ensures MatchesSearch(p, "")
  {
    assert OccursAt(Lower(p.name), Lower(""), 0);
  }

  /** Neither the non-empty-selection guard nor the non-empty-query guard
      changes the outcome: the plain chain of the three filters, the search
      included, gives the same list. */
  lemma GuardsChangeNothing(base: seq<Product>, query: string, sizes: seq<string>, lo: int, hi: int)
    ensures Refined(base, query, sizes, lo, hi) ==
      Filter(if |sizes| > 0 then Filter(Filter(base, Searching(query)), Sized(sizes))
             else Filter(base, Searching(query)), Priced(lo, hi))
  {
    if query == "" {
      forall p | p in base ensures Searching(query)(p) {
        EmptyQueryMatchesAll(p);
      }
      FilterKeepsAll(base, Searching(query));
    }
  }

  /** The sort key for "price-low-high" and, negated, for "price-high-low". */
  function PriceKey(): Product -> int { (p: Product) => ShownPrice(p) }
  function NegatedPriceKey(): Product -> int { (p: Product) => -ShownPrice(p) }

  /** The listing the page shows: the refined selection, sorted by shown price
      when a price order is chosen and in catalog order otherwise. */
  method Listing(c: Collections, id: string, query: string, sizes: seq<string>, lo: int, hi: int, sortBy: string)
    returns (r: seq<Product>)
    ensures multiset(r) == multiset(Refined(BaseProducts(c, id), query, sizes, lo, hi))
    ensures sortBy == "price-low-high" ==>
      forall i, j :: 0 <= i < j < |r| ==> ShownPrice(r[i]) <= ShownPrice(r[j])
    ensures sortBy == "price-high-low" ==>
      forall i, j :: 0 <= i < j < |r| ==> ShownPrice(r[i]) >= ShownPrice(r[j])
    ensures sortBy != "price-low-high" && sortBy != "price-high-low" ==>
      r == Refined(BaseProducts(c, id), query, sizes, lo, hi)
  {
    var shown := Refined(BaseProducts(c, id), query, sizes, lo, hi);
    if sortBy != "price-low-high" && sortBy != "price-high-low" {
      return shown;
    }
    if sortBy == "price-low-high" {
      r := Sorting.Sorted(shown, PriceKey());
      assert forall i, j :: 0 <= i < j < |r| ==> PriceKey()(r[i]) <= PriceKey()(r[j]);
    } else {
      r := Sorting.Sorted(shown, NegatedPriceKey());
      assert forall i, j :: 0 <= i < j < |r| ==> NegatedPriceKey()(r[i]) <= NegatedPriceKey()(r[j]);
    }
  }

  /** `handleSizeToggle`: drop the size if ticked, append it otherwise. */
  function Toggled(sizes: seq<string>, s: string): (r: seq<string>)
    ensures s in r <==> s !in sizes
    ensures forall x :: x != s ==> (x in r <==> x in sizes)
    ensures NoDup(sizes) ==> NoDup(r)
  {
    if s in sizes then
      var r := Filter(sizes, (x: string) => x != s);
      assert NoDup(sizes) ==> NoDup(r) by {
        if NoDup(sizes) {
          FilterPreservesNoDup(sizes, (x: string) => x != s);
        }
      }
      r
    else sizes + [s]
  }

  /** Ticking a size and unticking it restores the list exactly. */
  lemma ToggleOnThenOff(sizes: seq<string>, s: string)
    requires s !in sizes
    ensures Toggled(Toggled(sizes, s), s) == sizes
  {
    var keep := (x: string) => x != s;
    FilterAppend(sizes, [s], keep);
    FilterKeepsAll(sizes, keep);
    assert Filter([s], keep) == [];
  }

  /** The sizes of some products, in order, duplicates included. */
  function FlatSizes(ps: seq<Product>): (r: seq<string>)
    ensures forall x :: x in r <==> exists p :: p in ps && x in p.size
  {
    if ps == [] then []
    else
      var r := ps[0].size + FlatSizes(ps[1..]);
      assert forall p :: p in ps <==> p == ps[0] || p in ps[1..] by {
        assert ps == [ps[0]] + ps[1..];
      }
      r
  }

  function NotSaree(): Product -> bool { (p: Product) => p.category != Sarees }

  /** The size checkboxes: every size a non-saree product offers, once each. */
  function AllSizes(catalog: seq<Product>): (r: seq<string>)
    ensures NoDup(r)
    ensures forall x :: x in r <==> exists p :: p in catalog && p.category != Sarees && x in p.size
  {
    Dedup(FlatSizes(Filter(catalog, NotSaree())))
  }

  const InitialMax := 50000
  const ClearedMax := 10000

  class FilterPanel {
    var sortBy: string
    var priceLo: int
    var priceHi: int
    var selectedSizes: seq<string>

    ghost predicate Valid()
      reads this
    {
      NoDup(selectedSizes)
    }

    constructor ()
      ensures Valid() && sortBy == "featured" && priceLo == 0 && priceHi == InitialMax && selectedSizes == []
    {
      sortBy := "featured";
      priceLo := 0;
      priceHi := InitialMax;
      selectedSizes := [];
    }

    method SetSort(s: string)
      modifies this`sortBy
      ensures sortBy == s
    {
      sortBy := s;
    }

    method ToggleSize(s: string)
      requires Valid()
      modifies this`selectedSizes
      ensures Valid() && selectedSizes == Toggled(old(selectedSizes), s)
    {
      selectedSizes := Toggled(selectedSizes, s);
    }

    /** `handlePriceChange`: the bounds are taken as given. */
    method ChangePrice(lo: int, hi: int)
      modifies this`priceLo, this`priceHi
      ensures priceLo == lo && priceHi == hi
    {
      priceLo := lo;
      priceHi := hi;
    }

    /** "Clear All Filters": no sizes, and the range 0 to 10000, narrower
        than the page's initial 0 to 50000. The sort is kept. */
    method ClearFilters()
      modifies this`selectedSizes, this`priceLo, this`priceHi
      ensures Valid() && selectedSizes == [] && priceLo == 0 && priceHi == ClearedMax
    {
      selectedSizes := [];
      priceLo := 0;
      priceHi := ClearedMax;
    }
  }

  /** Clearing the filters on a fresh page hides a product it showed: any
      product priced above 10000 and up to 50000. */
  lemma ClearingHidesDearProducts(p: Product)
    requires ClearedMax < ShownPrice(p) <= InitialMax
    ensures Passes(p, "", [], 0, InitialMax)
    ensures !Passes(p, "", [], 0, ClearedMax)
  {
  }
}
