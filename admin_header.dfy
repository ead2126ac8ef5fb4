/** The administrator's header bar: the quick search over products and orders,
    and the notification bell. */
module AdminHeader {
  import opened Seqs
  import opened Text
  import opened Catalog

  const MinQueryLength := 2
  const MaxHits := 5

  datatype HitKind = ProductHit | OrderHit

  /** One entry of the search drop-down. */
  datatype SearchHit = SearchHit(id: string, name: string, kind: HitKind, url: string)

  predicate ProductMatches(p: Product, q: string) {
    ContainsIgnoringCase(p.name, q) || ContainsIgnoringCase(p.description, q)
  }

  predicate OrderMatches(o: Order, q: string) {
    ContainsIgnoringCase(o.id, q) || ContainsIgnoringCase(o.status, q)
  }

  function ProductMatching(q: string): Product -> bool { (p: Product) => ProductMatches(p, q) }
  function OrderMatching(q: string): Order -> bool { (o: Order) => OrderMatches(o, q) }

  function ProductEntry(): Product -> SearchHit {
    (p: Product) => SearchHit(p.id, p.name, ProductHit, "/admin/products/" + p.id)
  }

  function OrderEntry(): Order -> SearchHit {
    (o: Order) => SearchHit(o.id, "Order #" + o.id, OrderHit, "/admin/orders/" + o.id)
  }

  /** The matching products as entries, in catalog order: entry `i` names the
      `i`-th product whose name or description contains the query and links
      to its admin page. */
  function ProductHits(products: seq<Product>, q: string): (r: seq<SearchHit>)
    ensures |r| == |Filter(products, ProductMatching(q))|
    ensures forall i :: 0 <= i < |r| ==>
      var p := Filter(products, ProductMatching(q))[i];
      r[i].kind == ProductHit && r[i].id == p.id && r[i].name == p.name && r[i].url == "/admin/products/" + p.id
  {
    Map(Filter(products, ProductMatching(q)), ProductEntry())
  }

  /** The matching orders as entries, in list order: entry `i` is for the
      `i`-th order whose id or status contains the query. */
  function OrderHits(orders: seq<Order>, q: string): (r: seq<SearchHit>)
    ensures |r| == |Filter(orders, OrderMatching(q))|
    ensures forall i :: 0 <= i < |r| ==>
      var o := Filter(orders, OrderMatching(q))[i];
      r[i].kind == OrderHit && r[i].id == o.id && r[i].name == "Order #" + o.id && r[i].url == "/admin/orders/" + o.id
  {
    Map(Filter(orders, OrderMatching(q)), OrderEntry())
  }

  /** The drop-down's entries: nothing for a short query, otherwise the first
      five of the product entries followed by the order entries. */
  function HeaderResults(products: seq<Product>, orders: seq<Order>, q: string): (r: seq<SearchHit>)
    ensures |Trim(q)| <= MinQueryLength ==> r == []
    ensures |Trim(q)| > MinQueryLength ==> r <= ProductHits(products, q) + OrderHits(orders, q)
    ensures |Trim(q)| > MinQueryLength && |ProductHits(products, q) + OrderHits(orders, q)| >= MaxHits ==>
      |r| == MaxHits
    ensures |Trim(q)| > MinQueryLength && |ProductHits(products, q) + OrderHits(orders, q)| <= MaxHits ==>
      r == ProductHits(products, q) + OrderHits(orders, q)
    ensures |r| <= MaxHits
    ensures forall i, j :: 0 <= i < j < |r| && r[j].kind == ProductHit ==> r[i].kind == ProductHit
  {
    if |Trim(q)| > MinQueryLength then
      var all := ProductHits(products, q) + OrderHits(orders, q);
      var r := Take(all, MaxHits);
      assert forall i :: 0 <= i < |r| ==> r[i] == all[i];
      r
    else []
  }

  /** `h` carries the id and admin link of a product that matches `q`. */
  predicate IsProductEntry(h: SearchHit, products: seq<Product>, q: string) {
    exists p :: p in products && ProductMatches(p, q) && h.id == p.id && h.url == "/admin/products/" + p.id
  }

  /** `h` carries the id and admin link of an order that matches `q`. */
  predicate IsOrderEntry(h: SearchHit, orders: seq<Order>, q: string) {
    exists o :: o in orders && OrderMatches(o, q) && h.id == o.id && h.url == "/admin/orders/" + o.id
  }

  /** Every entry of the drop-down stands for a catalog product or an order
      that matches the query, and carries its id and link. */
  lemma HeaderHitsAreMatches(products: seq<Product>, orders: seq<Order>, q: string)
    ensures forall h :: h in HeaderResults(products, orders, q) && h.kind == ProductHit ==>
      IsProductEntry(h, products, q)
    ensures forall h :: h in HeaderResults(products, orders, q) && h.kind == OrderHit ==>
      IsOrderEntry(h, orders, q)
  {
    var r := HeaderResults(products, orders, q);
    var ph, oh := ProductHits(products, q), OrderHits(orders, q);
    ProductHitsAreEntries(products, q);
    OrderHitsAreEntries(orders, q);
    forall h | h in r
      ensures h.kind == ProductHit ==> IsProductEntry(h, products, q)
      ensures h.kind == OrderHit ==> IsOrderEntry(h, orders, q)
    {
      var k :| 0 <= k < |r| && r[k] == h;
      ConcatEntry(ph, oh, k, products, orders, q);
    }
  }

  /** Entry `k` of product entries followed by order entries is one or the other. */
  lemma ConcatEntry(ph: seq<SearchHit>, oh: seq<SearchHit>, k: nat,
                    products: seq<Product>, orders: seq<Order>, q: string)
    requires forall i :: 0 <= i < |ph| ==> ph[i].kind == ProductHit && IsProductEntry(ph[i], products, q)
    requires forall i :: 0 <= i < |oh| ==> oh[i].kind == OrderHit && IsOrderEntry(oh[i], orders, q)
    requires k < |ph + oh|
    ensures (ph + oh)[k].kind == ProductHit ==> IsProductEntry((ph + oh)[k], products, q)
    ensures (ph + oh)[k].kind == OrderHit ==> IsOrderEntry((ph + oh)[k], orders, q)
  {
    if k < |ph| {
      assert (ph + oh)[k] == ph[k];
    } else {
      assert (ph + oh)[k] == oh[k - |ph|];
    }
  }

  /** Each product entry is of a matching product. */
  lemma ProductHitsAreEntries(products: seq<Product>, q: string)
    ensures forall i :: 0 <= i < |ProductHits(products, q)| ==>
      ProductHits(products, q)[i].kind == ProductHit && IsProductEntry(ProductHits(products, q)[i], products, q)
  {
    var pf := Filter(products, ProductMatching(q));
    forall i | 0 <= i < |ProductHits(products, q)|
      ensures IsProductEntry(ProductHits(products, q)[i], products, q)
    {
      assert pf[i] in pf;
    }
  }

  /** Each order entry is of a matching order. */
  lemma OrderHitsAreEntries(orders: seq<Order>, q: string)
    ensures forall i :: 0 <= i < |OrderHits(orders, q)| ==>
      OrderHits(orders, q)[i].kind == OrderHit && IsOrderEntry(OrderHits(orders, q)[i], orders, q)
  {
    var of := Filter(orders, OrderMatching(q));
    forall i | 0 <= i < |OrderHits(orders, q)|
      ensures IsOrderEntry(OrderHits(orders, q)[i], orders, q)
    {
      assert of[i] in of;
    }
  }

  /** Five matching products leave no room for orders. */
  lemma ProductsCrowdOutOrders(products: seq<Product>, orders: seq<Order>, q: string)
    requires |Trim(q)| > MinQueryLength && |Filter(products, ProductMatching(q))| >= MaxHits
    ensures forall i :: 0 <= i < |HeaderResults(products, orders, q)| ==>
      HeaderResults(products, orders, q)[i].kind == ProductHit
  {
    ProductHitsAreEntries(products, q);
    PrefixOfProductHits(HeaderResults(products, orders, q), ProductHits(products, q), OrderHits(orders, q));
  }

  /** A prefix no longer than the product entries holds only product entries. */
  lemma PrefixOfProductHits(r: seq<SearchHit>, ph: seq<SearchHit>, oh: seq<SearchHit>)
    requires r <= ph + oh && |r| <= |ph|
    requires forall i :: 0 <= i < |ph| ==> ph[i].kind == ProductHit
    ensures forall i :: 0 <= i < |r| ==> r[i].kind == ProductHit
  {
    assert forall i :: 0 <= i < |r| ==> r[i] == (ph + oh)[i] == ph[i];
  }

  datatype Notification = Notification(id: int, text: string, time: string, read: bool)

  /** The red dot on the bell. */
  predicate HasUnread(ns: seq<Notification>) {
    exists i :: 0 <= i < |ns| && !ns[i].read
  }

  function MarkRead(): Notification -> Notification { (n: Notification) => n.(read := true) }

  /** `markAllAsRead`: every notification read, nothing else changed. */
  function AllRead(ns: seq<Notification>): (r: seq<Notification>)
    ensures |r| == |ns| && !HasUnread(r)
    ensures forall i :: 0 <= i < |r| ==> r[i] == ns[i].(read := true)
  {
    Map(ns, MarkRead())
  }

  /** The bell's starting notifications: two unread. */
  function InitialNotifications(): seq<Notification> {
    [Notification(1, "New order received", "5 minutes ago", false),
     Notification(2, "Product inventory low", "2 hours ago", false),
     Notification(3, "Customer support request", "Yesterday", true),
     Notification(4, "Weekly sales report ready", "3 days ago", true)]
  }

  class Header {
    const products: seq<Product>
    const orders: seq<Order>
    var query: string
    var results: seq<SearchHit>
    var showResults: bool
    var notifications: seq<Notification>

    /** While the drop-down is open it lists the entries for the text in the box. */
    ghost predicate Valid()
      reads this
    {
      showResults ==> results == HeaderResults(products, orders, query)
    }

    constructor (ps: seq<Product>, os: seq<Order>)
      ensures Valid() && products == ps && orders == os
      ensures query == "" && results == [] && !showResults && notifications == InitialNotifications()
    {
      products, orders := ps, os;
      query, results, showResults := "", [], false;
      notifications := InitialNotifications();
    }

    /** `handleSearch`, on every keystroke. */
    method Input(q: string)
      modifies this`query, this`results, this`showResults
      ensures Valid() && query == q && results == HeaderResults(products, orders, q)
      ensures showResults <==> |Trim(q)| > MinQueryLength
    {
      query := q;
      results := HeaderResults(products, orders, q);
      showResults := |Trim(q)| > MinQueryLength;
    }

    /** `navigateToSearch`, run by the Enter key: a query that is not all
        white space opens the search page and clears the box. */
    method NavigateToSearch() returns (target: Option<string>)
      requires Valid()
      modifies this`query, this`showResults
      ensures Valid()
      ensures Trim(old(query)) == [] <==> target.None?
      ensures target.None? ==> query == old(query) && showResults == old(showResults)
      ensures target.Some? ==> target.value == old(query) && query == "" && !showResults
    {
      if Trim(query) == [] {
        return None;
      }
      target := Some(query);
      query := "";
      showResults := false;
    }

    /** The X button in the box: empty text, no entries, closed. */
    method Clear()
      modifies this`query, this`results, this`showResults
      ensures Valid() && query == "" && results == [] && !showResults
    {
      query, results, showResults := "", [], false;
    }

    /** A click on an entry of the open drop-down follows its link and
        clears and closes the box; the entries stay, hidden. */
    method Pick(i: nat) returns (url: string)
      requires showResults && i < |results|
      modifies this`query, this`showResults
      ensures Valid() && url == results[i].url && query == "" && !showResults
    {
      url := results[i].url;
      query, showResults := "", false;
    }

    /** A mouse press outside the search area closes the drop-down. */
    method ClickOutside()
      modifies this`showResults
      ensures Valid() && !showResults
    {
      showResults := false;
    }

    method MarkAllAsRead()
      modifies this`notifications
      ensures notifications == AllRead(old(notifications))
      ensures !HasUnread(notifications)
    {
      notifications := AllRead(notifications);
    }
  }

  /** The bell starts with its red dot showing. */
  lemma InitiallyUnread()
    ensures HasUnread(InitialNotifications())
  {
    assert !InitialNotifications()[0].read;
  }
}
