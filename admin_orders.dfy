/** The administrator's order list: search by id or customer name, filter by
    status, newest first, and the status change. */
module AdminOrders {
  import opened Seqs
  import opened Text
  import opened Catalog
  import Sorting
  import AdminDashboard

  const AllStatuses := "all"

  /** The search box: the term, ignoring case, occurs in the order id or in
      the shipping name when there is an address. */
  predicate MatchesTerm(o: Order, term: string) {
    ContainsIgnoringCase(o.id, term) ||
    (o.shippingAddress.Some? && ContainsIgnoringCase(o.shippingAddress.value.name, term))
  }

  /** The status select: 'all', or the status equal ignoring case. */
  predicate MatchesStatus(o: Order, statusFilter: string) {
    statusFilter == AllStatuses || Lower(o.status) == Lower(statusFilter)
  }

  function Shown(term: string, statusFilter: string): Order -> bool {
    (o: Order) => MatchesTerm(o, term) && MatchesStatus(o, statusFilter)
  }

  /** `filteredOrders`. */
  function FilteredOrders(orders: seq<Order>, term: string, statusFilter: string): (r: seq<Order>)
    ensures forall o :: o in r <==> o in orders && MatchesTerm(o, term) && MatchesStatus(o, statusFilter)
    ensures forall o :: multiset(r)[o] == if MatchesTerm(o, term) && MatchesStatus(o, statusFilter)
                                         then multiset(orders)[o] else 0
  {
    Filter(orders, Shown(term, statusFilter))
  }

  /** The empty search with every status shows every order. */
  lemma NoFilterShowsAll(orders: seq<Order>)
    ensures FilteredOrders(orders, "", AllStatuses) == orders
  {
    forall o | o in orders ensures Shown("", AllStatuses)(o) {
      assert OccursAt(Lower(o.id), Lower(""), 0);
    }
    FilterKeepsAll(orders, Shown("", AllStatuses));
  }

  function NewestFirstKey(): Order -> int { (o: Order) => -o.date }

  /** `sortedOrders`: the filtered orders, newest first. */
  method SortedOrders(orders: seq<Order>, term: string, statusFilter: string) returns (r: seq<Order>)
    ensures multiset(r) == multiset(FilteredOrders(orders, term, statusFilter))
    ensures forall i, j :: 0 <= i < j < |r| ==> r[i].date >= r[j].date
  {
    var shown := FilteredOrders(orders, term, statusFilter);
    r := Sorting.Sorted(shown, NewestFirstKey());
    assert forall i, j :: 0 <= i < j < |r| ==> NewestFirstKey()(r[i]) <= NewestFirstKey()(r[j]);
  }

  function HasId(id: string): Order -> bool { (o: Order) => o.id == id }
  function WithStatus(s: string): Order -> Order { (o: Order) => o.(status := s) }

  /** `handleStatusChange`: every order with the id takes the new status. */
  function StatusChanged(orders: seq<Order>, id: string, status: string): (r: seq<Order>)
    ensures |r| == |orders|
    ensures forall i :: 0 <= i < |r| && orders[i].id == id ==> r[i] == orders[i].(status := status)
    ensures forall i :: 0 <= i < |r| && orders[i].id != id ==> r[i] == orders[i]
  {
    MapWhere(orders, HasId(id), WithStatus(status))
  }

  /** A status change moves no money: the revenue is the same before and after. */
  lemma StatusChangeKeepsRevenue(orders: seq<Order>, id: string, status: string)
    ensures AdminDashboard.TotalRevenue(StatusChanged(orders, id, status)) == AdminDashboard.TotalRevenue(orders)
  {
    SumOfMapWhere(orders, HasId(id), WithStatus(status), AdminDashboard.OrderTotal());
  }

  /** The later of two changes to one order wins. */
  lemma LastStatusWins(orders: seq<Order>, id: string, s1: string, s2: string)
    ensures StatusChanged(StatusChanged(orders, id, s1), id, s2) == StatusChanged(orders, id, s2)
  {
    var a := StatusChanged(StatusChanged(orders, id, s1), id, s2);
    var b := StatusChanged(orders, id, s2);
    assert forall i :: 0 <= i < |a| ==> a[i] == b[i];
  }

  class OrdersPage {
    var orders: seq<Order>
    var searchTerm: string
    var statusFilter: string
    var current: Option<Order>

    constructor (initial: seq<Order>)
      ensures orders == initial && searchTerm == "" && statusFilter == AllStatuses && current == None
    {
      orders := initial;
      searchTerm := "";
      statusFilter := AllStatuses;
      current := None;
    }

    method Search(term: string)
      modifies this`searchTerm
      ensures searchTerm == term
    {
      searchTerm := term;
    }

    method FilterStatus(s: string)
      modifies this`statusFilter
      ensures statusFilter == s
    {
      statusFilter := s;
    }

    /** `handleViewOrder`: the dialog shows a copy, which a later status
        change does not refresh. */
    method View(o: Order)
      modifies this`current
      ensures current == Some(o)
    {
      current := Some(o);
    }

    method ChangeStatus(id: string, status: string)
      modifies this`orders
      ensures orders == StatusChanged(old(orders), id, status)
    {
      orders := StatusChanged(orders, id, status);
    }
  }
}
