/** The dashboard's four figures, computed from the catalog and the orders. */
module AdminDashboard {
  import opened Seqs
  import opened Catalog

  function OrderTotal(): Order -> int { (o: Order) => o.total }

  /** `reduce((sum, order) => sum + order.total, 0)`. */
  function TotalRevenue(orders: seq<Order>): int {
    SumOf(orders, OrderTotal())
  }

  /** Revenue adds up over any split of the orders, and with no negative
      totals it is never negative. */
  lemma {:induction false} RevenueAdds(a: seq<Order>, b: seq<Order>)
    ensures TotalRevenue(a + b) == TotalRevenue(a) + TotalRevenue(b)
  {
    SumOfAppend(a, b, OrderTotal());
  }

  lemma {:induction false} RevenueNonNegative(orders: seq<Order>)
    requires forall i :: 0 <= i < |orders| ==> orders[i].total >= 0
    ensures TotalRevenue(orders) >= 0
  {
    if orders != [] {
      RevenueNonNegative(orders[..|orders| - 1]);
    }
  }

  /** `inStock && inStock < 10`: a truthy stock figure below ten. A stock of
      zero is falsy, so a sold-out product is not counted; a negative one is. */
  predicate IsLowStock(p: Product) {
    Truthy(p.inStock) && p.inStock.value < 10
  }

  function LowStock(): Product -> bool { (p: Product) => IsLowStock(p) }

  /** The four figures: revenue, orders, products and low-stock products. */
  datatype Figures = Figures(totalRevenue: int, totalOrders: nat, productsCount: nat, lowStockCount: nat)

  function Overview(products: seq<Product>, orders: seq<Order>): (r: Figures)
    ensures r.totalRevenue == TotalRevenue(orders)
    ensures r.totalOrders == |orders| && r.productsCount == |products|
    ensures r.lowStockCount == |Filter(products, LowStock())|
    ensures r.lowStockCount <= r.productsCount
    ensures r.lowStockCount == 0 <==> forall i :: 0 <= i < |products| ==> !IsLowStock(products[i])
  {
    var low := Filter(products, LowStock());
    assert low == [] <==> forall i :: 0 <= i < |products| ==> !IsLowStock(products[i]) by {
      if low != [] {
        assert low[0] in products;
      } else {
        forall i | 0 <= i < |products| ensures !IsLowStock(products[i]) {
          assert products[i] in products;
        }
      }
    }
    Figures(TotalRevenue(orders), |orders|, |products|, |low|)
  }

  /** A sold-out product does not count as low on stock. */
  lemma SoldOutIsNotLowStock(p: Product)
    requires p.inStock == Some(0)
    ensures !IsLowStock(p)
  {
  }
}
