/** The seller dashboard: the seller's own products and the orders that touch
    them, and the four figures shown above the tabs. */
module Dashboard {
  import opened Collections
  import opened AppStore

  datatype Stats = Stats(totalRevenue: int, totalOrders: int, totalProducts: int, pendingOrders: int)

  /** `sellerProducts`: exactly the products listed under the seller. */
  function SellerProducts(products: seq<Product>, sellerId: string): (r: seq<Product>)
    ensures forall i :: 0 <= i < |r| ==> r[i] in products && r[i].sellerId == sellerId
    ensures forall i :: 0 <= i < |products| && products[i].sellerId == sellerId ==> products[i] in r
  {
    Filter(products, OwnedBy(sellerId))
  }

  function OwnedBy(sellerId: string): Product -> bool {
    (p: Product) => p.sellerId == sellerId
  }

  /** Some line of the order names a product that, looked up in the current list, is the seller's. */
  predicate Involves(o: Order, products: seq<Product>, sellerId: string) {
    exists i :: 0 <= i < |o.items| && OwnedLine(o.items[i], products, sellerId)
  }

  predicate OwnedLine(line: OrderLine, products: seq<Product>, sellerId: string) {
    var found := FindProduct(products, line.productId);
    found.Some? && found.value.sellerId == sellerId
  }

  /** `sellerOrders`: exactly the orders involving one of the seller's current products. */
  function SellerOrders(orders: seq<Order>, products: seq<Product>, sellerId: string): (r: seq<Order>)
    ensures forall i :: 0 <= i < |r| ==> r[i] in orders && Involves(r[i], products, sellerId)
    ensures forall i :: 0 <= i < |orders| && Involves(orders[i], products, sellerId) ==> orders[i] in r
  {
    Filter(orders, InvolvesSeller(products, sellerId))
  }

  function InvolvesSeller(products: seq<Product>, sellerId: string): Order -> bool {
    (o: Order) => Involves(o, products, sellerId)
  }

  function IsPending(): Order -> bool {
    (o: Order) => o.status == Pending
  }

  /** An order of the seller that is still pending. */
  function PendingFor(products: seq<Product>, sellerId: string): Order -> bool {
    (o: Order) => Involves(o, products, sellerId) && o.status == Pending
  }

  function OrderTotal(o: Order): int {
    o.total
  }

  /** Nothing is computed unless a seller is logged in. The figures, counted over the
      store's whole lists: the seller's products; the orders involving the seller; the
      whole totals of those orders added up, lines of other sellers and shipping
      included; and those of them still pending. */
  function DashboardStats(user: Option<User>, products: seq<Product>, orders: seq<Order>): (r: Option<Stats>)
    ensures r.Some? <==> user.Some? && user.value.role == Seller
    ensures r.Some? ==> r.value.totalProducts == Count(products, OwnedBy(user.value.id))
    ensures r.Some? ==> r.value.totalOrders == Count(orders, InvolvesSeller(products, user.value.id))
    ensures r.Some? ==>
              r.value.totalRevenue == SumWhere(orders, InvolvesSeller(products, user.value.id), OrderTotal)
    ensures r.Some? ==> r.value.pendingOrders == Count(orders, PendingFor(products, user.value.id))
    ensures r.Some? ==> r.value.pendingOrders <= r.value.totalOrders <= |orders|
    ensures r.Some? ==> r.value.totalProducts <= |products|
  {
    if user.None? || user.value.role != Seller then None
    else
      var id := user.value.id;
      var mine := SellerProducts(products, id);
      var theirs := SellerOrders(orders, products, id);
      var pending := Filter(theirs, IsPending());
      FilterCount(products, OwnedBy(id));
      FilterCount(orders, InvolvesSeller(products, id));
      FilterSum(orders, InvolvesSeller(products, id), OrderTotal);
      FilterCount(theirs, IsPending());
      CountFiltered(orders, InvolvesSeller(products, id), IsPending(), PendingFor(products, id));
      Some(Stats(Sum(theirs, OrderTotal), |theirs|, |mine|, |pending|))
  }

  /** Revenue is never negative when no order total is. */
  lemma RevenueNonNegative(user: Option<User>, products: seq<Product>, orders: seq<Order>)
    requires forall i :: 0 <= i < |orders| ==> orders[i].total >= 0
    ensures var r := DashboardStats(user, products, orders);
            r.Some? ==> r.value.totalRevenue >= 0
  {
    if user.Some? && user.value.role == Seller {
      var theirs := SellerOrders(orders, products, user.value.id);
      SumLowerBound(theirs, OrderTotal, 0);
    }
  }

  /** Deleting a product can only remove orders from a seller's list: an order that
      involved the seller only through the deleted product no longer counts. */
  lemma DeleteNeverAddsSellerOrders(o: Order, products: seq<Product>, id: string, sellerId: string)
    ensures Involves(o, DropProducts(products, id), sellerId) ==> Involves(o, products, sellerId)
    ensures (forall i :: 0 <= i < |o.items| ==> o.items[i].productId == id) ==>
              !Involves(o, DropProducts(products, id), sellerId)
  {
    forall i | 0 <= i < |o.items|
      ensures OwnedLine(o.items[i], DropProducts(products, id), sellerId) ==> OwnedLine(o.items[i], products, sellerId)
      ensures o.items[i].productId == id ==> !OwnedLine(o.items[i], DropProducts(products, id), sellerId)
    {
      FindProductAfterDrop(products, id, o.items[i].productId);
    }
  }
}
