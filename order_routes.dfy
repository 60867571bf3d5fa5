/** The server's order routes: creation, which walks the requested lines one at
    a time reserving stock as it goes, the status update, and the vendor's list. */
module OrderRoutes {
  import opened Collections
  import opened OrderSchema
  import opened ServerStore

  /** A requested line of the body: a product id and a number of units. */
  datatype LineRequest = LineRequest(product: string, quantity: int)

  /** Where the creation loop stands after some lines: the products as saved so far, the
      snapshotted lines, the running total, and whether a line has been refused. */
  datatype Run = Run(products: map<string, ServerProduct>, lines: seq<OrderItem>, total: int, rejected: bool)

  /** A line passes when its product exists and holds at least the units asked for. */
  predicate Accepts(products: map<string, ServerProduct>, item: LineRequest) {
    item.product in products && products[item.product].stock >= item.quantity
  }

  function Snapshot(item: LineRequest, p: ServerProduct): OrderItem {
    OrderItem(item.product, item.quantity, p.price, p.vendor)
  }

  /** The loop over the first `|items|` lines, one line at a time: each line is checked
      against the stock as already lowered by the earlier lines; a passing line lowers its
      product's stock, is snapshotted and added to the total; the first refused line stops
      the walk and nothing is undone. */
  function Reserve(products: map<string, ServerProduct>, items: seq<LineRequest>): Run
    decreases |items|
  {
    if items == [] then Run(products, [], 0, false)
    else
      var r := Reserve(products, items[..|items| - 1]);
      var item := items[|items| - 1];
      if r.rejected then r
      else if !Accepts(r.products, item) then r.(rejected := true)
      else
        var p := r.products[item.product];
        Run(r.products[item.product := p.(stock := p.stock - item.quantity)],
            r.lines + [Snapshot(item, p)], r.total + p.price * item.quantity, false)
  }

  function LineAmount(l: OrderItem): int {
    l.price * l.quantity
  }

  /** The units the lines take from product `id`. */
  function UnitsOf(lines: seq<OrderItem>, id: string): int {
    Sum(lines, (l: OrderItem) => if l.product == id then l.quantity else 0)
  }

  /** The lines of a run are the accepted prefix of the request, each with the product's price
      and vendor (which the loop never changes); the total is their sum; no product is added or
      removed and only stock changes. */
  lemma {:induction false} ReserveLines(products: map<string, ServerProduct>, items: seq<LineRequest>)
    ensures var r := Reserve(products, items);
            |r.lines| <= |items| && (!r.rejected ==> |r.lines| == |items|) &&
            r.products.Keys == products.Keys &&
            (forall id :: id in products ==> r.products[id] == products[id].(stock := r.products[id].stock)) &&
            r.total == Sum(r.lines, LineAmount)
    ensures var r := Reserve(products, items);
            forall j :: 0 <= j < |r.lines| ==>
              r.lines[j].product == items[j].product && r.lines[j].quantity == items[j].quantity &&
              items[j].product in products &&
              r.lines[j].price == products[items[j].product].price &&
              r.lines[j].vendor == products[items[j].product].vendor
    decreases |items|
  {
    if items != [] {
      var prefix := items[..|items| - 1];
      ReserveLines(products, prefix);
      var r := Reserve(products, prefix);
      var item := items[|items| - 1];
      if !r.rejected && Accepts(r.products, item) {
        var p := r.products[item.product];
        SumAppend(r.lines, [Snapshot(item, p)], LineAmount);
        var lines := r.lines + [Snapshot(item, p)];
        forall j | 0 <= j < |lines|
          ensures lines[j].product == items[j].product && lines[j].quantity == items[j].quantity
        {
          if j < |r.lines| {
            assert prefix[j] == items[j];
          }
        }
      } else {
        forall j | 0 <= j < |r.lines|
          ensures r.lines[j].product == items[j].product
        {
          assert prefix[j] == items[j];
        }
      }
    }
  }

  /** Each product's stock is lowered by exactly the units the accepted lines took from it. */
  lemma {:induction false} ReserveStock(products: map<string, ServerProduct>, items: seq<LineRequest>, id: string)
    requires id in products
    ensures var r := Reserve(products, items);
            id in r.products && r.products[id].stock == products[id].stock - UnitsOf(r.lines, id)
    decreases |items|
  {
    ReserveLines(products, items);
    if items != [] {
      var prefix := items[..|items| - 1];
      ReserveStock(products, prefix, id);
      var r := Reserve(products, prefix);
      var item := items[|items| - 1];
      if !r.rejected && Accepts(r.products, item) {
        var p := r.products[item.product];
        SumAppend(r.lines, [Snapshot(item, p)], (l: OrderItem) => if l.product == id then l.quantity else 0);
      }
    }
  }

  predicate NonNegativeStock(products: map<string, ServerProduct>) {
    forall id :: id in products ==> products[id].stock >= 0
  }

  /** Stock never goes negative in a run, whatever the quantities: a line only passes when the
      stock covers it. */
  lemma {:induction false} StockStaysNonNegative(products: map<string, ServerProduct>, items: seq<LineRequest>)
    requires NonNegativeStock(products)
    ensures NonNegativeStock(Reserve(products, items).products)
    decreases |items|
  {
    if items != [] {
      var prefix := items[..|items| - 1];
      StockStaysNonNegative(products, prefix);
      var r := Reserve(products, prefix);
      var item := items[|items| - 1];
      if !r.rejected && Accepts(r.products, item) {
        var p := r.products[item.product];
        var after := r.products[item.product := p.(stock := p.stock - item.quantity)];
        forall id | id in after
          ensures after[id].stock >= 0
        {
          if id != item.product {
            assert after[id] == r.products[id];
          }
        }
      }
    }
  }

  /** Once a line has been refused the walk is over: the later lines change nothing. */
  lemma {:induction false} RejectedSticks(products: map<string, ServerProduct>, items: seq<LineRequest>, k: nat)
    requires k <= |items|
    requires Reserve(products, items[..k]).rejected
    ensures Reserve(products, items) == Reserve(products, items[..k])
    decreases |items| - k
  {
    if k < |items| {
      assert items[..k + 1][..k] == items[..k];
      RejectedSticks(products, items, k + 1);
    } else {
      assert items[..k] == items;
    }
  }

  /** A refused run stopped at its first failing line: the lines before it all passed, the
      stock stays as those lines left it, and that line fails against it. */
  lemma {:induction false} FirstRejection(products: map<string, ServerProduct>, items: seq<LineRequest>)
    requires Reserve(products, items).rejected
    ensures var r := Reserve(products, items);
            var k := |r.lines|;
            k < |items| &&
            Reserve(products, items[..k]) == r.(rejected := false) &&
            !Accepts(r.products, items[k])
    decreases |items|
  {
    var prefix := items[..|items| - 1];
    var r := Reserve(products, prefix);
    ReserveLines(products, prefix);
    if r.rejected {
      FirstRejection(products, prefix);
      var k := |r.lines|;
      assert prefix[..k] == items[..k];
      assert prefix[k] == items[k];
    } else {
      assert prefix == items[..|items| - 1];
    }
  }

  /** The order the route builds from a completed run, saved with its number assigned first. */
  function Placement(customer: string, r: Run, address: ShippingAddress, paymentMethod: Option<string>,
                     now: nat, rnd: nat): (o: Result<Order, Invalid>)
    requires rnd < 1000
    ensures o.Ok? <==> (paymentMethod.None? || ParsePaymentMethod(paymentMethod.value).Some?) && ItemsValid(r.lines)
    ensures o.Ok? ==> o.value.customer == customer && o.value.items == r.lines && o.value.totalAmount == r.total
    ensures o.Ok? ==> o.value.status == Pending && o.value.orderNumber == OrderNumber(now, rnd)
    ensures o.Ok? ==> o.value.shippingAddress == address
  {
    match NewOrder(OrderFields(customer, r.lines, r.total, address, paymentMethod))
    case Err(e) => Err(e)
    case Ok(d) => Save(d, true, now, rnd)
  }

  /** `POST /orders`: the reply and the new state are those of the run over all lines. A refused
      line answers 400 and keeps the stock already taken; a refused save answers 500, again with
      the stock taken; otherwise the order is stored under `orderId` and the answer is 201. */
  method CreateOrder(db: Database, requester: Requester, items: seq<LineRequest>,
                     shippingAddress: ShippingAddress, paymentMethod: Option<string>,
                     orderId: string, now: nat, rnd: nat)
    returns (status: Status)
    requires rnd < 1000
    modifies db`products, db`orders
    ensures var r := Reserve(old(db.products), items);
            db.products == r.products &&
            (r.rejected ==> status == BadRequest && db.orders == old(db.orders)) &&
            (!r.rejected ==>
               var saved := Placement(requester.userId, r, shippingAddress, paymentMethod, now, rnd);
               (saved.Ok? ==> status == Created && db.orders == old(db.orders)[orderId := saved.value]) &&
               (saved.Err? ==> status == ServerError && db.orders == old(db.orders)))
  {
    var totalAmount := 0;
    var orderItems: seq<OrderItem> := [];
    var i := 0;
    while i < |items|
      invariant 0 <= i <= |items|
      invariant db.orders == old(db.orders)
      invariant Reserve(old(db.products), items[..i]) == Run(db.products, orderItems, totalAmount, false)
    {
      var item := items[i];
      assert items[..i + 1][..i] == items[..i];
      if item.product !in db.products || db.products[item.product].stock < item.quantity {
        RejectedSticks(old(db.products), items, i + 1);
        return BadRequest;
      }
      var product := db.products[item.product];
      orderItems := orderItems + [OrderItem(item.product, item.quantity, product.price, product.vendor)];
      totalAmount := totalAmount + product.price * item.quantity;
      db.products := db.products[item.product := product.(stock := product.stock - item.quantity)];
      i := i + 1;
    }
    assert items[..|items|] == items;
    var built := NewOrder(OrderFields(requester.userId, orderItems, totalAmount, shippingAddress, paymentMethod));
    if built.Err? {
      return ServerError;
    }
    var saved := Save(built.value, true, now, rnd);
    if saved.Err? {
      return ServerError;
    }
    db.orders := db.orders[orderId := saved.value];
    status := Created;
  }

  /** Two one-unit orders for the last unit, one after the other: the first takes it, the
      second is refused. */
  lemma LastUnitSoldOnce(products: map<string, ServerProduct>, id: string)
    requires id in products && products[id].stock == 1
    ensures var first := Reserve(products, [LineRequest(id, 1)]);
            !first.rejected && first.products[id].stock == 0 &&
            Reserve(first.products, [LineRequest(id, 1)]).rejected
  {
    var one := [LineRequest(id, 1)];
    assert one[..0] == [];
    var first := Reserve(products, one);
    assert Reserve(first.products, one[..0]) == Run(first.products, [], 0, false);
  }

  /** A negative quantity passes the stock check and raises the stock; the schema then refuses
      the order, but the stock stays raised. */
  lemma NegativeQuantityRaisesStock(products: map<string, ServerProduct>, id: string, customer: string,
                                    address: ShippingAddress, now: nat, rnd: nat)
    requires id in products && products[id].stock >= 0
    requires rnd < 1000
    ensures var r := Reserve(products, [LineRequest(id, -2)]);
            !r.rejected && r.products[id].stock == products[id].stock + 2 &&
            Placement(customer, r, address, None, now, rnd).Err?
  {
    var one := [LineRequest(id, -2)];
    assert one[..0] == [];
    assert Reserve(products, one[..0]) == Run(products, [], 0, false);
    var r := Reserve(products, one);
    assert r.lines == [OrderItem(id, -2, products[id].price, products[id].vendor)];
    assert !ItemsValid(r.lines) by {
      assert r.lines[0].quantity < 1;
    }
  }

  /** Someone selling in the order: the vendor of at least one of its lines. */
  predicate SellsIn(o: Order, userId: string) {
    exists i :: 0 <= i < |o.items| && o.items[i].vendor == userId
  }

  predicate MayManage(o: Order, r: Requester) {
    SellsIn(o, r.userId) || IsAdmin(r)
  }

  /** The status is replaced by any valid one, and the tracking number only by a non-empty value. */
  function Retracked(o: Order, s: OrderStatus, trackingNumber: string): (r: Order)
    ensures r.status == s
    ensures r.trackingNumber == if trackingNumber != "" then trackingNumber else o.trackingNumber
    ensures r.(status := o.status, trackingNumber := o.trackingNumber) == o
  {
    o.(status := s, trackingNumber := if trackingNumber != "" then trackingNumber else o.trackingNumber)
  }

  /** `PUT /orders/:id/status`: 404 for an unknown order; 403 unless the requester sells in it or
      is an admin; a name outside the status enumeration is refused when saving (500); otherwise
      the status is set, from any status to any other. Only that order changes. */
  method UpdateStatus(db: Database, orderId: string, requester: Requester, status: string, trackingNumber: string)
    returns (reply: Status)
    modifies db`orders
    ensures orderId !in old(db.orders) ==> reply == NotFound && db.orders == old(db.orders)
    ensures orderId in old(db.orders) && !MayManage(old(db.orders)[orderId], requester) ==>
              reply == Forbidden && db.orders == old(db.orders)
    ensures orderId in old(db.orders) && MayManage(old(db.orders)[orderId], requester) && ParseStatus(status).None? ==>
              reply == ServerError && db.orders == old(db.orders)
    ensures orderId in old(db.orders) && MayManage(old(db.orders)[orderId], requester) && ParseStatus(status).Some? ==>
              reply == Success &&
              db.orders == old(db.orders)[orderId := Retracked(old(db.orders)[orderId], ParseStatus(status).value, trackingNumber)]
  {
    if orderId !in db.orders {
      return NotFound;
    }
    var order := db.orders[orderId];
    if !MayManage(order, requester) {
      return Forbidden;
    }
    var parsed := ParseStatus(status);
    if parsed.None? {
      return ServerError;
    }
    db.orders := db.orders[orderId := Retracked(order, parsed.value, trackingNumber)];
    reply := Success;
  }

  /** `GET /orders/vendor-orders`: refused with 403 unless vendor or admin; otherwise the orders
      with a line sold by the requester (an admin sees only those too). */
  function VendorOrders(orders: map<string, Order>, requester: Requester): (r: Result<set<string>, Status>)
    ensures r.Err? <==> !VendorOrAdmin(requester)
    ensures r.Err? ==> r.error == Forbidden
    ensures r.Ok? ==> forall id :: id in r.value <==> id in orders && SellsIn(orders[id], requester.userId)
  {
    if !VendorOrAdmin(requester) then Err(Forbidden)
    else Ok(set id | id in orders && SellsIn(orders[id], requester.userId))
  }
}
