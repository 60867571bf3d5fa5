/** The checkout page of the client-only storefront: the cart joined against
    the current catalog, the subtotal, shipping and total, the check of the
    delivery fields, and the placement of the order into the store. */
module Checkout {
  import opened Collections
  import opened AppStore

  /** Shipping in cents, waived when the subtotal is strictly above `FreeShippingAbove`. */
  const ShippingFee: int := 999
  const FreeShippingAbove: int := 10000

  /** A cart line together with the catalog product it refers to. */
  datatype JoinedItem = JoinedItem(productId: string, quantity: int, product: Product)

  datatype PlaceError = MissingDeliveryInfo | EmptyCart

  function LineOf(j: JoinedItem): CartItem {
    CartItem(j.productId, j.quantity)
  }

  predicate Known(products: seq<Product>, c: CartItem) {
    FindProduct(products, c.productId).Some?
  }

  /** `cartItems`: each cart line paired with the first product of the same id;
      lines whose product is missing are dropped. */
  function JoinCart(cart: seq<CartItem>, products: seq<Product>): (r: seq<JoinedItem>)
    ensures |r| <= |cart|
    ensures forall i :: 0 <= i < |r| ==>
              r[i].product.id == r[i].productId &&
              FindProduct(products, r[i].productId) == Some(r[i].product) &&
              LineOf(r[i]) in cart
  {
    if cart == [] then []
    else match FindProduct(products, cart[0].productId)
      case None => JoinCart(cart[1..], products)
      case Some(p) => [JoinedItem(cart[0].productId, cart[0].quantity, p)] + JoinCart(cart[1..], products)
  }

  /** The joined lines are exactly the cart lines whose product exists, in cart order. */
  lemma {:induction false} JoinCartLines(cart: seq<CartItem>, products: seq<Product>)
    ensures MapSeq(JoinCart(cart, products), LineOf) == Filter(cart, (c: CartItem) => Known(products, c))
  {
    if cart != [] {
      JoinCartLines(cart[1..], products);
      var rest := JoinCart(cart[1..], products);
      match FindProduct(products, cart[0].productId)
      case None =>
      case Some(p) =>
        var r := [JoinedItem(cart[0].productId, cart[0].quantity, p)] + rest;
        assert MapSeq(r, LineOf) == [cart[0]] + MapSeq(rest, LineOf);
    }
  }

  function LineAmount(j: JoinedItem): int {
    j.product.price * j.quantity
  }

  /** The sum of current price times quantity over the joined lines. */
  function Subtotal(items: seq<JoinedItem>): (r: int)
    ensures (forall i :: 0 <= i < |items| ==> items[i].product.price >= 0 && items[i].quantity >= 0) ==> r >= 0
  {
    if forall i :: 0 <= i < |items| ==> items[i].product.price >= 0 && items[i].quantity >= 0 then
      SumLowerBound(items, LineAmount, 0);
      Sum(items, LineAmount)
    else Sum(items, LineAmount)
  }

  /** Shipping is waived exactly above the threshold, and is the flat fee otherwise. */
  function Shipping(subtotal: int): (r: int)
    ensures r == 0 <==> subtotal > FreeShippingAbove
    ensures r != 0 ==> r == ShippingFee
  {
    if subtotal > FreeShippingAbove then 0 else ShippingFee
  }

  /** A subtotal of exactly 10000 cents still pays shipping; one cent more does not. */
  lemma ShippingThreshold()
    ensures Shipping(FreeShippingAbove) == ShippingFee
    ensures Shipping(FreeShippingAbove + 1) == 0
  {
  }

  predicate Filled(info: DeliveryInfo) {
    info.name != "" && info.address != "" && info.phone != ""
  }

  /** The delivery fields are checked before the cart. */
  function Validate(info: DeliveryInfo, items: seq<JoinedItem>): (r: Option<PlaceError>)
    ensures r.None? <==> Filled(info) && items != []
    ensures r == Some(EmptyCart) ==> Filled(info)
  {
    if !Filled(info) then Some(MissingDeliveryInfo)
    else if |items| == 0 then Some(EmptyCart)
    else None
  }

  function Snapshot(j: JoinedItem): OrderLine {
    OrderLine(j.productId, j.product.name, j.quantity, j.product.price)
  }

  function LineTotal(l: OrderLine): int {
    l.price * l.quantity
  }

  /** `orderData`: one line per joined item snapshotting id, name, quantity and current
      price; pending; the total includes shipping. */
  function BuildOrderData(user: User, items: seq<JoinedItem>, info: DeliveryInfo): (r: OrderData)
    ensures |r.items| == |items|
    ensures forall i :: 0 <= i < |items| ==>
              r.items[i].productId == items[i].productId &&
              r.items[i].productName == items[i].product.name &&
              r.items[i].quantity == items[i].quantity &&
              r.items[i].price == items[i].product.price
    ensures r.status == Pending && r.deliveryInfo == info
    ensures r.clientId == user.id && r.clientName == user.name && r.clientEmail == user.email
  {
    var subtotal := Subtotal(items);
    OrderData(user.id, user.name, user.email, MapSeq(items, Snapshot),
              subtotal + Shipping(subtotal), Pending, info)
  }

  /** The built total is the sum of the snapshotted lines plus the shipping that sum incurs. */
  lemma OrderTotalFromLines(user: User, items: seq<JoinedItem>, info: DeliveryInfo)
    ensures var d := BuildOrderData(user, items, info);
            d.total == Sum(d.items, LineTotal) + Shipping(Sum(d.items, LineTotal))
  {
    var d := BuildOrderData(user, items, info);
    SumCongruent(items, LineAmount, d.items, LineTotal);
  }

  /** `handlePlaceOrder`: refuse on a missing delivery field or an empty joined cart,
      changing nothing; otherwise create exactly one order, then clear the cart. The
      page is only shown with a user logged in. */
  method PlaceOrder(store: Store, info: DeliveryInfo, newId: string, date: string)
    returns (error: Option<PlaceError>)
    requires store.user.Some?
    modifies store`orders, store`cart
    ensures error == Validate(info, JoinCart(old(store.cart), store.products))
    ensures error.Some? ==> store.orders == old(store.orders) && store.cart == old(store.cart)
    ensures error.None? ==> store.cart == []
    ensures error.None? ==>
              store.orders == old(store.orders) +
                [Stamp(BuildOrderData(store.user.value, JoinCart(old(store.cart), store.products), info), newId, date)]
  {
    var user := store.user.value;
    var products := store.products;
    var items := JoinCart(store.cart, products);
    error := Validate(info, items);
    if error.Some? {
      return;
    }
    var data := BuildOrderData(user, items, info);
    store.CreateOrder(data, newId, date);
    store.ClearCart();
    assert store.user.value == user && store.products == products;
  }

  /** The minus control is disabled at a quantity of 1 or less. */
  predicate MinusEnabled(quantity: int) {
    !(quantity <= 1)
  }

  /** The plus control is disabled once the quantity reaches the stock. */
  predicate PlusEnabled(quantity: int, stock: int) {
    !(quantity >= stock)
  }

  /** Pressing an enabled minus or plus control keeps a quantity in [1, stock] in that range. */
  lemma ControlsKeepQuantityInRange(cart: seq<CartItem>, p: string, stock: int, up: bool)
    requires 1 <= QuantityOf(cart, p) <= stock
    requires if up then PlusEnabled(QuantityOf(cart, p), stock) else MinusEnabled(QuantityOf(cart, p))
    ensures var q := QuantityOf(cart, p) + (if up then 1 else -1);
            QuantityOf(SetItemQuantity(cart, p, q), p) == q && 1 <= q <= stock
  {
    var q := QuantityOf(cart, p) + (if up then 1 else -1);
    if !InCart(cart, p) {
      QuantityOfAbsent(cart, p);
    }
    SetItemQuantityEffect(cart, p, q, p);
  }

  /** Two lines, 2 x 29.99 and 1 x 89.99: subtotal 149.97, shipping waived. */
  lemma ExampleFreeShipping()
    ensures var a := Product("A", "A", "", 2999, "Cosmetics", "", "", [], 0.0, 0, 10, "2");
            var b := Product("B", "B", "", 8999, "Electronics", "", "", [], 0.0, 0, 10, "2");
            var items := JoinCart([CartItem("A", 2), CartItem("B", 1)], [a, b]);
            Subtotal(items) == 14997 && Shipping(Subtotal(items)) == 0
  {
    var a := Product("A", "A", "", 2999, "Cosmetics", "", "", [], 0.0, 0, 10, "2");
    var b := Product("B", "B", "", 8999, "Electronics", "", "", [], 0.0, 0, 10, "2");
    var cart := [CartItem("A", 2), CartItem("B", 1)];
    assert FindProduct([a, b], "A") == Some(a);
    var fb := FindProduct([a, b], "B");
    assert fb.Some? by { assert [a, b][1].id == "B"; }
    assert fb.value == a || fb.value == b;
    assert a.id != "B";
    assert cart[1..] == [CartItem("B", 1)];
    assert fb == Some(b);
    assert cart[1..][1..] == [];
    assert JoinCart(cart[1..], [a, b]) == [JoinedItem("B", 1, b)];
    var items := JoinCart(cart, [a, b]);
    assert items == [JoinedItem("A", 2, a), JoinedItem("B", 1, b)];
    assert items[1..] == [JoinedItem("B", 1, b)];
    assert items[1..][1..] == [];
    assert Sum(items[1..][1..], LineAmount) == 0;
    assert LineAmount(items[1..][0]) == 8999;
    assert Sum(items[1..], LineAmount) == 8999;
    assert LineAmount(items[0]) == 5998;
  }
}
