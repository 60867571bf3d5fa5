/** The client-only store of the storefront: the session user, the product
    list, the cart, the favorites and the orders. Every operation replaces
    one of these collections by a new value built with map/filter/append;
    those new values are the pure functions below, and the class `Store`
    holds the five collections and applies them. */
module AppStore {
  import opened Collections

  datatype Role = Client | Seller

  /** The user kept in the session: no password. */
  datatype User = User(id: string, role: Role, email: string, name: string)

  /** A demo account of the fixture, password included. */
  datatype DemoUser = DemoUser(id: string, role: Role, email: string, password: string, name: string)

  /** A catalog product; `price` is in cents. */
  datatype Product = Product(
    id: string, name: string, description: string, price: int,
    category: string, subcategory: string, brand: string, images: seq<string>,
    rating: real, reviewCount: int, stock: int, sellerId: string)

  /** A product without its id, as handed to `addProduct`. */
  datatype ProductDraft = ProductDraft(
    name: string, description: string, price: int,
    category: string, subcategory: string, brand: string, images: seq<string>,
    rating: real, reviewCount: int, stock: int, sellerId: string)

  /** A partial product: every present field overwrites, absent fields are kept. */
  datatype ProductPatch = ProductPatch(
    id: Option<string>, name: Option<string>, description: Option<string>, price: Option<int>,
    category: Option<string>, subcategory: Option<string>, brand: Option<string>,
    images: Option<seq<string>>, rating: Option<real>, reviewCount: Option<int>,
    stock: Option<int>, sellerId: Option<string>)

  datatype CartItem = CartItem(productId: string, quantity: int)

  datatype OrderStatus = Pending | Processing | Delivered
  datatype OrderLine = OrderLine(productId: string, productName: string, quantity: int, price: int)
  datatype DeliveryInfo = DeliveryInfo(name: string, address: string, phone: string)

  /** An order before the store gives it an id and a date. */
  datatype OrderData = OrderData(
    clientId: string, clientName: string, clientEmail: string, items: seq<OrderLine>,
    total: int, status: OrderStatus, deliveryInfo: DeliveryInfo)

  datatype Order = Order(
    id: string, clientId: string, clientName: string, clientEmail: string,
    items: seq<OrderLine>, total: int, status: OrderStatus, date: string,
    deliveryInfo: DeliveryInfo)

  /** The two demo accounts that `login` checks against. */
  const DemoUsers: seq<DemoUser> := [
    DemoUser("1", Client, "client@gdk.com", "client123", "Marie Dupont"),
    DemoUser("2", Seller, "seller@gdk.com", "seller123", "Pierre Martin")
  ]

  // ---------------------------------------------------------------- login

  function SessionUser(u: DemoUser): User {
    User(u.id, u.role, u.email, u.name)
  }

  predicate Credentials(u: DemoUser, email: string, password: string) {
    u.email == email && u.password == password
  }

  /** The first demo account whose email and password both match, without its password. */
  function Authenticate(users: seq<DemoUser>, email: string, password: string): (r: Option<User>)
    ensures r.Some? <==> exists i :: 0 <= i < |users| && Credentials(users[i], email, password)
    ensures r.Some? ==> exists i :: 0 <= i < |users| && Credentials(users[i], email, password)
                                    && r.value == SessionUser(users[i])
                                    && forall j :: 0 <= j < i ==> !Credentials(users[j], email, password)
  {
    match IndexWhere(users, (u: DemoUser) => Credentials(u, email, password))
    case None => None
    case Some(i) => Some(SessionUser(users[i]))
  }

  // ------------------------------------------------------------- products

  function WithId(d: ProductDraft, id: string): Product {
    Product(id, d.name, d.description, d.price, d.category, d.subcategory, d.brand,
            d.images, d.rating, d.reviewCount, d.stock, d.sellerId)
  }

  /** `{ ...p, ...patch }`: every field the patch carries is overwritten, the id included;
      every other field is kept. */
  function Merge(p: Product, patch: ProductPatch): (r: Product)
    ensures Takes(patch.id, p.id, r.id) && Takes(patch.name, p.name, r.name)
    ensures Takes(patch.description, p.description, r.description) && Takes(patch.price, p.price, r.price)
    ensures Takes(patch.category, p.category, r.category) && Takes(patch.subcategory, p.subcategory, r.subcategory)
    ensures Takes(patch.brand, p.brand, r.brand) && Takes(patch.images, p.images, r.images)
    ensures Takes(patch.rating, p.rating, r.rating) && Takes(patch.reviewCount, p.reviewCount, r.reviewCount)
    ensures Takes(patch.stock, p.stock, r.stock) && Takes(patch.sellerId, p.sellerId, r.sellerId)
  {
    Product(
      patch.id.GetOr(p.id), patch.name.GetOr(p.name), patch.description.GetOr(p.description),
      patch.price.GetOr(p.price), patch.category.GetOr(p.category),
      patch.subcategory.GetOr(p.subcategory), patch.brand.GetOr(p.brand),
      patch.images.GetOr(p.images), patch.rating.GetOr(p.rating),
      patch.reviewCount.GetOr(p.reviewCount), patch.stock.GetOr(p.stock),
      patch.sellerId.GetOr(p.sellerId))
  }

  /** The patch that sets every field of a draft and leaves the id alone. */
  function DraftPatch(d: ProductDraft): ProductPatch {
    ProductPatch(None, Some(d.name), Some(d.description), Some(d.price), Some(d.category),
                 Some(d.subcategory), Some(d.brand), Some(d.images), Some(d.rating),
                 Some(d.reviewCount), Some(d.stock), Some(d.sellerId))
  }

  /** `updateProduct`: every product with the id gets the patch merged in; the others are untouched. */
  function PatchProducts(products: seq<Product>, id: string, patch: ProductPatch): (r: seq<Product>)
    ensures |r| == |products|
    ensures forall i :: 0 <= i < |products| && products[i].id == id ==> r[i] == Merge(products[i], patch)
    ensures forall i :: 0 <= i < |products| && products[i].id != id ==> r[i] == products[i]
  {
    MapSeq(products, (p: Product) => if p.id == id then Merge(p, patch) else p)
  }

  /** `deleteProduct`: exactly the products with the id are dropped. */
  function DropProducts(products: seq<Product>, id: string): (r: seq<Product>)
    ensures forall i :: 0 <= i < |r| ==> r[i].id != id && r[i] in products
    ensures forall i :: 0 <= i < |products| && products[i].id != id ==> products[i] in r
    ensures (forall i :: 0 <= i < |products| ==> products[i].id != id) ==> r == products
  {
    if forall i :: 0 <= i < |products| ==> products[i].id != id then
      FilterAllKept(products, (p: Product) => p.id != id); Filter(products, (p: Product) => p.id != id)
    else Filter(products, (p: Product) => p.id != id)
  }

  /** The first product with the id, as `products.find(p => p.id === id)`. */
  function FindProduct(products: seq<Product>, id: string): (r: Option<Product>)
    ensures r.None? <==> forall i :: 0 <= i < |products| ==> products[i].id != id
    ensures r.Some? ==> exists k :: 0 <= k < |products| && products[k] == r.value && r.value.id == id
                                    && forall j :: 0 <= j < k ==> products[j].id != id
  {
    Find(products, (p: Product) => p.id == id)
  }

  /** After deleting `id`, looking up another id finds what it found before, and `id` finds nothing. */
  lemma {:induction false} FindProductAfterDrop(products: seq<Product>, id: string, x: string)
    ensures FindProduct(DropProducts(products, id), x) == if x == id then None else FindProduct(products, x)
  {
    var f := (p: Product) => p.id != id;
    var r := DropProducts(products, id);
    assert r == Filter(products, f) by {
      if forall i :: 0 <= i < |products| ==> products[i].id != id {
        FilterAllKept(products, f);
      }
    }
    if x != id && products != [] {
      FindProductAfterDrop(products[1..], id, x);
      assert DropProducts(products[1..], id) == Filter(products[1..], f) by {
        if forall i :: 0 <= i < |products[1..]| ==> products[1..][i].id != id {
          FilterAllKept(products[1..], f);
        }
      }
      if products[0].id == x {
        assert r == [products[0]] + Filter(products[1..], f);
        assert r[0].id == x;
        assert FindProduct(products, x) == Some(products[0]);
      } else if products[0].id == id {
        assert r == Filter(products[1..], f);
        FindProductSkip(products, x);
      } else {
        assert r == [products[0]] + Filter(products[1..], f);
        FindProductSkip(products, x);
        assert r[1..] == Filter(products[1..], f);
        FindProductSkip(r, x);
      }
    }
  }

  /** A lookup skips a leading product with another id. */
  lemma FindProductSkip(products: seq<Product>, x: string)
    requires products != [] && products[0].id != x
    ensures FindProduct(products, x) == FindProduct(products[1..], x)
  {
    var f := (p: Product) => p.id == x;
    assert IndexWhere(products, f) == match IndexWhere(products[1..], f)
      case None => None
      case Some(k) => Some(k + 1);
  }

  // ----------------------------------------------------------------- cart

  predicate InCart(cart: seq<CartItem>, p: string) {
    exists i :: 0 <= i < |cart| && cart[i].productId == p
  }

  /** No product appears on two lines of the cart. */
  predicate UniqueProducts(cart: seq<CartItem>) {
    forall i, j :: 0 <= i < j < |cart| ==> cart[i].productId != cart[j].productId
  }

  /** The quantity on the first line for `p`, or 0 when `p` is not in the cart. */
  function QuantityOf(cart: seq<CartItem>, p: string): int {
    if cart == [] then 0
    else if cart[0].productId == p then cart[0].quantity
    else QuantityOf(cart[1..], p)
  }

  /** `addToCart`: an existing product's lines grow by `q`, otherwise a new line is appended. */
  function AddItem(cart: seq<CartItem>, p: string, q: int): (r: seq<CartItem>)
    ensures InCart(cart, p) ==> |r| == |cart|
    ensures InCart(cart, p) ==> forall i :: 0 <= i < |cart| ==>
              r[i].productId == cart[i].productId &&
              r[i].quantity == if cart[i].productId == p then cart[i].quantity + q else cart[i].quantity
    ensures !InCart(cart, p) ==> r == cart + [CartItem(p, q)]
  {
    if IndexWhere(cart, (it: CartItem) => it.productId == p).Some? then
      MapSeq(cart, (it: CartItem) => if it.productId == p then it.(quantity := it.quantity + q) else it)
    else cart + [CartItem(p, q)]
  }

  /** `removeFromCart`: every line for `p` is dropped, the others stay in order. */
  function RemoveItem(cart: seq<CartItem>, p: string): (r: seq<CartItem>)
    ensures !InCart(r, p)
    ensures forall x :: x != p ==> (InCart(r, x) <==> InCart(cart, x))
    ensures !InCart(cart, p) ==> r == cart
  {
    var r := Filter(cart, (it: CartItem) => it.productId != p);
    assert forall x :: x != p && InCart(cart, x) ==> InCart(r, x) by {
      forall x | x != p && InCart(cart, x) ensures InCart(r, x) {
        var i :| 0 <= i < |cart| && cart[i].productId == x;
        assert cart[i] in r;
      }
    }
    if !InCart(cart, p) then FilterAllKept(cart, (it: CartItem) => it.productId != p); r else r
  }

  /** `updateCartQuantity`: a quantity of at most 0 removes the product; a positive one
      overwrites the quantity of its lines and never inserts a line. */
  function SetItemQuantity(cart: seq<CartItem>, p: string, q: int): (r: seq<CartItem>)
    ensures q <= 0 ==> r == RemoveItem(cart, p)
    ensures q > 0 ==> |r| == |cart|
    ensures q > 0 ==> forall i :: 0 <= i < |cart| ==>
              r[i].productId == cart[i].productId &&
              r[i].quantity == if cart[i].productId == p then q else cart[i].quantity
  {
    if q <= 0 then RemoveItem(cart, p)
    else MapSeq(cart, (it: CartItem) => if it.productId == p then it.(quantity := q) else it)
  }

  lemma {:induction false} QuantityOfAbsent(cart: seq<CartItem>, p: string)
    requires !InCart(cart, p)
    ensures QuantityOf(cart, p) == 0
  {
    if cart != [] {
      assert !InCart(cart[1..], p) by {
        forall i | 0 <= i < |cart[1..]| ensures cart[1..][i].productId != p {
          assert cart[1..][i] == cart[i + 1];
        }
      }
      QuantityOfAbsent(cart[1..], p);
    }
  }

  /** Two carts with the same products on the same lines whose quantities agree on
      the lines of `x` have the same quantity for `x`. */
  lemma {:induction false} QuantityOfPointwise(a: seq<CartItem>, b: seq<CartItem>, x: string)
    requires |a| == |b|
    requires forall i :: 0 <= i < |a| ==> a[i].productId == b[i].productId
    requires forall i :: 0 <= i < |a| && a[i].productId == x ==> a[i].quantity == b[i].quantity
    ensures QuantityOf(a, x) == QuantityOf(b, x)
  {
    if a != [] {
      QuantityOfPointwise(a[1..], b[1..], x);
    }
  }

  /** Adding `q` of `p` raises the quantity of `p` by `q` and changes no other product's. */
  lemma {:induction false} AddItemQuantity(cart: seq<CartItem>, p: string, q: int, x: string)
    ensures QuantityOf(AddItem(cart, p, q), x) == QuantityOf(cart, x) + (if x == p then q else 0)
  {
    var r := AddItem(cart, p, q);
    if InCart(cart, p) {
      if x == p {
        AddItemFirstLine(cart, p, q);
      } else {
        QuantityOfPointwise(cart, r, x);
      }
    } else {
      QuantityOfAppend(cart, CartItem(p, q), x);
      if !InCart(cart, x) {
        QuantityOfAbsent(cart, x);
      }
    }
  }

  lemma {:induction false} AddItemFirstLine(cart: seq<CartItem>, p: string, q: int)
    requires InCart(cart, p)
    ensures QuantityOf(AddItem(cart, p, q), p) == QuantityOf(cart, p) + q
  {
    var r := AddItem(cart, p, q);
    if cart[0].productId != p {
      assert InCart(cart[1..], p) by {
        var i :| 0 <= i < |cart| && cart[i].productId == p;
        assert cart[1..][i - 1] == cart[i];
      }
      AddItemFirstLine(cart[1..], p, q);
      var r' := AddItem(cart[1..], p, q);
      QuantityOfPointwise(r[1..], r', p);
    }
  }

  lemma {:induction false} QuantityOfAppend(cart: seq<CartItem>, it: CartItem, x: string)
    ensures QuantityOf(cart + [it], x) == if InCart(cart, x) then QuantityOf(cart, x)
                                          else if it.productId == x then it.quantity else 0
  {
    if cart == [] {
      assert cart + [it] == [it];
    } else {
      assert (cart + [it])[1..] == cart[1..] + [it];
      QuantityOfAppend(cart[1..], it, x);
      if cart[0].productId != x {
        assert InCart(cart, x) <==> InCart(cart[1..], x) by {
          if InCart(cart, x) {
            var i :| 0 <= i < |cart| && cart[i].productId == x;
            assert cart[1..][i - 1] == cart[i];
          }
          if InCart(cart[1..], x) {
            var i :| 0 <= i < |cart[1..]| && cart[1..][i].productId == x;
            assert cart[i + 1] == cart[1..][i];
          }
        }
      }
    }
  }

  /** After removing `p`, its quantity is 0 and every other product keeps its quantity. */
  lemma {:induction false} RemoveItemQuantity(cart: seq<CartItem>, p: string, x: string)
    ensures QuantityOf(RemoveItem(cart, p), x) == if x == p then 0 else QuantityOf(cart, x)
  {
    if x == p {
      QuantityOfAbsent(RemoveItem(cart, p), p);
    } else if cart != [] {
      RemoveItemQuantity(cart[1..], p, x);
      var f := (it: CartItem) => it.productId != p;
      assert Filter(cart, f) == if f(cart[0]) then [cart[0]] + Filter(cart[1..], f) else Filter(cart[1..], f);
      assert RemoveItem(cart, p) == Filter(cart, f);
      assert RemoveItem(cart[1..], p) == Filter(cart[1..], f);
      if f(cart[0]) {
        assert ([cart[0]] + Filter(cart[1..], f))[1..] == Filter(cart[1..], f);
      }
    }
  }

  /** Setting a positive quantity for a product in the cart makes it that quantity;
      for a product not in the cart, or for the other products, nothing changes. */
  lemma {:induction false} SetItemQuantityEffect(cart: seq<CartItem>, p: string, q: int, x: string)
    ensures QuantityOf(SetItemQuantity(cart, p, q), x) ==
              if x != p then QuantityOf(cart, x)
              else if q <= 0 || !InCart(cart, p) then 0
              else q
  {
    var r := SetItemQuantity(cart, p, q);
    if q <= 0 {
      RemoveItemQuantity(cart, p, x);
    } else if x != p {
      QuantityOfPointwise(cart, r, x);
    } else if !InCart(cart, p) {
      assert r == cart;
      QuantityOfAbsent(cart, p);
    } else {
      SetItemFirstLine(cart, p, q);
    }
  }

  lemma {:induction false} SetItemFirstLine(cart: seq<CartItem>, p: string, q: int)
    requires q > 0 && InCart(cart, p)
    ensures QuantityOf(SetItemQuantity(cart, p, q), p) == q
  {
    var r := SetItemQuantity(cart, p, q);
    if cart[0].productId != p {
      assert InCart(cart[1..], p) by {
        var i :| 0 <= i < |cart| && cart[i].productId == p;
        assert cart[1..][i - 1] == cart[i];
      }
      SetItemFirstLine(cart[1..], p, q);
      QuantityOfPointwise(r[1..], SetItemQuantity(cart[1..], p, q), p);
    }
  }

  /** Each cart operation keeps the product ids of the cart unique. */
  lemma CartOperationsKeepUnique(cart: seq<CartItem>, p: string, q: int)
    requires UniqueProducts(cart)
    ensures UniqueProducts(AddItem(cart, p, q))
    ensures UniqueProducts(RemoveItem(cart, p))
    ensures UniqueProducts(SetItemQuantity(cart, p, q))
  {
    RemoveItemKeepsUnique(cart, p);
  }

  lemma RemoveItemKeepsUnique(cart: seq<CartItem>, p: string)
    requires UniqueProducts(cart)
    ensures UniqueProducts(RemoveItem(cart, p))
  {
    var key := (it: CartItem) => it.productId;
    assert DistinctKeys(cart, key);
    FilterDistinctKeys(cart, (it: CartItem) => it.productId != p, key);
  }

  // ------------------------------------------------------------ favorites

  /** The favorites are a list, not a set: adding a product twice lists it twice, and one
      removal takes every copy away. */
  lemma FavoriteAddedTwice(favorites: seq<string>, p: string)
    requires p !in favorites
    ensures !NoDuplicates(favorites + [p] + [p])
    ensures RemoveAll(favorites + [p] + [p], p) == favorites
  {
    var twice := favorites + [p] + [p];
    assert twice[|favorites|] == twice[|favorites| + 1];
    assert twice == favorites + [p, p];
    RemoveAllAppend(favorites, [p, p], p);
    assert RemoveAll([p, p], p) == RemoveAll([p], p);
    assert RemoveAll([p], p) == RemoveAll([], p);
  }

  // --------------------------------------------------------------- orders

  function Stamp(d: OrderData, id: string, date: string): Order {
    Order(id, d.clientId, d.clientName, d.clientEmail, d.items, d.total, d.status, date, d.deliveryInfo)
  }

  /** `updateOrderStatus`: only the status of the orders with the id changes. */
  function WithStatus(orders: seq<Order>, id: string, s: OrderStatus): (r: seq<Order>)
    ensures |r| == |orders|
    ensures forall i :: 0 <= i < |orders| && orders[i].id == id ==> r[i] == orders[i].(status := s)
    ensures forall i :: 0 <= i < |orders| && orders[i].id != id ==> r[i] == orders[i]
  {
    MapSeq(orders, (o: Order) => if o.id == id then o.(status := s) else o)
  }

  /** A later status update of the same order overrides an earlier one. */
  lemma WithStatusLastWins(orders: seq<Order>, id: string, s1: OrderStatus, s2: OrderStatus)
    ensures WithStatus(WithStatus(orders, id, s1), id, s2) == WithStatus(orders, id, s2)
  {
  }

  // ---------------------------------------------------------------- store

  class Store {
    var user: Option<User>
    var products: seq<Product>
    var cart: seq<CartItem>
    var favorites: seq<string>
    var orders: seq<Order>

    /** The cart never lists a product twice. */
    ghost predicate Valid()
      reads this
    {
      UniqueProducts(cart)
    }

    /** Starts logged out with an empty cart and no favorites, over the given catalog and orders. */
    constructor (initialProducts: seq<Product>, initialOrders: seq<Order>)
      ensures Valid()
      ensures user == None && cart == [] && favorites == []
      ensures products == initialProducts && orders == initialOrders
    {
      user := None;
      products := initialProducts;
      cart := [];
      favorites := [];
      orders := initialOrders;
    }

    method Login(email: string, password: string) returns (ok: bool)
      modifies this`user
      ensures ok <==> Authenticate(DemoUsers, email, password).Some?
      ensures user == if ok then Authenticate(DemoUsers, email, password) else old(user)
    {
      var found := Authenticate(DemoUsers, email, password);
      ok := found.Some?;
      if ok {
        user := found;
      }
    }

    method Logout()
      modifies this`user, this`cart, this`favorites
      ensures Valid()
      ensures user == None && cart == [] && favorites == []
    {
      user := None;
      cart := [];
      favorites := [];
    }

    /** Appends the draft under the fresh id the caller supplies. */
    method AddProduct(draft: ProductDraft, newId: string)
      modifies this`products
      ensures products == old(products) + [WithId(draft, newId)]
    {
      products := products + [WithId(draft, newId)];
    }

    method UpdateProduct(id: string, patch: ProductPatch)
      modifies this`products
      ensures products == PatchProducts(old(products), id, patch)
    {
      products := PatchProducts(products, id, patch);
    }

    method DeleteProduct(id: string)
      modifies this`products
      ensures products == DropProducts(old(products), id)
    {
      products := DropProducts(products, id);
    }

    /** `quantity` defaults to 1. */
    method AddToCart(productId: string, quantity: Option<int>)
      requires Valid()
      modifies this`cart
      ensures Valid()
      ensures cart == AddItem(old(cart), productId, quantity.GetOr(1))
    {
      CartOperationsKeepUnique(cart, productId, quantity.GetOr(1));
      cart := AddItem(cart, productId, quantity.GetOr(1));
    }

    method RemoveFromCart(productId: string)
      requires Valid()
      modifies this`cart
      ensures Valid()
      ensures cart == RemoveItem(old(cart), productId)
    {
      CartOperationsKeepUnique(cart, productId, 0);
      cart := RemoveItem(cart, productId);
    }

    method UpdateCartQuantity(productId: string, quantity: int)
      requires Valid()
      modifies this`cart
      ensures Valid()
      ensures cart == SetItemQuantity(old(cart), productId, quantity)
    {
      CartOperationsKeepUnique(cart, productId, quantity);
      if quantity <= 0 {
        RemoveFromCart(productId);
        return;
      }
      cart := SetItemQuantity(cart, productId, quantity);
    }

    method ClearCart()
      modifies this`cart
      ensures Valid()
      ensures cart == []
    {
      cart := [];
    }

    /** Appends unconditionally, so a product can be a favorite twice. */
    method AddToFavorites(productId: string)
      modifies this`favorites
      ensures favorites == old(favorites) + [productId]
    {
      favorites := favorites + [productId];
    }

    method RemoveFromFavorites(productId: string)
      modifies this`favorites
      ensures favorites == RemoveAll(old(favorites), productId)
    {
      favorites := RemoveAll(favorites, productId);
    }

    /** Appends the order under the id and date the caller supplies; stock is not touched. */
    method CreateOrder(data: OrderData, newId: string, date: string)
      modifies this`orders
      ensures orders == old(orders) + [Stamp(data, newId, date)]
    {
      orders := orders + [Stamp(data, newId, date)];
    }

    method UpdateOrderStatus(orderId: string, status: OrderStatus)
      modifies this`orders
      ensures orders == WithStatus(old(orders), orderId, status)
    {
      orders := WithStatus(orders, orderId, status);
    }
  }
}
