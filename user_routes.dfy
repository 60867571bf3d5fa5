/** The server's user routes: the favorites list and the cart stored on the user
    document. A requester whose user document is missing makes the route fail
    when it reads the document (500) with nothing changed. */
module UserRoutes {
  import opened Collections
  import opened ServerStore

  // ------------------------------------------------------------ favorites

  /** The favorites after an add: the id is appended only when absent, so the list behaves as a set. */
  function WithFavorite(favorites: seq<string>, p: string): (r: seq<string>)
    ensures p in favorites ==> r == favorites
    ensures p !in favorites ==> r == favorites + [p]
    ensures forall x :: x in r <==> x in favorites || x == p
    ensures NoDuplicates(favorites) ==> NoDuplicates(r)
  {
    if p in favorites then favorites
    else
      var r := favorites + [p];
      assert forall i :: 0 <= i < |favorites| ==> r[i] == favorites[i];
      r
  }

  /** Adding a favorite twice is adding it once. */
  lemma FavoriteIdempotent(favorites: seq<string>, p: string)
    ensures WithFavorite(WithFavorite(favorites, p), p) == WithFavorite(favorites, p)
  {
  }

  /** Removing a favorite that was just added gives back the list it was added to. */
  lemma AddThenRemoveFavorite(favorites: seq<string>, p: string)
    requires p !in favorites
    ensures RemoveAll(WithFavorite(favorites, p), p) == favorites
  {
    RemoveAllAppend(favorites, [p], p);
    assert RemoveAll([p], p) == [];
  }

  /** Removing every occurrence keeps a duplicate-free list duplicate-free. */
  lemma RemoveFavoriteKeepsNoDuplicates(favorites: seq<string>, p: string)
    requires NoDuplicates(favorites)
    ensures NoDuplicates(RemoveAll(favorites, p))
  {
    RemoveAllNoDuplicates(favorites, p);
  }

  /** `POST /users/favorites/:productId`. */
  method AddFavorite(db: Database, requester: Requester, productId: string) returns (status: Status)
    modifies db`users
    ensures requester.userId !in old(db.users) ==> status == ServerError && db.users == old(db.users)
    ensures requester.userId in old(db.users) ==>
              var u := old(db.users)[requester.userId];
              status == Success && db.users == old(db.users)[requester.userId := u.(favorites := WithFavorite(u.favorites, productId))]
  {
    if requester.userId !in db.users {
      return ServerError;
    }
    var user := db.users[requester.userId];
    if productId !in user.favorites {
      user := user.(favorites := user.favorites + [productId]);
      db.users := db.users[requester.userId := user];
    }
    status := Success;
  }

  /** `DELETE /users/favorites/:productId`: every occurrence goes. */
  method RemoveFavorite(db: Database, requester: Requester, productId: string) returns (status: Status)
    modifies db`users
    ensures requester.userId !in old(db.users) ==> status == ServerError && db.users == old(db.users)
    ensures requester.userId in old(db.users) ==>
              var u := old(db.users)[requester.userId];
              status == Success && db.users == old(db.users)[requester.userId := u.(favorites := RemoveAll(u.favorites, productId))]
  {
    if requester.userId !in db.users {
      return ServerError;
    }
    var user := db.users[requester.userId];
    user := user.(favorites := RemoveAll(user.favorites, productId));
    db.users := db.users[requester.userId := user];
    status := Success;
  }

  // ----------------------------------------------------------------- cart

  function EntryKey(e: CartEntry): string {
    e.product
  }

  /** The position of the first entry for `p`, where `cart.find` stops. */
  function FirstEntry(cart: seq<CartEntry>, p: string): Option<nat> {
    IndexWhere(cart, (e: CartEntry) => e.product == p)
  }

  /** The quantity on the first entry for `p`, or 0 when there is none. */
  function EntryQuantity(cart: seq<CartEntry>, p: string): int {
    match FirstEntry(cart, p)
    case None => 0
    case Some(k) => cart[k].quantity
  }

  /** The add route: the first entry for `p` grows by `q`, otherwise a new entry is pushed. */
  function AddEntry(cart: seq<CartEntry>, p: string, q: int): (r: seq<CartEntry>)
    ensures FirstEntry(cart, p).Some? ==> |r| == |cart| && forall i :: 0 <= i < |r| ==> r[i].product == cart[i].product
    ensures FirstEntry(cart, p).None? ==> r == cart + [CartEntry(p, q)]
  {
    match FirstEntry(cart, p)
    case Some(k) => cart[k := cart[k].(quantity := cart[k].quantity + q)]
    case None => cart + [CartEntry(p, q)]
  }

  /** The update route: the first entry for `p` takes the quantity as given, even one below 1;
      with no entry for `p` the cart is unchanged. */
  function SetEntry(cart: seq<CartEntry>, p: string, q: int): (r: seq<CartEntry>)
    ensures |r| == |cart| && forall i :: 0 <= i < |r| ==> r[i].product == cart[i].product
    ensures FirstEntry(cart, p).None? ==> r == cart
  {
    match FirstEntry(cart, p)
    case Some(k) => cart[k := cart[k].(quantity := q)]
    case None => cart
  }

  /** The remove route: every entry for `p` goes, the others stay in order. */
  function DropEntries(cart: seq<CartEntry>, p: string): (r: seq<CartEntry>)
    ensures FirstEntry(r, p).None?
    ensures forall i :: 0 <= i < |cart| && cart[i].product != p ==> cart[i] in r
    ensures forall i :: 0 <= i < |r| ==> r[i] in cart
  {
    Filter(cart, (e: CartEntry) => e.product != p)
  }

  /** Carts with the same products position by position have their first entries at the same places. */
  lemma SameProductsSameFirst(a: seq<CartEntry>, b: seq<CartEntry>, x: string)
    requires |a| == |b| && forall i :: 0 <= i < |a| ==> a[i].product == b[i].product
    ensures FirstEntry(a, x) == FirstEntry(b, x)
  {
    var fa := FirstEntry(a, x);
    if fa.Some? {
      assert b[fa.value].product == x;
      assert forall j :: 0 <= j < fa.value ==> b[j].product != x;
    } else {
      assert forall j :: 0 <= j < |b| ==> b[j].product != x;
    }
  }

  /** Pushing an entry leaves earlier first entries where they were. */
  lemma FirstEntryAppend(cart: seq<CartEntry>, e: CartEntry, x: string)
    ensures FirstEntry(cart + [e], x) ==
              if FirstEntry(cart, x).Some? then FirstEntry(cart, x)
              else if e.product == x then Some(|cart|) else None
  {
    var c := cart + [e];
    var fc := FirstEntry(c, x);
    var f := FirstEntry(cart, x);
    if f.Some? {
      assert c[f.value] == cart[f.value];
      assert forall j :: 0 <= j < f.value ==> c[j] == cart[j];
    } else {
      assert forall j :: 0 <= j < |cart| ==> c[j] == cart[j];
      assert c[|cart|] == e;
    }
  }

  /** Adding `q` of `p` raises the quantity of `p` by `q` and leaves every other product's. */
  lemma AddEntryQuantity(cart: seq<CartEntry>, p: string, q: int, x: string)
    ensures EntryQuantity(AddEntry(cart, p, q), x) == EntryQuantity(cart, x) + (if x == p then q else 0)
  {
    var r := AddEntry(cart, p, q);
    if FirstEntry(cart, p).Some? {
      SameProductsSameFirst(cart, r, x);
    } else {
      FirstEntryAppend(cart, CartEntry(p, q), x);
    }
  }

  /** Updating sets the quantity of `p` when it has an entry and otherwise changes nothing;
      other products keep theirs. */
  lemma SetEntryQuantity(cart: seq<CartEntry>, p: string, q: int, x: string)
    ensures EntryQuantity(SetEntry(cart, p, q), x) ==
              if x == p && FirstEntry(cart, p).Some? then q else EntryQuantity(cart, x)
  {
    SameProductsSameFirst(cart, SetEntry(cart, p, q), x);
  }

  /** All three cart routes keep the products of the cart distinct. */
  lemma CartRoutesKeepDistinct(cart: seq<CartEntry>, p: string, q: int)
    requires DistinctKeys(cart, EntryKey)
    ensures DistinctKeys(AddEntry(cart, p, q), EntryKey)
    ensures DistinctKeys(SetEntry(cart, p, q), EntryKey)
    ensures DistinctKeys(DropEntries(cart, p), EntryKey)
  {
    FilterDistinctKeys(cart, (e: CartEntry) => e.product != p, EntryKey);
  }

  /** `POST /users/cart`; `quantity` defaults to 1. */
  method AddToCart(db: Database, requester: Requester, productId: string, quantity: Option<int>)
    returns (status: Status)
    modifies db`users
    ensures requester.userId !in old(db.users) ==> status == ServerError && db.users == old(db.users)
    ensures requester.userId in old(db.users) ==>
              var u := old(db.users)[requester.userId];
              status == Success &&
              db.users == old(db.users)[requester.userId := u.(cart := AddEntry(u.cart, productId, quantity.GetOr(1)))]
  {
    var q := quantity.GetOr(1);
    if requester.userId !in db.users {
      return ServerError;
    }
    var user := db.users[requester.userId];
    var existing := FirstEntry(user.cart, productId);
    if existing.Some? {
      var k := existing.value;
      user := user.(cart := user.cart[k := user.cart[k].(quantity := user.cart[k].quantity + q)]);
    } else {
      user := user.(cart := user.cart + [CartEntry(productId, q)]);
    }
    db.users := db.users[requester.userId := user];
    status := Success;
  }

  /** `PUT /users/cart/:productId`: sets, never removes and never inserts. */
  method UpdateCartItem(db: Database, requester: Requester, productId: string, quantity: int)
    returns (status: Status)
    modifies db`users
    ensures requester.userId !in old(db.users) ==> status == ServerError && db.users == old(db.users)
    ensures requester.userId in old(db.users) ==>
              var u := old(db.users)[requester.userId];
              status == Success &&
              db.users == old(db.users)[requester.userId := u.(cart := SetEntry(u.cart, productId, quantity))]
  {
    if requester.userId !in db.users {
      return ServerError;
    }
    var user := db.users[requester.userId];
    var existing := FirstEntry(user.cart, productId);
    if existing.Some? {
      var k := existing.value;
      user := user.(cart := user.cart[k := user.cart[k].(quantity := quantity)]);
      db.users := db.users[requester.userId := user];
    }
    status := Success;
  }

  /** `DELETE /users/cart/:productId`. */
  method RemoveFromCart(db: Database, requester: Requester, productId: string) returns (status: Status)
    modifies db`users
    ensures requester.userId !in old(db.users) ==> status == ServerError && db.users == old(db.users)
    ensures requester.userId in old(db.users) ==>
              var u := old(db.users)[requester.userId];
              status == Success &&
              db.users == old(db.users)[requester.userId := u.(cart := DropEntries(u.cart, productId))]
  {
    if requester.userId !in db.users {
      return ServerError;
    }
    var user := db.users[requester.userId];
    user := user.(cart := DropEntries(user.cart, productId));
    db.users := db.users[requester.userId := user];
    status := Success;
  }
}
