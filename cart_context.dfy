/** The server-backed cart of the client: a local copy of the user's cart lines
    (each with its populated product) and the two totals shown in the header
    and the cart page. */
module CartContext {
  import opened Collections

  /** The populated product of a cart line; `price` is in cents. */
  datatype CartProduct = CartProduct(id: string, name: string, price: int, images: seq<string>, stock: int)

  datatype Item = Item(id: string, product: CartProduct, quantity: int)

  function ItemQuantity(it: Item): int {
    it.quantity
  }

  function ItemAmount(it: Item): int {
    it.product.price * it.quantity
  }

  /** `totalItems`: the number of units in the cart. */
  function TotalItems(items: seq<Item>): (r: int)
    ensures (forall i :: 0 <= i < |items| ==> items[i].quantity >= 0) ==> r >= 0
  {
    if forall i :: 0 <= i < |items| ==> items[i].quantity >= 0 then
      SumLowerBound(items, ItemQuantity, 0);
      Sum(items, ItemQuantity)
    else Sum(items, ItemQuantity)
  }

  /** `totalPrice`: the sum of price times quantity. */
  function TotalPrice(items: seq<Item>): (r: int)
    ensures (forall i :: 0 <= i < |items| ==> items[i].product.price >= 0 && items[i].quantity >= 0) ==> r >= 0
  {
    if forall i :: 0 <= i < |items| ==> items[i].product.price >= 0 && items[i].quantity >= 0 then
      SumLowerBound(items, ItemAmount, 0);
      Sum(items, ItemAmount)
    else Sum(items, ItemAmount)
  }

  /** Both totals add up over a split of the cart. */
  lemma TotalsSplit(a: seq<Item>, b: seq<Item>)
    ensures TotalItems(a + b) == TotalItems(a) + TotalItems(b)
    ensures TotalPrice(a + b) == TotalPrice(a) + TotalPrice(b)
  {
    SumAppend(a, b, ItemQuantity);
    SumAppend(a, b, ItemAmount);
  }

  /** With every line holding at least one unit, there are at least as many units as lines. */
  lemma UnitsAtLeastLines(items: seq<Item>)
    requires forall i :: 0 <= i < |items| ==> items[i].quantity >= 1
    ensures TotalItems(items) >= |items|
  {
    SumLowerBound(items, ItemQuantity, 1);
  }

  /** The local cart copy, replaced as a whole by each operation. */
  class CartState {
    var items: seq<Item>

    constructor ()
      ensures items == []
    {
      items := [];
    }

    /** Empties the local items only; the server cart is not touched. */
    method ClearCart()
      modifies this
      ensures items == []
    {
      items := [];
    }

    /** With no user the items become empty; otherwise a fetched cart replaces them, and a
        failed fetch (`None`) leaves them as they were. */
    method RefreshCart(loggedIn: bool, fetched: Option<seq<Item>>)
      modifies this
      ensures !loggedIn ==> items == []
      ensures loggedIn && fetched.Some? ==> items == fetched.value
      ensures loggedIn && fetched.None? ==> items == old(items)
    {
      if !loggedIn {
        items := [];
        return;
      }
      match fetched
      case Some(cartData) => items := cartData;
      case None =>
    }
  }
}
