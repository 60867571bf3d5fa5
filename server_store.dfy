/** The server's documents and the database that holds them, as maps from id to
    document. A request's authenticated user arrives as a `Requester`. */
module ServerStore {
  import opened OrderSchema

  /** The fields of a product document the routes read or write; `price` is in cents. */
  datatype ServerProduct = ServerProduct(
    name: string, price: int, category: string, subcategory: string, vendor: string,
    status: string, featured: bool, createdAt: int, rating: real, reviewCount: int,
    reviews: seq<string>, stock: int)

  datatype CartEntry = CartEntry(product: string, quantity: int)

  /** The parts of a user document the user routes touch. */
  datatype UserRecord = UserRecord(favorites: seq<string>, cart: seq<CartEntry>)

  datatype Review = Review(id: string, product: string, customer: string, rating: int,
                           title: string, comment: string)

  /** The user the authentication layer attaches to a request. */
  datatype Requester = Requester(userId: string, role: string)

  /** The HTTP status a route answers with: 200, 201, 400, 403, 404 and 500. */
  datatype Status = Success | Created | BadRequest | Forbidden | NotFound | ServerError

  predicate IsAdmin(r: Requester) {
    r.role == "admin"
  }

  /** The role check of the vendor-only routes. */
  predicate VendorOrAdmin(r: Requester) {
    r.role == "vendor" || r.role == "admin"
  }

  class Database {
    var products: map<string, ServerProduct>
    var orders: map<string, Order>
    var users: map<string, UserRecord>
    var reviews: seq<Review>

    constructor (initialProducts: map<string, ServerProduct>, initialUsers: map<string, UserRecord>)
      ensures products == initialProducts && users == initialUsers
      ensures orders == map[] && reviews == []
    {
      products := initialProducts;
      orders := map[];
      users := initialUsers;
      reviews := [];
    }
  }
}
