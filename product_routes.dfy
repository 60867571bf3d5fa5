/** The server's product routes: the catalog listing (filter object, sort
    specification, pagination) and the vendor-only create, update and delete. */
module ProductRoutes {
  import opened Collections
  import opened ServerStore

  // -------------------------------------------------------------- listing

  /** The filter object; `None` is a field left out of it. */
  datatype Query = Query(status: string, category: Option<string>, subcategory: Option<string>)

  /** Only active products; a category or subcategory parameter is added when given and
      non-empty (an empty string is falsy, as an absent one). */
  function BuildQuery(category: string, subcategory: string): (q: Query)
    ensures q.status == "active"
    ensures q.category.Some? <==> category != ""
    ensures q.subcategory.Some? <==> subcategory != ""
  {
    Query("active",
          if category != "" then Some(category) else None,
          if subcategory != "" then Some(subcategory) else None)
  }

  /** A product satisfies the filter object when it has every field the object names. */
  predicate MatchesQuery(q: Query, p: ServerProduct) {
    p.status == q.status &&
    (q.category.None? || p.category == q.category.value) &&
    (q.subcategory.None? || p.subcategory == q.subcategory.value)
  }

  /** What the listing filter means in terms of the request's parameters. */
  lemma ListingFilter(category: string, subcategory: string, p: ServerProduct)
    ensures MatchesQuery(BuildQuery(category, subcategory), p) <==>
              p.status == "active" &&
              (category == "" || p.category == category) &&
              (subcategory == "" || p.subcategory == subcategory)
  {
  }

  datatype SortField = Price | Rating | CreatedAt | Featured
  datatype SortKey = SortKey(field: SortField, descending: bool)

  /** The `switch (sort)`: one key for the four named orders, and featured first then newest
      for anything else. */
  function SortOption(sort: string): (r: seq<SortKey>)
    ensures |r| == 1 <==> sort in {"price-low", "price-high", "rating", "newest"}
    ensures |r| == 2 <==> sort !in {"price-low", "price-high", "rating", "newest"}
    ensures r[0].field == Price <==> sort in {"price-low", "price-high"}
    ensures !r[0].descending <==> sort == "price-low"
    ensures forall k :: 0 <= k < |r| ==> r[k].field != Featured || k == 0
  {
    match sort
    case "price-low" => [SortKey(Price, false)]
    case "price-high" => [SortKey(Price, true)]
    case "rating" => [SortKey(Rating, true)]
    case "newest" => [SortKey(CreatedAt, true)]
    case _ => [SortKey(Featured, true), SortKey(CreatedAt, true)]
  }

  /** The compared value; a featured product counts as 1, another as 0. */
  function FieldValue(p: ServerProduct, f: SortField): real {
    match f
    case Price => p.price as real
    case Rating => p.rating
    case CreatedAt => p.createdAt as real
    case Featured => if p.featured then 1.0 else 0.0
  }

  /** `a` may come before `b` under the keys: the first key on which they differ decides. */
  predicate NotAfter(a: ServerProduct, b: ServerProduct, keys: seq<SortKey>) {
    if keys == [] then true
    else
      var va := FieldValue(a, keys[0].field);
      var vb := FieldValue(b, keys[0].field);
      if va == vb then NotAfter(a, b, keys[1..])
      else if keys[0].descending then va > vb else va < vb
  }

  predicate OrderedBy(s: seq<ServerProduct>, keys: seq<SortKey>) {
    forall i, j :: 0 <= i < j < |s| ==> NotAfter(s[i], s[j], keys)
  }

  /** What each sort parameter asks of the listed order. */
  lemma SortMeaning(s: seq<ServerProduct>, sort: string, i: int, j: int)
    requires OrderedBy(s, SortOption(sort))
    requires 0 <= i < j < |s|
    ensures sort == "price-low" ==> s[i].price <= s[j].price
    ensures sort == "price-high" ==> s[i].price >= s[j].price
    ensures sort == "rating" ==> s[i].rating >= s[j].rating
    ensures sort == "newest" ==> s[i].createdAt >= s[j].createdAt
    ensures sort !in {"price-low", "price-high", "rating", "newest"} ==>
              (s[j].featured ==> s[i].featured) &&
              (s[i].featured == s[j].featured ==> s[i].createdAt >= s[j].createdAt)
  {
    var keys := SortOption(sort);
    assert NotAfter(s[i], s[j], keys);
    if sort !in {"price-low", "price-high", "rating", "newest"} {
      assert keys == [SortKey(Featured, true), SortKey(CreatedAt, true)];
      var rest := keys[1..];
      assert rest == [SortKey(CreatedAt, true)];
      assert rest[1..] == [];
      if s[i].featured == s[j].featured {
        assert NotAfter(s[i], s[j], rest);
      }
    } else {
      assert keys[1..] == [];
    }
  }

  /** Dropping products from an ordered list keeps it ordered. */
  lemma {:induction false} FilterKeepsOrder(s: seq<ServerProduct>, f: ServerProduct -> bool, keys: seq<SortKey>)
    requires OrderedBy(s, keys)
    ensures OrderedBy(Filter(s, f), keys)
  {
    if s != [] {
      var t := s[1..];
      assert OrderedBy(t, keys) by {
        forall i, j | 0 <= i < j < |t| ensures NotAfter(t[i], t[j], keys) {
          assert t[i] == s[i + 1] && t[j] == s[j + 1];
        }
      }
      FilterKeepsOrder(t, f, keys);
      if f(s[0]) {
        var u := Filter(t, f);
        var r := [s[0]] + u;
        assert forall y :: y in t ==> NotAfter(s[0], y, keys) by {
          forall y | y in t ensures NotAfter(s[0], y, keys) {
            var k :| 0 <= k < |t| && t[k] == y;
            assert s[k + 1] == y;
          }
        }
        forall i, j | 0 <= i < j < |r| ensures NotAfter(r[i], r[j], keys) {
          assert r[j] == u[j - 1] && r[j] in t;
          if i > 0 {
            assert r[i] == u[i - 1];
          }
        }
      }
    }
  }

  /** The body of a listing response. */
  datatype Page<T> = Page(items: seq<T>, totalPages: int, currentPage: int, total: int)

  /** At most `n` products from position `from` on; nothing when `from` is outside the list. */
  function Window<T>(s: seq<T>, from: int, n: int): (r: seq<T>)
    requires n > 0
    ensures |r| <= n
    ensures forall i :: 0 <= i < |r| ==> 0 <= from + i < |s| && r[i] == s[from + i]
    ensures 0 <= from < |s| ==> |r| == if from + n <= |s| then n else |s| - from
  {
    if from < 0 || from >= |s| then []
    else s[from..if from + n <= |s| then from + n else |s|]
  }

  /** `skip((page - 1) * limit)`, `limit(limit)` and `Math.ceil(total / limit)` over the matching
      products; a negative skip is refused by the database and the route answers 500. */
  function Paginate<T>(matching: seq<T>, page: int, limit: int): (r: Result<Page<T>, Status>)
    requires limit > 0
    ensures r.Err? <==> page < 1
    ensures r.Err? ==> r.error == ServerError
    ensures r.Ok? ==> r.value.total == |matching| && r.value.currentPage == page
    ensures r.Ok? ==> r.value.totalPages == PageCount(|matching|, limit)
    ensures r.Ok? ==> r.value.items == Window(matching, (page - 1) * limit, limit)
  {
    var skip := (page - 1) * limit;
    NegativeSkip(page, limit);
    if skip < 0 then Err(ServerError)
    else Ok(Page(Window(matching, skip, limit), PageCount(|matching|, limit), page, |matching|))
  }

  /** The skip is negative exactly for pages before the first. */
  lemma NegativeSkip(page: int, limit: int)
    requires limit > 0
    ensures (page - 1) * limit < 0 <==> page < 1
  {
    if page >= 1 {
      assert (page - 1) * limit >= 0;
    } else {
      assert (page - 1) * limit <= -limit;
    }
  }

  /** `Math.ceil(total / limit)`: the fewest pages of `limit` that hold `total` products. */
  function PageCount(total: nat, limit: int): (c: nat)
    requires limit > 0
    ensures (c - 1) * limit < total <= c * limit
  {
    var m := total + limit - 1;
    var c := m / limit;
    assert m == c * limit + m % limit;
    assert (c - 1) * limit == c * limit - limit;
    c
  }

  /** Every matching product is on exactly the page its position says, and that page exists. */
  lemma PageOfPosition<T>(matching: seq<T>, limit: int, i: int)
    requires limit > 0 && 0 <= i < |matching|
    ensures var r := Paginate(matching, i / limit + 1, limit);
            r.Ok? && i / limit + 1 <= r.value.totalPages &&
            i % limit < |r.value.items| && r.value.items[i % limit] == matching[i]
  {
    var p := i / limit + 1;
    var skip := (p - 1) * limit;
    assert skip + i % limit == i;
    assert 0 <= skip <= i;
    var c := PageCount(|matching|, limit);
    assert (p - 1) * limit < c * limit;
    ProductBelow(p - 1, c, limit);
  }

  lemma ProductBelow(a: int, b: int, k: int)
    requires k > 0 && a * k < b * k
    ensures a < b
  {
    assert b * k - a * k == (b - a) * k;
  }

  /** The products the filter object accepts, in the collection's order. */
  function Matching(ordered: seq<ServerProduct>, category: string, subcategory: string): seq<ServerProduct> {
    Filter(ordered, Accepted(BuildQuery(category, subcategory)))
  }

  function Accepted(q: Query): ServerProduct -> bool {
    (p: ServerProduct) => MatchesQuery(q, p)
  }

  /** `GET /products`. `ordered` is the whole collection in the order the sort parameter asks,
      as the database returns it; `page` and `limit` default to 1 and 12. A page before the
      first is refused; otherwise the page is the window of `limit` matching products after
      `(page - 1) * limit` of them, with the page asked for, the page count and the total. */
  function ListProducts(ordered: seq<ServerProduct>, category: string, subcategory: string, sort: string,
                        page: Option<int>, limit: Option<int>): (r: Result<Page<ServerProduct>, Status>)
    requires limit.GetOr(12) > 0
    requires OrderedBy(ordered, SortOption(sort))
    ensures r.Err? <==> page.GetOr(1) < 1
    ensures r.Err? ==> r.error == ServerError
    ensures r.Ok? ==>
              r.value.items == Window(Matching(ordered, category, subcategory),
                                      (page.GetOr(1) - 1) * limit.GetOr(12), limit.GetOr(12))
    ensures r.Ok? ==> r.value.currentPage == page.GetOr(1)
    ensures r.Ok? ==> r.value.total == |Matching(ordered, category, subcategory)|
    ensures r.Ok? ==> r.value.totalPages == PageCount(|Matching(ordered, category, subcategory)|, limit.GetOr(12))
    ensures r.Ok? ==> forall i :: 0 <= i < |r.value.items| ==>
              r.value.items[i] in ordered && MatchesQuery(BuildQuery(category, subcategory), r.value.items[i])
    ensures r.Ok? ==> OrderedBy(r.value.items, SortOption(sort))
  {
    var q := BuildQuery(category, subcategory);
    var matching := Matching(ordered, category, subcategory);
    FilterKeepsOrder(ordered, Accepted(q), SortOption(sort));
    var r := Paginate(matching, page.GetOr(1), limit.GetOr(12));
    if r.Ok? then
      WindowKeepsOrder(matching, (page.GetOr(1) - 1) * limit.GetOr(12), limit.GetOr(12), SortOption(sort));
      r
    else r
  }

  /** A window of an ordered list is ordered. */
  lemma WindowKeepsOrder(s: seq<ServerProduct>, from: int, n: int, keys: seq<SortKey>)
    requires n > 0 && OrderedBy(s, keys)
    ensures OrderedBy(Window(s, from, n), keys)
  {
    var w := Window(s, from, n);
    forall i, j | 0 <= i < j < |w| ensures NotAfter(w[i], w[j], keys) {
      assert w[i] == s[from + i] && w[j] == s[from + j];
    }
  }

  // ------------------------------------------------------------ ownership

  /** The fields of a request body; `None` is a field the body does not carry. */
  datatype ProductPatch = ProductPatch(
    name: Option<string>, price: Option<int>, category: Option<string>, subcategory: Option<string>,
    vendor: Option<string>, status: Option<string>, featured: Option<bool>, createdAt: Option<int>,
    rating: Option<real>, reviewCount: Option<int>, reviews: Option<seq<string>>, stock: Option<int>)

  /** `Object.assign(product, body)`: every field the body carries is overwritten, the vendor,
      the creation time and the review list included; every field it does not carry is kept. */
  function Assign(p: ServerProduct, body: ProductPatch): (r: ServerProduct)
    ensures Takes(body.name, p.name, r.name) && Takes(body.price, p.price, r.price)
    ensures Takes(body.category, p.category, r.category) && Takes(body.subcategory, p.subcategory, r.subcategory)
    ensures Takes(body.vendor, p.vendor, r.vendor) && Takes(body.status, p.status, r.status)
    ensures Takes(body.featured, p.featured, r.featured) && Takes(body.createdAt, p.createdAt, r.createdAt)
    ensures Takes(body.rating, p.rating, r.rating) && Takes(body.reviewCount, p.reviewCount, r.reviewCount)
    ensures Takes(body.reviews, p.reviews, r.reviews) && Takes(body.stock, p.stock, r.stock)
  {
    ServerProduct(
      body.name.GetOr(p.name), body.price.GetOr(p.price), body.category.GetOr(p.category),
      body.subcategory.GetOr(p.subcategory), body.vendor.GetOr(p.vendor), body.status.GetOr(p.status),
      body.featured.GetOr(p.featured), body.createdAt.GetOr(p.createdAt), body.rating.GetOr(p.rating),
      body.reviewCount.GetOr(p.reviewCount), body.reviews.GetOr(p.reviews), body.stock.GetOr(p.stock))
  }

  const EmptyBody: ProductPatch :=
    ProductPatch(None, None, None, None, None, None, None, None, None, None, None, None)

  /** An empty body changes nothing, and applying the same body twice is applying it once. */
  lemma AssignLaws(p: ServerProduct, body: ProductPatch)
    ensures Assign(p, EmptyBody) == p
    ensures Assign(Assign(p, body), body) == Assign(p, body)
  {
  }

  /** The owning vendor, or an admin. */
  predicate MayEdit(p: ServerProduct, r: Requester) {
    p.vendor == r.userId || IsAdmin(r)
  }

  /** `POST /products`: 403 unless vendor or admin; the new product's vendor is the requester,
      whatever the body says. `body` is the document built from the request body and `newId`
      the id the database gives it. */
  method CreateProduct(db: Database, requester: Requester, body: ServerProduct, newId: string)
    returns (status: Status)
    modifies db`products
    ensures !VendorOrAdmin(requester) ==> status == Forbidden && db.products == old(db.products)
    ensures VendorOrAdmin(requester) ==>
              status == Created && db.products == old(db.products)[newId := body.(vendor := requester.userId)]
  {
    if !VendorOrAdmin(requester) {
      return Forbidden;
    }
    db.products := db.products[newId := body.(vendor := requester.userId)];
    status := Created;
  }

  /** `PUT /products/:id`: 404 for a missing product, 403 unless owner or admin, else the body is merged in. */
  method UpdateProduct(db: Database, requester: Requester, id: string, body: ProductPatch)
    returns (status: Status)
    modifies db`products
    ensures id !in old(db.products) ==> status == NotFound && db.products == old(db.products)
    ensures id in old(db.products) && !MayEdit(old(db.products)[id], requester) ==>
              status == Forbidden && db.products == old(db.products)
    ensures id in old(db.products) && MayEdit(old(db.products)[id], requester) ==>
              status == Success && db.products == old(db.products)[id := Assign(old(db.products)[id], body)]
  {
    if id !in db.products {
      return NotFound;
    }
    var product := db.products[id];
    if !MayEdit(product, requester) {
      return Forbidden;
    }
    db.products := db.products[id := Assign(product, body)];
    status := Success;
  }

  /** `DELETE /products/:id`: 404 for a missing product, 403 unless owner or admin, else it is removed. */
  method DeleteProduct(db: Database, requester: Requester, id: string) returns (status: Status)
    modifies db`products
    ensures id !in old(db.products) ==> status == NotFound && db.products == old(db.products)
    ensures id in old(db.products) && !MayEdit(old(db.products)[id], requester) ==>
              status == Forbidden && db.products == old(db.products)
    ensures id in old(db.products) && MayEdit(old(db.products)[id], requester) ==>
              status == Success && db.products == old(db.products) - {id}
  {
    if id !in db.products {
      return NotFound;
    }
    if !MayEdit(db.products[id], requester) {
      return Forbidden;
    }
    db.products := db.products - {id};
    status := Success;
  }
}
