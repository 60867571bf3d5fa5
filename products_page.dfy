/** The client catalog page: the search and category filters and the sort
    applied to the store's product list whenever one of them changes. */
module ProductsPage {
  import opened Collections
  import opened AppStore

  /** Lower-casing of ASCII letters; other characters are kept. */
  function LowerChar(c: char): char {
    if 'A' <= c <= 'Z' then (c as int + 32) as char else c
  }

  function Lower(s: string): string {
    MapSeq(s, LowerChar)
  }

  /** `s.includes(q)`: `q` occurs in `s` as a contiguous block. */
  predicate Includes(s: string, q: string)
    decreases |s|
  {
    |q| <= |s| && (s[..|q|] == q || Includes(s[1..], q))
  }

  /** The search box keeps a product whose name, description or brand contains the
      query, ignoring case. */
  predicate MatchesSearch(p: Product, query: string) {
    var q := Lower(query);
    Includes(Lower(p.name), q) || Includes(Lower(p.description), q) || Includes(Lower(p.brand), q)
  }

  /** Both filters: an empty query keeps everything, and so does the category 'all'. */
  predicate Passes(p: Product, query: string, category: string) {
    (query == "" || MatchesSearch(p, query)) && (category == "all" || p.category == category)
  }

  datatype Direction = Ascending | Descending
  datatype SortKey = ByPrice | ByRating | ByDate

  /** The `switch (sortBy)`: anything unrecognised, 'featured' included, sorts by rating. */
  function SortPlan(sortBy: string): (r: (SortKey, Direction))
    ensures r.1 == Ascending <==> sortBy == "price-low"
    ensures r.0 == ByPrice <==> sortBy in {"price-low", "price-high"}
    ensures r.0 == ByDate <==> sortBy == "newest"
    ensures r.0 == ByRating <==> sortBy !in {"price-low", "price-high", "newest"}
  {
    match sortBy
    case "price-low" => (ByPrice, Ascending)
    case "price-high" => (ByPrice, Descending)
    case "rating" => (ByRating, Descending)
    case "newest" => (ByDate, Descending)
    case _ => (ByRating, Descending)
  }

  /** The value compared; `newest` compares the time parsed from the product id,
      which `idTime` stands for. */
  function Key(k: SortKey, idTime: string -> real, p: Product): real {
    match k
    case ByPrice => p.price as real
    case ByRating => p.rating
    case ByDate => idTime(p.id)
  }

  predicate InOrder(a: real, b: real, d: Direction) {
    if d == Ascending then a <= b else a >= b
  }

  predicate SortedBy(s: seq<Product>, key: Product -> real, d: Direction) {
    forall i, j :: 0 <= i < j < |s| ==> InOrder(key(s[i]), key(s[j]), d)
  }

  /** Inserts `x` before the first element it may precede, so equal keys keep their order. */
  function Insert(x: Product, s: seq<Product>, key: Product -> real, d: Direction): (r: seq<Product>)
    requires SortedBy(s, key, d)
    ensures SortedBy(r, key, d)
    ensures multiset(r) == multiset(s) + multiset{x}
  {
    if s == [] then [x]
    else if InOrder(key(x), key(s[0]), d) then
      assert forall j :: 0 < j < |s| ==> InOrder(key(s[0]), key(s[j]), d);
      [x] + s
    else
      var t := Insert(x, s[1..], key, d);
      HeadBeforeInserted(x, s, t, key, d);
      assert s == [s[0]] + s[1..];
      [s[0]] + t
  }

  /** The head of a sorted list, which `x` may not precede, may precede everything `x` is
      inserted into after it. */
  lemma HeadBeforeInserted(x: Product, s: seq<Product>, t: seq<Product>, key: Product -> real, d: Direction)
    requires s != [] && SortedBy(s, key, d) && !InOrder(key(x), key(s[0]), d)
    requires SortedBy(t, key, d) && multiset(t) == multiset(s[1..]) + multiset{x}
    ensures SortedBy([s[0]] + t, key, d)
  {
    forall y | y in t ensures InOrder(key(s[0]), key(y), d) {
      assert y in multiset(t);
      if y != x {
        assert y in multiset(s[1..]);
        var k :| 0 <= k < |s[1..]| && s[1..][k] == y;
        assert s[k + 1] == y;
      }
    }
    var r := [s[0]] + t;
    forall i, j | 0 <= i < j < |r| ensures InOrder(key(r[i]), key(r[j]), d) {
      assert r[j] == t[j - 1] && r[j] in t;
      if i > 0 {
        assert r[i] == t[i - 1];
      }
    }
  }

  /** Insertion sort: a sorted permutation of `s`, stable on equal keys. */
  function SortBy(s: seq<Product>, key: Product -> real, d: Direction): (r: seq<Product>)
    ensures SortedBy(r, key, d)
    ensures multiset(r) == multiset(s)
  {
    if s == [] then []
    else
      assert s == [s[0]] + s[1..];
      Insert(s[0], SortBy(s[1..], key, d), key, d)
  }

  /** What the order chosen by `sortBy` means for a sorted list. */
  lemma SortPlanMeaning(s: seq<Product>, sortBy: string, idTime: string -> real)
    requires SortedBy(s, (p: Product) => Key(SortPlan(sortBy).0, idTime, p), SortPlan(sortBy).1)
    ensures sortBy == "price-low" ==> forall i, j :: 0 <= i < j < |s| ==> s[i].price <= s[j].price
    ensures sortBy == "price-high" ==> forall i, j :: 0 <= i < j < |s| ==> s[i].price >= s[j].price
    ensures sortBy == "newest" ==> forall i, j :: 0 <= i < j < |s| ==> idTime(s[i].id) >= idTime(s[j].id)
    ensures sortBy != "price-low" && sortBy != "price-high" && sortBy != "newest" ==>
              forall i, j :: 0 <= i < j < |s| ==> s[i].rating >= s[j].rating
  {
    forall i, j | 0 <= i < j < |s|
      ensures InOrder(Key(SortPlan(sortBy).0, idTime, s[i]), Key(SortPlan(sortBy).0, idTime, s[j]), SortPlan(sortBy).1)
    {
    }
  }

  /** The effect that recomputes the displayed list: each product passing both filters
      keeps its multiplicity, every other product is gone, and the list is ordered as
      `sortBy` asks. The page shows `|filtered|` as the number of products found. */
  method FilterAndSort(products: seq<Product>, searchQuery: string, selectedCategory: string,
                       sortBy: string, idTime: string -> real)
    returns (filtered: seq<Product>)
    ensures forall p :: multiset(filtered)[p] ==
              if Passes(p, searchQuery, selectedCategory) then multiset(products)[p] else 0
    ensures sortBy == "price-low" ==>
              forall i, j :: 0 <= i < j < |filtered| ==> filtered[i].price <= filtered[j].price
    ensures sortBy == "price-high" ==>
              forall i, j :: 0 <= i < j < |filtered| ==> filtered[i].price >= filtered[j].price
    ensures sortBy == "newest" ==>
              forall i, j :: 0 <= i < j < |filtered| ==> idTime(filtered[i].id) >= idTime(filtered[j].id)
    ensures sortBy != "price-low" && sortBy != "price-high" && sortBy != "newest" ==>
              forall i, j :: 0 <= i < j < |filtered| ==> filtered[i].rating >= filtered[j].rating
  {
    filtered := products;
    var searched := (p: Product) => MatchesSearch(p, searchQuery);
    var inCategory := (p: Product) => p.category == selectedCategory;
    if searchQuery != "" {
      filtered := Filter(filtered, searched);
    }
    ghost var afterSearch := filtered;
    if selectedCategory != "all" {
      filtered := Filter(filtered, inCategory);
    }
    forall p
      ensures multiset(filtered)[p] ==
                if Passes(p, searchQuery, selectedCategory) then multiset(products)[p] else 0
    {
      if searchQuery != "" {
        FilterMultiplicity(products, searched, p);
      }
      if selectedCategory != "all" {
        FilterMultiplicity(afterSearch, inCategory, p);
      }
    }
    ghost var unsorted := filtered;
    filtered := SortBy(filtered, (p: Product) => Key(SortPlan(sortBy).0, idTime, p), SortPlan(sortBy).1);
    SortPlanMeaning(filtered, sortBy, idTime);
  }
}
