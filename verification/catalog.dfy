/** The catalog half of `SampleLicensingMarketService`: products, the filter
    criteria with their defaults, the filter and the lookup by id. */
module Catalog {
  import opened Wrappers
  import opened Seqs
  import opened Text

  datatype Price = Price(list: int, sale: int)

  /** A product of the dataset. Prices and ratings are only compared, so
      integers stand for JavaScript numbers; ids are strings. */
  datatype Product = Product(
    id: string,
    name: string,
    description: string,
    tags: seq<string>,
    category: string,
    price: Price,
    rating: int)

  /** The filter form's value. `search` and `category` may be missing
      (`None`); the four bounds are numbers. */
  datatype Criteria = Criteria(
    search: Option<string>,
    category: Option<string>,
    minPrice: int,
    maxPrice: int,
    minRating: int,
    maxRating: int)

  /** `initialFilters`: the criteria the filter stream starts with. */
  const InitialFilters := Criteria(None, None, 10, 40, 1, 5)

  /** The fixed list `getCategories` yields. */
  const Categories: seq<string> := ["speaker", "headphone", "watch", "phone"]

  const NotFoundMessage := "Product not found!"

  /** JavaScript's `!x` on an optional string: missing or empty. */
  predicate Blank(o: Option<string>)
  {
    o.None? || o.value == ""
  }

  /** Search: a blank search passes; otherwise the lower-cased name must hold
      the lower-cased search, or the description must hold the search as
      written, or one of the tags must equal it. */
  predicate SearchMatches(p: Product, c: Criteria)
  {
    Blank(c.search)
    || StringIndexOf(ToLower(p.name), ToLower(c.search.value)) > -1
    || StringIndexOf(p.description, c.search.value) > -1
    || IndexOf(p.tags, c.search.value) > -1
  }

  predicate CategoryMatches(p: Product, c: Criteria)
  {
    (c.category.Some? && c.category.value == p.category)
    || Blank(c.category)
    || (c.category.Some? && c.category.value == "all")
  }

  predicate PriceMatches(p: Product, c: Criteria)
  {
    p.price.sale >= c.minPrice && p.price.sale <= c.maxPrice
  }

  predicate RatingMatches(p: Product, c: Criteria)
  {
    p.rating >= c.minRating && p.rating <= c.maxRating
  }

  /** The per-product callback of `filterProducts`: all four checks pass. */
  predicate Matches(p: Product, c: Criteria)
  {
    SearchMatches(p, c) && CategoryMatches(p, c) && PriceMatches(p, c) && RatingMatches(p, c)
  }

  /** What a matching product is, stated without `indexOf`: the search is
      blank or found (case-insensitively in the name, as written in the
      description, as a whole tag), the category is blank, "all" or the
      product's own, and sale price and rating lie in the inclusive ranges. */
  lemma MatchesMeaning(p: Product, c: Criteria)
    ensures Matches(p, c) <==>
      && (c.search.None? || c.search.value == ""
          || Contains(ToLower(p.name), ToLower(c.search.value))
          || Contains(p.description, c.search.value)
          || c.search.value in p.tags)
      && (c.category.None? || c.category.value in {"", "all", p.category})
      && c.minPrice <= p.price.sale <= c.maxPrice
      && c.minRating <= p.rating <= c.maxRating
  {
  }

  function Matcher(c: Criteria): (keep: Product -> bool)
  {
    (p: Product) => Matches(p, c)
  }

  /** `filterProducts`: the products that match `c`, in input order. */
  function FilterProducts(products: seq<Product>, c: Criteria): (r: seq<Product>)
    ensures forall i :: 0 <= i < |r| ==> r[i] in products && Matches(r[i], c)
    ensures forall i :: 0 <= i < |products| && Matches(products[i], c) ==> products[i] in r
  {
    Filter(products, Matcher(c))
  }

  /** The result is a subsequence of the input: nothing is reordered. */
  lemma FilterProductsInOrder(products: seq<Product>, c: Criteria)
    ensures IsSubsequence(FilterProducts(products, c), products)
  {
    FilterIsSubsequence(products, Matcher(c));
  }

  /** Filtering is decided product by product: the result for a concatenation
      is the concatenation of the results, and a single product is kept
      exactly when it matches. Together these fix the result completely. */
  lemma FilterProductsPointwise(a: seq<Product>, b: seq<Product>, p: Product, c: Criteria)
    ensures FilterProducts(a + b, c) == FilterProducts(a, c) + FilterProducts(b, c)
    ensures FilterProducts([p], c) == if Matches(p, c) then [p] else []
  {
    FilterAppend(a, b, Matcher(c));
    assert [p][1..] == [];
  }

  /** When every product matches, all of them come back, in the same order. */
  lemma FilterProductsAllMatch(products: seq<Product>, c: Criteria)
    requires forall i :: 0 <= i < |products| ==> Matches(products[i], c)
    ensures FilterProducts(products, c) == products
  {
    FilterKeepsAll(products, Matcher(c));
  }

  /** Running the filter again with the same criteria removes nothing more. */
  lemma FilterProductsIdempotent(products: seq<Product>, c: Criteria)
    ensures FilterProducts(FilterProducts(products, c), c) == FilterProducts(products, c)
  {
    FilterIdempotent(products, Matcher(c));
  }

  /** Under the initial filters, a product on sale for 25 with rating 3
      passes; the same product on sale for 45 does not. */
  lemma InitialFiltersExample(p: Product)
    requires p.price.sale == 25 && p.rating == 3
    ensures Matches(p, InitialFilters)
    ensures !Matches(p.(price := p.price.(sale := 45)), InitialFilters)
    ensures FilterProducts([p], InitialFilters) == [p]
  {
    FilterProductsPointwise([], [], p, InitialFilters);
  }

  function HasId(id: string): (keep: Product -> bool)
  {
    (p: Product) => p.id == id
  }

  /** `getProductDetails`: the first product of the dataset whose id is `id`,
      or the "Product not found!" error when none is. */
  function GetProductDetails(dataset: seq<Product>, id: string): (r: Result<Product>)
    ensures r.Err? <==> forall i :: 0 <= i < |dataset| ==> dataset[i].id != id
    ensures r.Err? ==> r.message == NotFoundMessage
    ensures r.Ok? ==> exists k :: 0 <= k < |dataset| && dataset[k] == r.value &&
                                 r.value.id == id &&
                                 forall j :: 0 <= j < k ==> dataset[j].id != id
  {
    var found := Filter(dataset, HasId(id));
    if |found| == 0 then Err(NotFoundMessage)
    else
      FilterFirst(dataset, HasId(id));
      Ok(found[0])
  }
}
