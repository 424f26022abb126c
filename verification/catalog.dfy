/** The product collection as the listing endpoints see it: the run-once
    seeding of an empty collection, the filter document built from the
    `category` and `q` parameters, and the distinct categories. */
module Catalog {
  import opened Wrappers
  import opened Schemas

  /** The four sample products inserted into an empty collection. */
  const SampleProducts: seq<Product> := [
    Product(Some("Strawberry Bubble Tea"),
            Some("Refreshing strawberry milk tea with chewy tapioca pearls."),
            Val(18000.0), Some("Drinks"),
            Some("https://images.unsplash.com/photo-1613478223719-2ab802602423?q=80&w=1200&auto=format&fit=crop"),
            Some("Boba Bliss UMKM"), Some(4.7), ["boba", "strawberry", "sweet"], true),
    Product(Some("Classic Milk Tea"),
            Some("Smooth black tea with creamy milk and brown sugar pearls."),
            Val(16000.0), Some("Drinks"),
            Some("https://images.unsplash.com/photo-1592861956120-e524fc739696?q=80&w=1200&auto=format&fit=crop"),
            Some("Kopi & Teh Lokal"), Some(4.6), ["boba", "milk tea"], true),
    Product(Some("Spicy Chicken Skewers"),
            Some("Grilled chicken satay with homemade spicy sauce."),
            Val(22000.0), Some("Snacks"),
            Some("https://images.unsplash.com/photo-1666001085700-0610a7f0b11d?q=80&w=1200&auto=format&fit=crop"),
            Some("Satay UMKM"), Some(4.4), ["spicy", "protein"], true),
    Product(Some("Chocolate Banana Crepes"),
            Some("Soft crepes filled with banana and chocolate drizzle."),
            Val(15000.0), Some("Dessert"),
            Some("https://images.unsplash.com/photo-1541599188778-cdc73298e8f8?q=80&w=1200&auto=format&fit=crop"),
            Some("Manis Lokal"), Some(4.8), ["dessert", "sweet"], true)
  ]

  // ---------------------------------------------------------------------
  // Seeding
  // ---------------------------------------------------------------------

  /** The product collection after seeding. `db` is None when no database is
      configured; otherwise it holds the collection's documents in insertion
      order. A non-empty collection is left alone; an empty one receives the
      samples. */
  function Seed(db: Option<seq<Product>>): (r: Option<seq<Product>>)
    ensures r.Some? <==> db.Some?
    ensures r.Some? ==> |r.value| > 0
    ensures r.Some? ==> db.value <= r.value
  {
    match db
    case None => None
    case Some(coll) => if |coll| > 0 then db else Some(SampleProducts)
  }

  /** Seeding never touches a collection that already holds a product. */
  lemma SeedKeepsNonEmpty(coll: seq<Product>)
    requires |coll| > 0
    ensures Seed(Some(coll)) == Some(coll)
  {
  }

  /** An empty collection becomes exactly the four samples. */
  lemma SeedFillsEmpty()
    ensures Seed(Some([])) == Some(SampleProducts)
    ensures |SampleProducts| == 4
  {
  }

  /** Seeding twice is seeding once. */
  lemma SeedIdempotent(db: Option<seq<Product>>)
    ensures Seed(Seed(db)) == Seed(db)
  {
  }

  /** Seeding preserves a collection in which every product satisfies the
      schema, because every sample does. */
  lemma SeedPreservesValidity(db: Option<seq<Product>>)
    requires db.Some? ==> forall i :: 0 <= i < |db.value| ==> ValidProduct(db.value[i])
    ensures Seed(db).Some? ==> forall i :: 0 <= i < |Seed(db).value| ==> ValidProduct(Seed(db).value[i])
  {
    SamplesAreValid();
  }

  /** Every sample satisfies the `Product` schema. */
  lemma SamplesAreValid()
    ensures forall i :: 0 <= i < |SampleProducts| ==> ValidProduct(SampleProducts[i])
  {
  }

  // ---------------------------------------------------------------------
  // Distinct categories
  // ---------------------------------------------------------------------

  /** The distinct categories of the products in `coll`; a product without a
      category contributes none. */
  function Categories(coll: seq<Product>): (r: set<string>)
    ensures forall c :: c in r <==> exists i :: 0 <= i < |coll| && coll[i].category == Some(c)
    ensures |r| <= |coll|
  {
    if |coll| == 0 then {}
    else
      var rest := Categories(coll[1..]);
      assert forall i :: 1 <= i < |coll| ==> coll[i] == coll[1..][i - 1];
      match coll[0].category
      case None => rest
      case Some(c) => {c} + rest
  }

  /** The samples cover three categories, so more than one. */
  lemma SamplesSpanCategories()
    ensures Categories(SampleProducts) == {"Drinks", "Snacks", "Dessert"}
    ensures |Categories(SampleProducts)| > 1
  {
    var s := SampleProducts;
    assert Categories(s[3..][1..]) == {};
    assert Categories(s[3..]) == {"Dessert"};
    assert s[2..][1..] == s[3..];
    assert Categories(s[2..]) == {"Snacks", "Dessert"};
    assert s[1..][1..] == s[2..];
    assert Categories(s[1..]) == {"Drinks", "Snacks", "Dessert"};
    assert Categories(s) == {"Drinks", "Snacks", "Dessert"};
  }

  /** The categories listed after seeding: on an empty collection they are
      the samples' three. */
  lemma ListCategoriesOnEmpty()
    ensures Categories(Seed(Some([])).value) == {"Drinks", "Snacks", "Dessert"}
  {
    SeedFillsEmpty();
    SamplesSpanCategories();
  }

  // ---------------------------------------------------------------------
  // Filtering
  // ---------------------------------------------------------------------

  /** Case-insensitive pattern matching of a query against one field value,
      left uninterpreted: `m(q, v)` holds when `q` matches `v`. */
  type Matcher = (string, string) -> bool

  /** The filter document of a listing: a required category and a query that
      must match the name, the description or a tag. A missing key imposes
      nothing. */
  datatype ProductFilter = ProductFilter(category: Option<string>, query: Option<string>)

  /** A query parameter that takes part in the filter: present and non-empty. */
  predicate Given(s: Option<string>) {
    s.Some? && s.value != ""
  }

  /** The filter document built from the listing's parameters. */
  function BuildFilter(category: Option<string>, q: Option<string>): (f: ProductFilter)
    ensures f.category.Some? <==> Given(category)
    ensures f.query.Some? <==> Given(q)
    ensures f.category.Some? ==> f.category == category && f.category.value != ""
    ensures f.query.Some? ==> f.query == q && f.query.value != ""
  {
    ProductFilter(if Given(category) then category else None,
                  if Given(q) then q else None)
  }

  /** `q` matches the product's name, its description or one of its tags. */
  predicate TextHit(q: string, p: Product, m: Matcher) {
    || (p.name.Some? && m(q, p.name.value))
    || (p.description.Some? && m(q, p.description.value))
    || (exists t :: t in p.tags && m(q, t))
  }

  /** How the store evaluates a filter document against one product. */
  predicate Matches(f: ProductFilter, p: Product, m: Matcher) {
    && (f.category.Some? ==> p.category == f.category)
    && (f.query.Some? ==> TextHit(f.query.value, p, m))
  }

  /** `a` is `b` with some elements dropped and the rest in their order. */
  predicate SubsequenceOf<T(==)>(a: seq<T>, b: seq<T>)
    decreases |b|
  {
    if |a| == 0 then true
    else if |b| == 0 then false
    else if a[0] == b[0] then SubsequenceOf(a[1..], b[1..])
    else SubsequenceOf(a, b[1..])
  }

  /** The products of `coll` that the filter selects, in collection order. */
  function Find(coll: seq<Product>, f: ProductFilter, m: Matcher): (r: seq<Product>)
    ensures forall p :: p in r <==> p in coll && Matches(f, p, m)
    ensures forall p :: multiset(r)[p] == if Matches(f, p, m) then multiset(coll)[p] else 0
    ensures SubsequenceOf(r, coll)
  {
    if |coll| == 0 then []
    else
      var rest := Find(coll[1..], f, m);
      assert coll == [coll[0]] + coll[1..];
      if Matches(f, coll[0], m) then [coll[0]] + rest else rest
  }

  /** Whether the store accepts a query as a case-insensitive pattern; left
      uninterpreted. */
  type PatternCheck = string -> bool

  /** Why a listing failed: the store rejected the query as a pattern. */
  datatype ListError = BadPattern(query: string)

  /** The products a listing returns: the collection is seeded first, then
      filtered. A query the store does not accept as a pattern makes the
      listing fail (the seeding has happened by then). The listing holds
      exactly the seeded collection's products whose category is the
      requested one, when a category is given, and that the query matches
      by name, description or tag, when a query is given; each as often as
      stored and in collection order. */
  function ListProducts(coll: seq<Product>, category: Option<string>, q: Option<string>, m: Matcher, accepts: PatternCheck)
    : (r: Result<seq<Product>, ListError>)
    ensures r.Failure? <==> Given(q) && !accepts(q.value)
    ensures r.Failure? ==> r.error == BadPattern(q.value)
    ensures r.Success? ==> forall p :: p in r.value <==>
      && p in Seed(Some(coll)).value
      && (Given(category) ==> p.category == category)
      && (Given(q) ==> TextHit(q.value, p, m))
    ensures r.Success? ==> SubsequenceOf(r.value, Seed(Some(coll)).value)
    ensures r.Success? ==> forall p :: p in r.value ==> multiset(r.value)[p] == multiset(Seed(Some(coll)).value)[p]
  {
    var f := BuildFilter(category, q);
    if f.query.Some? && !accepts(f.query.value) then Failure(BadPattern(f.query.value))
    else Success(Find(Seed(Some(coll)).value, f, m))
  }

  /** Without parameters a listing succeeds with the whole seeded collection. */
  lemma ListProductsUnfiltered(coll: seq<Product>, m: Matcher, accepts: PatternCheck)
    ensures ListProducts(coll, None, None, m, accepts) == Success(Seed(Some(coll)).value)
    ensures ListProducts(coll, Some(""), Some(""), m, accepts) == Success(Seed(Some(coll)).value)
  {
    FindAll(Seed(Some(coll)).value, ProductFilter(None, None), m);
  }

  /** A filter that imposes nothing keeps every product. */
  lemma {:induction false} FindAll(coll: seq<Product>, f: ProductFilter, m: Matcher)
    requires f.category.None? && f.query.None?
    ensures Find(coll, f, m) == coll
  {
    if |coll| > 0 {
      FindAll(coll[1..], f, m);
      assert coll == [coll[0]] + coll[1..];
    }
  }
}
