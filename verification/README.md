# UMKM food-commerce backend: order building and catalog logic in Dafny

This project models the logic of a small FastAPI/MongoDB food-marketplace
backend:

- **checkout** (`create_order`): resolve each requested line against the product
  catalog in request order, freeze the product's id, name and price into an order
  item, sum `price * quantity` into a subtotal, and hand one order to storage only
  when every line succeeded;
- **catalog seeding** (`seed_products_if_empty`): put four sample products into an
  empty product collection;
- **the product filter** built by `list_products`: a category match AND-ed with a
  name/description/tag match, each applied only when its parameter is non-empty;
- **distinct categories** listed by `list_categories`;
- **the record schemas** `Product`, `OrderItem` and `Order`, with their constraints
  and defaults.

The database and HTTP layer are abstracted away:

- For lookups, a configured database is an `Orders.Store`. It holds a map from
  product reference to stored document (`Orders.ProductIndex`) and the id format
  (`IdCheck`) that references are parsed with.
- For seeding and listing, the product collection is a sequence of documents
  (`seq<Product>`).
- The absence of a database is `None`.
- The storage write is a `WriteOutcome` parameter. The handler returns the order it
  handed to storage, if any, next to its reply.
- Case-insensitive `$regex` matching is an uninterpreted `Matcher` parameter.

Files:

- `wrappers.dfy`: `Option` and `Result`.
- `schemas.dfy`: the records and their validation, from `schemas.py`.
- `catalog.dfy`: seeding, the filter and categories, from `main.py`.
- `orders.dfy`: request types, lookup, the order builder and the endpoint method,
  from `main.py`.

Stored documents are not re-validated when they are read, so a document may lack
a name or a price, or hold null there.

- A price key that is absent reads as 0 (`prod.get("price", 0)`).
- A price that is null cannot be converted to a number (`BuildError.PriceNotNumber`).
- A missing name or a negative stored price makes the `OrderItem` schema reject
  the line (`BuildError.Invalid`).

The endpoint catches neither of the last two, so the client gets a 500.

Three behaviours of the code worth noting:

- Seeding: `seed_products_if_empty` does not catch storage errors. They propagate
  to the listing request.
- Malformed product ids: they raise inside the BSON id parser and are not turned
  into "Product not found". The exception is not caught, so the client gets a 500
  (`BuildError.BadId`). Which strings are well-formed ids is an uninterpreted
  `IdCheck`.
- Quantity: a request line with quantity below one never reaches `create_order`.
  The request schema (`CreateOrderItem`, `quantity >= 1`) makes the framework
  answer 422 first. The builder itself has no quantity step. The model's builder
  still rejects such a line through the `OrderItem` schema (a 500). That is its
  behaviour on inputs the framework never lets through.

## Model

| member | source | states |
|---|---|---|
| Schemas.CheckProduct | schemas.py:28-41 | a product record is accepted exactly when name, price and category are present, price >= 0 and a present rating lies in [0,5]; the error names exactly the violating fields |
| Schemas.NewProduct | schemas.py:33-41 | a product built from name, price and category succeeds iff price >= 0, and then gets rating 4.5, no tags, in stock, no description/image/vendor |
| Schemas.NewOrderItem | schemas.py:43-47 | an order item is accepted iff a name is present, price >= 0 and quantity >= 1; the error names exactly the violating fields; fields are kept unchanged |
| Schemas.NewOrder | schemas.py:49-59 | an order is accepted iff its subtotal is >= 0; customer fields, items and notes are kept unchanged, and they are optional |
| Catalog.Seed | main.py:80-132 | seeding keeps "no database" as is; with a database, the result is non-empty and begins with every product already stored |
| Catalog.SeedKeepsNonEmpty | main.py:83-85 | a collection that already holds a product is left unchanged |
| Catalog.SeedFillsEmpty | main.py:86-132 | an empty collection becomes exactly the four sample products |
| Catalog.SeedIdempotent | main.py:80-132 | seeding twice equals seeding once |
| Catalog.SeedPreservesValidity | main.py:86-132 | if every stored product satisfies the Product schema, so does every product after seeding |
| Catalog.SamplesAreValid | main.py:86-131 | every sample product satisfies the Product schema (price >= 0, rating in [0,5]) |
| Catalog.Categories | main.py:167 | a category is listed iff some product carries it; there are no more categories than products |
| Catalog.SamplesSpanCategories | main.py:86-131 | the samples span the three categories Drinks, Snacks and Dessert |
| Catalog.ListCategoriesOnEmpty | main.py:162-168 | listing categories on an empty collection yields the samples' three categories |
| Catalog.BuildFilter | main.py:146-154 | the filter has a category (resp. query) key iff that parameter is present and non-empty, and then holds it unchanged |
| Catalog.Find | main.py:156 | the result holds exactly the matching products, each as often as in the collection, in collection order |
| Catalog.ListProducts | main.py:144-156 | a listing fails iff a non-empty query is not accepted as a pattern; otherwise it holds exactly the seeded products whose category equals `category` (when given) and that `q` matches by name, description or some tag (when given), each as often as stored, in collection order |
| Catalog.ListProductsUnfiltered | main.py:146-156 | with no or empty parameters the listing succeeds with the whole seeded collection |
| Catalog.FindAll | main.py:146-156 | an empty filter document selects every product |
| Orders.Lookup | main.py:182-186 | with no database or an empty reference nothing is found; otherwise a reference that is not a well-formed id is malformed, and a well-formed one resolves iff the collection holds it, to that document |
| Orders.Snapshot | main.py:187-191 | a found product yields an item iff it has a name, its price is not null and (0 when absent) >= 0, and quantity >= 1; the item copies id, name, price and quantity; a null price fails as not a number, anything else as a schema error |
| Orders.ReadPrice | main.py:188 | an absent price reads as 0, a stored number as itself, and a null price cannot be read |
| Orders.LineResult | main.py:182-191 | one line fails with "product not found" iff its reference is well-formed but not found, and with a bad-id error iff its reference is malformed, both naming the reference; it never reports an empty request; a built item satisfies the OrderItem schema and keeps the line's quantity |
| Orders.BuildItems | main.py:180-191 | built items are one per line and each satisfies the OrderItem schema; building never reports an empty request |
| Orders.BuildOrder | main.py:174-175 | the builder reports "no items" exactly for an empty item list |
| Orders.BuildItemsSucceeds | main.py:180-191 | the lines build iff each line builds, and then the items are the lines' items one for one, in order |
| Orders.BuildItemsFirstFailure | main.py:180-191 | the lines fail with e iff some line fails with e and every line before it succeeds |
| Orders.BuildOrderSucceeds | main.py:171-200 | an order is built iff there are lines and each resolves and snapshots validly; it then has one item per line in order, with the product's id, name and price and the line's quantity, the subtotal is the sum of price*quantity, and customer fields and notes are copied |
| Orders.BuildOrderNotFound | main.py:180-186 | the result is ProductNotFound(ref) iff ref is the first line, in request order, whose well-formed reference is not found, with every earlier line succeeding |
| Orders.SubtotalNonNegative | main.py:178-190 | the sum of price*quantity over items that each satisfy the OrderItem schema is >= 0 |
| Orders.BuiltOrderIsValid | main.py:187-200 | every order the builder yields satisfies the Order schema, subtotal >= 0 included |
| Orders.ValidCatalogOnlyNotFound | main.py:180-191 | against a catalog of valid products, a request whose lines ask for >= 1 unit fails only for being empty, naming a product that is not found, or naming a malformed reference |
| Orders.ValidLineOnlyNotFound | main.py:182-191 | a line for >= 1 unit against a valid catalog fails only with "product not found" or a bad id, naming its reference |
| Orders.MalformedIdRejected | main.py:183-184 | a malformed reference reached after every earlier line built aborts the order with a bad-id error, answered with 500, not 404 |
| Orders.BadLineRejected | main.py:187-191 | a found product with no name, a null or negative price, or a quantity below one aborts the whole order: a null price as not a number, the rest as a schema error; either way the reply is 500 |
| Orders.BuildItemsLocal | main.py:180-191 | two catalogs that resolve every line alike build the same items |
| Orders.BuildOrderLocal | main.py:180-200 | the order depends on the catalog only through the products the request references |
| Orders.SingleLineScenario | main.py:180-200 | one line of quantity 2 for a product priced 18000 gives a single item with that price and quantity and subtotal 36000 |
| Orders.BuildItemsSnoc | main.py:180-191 | extending the lines by one keeps the items built so far and appends the new line's item, or fails with its error |
| Orders.BuildItemsFailsAt | main.py:180-186 | when the lines before i build and line i fails, the whole list fails with line i's error |
| Orders.ErrorReply | main.py:174-191 | an empty request answers 400 "No items provided", a reference not found 404 "Product not found: <ref>", and an uncaught id-parse, conversion or schema error 500 |
| Orders.CreateOrder | main.py:171-207 | the line-by-line loop hands an order to storage iff the builder succeeds, and it is exactly the built order; builder errors become 400 "No items provided", 404 "Product not found: <ref>" or 500; a stored order answers "Order created" with its id; a failed write answers 500 "Failed to create order: <reason>" |

## Left out

- Decimal rounding: `round(subtotal, 2)` and float accumulation are not modelled. Prices are exact reals.
- BuildOrderSucceeds: the subtotal is stated as the exact sum of price times quantity, not that sum rounded to two decimals.
- Stored price types: a stored price is a number, absent or null. A price of another type (text, say) is not modelled.
- Identifier parsing: which strings the BSON `ObjectId` parser accepts is an uninterpreted `IdCheck`. Its exact format (24 hex digits) is not modelled.
- Id text: the item's product id is the stored document's id as text. It is not assumed equal to the request's reference.
- Query matching: MongoDB's case-insensitive `$regex` matching is an uninterpreted predicate. It is not committed to substring or regex semantics. Whether the store accepts a query as a pattern is another uninterpreted predicate.
- Find: MongoDB's `find` does not promise an order; the model returns matches in collection order.
- Fallback lists: the static lists returned by `list_products` and `list_categories` without a database are constants and are not modelled.
- Request rejection: the framework's 422 reply for a request line with quantity below one is not modelled. `ValidRequest` states the constraint and `Orders.ValidCatalogOnlyNotFound` assumes it.
- Seeding races and other concurrency: two concurrent first requests may seed twice. This is not modelled.
- Seeding storage: ids that `insert_many` assigns, and failures of the count or insert calls, are not modelled.
- HTTP plumbing: routing, CORS, the `/`, `/api/hello`, `/test` and `/schema` endpoints and server start-up carry no logic and are not modelled.
- The `User` schema is not used by the core and is not modelled.
- The `database` module (`create_document`, `find_one`, `insert_many`, `distinct`) is not part of this model. Its effect is the `WriteOutcome` parameter and the catalog values.
