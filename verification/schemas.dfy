/** The record schemas of the "product" and "order" collections and the
    constraints pydantic enforces when one of these records is built. */
module Schemas {
  import opened Wrappers

  /** A rejected record: the schema that rejected it and every field that
      violates its constraints (pydantic reports all of them at once). */
  datatype SchemaError = SchemaError(model: string, fields: set<string>)

  /** A document field that distinguishes an absent key from a key holding
      null, where the two are read differently. */
  datatype Field<+T> = Missing | Null | Val(value: T)

  /** A product document. Stored documents are not validated when they are
      read back, so even the fields the schema requires may be absent. An
      `Option` field is `None` when the key is absent or null; the price
      keeps the two apart. A missing tag list reads as the empty one. */
  datatype Product = Product(
    name: Option<string>,
    description: Option<string>,
    price: Field<real>,
    category: Option<string>,
    image: Option<string>,
    vendor: Option<string>,
    rating: Option<real>,
    tags: seq<string>,
    inStock: bool)

  /** The rating a product gets when none is given. */
  const DefaultRating: real := 4.5

  /** The `Product` schema: name, price and category are required, the price
      is at least zero and a rating, when there is one, lies in [0, 5]. */
  predicate ValidProduct(p: Product) {
    && p.name.Some?
    && p.price.Val? && p.price.value >= 0.0
    && p.category.Some?
    && (p.rating.Some? ==> 0.0 <= p.rating.value <= 5.0)
  }

  /** The fields of `p` that break the `Product` schema. */
  function ProductViolations(p: Product): set<string> {
    (if p.name.None? then {"name"} else {})
    + (if !p.price.Val? || p.price.value < 0.0 then {"price"} else {})
    + (if p.category.None? then {"category"} else {})
    + (if p.rating.Some? && (p.rating.value < 0.0 || p.rating.value > 5.0) then {"rating"} else {})
  }

  /** Validates a product record against its schema. */
  function CheckProduct(p: Product): (r: Result<Product, SchemaError>)
    ensures r.Success? <==> ValidProduct(p)
    ensures r.Success? ==> r.value == p
    ensures r.Failure? ==> r.error.model == "Product"
    ensures r.Failure? ==> ("price" in r.error.fields <==> !p.price.Val? || p.price.value < 0.0)
    ensures r.Failure? ==> ("rating" in r.error.fields <==> p.rating.Some? && !(0.0 <= p.rating.value <= 5.0))
    ensures r.Failure? ==> ("name" in r.error.fields <==> p.name.None?)
    ensures r.Failure? ==> ("category" in r.error.fields <==> p.category.None?)
  {
    var bad := ProductViolations(p);
    if bad == {} then Success(p) else Failure(SchemaError("Product", bad))
  }

  /** A product built from its required fields alone, every optional field
      taking the schema's default. */
  function NewProduct(name: string, price: real, category: string): (r: Result<Product, SchemaError>)
    ensures r.Success? <==> price >= 0.0
    ensures r.Success? ==> ValidProduct(r.value)
    ensures r.Success? ==> r.value.name == Some(name) && r.value.price == Val(price) && r.value.category == Some(category)
    ensures r.Success? ==> r.value.rating == Some(DefaultRating) && r.value.tags == [] && r.value.inStock
    ensures r.Success? ==> r.value.description.None? && r.value.image.None? && r.value.vendor.None?
    ensures r.Failure? ==> r.error == SchemaError("Product", {"price"})
  {
    CheckProduct(Product(Some(name), None, Val(price), Some(category), None, None, Some(DefaultRating), [], true))
  }

  /** One purchased line, frozen at order time: the product it refers to and
      the name and unit price that product had then. */
  datatype OrderItem = OrderItem(productId: string, name: string, price: real, quantity: int)

  /** The `OrderItem` schema: a non-negative price and a quantity of at least one. */
  predicate ValidOrderItem(it: OrderItem) {
    it.price >= 0.0 && it.quantity >= 1
  }

  /** Builds an order item; `name` is absent when the product document had none. */
  function NewOrderItem(productId: string, name: Option<string>, price: real, quantity: int): (r: Result<OrderItem, SchemaError>)
    ensures r.Success? <==> name.Some? && price >= 0.0 && quantity >= 1
    ensures r.Success? ==> ValidOrderItem(r.value)
    ensures r.Success? ==> r.value.productId == productId && Some(r.value.name) == name
    ensures r.Success? ==> r.value.price == price && r.value.quantity == quantity
    ensures r.Failure? ==> r.error.model == "OrderItem"
    ensures r.Failure? ==> ("name" in r.error.fields <==> name.None?)
    ensures r.Failure? ==> ("price" in r.error.fields <==> price < 0.0)
    ensures r.Failure? ==> ("quantity" in r.error.fields <==> quantity < 1)
  {
    var bad := (if name.None? then {"name"} else {})
               + (if price < 0.0 then {"price"} else {})
               + (if quantity < 1 then {"quantity"} else {});
    if bad == {} then Success(OrderItem(productId, name.value, price, quantity))
    else Failure(SchemaError("OrderItem", bad))
  }

  /** An order: optional customer details, its line items, their subtotal
      and optional notes. */
  datatype Order = Order(
    customerName: Option<string>,
    customerPhone: Option<string>,
    customerAddress: Option<string>,
    items: seq<OrderItem>,
    subtotal: real,
    notes: Option<string>)

  /** The `Order` schema: a non-negative subtotal over items that are each valid. */
  predicate ValidOrder(o: Order) {
    && o.subtotal >= 0.0
    && forall i :: 0 <= i < |o.items| ==> ValidOrderItem(o.items[i])
  }

  /** Builds an order from already validated items; only the subtotal is checked again. */
  function NewOrder(customerName: Option<string>, customerPhone: Option<string>, customerAddress: Option<string>,
                    items: seq<OrderItem>, subtotal: real, notes: Option<string>): (r: Result<Order, SchemaError>)
    ensures r.Success? <==> subtotal >= 0.0
    ensures r.Success? ==> r.value.items == items && r.value.subtotal == subtotal
    ensures r.Success? ==> r.value.customerName == customerName && r.value.customerPhone == customerPhone
    ensures r.Success? ==> r.value.customerAddress == customerAddress && r.value.notes == notes
    ensures r.Failure? ==> r.error == SchemaError("Order", {"subtotal"})
  {
    if subtotal < 0.0 then Failure(SchemaError("Order", {"subtotal"}))
    else Success(Order(customerName, customerPhone, customerAddress, items, subtotal, notes))
  }
}
