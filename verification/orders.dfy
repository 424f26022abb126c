/** Order creation: each requested line is resolved against the catalog in
    request order, snapshotted into an order item, and the finished order is
    handed to storage only when every line has succeeded. */
module Orders {
  import opened Wrappers
  import opened Schemas

  // ---------------------------------------------------------------------
  // Requests and the catalog
  // ---------------------------------------------------------------------

  /** One requested line: a product reference and how many of it. */
  datatype OrderLine = OrderLine(productId: string, quantity: int)

  /** A checkout request. The customer details and notes are optional. */
  datatype OrderRequest = OrderRequest(
    customerName: Option<string>,
    customerPhone: Option<string>,
    customerAddress: Option<string>,
    items: seq<OrderLine>,
    notes: Option<string>)

  /** What the request schema admits: every line asks for at least one unit. */
  predicate ValidRequest(req: OrderRequest) {
    forall i :: 0 <= i < |req.items| ==> req.items[i].quantity >= 1
  }

  /** A stored product with its store-assigned identifier, as text. */
  datatype Document = Document(id: string, product: Product)

  /** The product collection as lookups see it: each stored document under
      the references by which a lookup finds it. */
  type ProductIndex = map<string, Document>

  /** Whether a reference is well-formed as a store identifier; left
      uninterpreted. Parsing a malformed one raises. */
  type IdCheck = string -> bool

  /** A configured database: the product collection and the identifier
      format its lookups parse references with. */
  datatype Store = Store(index: ProductIndex, isObjectId: IdCheck)

  /** Every stored product satisfies the `Product` schema. */
  predicate ValidCatalog(db: Option<Store>) {
    db.Some? ==> forall ref :: ref in db.value.index ==> ValidProduct(db.value.index[ref].product)
  }

  /** What resolving a reference comes to: a document, nothing, or a
      reference that cannot be parsed as an identifier. */
  datatype Resolution = Found(doc: Document) | NotFound | MalformedId

  /** Resolves a product reference. Nothing is found without a database or
      for an empty reference; otherwise the reference is parsed as an
      identifier, which fails for a malformed one, and the collection
      decides. */
  function Lookup(db: Option<Store>, ref: string): (r: Resolution)
    ensures r.Found? <==> db.Some? && ref != "" && db.value.isObjectId(ref) && ref in db.value.index
    ensures r.MalformedId? <==> db.Some? && ref != "" && !db.value.isObjectId(ref)
    ensures r.Found? ==> r.doc == db.value.index[ref]
  {
    if db.None? || ref == "" then NotFound
    else if !db.value.isObjectId(ref) then MalformedId
    else if ref in db.value.index then Found(db.value.index[ref])
    else NotFound
  }

  // ---------------------------------------------------------------------
  // Building an order
  // ---------------------------------------------------------------------

  /** Why an order could not be built. `BadId` is a reference that cannot be
      parsed as an identifier; `PriceNotNumber` is a stored price holding
      null, which cannot be converted to a number; `Invalid` is a record
      that broke its schema while the order was assembled. */
  datatype BuildError =
    | NoItems
    | ProductNotFound(ref: string)
    | BadId(ref: string)
    | PriceNotNumber(productId: string)
    | Invalid(cause: SchemaError)

  /** The unit price read from a product document: an absent price reads as
      zero, and a null one cannot be read at all. */
  function ReadPrice(p: Product): (r: Option<real>)
    ensures r.None? <==> p.price.Null?
    ensures p.price.Missing? ==> r == Some(0.0)
    ensures p.price.Val? ==> r == Some(p.price.value)
  {
    match p.price
    case Missing => Some(0.0)
    case Null => None
    case Val(v) => Some(v)
  }

  /** The order item that freezes a found product's id, name and price with
      the requested quantity. */
  function Snapshot(d: Document, quantity: int): (r: Result<OrderItem, BuildError>)
    ensures r.Success? <==>
      d.product.name.Some? && !d.product.price.Null? && ReadPrice(d.product).value >= 0.0 && quantity >= 1
    ensures r.Success? ==> r.value == OrderItem(d.id, d.product.name.value, ReadPrice(d.product).value, quantity)
    ensures r.Failure? ==> (r.error == PriceNotNumber(d.id) <==> d.product.price.Null?)
    ensures r.Failure? && !d.product.price.Null? ==> r.error.Invalid?
  {
    match ReadPrice(d.product)
    case None => Failure(PriceNotNumber(d.id))
    case Some(price) =>
      match NewOrderItem(d.id, d.product.name, price, quantity)
      case Failure(e) => Failure(Invalid(e))
      case Success(it) => Success(it)
  }

  /** The outcome of one requested line: the reference is resolved, then the
      product found is snapshotted. */
  function LineResult(db: Option<Store>, line: OrderLine): (r: Result<OrderItem, BuildError>)
    ensures (r.Failure? && r.error.ProductNotFound?) <==> Lookup(db, line.productId).NotFound?
    ensures (r.Failure? && r.error.BadId?) <==> Lookup(db, line.productId).MalformedId?
    ensures r.Failure? && (r.error.ProductNotFound? || r.error.BadId?) ==> r.error.ref == line.productId
    ensures r.Failure? ==> !r.error.NoItems?
    ensures r.Success? ==> ValidOrderItem(r.value) && r.value.quantity == line.quantity
  {
    match Lookup(db, line.productId)
    case NotFound => Failure(ProductNotFound(line.productId))
    case MalformedId => Failure(BadId(line.productId))
    case Found(d) => Snapshot(d, line.quantity)
  }

  /** The items of `lines`, built in order; the first failing line decides the error. */
  function BuildItems(db: Option<Store>, lines: seq<OrderLine>): (r: Result<seq<OrderItem>, BuildError>)
    ensures r.Success? ==> |r.value| == |lines|
    ensures r.Success? ==> forall i :: 0 <= i < |r.value| ==> ValidOrderItem(r.value[i])
    ensures r.Failure? ==> !r.error.NoItems?
  {
    if |lines| == 0 then Success([])
    else
      match LineResult(db, lines[0])
      case Failure(e) => Failure(e)
      case Success(it) =>
        match BuildItems(db, lines[1..])
        case Failure(e) => Failure(e)
        case Success(rest) => Success([it] + rest)
  }

  /** What one item contributes to the subtotal. */
  function LineTotal(it: OrderItem): real {
    it.price * (it.quantity as real)
  }

  /** The sum of `price * quantity` over the items, accumulated front to back. */
  function Subtotal(items: seq<OrderItem>): real {
    if |items| == 0 then 0.0
    else Subtotal(items[..|items| - 1]) + LineTotal(items[|items| - 1])
  }

  /** The order a request yields against the catalog, before it is stored. */
  function BuildOrder(db: Option<Store>, req: OrderRequest): (r: Result<Order, BuildError>)
    ensures r == Failure(NoItems) <==> |req.items| == 0
  {
    if |req.items| == 0 then Failure(NoItems)
    else
      match BuildItems(db, req.items)
      case Failure(e) => Failure(e)
      case Success(items) =>
        match NewOrder(req.customerName, req.customerPhone, req.customerAddress, items, Subtotal(items), req.notes)
        case Failure(e) => Failure(Invalid(e))
        case Success(o) => Success(o)
  }

  // ---------------------------------------------------------------------
  // Lemmas about the builder
  // ---------------------------------------------------------------------

  /** The lines build exactly when each line does, and then the items are the
      lines' items one for one and in order. */
  lemma {:induction false} BuildItemsSucceeds(db: Option<Store>, lines: seq<OrderLine>)
    ensures BuildItems(db, lines).Success? <==> forall i :: 0 <= i < |lines| ==> LineResult(db, lines[i]).Success?
    ensures BuildItems(db, lines).Success? ==>
      && |BuildItems(db, lines).value| == |lines|
      && forall i :: 0 <= i < |lines| ==> BuildItems(db, lines).value[i] == LineResult(db, lines[i]).value
  {
    if |lines| > 0 {
      BuildItemsSucceeds(db, lines[1..]);
      assert forall i :: 1 <= i < |lines| ==> lines[i] == lines[1..][i - 1];
    }
  }

  /** The lines fail with `e` exactly when some line fails with `e` and every
      line before it succeeds. */
  lemma {:induction false} BuildItemsFirstFailure(db: Option<Store>, lines: seq<OrderLine>, e: BuildError)
    ensures BuildItems(db, lines) == Failure(e) <==>
      exists i :: 0 <= i < |lines| && FirstFailingLine(db, lines, i) && LineResult(db, lines[i]) == Failure(e)
  {
    if |lines| > 0 {
      BuildItemsFirstFailure(db, lines[1..], e);
      if LineResult(db, lines[0]).Failure? {
        if BuildItems(db, lines) == Failure(e) {
          assert FirstFailingLine(db, lines, 0);
        }
        forall i | 0 < i < |lines|
          ensures !FirstFailingLine(db, lines, i)
        {
        }
      } else {
        if BuildItems(db, lines) == Failure(e) {
          var k :| 0 <= k < |lines[1..]| && FirstFailingLine(db, lines[1..], k) && LineResult(db, lines[1..][k]) == Failure(e);
          FirstFailingShift(db, lines, k + 1);
        }
        if exists i :: 0 <= i < |lines| && FirstFailingLine(db, lines, i) && LineResult(db, lines[i]) == Failure(e) {
          var i :| 0 <= i < |lines| && FirstFailingLine(db, lines, i) && LineResult(db, lines[i]) == Failure(e);
          assert i > 0;
          FirstFailingShift(db, lines, i);
          assert lines[1..][i - 1] == lines[i];
        }
      }
    }
  }

  /** Line `i` fails and every line before it succeeds. */
  predicate FirstFailingLine(db: Option<Store>, lines: seq<OrderLine>, i: int)
    requires 0 <= i < |lines|
  {
    && LineResult(db, lines[i]).Failure?
    && forall j :: 0 <= j < i ==> LineResult(db, lines[j]).Success?
  }

  /** Past a succeeding first line, the first failing line is one further on. */
  lemma FirstFailingShift(db: Option<Store>, lines: seq<OrderLine>, i: int)
    requires 0 < i < |lines|
    requires LineResult(db, lines[0]).Success?
    ensures FirstFailingLine(db, lines, i) <==> FirstFailingLine(db, lines[1..], i - 1)
  {
    assert forall j :: 0 < j < |lines| ==> lines[1..][j - 1] == lines[j];
  }

  /** The subtotal of items that each satisfy their schema is not negative. */
  lemma {:induction false} SubtotalNonNegative(items: seq<OrderItem>)
    requires forall i :: 0 <= i < |items| ==> ValidOrderItem(items[i])
    ensures Subtotal(items) >= 0.0
  {
    if |items| > 0 {
      var last := items[|items| - 1];
      SubtotalNonNegative(items[..|items| - 1]);
      assert ValidOrderItem(last);
      assert LineTotal(last) >= 0.0 by {
        assert last.quantity as real >= 1.0;
      }
    }
  }

  /** A request builds exactly when it names at least one line and every
      line's product is found and snapshots into a valid item. The order then
      holds one item per line, in request order, each carrying the found
      product's id, name and price (zero when absent) and the line's
      quantity; its subtotal is the sum of price times quantity; and the
      customer details and notes are the request's. */
  lemma BuildOrderSucceeds(db: Option<Store>, req: OrderRequest)
    ensures BuildOrder(db, req).Success? <==>
      && |req.items| > 0
      && forall i :: 0 <= i < |req.items| ==>
           Lookup(db, req.items[i].productId).Found? && Snapshot(Lookup(db, req.items[i].productId).doc, req.items[i].quantity).Success?
    ensures BuildOrder(db, req).Success? ==>
      var o := BuildOrder(db, req).value;
      && |o.items| == |req.items|
      && (forall i :: 0 <= i < |req.items| ==>
            var d := Lookup(db, req.items[i].productId).doc;
            && o.items[i].productId == d.id
            && Some(o.items[i].name) == d.product.name
            && Some(o.items[i].price) == ReadPrice(d.product)
            && o.items[i].quantity == req.items[i].quantity)
      && o.subtotal == Subtotal(o.items)
      && o.customerName == req.customerName && o.customerPhone == req.customerPhone
      && o.customerAddress == req.customerAddress && o.notes == req.notes
  {
    BuildItemsSucceeds(db, req.items);
    var b := BuildItems(db, req.items);
    if b.Success? {
      assert forall i :: 0 <= i < |b.value| ==> ValidOrderItem(b.value[i]);
      SubtotalNonNegative(b.value);
    }
  }

  /** A request fails with `ProductNotFound(ref)` exactly when some line
      names `ref`, well-formed but not found, while every earlier line
      builds; so the error names the first such reference in request order. */
  lemma BuildOrderNotFound(db: Option<Store>, req: OrderRequest, ref: string)
    ensures BuildOrder(db, req) == Failure(ProductNotFound(ref)) <==>
      exists i :: 0 <= i < |req.items|
        && (forall j :: 0 <= j < i ==> LineResult(db, req.items[j]).Success?)
        && Lookup(db, req.items[i].productId).NotFound?
        && req.items[i].productId == ref
  {
    BuildItemsFirstFailure(db, req.items, ProductNotFound(ref));
    BuildItemsSucceeds(db, req.items);
    var b := BuildItems(db, req.items);
    if b.Success? {
      assert forall i :: 0 <= i < |b.value| ==> ValidOrderItem(b.value[i]);
      SubtotalNonNegative(b.value);
    }
  }

  /** Every order the builder yields satisfies the `Order` schema. */
  lemma BuiltOrderIsValid(db: Option<Store>, req: OrderRequest)
    requires BuildOrder(db, req).Success?
    ensures ValidOrder(BuildOrder(db, req).value)
  {
    BuildItemsSucceeds(db, req.items);
    var items := BuildItems(db, req.items).value;
    assert forall i :: 0 <= i < |items| ==> ValidOrderItem(items[i]);
    SubtotalNonNegative(items);
  }

  /** Against a catalog whose products all satisfy their schema, a request
      the request schema admits fails only for being empty or for naming a
      product that cannot be found or a malformed reference. */
  lemma ValidCatalogOnlyNotFound(db: Option<Store>, req: OrderRequest)
    requires ValidCatalog(db)
    requires ValidRequest(req)
    ensures BuildOrder(db, req).Failure? ==>
      BuildOrder(db, req).error.NoItems? || BuildOrder(db, req).error.ProductNotFound? || BuildOrder(db, req).error.BadId?
  {
    if |req.items| > 0 {
      var b := BuildItems(db, req.items);
      BuildItemsSucceeds(db, req.items);
      if b.Success? {
        assert forall i :: 0 <= i < |b.value| ==> ValidOrderItem(b.value[i]);
        SubtotalNonNegative(b.value);
      } else {
        BuildItemsFirstFailure(db, req.items, b.error);
        var i :| 0 <= i < |req.items| && FirstFailingLine(db, req.items, i) && LineResult(db, req.items[i]) == Failure(b.error);
        ValidLineOnlyNotFound(db, req.items[i]);
      }
    }
  }

  /** A line asking for at least one unit against a catalog of valid
      products fails only when its reference is malformed or not found. */
  lemma ValidLineOnlyNotFound(db: Option<Store>, line: OrderLine)
    requires ValidCatalog(db)
    requires line.quantity >= 1
    ensures LineResult(db, line).Failure? ==>
      LineResult(db, line).error == ProductNotFound(line.productId) || LineResult(db, line).error == BadId(line.productId)
  {
  }

  /** A malformed reference, reached after every earlier line built, aborts
      the whole order; the parse error is not caught, so the client gets an
      internal server error rather than "not found". */
  lemma MalformedIdRejected(db: Option<Store>, req: OrderRequest, i: int)
    requires 0 <= i < |req.items|
    requires forall j :: 0 <= j < i ==> LineResult(db, req.items[j]).Success?
    requires Lookup(db, req.items[i].productId).MalformedId?
    ensures BuildOrder(db, req) == Failure(BadId(req.items[i].productId))
    ensures ErrorReply(BuildOrder(db, req).error) == Rejected(500, "Internal Server Error")
  {
    assert FirstFailingLine(db, req.items, i);
    BuildItemsFirstFailure(db, req.items, BadId(req.items[i].productId));
  }

  /** A found product without a name, with a null or negative price, or a
      line asking for fewer than one unit makes the whole order fail, even
      when every other line is fine: a null price fails the conversion to a
      number, anything else the `OrderItem` schema. Either way the client
      gets an internal server error. */
  lemma BadLineRejected(db: Option<Store>, req: OrderRequest, i: int)
    requires 0 <= i < |req.items|
    requires forall j :: 0 <= j < i ==> LineResult(db, req.items[j]).Success?
    requires Lookup(db, req.items[i].productId).Found?
    requires !Snapshot(Lookup(db, req.items[i].productId).doc, req.items[i].quantity).Success?
    ensures var d := Lookup(db, req.items[i].productId).doc;
      && BuildOrder(db, req).Failure?
      && (BuildOrder(db, req).error == PriceNotNumber(d.id) <==> d.product.price.Null?)
      && (!d.product.price.Null? ==> BuildOrder(db, req).error.Invalid?)
      && ErrorReply(BuildOrder(db, req).error) == Rejected(500, "Internal Server Error")
  {
    var e := LineResult(db, req.items[i]).error;
    assert FirstFailingLine(db, req.items, i);
    BuildItemsFirstFailure(db, req.items, e);
  }

  /** The order depends on the catalog only through the products its lines
      reference: two catalogs that resolve every line alike build the same
      order. */
  lemma {:induction false} BuildItemsLocal(db1: Option<Store>, db2: Option<Store>, lines: seq<OrderLine>)
    requires forall i :: 0 <= i < |lines| ==> Lookup(db1, lines[i].productId) == Lookup(db2, lines[i].productId)
    ensures BuildItems(db1, lines) == BuildItems(db2, lines)
  {
    if |lines| > 0 {
      assert forall i :: 1 <= i < |lines| ==> lines[1..][i - 1] == lines[i];
      BuildItemsLocal(db1, db2, lines[1..]);
    }
  }

  /** The built order only reads the products the request references. */
  lemma BuildOrderLocal(db1: Option<Store>, db2: Option<Store>, req: OrderRequest)
    requires forall i :: 0 <= i < |req.items| ==> Lookup(db1, req.items[i].productId) == Lookup(db2, req.items[i].productId)
    ensures BuildOrder(db1, req) == BuildOrder(db2, req)
  {
    BuildItemsLocal(db1, db2, req.items);
  }

  /** One line for two units of a product priced 18000 builds an order with
      that single item and a subtotal of 36000. */
  lemma SingleLineScenario(ref: string, id: string, p: Product, isObjectId: IdCheck)
    requires ref != "" && isObjectId(ref)
    requires p.name.Some? && p.price == Val(18000.0)
    ensures var req := OrderRequest(None, None, None, [OrderLine(ref, 2)], None);
      BuildOrder(Some(Store(map[ref := Document(id, p)], isObjectId)), req)
        == Success(Order(None, None, None, [OrderItem(id, p.name.value, 18000.0, 2)], 36000.0, None))
  {
    var db := Some(Store(map[ref := Document(id, p)], isObjectId));
    var lines := [OrderLine(ref, 2)];
    var it := OrderItem(id, p.name.value, 18000.0, 2);
    assert LineResult(db, lines[0]) == Success(it);
    assert lines[1..] == [];
    assert BuildItems(db, lines[1..]) == Success([]);
    assert [it] + [] == [it];
    assert BuildItems(db, lines) == Success([it]);
    assert [it][..0] == [];
    assert Subtotal([it]) == 36000.0;
  }

  // ---------------------------------------------------------------------
  // The order endpoint
  // ---------------------------------------------------------------------

  /** What the storage layer does with an order it is handed: store it under
      a fresh identifier, or fail with a reason. */
  datatype WriteOutcome = Inserted(orderId: string) | WriteFailed(reason: string)

  /** The endpoint's reply. */
  datatype Reply = Created(message: string, orderId: string) | Rejected(status: int, detail: string)

  /** The HTTP error a build error surfaces as. A failed identifier parse, a
      failed price conversion or a schema error is not caught by the endpoint
      and reaches the client as an internal server error. */
  function ErrorReply(e: BuildError): (r: Reply)
    ensures r.Rejected?
    ensures r.status == 400 <==> e.NoItems?
    ensures r.status == 404 <==> e.ProductNotFound?
    ensures r.status == 500 <==> e.BadId? || e.PriceNotNumber? || e.Invalid?
    ensures e.NoItems? ==> r.detail == "No items provided"
    ensures e.ProductNotFound? ==> r.detail == "Product not found: " + e.ref
  {
    match e
    case NoItems => Rejected(400, "No items provided")
    case ProductNotFound(ref) => Rejected(404, "Product not found: " + ref)
    case BadId(_) => Rejected(500, "Internal Server Error")
    case PriceNotNumber(_) => Rejected(500, "Internal Server Error")
    case Invalid(_) => Rejected(500, "Internal Server Error")
  }

  /** Extending lines by one: the prefix's items are kept and the new line's
      item, or its error, follows. */
  lemma {:induction false} BuildItemsSnoc(db: Option<Store>, lines: seq<OrderLine>, line: OrderLine, items: seq<OrderItem>)
    requires BuildItems(db, lines) == Success(items)
    ensures BuildItems(db, lines + [line]) ==
      match LineResult(db, line)
      case Failure(e) => Failure(e)
      case Success(it) => Success(items + [it])
  {
    if |lines| == 0 {
      assert lines + [line] == [line];
      assert [line][1..] == [];
      assert items == [];
      if LineResult(db, line).Success? {
        assert items + [LineResult(db, line).value] == [LineResult(db, line).value] + [];
      }
    } else {
      var rest := BuildItems(db, lines[1..]).value;
      assert (lines + [line])[0] == lines[0];
      assert (lines + [line])[1..] == lines[1..] + [line];
      var first := LineResult(db, lines[0]).value;
      assert items == [first] + rest;
      BuildItemsSnoc(db, lines[1..], line, rest);
      if LineResult(db, line).Success? {
        var it := LineResult(db, line).value;
        assert BuildItems(db, lines[1..] + [line]) == Success(rest + [it]);
        assert [first] + (rest + [it]) == items + [it];
      }
    }
  }

  /** Handles a checkout request: builds the order line by line and, only
      when every line succeeded, hands it to storage. `written` is the order
      handed to storage, if any. */
  method CreateOrder(db: Option<Store>, req: OrderRequest, storage: WriteOutcome) returns (reply: Reply, written: Option<Order>)
    ensures written.Some? <==> BuildOrder(db, req).Success?
    ensures written.Some? ==> written.value == BuildOrder(db, req).value
    ensures BuildOrder(db, req).Failure? ==> reply == ErrorReply(BuildOrder(db, req).error)
    ensures written.Some? && storage.Inserted? ==> reply == Created("Order created", storage.orderId)
    ensures written.Some? && storage.WriteFailed? ==> reply == Rejected(500, "Failed to create order: " + storage.reason)
  {
    if |req.items| == 0 {
      return Rejected(400, "No items provided"), None;
    }
    var items: seq<OrderItem> := [];
    var subtotal := 0.0;
    var i := 0;
    while i < |req.items|
      invariant 0 <= i <= |req.items|
      invariant BuildItems(db, req.items[..i]) == Success(items)
      invariant subtotal == Subtotal(items)
    {
      var line := req.items[i];
      assert req.items[..i + 1] == req.items[..i] + [line];
      BuildItemsSnoc(db, req.items[..i], line, items);
      var found := Lookup(db, line.productId);
      if found.NotFound? {
        BuildItemsFailsAt(db, req.items, i);
        return Rejected(404, "Product not found: " + line.productId), None;
      }
      if found.MalformedId? {
        BuildItemsFailsAt(db, req.items, i);
        return Rejected(500, "Internal Server Error"), None;
      }
      var price := ReadPrice(found.doc.product);
      if price.None? {
        BuildItemsFailsAt(db, req.items, i);
        return Rejected(500, "Internal Server Error"), None;
      }
      var item := NewOrderItem(found.doc.id, found.doc.product.name, price.value, line.quantity);
      if item.Failure? {
        BuildItemsFailsAt(db, req.items, i);
        return Rejected(500, "Internal Server Error"), None;
      }
      subtotal := subtotal + item.value.price * (item.value.quantity as real);
      assert (items + [item.value])[..|items|] == items;
      items := items + [item.value];
      i := i + 1;
    }
    assert req.items[..i] == req.items;
    var order := NewOrder(req.customerName, req.customerPhone, req.customerAddress, items, subtotal, req.notes);
    if order.Failure? {
      return Rejected(500, "Internal Server Error"), None;
    }
    written := Some(order.value);
    match storage
    case Inserted(id) => reply := Created("Order created", id);
    case WriteFailed(reason) => reply := Rejected(500, "Failed to create order: " + reason);
  }

  /** When the lines before `i` build and line `i` fails, all the lines fail
      with line `i`'s error. */
  lemma BuildItemsFailsAt(db: Option<Store>, lines: seq<OrderLine>, i: int)
    requires 0 <= i < |lines|
    requires BuildItems(db, lines[..i]).Success?
    requires LineResult(db, lines[i]).Failure?
    ensures BuildItems(db, lines) == Failure(LineResult(db, lines[i]).error)
  {
    BuildItemsSucceeds(db, lines[..i]);
    assert FirstFailingLine(db, lines, i);
    BuildItemsFirstFailure(db, lines, LineResult(db, lines[i]).error);
  }
}
