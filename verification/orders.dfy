/** Checkout: `create_order` rejects an empty cart, otherwise builds the order
    record from the payload and stores it as a document; the stored document,
    once re-read and serialised, is read back into the response shape. */
module Orders {
  import opened Wrappers
  import opened ObjectIds
  import opened Documents

  /** Item quantities are validated to be at least 1 before the handler runs. */
  type Quantity = q: int | q >= 1 witness 1

  datatype OrderItem = OrderItem(productId: string, name: string, price: real, quantity: Quantity)

  /** The checkout payload. */
  datatype OrderCreate = OrderCreate(
    buyerEmail: string,
    buyerName: string,
    ign: Option<string>,
    items: seq<OrderItem>,
    note: Option<string>)

  /** What gets stored for an order. */
  datatype OrderRecord = OrderRecord(
    buyerEmail: string,
    buyerName: string,
    ign: Option<string>,
    items: seq<OrderItem>,
    total: real,
    status: string)

  /** The response shape. */
  datatype OrderOut = OrderOut(
    id: string,
    buyerEmail: string,
    buyerName: string,
    ign: Option<string>,
    items: seq<OrderItem>,
    total: real,
    status: string)

  /** An HTTP error raised by the handler. */
  datatype HttpError = HttpError(statusCode: int, detail: string)

  const PendingStatus: string := "pending"
  const EmptyCart: HttpError := HttpError(400, "Cart is empty")
  /** Any exception after the cart check surfaces as a 500; the exception's
      text is not modelled. */
  const ServerError: HttpError := HttpError(500, "")

  const OrderKeys: set<string> := {"buyer_email", "buyer_name", "ign", "items", "total", "status"}
  const ItemKeys: set<string> := {"product_id", "name", "price", "quantity"}

  function Subtotal(i: OrderItem): real
  {
    i.price * i.quantity as real
  }

  /** `sum(i.price * i.quantity for i in items)`, added left to right from 0. */
  function Total(items: seq<OrderItem>): (r: real)
    ensures items == [] ==> r == 0.0
    ensures (forall i :: 0 <= i < |items| ==> items[i].price >= 0.0) ==> r >= 0.0
  {
    if items == [] then 0.0 else Total(items[..|items| - 1]) + Subtotal(items[|items| - 1])
  }

  /** The record-building part of `create_order`: an empty cart is rejected
      with 400 before anything is built; otherwise the record copies the buyer
      fields and the items in order, totals the items, starts as pending, and
      drops the note. */
  function BuildOrder(o: OrderCreate): (r: Result<OrderRecord, HttpError>)
    ensures r.Failure? <==> o.items == []
    ensures r.Failure? ==> r.error == EmptyCart
    ensures r.Success? ==> r.value.items == o.items && r.value.status == PendingStatus
    ensures r.Success? ==> r.value.total == Total(o.items)
    ensures r.Success? ==> r.value.buyerEmail == o.buyerEmail && r.value.buyerName == o.buyerName
                           && r.value.ign == o.ign
  {
    if o.items == [] then Failure(EmptyCart)
    else Success(OrderRecord(o.buyerEmail, o.buyerName, o.ign, o.items, Total(o.items), PendingStatus))
  }

  function OptionalStr(o: Option<string>): Value
  {
    match o
    case None => Null
    case Some(s) => Str(s)
  }

  /** `item.model_dump()`. */
  function ItemDocument(i: OrderItem): (v: Value)
    ensures v.Dict? && v.fields.Keys == ItemKeys
  {
    Dict(map["product_id" := Str(i.productId), "name" := Str(i.name),
             "price" := Float(i.price), "quantity" := Int(i.quantity)])
  }

  /** The `data` dictionary handed to the store. It has exactly the six order
      keys: the note is not stored, and nothing else is added here. */
  function StoredDocument(rec: OrderRecord): (d: Document)
    ensures d.Keys == OrderKeys
    ensures "note" !in d && StoreIdKey !in d && IdKey !in d
  {
    map["buyer_email" := Str(rec.buyerEmail),
        "buyer_name" := Str(rec.buyerName),
        "ign" := OptionalStr(rec.ign),
        "items" := List(seq(|rec.items|, i requires 0 <= i < |rec.items| => ItemDocument(rec.items[i]))),
        "total" := Float(rec.total),
        "status" := Str(rec.status)]
  }

  /** The handler up to the point of persisting: the document it stores, or the
      empty-cart error, in which case nothing is stored. */
  function CreateOrderDocument(o: OrderCreate): (r: Result<Document, HttpError>)
    ensures r.Failure? <==> o.items == []
    ensures r.Success? ==> r.value.Keys == OrderKeys && r.value["status"] == Str(PendingStatus)
  {
    var rec :- BuildOrder(o);
    Success(StoredDocument(rec))
  }

  /* ---- Reading a serialised document back into the response shape ---- */

  function ReadStr(v: Value): Option<string>
  {
    if v.Str? then Some(v.s) else None
  }

  /** A float field accepts a float or an int. */
  function ReadNumber(v: Value): Option<real>
  {
    match v
    case Float(x) => Some(x)
    case Int(i) => Some(i as real)
    case _ => None
  }

  function ReadOptionalStr(d: Document, key: string): Option<Option<string>>
  {
    if key !in d || d[key] == Null then Some(None)
    else if d[key].Str? then Some(Some(d[key].s))
    else None
  }

  function Field(d: Document, key: string): Option<Value>
  {
    if key in d then Some(d[key]) else None
  }

  function ReadItem(v: Value): Option<OrderItem>
  {
    if !v.Dict? then None
    else
      var f := v.fields;
      var pidV :- Field(f, "product_id");
      var pid :- ReadStr(pidV);
      var nameV :- Field(f, "name");
      var name :- ReadStr(nameV);
      var priceV :- Field(f, "price");
      var price :- ReadNumber(priceV);
      var qtyV :- Field(f, "quantity");
      if qtyV.Int? && qtyV.i >= 1 then Some(OrderItem(pid, name, price, qtyV.i)) else None
  }

  function ReadItems(vs: seq<Value>): (r: Option<seq<OrderItem>>)
    ensures r.Some? ==> |r.value| == |vs|
  {
    if vs == [] then Some([])
    else
      var first :- ReadItem(vs[0]);
      var rest :- ReadItems(vs[1..]);
      Some([first] + rest)
  }

  /** `OrderOut(**s)`: reads the response fields from a serialised document,
      ignoring any other keys; None where a field is missing or of the wrong kind. */
  function ReadOrderOut(d: Document): (r: Option<OrderOut>)
    ensures r.Some? ==> IdKey in d && d[IdKey] == Str(r.value.id)
    ensures r.Some? ==> "buyer_email" in d && d["buyer_email"] == Str(r.value.buyerEmail)
    ensures r.Some? ==> "buyer_name" in d && d["buyer_name"] == Str(r.value.buyerName)
    ensures r.Some? ==> "items" in d && d["items"].List? && |d["items"].elems| == |r.value.items|
    ensures r.Some? ==> "status" in d && d["status"] == Str(r.value.status)
    ensures r.Some? ==> ReadItems(d["items"].elems) == Some(r.value.items)
    ensures r.Some? ==> "total" in d && ReadNumber(d["total"]) == Some(r.value.total)
    ensures r.Some? ==> ReadOptionalStr(d, "ign") == Some(r.value.ign)
  {
    var idV :- Field(d, IdKey);
    var id :- ReadStr(idV);
    var emailV :- Field(d, "buyer_email");
    var email :- ReadStr(emailV);
    var nameV :- Field(d, "buyer_name");
    var name :- ReadStr(nameV);
    var ign :- ReadOptionalStr(d, "ign");
    var itemsV :- Field(d, "items");
    var items :- if itemsV.List? then ReadItems(itemsV.elems) else None;
    var totalV :- Field(d, "total");
    var total :- ReadNumber(totalV);
    var statusV :- Field(d, "status");
    var status :- ReadStr(statusV);
    Some(OrderOut(id, email, name, ign, items, total, status))
  }

  /* ---- Properties ---- */

  /** The total is additive over concatenated carts. */
  lemma {:induction false} TotalAppend(xs: seq<OrderItem>, ys: seq<OrderItem>)
    ensures Total(xs + ys) == Total(xs) + Total(ys)
    decreases |ys|
  {
    if ys == [] {
      assert xs + ys == xs;
    } else {
      var n := |ys| - 1;
      assert (xs + ys)[..|xs + ys| - 1] == xs + ys[..n];
      assert (xs + ys)[|xs + ys| - 1] == ys[n];
      TotalAppend(xs, ys[..n]);
    }
  }

  /** The total is the sum of subtotals taken from the front as well. */
  lemma TotalCons(x: OrderItem, xs: seq<OrderItem>)
    ensures Total([x] + xs) == Subtotal(x) + Total(xs)
  {
    TotalAppend([x], xs);
    assert [x][..0] == [];
  }

  /** With non-negative prices the total is non-negative. */
  /** Two items at 10 and one at 5 total 25. */
  lemma TotalExample()
    ensures Total([OrderItem("a", "A", 10.0, 2), OrderItem("b", "B", 5.0, 1)]) == 25.0
  {
    var items := [OrderItem("a", "A", 10.0, 2), OrderItem("b", "B", 5.0, 1)];
    assert items[..1] == [items[0]];
    assert items[..1][..0] == [];
  }

  lemma ReadItemDocument(i: OrderItem)
    ensures ReadItem(ItemDocument(i)) == Some(i)
  {
  }

  lemma {:induction false} ReadItemDocuments(items: seq<OrderItem>, vs: seq<Value>)
    requires |vs| == |items|
    requires forall j :: 0 <= j < |vs| ==> vs[j] == ItemDocument(items[j])
    ensures ReadItems(vs) == Some(items)
    decreases |items|
  {
    if items != [] {
      ReadItemDocument(items[0]);
      ReadItemDocuments(items[1..], vs[1..]);
      assert [items[0]] + items[1..] == items;
    }
  }

  /** Every stored order field is already in transport form. */
  lemma StoredFieldsSerialized(rec: OrderRecord)
    ensures forall k :: k in StoredDocument(rec) ==> FieldIsSerialized(StoredDocument(rec)[k])
  {
    var d := StoredDocument(rec);
    assert FieldIsSerialized(d["items"]);
  }

  /** Serialising a saved order document gives `id` the identifier's string
      form and leaves the six stored order fields as they were stored. */
  lemma SerializeStoredOrder(rec: OrderRecord, oid: ObjectIdBytes, saved: Document)
    requires StoreIdKey in saved && saved[StoreIdKey] == ObjId(oid)
    requires forall k :: k in StoredDocument(rec) ==> k in saved && saved[k] == StoredDocument(rec)[k]
    ensures var s := SerializeDoc(saved);
            && IdKey in s && s[IdKey] == Str(ObjectIdString(oid))
            && forall k :: k in OrderKeys ==> k in s && s[k] == StoredDocument(rec)[k]
  {
    var stored := StoredDocument(rec);
    var s := SerializeDoc(saved);
    assert AssignsId(saved);
    StoredFieldsSerialized(rec);
    forall k | k in OrderKeys
      ensures k in s && s[k] == stored[k]
    {
      assert k in stored && k != StoreIdKey && k != IdKey;
      ConvertFixesSerialized(stored[k]);
    }
  }

  /** Reading the response shape from a document whose response fields hold
      the written kinds of value. */
  lemma ReadOrderOutFields(d: Document, out: OrderOut)
    requires IdKey in d && d[IdKey] == Str(out.id)
    requires "buyer_email" in d && d["buyer_email"] == Str(out.buyerEmail)
    requires "buyer_name" in d && d["buyer_name"] == Str(out.buyerName)
    requires "ign" in d && d["ign"] == OptionalStr(out.ign)
    requires "items" in d && d["items"].List? && ReadItems(d["items"].elems) == Some(out.items)
    requires "total" in d && d["total"] == Float(out.total)
    requires "status" in d && d["status"] == Str(out.status)
    ensures ReadOrderOut(d) == Some(out)
  {
    assert ReadOptionalStr(d, "ign") == Some(out.ign);
  }

  /** The response of `create_order`: whatever else the store keeps with the
      saved document, serialising it and reading it as the response gives the
      string form of the new identifier as `id`, and the stored buyer fields,
      items (same order), total and status unchanged. */
  lemma StoredOrderReadsBack(rec: OrderRecord, oid: ObjectIdBytes, saved: Document)
    requires StoreIdKey in saved && saved[StoreIdKey] == ObjId(oid)
    requires forall k :: k in StoredDocument(rec) ==> k in saved && saved[k] == StoredDocument(rec)[k]
    ensures ReadOrderOut(SerializeDoc(saved)) ==
            Some(OrderOut(ObjectIdString(oid), rec.buyerEmail, rec.buyerName, rec.ign,
                          rec.items, rec.total, rec.status))
  {
    SerializeStoredOrder(rec, oid, saved);
    ResponseFromStoredFields(rec, ObjectIdString(oid), SerializeDoc(saved));
  }

  /** Any document with `id` and the six stored order fields reads back as
      the response for that record. */
  lemma ResponseFromStoredFields(rec: OrderRecord, id: string, s: Document)
    requires IdKey in s && s[IdKey] == Str(id)
    requires forall k :: k in OrderKeys ==> k in s && s[k] == StoredDocument(rec)[k]
    ensures ReadOrderOut(s) ==
            Some(OrderOut(id, rec.buyerEmail, rec.buyerName, rec.ign, rec.items, rec.total, rec.status))
  {
    var stored := StoredDocument(rec);
    ReadItemDocuments(rec.items, stored["items"].elems);
    ReadOrderOutFields(s, OrderOut(id, rec.buyerEmail, rec.buyerName, rec.ign,
                                   rec.items, rec.total, rec.status));
  }

  /** An empty cart never reaches the store, and a non-empty one always yields
      a stored document whose items read back in the submitted order. */
  lemma CreateOrderRoundTrip(o: OrderCreate)
    ensures o.items == [] ==> CreateOrderDocument(o) == Failure(EmptyCart)
    ensures o.items != [] ==>
              var d := CreateOrderDocument(o).value;
              d["items"].List? && ReadItems(d["items"].elems) == Some(o.items)
              && ReadNumber(d["total"]) == Some(Total(o.items))
  {
    if o.items != [] {
      var rec := BuildOrder(o).value;
      assert CreateOrderDocument(o) == Success(StoredDocument(rec));
      ReadItemDocuments(rec.items, StoredDocument(rec)["items"].elems);
    }
  }

  /* ---- The whole handler ---- */

  /** An order collection as `find_one` sees it: documents by their `_id`. */
  type OrderStore = map<ObjectIdBytes, Document>

  /** `find_one({"_id": ObjectId(orderId)})`: None stands both for a string
      the ObjectId constructor rejects and for a document that is not there. */
  function FindOne(store: OrderStore, orderId: string): (r: Option<Document>)
    ensures r.Some? ==> exists oid :: ParseObjectId(orderId) == Some(oid) && oid in store && r.value == store[oid]
    ensures forall oid :: ParseObjectId(orderId) == Some(oid) && oid in store ==> r == Some(store[oid])
  {
    match ParseObjectId(orderId)
    case Some(oid) => if oid in store then Some(store[oid]) else None
    case None => None
  }

  /** `create_order`. `orderId` is the string the store returned for the new
      document and `store` the order collection after the insert. An empty
      cart is rejected with 400 before anything else happens; a failed lookup,
      a missing document or a response that does not read back is a 500. */
  function CreateOrder(o: OrderCreate, orderId: string, store: OrderStore): (r: Result<OrderOut, HttpError>)
    ensures o.items == [] <==> r == Failure(EmptyCart)
    ensures o.items != [] && FindOne(store, orderId).None? ==> r == Failure(ServerError)
    ensures r.Success? ==> o.items != [] && FindOne(store, orderId).Some?
    ensures r.Success? && AssignsId(FindOne(store, orderId).value) ==>
              r.value.id == Display(FindOne(store, orderId).value[StoreIdKey])
  {
    var rec :- BuildOrder(o);
    match FindOne(store, orderId)
    case None => Failure(ServerError)
    case Some(saved) =>
      match ReadOrderOut(SerializeDoc(saved))
      case Some(out) => Success(out)
      case None => Failure(ServerError)
  }

  /** When the store returned the string form of the new identifier and holds,
      under that identifier, a document carrying it as `_id` together with the
      stored order fields, the handler answers with that identifier's string as
      `id`, the buyer fields and items as submitted, the total and status pending. */
  lemma CreateOrderResponds(o: OrderCreate, oid: ObjectIdBytes, store: OrderStore)
    requires o.items != []
    requires oid in store && StoreIdKey in store[oid] && store[oid][StoreIdKey] == ObjId(oid)
    requires forall k :: k in StoredDocument(BuildOrder(o).value) ==>
               k in store[oid] && store[oid][k] == StoredDocument(BuildOrder(o).value)[k]
    ensures CreateOrder(o, ObjectIdString(oid), store) ==
            Success(OrderOut(ObjectIdString(oid), o.buyerEmail, o.buyerName, o.ign,
                             o.items, Total(o.items), PendingStatus))
  {
    ParseObjectIdString(oid);
    assert FindOne(store, ObjectIdString(oid)) == Some(store[oid]);
    StoredOrderReadsBack(BuildOrder(o).value, oid, store[oid]);
  }
}
