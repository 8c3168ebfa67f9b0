# Storefront backend core: document serialisation, order building, catalogue seeding

A Dafny model of the logic in the storefront backend's `main.py`: a FastAPI service
that sells game items and keeps products and orders in a MongoDB store.
Three parts of it carry behaviour worth stating, and the model covers all three:

- **`serialize_doc`** turns a stored document into its transport form.
  It drops `_id`. When `_id` is not `None` it writes `id = str(_id)`, replacing any existing `id`.
  It turns ObjectId field values and ObjectId elements of list fields into strings.
  It serialises nested documents in turn, but not documents held inside lists.
  `Documents` models this over a `Value` tree (`Null | ObjId | Str | Int | Float | Other | List | Dict`).
- **`create_order`** rejects an empty cart with 400 "Cart is empty" before anything is stored.
  Otherwise it builds the stored record from the payload: buyer fields, items in order,
  the total of price × quantity, and status `"pending"`. The note is dropped.
  `Orders` models this, plus the reading of the saved, serialised document back into the response shape.
- **`ensure_seed_products`** fills an empty product collection with the four default products.
  Each one gets null `created_at`/`updated_at`. A non-empty collection is left alone,
  and so is a missing database handle. `Seed` models this over `Option<seq<Document>>`.

`ObjectIds` models the identifiers. The model assumes that `str(oid)` is the
24-digit lower-case hexadecimal spelling of the twelve ObjectId bytes, and that
`ObjectId(s)` accepts exactly 24 hex digits of either case and reads them back.
The ObjectId library is not part of this model. `Orders.CreateOrder` uses this
read-back for the handler's re-fetch (`find_one` by `ObjectId(order_id)`), and
`Orders.CreateOrderResponds` proves that the re-fetch finds the document stored
under the new identifier.

Files: `wrappers.dfy` (Option/Result), `object_ids.dfy`, `documents.dfy`, `orders.dfy`, `seed.dfy`.

## Model

| member | source | states |
|---|---|---|
| `Documents.SerializeDoc` | main.py:34-49 | An empty document comes back unchanged. The result never has `_id`. Its key set is the input's minus `_id`, plus `id` exactly when `_id` was present and not None. In that case `id` is the string form of `_id`, overriding any earlier `id`. Every other field is the converted input field. The result is in transport form at every dict-to-dict depth |
| `Documents.ConvertField` | main.py:42-48 | An ObjectId field becomes its string form. A list keeps its length and order, with ObjectId elements turned into strings and every other element, dicts included, kept as is. A dict is replaced by its recursive serialisation, with the serialised key set. Any other value is unchanged. The result is in transport form |
| `Documents.ConvertElement` | main.py:46 | A list element is never an ObjectId afterwards. An ObjectId element becomes its string form, and any other element, a dict included, is kept as it is |
| `Documents.Display` | main.py:40 | `str(_id)`: an ObjectId's string is 24 characters and reads back to the same identifier; a string is itself; any other scalar is its recorded text |
| `Documents.SerializeFixesSerialized` | main.py:34-49 | A document already in transport form (no `_id`, no ObjectId field or list element, nested dicts likewise) is left unchanged by serialisation |
| `Documents.ConvertFixesSerialized` | main.py:42-48 | A field value already in transport form is left unchanged by the field conversion |
| `Documents.SerializeIdempotent` | main.py:34-49 | Serialising an already serialised document changes nothing |
| `Documents.SerializeFixedPoints` | main.py:34-49 | A document is left unchanged by serialisation if and only if it is in transport form |
| `Documents.SerializedHasNoStoreId` | main.py:47-48 | A document in transport form has no `_id` key at any depth reachable through dict-valued fields |
| `Documents.SerializeRemovesStoreIdAtDictDepth` | main.py:37-48 | After serialisation no `_id` remains at any dict-to-dict depth |
| `Documents.DictInListKeepsStoreId` | main.py:45-46 | A dict held in a list field passes through untouched, so its `_id` survives: the no-`_id` guarantee stops at list boundaries |
| `ObjectIds.ObjectIdString` | main.py:40 | `str(oid)` is 24 characters, each a lower-case hex digit |
| `ObjectIds.ParseObjectId` | main.py:158 | `ObjectId(s)` succeeds only on a 24-character string made entirely of hex digits |
| `ObjectIds.UnhexHex` | main.py:158 | Reading back the hex spelling of any byte string recovers the bytes |
| `ObjectIds.ParseObjectIdString` | main.py:157-158 | `ObjectId(str(oid))` yields `oid`; `Orders.CreateOrderResponds` uses it to show that the re-fetch looks up the identifier just stored |
| `ObjectIds.ObjectIdStringInjective` | main.py:40 | Two identifiers have the same string form if and only if they are equal, so `id = str(_id)` loses nothing |
| `Orders.BuildOrder` | main.py:143-155 | Fails, with 400 "Cart is empty", exactly when the cart is empty. Otherwise the record keeps the buyer email, name and in-game name and the submitted items in order, totals the items, and is pending |
| `Orders.ItemDocument` | main.py:152 | A dumped item is a dict with exactly the keys `product_id`, `name`, `price`, `quantity` |
| `Orders.StoredDocument` | main.py:148-155 | The stored order document has exactly the six keys `buyer_email`, `buyer_name`, `ign`, `items`, `total`, `status`. It has no `note`, `_id` or `id` |
| `Orders.CreateOrderDocument` | main.py:144-155 | An empty cart yields an error and no document. A non-empty cart yields a document with exactly the six order keys and status `"pending"` |
| `Orders.CreateOrderRoundTrip` | main.py:144-155 | For an empty cart the result is the empty-cart error. For any other cart, the stored `items` read back as exactly the submitted items in order, and the stored `total` reads back as the sum of price × quantity |
| `Orders.Total` | main.py:147 | The total of an empty cart is 0. When every price is non-negative, the total is non-negative |
| `Orders.TotalAppend` | main.py:147 | The total of two carts joined is the sum of their totals |
| `Orders.TotalCons` | main.py:147 | The total is the first item's price × quantity plus the total of the rest |
| `Orders.TotalExample` | main.py:147 | Two items at 10 plus one at 5 total 25 |
| `Orders.ReadItemDocument` | main.py:152 | A dumped item reads back as the same item |
| `Orders.ReadItemDocuments` | main.py:152 | A list of dumped items reads back as the same items, in the same order |
| `Orders.SerializeStoredOrder` | main.py:156-159 | Serialising a saved order document sets `id` to the new identifier's string form. It leaves all six stored order fields exactly as stored, whatever other keys the store added |
| `Orders.StoredOrderReadsBack` | main.py:156-160 | The `create_order` response read from the serialised saved document has the new identifier's string as `id`. It has the stored buyer fields, the items in the same order, the total and the status |
| `Orders.ResponseFromStoredFields` | main.py:159-160 | Any document holding `id` and the six stored order fields reads back as the response for that record, whatever other keys it has |
| `Orders.ReadOrderOut` | main.py:160 | `OrderOut(**s)`: a successful read takes `id`, `buyer_email`, `buyer_name` and `status` from string fields of those names. It takes `ign` from a string, null or absent field, and `total` from a float or int field. Its items are exactly the items read, in order, from the `items` list |
| `Orders.FindOne` | main.py:158 | A document is found if and only if the id string parses to an identifier that the collection holds, and then it is the document stored under that identifier |
| `Orders.CreateOrder` | main.py:143-162 | The handler fails with 400 "Cart is empty" exactly when the cart is empty. With a non-empty cart, a failed re-fetch is a 500. A successful response implies a non-empty cart and a found document, and its `id` is `str(_id)` of that document |
| `Orders.CreateOrderResponds` | main.py:143-162 | When the store returns the new identifier's string and holds the stored order fields under that identifier, the handler answers with that string as `id`, the submitted buyer fields and items in order, the total of price × quantity, and status pending |
| `Seed.SeedDocument` | main.py:121 | A seeded entry has the catalogue entry's keys plus `created_at` and `updated_at`, both null. Every other field is kept |
| `Seed.CatalogDocument` | main.py:83-112 | A catalogue entry is a document with exactly `name`, `description`, `price`, `category`, `image` |
| `Seed.EnsureSeedProducts` | main.py:114-123 | With no database nothing happens. An empty collection becomes exactly the four default products, in order, each with null timestamps. A non-empty collection is unchanged. A present collection is never left empty |
| `Seed.EnsureSeedIdempotent` | main.py:114-123 | Seeding twice equals seeding once, so repeated listings never duplicate the catalogue |
| `Seed.SeedDocumentsFromCatalog` | main.py:118-122 | The seeded collection lists the four catalogue entries in their declared order |
| `Seed.CatalogNamesDistinct` | main.py:83-112 | The four default product names are pairwise distinct |
| `Seed.CatalogPricesNonNegative` | main.py:83-112 | Every default price is non-negative |
| `Seed.SeededEntryWellFormed` | schemas.py:10-15 | A seeded catalogue entry with a non-negative price has the product shape: a string name, an optional string description, a non-negative price, a string category and an optional string image |
| `Seed.SeededProductsWellFormed` | main.py:114-123 | Every product seeded into an empty collection has the product shape, and their names are pairwise distinct |

## Left out

- The MongoDB access layer (`db`, `create_document`, `get_documents`, `find_one`, `insert_many`, `count_documents`). It is I/O against an external store, and `database.py` is not part of this model. The seed model keeps only an abstract collection of document bodies. The identifiers `insert_many` assigns to the seeded documents are not modelled. The order model takes the saved document as a parameter that contains the stored fields and `_id`.
- `create_document` (not part of this model): `Orders.CreateOrderResponds` assumes it returns `str` of the new document's identifier, and that it stores the order fields under that identifier with `_id` set. Other keys it may add, such as timestamps, are allowed.
- The text of the 500 errors (`str(e)` of whatever exception occurred). `Orders.CreateOrder` returns a 500 with an empty detail. A failed lookup covers both a rejected id string and `serialize_doc(None)` followed by `OrderOut(**None)`.
- FastAPI routing, CORS, uvicorn start-up, `list_products`, `get_order`, and the HTTP 500 wrapping of store exceptions. These are framework glue.
- The `/test` diagnostics endpoint, which only reports the environment and connection status.
- Floating-point arithmetic and `round(total, 2)`. Prices and totals are exact reals, so the total is the unrounded sum of price × quantity.
- `PyObjectId.validate`, `ObjectId.is_valid`, `EmailStr` and other pydantic field validation. These are library rules this model does not restate. `ParseObjectId` accepts exactly 24 hex digits. `ReadOrderOut` reads only the value kinds this model writes (a float field also accepts an int) and ignores extra keys. It does not check e-mail syntax or apply pydantic's other coercions.
- `Documents.SerializeDoc`: `str(_id)` is pinned down only for None, ObjectId, string, integer and `Other` scalars. For a float, list or dict `_id`, Python's `repr` spelling is not modelled, and the model writes a fixed placeholder string.
- Python dicts keep insertion order; a `Document` is an unordered map, so key order in the transport form is not modelled.
- Concurrency: two simultaneous first listings can both see an empty collection and seed it twice. The model treats each call as atomic.
- `schemas.py` is declarative. Its constraints appear as the `Quantity` subtype (quantity ≥ 1) and as the product shape checked by `IsProductDocument`.
