/** Documents as the store hands them back, and `serialize_doc`, which turns a
    stored document into its transport form: the store key `_id` becomes the
    string field `id`, ObjectIds become strings, and nested documents are
    serialised in turn. */
module Documents {
  import opened Wrappers
  import opened ObjectIds

  /** One value inside a document. Python dictionaries keep insertion order;
      the model treats a document as an unordered map. */
  datatype Value =
    | Null                          // None
    | ObjId(oid: ObjectIdBytes)     // bson ObjectId
    | Str(s: string)
    | Int(i: int)
    | Float(x: real)
    | Other(text: string)           // any other scalar (bool, datetime, ...), by its str() form
    | List(elems: seq<Value>)
    | Dict(fields: map<string, Value>)

  type Document = map<string, Value>

  const IdKey: string := "id"
  const StoreIdKey: string := "_id"

  function NatToDecimal(n: nat): string
  {
    if n < 10 then [HexDigit(n)] else NatToDecimal(n / 10) + [HexDigit(n % 10)]
  }

  /** Python's `str(v)`, for the kinds of value whose spelling the model pins
      down; floats, lists and dicts get a fixed placeholder. */
  function Display(v: Value): (r: string)
    ensures v.ObjId? ==> |r| == 24 && ParseObjectId(r) == Some(v.oid)
    ensures v.Str? ==> r == v.s
    ensures v.Other? ==> r == v.text
  {
    match v
    case Null => "None"
    case ObjId(oid) => ParseObjectIdString(oid); ObjectIdString(oid)
    case Str(s) => s
    case Int(i) => if i < 0 then "-" + NatToDecimal(-i) else NatToDecimal(i)
    case Other(text) => text
    case _ => "<repr>"
  }

  /** True when serialising `doc` writes an `id` field: `_id` is present and not None. */
  predicate AssignsId(doc: Document)
  {
    StoreIdKey in doc && doc[StoreIdKey] != Null
  }

  /** The keys a serialised document has. */
  function SerializedKeys(doc: Document): set<string>
  {
    (doc.Keys - {StoreIdKey}) + (if AssignsId(doc) then {IdKey} else {})
  }

  /** Transport form: no `_id` at any depth reached through nested documents,
      no ObjectId as a field value or as an element of a list field, and
      every nested document in transport form as well. */
  predicate IsSerialized(doc: Document)
    decreases Dict(doc), 0
  {
    && StoreIdKey !in doc
    && forall k :: k in doc ==> FieldIsSerialized(doc[k])
  }

  predicate FieldIsSerialized(v: Value)
    decreases v, 1
  {
    match v
    case ObjId(_) => false
    case List(xs) => forall i :: 0 <= i < |xs| ==> !xs[i].ObjId?
    case Dict(m) => IsSerialized(m)
    case _ => true
  }

  /** No `_id` key in the document or in any document reachable from it
      through fields whose value is itself a document. */
  predicate NoStoreIdAtDictDepth(doc: Document)
    decreases Dict(doc)
  {
    && StoreIdKey !in doc
    && forall k :: k in doc && doc[k].Dict? ==> NoStoreIdAtDictDepth(doc[k].fields)
  }

  /** One element of a list field: an ObjectId becomes its string, anything
      else (a nested dict included) is kept as it is. */
  function ConvertElement(x: Value): (r: Value)
    ensures !r.ObjId?
    ensures x.ObjId? ==> r == Str(ObjectIdString(x.oid))
    ensures !x.ObjId? ==> r == x
  {
    if x.ObjId? then Str(ObjectIdString(x.oid)) else x
  }

  /** The conversion applied to one field value of a document. */
  function ConvertField(v: Value): (r: Value)
    decreases v, 1
    ensures FieldIsSerialized(r)
    ensures v.ObjId? ==> r == Str(ObjectIdString(v.oid))
    ensures v.List? ==> r.List? && |r.elems| == |v.elems|
    ensures v.List? ==> forall i :: 0 <= i < |v.elems| ==> r.elems[i] == ConvertElement(v.elems[i])
    ensures v.Dict? ==> r.Dict? && r.fields.Keys == SerializedKeys(v.fields)
    ensures v.Dict? ==> r == Dict(SerializeDoc(v.fields))
    ensures !v.ObjId? && !v.List? && !v.Dict? ==> r == v
  {
    match v
    case ObjId(oid) => Str(ObjectIdString(oid))
    case List(xs) => List(seq(|xs|, i requires 0 <= i < |xs| => ConvertElement(xs[i])))
    case Dict(m) => Dict(SerializeDoc(m))
    case _ => v
  }

  /** `serialize_doc(doc)`. An empty document comes back as it is. Otherwise
      `_id` is popped; when it was not None the result gets `id = str(_id)`,
      replacing any `id` the document already had; then every remaining
      field is converted by `ConvertField`. */
  function SerializeDoc(doc: Document): (r: Document)
    decreases Dict(doc), 0
    ensures doc == map[] ==> r == doc
    ensures StoreIdKey !in r
    ensures r.Keys == SerializedKeys(doc)
    ensures AssignsId(doc) ==> r[IdKey] == Str(Display(doc[StoreIdKey]))
    ensures forall k :: k in doc && k != StoreIdKey && !(k == IdKey && AssignsId(doc)) ==>
              r[k] == ConvertField(doc[k])
    ensures IsSerialized(r)
  {
    if doc == map[] then doc
    else
      var assigns := AssignsId(doc);
      map k | k in SerializedKeys(doc) ::
        if k == IdKey && assigns then Str(Display(doc[StoreIdKey])) else ConvertField(doc[k])
  }

  /** A document already in transport form is a fixed point of serialisation. */
  lemma {:induction false} SerializeFixesSerialized(doc: Document)
    requires IsSerialized(doc)
    ensures SerializeDoc(doc) == doc
    decreases Dict(doc), 0
  {
    if doc != map[] {
      var r := SerializeDoc(doc);
      assert !AssignsId(doc);
      forall k | k in doc
        ensures r[k] == doc[k]
      {
        ConvertFixesSerialized(doc[k]);
      }
    }
  }

  lemma {:induction false} ConvertFixesSerialized(v: Value)
    requires FieldIsSerialized(v)
    ensures ConvertField(v) == v
    decreases v, 1
  {
    match v
    case Dict(m) =>
      SerializeFixesSerialized(m);
    case List(xs) =>
      assert ConvertField(v).elems == xs;
    case _ =>
  }

  /** Serialising twice is serialising once. */
  lemma {:induction false} SerializeIdempotent(doc: Document)
    ensures SerializeDoc(SerializeDoc(doc)) == SerializeDoc(doc)
  {
    SerializeFixesSerialized(SerializeDoc(doc));
  }

  /** The fixed points of serialisation are exactly the documents in transport form. */
  lemma SerializeFixedPoints(doc: Document)
    ensures SerializeDoc(doc) == doc <==> IsSerialized(doc)
  {
    if IsSerialized(doc) {
      SerializeFixesSerialized(doc);
    }
  }

  /** Transport form has no `_id` at any depth reached through nested documents. */
  lemma {:induction false} SerializedHasNoStoreId(doc: Document)
    requires IsSerialized(doc)
    ensures NoStoreIdAtDictDepth(doc)
    decreases Dict(doc)
  {
    forall k | k in doc && doc[k].Dict?
      ensures NoStoreIdAtDictDepth(doc[k].fields)
    {
      assert FieldIsSerialized(doc[k]);
      SerializedHasNoStoreId(doc[k].fields);
    }
  }

  /** After serialisation no `_id` remains at any dict-to-dict depth. */
  lemma {:induction false} SerializeRemovesStoreIdAtDictDepth(doc: Document)
    ensures NoStoreIdAtDictDepth(SerializeDoc(doc))
  {
    SerializedHasNoStoreId(SerializeDoc(doc));
  }

  /** A document held inside a list field is not serialised: its `_id`
      survives, so the no-`_id` property stops at list boundaries. */
  lemma DictInListKeepsStoreId(oid: ObjectIdBytes, key: string)
    requires key != StoreIdKey
    ensures var inner := Dict(map[StoreIdKey := ObjId(oid)]);
            var r := SerializeDoc(map[key := List([inner])]);
            key in r && r[key] == List([inner]) && !NoStoreIdAtDictDepth(r[key].elems[0].fields)
  {
    var inner := Dict(map[StoreIdKey := ObjId(oid)]);
    var doc := map[key := List([inner])];
    var r := SerializeDoc(doc);
    assert !AssignsId(doc);
    assert ConvertField(doc[key]).elems == [inner];
  }
}
