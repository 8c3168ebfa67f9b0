/** Catalogue bootstrap: `ensure_seed_products` fills an empty product
    collection with the four default products. The product collection is
    modelled as the sequence of its document bodies; `None` stands for an
    uninitialised database handle. */
module Seed {
  import opened Wrappers
  import opened Documents

  type Collection = seq<Document>

  const CreatedAtKey: string := "created_at"
  const UpdatedAtKey: string := "updated_at"
  const ProductKeys: set<string> := {"name", "description", "price", "category", "image"}

  /** One entry of the fixed catalogue. */
  datatype CatalogItem = CatalogItem(name: string, description: string, price: real, category: string, image: string)

  /** The fixed catalogue, in insertion order. */
  const DefaultCatalog: seq<CatalogItem> := [
    CatalogItem("Diamond Sword", "Sharp V ready! Deal massive damage.", 12.99,
                "Weapons", "/items/diamond_sword.png"),
    CatalogItem("Enchanted Pickaxe", "Efficiency V, Unbreaking III.", 10.49,
                "Tools", "/items/enchanted_pickaxe.png"),
    CatalogItem("Netherite Armor Set", "Full protection for endgame raiding.", 39.99,
                "Armor", "/items/netherite_armor.png"),
    CatalogItem("VIP Rank (30 Days)", "Perks: /fly, kits, queue skip.", 14.99,
                "Ranks", "/items/vip_rank.png")
  ]

  /** The catalogue entry as a document. */
  function CatalogDocument(c: CatalogItem): (d: Document)
    ensures d.Keys == ProductKeys
  {
    map["name" := Str(c.name), "description" := Str(c.description), "price" := Float(c.price),
        "category" := Str(c.category), "image" := Str(c.image)]
  }

  /** `DEFAULT_PRODUCTS`. */
  const DefaultProducts: seq<Document> := [
    CatalogDocument(DefaultCatalog[0]), CatalogDocument(DefaultCatalog[1]),
    CatalogDocument(DefaultCatalog[2]), CatalogDocument(DefaultCatalog[3])
  ]

  /** `{**p, "created_at": None, "updated_at": None}`: the catalogue entry with
      both timestamps set to None and every other field kept. */
  function SeedDocument(p: Document): (d: Document)
    ensures d.Keys == p.Keys + {CreatedAtKey, UpdatedAtKey}
    ensures d[CreatedAtKey] == Null && d[UpdatedAtKey] == Null
    ensures forall k :: k in p && k != CreatedAtKey && k != UpdatedAtKey ==> d[k] == p[k]
  {
    p[CreatedAtKey := Null][UpdatedAtKey := Null]
  }

  function SeedDocuments(): Collection
  {
    seq(|DefaultProducts|, i requires 0 <= i < |DefaultProducts| => SeedDocument(DefaultProducts[i]))
  }

  /** `ensure_seed_products`: no database, nothing happens; an empty product
      collection receives the four default products in order, each with null
      timestamps; a non-empty collection is left unchanged. */
  function EnsureSeedProducts(db: Option<Collection>): (r: Option<Collection>)
    ensures db.None? ==> r.None?
    ensures db.Some? && db.value != [] ==> r == db
    ensures db == Some([]) ==> r.Some? && |r.value| == 4
    ensures db == Some([]) ==> forall i :: 0 <= i < 4 ==> r.value[i] == SeedDocument(DefaultProducts[i])
    ensures r.Some? ==> r.value != []
  {
    match db
    case None => None
    case Some(products) => if |products| == 0 then Some(SeedDocuments()) else db
  }

  /** The shape `schemas.py` declares for a product: a name, an optional
      description, a non-negative price, a category and an optional image. */
  predicate IsProductDocument(d: Document)
  {
    && "name" in d && d["name"].Str?
    && ("description" in d ==> d["description"].Str? || d["description"] == Null)
    && "price" in d && ((d["price"].Float? && d["price"].x >= 0.0) || (d["price"].Int? && d["price"].i >= 0))
    && "category" in d && d["category"].Str?
    && ("image" in d ==> d["image"].Str? || d["image"] == Null)
  }

  function ProductName(d: Document): string
    requires "name" in d && d["name"].Str?
  {
    d["name"].s
  }

  /** Seeding twice is seeding once: a repeated listing never duplicates the catalogue. */
  lemma EnsureSeedIdempotent(db: Option<Collection>)
    ensures EnsureSeedProducts(EnsureSeedProducts(db)) == EnsureSeedProducts(db)
  {
  }

  lemma SeededEntryWellFormed(c: CatalogItem)
    requires c.price >= 0.0
    ensures var d := SeedDocument(CatalogDocument(c));
            IsProductDocument(d) && ProductName(d) == c.name
  {
  }

  lemma CatalogNamesDistinct()
    ensures forall i, j :: 0 <= i < j < |DefaultCatalog| ==> DefaultCatalog[i].name != DefaultCatalog[j].name
  {
  }

  lemma SeedDocumentsFromCatalog()
    ensures |SeedDocuments()| == |DefaultCatalog|
    ensures forall i :: 0 <= i < |DefaultCatalog| ==>
              SeedDocuments()[i] == SeedDocument(CatalogDocument(DefaultCatalog[i]))
  {
  }

  lemma CatalogPricesNonNegative()
    ensures forall i :: 0 <= i < |DefaultCatalog| ==> DefaultCatalog[i].price >= 0.0
  {
  }

  /** Every seeded document is a well-formed product, and the four seeded
      names are pairwise distinct. */
  lemma SeededProductsWellFormed()
    ensures var r := EnsureSeedProducts(Some([])).value;
            && (forall i :: 0 <= i < |r| ==> IsProductDocument(r[i]))
            && (forall i, j :: 0 <= i < j < |r| ==> ProductName(r[i]) != ProductName(r[j]))
  {
    var r := EnsureSeedProducts(Some([])).value;
    SeedDocumentsFromCatalog();
    CatalogPricesNonNegative();
    forall i | 0 <= i < |r|
      ensures IsProductDocument(r[i]) && ProductName(r[i]) == DefaultCatalog[i].name
    {
      SeededEntryWellFormed(DefaultCatalog[i]);
    }
    CatalogNamesDistinct();
  }
}
