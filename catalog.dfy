/** The catalog's records and the storage operations the seeding script uses, as
    pure functions on a value `Db` that holds the whole store. Each kind of record is
    kept under its unique key: product classes by slug, partners by code, categories
    by slug. Products and stock records are kept in creation order, and a product's
    handle is its position in `products`.

    Every storage call that the script guards with `try/except` takes a `fault`
    argument: when it is true, the environment makes the call raise. Apart from
    that, a call fails only when it would break one of the store's unique keys. */
module Catalog {

  datatype Option<T> = None | Some(value: T)

  datatype ProductClass = ProductClass(name: string, requiresShipping: bool, trackStock: bool)

  datatype Partner = Partner(name: string)

  /** A node of the category tree. Roots have depth 1 and no parent. */
  datatype Category = Category(name: string, description: string, depth: nat, parent: Option<string>)

  /** Oscar's product structures; this script only creates standalone products. */
  datatype Structure = Standalone | Parent | Child

  datatype Product = Product(
    title: string,
    description: string,
    productClass: string,
    structure: Structure,
    upc: string,
    isDiscountable: bool,
    categories: set<string>)

  /** `price` is in hundredths of the currency unit. */
  datatype StockRecord = StockRecord(
    product: nat,
    partner: string,
    partnerSku: string,
    currency: string,
    price: nat,
    numInStock: int,
    lowStockThreshold: int)

  datatype Db = Db(
    classes: map<string, ProductClass>,
    partners: map<string, Partner>,
    categories: map<string, Category>,
    products: seq<Product>,
    stock: seq<StockRecord>)

  /** A category sits correctly in the tree: a root has depth 1, any other node is
      one deeper than its parent, which exists. */
  predicate WellPlaced(cats: map<string, Category>, slug: string)
    requires slug in cats
  {
    match cats[slug].parent
    case None => cats[slug].depth == 1
    case Some(p) => p in cats && cats[slug].depth == cats[p].depth + 1
  }

  ghost predicate TreeValid(cats: map<string, Category>) {
    forall slug | slug in cats :: WellPlaced(cats, slug)
  }

  predicate UpcTaken(products: seq<Product>, upc: string) {
    exists k :: 0 <= k < |products| && products[k].upc == upc
  }

  predicate SkuTaken(stock: seq<StockRecord>, partner: string, sku: string) {
    exists k :: 0 <= k < |stock| && stock[k].partner == partner && stock[k].partnerSku == sku
  }

  /** The store's integrity: the tree is well formed, every reference points to an
      existing record, UPCs are unique, and SKUs are unique per partner. */
  ghost predicate Valid(db: Db) {
    && TreeValid(db.categories)
    && (forall k | 0 <= k < |db.products| ::
          db.products[k].productClass in db.classes && db.products[k].categories <= db.categories.Keys)
    && (forall a, b | 0 <= a < b < |db.products| :: db.products[a].upc != db.products[b].upc)
    && (forall k | 0 <= k < |db.stock| ::
          db.stock[k].product < |db.products| && db.stock[k].partner in db.partners)
    && (forall a, b | 0 <= a < b < |db.stock| ::
          db.stock[a].partner != db.stock[b].partner || db.stock[a].partnerSku != db.stock[b].partnerSku)
  }

  /** `Product.objects.all().delete()`. The deletion cascades to the stock records,
      which all belong to some product. */
  function DeleteAllProducts(db: Db): (r: Db)
    ensures r.products == [] && r.stock == []
    ensures r.classes == db.classes && r.partners == db.partners && r.categories == db.categories
  {
    db.(products := [], stock := [])
  }

  /** `StockRecord.objects.all().delete()`. */
  function DeleteAllStockRecords(db: Db): (r: Db)
    ensures r.stock == []
    ensures r.classes == db.classes && r.partners == db.partners && r.categories == db.categories
    ensures r.products == db.products
  {
    db.(stock := [])
  }

  /** `ProductClass.objects.get(slug=...)`: absent is `None` instead of `DoesNotExist`. */
  function GetProductClass(db: Db, slug: string): (r: Option<ProductClass>)
    ensures r.Some? <==> slug in db.classes
    ensures r.Some? ==> r.value == db.classes[slug]
  {
    if slug in db.classes then Some(db.classes[slug]) else None
  }

  /** `ProductClass.objects.create(...)`, called only for a slug that is absent. */
  function CreateProductClass(db: Db, slug: string, pc: ProductClass): (r: Db)
    requires slug !in db.classes
    ensures r.classes.Keys == db.classes.Keys + {slug} && r.classes[slug] == pc
    ensures forall s | s in db.classes :: r.classes[s] == db.classes[s]
    ensures r.partners == db.partners && r.categories == db.categories
    ensures r.products == db.products && r.stock == db.stock
  {
    db.(classes := db.classes[slug := pc])
  }

  /** `Partner.objects.get(code=...)`. */
  function GetPartner(db: Db, code: string): (r: Option<Partner>)
    ensures r.Some? <==> code in db.partners
    ensures r.Some? ==> r.value == db.partners[code]
  {
    if code in db.partners then Some(db.partners[code]) else None
  }

  /** `Partner.objects.create(...)`, called only for a code that is absent. */
  function CreatePartner(db: Db, code: string, p: Partner): (r: Db)
    requires code !in db.partners
    ensures r.partners.Keys == db.partners.Keys + {code} && r.partners[code] == p
    ensures forall c | c in db.partners :: r.partners[c] == db.partners[c]
    ensures r.classes == db.classes && r.categories == db.categories
    ensures r.products == db.products && r.stock == db.stock
  {
    db.(partners := db.partners[code := p])
  }

  /** `Category.objects.get(slug=...)`. */
  function GetCategory(db: Db, slug: string): (r: Option<Category>)
    ensures r.Some? <==> slug in db.categories
    ensures r.Some? ==> r.value == db.categories[slug]
  {
    if slug in db.categories then Some(db.categories[slug]) else None
  }

  /** The slugs of all depth-1 categories. */
  ghost function RootSlugs(db: Db): set<string> {
    set slug | slug in db.categories && db.categories[slug].depth == 1
  }

  /** What `Category.objects.get(depth=1)` can do: raise `DoesNotExist`, return the one
      root, or raise `MultipleObjectsReturned`. */
  datatype RootLookup = NoRoot | OneRoot(slug: string) | ManyRoots

  ghost function GetRoot(db: Db): (r: RootLookup)
    ensures r.NoRoot? <==> RootSlugs(db) == {}
    ensures r.ManyRoots? <==> |RootSlugs(db)| >= 2
    ensures r.OneRoot? ==> RootSlugs(db) == {r.slug}
  {
    var roots := RootSlugs(db);
    if |roots| == 0 then NoRoot
    else if |roots| == 1 then
      var slug :| slug in roots;
      SingletonIs(roots, slug);
      OneRoot(slug)
    else ManyRoots
  }

  lemma SingletonIs<T>(s: set<T>, x: T)
    requires |s| == 1 && x in s
    ensures s == {x}
  {
    assert |s - {x}| == 0;
    assert s - {x} == {};
  }

  /** In a well-formed tree without a depth-1 category, every category lies deeper
      than any given depth: following parents never reaches a root. */
  lemma {:induction false} AllDeeper(cats: map<string, Category>, d: nat)
    requires TreeValid(cats)
    requires forall s | s in cats :: cats[s].depth != 1
    ensures forall s | s in cats :: cats[s].depth > d
  {
    if d > 0 {
      AllDeeper(cats, d - 1);
    }
    forall s | s in cats ensures cats[s].depth > d {
      assert WellPlaced(cats, s);
    }
  }

  /** A well-formed store without a root holds no category at all, since every
      category descends from some root. */
  lemma NoRootNoCategories(db: Db)
    requires Valid(db) && RootSlugs(db) == {}
    ensures db.categories == map[]
  {
    if db.categories != map[] {
      var s :| s in db.categories;
      forall t | t in db.categories ensures db.categories[t].depth != 1 {
        assert t !in RootSlugs(db);
      }
      AllDeeper(db.categories, db.categories[s].depth);
      assert false;
    }
  }

  /** `Category.add_root(...)`. Categories are keyed by slug, so a slug that is
      already taken makes the call fail and leaves the store as it was. */
  function AddRoot(db: Db, slug: string, name: string, description: string): (r: (bool, Db))
    ensures r.0 <==> slug !in db.categories
    ensures !r.0 ==> r.1 == db
    ensures r.0 ==> r.1.categories == db.categories[slug := Category(name, description, 1, None)]
    ensures r.1.classes == db.classes && r.1.partners == db.partners
    ensures r.1.products == db.products && r.1.stock == db.stock
  {
    if slug in db.categories then (false, db)
    else
      (true, db.(categories := db.categories[slug := Category(name, description, 1, None)]))
  }

  /** `parent.add_child(...)`: the new category is one level below `parent`. The call
      raises when `fault` holds (the environment decides) or the slug is taken. */
  function AddChild(db: Db, parent: string, slug: string, name: string, description: string, fault: bool): (r: (bool, Db))
    requires parent in db.categories
    ensures r.0 <==> !fault && slug !in db.categories
    ensures !r.0 ==> r.1 == db
    ensures r.0 ==> r.1.categories == db.categories[slug := Category(name, description, db.categories[parent].depth + 1, Some(parent))]
    ensures r.1.classes == db.classes && r.1.partners == db.partners
    ensures r.1.products == db.products && r.1.stock == db.stock
  {
    if fault || slug in db.categories then (false, db)
    else
      var c := Category(name, description, db.categories[parent].depth + 1, Some(parent));
      (true, db.(categories := db.categories[slug := c]))
  }

  /** `Product.objects.create(...)`: appends the product and returns its handle. The
      call raises when `fault` holds or the UPC is already taken. */
  function CreateProduct(db: Db, p: Product, fault: bool): (r: (bool, nat, Db))
    ensures r.0 <==> !fault && !UpcTaken(db.products, p.upc)
    ensures r.0 ==> r.1 == |db.products| && r.2 == db.(products := db.products + [p])
    ensures !r.0 ==> r.2 == db
  {
    if fault || UpcTaken(db.products, p.upc) then (false, 0, db)
    else (true, |db.products|, db.(products := db.products + [p]))
  }

  /** `product.categories.add(category)`: links product `id` to category `slug`. */
  function AddProductCategory(db: Db, id: nat, slug: string, fault: bool): (r: (bool, Db))
    ensures r.0 <==> !fault && id < |db.products|
    ensures r.0 ==> r.1 == db.(products := db.products[id := db.products[id].(categories := db.products[id].categories + {slug})])
    ensures !r.0 ==> r.1 == db
  {
    if fault || id >= |db.products| then (false, db)
    else
      var p := db.products[id];
      (true, db.(products := db.products[id := p.(categories := p.categories + {slug})]))
  }

  /** `StockRecord.objects.create(...)`. The call raises when `fault` holds, when the
      product does not exist, or when the partner already has a record with that SKU. */
  function CreateStockRecord(db: Db, rec: StockRecord, fault: bool): (r: (bool, Db))
    ensures r.0 <==> !fault && rec.product < |db.products| && !SkuTaken(db.stock, rec.partner, rec.partnerSku)
    ensures r.0 ==> r.1 == db.(stock := db.stock + [rec])
    ensures !r.0 ==> r.1 == db
  {
    if fault || rec.product >= |db.products| || SkuTaken(db.stock, rec.partner, rec.partnerSku) then (false, db)
    else (true, db.(stock := db.stock + [rec]))
  }

  // Each storage call keeps the store's integrity, given what the call's caller
  // ensures about the records it refers to.

  lemma DeleteAllProductsKeepsValid(db: Db)
    requires Valid(db)
    ensures Valid(DeleteAllProducts(db))
  {
  }

  lemma DeleteAllStockRecordsKeepsValid(db: Db)
    requires Valid(db)
    ensures Valid(DeleteAllStockRecords(db))
  {
  }

  lemma CreateProductClassKeepsValid(db: Db, slug: string, pc: ProductClass)
    requires Valid(db) && slug !in db.classes
    ensures Valid(CreateProductClass(db, slug, pc))
  {
  }

  lemma CreatePartnerKeepsValid(db: Db, code: string, p: Partner)
    requires Valid(db) && code !in db.partners
    ensures Valid(CreatePartner(db, code, p))
  {
  }

  /** Adding a category whose parent exists one level up keeps the tree well formed. */
  lemma AddedKeepsTree(cats: map<string, Category>, slug: string, c: Category)
    requires TreeValid(cats) && slug !in cats
    requires match c.parent
             case None => c.depth == 1
             case Some(p) => p in cats && c.depth == cats[p].depth + 1
    ensures TreeValid(cats[slug := c])
  {
    var cats' := cats[slug := c];
    forall s | s in cats' ensures WellPlaced(cats', s) {
      if s != slug { assert WellPlaced(cats, s); }
    }
  }

  lemma AddRootKeepsValid(db: Db, slug: string, name: string, description: string)
    requires Valid(db)
    ensures Valid(AddRoot(db, slug, name, description).1)
  {
    if slug !in db.categories {
      AddedKeepsTree(db.categories, slug, Category(name, description, 1, None));
    }
  }

  lemma AddChildKeepsValid(db: Db, parent: string, slug: string, name: string, description: string, fault: bool)
    requires Valid(db) && parent in db.categories
    ensures Valid(AddChild(db, parent, slug, name, description, fault).1)
  {
    if !fault && slug !in db.categories {
      AddedKeepsTree(db.categories, slug, Category(name, description, db.categories[parent].depth + 1, Some(parent)));
    }
  }

  /** A product keeps the store valid when its class and categories exist; a taken
      UPC is refused. */
  lemma CreateProductKeepsValid(db: Db, p: Product, fault: bool)
    requires Valid(db) && p.productClass in db.classes && p.categories <= db.categories.Keys
    ensures Valid(CreateProduct(db, p, fault).2)
  {
  }

  lemma AddProductCategoryKeepsValid(db: Db, id: nat, slug: string, fault: bool)
    requires Valid(db) && slug in db.categories
    ensures Valid(AddProductCategory(db, id, slug, fault).1)
  {
  }

  /** A stock record keeps the store valid when its partner exists; a missing product
      and a taken SKU are refused. */
  lemma CreateStockRecordKeepsValid(db: Db, rec: StockRecord, fault: bool)
    requires Valid(db) && rec.partner in db.partners
    ensures Valid(CreateStockRecord(db, rec, fault).1)
  {
  }
}
