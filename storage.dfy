/** The store as the seeding script sees it: one shared object whose tables the
    storage calls change in place. Each method is proved against the operation of the
    same name in `Catalog`, so `State()` after a call is that operation applied to
    `State()` before it. */
module Storage {
  import opened Catalog

  class Store {
    var classes: map<string, ProductClass>
    var partners: map<string, Partner>
    var categories: map<string, Category>
    var products: seq<Product>
    var stock: seq<StockRecord>

    /** The whole store as a value. */
    function State(): (db: Db)
      reads this
      ensures db.classes == classes && db.partners == partners && db.categories == categories
      ensures db.products == products && db.stock == stock
    {
      Db(classes, partners, categories, products, stock)
    }

    constructor (db: Db)
      ensures State() == db
    {
      classes, partners, categories := db.classes, db.partners, db.categories;
      products, stock := db.products, db.stock;
    }

    method DeleteAllProducts() returns (deleted: nat)
      modifies this
      ensures State() == Catalog.DeleteAllProducts(old(State()))
      ensures deleted == |old(products)|
    {
      deleted := |products|;
      products, stock := [], [];
    }

    method DeleteAllStockRecords()
      modifies this
      ensures State() == Catalog.DeleteAllStockRecords(old(State()))
    {
      stock := [];
    }

    method GetProductClass(slug: string) returns (r: Option<ProductClass>)
      ensures r == Catalog.GetProductClass(State(), slug)
    {
      r := if slug in classes then Some(classes[slug]) else None;
    }

    method CreateProductClass(slug: string, pc: ProductClass)
      requires slug !in classes
      modifies this
      ensures State() == Catalog.CreateProductClass(old(State()), slug, pc)
    {
      classes := classes[slug := pc];
    }

    method GetPartner(code: string) returns (r: Option<Partner>)
      ensures r == Catalog.GetPartner(State(), code)
    {
      r := if code in partners then Some(partners[code]) else None;
    }

    method CreatePartner(code: string, p: Partner)
      requires code !in partners
      modifies this
      ensures State() == Catalog.CreatePartner(old(State()), code, p)
    {
      partners := partners[code := p];
    }

    method GetCategory(slug: string) returns (r: Option<Category>)
      ensures r == Catalog.GetCategory(State(), slug)
    {
      r := if slug in categories then Some(categories[slug]) else None;
    }

    method GetRoot() returns (r: RootLookup)
      ensures r == Catalog.GetRoot(State())
    {
      var roots := set slug | slug in categories && categories[slug].depth == 1;
      assert roots == RootSlugs(State());
      if |roots| == 0 {
        r := NoRoot;
      } else if |roots| == 1 {
        var slug :| slug in roots;
        SingletonIs(roots, slug);
        r := OneRoot(slug);
      } else {
        r := ManyRoots;
      }
    }

    method AddRoot(slug: string, name: string, description: string) returns (ok: bool)
      modifies this
      ensures (ok, State()) == Catalog.AddRoot(old(State()), slug, name, description)
    {
      ok := slug !in categories;
      if ok {
        categories := categories[slug := Category(name, description, 1, None)];
      }
    }

    method AddChild(parent: string, slug: string, name: string, description: string, fault: bool) returns (ok: bool)
      requires parent in categories
      modifies this
      ensures (ok, State()) == Catalog.AddChild(old(State()), parent, slug, name, description, fault)
    {
      ok := !fault && slug !in categories;
      if ok {
        categories := categories[slug := Category(name, description, categories[parent].depth + 1, Some(parent))];
      }
    }

    method CreateProduct(p: Product, fault: bool) returns (ok: bool, id: nat)
      modifies this
      ensures (ok, id, State()) == Catalog.CreateProduct(old(State()), p, fault)
    {
      ok := !fault && !UpcTaken(products, p.upc);
      id := 0;
      if ok {
        id := |products|;
        products := products + [p];
      }
    }

    method AddProductCategory(id: nat, slug: string, fault: bool) returns (ok: bool)
      modifies this
      ensures (ok, State()) == Catalog.AddProductCategory(old(State()), id, slug, fault)
    {
      ok := !fault && id < |products|;
      if ok {
        products := products[id := products[id].(categories := products[id].categories + {slug})];
      }
    }

    method CreateStockRecord(rec: StockRecord, fault: bool) returns (ok: bool)
      modifies this
      ensures (ok, State()) == Catalog.CreateStockRecord(old(State()), rec, fault)
    {
      ok := !fault && rec.product < |products| && !SkuTaken(stock, rec.partner, rec.partnerSku);
      if ok {
        stock := stock + [rec];
      }
    }
  }
}
