/** Properties of `clean_and_seed`, proved about the spec functions in `Seed`. Since
    `Seed.CleanAndSeed` is proved to leave exactly `Run(db, Table, env)` behind, every
    property here is a property of the procedure run against a store. */
module SeedProofs {
  import opened Codes
  import opened Catalog
  import opened Seed

  // ---------------------------------------------------------------------------
  // Child categories (lines 82-106)

  predicate DistinctSlugs(children: seq<ChildDef>) {
    forall a, b | 0 <= a < b < |children| :: children[a].slug != children[b].slug
  }

  /** The six child slugs are distinct, so `categories_dict` ends with six entries. */
  lemma ChildrenAreDistinct()
    ensures DistinctSlugs(Children) && |Children| == 6
  {
  }

  /** `categories_dict` after the first `n` children: exactly their slugs, each
      mapped to the category stored under it. */
  ghost predicate DictMatches(children: seq<ChildDef>, n: nat, cats: map<string, Category>, d: Db)
    requires n <= |children|
  {
    && cats.Keys == ChildSlugs(children, n)
    && (forall s | s in cats :: s in d.categories && cats[s] == d.categories[s])
  }

  /** The categories after the first `n` children: their slugs are added and every
      category that existed before is kept as it was. */
  ghost predicate OnlyChildrenAdded(db: Db, children: seq<ChildDef>, n: nat, d: Db)
    requires n <= |children|
  {
    && d.categories.Keys == db.categories.Keys + ChildSlugs(children, n)
    && (forall s | s in db.categories :: d.categories[s] == db.categories[s])
  }

  /** Each of the first `n` children that was missing is placed under the root or,
      when `add_child` raised, as a new root. */
  ghost predicate MissingPlaced(db: Db, root: string, children: seq<ChildDef>, faults: set<string>, n: nat, d: Db)
    requires root in db.categories && n <= |children|
  {
    forall k | 0 <= k < n && children[k].slug !in db.categories ::
      children[k].slug in d.categories
      && d.categories[children[k].slug] == PlacedChild(db, root, children[k], children[k].slug in faults)
  }

  /** What resolving the first `n` children guarantees. */
  ghost predicate ResolvedChildren(db: Db, root: string, children: seq<ChildDef>, faults: set<string>, n: nat,
                                    cats: map<string, Category>, d: Db)
    requires root in db.categories && n <= |children|
  {
    DictMatches(children, n, cats, d) && OnlyChildrenAdded(db, children, n, d)
    && MissingPlaced(db, root, children, faults, n, d)
  }

  lemma DictMatchesOneMore(children: seq<ChildDef>, n: nat, cats: map<string, Category>, d: Db,
                           c: Category, d': Db)
    requires n < |children| && DictMatches(children, n, cats, d)
    requires d.categories.Keys <= d'.categories.Keys
    requires forall s | s in d.categories :: d'.categories[s] == d.categories[s]
    requires children[n].slug in d'.categories && d'.categories[children[n].slug] == c
    ensures DictMatches(children, n + 1, cats[children[n].slug := c], d')
  {
    assert ChildSlugs(children, n + 1) == ChildSlugs(children, n) + {children[n].slug};
  }

  lemma OnlyChildrenAddedOneMore(db: Db, children: seq<ChildDef>, n: nat, d: Db, d': Db)
    requires n < |children| && OnlyChildrenAdded(db, children, n, d)
    requires d'.categories.Keys == d.categories.Keys + {children[n].slug}
    requires forall s | s in d.categories :: d'.categories[s] == d.categories[s]
    ensures OnlyChildrenAdded(db, children, n + 1, d')
  {
    assert ChildSlugs(children, n + 1) == ChildSlugs(children, n) + {children[n].slug};
  }

  lemma MissingPlacedOneMore(db: Db, root: string, children: seq<ChildDef>, faults: set<string>, n: nat, d: Db, d': Db)
    requires root in db.categories && root in d.categories && n < |children|
    requires d.categories[root] == db.categories[root]
    requires children[n].slug in d.categories ==> children[n].slug in db.categories
    requires MissingPlaced(db, root, children, faults, n, d)
    requires d' == ResolveChild(d, root, children[n], children[n].slug in faults).1
    ensures MissingPlaced(db, root, children, faults, n + 1, d')
  {
    var child := children[n];
    assert PlacedChild(d, root, child, child.slug in faults) == PlacedChild(db, root, child, child.slug in faults);
    forall k | 0 <= k < n && children[k].slug !in db.categories
      ensures d'.categories[children[k].slug] == d.categories[children[k].slug]
    {
      assert children[k].slug in d.categories;
    }
  }

  /** After the first `n` children the root is unchanged, and child `n` is in the store
      only if it was there from the start. */
  lemma NextChildFresh(db: Db, root: string, children: seq<ChildDef>, faults: set<string>, n: nat)
    requires root in db.categories && n < |children| && DistinctSlugs(children)
    ensures root in ResolveChildren(db, root, children, faults, n).1.categories
    ensures ResolveChildren(db, root, children, faults, n).1.categories[root] == db.categories[root]
    ensures children[n].slug in ResolveChildren(db, root, children, faults, n).1.categories ==> children[n].slug in db.categories
  {
    OnlyChildrenAddedAll(db, root, children, faults, n);
    assert children[n].slug !in ChildSlugs(children, n);
  }

  lemma {:induction false} DictMatchesAll(db: Db, root: string, children: seq<ChildDef>, faults: set<string>, n: nat)
    requires root in db.categories && n <= |children|
    ensures DictMatches(children, n, ResolveChildren(db, root, children, faults, n).0,
                        ResolveChildren(db, root, children, faults, n).1)
  {
    if n > 0 {
      DictMatchesAll(db, root, children, faults, n - 1);
      ResolveChildrenStep(db, root, children, faults, n);
      var prev := ResolveChildren(db, root, children, faults, n - 1);
      var child := children[n - 1];
      var next := ResolveChild(prev.1, root, child, child.slug in faults);
      DictMatchesOneMore(children, n - 1, prev.0, prev.1, next.0, next.1);
    }
  }

  lemma {:induction false} OnlyChildrenAddedAll(db: Db, root: string, children: seq<ChildDef>, faults: set<string>, n: nat)
    requires root in db.categories && n <= |children|
    ensures OnlyChildrenAdded(db, children, n, ResolveChildren(db, root, children, faults, n).1)
  {
    if n > 0 {
      OnlyChildrenAddedAll(db, root, children, faults, n - 1);
      ResolveChildrenStep(db, root, children, faults, n);
      var prev := ResolveChildren(db, root, children, faults, n - 1).1;
      OnlyChildrenAddedOneMore(db, children, n - 1, prev, ResolveChildren(db, root, children, faults, n).1);
    }
  }

  lemma {:induction false} MissingPlacedAll(db: Db, root: string, children: seq<ChildDef>, faults: set<string>, n: nat)
    requires root in db.categories && n <= |children| && DistinctSlugs(children)
    ensures MissingPlaced(db, root, children, faults, n, ResolveChildren(db, root, children, faults, n).1)
  {
    if n > 0 {
      MissingPlacedAll(db, root, children, faults, n - 1);
      NextChildFresh(db, root, children, faults, n - 1);
      ResolveChildrenStep(db, root, children, faults, n);
      MissingPlacedOneMore(db, root, children, faults, n - 1, ResolveChildren(db, root, children, faults, n - 1).1,
                           ResolveChildren(db, root, children, faults, n).1);
    }
  }

  /** One more child resolved on the store the earlier children left. */
  lemma ResolveChildrenStep(db: Db, root: string, children: seq<ChildDef>, faults: set<string>, n: nat)
    requires root in db.categories && 0 < n <= |children|
    ensures root in ResolveChildren(db, root, children, faults, n - 1).1.categories
    ensures ResolveChildren(db, root, children, faults, n).1
         == ResolveChild(ResolveChildren(db, root, children, faults, n - 1).1, root, children[n - 1], children[n - 1].slug in faults).1
    ensures ResolveChildren(db, root, children, faults, n).0
         == ResolveChildren(db, root, children, faults, n - 1).0[children[n - 1].slug :=
              ResolveChild(ResolveChildren(db, root, children, faults, n - 1).1, root, children[n - 1], children[n - 1].slug in faults).0]
  {
  }

  /** Resolving the children one by one, as the loop at lines 82-106 does. */
  lemma ChildrenResolved(db: Db, root: string, children: seq<ChildDef>, faults: set<string>, n: nat)
    requires root in db.categories && n <= |children| && DistinctSlugs(children)
    ensures ResolvedChildren(db, root, children, faults, n,
                             ResolveChildren(db, root, children, faults, n).0,
                             ResolveChildren(db, root, children, faults, n).1)
  {
    DictMatchesAll(db, root, children, faults, n);
    OnlyChildrenAddedAll(db, root, children, faults, n);
    MissingPlacedAll(db, root, children, faults, n);
  }

  /** Resolving one child keeps the store's integrity. */
  lemma ResolveChildKeepsValid(db: Db, root: string, child: ChildDef, fault: bool)
    requires root in db.categories && Valid(db)
    ensures Valid(ResolveChild(db, root, child, fault).1)
  {
    if child.slug !in db.categories {
      var desc := ChildDescription(child.name);
      AddChildKeepsValid(db, root, child.slug, child.name, desc, fault);
      var d := AddChild(db, root, child.slug, child.name, desc, fault).1;
      AddRootKeepsValid(d, child.slug, child.name, desc);
    }
  }

  /** `ResolveChildren` keeps the store's integrity. */
  lemma {:induction false} ChildrenKeepValid(db: Db, root: string, children: seq<ChildDef>, faults: set<string>, n: nat)
    requires root in db.categories && n <= |children| && Valid(db)
    ensures Valid(ResolveChildren(db, root, children, faults, n).1)
  {
    if n > 0 {
      ChildrenKeepValid(db, root, children, faults, n - 1);
      var prev := ResolveChildren(db, root, children, faults, n - 1);
      var child := children[n - 1];
      ResolveChildKeepsValid(prev.1, root, child, child.slug in faults);
    }
  }

  /** The reset and the reference-data step keep the store's integrity. */
  lemma PrepareKeepsValid(db: Db)
    requires Valid(db)
    ensures Valid(Prepare(db))
  {
    var d1 := DeleteAllStockRecords(DeleteAllProducts(db));
    DeleteAllProductsKeepsValid(db);
    DeleteAllStockRecordsKeepsValid(DeleteAllProducts(db));
    var d2 := if DigitalSlug in d1.classes then d1 else CreateProductClass(d1, DigitalSlug, DigitalClass);
    if DigitalSlug !in d1.classes {
      CreateProductClassKeepsValid(d1, DigitalSlug, DigitalClass);
    }
    if PartnerCode !in d2.partners {
      CreatePartnerKeepsValid(d2, PartnerCode, DigitalPartner);
    }
  }

  /** The slugs of distinct children are as many as the children. */
  lemma {:induction false} ChildSlugsCount(children: seq<ChildDef>, n: nat)
    requires n <= |children| && DistinctSlugs(children)
    ensures |ChildSlugs(children, n)| == n
  {
    if n > 0 {
      ChildSlugsCount(children, n - 1);
      assert ChildSlugs(children, n) == ChildSlugs(children, n - 1) + {children[n - 1].slug};
    }
  }

  // ---------------------------------------------------------------------------
  // The seeding loop (lines 239-275) as a reference definition

  /** Item `i` reached `created_count += 1`: none of its three storage calls raised. */
  predicate Succeeded(f: Faults, i: nat) {
    i !in f.createProduct && i !in f.addCategory && i !in f.createStock
  }

  /** How many of the items 1..n succeeded. */
  function CountSucceeded(f: Faults, n: nat): (c: nat)
    ensures c <= n
  {
    if n == 0 then 0 else CountSucceeded(f, n - 1) + (if Succeeded(f, n) then 1 else 0)
  }

  /** How many of the items 1..n got as far as a product: `Product.objects.create`
      did not raise. */
  function CountCreated(f: Faults, n: nat): nat {
    if n == 0 then 0 else CountCreated(f, n - 1) + (if n in f.createProduct then 0 else 1)
  }

  /** The items among 1..n that failed at some step. */
  function FailedItems(f: Faults, n: nat): set<nat> {
    set i: nat | 1 <= i <= n && !Succeeded(f, i)
  }

  /** The product item `i` leaves in the store once `Product.objects.create` succeeded:
      linked to its table category unless `categories.add` raised. */
  function ListingProduct(items: seq<Item>, env: Env, i: nat): Product
    requires ValidEnv(env, |items|) && 1 <= i <= |items|
  {
    var p := NewProduct(items[i - 1], env.stamps[i - 1], i);
    if i in env.faults.addCategory then p else p.(categories := {items[i - 1].category})
  }

  /** The products left by items 1..n, in creation order, when the store held no
      listings before: one per item whose product creation did not raise. */
  function SeededProducts(items: seq<Item>, env: Env, n: nat): seq<Product>
    requires ValidEnv(env, |items|) && n <= |items|
  {
    if n == 0 then []
    else SeededProducts(items, env, n - 1)
         + (if n in env.faults.createProduct then [] else [ListingProduct(items, env, n)])
  }

  /** The stock records left by items 1..n: one per item that succeeded, pointing at
      that item's product. */
  function SeededStock(items: seq<Item>, env: Env, n: nat): seq<StockRecord>
    requires ValidEnv(env, |items|) && n <= |items|
  {
    if n == 0 then []
    else SeededStock(items, env, n - 1)
         + (if Succeeded(env.faults, n)
            then [NewStockRecord(items[n - 1], CountCreated(env.faults, n - 1), env.stamps[n - 1], n, env.draws[n - 1])]
            else [])
  }

  /** One product per item whose product creation did not raise. */
  lemma {:induction false} SeededProductsCount(items: seq<Item>, env: Env, n: nat)
    requires ValidEnv(env, |items|) && n <= |items|
    ensures |SeededProducts(items, env, n)| == CountCreated(env.faults, n)
  {
    if n > 0 {
      SeededProductsCount(items, env, n - 1);
    }
  }

  lemma {:induction false} SeededProductsPrefix(items: seq<Item>, env: Env, m: nat, n: nat)
    requires ValidEnv(env, |items|) && m <= n <= |items|
    ensures SeededProducts(items, env, m) <= SeededProducts(items, env, n)
    decreases n - m
  {
    if m < n {
      SeededProductsPrefix(items, env, m, n - 1);
    }
  }

  /** Product `p` is the listing of one of the items 1..n, the one its UPC names. */
  ghost predicate ListingOfItem(items: seq<Item>, env: Env, n: nat, p: Product)
    requires ValidEnv(env, |items|) && n <= |items|
  {
    var i := CodeIndex(p.upc);
    1 <= i <= n && i !in env.faults.createProduct && p == ListingProduct(items, env, i)
  }

  /** Every seeded product is the listing of the item its UPC names. */
  lemma {:induction false} SeededProductsShape(items: seq<Item>, env: Env, n: nat)
    requires ValidEnv(env, |items|) && n <= |items|
    ensures forall k | 0 <= k < |SeededProducts(items, env, n)| :: ListingOfItem(items, env, n, SeededProducts(items, env, n)[k])
  {
    if n > 0 {
      SeededProductsShape(items, env, n - 1);
      var prev := SeededProducts(items, env, n - 1);
      var ps := SeededProducts(items, env, n);
      if n !in env.faults.createProduct {
        var last := ListingProduct(items, env, n);
        CodeIndexOfCode(UpcPrefix, env.stamps[n - 1], n);
        assert last.upc == Code(UpcPrefix, env.stamps[n - 1], n);
        assert ps == prev + [last];
        forall k | 0 <= k < |ps| ensures ListingOfItem(items, env, n, ps[k]) {
          if k < |prev| {
            assert ps[k] == prev[k];
            assert ListingOfItem(items, env, n - 1, prev[k]);
          } else {
            assert ps[k] == last;
          }
        }
      } else {
        assert ps == prev;
        forall k | 0 <= k < |ps| ensures ListingOfItem(items, env, n, ps[k]) {
          assert ListingOfItem(items, env, n - 1, prev[k]);
        }
      }
    }
  }

  /** Stock record `rec` is the one item `i` created, where `i` is the item its SKU
      names: that item succeeded, and `rec` points at that item's product in `ps`. */
  ghost predicate StockOfItem(items: seq<Item>, env: Env, n: nat, ps: seq<Product>, rec: StockRecord)
    requires ValidEnv(env, |items|) && n <= |items|
  {
    var i := CodeIndex(rec.partnerSku);
    && 1 <= i <= n && Succeeded(env.faults, i)
    && rec.product < |ps| && ps[rec.product] == ListingProduct(items, env, i)
    && rec == NewStockRecord(items[i - 1], rec.product, env.stamps[i - 1], i, env.draws[i - 1])
  }

  /** A record that item `i <= m` left stays that item's record as the loop goes on. */
  lemma StockOfItemLater(items: seq<Item>, env: Env, m: nat, n: nat, pm: seq<Product>, pn: seq<Product>, rec: StockRecord)
    requires ValidEnv(env, |items|) && m <= n <= |items| && pm <= pn
    requires StockOfItem(items, env, m, pm, rec)
    ensures StockOfItem(items, env, n, pn, rec)
  {
    assert pn[rec.product] == pm[rec.product];
  }

  /** One stock record per item that succeeded. */
  lemma {:induction false} SeededStockCount(items: seq<Item>, env: Env, n: nat)
    requires ValidEnv(env, |items|) && n <= |items|
    ensures |SeededStock(items, env, n)| == CountSucceeded(env.faults, n)
  {
    if n > 0 {
      SeededStockCount(items, env, n - 1);
    }
  }

  /** Every seeded stock record belongs to an item that succeeded and points at that
      item's product. */
  lemma {:induction false} SeededStockShape(items: seq<Item>, env: Env, n: nat)
    requires ValidEnv(env, |items|) && n <= |items|
    ensures forall k | 0 <= k < |SeededStock(items, env, n)| ::
      StockOfItem(items, env, n, SeededProducts(items, env, n), SeededStock(items, env, n)[k])
  {
    if n > 0 {
      SeededStockShape(items, env, n - 1);
      SeededProductsPrefix(items, env, n - 1, n);
      var pprev, ps := SeededProducts(items, env, n - 1), SeededProducts(items, env, n);
      var prev, ss := SeededStock(items, env, n - 1), SeededStock(items, env, n);
      if Succeeded(env.faults, n) {
        SeededProductsCount(items, env, n - 1);
        var rec := NewStockRecord(items[n - 1], |pprev|, env.stamps[n - 1], n, env.draws[n - 1]);
        CodeIndexOfCode(SkuPrefix, env.stamps[n - 1], n);
        assert ss == prev + [rec];
        assert ps == pprev + [ListingProduct(items, env, n)];
        forall k | 0 <= k < |ss| ensures StockOfItem(items, env, n, ps, ss[k]) {
          if k < |prev| {
            assert ss[k] == prev[k];
            StockOfItemLater(items, env, n - 1, n, pprev, ps, prev[k]);
          } else {
            assert ss[k] == rec;
          }
        }
      } else {
        assert ss == prev;
        forall k | 0 <= k < |ss| ensures StockOfItem(items, env, n, ps, ss[k]) {
          StockOfItemLater(items, env, n - 1, n, pprev, ps, prev[k]);
        }
      }
    }
  }

  /** The fields of every seeded product: class "digital", standalone, discountable,
      and linked to nothing but its table category. */
  lemma SeededProductFields(items: seq<Item>, env: Env, n: nat)
    requires ValidEnv(env, |items|) && n <= |items|
    ensures forall k | 0 <= k < |SeededProducts(items, env, n)| ::
      var p := SeededProducts(items, env, n)[k];
      && p.productClass == DigitalSlug && p.structure == Standalone && p.isDiscountable
      && 1 <= CodeIndex(p.upc) <= n && p.categories <= {items[CodeIndex(p.upc) - 1].category}
  {
    SeededProductsShape(items, env, n);
  }

  /** The fields of every seeded stock record: partner "digitalstore", currency RUB,
      the table price, a stock level in [100, 1000] and a threshold of 10. */
  lemma SeededStockFields(items: seq<Item>, env: Env, n: nat)
    requires ValidEnv(env, |items|) && n <= |items|
    ensures forall k | 0 <= k < |SeededStock(items, env, n)| ::
      var rec := SeededStock(items, env, n)[k];
      && rec.partner == PartnerCode && rec.currency == Currency
      && 1 <= CodeIndex(rec.partnerSku) <= n && rec.price == items[CodeIndex(rec.partnerSku) - 1].price
      && MinStock <= rec.numInStock <= MaxStock && rec.lowStockThreshold == LowStockThreshold
  {
    SeededStockShape(items, env, n);
  }

  /** The item indices that the UPCs of `ps` name are at most `n`. */
  ghost predicate UpcsAtMost(ps: seq<Product>, n: nat) {
    forall k | 0 <= k < |ps| :: CodeIndex(ps[k].upc) <= n
  }

  /** The item indices that the UPCs of `ps` name strictly increase, so no two
      products of `ps` share a UPC. */
  ghost predicate UpcsIncrease(ps: seq<Product>) {
    forall a, b | 0 <= a < b < |ps| :: CodeIndex(ps[a].upc) < CodeIndex(ps[b].upc)
  }

  ghost predicate SkusAtMost(ss: seq<StockRecord>, n: nat) {
    forall k | 0 <= k < |ss| :: CodeIndex(ss[k].partnerSku) <= n
  }

  ghost predicate SkusIncrease(ss: seq<StockRecord>) {
    forall a, b | 0 <= a < b < |ss| :: CodeIndex(ss[a].partnerSku) < CodeIndex(ss[b].partnerSku)
  }

  lemma UpcsIncreaseSnoc(ps: seq<Product>, last: Product, n: nat)
    requires UpcsIncrease(ps) && UpcsAtMost(ps, n) && CodeIndex(last.upc) > n
    ensures UpcsIncrease(ps + [last])
  {
    var qs := ps + [last];
    forall a, b | 0 <= a < b < |qs| ensures CodeIndex(qs[a].upc) < CodeIndex(qs[b].upc) {
      assert qs[a] == ps[a];
      if b < |ps| { assert qs[b] == ps[b]; }
    }
  }

  lemma SkusIncreaseSnoc(ss: seq<StockRecord>, last: StockRecord, n: nat)
    requires SkusIncrease(ss) && SkusAtMost(ss, n) && CodeIndex(last.partnerSku) > n
    ensures SkusIncrease(ss + [last])
  {
    var qs := ss + [last];
    forall a, b | 0 <= a < b < |qs| ensures CodeIndex(qs[a].partnerSku) < CodeIndex(qs[b].partnerSku) {
      assert qs[a] == ss[a];
      if b < |ss| { assert qs[b] == ss[b]; }
    }
  }

  /** Item `i`'s listing carries UPC `i`, and its stock record SKU `i`. */
  lemma ListingCodes(items: seq<Item>, env: Env, i: nat, id: nat)
    requires ValidEnv(env, |items|) && 1 <= i <= |items|
    ensures CodeIndex(ListingProduct(items, env, i).upc) == i
    ensures CodeIndex(NewStockRecord(items[i - 1], id, env.stamps[i - 1], i, env.draws[i - 1]).partnerSku) == i
  {
    CodeIndexOfCode(UpcPrefix, env.stamps[i - 1], i);
    CodeIndexOfCode(SkuPrefix, env.stamps[i - 1], i);
  }

  /** The seeded products carry the UPCs of items 1..n only. */
  lemma SeededUpcsBelow(items: seq<Item>, env: Env, n: nat)
    requires ValidEnv(env, |items|) && n <= |items|
    ensures UpcsAtMost(SeededProducts(items, env, n), n)
  {
    SeededProductsShape(items, env, n);
    var ps := SeededProducts(items, env, n);
    forall k | 0 <= k < |ps| ensures CodeIndex(ps[k].upc) <= n {
      assert ListingOfItem(items, env, n, ps[k]);
    }
  }

  /** The seeded stock records carry the SKUs of items 1..n only. */
  lemma SeededSkusBelow(items: seq<Item>, env: Env, n: nat)
    requires ValidEnv(env, |items|) && n <= |items|
    ensures SkusAtMost(SeededStock(items, env, n), n)
  {
    SeededStockShape(items, env, n);
    var ps, ss := SeededProducts(items, env, n), SeededStock(items, env, n);
    forall k | 0 <= k < |ss| ensures CodeIndex(ss[k].partnerSku) <= n {
      assert StockOfItem(items, env, n, ps, ss[k]);
    }
  }

  lemma {:induction false} SeededProductsOrdered(items: seq<Item>, env: Env, n: nat)
    requires ValidEnv(env, |items|) && n <= |items|
    ensures UpcsIncrease(SeededProducts(items, env, n))
  {
    if n > 0 && n !in env.faults.createProduct {
      SeededProductsOrdered(items, env, n - 1);
      SeededUpcsBelow(items, env, n - 1);
      ListingCodes(items, env, n, 0);
      UpcsIncreaseSnoc(SeededProducts(items, env, n - 1), ListingProduct(items, env, n), n - 1);
    } else if n > 0 {
      SeededProductsOrdered(items, env, n - 1);
    }
  }

  lemma {:induction false} SeededStockOrdered(items: seq<Item>, env: Env, n: nat)
    requires ValidEnv(env, |items|) && n <= |items|
    ensures SkusIncrease(SeededStock(items, env, n))
  {
    if n > 0 && Succeeded(env.faults, n) {
      SeededStockOrdered(items, env, n - 1);
      SeededSkusBelow(items, env, n - 1);
      var id := CountCreated(env.faults, n - 1);
      ListingCodes(items, env, n, id);
      SkusIncreaseSnoc(SeededStock(items, env, n - 1), NewStockRecord(items[n - 1], id, env.stamps[n - 1], n, env.draws[n - 1]), n - 1);
    } else if n > 0 {
      SeededStockOrdered(items, env, n - 1);
    }
  }

  /** A code whose index lies above every index in use is not taken. */
  lemma UpcAbove(ps: seq<Product>, upc: string, n: nat)
    requires UpcsAtMost(ps, n) && CodeIndex(upc) > n
    ensures !UpcTaken(ps, upc)
  {
  }

  lemma SkuAbove(ss: seq<StockRecord>, sku: string, n: nat)
    requires SkusAtMost(ss, n) && CodeIndex(sku) > n
    ensures !SkuTaken(ss, PartnerCode, sku)
  {
  }

  /** Item `n`'s UPC is not yet taken by the products of items 1..n-1. */
  lemma FreshUpc(items: seq<Item>, env: Env, n: nat)
    requires ValidEnv(env, |items|) && 1 <= n <= |items|
    ensures !UpcTaken(SeededProducts(items, env, n - 1), Upc(env.stamps[n - 1], n))
  {
    var ps, u := SeededProducts(items, env, n - 1), Upc(env.stamps[n - 1], n);
    SeededUpcsBelow(items, env, n - 1);
    CodeIndexOfCode(UpcPrefix, env.stamps[n - 1], n);
    UpcAbove(ps, u, n - 1);
  }

  /** Item `n`'s SKU is not yet taken by the stock records of items 1..n-1. */
  lemma FreshSku(items: seq<Item>, env: Env, n: nat)
    requires ValidEnv(env, |items|) && 1 <= n <= |items|
    ensures !SkuTaken(SeededStock(items, env, n - 1), PartnerCode, Sku(env.stamps[n - 1], n))
  {
    var ss, u := SeededStock(items, env, n - 1), Sku(env.stamps[n - 1], n);
    SeededSkusBelow(items, env, n - 1);
    CodeIndexOfCode(SkuPrefix, env.stamps[n - 1], n);
    SkuAbove(ss, u, n - 1);
  }

  /** One pass of the loop on the listings of items 1..n-1 yields those of items 1..n. */
  lemma SeedItemExtends(db: Db, items: seq<Item>, env: Env, n: nat)
    requires ValidEnv(env, |items|) && 1 <= n <= |items|
    requires db.products == SeededProducts(items, env, n - 1) && db.stock == SeededStock(items, env, n - 1)
    ensures SeedItem(db, items, env, n)
         == (Succeeded(env.faults, n), db.(products := SeededProducts(items, env, n), stock := SeededStock(items, env, n)))
  {
    FreshUpc(items, env, n);
    FreshSku(items, env, n);
    SeededProductsCount(items, env, n - 1);
    var stamp, item := env.stamps[n - 1], items[n - 1];
    var ps := db.products;
    var p := NewProduct(item, stamp, n);
    if n !in env.faults.createProduct {
      var d1 := db.(products := ps + [p]);
      assert CreateProduct(db, p, false) == (true, |ps|, d1);
      if n !in env.faults.addCategory {
        var q := p.(categories := {item.category});
        assert p.categories + {item.category} == {item.category};
        assert (ps + [p])[|ps| := q] == ps + [q];
        var d2 := d1.(products := ps + [q]);
        assert AddProductCategory(d1, |ps|, item.category, false) == (true, d2);
        assert ListingProduct(items, env, n) == q;
        assert SeededProducts(items, env, n) == ps + [q];
        var rec := NewStockRecord(item, |ps|, stamp, n, env.draws[n - 1]);
        var fault := n in env.faults.createStock;
        if fault {
          assert CreateStockRecord(d2, rec, fault) == (false, d2);
          assert SeededStock(items, env, n) == db.stock;
        } else {
          assert CreateStockRecord(d2, rec, fault) == (true, d2.(stock := db.stock + [rec]));
          assert SeededStock(items, env, n) == db.stock + [rec];
        }
      } else {
        assert AddProductCategory(d1, |ps|, item.category, true) == (false, d1);
        assert SeededProducts(items, env, n) == ps + [p];
        assert SeededStock(items, env, n) == db.stock;
      }
    } else {
      assert CreateProduct(db, p, true) == (false, 0, db);
      assert SeededProducts(items, env, n) == ps;
      assert SeededStock(items, env, n) == db.stock;
    }
  }

  /** The seeding loop, started on a store with no listings (as after the reset),
      produces exactly the reference listings and counts the items that succeeded.
      In particular the UPC and SKU uniqueness checks of the store never fire: the
      only failures are the ones the environment injects. */
  lemma {:induction false} SeedLoopCharacterized(db: Db, items: seq<Item>, env: Env, n: nat)
    requires ValidEnv(env, |items|) && n <= |items|
    requires db.products == [] && db.stock == []
    ensures SeedLoop(db, items, env, n)
         == (CountSucceeded(env.faults, n),
             db.(products := SeededProducts(items, env, n), stock := SeededStock(items, env, n)))
  {
    if n > 0 {
      SeedLoopCharacterized(db, items, env, n - 1);
      SeedLoopExtends(db, items, env, n);
    }
  }

  /** One more pass of the loop on top of the reference listings of items 1..n-1. */
  lemma SeedLoopExtends(db: Db, items: seq<Item>, env: Env, n: nat)
    requires ValidEnv(env, |items|) && 0 < n <= |items|
    requires SeedLoop(db, items, env, n - 1)
          == (CountSucceeded(env.faults, n - 1),
              db.(products := SeededProducts(items, env, n - 1), stock := SeededStock(items, env, n - 1)))
    ensures SeedLoop(db, items, env, n)
         == (CountSucceeded(env.faults, n),
             db.(products := SeededProducts(items, env, n), stock := SeededStock(items, env, n)))
  {
    var ps, ss := SeededProducts(items, env, n), SeededStock(items, env, n);
    var d := db.(products := SeededProducts(items, env, n - 1), stock := SeededStock(items, env, n - 1));
    SeedItemExtends(d, items, env, n);
    SeedLoopStep(db, items, env, n, CountSucceeded(env.faults, n - 1), d, Succeeded(env.faults, n), d.(products := ps, stock := ss));
  }

  lemma SeedLoopStep(db: Db, items: seq<Item>, env: Env, n: nat, count: nat, d: Db, ok: bool, d': Db)
    requires ValidEnv(env, |items|) && 0 < n <= |items|
    requires SeedLoop(db, items, env, n - 1) == (count, d) && SeedItem(d, items, env, n) == (ok, d')
    ensures SeedLoop(db, items, env, n) == (if ok then count + 1 else count, d')
  {
  }

  /** `created_count` plus the number of failed items is the number of items. */
  lemma {:induction false} CountWithFailures(f: Faults, n: nat)
    ensures CountSucceeded(f, n) + |FailedItems(f, n)| == n
  {
    if n > 0 {
      CountWithFailures(f, n - 1);
      if Succeeded(f, n) {
        assert FailedItems(f, n) == FailedItems(f, n - 1);
      } else {
        assert FailedItems(f, n) == FailedItems(f, n - 1) + {n};
      }
    }
  }

  /** Failure isolation: when only item `k` fails, exactly the other items are created. */
  lemma OneFailingItem(f: Faults, n: nat, k: nat)
    requires 1 <= k <= n
    requires !Succeeded(f, k)
    requires forall i | 1 <= i <= n && i != k :: Succeeded(f, i)
    ensures FailedItems(f, n) == {k}
    ensures CountSucceeded(f, n) == n - 1
  {
    CountWithFailures(f, n);
  }

  // ---------------------------------------------------------------------------
  // Facts about the two tables

  /** The six child slugs, written out. */
  lemma ChildSlugsAre()
    ensures ChildSlugs(Children, |Children|) == {"software", "ebooks", "courses", "music", "templates", "assets"}
  {
    var slugs := ChildSlugs(Children, |Children|);
    assert Children[0].slug in slugs && Children[1].slug in slugs && Children[2].slug in slugs;
    assert Children[3].slug in slugs && Children[4].slug in slugs && Children[5].slug in slugs;
  }

  /** Every item of `items` is listed under one of the six child categories. */
  predicate ListsChildren(items: seq<Item>) {
    forall k | 0 <= k < |items| :: items[k].category in ChildSlugs(Children, |Children|)
  }

  /** The script's table has 50 items, each under one of the six child categories. */
  lemma TableFacts()
    ensures |Table| == 50 && ListsChildren(Table)
  {
    ChildSlugsAre();
  }

  /** Every price in the script's table is positive. */
  lemma TablePricesPositive()
    ensures forall k | 0 <= k < |Table| :: Table[k].price > 0
  {
    RowPricesPositive("software", SoftwareRows);
    RowPricesPositive("ebooks", EbookRows);
    RowPricesPositive("courses", CourseRows);
    RowPricesPositive("music", MusicRows);
    RowPricesPositive("templates", TemplateRows);
    RowPricesPositive("assets", AssetRows);
  }

  predicate PricesPositive(items: seq<Item>) {
    forall k | 0 <= k < |items| :: items[k].price > 0
  }

  lemma RowPricesPositive(slug: string, rows: seq<Row>)
    requires forall k | 0 <= k < |rows| :: rows[k].price > 0
    ensures PricesPositive(Section(slug, rows))
  {
  }

  /** The category of the 1-based item `i`, by the section the table lists it in. */
  function SectionSlug(i: nat): string {
    if i <= 10 then "software"
    else if i <= 20 then "ebooks"
    else if i <= 30 then "courses"
    else if i <= 40 then "music"
    else if i <= 45 then "templates"
    else "assets"
  }

  /** Items 1-10 are software, 11-20 e-books, 21-30 courses, 31-40 music, 41-45
      templates and 46-50 assets. */
  lemma TableSections()
    ensures |Table| == 50
    ensures forall k | 0 <= k < |Table| :: Table[k].category == SectionSlug(k + 1)
  {
  }

  // ---------------------------------------------------------------------------
  // Lines 82-281, once the root is known

  /** The completeness check at line 117 never stops the run: resolving the six
      children always fills `categories_dict` with all six. */
  lemma PopulateCompletes(db: Db, root: string, items: seq<Item>, env: Env)
    requires ValidEnv(env, |items|) && root in db.categories
    ensures Populate(db, root, items, env).0.Completed?
  {
    DictMatchesAll(db, root, Children, env.faults.addChild, |Children|);
    var c := ResolveChildren(db, root, Children, env.faults.addChild, |Children|);
    assert Complete(c.0) by {
      forall k | 0 <= k < |Children| ensures Children[k].slug in c.0 {
        assert Children[k].slug in ChildSlugs(Children, |Children|);
      }
    }
  }

  /** Once the loop at lines 82-106 ends, `categories_dict` holds exactly six entries,
      one per child slug. */
  lemma SixEntries(db: Db, root: string, faults: set<string>)
    requires root in db.categories
    ensures ResolveChildren(db, root, Children, faults, |Children|).0.Keys == ChildSlugs(Children, |Children|)
    ensures |ResolveChildren(db, root, Children, faults, |Children|).0| == 6
  {
    DictMatchesAll(db, root, Children, faults, |Children|);
    ChildrenAreDistinct();
    ChildSlugsCount(Children, |Children|);
  }

  /** On a store with no listings, `Populate` returns the number of items that
      succeeded and leaves exactly the reference listings. */
  lemma PopulateListings(db: Db, root: string, items: seq<Item>, env: Env)
    requires ValidEnv(env, |items|) && root in db.categories
    requires db.products == [] && db.stock == []
    ensures Populate(db, root, items, env).0 == Completed(CountSucceeded(env.faults, |items|))
    ensures Populate(db, root, items, env).1.products == SeededProducts(items, env, |items|)
    ensures Populate(db, root, items, env).1.stock == SeededStock(items, env, |items|)
  {
    PopulateCompletes(db, root, items, env);
    var c := ResolveChildren(db, root, Children, env.faults.addChild, |Children|);
    SeedLoopCharacterized(c.1, items, env, |items|);
  }

  /** The reference data `Populate` leaves: classes and partners as they were, the six
      child slugs added to the categories and nothing else, every existing category
      as it was, and each missing child placed under the root, or as a new root when
      `add_child` raised. */
  ghost predicate ChildrenAddedUnder(db: Db, root: string, env: Env, d: Db)
    requires root in db.categories
  {
    && d.classes == db.classes && d.partners == db.partners
    && d.categories.Keys == db.categories.Keys + ChildSlugs(Children, |Children|)
    && (forall s | s in db.categories :: d.categories[s] == db.categories[s])
    && (forall k | 0 <= k < |Children| && Children[k].slug !in db.categories ::
          d.categories[Children[k].slug] == PlacedChild(db, root, Children[k], Children[k].slug in env.faults.addChild))
  }

  lemma PopulateCategories(db: Db, root: string, items: seq<Item>, env: Env)
    requires ValidEnv(env, |items|) && root in db.categories
    ensures ChildrenAddedUnder(db, root, env, Populate(db, root, items, env).1)
  {
    ChildrenAreDistinct();
    OnlyChildrenAddedAll(db, root, Children, env.faults.addChild, |Children|);
    MissingPlacedAll(db, root, Children, env.faults.addChild, |Children|);
  }

  /** The reference listings keep the store's integrity once the product class, the
      partner and the items' categories exist. */
  lemma SeededValid(d: Db, items: seq<Item>, env: Env)
    requires ValidEnv(env, |items|) && ListsChildren(items) && Valid(d)
    requires DigitalSlug in d.classes && PartnerCode in d.partners
    requires ChildSlugs(Children, |Children|) <= d.categories.Keys
    ensures Valid(d.(products := SeededProducts(items, env, |items|), stock := SeededStock(items, env, |items|)))
  {
    var n := |items|;
    var ps, ss := SeededProducts(items, env, n), SeededStock(items, env, n);
    SeededProductsShape(items, env, n);
    SeededProductsOrdered(items, env, n);
    SeededStockShape(items, env, n);
    SeededStockOrdered(items, env, n);
    forall k | 0 <= k < |ps| ensures ps[k].productClass in d.classes && ps[k].categories <= d.categories.Keys {
      assert ListingOfItem(items, env, n, ps[k]);
    }
    forall a, b | 0 <= a < b < |ps| ensures ps[a].upc != ps[b].upc {
      assert CodeIndex(ps[a].upc) < CodeIndex(ps[b].upc);
    }
    forall k | 0 <= k < |ss| ensures ss[k].product < |ps| && ss[k].partner in d.partners {
      assert StockOfItem(items, env, n, ps, ss[k]);
    }
    forall a, b | 0 <= a < b < |ss| ensures ss[a].partnerSku != ss[b].partnerSku {
      assert CodeIndex(ss[a].partnerSku) < CodeIndex(ss[b].partnerSku);
    }
  }

  lemma PopulateKeepsValid(db: Db, root: string, items: seq<Item>, env: Env)
    requires ValidEnv(env, |items|) && ListsChildren(items) && root in db.categories && Valid(db)
    requires db.products == [] && db.stock == []
    requires DigitalSlug in db.classes && PartnerCode in db.partners
    ensures Valid(Populate(db, root, items, env).1)
  {
    ChildrenAreDistinct();
    ChildrenResolved(db, root, Children, env.faults.addChild, |Children|);
    ChildrenKeepValid(db, root, Children, env.faults.addChild, |Children|);
    PopulateCompletes(db, root, items, env);
    var c := ResolveChildren(db, root, Children, env.faults.addChild, |Children|);
    SeedLoopCharacterized(c.1, items, env, |items|);
    SeededValid(c.1, items, env);
  }

  // ---------------------------------------------------------------------------
  // The whole run

  /** The root category the run uses: the single existing root, else the new "all". */
  ghost function RunRoot(db: Db): string {
    match GetRoot(db)
    case OneRoot(slug) => slug
    case _ => RootSlug
  }

  /** The store holds two distinct depth-1 categories. */
  predicate SeveralRoots(db: Db) {
    exists a, b :: a in db.categories && b in db.categories && a != b
                   && db.categories[a].depth == 1 && db.categories[b].depth == 1
  }

  /** Two distinct roots exist exactly when the root lookup finds at least two. */
  lemma RootCount(db: Db)
    ensures SeveralRoots(db) <==> |RootSlugs(db)| >= 2
  {
    var roots := RootSlugs(db);
    if SeveralRoots(db) {
      var a, b :| a in db.categories && b in db.categories && a != b
                  && db.categories[a].depth == 1 && db.categories[b].depth == 1;
      assert roots == {a, b} + (roots - {a, b});
      assert |{a, b}| == 2;
    }
    if |roots| >= 2 {
      var a :| a in roots;
      assert |roots - {a}| >= 1;
      var b :| b in roots - {a};
      assert a in db.categories && b in db.categories && a != b
             && db.categories[a].depth == 1 && db.categories[b].depth == 1;
      assert SeveralRoots(db);
    }
  }

  /** The store after `add_root` created the root "all" (line 70). */
  ghost function WithNewRoot(d: Db): Db {
    d.(categories := d.categories[RootSlug := Category(RootName, RootDescription, 1, None)])
  }

  /** Where the run goes: which root it populates with, or that it raises. */
  ghost predicate RunsAs(db: Db, items: seq<Item>, env: Env)
    requires ValidEnv(env, |items|)
  {
    var d := Prepare(db);
    match GetRoot(db)
    case ManyRoots => Run(db, items, env) == (Raised(MultipleRoots), d)
    case OneRoot(root) => root in d.categories && Run(db, items, env) == Populate(d, root, items, env)
    case NoRoot =>
      if RootSlug in db.categories then Run(db, items, env) == (Raised(DuplicateSlug), d)
      else
        Run(db, items, env) == Populate(WithNewRoot(d), RootSlug, items, env)
  }

  lemma RunCases(db: Db, items: seq<Item>, env: Env)
    requires ValidEnv(env, |items|)
    ensures RunsAs(db, items, env)
  {
    var d := Prepare(db);
    assert RootSlugs(d) == RootSlugs(db);
    assert GetRoot(d) == GetRoot(db);
  }

  /** What a run leaves behind. It never stops at the completeness check. When it
      raises, the listings are wiped and nothing else beyond the reference-data step
      has happened. When it completes, `created_count` is the number of items that
      succeeded and the listings are exactly the reference listings. */
  lemma RunListings(db: Db, items: seq<Item>, env: Env)
    requires ValidEnv(env, |items|)
    ensures !Run(db, items, env).0.Stopped?
    ensures Run(db, items, env).0.Raised? ==> Run(db, items, env).1 == Prepare(db)
    ensures Run(db, items, env).0.Completed? ==>
      && Run(db, items, env).0.created == CountSucceeded(env.faults, |items|)
      && Run(db, items, env).1.products == SeededProducts(items, env, |items|)
      && Run(db, items, env).1.stock == SeededStock(items, env, |items|)
  {
    RunCases(db, items, env);
    var d := Prepare(db);
    match GetRoot(db)
    case ManyRoots =>
    case OneRoot(root) =>
      PopulateListings(d, root, items, env);
    case NoRoot =>
      if RootSlug !in db.categories {
        PopulateListings(WithNewRoot(d), RootSlug, items, env);
      }
  }

  /** The run raises `MultipleObjectsReturned` exactly when the store holds several
      roots, and raises on `add_root` exactly when it holds none while "all" is
      already a non-root category. */
  lemma RunRaisesExactly(db: Db, items: seq<Item>, env: Env)
    requires ValidEnv(env, |items|)
    ensures Run(db, items, env).0 == Raised(MultipleRoots) <==> SeveralRoots(db)
    ensures Run(db, items, env).0 == Raised(DuplicateSlug) <==> RootSlugs(db) == {} && RootSlug in db.categories
  {
    RootCount(db);
    RunCases(db, items, env);
    var d := Prepare(db);
    match GetRoot(db)
    case ManyRoots =>
    case OneRoot(root) =>
      PopulateCompletes(d, root, items, env);
    case NoRoot =>
      if RootSlug !in db.categories {
        PopulateCompletes(WithNewRoot(d), RootSlug, items, env);
      }
  }

  /** On a well-formed store the run never raises at `add_root`: a store without a
      root holds no category, so "all" is free. */
  lemma ValidRunNeverDuplicateSlug(db: Db, items: seq<Item>, env: Env)
    requires ValidEnv(env, |items|) && Valid(db)
    ensures Run(db, items, env).0 != Raised(DuplicateSlug)
  {
    RunRaisesExactly(db, items, env);
    if RootSlugs(db) == {} {
      NoRootNoCategories(db);
    }
  }

  /** Reference data: after any run, product class "digital" and partner
      "digitalstore" exist, are the records that already existed if there were any,
      and no other class or partner changed. */
  lemma RunReferenceData(db: Db, items: seq<Item>, env: Env)
    requires ValidEnv(env, |items|)
    ensures Run(db, items, env).1.classes == Prepare(db).classes
    ensures Run(db, items, env).1.partners == Prepare(db).partners
  {
    RunCases(db, items, env);
    var d := Prepare(db);
    match GetRoot(db)
    case ManyRoots =>
    case OneRoot(root) =>
      PopulateCategories(d, root, items, env);
    case NoRoot =>
      if RootSlug !in db.categories {
        PopulateCategories(WithNewRoot(d), RootSlug, items, env);
      }
  }

  /** Every category that existed is still there, unchanged, and a run that does not
      complete leaves the categories exactly as they were. */
  ghost predicate KeepsCategories(db: Db, r: (Outcome, Db)) {
    && (forall s | s in db.categories :: s in r.1.categories && r.1.categories[s] == db.categories[s])
    && (!r.0.Completed? ==> r.1.categories == db.categories)
  }

  lemma RunKeepsCategories(db: Db, items: seq<Item>, env: Env)
    requires ValidEnv(env, |items|)
    ensures KeepsCategories(db, Run(db, items, env))
  {
    RunCases(db, items, env);
    var d := Prepare(db);
    match GetRoot(db)
    case ManyRoots =>
    case OneRoot(root) =>
      PopulateCompletes(d, root, items, env);
      PopulateCategories(d, root, items, env);
    case NoRoot =>
      if RootSlug !in db.categories {
        PopulateCompletes(WithNewRoot(d), RootSlug, items, env);
        PopulateCategories(WithNewRoot(d), RootSlug, items, env);
      }
  }

  /** The categories of a completed run: the root it used is a root, and exactly it
      and the six child slugs were added; with no root before, the root is a new
      "all" category. */
  ghost predicate RootAndChildren(db: Db, cats: map<string, Category>) {
    var root := RunRoot(db);
    && cats.Keys == db.categories.Keys + {root} + ChildSlugs(Children, |Children|)
    && root in cats && cats[root].depth == 1
    && (RootSlugs(db) == {} ==> cats[RootSlug] == Category(RootName, RootDescription, 1, None))
  }

  lemma RunRootAndChildren(db: Db, items: seq<Item>, env: Env)
    requires ValidEnv(env, |items|)
    ensures Run(db, items, env).0.Completed? ==> RootAndChildren(db, Run(db, items, env).1.categories)
  {
    RunCases(db, items, env);
    match GetRoot(db)
    case ManyRoots =>
    case OneRoot(root) =>
      ExistingRootAndChildren(db, root, items, env);
    case NoRoot =>
      if RootSlug !in db.categories {
        NewRootAndChildren(db, items, env);
      }
  }

  lemma ExistingRootAndChildren(db: Db, root: string, items: seq<Item>, env: Env)
    requires ValidEnv(env, |items|) && GetRoot(db) == OneRoot(root)
    ensures RootAndChildren(db, Populate(Prepare(db), root, items, env).1.categories)
  {
    assert root in RootSlugs(db);
    PopulateCategories(Prepare(db), root, items, env);
  }

  lemma NewRootAndChildren(db: Db, items: seq<Item>, env: Env)
    requires ValidEnv(env, |items|) && GetRoot(db) == NoRoot && RootSlug !in db.categories
    ensures RootAndChildren(db, Populate(WithNewRoot(Prepare(db)), RootSlug, items, env).1.categories)
  {
    PopulateCategories(WithNewRoot(Prepare(db)), RootSlug, items, env);
  }

  /** Each child category that was missing is created one level below the root, or
      as an independent root when `add_child` raised. */
  ghost predicate ChildrenPlaced(db: Db, env: Env, root: string, cats: map<string, Category>) {
    forall k | 0 <= k < |Children| && Children[k].slug !in db.categories ::
      Children[k].slug in cats
      && cats[Children[k].slug]
         == (if Children[k].slug in env.faults.addChild
             then Category(Children[k].name, ChildDescription(Children[k].name), 1, None)
             else Category(Children[k].name, ChildDescription(Children[k].name), 2, Some(root)))
  }

  lemma RunPlacesChildren(db: Db, items: seq<Item>, env: Env)
    requires ValidEnv(env, |items|)
    ensures Run(db, items, env).0.Completed? ==> ChildrenPlaced(db, env, RunRoot(db), Run(db, items, env).1.categories)
  {
    RunCases(db, items, env);
    var d := Prepare(db);
    match GetRoot(db)
    case ManyRoots =>
    case OneRoot(root) =>
      assert root in RootSlugs(db);
      PopulatePlaces(d, root, items, env);
    case NoRoot =>
      if RootSlug !in db.categories {
        PopulatePlaces(WithNewRoot(d), RootSlug, items, env);
        RootIsNoChild();
      }
  }

  /** Below a depth-1 root, `Populate` places each missing child as `ChildrenPlaced` says. */
  lemma PopulatePlaces(d: Db, root: string, items: seq<Item>, env: Env)
    requires ValidEnv(env, |items|) && root in d.categories && d.categories[root].depth == 1
    ensures ChildrenPlaced(d, env, root, Populate(d, root, items, env).1.categories)
  {
    PopulateCategories(d, root, items, env);
  }

  /** "all" is none of the six child slugs. */
  lemma RootIsNoChild()
    ensures forall k | 0 <= k < |Children| :: Children[k].slug != RootSlug
  {
    ChildSlugsAre();
    forall k | 0 <= k < |Children| ensures Children[k].slug != RootSlug {
      assert Children[k].slug in ChildSlugs(Children, |Children|);
    }
  }

  /** A run keeps the store's integrity: the category tree stays well formed, every
      product and stock record points to existing records, and UPCs and per-partner
      SKUs stay unique. */
  lemma RunPreservesValid(db: Db, items: seq<Item>, env: Env)
    requires ValidEnv(env, |items|) && ListsChildren(items) && Valid(db)
    ensures Valid(Run(db, items, env).1)
  {
    RunCases(db, items, env);
    PrepareKeepsValid(db);
    var d := Prepare(db);
    match GetRoot(db)
    case ManyRoots =>
    case OneRoot(root) =>
      PopulateKeepsValid(d, root, items, env);
    case NoRoot =>
      if RootSlug !in db.categories {
        AddRootKeepsValid(d, RootSlug, RootName, RootDescription);
        PopulateKeepsValid(AddRoot(d, RootSlug, RootName, RootDescription).1, RootSlug, items, env);
      }
  }

  /** Running the procedure a second time, without anything in between, changes no
      reference data: the product class and the partner are the same records as
      after the first run. */
  lemma RunTwiceKeepsClassesAndPartners(db: Db, items: seq<Item>, e1: Env, e2: Env)
    requires ValidEnv(e1, |items|) && ValidEnv(e2, |items|)
    ensures Run(Run(db, items, e1).1, items, e2).1.classes == Run(db, items, e1).1.classes
    ensures Run(Run(db, items, e1).1, items, e2).1.partners == Run(db, items, e1).1.partners
  {
    var d1 := Run(db, items, e1).1;
    RunReferenceData(db, items, e1);
    RunReferenceData(d1, items, e2);
  }

  /** ... nor any category: a second run finds the root and the six children the
      first one left, and reuses them all. */
  lemma RunTwiceKeepsCategories(db: Db, items: seq<Item>, e1: Env, e2: Env)
    requires ValidEnv(e1, |items|) && ValidEnv(e2, |items|)
    ensures Run(Run(db, items, e1).1, items, e2).1.categories == Run(db, items, e1).1.categories
  {
    var r1 := Run(db, items, e1);
    var d1 := r1.1;
    RunKeepsCategories(d1, items, e2);
    if Run(d1, items, e2).0.Completed? {
      RunListings(db, items, e1);
      if r1.0.Raised? {
        RaisedRunRaisesAgain(db, items, e1, e2);
      } else {
        CompletedRunLeavesRoot(db, items, e1);
        RootCount(d1);
        RunRaisesExactly(d1, items, e2);
        SettledRunAddsNothing(d1, items, e2);
      }
    }
  }

  /** A run that raised left the categories as they were, so the next run raises too. */
  lemma RaisedRunRaisesAgain(db: Db, items: seq<Item>, e1: Env, e2: Env)
    requires ValidEnv(e1, |items|) && ValidEnv(e2, |items|)
    requires Run(db, items, e1).0.Raised?
    ensures Run(Run(db, items, e1).1, items, e2).0.Raised?
  {
    var d1 := Run(db, items, e1).1;
    RunKeepsCategories(db, items, e1);
    assert RootSlugs(d1) == RootSlugs(db);
    RootCount(db);
    RootCount(d1);
    RunRaisesExactly(db, items, e1);
    RunRaisesExactly(d1, items, e2);
  }

  /** A completed run leaves its root, at depth 1, and the six children in the store. */
  lemma CompletedRunLeavesRoot(db: Db, items: seq<Item>, env: Env)
    requires ValidEnv(env, |items|) && Run(db, items, env).0.Completed?
    ensures RootSlugs(Run(db, items, env).1) != {}
    ensures ChildSlugs(Children, |Children|) <= Run(db, items, env).1.categories.Keys
  {
    RunRootAndChildren(db, items, env);
    assert RunRoot(db) in RootSlugs(Run(db, items, env).1);
  }

  /** On a store with one root and all six children, a run adds no category. */
  lemma SettledRunAddsNothing(d: Db, items: seq<Item>, env: Env)
    requires ValidEnv(env, |items|) && GetRoot(d).OneRoot?
    requires ChildSlugs(Children, |Children|) <= d.categories.Keys
    ensures Run(d, items, env).1.categories == d.categories
  {
    RunKeepsCategories(d, items, env);
    RunRootAndChildren(d, items, env);
    assert GetRoot(d).slug in RootSlugs(d);
    if Run(d, items, env).0.Completed? {
      assert Run(d, items, env).1.categories.Keys == d.categories.Keys;
    }
  }

  /** Fallback leaves several roots: on a store the run can populate (at most one
      root, and "all" free when there is none), when `add_child` raises for a missing
      child, that child becomes a second depth-1 category beside the root the run
      used, so the next run raises `MultipleObjectsReturned` at the root lookup. */
  lemma FallbackBreaksNextRun(db: Db, items: seq<Item>, e1: Env, e2: Env, k: nat)
    requires ValidEnv(e1, |items|) && ValidEnv(e2, |items|)
    requires !SeveralRoots(db) && (RootSlugs(db) == {} ==> RootSlug !in db.categories)
    requires k < |Children| && Children[k].slug !in db.categories && Children[k].slug in e1.faults.addChild
    ensures Run(Run(db, items, e1).1, items, e2).0 == Raised(MultipleRoots)
  {
    var d1 := Run(db, items, e1).1;
    var root := RunRoot(db);
    RootCount(db);
    RunRaisesExactly(db, items, e1);
    RunListings(db, items, e1);
    RunRootAndChildren(db, items, e1);
    RunPlacesChildren(db, items, e1);
    RootIsNoChild();
    if GetRoot(db).OneRoot? {
      assert GetRoot(db).slug in RootSlugs(db);
    }
    assert Children[k].slug != root;
    assert Children[k].slug in d1.categories && d1.categories[Children[k].slug].depth == 1;
    assert root in d1.categories && d1.categories[root].depth == 1;
    assert SeveralRoots(d1);
    RunRaisesExactly(d1, items, e2);
  }

  /** The environment injects no faults. */
  predicate NoFaults(env: Env) {
    env.faults == Faults({}, {}, {}, {})
  }

  /** With no faults every item succeeds. */
  lemma NoFaultsNoFailures(n: nat)
    ensures CountSucceeded(Faults({}, {}, {}, {}), n) == n
  {
    var f := Faults({}, {}, {}, {});
    CountWithFailures(f, n);
    assert FailedItems(f, n) == {};
  }

  /** With no injected faults, on a store with at most one root (and "all" free when
      there is none), a run creates every listing. */
  lemma FaultFreeRunCompletes(db: Db, items: seq<Item>, env: Env)
    requires ValidEnv(env, |items|) && NoFaults(env)
    requires !SeveralRoots(db) && (RootSlugs(db) == {} ==> RootSlug !in db.categories)
    ensures Run(db, items, env).0 == Completed(|items|)
  {
    NoFaultsNoFailures(|items|);
    RunRaisesExactly(db, items, env);
    RunListings(db, items, env);
  }

  /** With no injected faults, on a well-formed store with at most one root, a run
      creates every listing. */
  lemma FaultFreeValidRunCompletes(db: Db, items: seq<Item>, env: Env)
    requires ValidEnv(env, |items|) && NoFaults(env) && Valid(db) && !SeveralRoots(db)
    ensures Run(db, items, env).0 == Completed(|items|)
  {
    if RootSlugs(db) == {} {
      NoRootNoCategories(db);
    }
    FaultFreeRunCompletes(db, items, env);
  }

  /** ... and leaves exactly one root, the one it used: the children, created without
      faults, all sit below it. */
  lemma FaultFreeRunLeavesOneRoot(db: Db, items: seq<Item>, env: Env)
    requires ValidEnv(env, |items|) && NoFaults(env)
    requires !SeveralRoots(db) && (RootSlugs(db) == {} ==> RootSlug !in db.categories)
    ensures RootSlugs(Run(db, items, env).1) == {RunRoot(db)}
  {
    FaultFreeRunCompletes(db, items, env);
    RunKeepsCategories(db, items, env);
    RunRootAndChildren(db, items, env);
    RunPlacesChildren(db, items, env);
    RootCount(db);
    OnlyRoot(db, env, RunRoot(db), Run(db, items, env).1);
  }

  /** The category-level argument: old categories kept, the root at depth 1 and every
      new child at depth 2 leave the root as the only one. */
  lemma OnlyRoot(db: Db, env: Env, root: string, d: Db)
    requires env.faults.addChild == {} && RootSlugs(db) <= {root}
    requires d.categories.Keys == db.categories.Keys + {root} + ChildSlugs(Children, |Children|)
    requires root in d.categories && d.categories[root].depth == 1
    requires forall s | s in db.categories :: s in d.categories && d.categories[s] == db.categories[s]
    requires ChildrenPlaced(db, env, root, d.categories)
    ensures RootSlugs(d) == {root}
  {
    forall s | s in RootSlugs(d) ensures s == root {
      if s in db.categories {
        assert s in RootSlugs(db);
      }
    }
  }

  /** End to end: with no injected faults, on a store with at most one root (and "all"
      free when there is none), a run creates every listing, and so does a second run
      right after it. */
  lemma FaultFreeRunsCreateAll(db: Db, items: seq<Item>, e1: Env, e2: Env)
    requires ValidEnv(e1, |items|) && ValidEnv(e2, |items|) && NoFaults(e1) && NoFaults(e2)
    requires !SeveralRoots(db) && (RootSlugs(db) == {} ==> RootSlug !in db.categories)
    ensures Run(db, items, e1).0 == Completed(|items|)
    ensures Run(Run(db, items, e1).1, items, e2).0 == Completed(|items|)
  {
    FaultFreeRunCompletes(db, items, e1);
    var d1 := Run(db, items, e1).1;
    FaultFreeRunLeavesOneRoot(db, items, e1);
    RootCount(d1);
    FaultFreeRunCompletes(d1, items, e2);
  }

  // ---------------------------------------------------------------------------
  // The script's own table

  /** With no injected faults, on a store with at most one root (and "all" free when
      there is none), `clean_and_seed` returns 50, and returns 50 again when run a
      second time. */
  lemma FaultFreeCleanAndSeedCreatesFifty(db: Db, e1: Env, e2: Env)
    requires ValidEnv(e1, |Table|) && ValidEnv(e2, |Table|) && NoFaults(e1) && NoFaults(e2)
    requires !SeveralRoots(db) && (RootSlugs(db) == {} ==> RootSlug !in db.categories)
    ensures Run(db, Table, e1).0 == Completed(50)
    ensures Run(Run(db, Table, e1).1, Table, e2).0 == Completed(50)
  {
    TableFacts();
    FaultFreeRunsCreateAll(db, Table, e1, e2);
  }

  /** `clean_and_seed` keeps the store's integrity. */
  lemma CleanAndSeedPreservesValid(db: Db, env: Env)
    requires ValidEnv(env, |Table|) && Valid(db)
    ensures Valid(Run(db, Table, env).1)
  {
    TableFacts();
    RunPreservesValid(db, Table, env);
  }
}
