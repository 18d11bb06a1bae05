# clean_and_seed, modelled and proved in Dafny

`clean_and_seed` resets and repopulates a digital-goods catalog built on Django
Oscar. One run does five things in order:

1. It deletes every product and every stock record.
2. It gets or creates the product class `digital` and the partner `digitalstore`.
3. It finds the single depth-1 category and uses it as the root. If no root exists,
   it creates the root `all`.
4. It gets or creates six child categories. A child whose `add_child` raises is
   created as an independent root instead. If any child is missing afterwards, the
   run returns early.
5. It walks a fixed table of 50 items. For each item it creates a product, links the
   product to its category, and creates a stock record. An item whose storage call
   raises is skipped, and `created_count` counts the items that got through.

The model has five modules:

- `Codes` (`codes.dfy`) builds the listing codes `UPC<timestamp><i:03d>` and
  `SKU<timestamp><i:03d>`. It proves that the index can be read back from a code,
  so codes are injective in the index.
- `Catalog` (`catalog.dfy`) models the store as a value `Db`:
  - product classes are a map keyed by slug;
  - partners are a map keyed by code;
  - categories are a map keyed by slug, each with a depth and an optional parent;
  - products and stock records are sequences, and a product's handle is its position.

  `Catalog` also gives each ORM call the script makes as a function on `Db`, and
  defines the store's integrity predicate `Valid`.
- `Storage` (`storage.dfy`) has the class `Store`, whose fields the storage calls
  update in place. Each method is proved to have exactly the effect of the
  `Catalog` function of the same name.
- `Seed` (`seed.dfy`) holds:
  - the constants, the child list and the product table;
  - the environment `Env`, which is everything the run reads from outside the store;
  - specification functions for each stage of the run, ending in `Run`;
  - the imperative procedure `CleanAndSeed` with its two loops. Its `ensures` states
    that it leaves exactly what `Run` says.
- `SeedProofs` (`seed_proofs.dfy`) proves what a run does, using `Run` and
  independent reference definitions (`SeededProducts`, `SeededStock`,
  `CountSucceeded`).

The environment supplies three things:

- **Guarded calls.** Each storage call the script guards with `try/except` takes a
  `fault` flag, and `Env.faults` decides which calls raise. These calls are
  `add_child`, `Product.objects.create`, `product.categories.add` and
  `StockRecord.objects.create`.
- **Timestamps.** `Env.stamps` holds the timestamp read for each item.
- **Stock draws.** `Env.draws` holds the `random.randint(100, 1000)` draw for each
  item.

`ValidEnv` states what the clock and the random source guarantee: every timestamp
has 14 digits, and every draw lies in [100, 1000].

Prices are whole numbers of kopecks: 6990 RUB is `699000`. Every table price is a
whole number of roubles, so no precision is lost.

The reset works on an arbitrary store, so a run can meet a store in any shape.
The model has two outcomes for exceptions the script does not catch:

- `MultipleRoots`: `Category.objects.get(depth=1)` finds several roots and raises
  `MultipleObjectsReturned` (line 70). This happens in Oscar as well.
- `DuplicateSlug`: the root `all` has to be created, but a non-root category already
  has the slug `all` (line 74). Only the model's keying of categories by slug makes
  `add_root` refuse here, and only a broken tree can get there. On a well-formed store
  every category descends from a root, so a store without a root has no categories
  (`Catalog.NoRootNoCategories`), and the run never raises `DuplicateSlug`
  (`SeedProofs.ValidRunNeverDuplicateSlug`).

Three behaviours of the code are easy to misread:

- **Timestamp.** The code reads the timestamp afresh for every item (line 243); it does
  not capture one timestamp for the whole run. The model therefore takes one stamp
  per item. Codes stay distinct within a run whatever the stamps are (`SeedProofs.SeedLoopCharacterized`,
  `Codes.CodeInjective`).
- **Completeness check.** The check at line 117 returns `None` rather than raising an
  error. It also can never fire, because every branch of the child loop assigns
  `categories_dict[slug]` (`SeedProofs.PopulateCompletes`). The model keeps the
  check as the outcome `Stopped`. `SeedProofs.RunListings` proves that no run ends in
  `Stopped`.
- **Single root.** `Category.objects.get(depth=1)` at line 70 presumes that the store
  holds a single root. The code's own fallback at lines 97-106 breaks that assumption:
  it makes a child whose `add_child` raised into a second root. On any store the run
  can populate (at most one root, and `all` free when there is none), such a fault
  makes the next run raise `MultipleObjectsReturned` at line 70
  (`SeedProofs.FallbackBreaksNextRun`). On the same stores, when no fault is injected,
  a run leaves exactly one root (`SeedProofs.FaultFreeRunLeavesOneRoot`). A store that
  already holds several roots keeps them: the run raises at line 70 and changes no
  category.

## Model

All source paths are in `project/quick_seed.py`.

| member | source | states |
|---|---|---|
| Codes.Decimal | project/quick_seed.py:244 | `str(n)` is a non-empty string of digits with one digit below 10, at most three below 1000 and at least four from 1000 on |
| Codes.Pad3 | project/quick_seed.py:244 | `{i:03d}` is all digits, exactly three wide for i < 1000 and wider from 1000 on |
| Codes.ValueOfDecimal | project/quick_seed.py:244 | the digits of `str(n)` read back as n |
| Codes.ValueLeadingZeros | project/quick_seed.py:244 | zero padding does not change the number a digit string denotes |
| Codes.ValueOfPad3 | project/quick_seed.py:244 | `int(f"{i:03d}") == i` for every i |
| Codes.CodeIndexOfCode | project/quick_seed.py:243-244 | the item index can be read back from any code with a 3-letter prefix and a 14-character timestamp |
| Codes.CodeInjective | project/quick_seed.py:243-263 | two codes are equal if and only if their prefixes, timestamps and indices are equal; so distinct indices give distinct UPCs and distinct SKUs even when the per-item timestamps differ |
| Codes.Upc | project/quick_seed.py:244 | defines the UPC as "UPC", the timestamp and `{i:03d}`; `Codes.CodeInjective`, `SeedProofs.ListingCodes` and `SeedProofs.FreshUpc` prove its properties |
| Codes.Sku | project/quick_seed.py:263 | defines the partner SKU as "SKU", the timestamp and `{i:03d}`; `Codes.CodeInjective`, `SeedProofs.ListingCodes` and `SeedProofs.FreshSku` prove its properties |
| Codes.CodeShape | project/quick_seed.py:243-244 | for indices below 1000 a code is 20 characters long, and everything after the prefix is a digit |
| Catalog.DeleteAllProducts | project/quick_seed.py:23 | no products and no stock records are left, through the cascade; classes, partners and categories are untouched |
| Catalog.DeleteAllStockRecords | project/quick_seed.py:27 | no stock records are left; everything else is untouched |
| Catalog.GetProductClass | project/quick_seed.py:33 | the lookup finds a class exactly when the slug is present, and then returns the stored record |
| Catalog.CreateProductClass | project/quick_seed.py:37-42 | the slug is added with the given record; all other data is untouched |
| Catalog.GetPartner | project/quick_seed.py:47 | the lookup finds a partner exactly when the code is present, and then returns the stored record |
| Catalog.CreatePartner | project/quick_seed.py:51-54 | the code is added with the given record; all other data is untouched |
| Catalog.GetCategory | project/quick_seed.py:84 | the lookup finds a category exactly when the slug is present, and then returns the stored record |
| Catalog.GetRoot | project/quick_seed.py:70 | `get(depth=1)` raises `DoesNotExist` exactly when there is no depth-1 category and `MultipleObjectsReturned` exactly when there are two or more; otherwise it returns the only one |
| Catalog.AddRoot | project/quick_seed.py:74-78 | succeeds exactly when the slug is free; on success it adds a depth-1 category without a parent, and on failure the store is unchanged |
| Catalog.AddChild | project/quick_seed.py:90-94 | succeeds exactly when no fault is injected and the slug is free; on success it adds a category one level below the parent, and on failure the store is unchanged |
| Catalog.CreateProduct | project/quick_seed.py:247-254 | succeeds exactly when no fault is injected and the UPC is free; on success it appends the product and returns its handle, and on failure the store is unchanged |
| Catalog.AddProductCategory | project/quick_seed.py:257 | succeeds exactly when no fault is injected and the product exists; on success it adds the category to that product only |
| Catalog.CreateStockRecord | project/quick_seed.py:260-268 | succeeds exactly when no fault is injected, the product exists and the partner's SKU is free; on success it appends the record, and on failure the store is unchanged |
| Catalog.DeleteAllProductsKeepsValid | project/quick_seed.py:23 | the bulk delete keeps the store's integrity |
| Catalog.DeleteAllStockRecordsKeepsValid | project/quick_seed.py:27 | the stock delete keeps the store's integrity |
| Catalog.CreateProductClassKeepsValid | project/quick_seed.py:37-42 | creating a class keeps the store's integrity |
| Catalog.CreatePartnerKeepsValid | project/quick_seed.py:51-54 | creating a partner keeps the store's integrity |
| Catalog.AddedKeepsTree | project/quick_seed.py:74-104 | adding a node whose parent is one level up, or a depth-1 node without a parent, keeps the tree well formed |
| Catalog.AllDeeper | project/quick_seed.py:70 | in a well-formed tree without a depth-1 category, every category is deeper than any given depth |
| Catalog.NoRootNoCategories | project/quick_seed.py:70-74 | a well-formed store whose root lookup finds no root holds no category at all |
| Catalog.AddRootKeepsValid | project/quick_seed.py:74-78 | `add_root` keeps the store's integrity |
| Catalog.AddChildKeepsValid | project/quick_seed.py:90-94 | `add_child` keeps the store's integrity |
| Catalog.CreateProductKeepsValid | project/quick_seed.py:247-254 | a product whose class and categories exist keeps the store's integrity, and a taken UPC is refused |
| Catalog.AddProductCategoryKeepsValid | project/quick_seed.py:257 | linking a product to an existing category keeps the store's integrity |
| Catalog.CreateStockRecordKeepsValid | project/quick_seed.py:260-268 | a stock record of an existing partner keeps the store's integrity; a missing product and a taken SKU are refused |
| Storage.Store.DeleteAllProducts | project/quick_seed.py:23 | the store afterwards is `Catalog.DeleteAllProducts` of the store before, and the result counts the deleted products |
| Storage.Store.DeleteAllStockRecords | project/quick_seed.py:27 | the store afterwards is `Catalog.DeleteAllStockRecords` of the store before |
| Storage.Store.GetProductClass | project/quick_seed.py:33 | returns what `Catalog.GetProductClass` returns on the current store |
| Storage.Store.CreateProductClass | project/quick_seed.py:37-42 | the store afterwards is `Catalog.CreateProductClass` of the store before |
| Storage.Store.GetPartner | project/quick_seed.py:47 | returns what `Catalog.GetPartner` returns on the current store |
| Storage.Store.CreatePartner | project/quick_seed.py:51-54 | the store afterwards is `Catalog.CreatePartner` of the store before |
| Storage.Store.GetCategory | project/quick_seed.py:84 | returns what `Catalog.GetCategory` returns on the current store |
| Storage.Store.GetRoot | project/quick_seed.py:70 | returns what `Catalog.GetRoot` returns on the current store |
| Storage.Store.AddRoot | project/quick_seed.py:74-78 | result and store afterwards are `Catalog.AddRoot` of the store before |
| Storage.Store.AddChild | project/quick_seed.py:90-94 | result and store afterwards are `Catalog.AddChild` of the store before |
| Storage.Store.CreateProduct | project/quick_seed.py:247-254 | result, handle and store afterwards are `Catalog.CreateProduct` of the store before |
| Storage.Store.AddProductCategory | project/quick_seed.py:257 | result and store afterwards are `Catalog.AddProductCategory` of the store before |
| Storage.Store.CreateStockRecord | project/quick_seed.py:260-268 | result and store afterwards are `Catalog.CreateStockRecord` of the store before |
| Seed.Prepare | project/quick_seed.py:23-55 | after the reset there are no products and no stock records, whatever the store held; categories are untouched; class `digital` and partner `digitalstore` are kept when present and created only when absent |
| Seed.ResolveChild | project/quick_seed.py:83-106 | an existing child category is reused and the store is unchanged; a missing one is created under the root, or as a new depth-1 root when `add_child` raised |
| Seed.ResolveChildren | project/quick_seed.py:82-106 | the child loop keeps every existing slug and touches no class, partner, product or stock record; that existing categories also keep their values is `SeedProofs.OnlyChildrenAddedAll` |
| Seed.NewProduct | project/quick_seed.py:247-254 | defines item i's product: its title and description, class `digital`, STANDALONE, UPC i, discountable, no category yet; `SeedProofs.SeededProductFields` proves what the seeded products carry |
| Seed.NewStockRecord | project/quick_seed.py:260-268 | defines item i's stock record: its product, partner `digitalstore`, SKU i, RUB, the table price, the stock draw and a threshold of 10; `SeedProofs.SeededStockFields` proves what the seeded records carry |
| Seed.Complete | project/quick_seed.py:109-117 | defines the check `all([...])` over the six `categories_dict.get(slug)` values; `SeedProofs.PopulateCompletes` proves it always holds |
| Seed.SeedItem | project/quick_seed.py:241-275 | one item's pass touches no class, partner or category |
| Seed.SeedLoop | project/quick_seed.py:239-275 | `created_count` is at most the number of items, and the loop touches no class, partner or category |
| Seed.Populate | project/quick_seed.py:82-281 | defines the stages after the root lookup: resolve the children, check completeness, seed the items; `SeedProofs.PopulateCompletes`, `SeedProofs.PopulateListings`, `SeedProofs.PopulateCategories` and `SeedProofs.PopulateKeepsValid` prove what it does |
| Seed.Run | project/quick_seed.py:17-281 | defines the whole procedure: prepare, look up the root (raising on several, creating `all` on none), then populate; every `SeedProofs.Run…` row and the fault-free rows prove its properties, and `Seed.CleanAndSeed` is proved equal to it |
| Seed.CleanAndSeed | project/quick_seed.py:17-281 | the outcome and the store afterwards are exactly `Run` of the store before, with the script's table |
| Seed.Reseed | project/quick_seed.py:17-281 | the same, for any product table |
| Seed.PrepareStore | project/quick_seed.py:23-55 | the store afterwards is `Prepare` of the store before |
| Seed.PopulateStore | project/quick_seed.py:82-281 | the outcome and the store afterwards are `Populate` of the store before |
| Seed.ResolveChildCategories | project/quick_seed.py:82-106 | the loop fills `categories_dict` in place and leaves exactly what `ResolveChildren` gives after all the children |
| Seed.SeedProducts | project/quick_seed.py:239-275 | `created_count` and the store afterwards are exactly what `SeedLoop` gives after all the items |
| SeedProofs.ChildrenAreDistinct | project/quick_seed.py:59-66 | the six child slugs are distinct |
| SeedProofs.ChildSlugsCount | project/quick_seed.py:59-66 | distinct children have as many slugs as there are children |
| SeedProofs.ChildSlugsAre | project/quick_seed.py:59-66 | the child slugs are software, ebooks, courses, music, templates and assets |
| SeedProofs.NextChildFresh | project/quick_seed.py:82-106 | while the loop runs the root stays as it was, and a child slug is present before its turn only if it was present from the start |
| SeedProofs.DictMatchesAll | project/quick_seed.py:82-106 | after n children `categories_dict` has exactly their slugs, each mapped to the category stored under it |
| SeedProofs.OnlyChildrenAddedAll | project/quick_seed.py:82-106 | after n children the categories are the old ones plus exactly the children's slugs, and the old ones are unchanged |
| SeedProofs.MissingPlacedAll | project/quick_seed.py:87-106 | each missing child is created under the root, or as an independent root when `add_child` raised |
| SeedProofs.ChildrenResolved | project/quick_seed.py:82-106 | the three facts above hold together after any number of children |
| SeedProofs.SixEntries | project/quick_seed.py:82-106 | after the loop `categories_dict` holds exactly six entries, one per child slug (the count printed at line 280) |
| SeedProofs.ResolveChildKeepsValid | project/quick_seed.py:83-106 | resolving one child keeps the store's integrity |
| SeedProofs.ChildrenKeepValid | project/quick_seed.py:82-106 | the child loop keeps the store's integrity |
| SeedProofs.PrepareKeepsValid | project/quick_seed.py:23-55 | the reset and the class and partner step keep the store's integrity |
| SeedProofs.CountSucceeded | project/quick_seed.py:239-275 | the number of items among 1..n whose three calls all succeeded is at most n |
| SeedProofs.SeededProductsCount | project/quick_seed.py:247-254 | the reference listings hold one product per item whose product creation did not raise |
| SeedProofs.SeededProductsPrefix | project/quick_seed.py:240-275 | products created earlier are never removed or changed by later items: there is no rollback |
| SeedProofs.SeededProductsShape | project/quick_seed.py:243-257 | every seeded product is the listing of the item its UPC names, and that item's product creation did not raise |
| SeedProofs.SeededProductFields | project/quick_seed.py:247-257 | every seeded product has class `digital`, is STANDALONE and discountable, and is linked to nothing but its table category |
| SeedProofs.StockOfItemLater | project/quick_seed.py:240-275 | a stock record stays its item's record as the loop goes on |
| SeedProofs.SeededStockCount | project/quick_seed.py:260-270 | there is one stock record per item that succeeded |
| SeedProofs.SeededStockShape | project/quick_seed.py:260-268 | every stock record belongs to an item that succeeded and points at that item's product |
| SeedProofs.SeededStockFields | project/quick_seed.py:260-268 | every stock record has partner `digitalstore`, currency RUB, its item's price, a stock level in [100, 1000] and a threshold of 10 |
| SeedProofs.UpcsIncreaseSnoc | project/quick_seed.py:244-254 | appending a product whose UPC index is above all earlier ones keeps the UPC indices increasing |
| SeedProofs.SkusIncreaseSnoc | project/quick_seed.py:260-263 | appending a record whose SKU index is above all earlier ones keeps the SKU indices increasing |
| SeedProofs.ListingCodes | project/quick_seed.py:243-263 | item i's UPC and SKU both name index i |
| SeedProofs.SeededUpcsBelow | project/quick_seed.py:243-254 | the products of items 1..n carry UPC indices of at most n |
| SeedProofs.SeededSkusBelow | project/quick_seed.py:260-263 | the stock records of items 1..n carry SKU indices of at most n |
| SeedProofs.SeededProductsOrdered | project/quick_seed.py:243-254 | the seeded products' UPC indices strictly increase, so the UPCs are pairwise distinct |
| SeedProofs.SeededStockOrdered | project/quick_seed.py:260-263 | the seeded stock records' SKU indices strictly increase, so the SKUs are pairwise distinct |
| SeedProofs.UpcAbove | project/quick_seed.py:244-254 | a UPC whose index is above every index in use is not taken |
| SeedProofs.SkuAbove | project/quick_seed.py:260-263 | a SKU whose index is above every index in use is not taken |
| SeedProofs.FreshUpc | project/quick_seed.py:243-254 | item n's UPC is never taken by the products of items 1..n-1, whatever the timestamps |
| SeedProofs.FreshSku | project/quick_seed.py:260-268 | item n's SKU is never taken by the stock records of items 1..n-1, whatever the timestamps |
| SeedProofs.SeedItemExtends | project/quick_seed.py:241-275 | one pass on the listings of items 1..n-1 yields those of items 1..n, and it counts exactly when the item succeeded |
| SeedProofs.SeedLoopExtends | project/quick_seed.py:239-275 | one more turn of the loop keeps the loop equal to the reference listings and count |
| SeedProofs.SeedLoopCharacterized | project/quick_seed.py:239-275 | failure isolation: starting from no listings, the loop leaves exactly the reference listings and counts exactly the items whose every step succeeded; the store's UPC and SKU checks never fire |
| SeedProofs.CountWithFailures | project/quick_seed.py:239-275 | `created_count` plus the number of failed items is the number of items |
| SeedProofs.OneFailingItem | project/quick_seed.py:273-275 | when only item k fails, exactly k is the failed item and all the others are created |
| SeedProofs.NoFaultsNoFailures | project/quick_seed.py:239-275 | with no injected faults every item succeeds |
| SeedProofs.TableFacts | project/quick_seed.py:124-236 | the table has 50 items, each under one of the six child categories |
| SeedProofs.TableSections | project/quick_seed.py:124-236 | the table has 50 items: items 1-10 are software, 11-20 e-books, 21-30 courses, 31-40 music, 41-45 templates and 46-50 assets |
| SeedProofs.TablePricesPositive | project/quick_seed.py:124-236 | every table price is positive |
| SeedProofs.PopulateCompletes | project/quick_seed.py:109-119 | the completeness check never stops the run |
| SeedProofs.PopulateListings | project/quick_seed.py:82-281 | from no listings, the stages after the root lookup return the number of items that succeeded and leave exactly the reference listings |
| SeedProofs.PopulateCategories | project/quick_seed.py:82-106 | the stages after the root lookup keep classes, partners and existing categories, add exactly the six child slugs, and place each missing child |
| SeedProofs.SeededValid | project/quick_seed.py:239-275 | the reference listings keep the store's integrity once the class, the partner and the items' categories exist |
| SeedProofs.PopulateKeepsValid | project/quick_seed.py:82-281 | the stages after the root lookup keep the store's integrity |
| SeedProofs.RootCount | project/quick_seed.py:70 | two distinct depth-1 categories exist if and only if the root lookup finds at least two |
| SeedProofs.RunCases | project/quick_seed.py:69-79 | a run either raises at the root lookup, populates from the only root, creates `all` and populates from it, or raises at `add_root` |
| SeedProofs.RunListings | project/quick_seed.py:17-281 | a run never stops at the check; a run that raises leaves only the reset and reference data; a completed run returns the number of items that succeeded and leaves exactly the reference listings |
| SeedProofs.RunRaisesExactly | project/quick_seed.py:69-79 | a run raises `MultipleObjectsReturned` if and only if several roots exist, and raises at `add_root` if and only if there is no root while `all` is taken |
| SeedProofs.ValidRunNeverDuplicateSlug | project/quick_seed.py:69-79 | on a well-formed store a run never fails at `add_root`, so its only uncaught exception is `MultipleObjectsReturned` |
| SeedProofs.RunReferenceData | project/quick_seed.py:32-55 | after any run, class `digital` and partner `digitalstore` exist and are the records that already existed, if there were any; no other class or partner changes |
| SeedProofs.RunKeepsCategories | project/quick_seed.py:69-106 | categories are never deleted or changed, and a run that does not complete leaves them exactly as they were |
| SeedProofs.RunRootAndChildren | project/quick_seed.py:69-106 | a completed run adds exactly its root and the six children; the root is at depth 1, and with no root before it is a new `all` category |
| SeedProofs.ExistingRootAndChildren | project/quick_seed.py:69-71 | with one existing root, the run reuses it and adds only the six children |
| SeedProofs.NewRootAndChildren | project/quick_seed.py:72-79 | with no root, the run creates `all` and adds exactly it and the six children |
| SeedProofs.RunPlacesChildren | project/quick_seed.py:87-106 | in a completed run each missing child sits at depth 2 under the root, or is an independent root when `add_child` raised |
| SeedProofs.PopulatePlaces | project/quick_seed.py:87-106 | below a depth-1 root each missing child is placed at depth 2 or, after a fault, at depth 1 |
| SeedProofs.RootIsNoChild | project/quick_seed.py:59-76 | the root slug `all` is none of the child slugs |
| SeedProofs.RunPreservesValid | project/quick_seed.py:17-281 | a run keeps the store's integrity: the tree stays well formed, references stay valid, and UPCs and per-partner SKUs stay unique |
| SeedProofs.RunTwiceKeepsClassesAndPartners | project/quick_seed.py:32-55 | a second run leaves exactly the classes and partners the first run left: one `digital` class and one `digitalstore` partner, the same records both times |
| SeedProofs.RunTwiceKeepsCategories | project/quick_seed.py:69-106 | a second run leaves exactly the categories the first run left |
| SeedProofs.RaisedRunRaisesAgain | project/quick_seed.py:69-79 | after a run that raised, the next run raises too |
| SeedProofs.CompletedRunLeavesRoot | project/quick_seed.py:69-106 | a completed run leaves a depth-1 category and all six children |
| SeedProofs.SettledRunAddsNothing | project/quick_seed.py:69-106 | on a store with one root and all six children a run adds no category |
| SeedProofs.FallbackBreaksNextRun | project/quick_seed.py:97-106 | on a store with at most one root, and with `all` free when it has none, a fault in `add_child` for a missing child makes that child a second root beside the one the run used, so the next run raises `MultipleObjectsReturned` |
| SeedProofs.FaultFreeRunCompletes | project/quick_seed.py:17-281 | with no faults, at most one root, and `all` free if there is no root, a run creates every item |
| SeedProofs.FaultFreeValidRunCompletes | project/quick_seed.py:17-281 | with no faults, on a well-formed store with at most one root, a run creates every item |
| SeedProofs.FaultFreeRunLeavesOneRoot | project/quick_seed.py:69-106 | under the same hypotheses as `FaultFreeRunCompletes`, the run leaves exactly one depth-1 category, the root it used |
| SeedProofs.OnlyRoot | project/quick_seed.py:69-106 | if the old categories are kept, the root is at depth 1 and every new child is at depth 2, then the root is the only depth-1 category |
| SeedProofs.FaultFreeRunsCreateAll | project/quick_seed.py:17-281 | with no faults, on a store with at most one root and with `all` free when there is no root, a run and a second run right after it each create every item |
| SeedProofs.FaultFreeCleanAndSeedCreatesFifty | project/quick_seed.py:239-281 | with no faults, on a store with at most one root and with `all` free when there is no root, `clean_and_seed` returns 50, and returns 50 again when run a second time |
| SeedProofs.CleanAndSeedPreservesValid | project/quick_seed.py:17-281 | `clean_and_seed` keeps the store's integrity |

## Left out

- Progress output: all `print` narration, and the process bootstrap at lines 8-12 (`sys.path`, `DJANGO_SETTINGS_MODULE`, `django.setup()`).
- Storage.Store.DeleteAllProducts: returns the number of products deleted. Django's `deleted_count` also counts the cascaded stock records, and line 24 only prints it.
- Clock and randomness: `Env` supplies the timestamps and the stock draws. `ValidEnv` assumes a four-digit year, so that each timestamp is 14 digits.
- Prices: the `Decimal` prices are whole kopecks (`nat`). Every table price is a whole number of roubles.
- Django Oscar and treebeard internals are not modelled:
  - tree paths, `numchild` and sibling order;
  - slugs, dates and other default fields of a product;
  - the `Category` objects in `products_data`, which the model refers to by slug.
- Unique slugs: categories are keyed by slug, as the script's lookups `Category.objects.get(slug=...)` at line 84 presume. Oscar itself does not enforce this at the database level. A second category with a taken slug therefore cannot exist here, and `add_root` of a taken slug fails (outcome `DuplicateSlug`). The same holds for `Category.objects.get(slug=...)`, which here cannot raise `MultipleObjectsReturned`.
- Unguarded failures: only the four `try`-guarded calls can be made to fail. Database errors in the deletes, the class and partner lookups and creates, and the two `add_root` calls are not modelled; in the source they would end the run.
  - The fallback `add_root` at line 100 runs only for a slug that is still free, so in the model it always succeeds.
- Run report: the source only prints its summary. The per-category counts and failure list that a structured run report would hold are not modelled.
- Concurrency and transactions: the script is single-threaded and has no transaction boundary. Each call is its own unit, and the model has no rollback.
- Other files: `project/products/views.py`, `project/products/models.py` and `project/products/urls.py` are not part of this model.
