/** The reset-and-reseed procedure `clean_and_seed`: wipe the listings, get or
    create the reference data (product class, partner, root and six child
    categories), then create one product, its category link and its stock record
    for each of the 50 table items, skipping an item whose storage calls raise.

    The spec functions below (`Prepare`, `ResolveChild`, `ResolveChildren`,
    `SeedItem`, `SeedLoop`, `Populate`, `Run`) give the procedure's effect on a
    store value; the methods at the end run it against a `Storage.Store` and are
    proved to have exactly that effect. */
module Seed {
  import opened Codes
  import opened Catalog
  import opened Storage

  const DigitalSlug := "digital"
  const DigitalClass := ProductClass("Digital Products", false, false)
  const PartnerCode := "digitalstore"
  const DigitalPartner := Partner("Digital Store")
  const RootSlug := "all"
  const RootName := "Все товары"
  const RootDescription := "Все категории товаров"
  const Currency := "RUB"
  const LowStockThreshold := 10
  const MinStock := 100
  const MaxStock := 1000

  datatype ChildDef = ChildDef(slug: string, name: string)

  /** The child categories, in the order the script resolves them. */
  const Children: seq<ChildDef> := [
    ChildDef("software", "Программное обеспечение"),
    ChildDef("ebooks", "Электронные книги"),
    ChildDef("courses", "Онлайн-курсы"),
    ChildDef("music", "Музыка"),
    ChildDef("templates", "Шаблоны"),
    ChildDef("assets", "Ресурсы")
  ]

  function ChildDescription(name: string): string {
    "Категория " + name
  }

  /** One row of the product table; `price` is in kopecks (all table prices are whole roubles). */
  datatype Item = Item(title: string, category: string, price: nat, description: string)

  /** A row of one section of the table, before its category is attached. */
  datatype Row = Row(title: string, price: nat, description: string)

  /** The rows of one section, each listed under category `slug`. */
  function Section(slug: string, rows: seq<Row>): seq<Item>
  {
    seq(|rows|, k requires 0 <= k < |rows| => Item(rows[k].title, slug, rows[k].price, rows[k].description))
  }

  /** Items 1-10. */
  const SoftwareRows: seq<Row> := [
    Row("Office Suite Pro 2024", 699000,
        "Полный офисный пакет для дома и бизнеса. Включает текстовый редактор, таблицы и презентации."),
    Row("PhotoEditor AI", 1299000,
        "Редактор фотографий с искусственным интеллектом. Автоматическое улучшение и ретушь."),
    Row("VideoStudio Ultimate", 1799000,
        "Профессиональный видеоредактор с эффектами и переходом."),
    Row("Antivirus Security", 399000,
        "Защита от вирусов и вредоносного ПО. Ежедневные обновления баз."),
    Row("CodeEditor Pro", 599000,
        "Продвинутый редактор кода для разработчиков. Поддержка всех языков."),
    Row("3D Modeler", 2299000,
        "Программа для 3D моделирования и анимации."),
    Row("AudioMaster Studio", 1499000,
        "Профессиональная студия звукозаписи и обработки."),
    Row("Database Manager", 899000,
        "Управление базами данных SQL и NoSQL."),
    Row("Network Scanner", 499000,
        "Анализ и мониторинг компьютерных сетей."),
    Row("Backup System", 299000,
        "Автоматическое резервное копирование данных.")
  ]

  /** Items 11-20. */
  const EbookRows: seq<Row> := [
    Row("Python Programming Guide", 149000,
        "Полное руководство по программированию на Python. От основ до продвинутых тем."),
    Row("Web Development Handbook", 199000,
        "Современная веб-разработка: HTML, CSS, JavaScript, React."),
    Row("Data Science Fundamentals", 179000,
        "Основы анализа данных и машинного обучения."),
    Row("Business Strategy 2024", 249000,
        "Стратегии развития бизнеса в цифровую эпоху."),
    Row("Digital Marketing Mastery", 169000,
        "Эффективный маркетинг в социальных сетях и интернете."),
    Row("UI/UX Design Principles", 189000,
        "Принципы проектирования пользовательских интерфейсов."),
    Row("Cybersecurity Basics", 159000,
        "Основы защиты информации и кибербезопасности."),
    Row("Mobile App Development", 209000,
        "Разработка мобильных приложений для iOS и Android."),
    Row("Cloud Computing Guide", 179000,
        "Работа с облачными технологиями AWS и Azure."),
    Row("DevOps Practices", 199000,
        "Современные практики разработки и эксплуатации.")
  ]

  /** Items 21-30. */
  const CourseRows: seq<Row> := [
    Row("Full Stack Web Developer", 4999000,
        "Полный курс по веб-разработке. От HTML до React и Node.js."),
    Row("Data Science Professional", 5999000,
        "Профессиональный курс по анализу данных и машинному обучению."),
    Row("UI/UX Design Bootcamp", 4499000,
        "Интенсивный курс по дизайну пользовательских интерфейсов."),
    Row("Digital Marketing Expert", 3999000,
        "Комплексный курс по цифровому маркетингу."),
    Row("Mobile Development Pro", 5499000,
        "Разработка нативных и кросс-платформенных мобильных приложений."),
    Row("Cybersecurity Specialist", 6499000,
        "Подготовка специалистов по информационной безопасности."),
    Row("Cloud Architecture", 5299000,
        "Проектирование и развертывание облачных решений."),
    Row("DevOps Engineering", 5799000,
        "Курс по автоматизации процессов разработки и эксплуатации."),
    Row("Game Development", 4799000,
        "Создание игр на Unity и Unreal Engine."),
    Row("AI & Machine Learning", 6999000,
        "Продвинутый курс по искусственному интеллекту.")
  ]

  /** Items 31-40. */
  const MusicRows: seq<Row> := [
    Row("Electronic Vibes Collection", 149000,
        "Коллекция электронных треков для видео и проектов."),
    Row("Relaxation & Meditation", 99000,
        "Расслабляющая музыка для медитации и отдыха."),
    Row("Cinematic Soundtracks", 199000,
        "Эпические саундтреки для видео и презентаций."),
    Row("Jazz Classics", 129000,
        "Классические джазовые композиции в современной обработке."),
    Row("Ambient Nature Sounds", 79000,
        "Звуки природы: лес, океан, дождь."),
    Row("Rock Collection 2024", 169000,
        "Сборник современных рок-композиций."),
    Row("Sound Effects Library", 299000,
        "Библиотека звуковых эффектов для видео и игр."),
    Row("Classical Masterpieces", 139000,
        "Шедевры классической музыки."),
    Row("Lo-Fi Beats", 119000,
        "Расслабляющие Lo-Fi композиции для работы и учебы."),
    Row("World Music Collection", 159000,
        "Музыка разных народов и культур.")
  ]

  /** Items 41-45. */
  const TemplateRows: seq<Row> := [
    Row("Corporate Website Template", 799000,
        "Готовый шаблон корпоративного сайта на Bootstrap 5."),
    Row("E-commerce Store Template", 1199000,
        "Шаблон интернет-магазина с корзиной и каталогом."),
    Row("Portfolio for Creatives", 499000,
        "Элегантный шаблон портфолио для дизайнеров и фотографов."),
    Row("Landing Page Builder", 399000,
        "Конструктор лендингов с drag-and-drop интерфейсом."),
    Row("Admin Dashboard Template", 899000,
        "Шаблон административной панели с графиками и таблицами.")
  ]

  /** Items 46-50. */
  const AssetRows: seq<Row> := [
    Row("UI Kit - Modern Design", 599000,
        "Комплект UI компонентов в современном стиле."),
    Row("Icon Pack - 1000+ Icons", 299000,
        "Набор из более чем 1000 векторных иконок."),
    Row("Font Collection - Pro", 499000,
        "Коллекция профессиональных шрифтов для коммерческого использования."),
    Row("Texture Pack - 4K", 399000,
        "Набор текстур высокого разрешения для дизайна."),
    Row("3D Models - Premium", 999000,
        "Коллекция 3D моделей для игр и визуализации.")
  ]

  /** The product table, section by section in the order of the script. */
  const Table: seq<Item> :=
    Section("software", SoftwareRows)
    + Section("ebooks", EbookRows)
    + Section("courses", CourseRows)
    + Section("music", MusicRows)
    + Section("templates", TemplateRows)
    + Section("assets", AssetRows)

  /** Which guarded storage calls the environment makes raise: `add_child` by child
      slug, and the three per-item calls by 1-based item index. */
  datatype Faults = Faults(
    addChild: set<string>,
    createProduct: set<nat>,
    addCategory: set<nat>,
    createStock: set<nat>)

  /** Everything the run reads from outside the store: the faults, the timestamp read
      for each item, and the `random.randint(100, 1000)` draw for each item. */
  datatype Env = Env(faults: Faults, stamps: seq<string>, draws: seq<int>)

  /** The clock and the random draws behave as documented, for `n` items. */
  predicate ValidEnv(env: Env, n: nat) {
    && |env.stamps| == n
    && |env.draws| == n
    && (forall k :: 0 <= k < n ==> IsStamp(env.stamps[k]))
    && (forall k :: 0 <= k < n ==> MinStock <= env.draws[k] <= MaxStock)
  }

  /** The exceptions the script does not catch, which end the run. */
  datatype Failure =
    | MultipleRoots   // `Category.objects.get(depth=1)` finds several roots
    | DuplicateSlug   // `add_root` of "all" while "all" is a non-root category

  datatype Outcome =
    | Completed(created: nat)   // `return created_count`
    | Stopped                   // the completeness check's bare `return`
    | Raised(error: Failure)

  /** Lines 23-55: wipe products and stock records, then get or create the
      product class and the partner. */
  function Prepare(db: Db): (r: Db)
    ensures r.products == [] && r.stock == []
    ensures r.categories == db.categories
    ensures r.classes == if DigitalSlug in db.classes then db.classes else db.classes[DigitalSlug := DigitalClass]
    ensures r.partners == if PartnerCode in db.partners then db.partners else db.partners[PartnerCode := DigitalPartner]
  {
    var d1 := DeleteAllStockRecords(DeleteAllProducts(db));
    var d2 := if GetProductClass(d1, DigitalSlug).Some? then d1 else CreateProductClass(d1, DigitalSlug, DigitalClass);
    if GetPartner(d2, PartnerCode).Some? then d2 else CreatePartner(d2, PartnerCode, DigitalPartner)
  }

  /** Where a child category that did not exist ends up: under the root, or as an
      independent root when `add_child` raised. */
  function PlacedChild(db: Db, root: string, child: ChildDef, fault: bool): Category
    requires root in db.categories
  {
    if fault then Category(child.name, ChildDescription(child.name), 1, None)
    else Category(child.name, ChildDescription(child.name), db.categories[root].depth + 1, Some(root))
  }

  /** Lines 83-106 for one child: reuse the category with that slug, or create it
      under the root, falling back to a new root when that raises. */
  function ResolveChild(db: Db, root: string, child: ChildDef, fault: bool): (r: (Category, Db))
    requires root in db.categories
    ensures child.slug in db.categories ==> r == (db.categories[child.slug], db)
    ensures child.slug !in db.categories ==>
      var c := PlacedChild(db, root, child, fault);
      r == (c, db.(categories := db.categories[child.slug := c]))
  {
    match GetCategory(db, child.slug)
    case Some(c) => (c, db)
    case None =>
      var desc := ChildDescription(child.name);
      var (ok, d) := AddChild(db, root, child.slug, child.name, desc, fault);
      if ok then (d.categories[child.slug], d)
      else
        var (_, d') := AddRoot(d, child.slug, child.name, desc);
        (d'.categories[child.slug], d')
  }

  function ChildSlugs(children: seq<ChildDef>, n: nat): (r: set<string>)
    requires n <= |children|
  {
    set k | 0 <= k < n :: children[k].slug
  }

  /** The loop at lines 82-106 over the first `n` of `children`: `categories_dict`
      and the store. */
  function ResolveChildren(db: Db, root: string, children: seq<ChildDef>, faults: set<string>, n: nat): (r: (map<string, Category>, Db))
    requires root in db.categories && n <= |children|
    ensures db.categories.Keys <= r.1.categories.Keys
    ensures r.1.classes == db.classes && r.1.partners == db.partners
    ensures r.1.products == db.products && r.1.stock == db.stock
  {
    if n == 0 then (map[], db)
    else
      var prev := ResolveChildren(db, root, children, faults, n - 1);
      var child := children[n - 1];
      var next := ResolveChild(prev.1, root, child, child.slug in faults);
      (prev.0[child.slug := next.0], next.1)
  }

  /** Line 117: `all([...])` over the six `categories_dict.get(slug)` values. */
  predicate Complete(cats: map<string, Category>) {
    forall k | 0 <= k < |Children| :: Children[k].slug in cats
  }

  /** The product created for item `i` (line 247); it has no category yet. */
  function NewProduct(item: Item, stamp: string, i: nat): Product {
    Product(item.title, item.description, DigitalSlug, Standalone, Upc(stamp, i), true, {})
  }

  /** The stock record created for item `i` (line 260), for product handle `id`. */
  function NewStockRecord(item: Item, id: nat, stamp: string, i: nat, draw: int): StockRecord {
    StockRecord(id, PartnerCode, Sku(stamp, i), Currency, item.price, draw, LowStockThreshold)
  }

  /** One pass of the loop body at lines 241-275 for the 1-based item `i`: whether it
      reached `created_count += 1`, and the store afterwards. No rollback: a product
      whose later steps raise stays in the store. */
  function SeedItem(db: Db, items: seq<Item>, env: Env, i: nat): (r: (bool, Db))
    requires ValidEnv(env, |items|) && 1 <= i <= |items|
    ensures r.1.classes == db.classes && r.1.partners == db.partners && r.1.categories == db.categories
  {
    var item := items[i - 1];
    var stamp := env.stamps[i - 1];
    var (created, id, d1) := CreateProduct(db, NewProduct(item, stamp, i), i in env.faults.createProduct);
    if !created then (false, d1)
    else
      var (linked, d2) := AddProductCategory(d1, id, item.category, i in env.faults.addCategory);
      if !linked then (false, d2)
      else CreateStockRecord(d2, NewStockRecord(item, id, stamp, i, env.draws[i - 1]), i in env.faults.createStock)
  }

  /** The loop at lines 240-275 over the first `n` of `items`: `created_count` and the store. */
  function SeedLoop(db: Db, items: seq<Item>, env: Env, n: nat): (r: (nat, Db))
    requires ValidEnv(env, |items|) && n <= |items|
    ensures r.0 <= n
    ensures r.1.classes == db.classes && r.1.partners == db.partners && r.1.categories == db.categories
  {
    if n == 0 then (0, db)
    else
      var (count, d) := SeedLoop(db, items, env, n - 1);
      var (ok, d') := SeedItem(d, items, env, n);
      (if ok then count + 1 else count, d')
  }

  /** Lines 82-281, once the root is known: resolve the children, check
      completeness, seed the items of the product table `items`. */
  function Populate(db: Db, root: string, items: seq<Item>, env: Env): (r: (Outcome, Db))
    requires ValidEnv(env, |items|) && root in db.categories
  {
    var (cats, d) := ResolveChildren(db, root, Children, env.faults.addChild, |Children|);
    if !Complete(cats) then (Stopped, d)
    else
      var (created, d') := SeedLoop(d, items, env, |items|);
      (Completed(created), d')
  }

  /** The whole of `clean_and_seed` with product table `items`: its outcome and the
      store it leaves behind. The script itself always seeds `Table`. */
  ghost function Run(db: Db, items: seq<Item>, env: Env): (r: (Outcome, Db))
    requires ValidEnv(env, |items|)
  {
    var d := Prepare(db);
    match GetRoot(d)
    case ManyRoots => (Raised(MultipleRoots), d)
    case OneRoot(root) => Populate(d, root, items, env)
    case NoRoot =>
      var (ok, d') := AddRoot(d, RootSlug, RootName, RootDescription);
      if ok then Populate(d', RootSlug, items, env) else (Raised(DuplicateSlug), d')
  }

  /** `clean_and_seed` run against the store. */
  method CleanAndSeed(store: Store, env: Env) returns (outcome: Outcome)
    requires ValidEnv(env, |Table|)
    modifies store
    ensures (outcome, store.State()) == Run(old(store.State()), Table, env)
  {
    outcome := Reseed(store, Table, env);
  }

  /** The body of `clean_and_seed` for product table `items`. */
  method Reseed(store: Store, items: seq<Item>, env: Env) returns (outcome: Outcome)
    requires ValidEnv(env, |items|)
    modifies store
    ensures (outcome, store.State()) == Run(old(store.State()), items, env)
  {
    PrepareStore(store);
    var lookup := store.GetRoot();
    match lookup {
      case ManyRoots =>
        return Raised(MultipleRoots);
      case OneRoot(root) =>
        outcome := PopulateStore(store, root, items, env);
      case NoRoot =>
        var ok := store.AddRoot(RootSlug, RootName, RootDescription);
        if !ok {
          return Raised(DuplicateSlug);
        }
        outcome := PopulateStore(store, RootSlug, items, env);
    }
  }

  /** Lines 23-55 run against the store. */
  method PrepareStore(store: Store)
    modifies store
    ensures store.State() == Prepare(old(store.State()))
  {
    var deleted := store.DeleteAllProducts();
    store.DeleteAllStockRecords();
    var digitalClass := store.GetProductClass(DigitalSlug);
    if digitalClass.None? {
      store.CreateProductClass(DigitalSlug, DigitalClass);
    }
    var partner := store.GetPartner(PartnerCode);
    if partner.None? {
      store.CreatePartner(PartnerCode, DigitalPartner);
    }
  }

  /** Lines 82-281 run against the store, once the root is known. */
  method PopulateStore(store: Store, root: string, items: seq<Item>, env: Env) returns (outcome: Outcome)
    requires ValidEnv(env, |items|) && root in store.categories
    modifies store
    ensures (outcome, store.State()) == Populate(old(store.State()), root, items, env)
  {
    var cats := ResolveChildCategories(store, root, Children, env.faults.addChild);
    if !Complete(cats) {
      return Stopped;
    }
    var created := SeedProducts(store, items, env);
    return Completed(created);
  }

  /** The loop at lines 82-106, filling `categories_dict` in place. */
  method ResolveChildCategories(store: Store, root: string, children: seq<ChildDef>, faults: set<string>)
    returns (cats: map<string, Category>)
    requires root in store.categories
    modifies store
    ensures (cats, store.State()) == ResolveChildren(old(store.State()), root, children, faults, |children|)
  {
    cats := map[];
    var k := 0;
    while k < |children|
      invariant 0 <= k <= |children|
      invariant (cats, store.State()) == ResolveChildren(old(store.State()), root, children, faults, k)
    {
      var child := children[k];
      var found := store.GetCategory(child.slug);
      match found {
        case Some(c) =>
          cats := cats[child.slug := c];
        case None =>
          var desc := ChildDescription(child.name);
          var ok := store.AddChild(root, child.slug, child.name, desc, child.slug in faults);
          if !ok {
            ok := store.AddRoot(child.slug, child.name, desc);
          }
          cats := cats[child.slug := store.categories[child.slug]];
      }
      k := k + 1;
    }
  }

  /** The loop at lines 239-275, counting the items that were created in full. */
  method SeedProducts(store: Store, items: seq<Item>, env: Env) returns (created: nat)
    requires ValidEnv(env, |items|)
    modifies store
    ensures (created, store.State()) == SeedLoop(old(store.State()), items, env, |items|)
  {
    created := 0;
    var i := 1;
    while i <= |items|
      invariant 1 <= i <= |items| + 1
      invariant (created, store.State()) == SeedLoop(old(store.State()), items, env, i - 1)
    {
      var item := items[i - 1];
      var stamp := env.stamps[i - 1];
      var ok, id := store.CreateProduct(NewProduct(item, stamp, i), i in env.faults.createProduct);
      if ok {
        ok := store.AddProductCategory(id, item.category, i in env.faults.addCategory);
        if ok {
          ok := store.CreateStockRecord(NewStockRecord(item, id, stamp, i, env.draws[i - 1]), i in env.faults.createStock);
          if ok {
            created := created + 1;
          }
        }
      }
      i := i + 1;
    }
  }
}
