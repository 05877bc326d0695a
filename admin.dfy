/** The product catalog and admin session of admin.js: `AdminManager` keeps
    the product list and the session in fields, updates them in place and
    writes them back to the browser's storage, modelled here as fields of
    their own. */
module AdminStore {
  import opened Lists
  import opened Products
  import opened CatalogQueries

  // ---- session ----

  /** The stored session. `loginTime` is an instant in milliseconds. */
  datatype Session = Session(email: string, loginTime: int, rememberMe: bool)

  /** The demo accounts `login` accepts, as (email, password) pairs. */
  const Credentials: seq<(string, string)> :=
    [("admin@moderninventory.com", "admin123"), ("demo@admin.com", "demo123")]

  /** `validCredentials.some(...)`: some account has this email and password. */
  predicate IsValidLogin(email: string, password: string) {
    exists i | 0 <= i < |Credentials| :: Credentials[i].0 == email && Credentials[i].1 == password
  }

  /** Exactly the two demo accounts log in. */
  lemma ValidLogins(email: string, password: string)
    ensures IsValidLogin(email, password) <==>
      || (email == "admin@moderninventory.com" && password == "admin123")
      || (email == "demo@admin.com" && password == "demo123")
  {
    if (email == "admin@moderninventory.com" && password == "admin123") {
      assert Credentials[0].0 == email && Credentials[0].1 == password;
    }
    if (email == "demo@admin.com" && password == "demo123") {
      assert Credentials[1].0 == email && Credentials[1].1 == password;
    }
  }

  /** More than 24 hours have passed since `loginTime`, measured in hours as
      `checkSession` does. */
  function SessionExpired(loginTime: int, now: int): (expired: bool)
    ensures expired <==> now - loginTime > 86400000
  {
    (now - loginTime) as real / (1000.0 * 60.0 * 60.0) > 24.0
  }

  // ---- catalog edits ----

  /** The form data `addProduct` spreads into the new record. It may carry an
      `id`, which then wins over the generated one; a `createdAt` it carries
      is always overwritten, so it is not kept. */
  datatype ProductData = ProductData(
    id: Option<int>,
    name: string,
    category: string,
    price: real,
    quantity: int,
    image: Option<string>,
    updatedAt: Option<int>)

  /** `{ id: Date.now(), ...productData, createdAt }`. */
  function NewProduct(data: ProductData, genId: int, stamp: int): (p: Product)
    ensures p.createdAt == Some(stamp)
    ensures data.id.None? ==> p.id == genId
    ensures data.id.Some? ==> p.id == data.id.value
    ensures p.name == data.name && p.category == data.category
    ensures p.price == data.price && p.quantity == data.quantity
    ensures p.image == data.image && p.updatedAt == data.updatedAt
  {
    Product(data.id.GetOr(genId), data.name, data.category, data.price, data.quantity,
      data.image, Some(stamp), data.updatedAt)
  }

  /** The fields an `updateProduct` patch carries; `None` marks a field it
      leaves alone. */
  datatype ProductPatch = ProductPatch(
    id: Option<int>,
    name: Option<string>,
    category: Option<string>,
    price: Option<real>,
    quantity: Option<int>,
    image: Option<string>,
    createdAt: Option<int>)

  const NoChanges := ProductPatch(None, None, None, None, None, None, None)

  function Override<T>(current: Option<T>, patch: Option<T>): Option<T> {
    if patch.Some? then patch else current
  }

  /** `{ ...product, ...patch, updatedAt }`: the patch's fields win, and the
      record is stamped. */
  function Merge(p: Product, patch: ProductPatch, now: int): (q: Product)
    ensures q.updatedAt == Some(now)
    ensures q.id == if patch.id.Some? then patch.id.value else p.id
    ensures q.name == if patch.name.Some? then patch.name.value else p.name
    ensures q.category == if patch.category.Some? then patch.category.value else p.category
    ensures q.price == if patch.price.Some? then patch.price.value else p.price
    ensures q.quantity == if patch.quantity.Some? then patch.quantity.value else p.quantity
    ensures q.image == (if patch.image.Some? then patch.image else p.image)
    ensures q.createdAt == (if patch.createdAt.Some? then patch.createdAt else p.createdAt)
    ensures patch == NoChanges ==> q == p.(updatedAt := Some(now))
  {
    Product(patch.id.GetOr(p.id), patch.name.GetOr(p.name), patch.category.GetOr(p.category),
      patch.price.GetOr(p.price), patch.quantity.GetOr(p.quantity),
      Override(p.image, patch.image), Override(p.createdAt, patch.createdAt), Some(now))
  }

  /** Applying the same patch twice is applying it once, stamped later. */
  lemma MergeTwice(p: Product, patch: ProductPatch, t1: int, t2: int)
    ensures Merge(Merge(p, patch, t1), patch, t2) == Merge(p, patch, t2)
  {
  }

  /** The catalog after an edit of one product, and that product: the updated
      or deleted record, or `None` for "Product not found". */
  datatype Change = Change(products: seq<Product>, product: Option<Product>)

  /** `updateProduct(id, patch)`. */
  function ProductUpdated(ps: seq<Product>, id: int, patch: ProductPatch, now: int): (c: Change)
    ensures c.product.Some? <==> id in Ids(ps)
    ensures c.product.None? ==> c.products == ps
    ensures c.product.Some? ==>
      var k := IndexOf(Ids(ps), id);
      && |c.products| == |ps|
      && c.products[k] == c.product.value == Merge(ps[k], patch, now)
      && forall j :: 0 <= j < |ps| && j != k ==> c.products[j] == ps[j]
  {
    var k := IndexOf(Ids(ps), id);
    if k < 0 then Change(ps, None)
    else
      var q := Merge(ps[k], patch, now);
      Change(ps[k := q], Some(q))
  }

  /** An update that does not touch the id keeps every id in place, and the
      updated record is what a lookup of the id finds. */
  lemma UpdatedFind(ps: seq<Product>, id: int, patch: ProductPatch, now: int)
    requires patch.id.None? && id in Ids(ps)
    ensures Ids(ProductUpdated(ps, id, patch, now).products) == Ids(ps)
    ensures Find(ProductUpdated(ps, id, patch, now).products, id) == ProductUpdated(ps, id, patch, now).product
  {
    var c := ProductUpdated(ps, id, patch, now);
    assert Ids(c.products) == Ids(ps);
  }

  /** `deleteProduct(id)`. */
  function ProductDeleted(ps: seq<Product>, id: int): (c: Change)
    ensures c.product.Some? <==> id in Ids(ps)
    ensures c.product.None? ==> c.products == ps
    ensures c.product.Some? ==>
      && c.product == Find(ps, id)
      && c.products == RemoveAt(ps, IndexOf(Ids(ps), id))
      && |c.products| == |ps| - 1
      && multiset(c.products) + multiset{c.product.value} == multiset(ps)
  {
    var k := IndexOf(Ids(ps), id);
    if k < 0 then Change(ps, None) else Change(RemoveAt(ps, k), Some(ps[k]))
  }

  /** With unique ids, a deleted product can no longer be found and the
      remaining ids stay unique. */
  lemma DeletedFind(ps: seq<Product>, id: int)
    requires Unique(Ids(ps)) && id in Ids(ps)
    ensures var rest := ProductDeleted(ps, id).products;
      && Find(rest, id).None?
      && Unique(Ids(rest))
  {
    var k := IndexOf(Ids(ps), id);
    FindRemoved(ps, k);
    IdsRemoveAt(ps, k);
    RemoveAtUnique(Ids(ps), k);
  }

  /** The catalog's seed. */
  const SampleProducts: seq<Product> := [
    Product(1, "Wireless Headphones Pro", "Electronics", 299.99, 15,
      Some("https://picsum.photos/seed/headphones/400/300"), None, None),
    Product(2, "Smart Watch Ultra", "Electronics", 449.99, 8,
      Some("https://picsum.photos/seed/smartwatch/400/300"), None, None),
    Product(3, "Premium Leather Jacket", "Clothing", 599.99, 12,
      Some("https://picsum.photos/seed/jacket/400/300"), None, None),
    Product(4, "JavaScript: The Complete Guide", "Books", 49.99, 25,
      Some("https://picsum.photos/seed/jsbook/400/300"), None, None),
    Product(5, "Smart Home Hub", "Electronics", 199.99, 20,
      Some("https://picsum.photos/seed/smarthome/400/300"), None, None),
    Product(6, "Yoga Mat Premium", "Sports", 79.99, 30,
      Some("https://picsum.photos/seed/yogamat/400/300"), None, None)
  ]

  /** No two seed products share an id. */
  lemma SampleIdsUnique()
    ensures Unique(Ids(SampleProducts))
  {
    assert Ids(SampleProducts) == [1, 2, 3, 4, 5, 6];
  }

  /** The seed holds 110 units worth 22948.90 in all. */
  lemma SampleTotals()
    ensures TotalStock(SampleProducts) == 110
    ensures TotalValue(SampleProducts) == 22948.90
  {
    var ps := SampleProducts;
    assert ps[..1][..0] == ps[..0];
    assert TotalStock(ps[..1]) == 15 && TotalValue(ps[..1]) == 4499.85;
    assert ps[..2][..1] == ps[..1];
    assert TotalStock(ps[..2]) == 23 && TotalValue(ps[..2]) == 8099.77;
    assert ps[..3][..2] == ps[..2];
    assert TotalStock(ps[..3]) == 35 && TotalValue(ps[..3]) == 15299.65;
    assert ps[..4][..3] == ps[..3];
    assert TotalStock(ps[..4]) == 60 && TotalValue(ps[..4]) == 16549.40;
    assert ps[..5][..4] == ps[..4];
    assert TotalStock(ps[..5]) == 80 && TotalValue(ps[..5]) == 20549.20;
    assert ps[..6][..5] == ps[..5];
    assert ps[..6] == ps;
  }

  /** Exactly one seed product, the smart watch, has fewer than 10 units. */
  lemma SampleLowStock()
    ensures Select(SampleProducts, StockBelow(10)) == [SampleProducts[1]]
  {
    var ps := SampleProducts;
    assert ps[..1][..0] == ps[..0];
    assert Select(ps[..1], StockBelow(10)) == [];
    assert ps[..2][..1] == ps[..1];
    assert Select(ps[..2], StockBelow(10)) == [ps[1]];
    assert ps[..3][..2] == ps[..2];
    assert Select(ps[..3], StockBelow(10)) == [ps[1]];
    assert ps[..4][..3] == ps[..3];
    assert Select(ps[..4], StockBelow(10)) == [ps[1]];
    assert ps[..5][..4] == ps[..4];
    assert Select(ps[..5], StockBelow(10)) == [ps[1]];
    assert ps[..6][..5] == ps[..5];
    assert ps[..6] == ps;
  }

  class AdminManager {
    var products: seq<Product>
    /** The stored catalog; `None` when nothing was stored. */
    var saved: Option<seq<Product>>
    var session: Option<Session>
    /** The stored session. */
    var savedSession: Option<Session>
    /** The email remembered by a "remember me" login. */
    var rememberedEmail: Option<string>

    /** Restores the stored session, dropping it when it has expired, and
        loads the stored catalog, seeding and storing the sample products when
        none was stored. */
    constructor (storedSession: Option<Session>, storedProducts: Option<seq<Product>>, storedEmail: Option<string>, now: int)
      ensures products == storedProducts.GetOr(SampleProducts)
      ensures saved == Some(products)
      ensures var live := storedSession.Some? && !SessionExpired(storedSession.value.loginTime, now);
        session == (if live then storedSession else None)
        && savedSession == (if live then storedSession else None)
      ensures rememberedEmail == storedEmail
    {
      products := [];
      saved := storedProducts;
      session := None;
      savedSession := storedSession;
      rememberedEmail := storedEmail;
      new;
      var _ := CheckSession(now);
      LoadProducts();
    }

    /** `checkSession`: a stored session is restored, unless more than 24
        hours have passed since its login, in which case the admin is logged
        out. Reports whether a live session was found. */
    method CheckSession(now: int) returns (active: bool)
      modifies this`session, this`savedSession
      ensures active <==> old(savedSession).Some? && !SessionExpired(old(savedSession).value.loginTime, now)
      ensures old(savedSession).None? ==> session == old(session) && savedSession == None
      ensures old(savedSession).Some? ==>
        session == (if active then old(savedSession) else None) && savedSession == session
    {
      if savedSession.Some? {
        session := savedSession;
        if SessionExpired(session.value.loginTime, now) {
          Logout();
          active := false;
        } else {
          active := true;
        }
      } else {
        active := false;
      }
    }

    /** `login`: a demo account starts a session stamped `now` and stores it;
        "remember me" also stores the email. Anything else changes nothing. */
    method Login(now: int, email: string, password: string, rememberMe: bool := false) returns (ok: bool)
      modifies this`session, this`savedSession, this`rememberedEmail
      ensures ok <==> IsValidLogin(email, password)
      ensures ok ==> session == Some(Session(email, now, rememberMe)) && savedSession == session
      ensures !ok ==> session == old(session) && savedSession == old(savedSession)
      ensures rememberedEmail == if ok && rememberMe then Some(email) else old(rememberedEmail)
    {
      ok := IsValidLogin(email, password);
      if ok {
        session := Some(Session(email, now, rememberMe));
        savedSession := session;
        if rememberMe {
          rememberedEmail := Some(email);
        }
      }
    }

    /** `logout`: ends the session and forgets the stored one. */
    method Logout()
      modifies this`session, this`savedSession
      ensures session == None && savedSession == None
    {
      session := None;
      savedSession := None;
    }

    /** `loadProducts`. */
    method LoadProducts()
      modifies this`products, this`saved
      ensures products == old(saved).GetOr(SampleProducts)
      ensures saved == Some(products)
    {
      if saved.Some? {
        products := saved.value;
      } else {
        products := SampleProducts;
        SaveProducts();
      }
    }

    /** `saveProducts`. */
    method SaveProducts()
      modifies this`saved
      ensures saved == Some(products)
    {
      saved := Some(products);
    }

    /** `addProduct`: appends exactly the new record and stores the catalog. */
    method AddProduct(data: ProductData, genId: int, stamp: int) returns (p: Product)
      modifies this`products, this`saved
      ensures p == NewProduct(data, genId, stamp)
      ensures products == old(products) + [p]
      ensures saved == Some(products)
    {
      p := NewProduct(data, genId, stamp);
      products := products + [p];
      SaveProducts();
    }

    /** `updateProduct`: stores the catalog only when the product was found. */
    method UpdateProduct(id: int, patch: ProductPatch, now: int) returns (r: Option<Product>)
      modifies this`products, this`saved
      ensures Change(products, r) == ProductUpdated(old(products), id, patch, now)
      ensures saved == if r.Some? then Some(products) else old(saved)
    {
      var k := IndexOf(Ids(products), id);
      if k != -1 {
        products := products[k := Merge(products[k], patch, now)];
        SaveProducts();
        r := Some(products[k]);
      } else {
        r := None;
      }
    }

    /** `deleteProduct`: stores the catalog only when the product was found. */
    method DeleteProduct(id: int) returns (r: Option<Product>)
      modifies this`products, this`saved
      ensures Change(products, r) == ProductDeleted(old(products), id)
      ensures saved == if r.Some? then Some(products) else old(saved)
    {
      var k := IndexOf(Ids(products), id);
      if k != -1 {
        var deleted := products[k];
        products := RemoveAt(products, k);
        SaveProducts();
        r := Some(deleted);
      } else {
        r := None;
      }
    }

    /** `getProduct`: the first product with this id. */
    function GetProduct(id: int): (r: Option<Product>)
      reads this
      ensures r.Some? <==> id in Ids(products)
      ensures r.Some? ==> r.value in products && r.value.id == id
      ensures r.Some? ==> r.value == products[IndexOf(Ids(products), id)]
    {
      Find(products, id)
    }

    /** `getAllProducts`: a copy of the catalog. */
    function GetAllProducts(): seq<Product>
      reads this
    {
      products
    }

    /** `filterProducts`: the products matching the term (when given) in name
        or category, and the category (when given) exactly. */
    function FilterProducts(term: string := "", category: string := ""): (r: seq<Product>)
      reads this
      ensures forall p :: p in r <==>
        p in products
        && (term == "" || MatchesTerm(p, term))
        && (category == "" || p.category == category)
    {
      SelectExactly(products, Search(term, category));
      Select(products, Search(term, category))
    }

    /** `advancedSearch`: the products meeting every filter that is set. */
    function AdvancedSearch(filters: SearchFilters): (r: seq<Product>)
      reads this
      ensures forall p :: p in r <==> p in products && Matches(p, Advanced(filters))
    {
      SelectExactly(products, Advanced(filters));
      Select(products, Advanced(filters))
    }

    /** `getLowStockAlerts`: the products with at most `threshold` units. */
    function GetLowStockAlerts(threshold: int := 10): (r: seq<Product>)
      reads this
      ensures forall p :: p in r <==> p in products && p.quantity <= threshold
    {
      SelectExactly(products, StockAtMost(threshold));
      Select(products, StockAtMost(threshold))
    }

    /** `getStats`: the totals are the reductions of the catalog, and the
        `forEach` loop builds the per-category breakdown. */
    method GetStats() returns (stats: Stats)
      ensures stats.totalProducts == |products|
      ensures stats.totalStock == TotalStock(products)
      ensures stats.totalValue == TotalValue(products)
      ensures stats.lowStockItems == |Select(products, StockBelow(10))|
      ensures stats.categoryStats == CategoryStats(products)
    {
      var categoryStats: map<string, CategoryStat> := map[];
      var i := 0;
      while i < |products|
        invariant 0 <= i <= |products|
        invariant categoryStats == CategoryStats(products[..i])
      {
        var p := products[i];
        ghost var before := categoryStats;
        if p.category !in categoryStats {
          categoryStats := categoryStats[p.category := CategoryStat(0, 0.0, 0)];
        }
        var s := categoryStats[p.category];
        assert s == if p.category in before then before[p.category] else NoStat;
        ghost var mid := categoryStats;
        categoryStats := categoryStats[p.category :=
          CategoryStat(s.count + 1, s.totalValue + p.price * p.quantity as real, s.totalStock + p.quantity)];
        assert categoryStats[p.category] == Tally(s, p);
        assert categoryStats == mid[p.category := Tally(s, p)];
        assert mid[p.category := Tally(s, p)] == before[p.category := Tally(s, p)];
        assert products[..i + 1][..i] == products[..i] && products[..i + 1][i] == p;
        i := i + 1;
      }
      assert products[..i] == products;
      stats := Stats(|products|, TotalStock(products), TotalValue(products),
        |Select(products, StockBelow(10))|, categoryStats);
    }

    /** `importProducts`: appends the importable records one by one, each
        under its own id and stamp, and stores the catalog; a file that is
        not an array of records, or holds no importable record, changes
        nothing. */
    method ImportProducts(data: ImportData, ids: nat -> int, stamps: nat -> int) returns (outcome: ImportOutcome)
      modifies this`products, this`saved
      ensures ImportStep(products, outcome) == ImportInto(old(products), data, ids, stamps)
      ensures saved == if outcome.ImportedProducts? then Some(products) else old(saved)
    {
      match data
      case NotJson =>
        outcome := ImportFailed(NotParsable);
      case NotArray =>
        outcome := ImportFailed(InvalidFormat);
      case Records(items) =>
        if HasNull(items) {
          outcome := ImportFailed(NullRecord);
          return;
        }
        var valid := ImportableRecords(RecordsOf(items));
        if |valid| == 0 {
          outcome := ImportFailed(NoValidProducts);
          return;
        }
        var i := 0;
        while i < |valid|
          invariant 0 <= i <= |valid|
          invariant products == old(products) + ImportedAll(valid[..i], ids, stamps)
        {
          products := products + [Imported(valid[i], ids(i), stamps(i))];
          assert ImportedAll(valid[..i + 1], ids, stamps) == ImportedAll(valid[..i], ids, stamps) + [Imported(valid[i], ids(i), stamps(i))];
          i := i + 1;
        }
        assert valid[..i] == valid;
        SaveProducts();
        outcome := ImportedProducts(|valid|);
    }
  }
}
