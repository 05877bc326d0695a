/** The pure parts of admin.js's `AdminManager`: the product filters, the
    dashboard statistics, the field validator and the selection of importable
    records. */
module CatalogQueries {
  import opened Lists
  import opened Products
  import Text

  /** The filters of `advancedSearch`. A numeric filter is `Some` when its
      form field was filled in, holding the number it parses to; an empty
      string or `false` sets no filter. */
  datatype SearchFilters = SearchFilters(
    search: string,
    category: string,
    minPrice: Option<real>,
    maxPrice: Option<real>,
    minStock: Option<int>,
    maxStock: Option<int>,
    lowStock: bool)

  const NoFilters := SearchFilters("", "", None, None, None, None, false)

  /** The case-insensitive term occurs in the product's name or category. */
  predicate MatchesTerm(p: Product, term: string) {
    Text.ContainsFolded(p.name, term) || Text.ContainsFolded(p.category, term)
  }

  /** The conditions the catalog filters products by. */
  datatype Criterion =
    | Search(term: string, category: string)   // filterProducts
    | Advanced(filters: SearchFilters)          // advancedSearch
    | StockAtMost(threshold: int)               // getLowStockAlerts
    | StockBelow(limit: int)                    // lowStockItems of getStats
    | InCategory(name: string)                  // the products of one category

  predicate Matches(p: Product, c: Criterion) {
    match c
    case Search(term, category) =>
      (term == "" || MatchesTerm(p, term)) && (category == "" || p.category == category)
    case Advanced(f) =>
      && (f.search == "" || MatchesTerm(p, f.search))
      && (f.category == "" || p.category == f.category)
      && (f.minPrice.Some? ==> p.price >= f.minPrice.value)
      && (f.maxPrice.Some? ==> p.price <= f.maxPrice.value)
      && (f.minStock.Some? ==> p.quantity >= f.minStock.value)
      && (f.maxStock.Some? ==> p.quantity <= f.maxStock.value)
      && (f.lowStock ==> p.quantity <= 10)
    case StockAtMost(threshold) => p.quantity <= threshold
    case StockBelow(limit) => p.quantity < limit
    case InCategory(name) => p.category == name
  }

  /** `products.filter(...)`: the products meeting `c`, in their order. */
  function Select(ps: seq<Product>, c: Criterion): (r: seq<Product>)
    ensures |r| <= |ps|
    ensures forall i :: 0 <= i < |r| ==> Matches(r[i], c)
  {
    if ps == [] then []
    else Select(ps[..|ps| - 1], c) + if Matches(ps[|ps| - 1], c) then [ps[|ps| - 1]] else []
  }

  /** A product is selected exactly when it is in the list and meets `c`. */
  lemma {:induction false} SelectExactly(ps: seq<Product>, c: Criterion)
    ensures forall p :: p in Select(ps, c) <==> p in ps && Matches(p, c)
  {
    if ps != [] {
      var init := ps[..|ps| - 1];
      SelectExactly(init, c);
      assert ps == init + [ps[|ps| - 1]];
    }
  }

  /** Filtering keeps the order: it distributes over concatenation. */
  lemma {:induction false} SelectConcat(a: seq<Product>, b: seq<Product>, c: Criterion)
    ensures Select(a + b, c) == Select(a, c) + Select(b, c)
  {
    if b == [] {
      assert a + b == a;
    } else {
      var n := |b| - 1;
      var ab := a + b;
      SelectConcat(a, b[..n], c);
      assert ab[..|ab| - 1] == a + b[..n] && ab[|ab| - 1] == b[n];
      SelectLast(ab, c);
      SelectLast(b, c);
    }
  }

  /** One unfolding of `Select`: the last product is kept when it matches. */
  lemma SelectLast(ps: seq<Product>, c: Criterion)
    requires ps != []
    ensures Select(ps, c) == Select(ps[..|ps| - 1], c) + SelectOne(ps[|ps| - 1], c)
  {
  }

  function SelectOne(p: Product, c: Criterion): seq<Product> {
    if Matches(p, c) then [p] else []
  }

  /** A condition every product meets keeps the whole list. */
  lemma {:induction false} SelectAll(ps: seq<Product>, c: Criterion)
    requires forall i :: 0 <= i < |ps| ==> Matches(ps[i], c)
    ensures Select(ps, c) == ps
  {
    if ps != [] {
      SelectAll(ps[..|ps| - 1], c);
    }
  }

  /** Two conditions that agree on every product select the same products. */
  lemma {:induction false} SelectSame(ps: seq<Product>, c: Criterion, d: Criterion)
    requires forall i :: 0 <= i < |ps| ==> (Matches(ps[i], c) <==> Matches(ps[i], d))
    ensures Select(ps, c) == Select(ps, d)
  {
    if ps != [] {
      SelectSame(ps[..|ps| - 1], c, d);
    }
  }

  /** With an empty term and an empty category `filterProducts` returns every
      product, and so does `advancedSearch` without filters. */
  lemma EmptyFiltersKeepAll(ps: seq<Product>)
    ensures Select(ps, Search("", "")) == ps
    ensures Select(ps, Advanced(NoFilters)) == ps
  {
    SelectAll(ps, Search("", ""));
    SelectAll(ps, Advanced(NoFilters));
  }

  /** A price range alone selects exactly the products priced within it. */
  lemma PriceRange(ps: seq<Product>, lo: real, hi: real)
    ensures var r := Select(ps, Advanced(NoFilters.(minPrice := Some(lo), maxPrice := Some(hi))));
      forall p :: p in r <==> p in ps && lo <= p.price <= hi
  {
    SelectExactly(ps, Advanced(NoFilters.(minPrice := Some(lo), maxPrice := Some(hi))));
  }

  /** The dashboard counts a product as low in stock below 10 units, while
      the alerts keep products at or below the threshold: the dashboard's
      count is that of the alerts for threshold 9. */
  lemma LowStockBoundaries(ps: seq<Product>)
    ensures Select(ps, StockBelow(10)) == Select(ps, StockAtMost(9))
    ensures |Select(ps, StockBelow(10))| <= |Select(ps, StockAtMost(10))|
  {
    SelectSame(ps, StockBelow(10), StockAtMost(9));
    SelectFewer(ps, StockAtMost(9), StockAtMost(10));
  }

  /** A stricter condition selects no more products. */
  lemma {:induction false} SelectFewer(ps: seq<Product>, c: Criterion, d: Criterion)
    requires forall i :: 0 <= i < |ps| ==> Matches(ps[i], c) ==> Matches(ps[i], d)
    ensures |Select(ps, c)| <= |Select(ps, d)|
  {
    if ps != [] {
      SelectFewer(ps[..|ps| - 1], c, d);
    }
  }

  // ---- getStats ----

  function Value(p: Product): real {
    p.price * p.quantity as real
  }

  /** The sum of the quantities, folded from the left. */
  function TotalStock(ps: seq<Product>): (n: int)
    ensures (forall i :: 0 <= i < |ps| ==> ps[i].quantity >= 0) ==> n >= 0
  {
    if ps == [] then 0 else TotalStock(ps[..|ps| - 1]) + ps[|ps| - 1].quantity
  }

  /** The sum of price times quantity, folded from the left. */
  function TotalValue(ps: seq<Product>): (v: real)
    ensures (forall i :: 0 <= i < |ps| ==> ps[i].price >= 0.0 && ps[i].quantity >= 0) ==> v >= 0.0
  {
    if ps == [] then 0.0 else TotalValue(ps[..|ps| - 1]) + Value(ps[|ps| - 1])
  }

  datatype CategoryStat = CategoryStat(count: int, totalValue: real, totalStock: int)

  datatype Stats = Stats(
    totalProducts: int,
    totalStock: int,
    totalValue: real,
    lowStockItems: int,
    categoryStats: map<string, CategoryStat>)

  const NoStat := CategoryStat(0, 0.0, 0)

  /** One product counted into its category's entry. */
  function Tally(s: CategoryStat, p: Product): CategoryStat {
    CategoryStat(s.count + 1, s.totalValue + Value(p), s.totalStock + p.quantity)
  }

  /** The per-category breakdown the `forEach` loop of `getStats` builds. */
  function CategoryStats(ps: seq<Product>): (m: map<string, CategoryStat>)
    ensures forall i :: 0 <= i < |ps| ==> ps[i].category in m
  {
    if ps == [] then map[]
    else
      var init := ps[..|ps| - 1];
      var p := ps[|ps| - 1];
      var m := CategoryStats(init);
      m[p.category := Tally(if p.category in m then m[p.category] else NoStat, p)]
  }

  /** The categories in order of first appearance: the order in which the
      loop creates the entries of the breakdown. */
  function Categories(ps: seq<Product>): (cs: seq<string>)
    ensures forall i, j :: 0 <= i < j < |cs| ==> cs[i] != cs[j]
    ensures forall i :: 0 <= i < |cs| ==> cs[i] in CategoryStats(ps)
  {
    if ps == [] then []
    else
      var init := Categories(ps[..|ps| - 1]);
      var c := ps[|ps| - 1].category;
      if c in init then init else init + [c]
  }

  /** Every key of the breakdown is listed. */
  lemma {:induction false} CategoryListed(ps: seq<Product>, c: string)
    requires c in CategoryStats(ps)
    ensures c in Categories(ps)
  {
    var n := |ps| - 1;
    if c != ps[n].category {
      CategoryListed(ps[..n], c);
    }
  }

  /** Every key of the breakdown is the category of some product. */
  lemma {:induction false} CategoryKeyOccurs(ps: seq<Product>, c: string)
    requires c in CategoryStats(ps)
    ensures exists i :: 0 <= i < |ps| && ps[i].category == c
  {
    var n := |ps| - 1;
    if ps[n].category != c {
      CategoryKeyOccurs(ps[..n], c);
      var i :| 0 <= i < n && ps[..n][i].category == c;
      assert ps[i].category == c;
    }
  }

  /** The keys of the breakdown are exactly the categories of the products. */
  lemma CategoryKeys(ps: seq<Product>)
    ensures forall c :: c in CategoryStats(ps) <==> exists i :: 0 <= i < |ps| && ps[i].category == c
  {
    forall c | c in CategoryStats(ps) ensures exists i :: 0 <= i < |ps| && ps[i].category == c {
      CategoryKeyOccurs(ps, c);
    }
  }

  /** The categories listed are exactly the keys of the breakdown. */
  lemma CategoriesAreKeys(ps: seq<Product>)
    ensures forall c :: c in Categories(ps) <==> c in CategoryStats(ps)
  {
    forall c | c in CategoryStats(ps) ensures c in Categories(ps) {
      CategoryListed(ps, c);
    }
  }

  /** The entry a list of products of one category should have. */
  function StatOf(sel: seq<Product>): CategoryStat {
    CategoryStat(|sel|, TotalValue(sel), TotalStock(sel))
  }

  /** Each entry of the breakdown counts, values and stocks exactly the
      products of its category. */
  lemma {:induction false} CategoryStatOf(ps: seq<Product>, c: string)
    requires c in CategoryStats(ps)
    ensures CategoryStats(ps)[c] == StatOf(Select(ps, InCategory(c)))
  {
    var n := |ps| - 1;
    var init := ps[..n];
    if c in CategoryStats(init) {
      CategoryStatOf(init, c);
    } else {
      SelectNone(init, c);
    }
    assert ps == init + [ps[n]];
    CategoryStatStep(init, ps[n], c);
  }

  /** Counting one more product keeps every entry equal to the totals of its
      category. */
  lemma CategoryStatStep(init: seq<Product>, p: Product, c: string)
    requires c in CategoryStats(init) ==> CategoryStats(init)[c] == StatOf(Select(init, InCategory(c)))
    requires c !in CategoryStats(init) ==> Select(init, InCategory(c)) == []
    ensures c in CategoryStats(init + [p]) ==>
      CategoryStats(init + [p])[c] == StatOf(Select(init + [p], InCategory(c)))
  {
    var ps := init + [p];
    assert ps[..|ps| - 1] == init && ps[|ps| - 1] == p;
    var m := CategoryStats(init);
    var before := if p.category in m then m[p.category] else NoStat;
    assert CategoryStats(ps) == m[p.category := Tally(before, p)];
    var sel := Select(init, InCategory(c));
    if p.category == c {
      assert Select(ps, InCategory(c)) == sel + [p];
      assert before == StatOf(sel);
      TallyStat(sel, p);
    } else {
      assert Select(ps, InCategory(c)) == sel;
    }
  }

  /** Counting a product into the entry of a list adds it to the list. */
  lemma TallyStat(sel: seq<Product>, p: Product)
    ensures Tally(StatOf(sel), p) == StatOf(sel + [p])
  {
    TotalsAppend(sel, p);
  }

  lemma TotalsAppend(ps: seq<Product>, p: Product)
    ensures TotalValue(ps + [p]) == TotalValue(ps) + Value(p)
    ensures TotalStock(ps + [p]) == TotalStock(ps) + p.quantity
  {
    assert (ps + [p])[..|ps|] == ps;
  }

  /** A category with no entry selects no product. */
  lemma {:induction false} SelectNone(ps: seq<Product>, c: string)
    requires c !in CategoryStats(ps)
    ensures Select(ps, InCategory(c)) == []
  {
    if ps != [] {
      SelectNone(ps[..|ps| - 1], c);
    }
  }

  function SumCounts(m: map<string, CategoryStat>, cs: seq<string>): int
    requires forall i :: 0 <= i < |cs| ==> cs[i] in m
  {
    if cs == [] then 0 else m[cs[0]].count + SumCounts(m, cs[1..])
  }

  function SumValues(m: map<string, CategoryStat>, cs: seq<string>): real
    requires forall i :: 0 <= i < |cs| ==> cs[i] in m
  {
    if cs == [] then 0.0 else m[cs[0]].totalValue + SumValues(m, cs[1..])
  }

  /** Overwriting an entry that `cs` does not name leaves the sums over `cs`. */
  lemma {:induction false} SumsIgnoreOthers(m: map<string, CategoryStat>, cs: seq<string>, c: string, s: CategoryStat)
    requires forall i :: 0 <= i < |cs| ==> cs[i] in m
    requires c !in cs
    ensures SumCounts(m[c := s], cs) == SumCounts(m, cs)
    ensures SumValues(m[c := s], cs) == SumValues(m, cs)
  {
    if cs != [] {
      SumsIgnoreOthers(m, cs[1..], c, s);
    }
  }

  /** Tallying one product into an entry that `cs` names once raises the
      count sum by one and the value sum by the product's value. */
  lemma {:induction false} SumsTally(m: map<string, CategoryStat>, cs: seq<string>, c: string, p: Product)
    requires forall i :: 0 <= i < |cs| ==> cs[i] in m
    requires forall i, j :: 0 <= i < j < |cs| ==> cs[i] != cs[j]
    requires c in cs
    ensures SumCounts(m[c := Tally(m[c], p)], cs) == SumCounts(m, cs) + 1
    ensures SumValues(m[c := Tally(m[c], p)], cs) == SumValues(m, cs) + Value(p)
  {
    if cs[0] == c {
      assert c !in cs[1..];
      SumsIgnoreOthers(m, cs[1..], c, Tally(m[c], p));
    } else {
      SumsTally(m, cs[1..], c, p);
    }
  }

  /** The per-category counts add up to the number of products and the
      per-category values to the total value. */
  lemma {:induction false} CategorySums(ps: seq<Product>)
    ensures SumCounts(CategoryStats(ps), Categories(ps)) == |ps|
    ensures SumValues(CategoryStats(ps), Categories(ps)) == TotalValue(ps)
  {
    if ps != [] {
      var n := |ps| - 1;
      CategorySums(ps[..n]);
      assert ps == ps[..n] + [ps[n]];
      SumsStep(ps[..n], ps[n]);
    }
  }

  /** Counting one more product keeps the sums equal to the totals. */
  lemma SumsStep(init: seq<Product>, p: Product)
    requires SumCounts(CategoryStats(init), Categories(init)) == |init|
    requires SumValues(CategoryStats(init), Categories(init)) == TotalValue(init)
    ensures SumCounts(CategoryStats(init + [p]), Categories(init + [p])) == |init| + 1
    ensures SumValues(CategoryStats(init + [p]), Categories(init + [p])) == TotalValue(init + [p])
  {
    TotalsAppend(init, p);
    SumsKnownCategory(init, p);
    SumsNewCategory(init, p);
  }

  /** A product of a category already present adds to its entry. */
  lemma SumsKnownCategory(init: seq<Product>, p: Product)
    ensures p.category in CategoryStats(init) ==>
      && SumCounts(CategoryStats(init + [p]), Categories(init + [p])) == SumCounts(CategoryStats(init), Categories(init)) + 1
      && SumValues(CategoryStats(init + [p]), Categories(init + [p])) == SumValues(CategoryStats(init), Categories(init)) + Value(p)
  {
    if p.category !in CategoryStats(init) {
      return;
    }
    var m := CategoryStats(init);
    var c := p.category;
    AppendOne(init, p);
    CategoryListed(init, c);
    SumsTally(m, Categories(init), c, p);
  }

  /** A product of a new category adds an entry of its own at the end. */
  lemma SumsNewCategory(init: seq<Product>, p: Product)
    ensures p.category !in CategoryStats(init) ==>
      && SumCounts(CategoryStats(init + [p]), Categories(init + [p])) == SumCounts(CategoryStats(init), Categories(init)) + 1
      && SumValues(CategoryStats(init + [p]), Categories(init + [p])) == SumValues(CategoryStats(init), Categories(init)) + Value(p)
  {
    if p.category in CategoryStats(init) {
      return;
    }
    var m := CategoryStats(init);
    var cs := Categories(init);
    var c := p.category;
    AppendOne(init, p);
    SumsIgnoreOthers(m, cs, c, Tally(NoStat, p));
    SumsAppend(m[c := Tally(NoStat, p)], cs, c);
  }

  /** The breakdown and the category list after one more product. */
  lemma AppendOne(init: seq<Product>, p: Product)
    ensures var m := CategoryStats(init);
      CategoryStats(init + [p]) == m[p.category := Tally(if p.category in m then m[p.category] else NoStat, p)]
    ensures var cs := Categories(init);
      Categories(init + [p]) == if p.category in cs then cs else cs + [p.category]
  {
    var ps := init + [p];
    assert ps[..|ps| - 1] == init && ps[|ps| - 1] == p;
  }

  lemma {:induction false} SumsAppend(m: map<string, CategoryStat>, cs: seq<string>, c: string)
    requires forall i :: 0 <= i < |cs| ==> cs[i] in m
    requires c in m
    ensures SumCounts(m, cs + [c]) == SumCounts(m, cs) + m[c].count
    ensures SumValues(m, cs + [c]) == SumValues(m, cs) + m[c].totalValue
  {
    if cs != [] {
      assert (cs + [c])[1..] == cs[1..] + [c];
      SumsAppend(m, cs[1..], c);
    }
  }

  // ---- validateProductData ----

  /** The fields `validateProductData` inspects; a field is `None` when the
      record does not carry it. */
  datatype ProductInput = ProductInput(name: Option<string>, category: Option<string>, price: Option<real>, quantity: Option<int>)

  datatype ValidationError =
    | NameRequired       // "Product name is required"
    | CategoryRequired   // "Category is required"
    | PriceNotPositive   // "Price must be greater than 0"
    | QuantityInvalid    // "Quantity must be 0 or greater"
    | NameTooLong        // "Product name must be less than 100 characters"

  /** The position of each message in the validator's output. */
  function Rank(e: ValidationError): nat {
    match e
    case NameRequired => 0
    case CategoryRequired => 1
    case PriceNotPositive => 2
    case QuantityInvalid => 3
    case NameTooLong => 4
  }

  datatype Validation = Validation(isValid: bool, errors: seq<ValidationError>)

  /** A string field that is missing, empty or only white space. */
  predicate MissingText(s: Option<string>) {
    s.None? || Text.Trim(s.value) == ""
  }

  /** The messages in the order the validator tests for them. */
  const Order: seq<ValidationError> := [NameRequired, CategoryRequired, PriceNotPositive, QuantityInvalid, NameTooLong]

  /** No message is repeated and each comes after those it ranks above. */
  predicate Ranked(errors: seq<ValidationError>) {
    forall i, j :: 0 <= i < j < |errors| ==> Rank(errors[i]) < Rank(errors[j])
  }

  /** Appends `e` when `failed`: one `if (...) errors.push(...)` of the
      validator. */
  function Check(errors: seq<ValidationError>, failed: bool, e: ValidationError): seq<ValidationError> {
    if failed then errors + [e] else errors
  }

  /** The messages of `es` whose test `fails`, in the order of `es`. */
  function Reported(fails: ValidationError -> bool, es: seq<ValidationError>): (r: seq<ValidationError>)
    ensures forall x :: x in r <==> x in es && fails(x)
    ensures Ranked(es) ==> Ranked(r)
  {
    if es == [] then []
    else
      var init := es[..|es| - 1];
      var last := es[|es| - 1];
      var r := Reported(fails, init);
      assert forall x :: x in es <==> x in init || x == last;
      assert Ranked(es) ==> forall i :: 0 <= i < |r| ==> Rank(r[i]) < Rank(last) by {
        if Ranked(es) {
          forall i | 0 <= i < |r| ensures Rank(r[i]) < Rank(last) {
            assert r[i] in init;
            var k :| 0 <= k < |init| && init[k] == r[i];
            assert es[k] == r[i];
          }
        }
      }
      Check(r, fails(last), last)
  }

  /** Filtering `Order` performs the five checks in turn. */
  lemma ReportedOrder(fails: ValidationError -> bool)
    ensures Reported(fails, Order) ==
      Check(Check(Check(Check(Check([], fails(NameRequired), NameRequired),
        fails(CategoryRequired), CategoryRequired), fails(PriceNotPositive), PriceNotPositive),
        fails(QuantityInvalid), QuantityInvalid), fails(NameTooLong), NameTooLong)
  {
    var o1, o2, o3, o4 := Order[..1], Order[..2], Order[..3], Order[..4];
    assert o1[..0] == [] && o2[..1] == o1 && o3[..2] == o2 && o4[..3] == o3 && Order[..4] == o4;
    var r1 := Check([], fails(NameRequired), NameRequired);
    assert Reported(fails, o1) == r1;
    var r2 := Check(r1, fails(CategoryRequired), CategoryRequired);
    assert Reported(fails, o2) == r2;
    var r3 := Check(r2, fails(PriceNotPositive), PriceNotPositive);
    assert Reported(fails, o3) == r3;
    var r4 := Check(r3, fails(QuantityInvalid), QuantityInvalid);
    assert Reported(fails, o4) == r4;
  }

  /** Filtering `Order` reports each message exactly when its test fails,
      reports nothing exactly when every test passes, and keeps the order. */
  lemma ReportedFacts(fails: ValidationError -> bool)
    ensures forall e :: e in Reported(fails, Order) <==> fails(e)
    ensures Reported(fails, Order) == [] <==> forall e :: !fails(e)
    ensures Ranked(Reported(fails, Order))
  {
    var r := Reported(fails, Order);
    assert Ranked(Order);
    forall e ensures e in r <==> fails(e) {
      assert Order[Rank(e)] == e;
    }
    if r != [] {
      assert r[0] in r;
    }
  }

  /** The tests of `validateProductData` as written: `!x` is true of a missing
      field and of the falsy values `""` and `0`, so a quantity of 0 fails. */
  predicate FailsAsWritten(d: ProductInput, e: ValidationError) {
    match e
    case NameRequired => MissingText(d.name)
    case CategoryRequired => MissingText(d.category)
    case PriceNotPositive => d.price.None? || d.price.value <= 0.0
    case QuantityInvalid => d.quantity.None? || d.quantity.value <= 0
    case NameTooLong => d.name.Some? && |d.name.value| > 100
  }

  /** The tests as the messages state them: only a negative quantity fails. */
  predicate FailsIntended(d: ProductInput, e: ValidationError) {
    match e
    case QuantityInvalid => d.quantity.None? || d.quantity.value < 0
    case _ => FailsAsWritten(d, e)
  }

  /** `validateProductData` as written. */
  function Validate(d: ProductInput): (v: Validation)
    ensures v.isValid <==> v.errors == []
  {
    var e := [];
    var e := Check(e, d.name.None? || d.name.value == "" || Text.Trim(d.name.value) == "", NameRequired);
    var e := Check(e, d.category.None? || d.category.value == "" || Text.Trim(d.category.value) == "", CategoryRequired);
    var e := Check(e, d.price.None? || d.price.value == 0.0 || d.price.value <= 0.0, PriceNotPositive);
    var e := Check(e, d.quantity.None? || d.quantity.value == 0 || d.quantity.value < 0, QuantityInvalid);
    var e := Check(e, d.name.Some? && d.name.value != "" && |d.name.value| > 100, NameTooLong);
    Validation(|e| == 0, e)
  }

  /** The validator as written performs the five tests of `FailsAsWritten`
      in order. */
  lemma ValidateChecks(d: ProductInput)
    ensures Validate(d).errors == Reported(e => FailsAsWritten(d, e), Order)
  {
    ValidateTests(d);
    ReportedOrder(e => FailsAsWritten(d, e));
  }

  /** Each `!field || ...` test of the validator as written is the matching
      test of `FailsAsWritten`. */
  lemma ValidateTests(d: ProductInput)
    ensures Validate(d).errors ==
      Check(Check(Check(Check(Check([], FailsAsWritten(d, NameRequired), NameRequired),
        FailsAsWritten(d, CategoryRequired), CategoryRequired), FailsAsWritten(d, PriceNotPositive), PriceNotPositive),
        FailsAsWritten(d, QuantityInvalid), QuantityInvalid), FailsAsWritten(d, NameTooLong), NameTooLong)
  {
    assert Text.Trim("") == "";
  }

  /** Each message is reported exactly when its test fails, a product is
      valid exactly when every test passes, and the messages come in the
      validator's order. */
  lemma ValidateReports(d: ProductInput)
    ensures forall e :: e in Validate(d).errors <==> FailsAsWritten(d, e)
    ensures Validate(d).isValid <==> forall e :: !FailsAsWritten(d, e)
    ensures Ranked(Validate(d).errors)
  {
    ValidateChecks(d);
    ReportedFacts(e => FailsAsWritten(d, e));
  }

  /** The validator as its messages and the data model intend it: a quantity
      of 0 units is accepted. */
  function ValidateIntended(d: ProductInput): (v: Validation)
    ensures v.isValid <==> v.errors == []
  {
    var e := [];
    var e := Check(e, MissingText(d.name), NameRequired);
    var e := Check(e, MissingText(d.category), CategoryRequired);
    var e := Check(e, d.price.None? || d.price.value <= 0.0, PriceNotPositive);
    var e := Check(e, d.quantity.None? || d.quantity.value < 0, QuantityInvalid);
    var e := Check(e, d.name.Some? && |d.name.value| > 100, NameTooLong);
    Validation(|e| == 0, e)
  }

  /** The intended validator performs the five tests of `FailsIntended` in
      order. */
  lemma ValidateIntendedChecks(d: ProductInput)
    ensures ValidateIntended(d).errors == Reported(e => FailsIntended(d, e), Order)
  {
    ReportedOrder(e => FailsIntended(d, e));
  }

  /** The intended validator reports a message exactly when its test fails,
      in the validator's order. */
  lemma ValidateIntendedReports(d: ProductInput)
    ensures forall e :: e in ValidateIntended(d).errors <==> FailsIntended(d, e)
    ensures ValidateIntended(d).isValid <==> forall e :: !FailsIntended(d, e)
    ensures Ranked(ValidateIntended(d).errors)
  {
    ValidateIntendedChecks(d);
    ReportedFacts(e => FailsIntended(d, e));
  }

  /** The intended validator accepts exactly the records with a non-blank
      name of at most 100 characters, a non-blank category, a positive price
      and a quantity of at least 0. */
  lemma ValidateIntendedAccepts(d: ProductInput)
    ensures ValidateIntended(d).isValid <==>
      && d.name.Some? && !Text.IsBlank(d.name.value) && |d.name.value| <= 100
      && d.category.Some? && !Text.IsBlank(d.category.value)
      && d.price.Some? && d.price.value > 0.0
      && d.quantity.Some? && d.quantity.value >= 0
  {
    ValidateIntendedReports(d);
    assert (forall e :: !FailsIntended(d, e)) <==>
      !FailsIntended(d, NameRequired) && !FailsIntended(d, CategoryRequired) && !FailsIntended(d, PriceNotPositive)
      && !FailsIntended(d, QuantityInvalid) && !FailsIntended(d, NameTooLong);
  }

  /** The two validators differ only on the quantity message, and the
      intended one reports nothing the written one does not. */
  lemma ValidateIntendedAgrees(d: ProductInput)
    ensures forall e :: e in ValidateIntended(d).errors ==> e in Validate(d).errors
    ensures forall e :: e != QuantityInvalid ==> (e in ValidateIntended(d).errors <==> e in Validate(d).errors)
  {
    ValidateReports(d);
    ValidateIntendedReports(d);
  }

  /** An otherwise valid product with no units in stock: the validator as
      written rejects it with the quantity message alone, the intended one
      accepts it. */
  lemma ZeroQuantityRejected(d: ProductInput)
    requires d.name.Some? && !Text.IsBlank(d.name.value) && |d.name.value| <= 100
    requires d.category.Some? && !Text.IsBlank(d.category.value)
    requires d.price.Some? && d.price.value > 0.0
    requires d.quantity == Some(0)
    ensures Validate(d) == Validation(false, [QuantityInvalid])
    ensures ValidateIntended(d) == Validation(true, [])
  {
    ValidateTests(d);
    ValidateIntendedAccepts(d);
  }

  /** The yoga mat with 0 units, priced 79.99, is such a product. */
  lemma ZeroQuantityExample()
    ensures var d := ProductInput(Some("Yoga Mat"), Some("Sports"), Some(79.99), Some(0));
      Validate(d).errors == [QuantityInvalid] && ValidateIntended(d).isValid
  {
    assert !Text.IsSpace("Yoga Mat"[0]);
    assert !Text.IsSpace("Sports"[0]);
    ZeroQuantityRejected(ProductInput(Some("Yoga Mat"), Some("Sports"), Some(79.99), Some(0)));
  }

  // ---- importProducts ----

  /** An imported record as parsed; `None` marks a missing field. Any `id` or
      `createdAt` it carries is overwritten on import, so it is not kept. */
  datatype ImportRecord = ImportRecord(
    name: Option<string>,
    category: Option<string>,
    price: Option<real>,
    quantity: Option<int>,
    image: Option<string>,
    updatedAt: Option<int>)

  /** An element of the parsed array: `null`, or a value whose fields are
      read as a record (a number or string has none of them). */
  datatype ImportItem = NullItem | Item(record: ImportRecord)

  /** What `JSON.parse` made of the file: not JSON at all, a value that is not
      an array, or an array. */
  datatype ImportData = NotJson | NotArray | Records(items: seq<ImportItem>)

  /** Some element is `null`, so reading `product.name` in the filter throws. */
  predicate HasNull(items: seq<ImportItem>) {
    exists i :: 0 <= i < |items| && items[i].NullItem?
  }

  /** The records of an array without `null`. */
  function RecordsOf(items: seq<ImportItem>): (rs: seq<ImportRecord>)
    requires !HasNull(items)
    ensures |rs| == |items| && forall i :: 0 <= i < |items| ==> items[i] == Item(rs[i])
  {
    seq(|items|, i requires 0 <= i < |items| => items[i].record)
  }

  /** `product.name && product.category && product.price && product.quantity`:
      each field present and not empty or zero. */
  predicate Importable(r: ImportRecord) {
    && r.name.Some? && r.name.value != ""
    && r.category.Some? && r.category.value != ""
    && r.price.Some? && r.price.value != 0.0
    && r.quantity.Some? && r.quantity.value != 0
  }

  /** The importable records, in input order. */
  function ImportableRecords(rs: seq<ImportRecord>): (r: seq<ImportRecord>)
    ensures |r| <= |rs|
    ensures forall i :: 0 <= i < |r| ==> Importable(r[i])
  {
    if rs == [] then []
    else ImportableRecords(rs[..|rs| - 1]) + if Importable(rs[|rs| - 1]) then [rs[|rs| - 1]] else []
  }

  /** A record is kept exactly when it is in the file and importable. */
  lemma {:induction false} ImportableExactly(rs: seq<ImportRecord>)
    ensures forall x :: x in ImportableRecords(rs) <==> x in rs && Importable(x)
  {
    if rs != [] {
      var init := rs[..|rs| - 1];
      ImportableExactly(init);
      assert rs == init + [rs[|rs| - 1]];
    }
  }

  /** The product an importable record becomes, under a new id and stamp. */
  function Imported(r: ImportRecord, id: int, stamp: int): Product
    requires Importable(r)
  {
    Product(id, r.name.value, r.category.value, r.price.value, r.quantity.value, r.image, Some(stamp), r.updatedAt)
  }

  /** The products the import appends, the i-th under `ids(i)` and `stamps(i)`. */
  function ImportedAll(rs: seq<ImportRecord>, ids: nat -> int, stamps: nat -> int): (ps: seq<Product>)
    requires forall i :: 0 <= i < |rs| ==> Importable(rs[i])
    ensures |ps| == |rs|
    ensures forall i :: 0 <= i < |rs| ==> ps[i] == Imported(rs[i], ids(i), stamps(i))
  {
    seq(|rs|, i requires 0 <= i < |rs| => Imported(rs[i], ids(i), stamps(i)))
  }

  /** Collecting importable records keeps their order: it distributes over
      concatenation. */
  lemma {:induction false} ImportableConcat(a: seq<ImportRecord>, b: seq<ImportRecord>)
    ensures ImportableRecords(a + b) == ImportableRecords(a) + ImportableRecords(b)
  {
    if b == [] {
      assert a + b == a;
    } else {
      var n := |b| - 1;
      var ab, last := a + b, b[n];
      var tail := if Importable(last) then [last] else [];
      ImportableConcat(a, b[..n]);
      assert ab[..|ab| - 1] == a + b[..n] && ab[|ab| - 1] == last;
      assert ImportableRecords(ab) == ImportableRecords(a + b[..n]) + tail;
      assert ImportableRecords(b) == ImportableRecords(b[..n]) + tail;
    }
  }

  datatype ImportError =
    | NotParsable        // JSON.parse threw
    | InvalidFormat      // "Invalid data format"
    | NullRecord         // the TypeError of reading a field of null
    | NoValidProducts    // "No valid products found"

  datatype ImportOutcome = ImportedProducts(count: nat) | ImportFailed(error: ImportError)

  /** The catalog after `importProducts`, and what it reports. */
  datatype ImportStep = ImportStep(products: seq<Product>, outcome: ImportOutcome)

  /** `importProducts(fileData)` on the catalog `ps`: the i-th importable
      record is appended under `ids(i)` and `stamps(i)`. */
  function ImportInto(ps: seq<Product>, data: ImportData, ids: nat -> int, stamps: nat -> int): (s: ImportStep)
    ensures data.NotJson? ==> s.outcome == ImportFailed(NotParsable)
    ensures data.NotArray? ==> s.outcome == ImportFailed(InvalidFormat)
    ensures data.Records? && HasNull(data.items) ==> s.outcome == ImportFailed(NullRecord)
    ensures data.Records? && !HasNull(data.items) && !(exists x :: x in RecordsOf(data.items) && Importable(x)) ==>
      s.outcome == ImportFailed(NoValidProducts)
    ensures s.outcome.ImportedProducts? <==>
      data.Records? && !HasNull(data.items) && exists x :: x in RecordsOf(data.items) && Importable(x)
    ensures s.outcome.ImportFailed? ==> s.products == ps
    ensures s.outcome.ImportedProducts? ==>
      var valid := ImportableRecords(RecordsOf(data.items));
      && s.outcome.count == |valid| > 0
      && |s.products| == |ps| + |valid|
      && s.products[..|ps|] == ps
      && forall i :: 0 <= i < |valid| ==> s.products[|ps| + i] == Imported(valid[i], ids(i), stamps(i))
  {
    match data
    case NotJson => ImportStep(ps, ImportFailed(NotParsable))
    case NotArray => ImportStep(ps, ImportFailed(InvalidFormat))
    case Records(items) =>
      if HasNull(items) then ImportStep(ps, ImportFailed(NullRecord))
      else ImportRecordsInto(ps, RecordsOf(items), ids, stamps)
  }

  /** The parsed array case of `importProducts`: the importable records are
      appended, or "No valid products found" when there are none. */
  function ImportRecordsInto(ps: seq<Product>, rs: seq<ImportRecord>, ids: nat -> int, stamps: nat -> int): (s: ImportStep)
    ensures s.outcome.ImportedProducts? <==> exists x :: x in rs && Importable(x)
    ensures s.outcome.ImportFailed? ==> s == ImportStep(ps, ImportFailed(NoValidProducts))
    ensures s.outcome.ImportedProducts? ==>
      var valid := ImportableRecords(rs);
      && s.outcome.count == |valid| > 0
      && |s.products| == |ps| + |valid|
      && s.products[..|ps|] == ps
      && forall i :: 0 <= i < |valid| ==> s.products[|ps| + i] == Imported(valid[i], ids(i), stamps(i))
  {
    var valid := ImportableRecords(rs);
    ImportableExactly(rs);
    if |valid| == 0 then
      assert forall x :: x in rs ==> !Importable(x);
      ImportStep(ps, ImportFailed(NoValidProducts))
    else
      assert valid[0] in rs && Importable(valid[0]);
      ImportStep(ps + ImportedAll(valid, ids, stamps), ImportedProducts(|valid|))
  }
}
