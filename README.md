# Modern Inventory store: cart and catalog administration

A Dafny model of the two stateful managers of a small browser shop.

- `CartManager` (cart.js) keeps the shopping cart. The cart is a list of lines keyed by product id. Lines are added, removed and re-quantified against the stock of the catalog. The manager also prices an order: discount codes, shipping, tax and the order summary.
- `AdminManager` (admin.js) keeps the product catalog and the admin session. It adds, updates, deletes, looks up, filters, validates and imports products. It computes the dashboard statistics, and it logs the demo admin accounts in and out.

Both managers keep their lists in object fields, change them in place and write them back to browser storage. In the model each manager is a `class`:

- The in-memory list is a `seq` field.
- The stored copy is a separate `Option<seq<...>>` field. `None` means the storage key is absent.
- Every method that edits the cart lines or the catalog list is proved equal to a pure specification function of the old state. Those functions return the new list, the result, and, for the cart, whether the stored copy is written.
- The constructors and the session, load and save methods (`Cart.SaveCart`, `Cart.ClearCart`, `AdminManager.CheckSession`, `Login`, `Logout`, `LoadProducts`, `SaveProducts`) state their new fields directly in their `ensures`.
- The properties of the specification functions are proved as their own `ensures` and as lemmas.

The modules follow the program:

- `Lists`: the optional value standing for `undefined`, first-match search and `splice`.
- `Text`: case folding, `includes` and `trim`.
- `Products`: the product record and the lookup by id.
- `CartStore`: cart.js.
- `CatalogQueries`: the pure filters, statistics, validator and import selection of admin.js.
- `AdminStore`: the `AdminManager` class.

Some inputs are parameters of the operations that use them:

- Clock readings and generated ids (`Date.now()`, `new Date()`, `Math.random()`), as integers.
- The contents of browser storage, as the constructors' arguments.
- The already-parsed import file.
- The catalog the cart checks stock against.

Prices are exact `real`s. Case folding covers ASCII letters only.

The accessors `Cart.GetTotal`, `Cart.GetItemCount`, `Cart.GetItems`, `Cart.GetOrderSummary` and `AdminManager.GetAllProducts` return `Total`, `ItemCount`, the line list, `Summarize` and the product list of the current state, so they have no rows of their own.

The following definitions model source lines but are plain predicates, functions or constants. The rows below state their properties through the members that use them:
- `CatalogQueries.Matches`: the filter callbacks (admin.js:189-197, admin.js:205, admin.js:311, admin.js:317-350). An empty term or category matches every product because of the `term == ""` short-circuit, as the `!searchTerm` test (admin.js:190) and the `if (filters.search)` guard (admin.js:319) do.
- `CatalogQueries.MatchesTerm`: the case-insensitive name-or-category test (admin.js:190-192).
- `CatalogQueries.Importable`: the truthiness test of the import filter (admin.js:258).
- `CatalogQueries.Imported`: the new id and `createdAt` of an imported record (admin.js:267-269).
- `CatalogQueries.Tally`: one product counted into its category entry (admin.js:217-219).
- `CatalogQueries.MissingText` and `CatalogQueries.FailsAsWritten`: the five validator tests as written (admin.js:283-299).
- `AdminStore.IsValidLogin`: the demo credential check (admin.js:31-38).
- `CartStore.NewLine`: the snapshot line `addItem` pushes (cart.js:36-42).
- `AdminStore.SampleProducts`: the seed catalog (admin.js:79-128).

## Model

| member | source | states |
|---|---|---|
| Lists.IndexOf | admin.js:152 | `findIndex` by id: -1 exactly when the id is absent, else the first position holding it |
| Lists.RemoveAt | admin.js:170 | `splice(k, 1)`: one element shorter, earlier elements kept, later ones shifted down, and the removed element is exactly what disappears from the multiset |
| Lists.RemoveAtUnique | cart.js:55 | removing one position of a duplicate-free id list keeps it duplicate-free and removes that id altogether |
| Text.LowerChar | admin.js:191 | lower-cases exactly the ASCII capitals and leaves every other character alone |
| Text.UpperChar | cart.js:120 | upper-cases exactly the ASCII small letters and leaves every other character alone |
| Text.ToLower | admin.js:191 | `toLowerCase`: same length, each character lower-cased |
| Text.ToUpper | cart.js:120 | `toUpperCase`: same length, each character upper-cased |
| Text.TrimStart | admin.js:283 | drops the leading white space: the result is a suffix, what is dropped is blank, the result is empty exactly when the string is blank, and otherwise starts with a non-space |
| Text.TrimEnd | admin.js:283 | drops the trailing white space: the result is a prefix, what is dropped is blank, the result is empty exactly when the string is blank, and otherwise ends with a non-space |
| Text.Trim | admin.js:283 | `trim()` is empty exactly when the string is all white space, and otherwise starts and ends with a non-space |
| Text.TrimDropsBlanks | admin.js:283 | `trim()` removes white space only: the string is a blank prefix, then the trimmed string, then a blank suffix |
| Text.TrimStartNotBlank | admin.js:283 | once the leading white space is dropped, a non-empty rest is not blank and trimming its end keeps its first character |
| Products.Ids | admin.js:152 | the ids of the products, position by position |
| Products.IdsAppend | admin.js:145 | appending a product appends its id |
| Products.IdsRemoveAt | admin.js:170 | removing a product removes its id at the same position |
| Products.Find | admin.js:178-180 | `find` by id: some product exactly when the id occurs, and then the first product carrying it |
| Products.FindAppended | admin.js:138-148 | after appending a product under a fresh id, looking that id up finds it and every other lookup is unchanged |
| Products.FindRemoved | admin.js:166-180 | with unique ids, after removing the product at a position, its id is no longer found |
| CartStore.LineIds | cart.js:23 | the ids of the cart lines, position by position |
| CartStore.Added | cart.js:22-48 | `addItem` succeeds exactly when the quantity in the cart after the addition stays within the product's stock. For an existing line that is the line's quantity plus the addition; for a new line it is the addition. For an existing line the result is "quantity updated" with the product's name or the stock limit; for a new one it is "added to cart" with the name or too little stock. Success raises that line's quantity or appends a snapshot line at the end. Failure changes nothing. No other line changes and the stored cart is not written |
| CartStore.AddedKeepsUnique | cart.js:22-48 | `addItem` keeps the cart's ids distinct: an existing product has its line raised, never a second line |
| CartStore.AddedLines | cart.js:27-42 | after a successful `addItem` the lines are the old ones with the product's line raised by the quantity, or the old ones followed by one new snapshot line |
| CartStore.Removed | cart.js:51-60 | `removeItem` finds a line exactly when the id is in the cart. It returns the first such line, removes exactly that line, keeping the others in order, and writes the stored cart. Otherwise nothing changes. Unique ids stay unique and the id is gone afterwards |
| CartStore.Updated | cart.js:63-83 | `updateQuantity` reports "not in cart" for an absent id. A quantity of 0 or less is exactly a `removeItem`. Otherwise the result is a quantity change or "not enough stock". It succeeds exactly when the catalog has the product with enough stock, and then sets only that line's quantity and writes the stored cart. With too little stock nothing changes and nothing is written. Unique ids stay unique |
| CartStore.LineValueShift | cart.js:28 | raising a line's quantity by q raises its value by price times q |
| CartStore.LineValueSet | cart.js:75 | setting a line's quantity changes its value by price times the difference |
| CartStore.Total | cart.js:86-88 | `getTotal` is 0 for an empty cart |
| CartStore.TotalNonNegative | cart.js:86-88 | `getTotal` is never negative when no price and no quantity is |
| CartStore.ItemCount | cart.js:91-93 | `getItemCount` is 0 for an empty cart, and with non-negative quantities it is non-negative and at least every line's quantity |
| CartStore.TotalUpdate | cart.js:86-93 | replacing one line changes the total and the count by exactly the difference between the old line and the new one |
| CartStore.TotalRemoveAt | cart.js:86-93 | removing one line lowers the total and the count by exactly what that line contributed |
| CartStore.AddedTotals | cart.js:22-48 | a successful `addItem` raises the item count by the quantity added. The total changes by the change of the touched line's value, or by the new line's value. For the total in terms of price and quantity, rely on `AddedRaisesTotal`; this lemma is the one for the item count |
| CartStore.RemovedTotals | cart.js:51-60 | a successful `removeItem` lowers the total and the count by the removed line's value and quantity |
| CartStore.UpdatedTotals | cart.js:63-83 | a successful quantity change swaps the line's old value for its new one in the total, and moves the count by the difference. For the total in terms of price and quantity, rely on `UpdatedMovesTotal`; this lemma is the one for the item count |
| CartStore.SetQuantityTotal | cart.js:75 | setting one line's quantity moves the total by its price times the change of quantity |
| CartStore.ShiftQuantityTotal | cart.js:28 | raising one line's quantity by q raises the total by its price times q |
| CartStore.NewLineTotal | cart.js:36-42 | appending a new snapshot line for q units raises the total by the product's price times q |
| CartStore.AddedToLineTotal | cart.js:27-29 | adding q units of a product already in the cart raises the total by the line's snapshot price times q |
| CartStore.AddedNewLineTotal | cart.js:35-42 | adding q units of a product not yet in the cart raises the total by the product's price times q |
| CartStore.AddedRaisesTotal | cart.js:22-48 | a successful `addItem` of q units raises the total by price times q: the line's snapshot price for an existing line, the product's price for a new one. This is the statement of the total to rely on; `AddedTotals` gives the item count |
| CartStore.UpdatedMovesTotal | cart.js:63-83 | a successful quantity change moves the total by the line's price times the change of its quantity. This is the statement of the total to rely on; `UpdatedTotals` gives the item count |
| CartStore.StockExample | cart.js:22-48 | with stock 5 and price 100, adding 3 succeeds and a second 3 is refused, and the total stays 300 |
| CartStore.DiscountRate | cart.js:112-124 | `applyDiscount` gives 10%, 20%, 15% or 25% exactly for the upper-cased codes SAVE10, SAVE20, WELCOME and SPECIAL, and 0 exactly for any other code |
| CartStore.DiscountIgnoresCase | cart.js:120-121 | two codes that upper-case alike get the same rate |
| CartStore.LowerCaseCode | cart.js:112-124 | "save10" and "Welcome" are honoured; the empty code and an unknown code give 0 |
| CartStore.Shipping | cart.js:127-129 | shipping is free exactly when the subtotal is over 100, and 9.99 otherwise |
| CartStore.Tax | cart.js:132-134 | tax is exactly a tenth of the subtotal |
| CartStore.Summarize | cart.js:137-158 | the order summary carries the subtotal and the count. Its tax is a tenth, its shipping is free exactly above 100 and 9.99 at or below it, and its discount is the subtotal times the code's rate. The total is subtotal plus tax plus shipping minus discount. For a non-negative subtotal the discount is at most a quarter of it and the total is positive |
| CartStore.SummaryExamples | cart.js:137-158 | a subtotal of 150 with no code totals 165 with free shipping; 50 with "save10" gets a discount of 5 and totals 59.99 |
| CartStore.Cart.constructor | cart.js:3-14 | the cart starts as the stored cart, or empty when nothing is stored |
| CartStore.Cart.SaveCart | cart.js:17-19 | the stored cart becomes the current lines |
| CartStore.Cart.AddItem | cart.js:22-48 | the new lines and the result are those of `Added` on the old lines, and the stored cart is untouched |
| CartStore.Cart.RemoveItem | cart.js:51-60 | the new lines and the result are those of `Removed`, and the stored cart is written exactly when a line was removed |
| CartStore.Cart.UpdateQuantity | cart.js:63-83 | the new lines and the result are those of `Updated`, and the stored cart is written exactly on the paths that save |
| CartStore.Cart.ClearCart | cart.js:96-99 | the cart and its stored copy become empty, so the cart is empty with total 0 and count 0 |
| CartStore.Cart.IsEmpty | cart.js:107-109 | true exactly when the cart has no lines, and then the total and count are 0 |
| CatalogQueries.Select | admin.js:189-197 | `filter` returns at most as many products as it is given, each meeting the condition |
| CatalogQueries.SelectExactly | admin.js:188-198 | a product is selected exactly when it is in the list and meets the condition |
| CatalogQueries.SelectConcat | admin.js:189-197 | filtering distributes over concatenation, so the original order is kept |
| CatalogQueries.SelectAll | admin.js:189-197 | a condition every product meets keeps the whole list |
| CatalogQueries.SelectSame | admin.js:189-197 | conditions agreeing on every product select the same list |
| CatalogQueries.SelectFewer | admin.js:205 | a stricter condition selects no more products |
| CatalogQueries.EmptyFiltersKeepAll | admin.js:188-198 | `filterProducts()` with no term and no category, and `advancedSearch` with no filter set, return every product in order |
| CatalogQueries.PriceRange | admin.js:331-337 | a minimum and a maximum price alone select exactly the products priced between them |
| CatalogQueries.LowStockBoundaries | admin.js:205 | the dashboard's low-stock count (fewer than 10 units) equals the alerts for threshold 9, and is at most the default alerts (10 units or fewer) |
| CatalogQueries.TotalStock | admin.js:203 | the sum of the quantities is non-negative when every quantity is |
| CatalogQueries.TotalValue | admin.js:204 | the sum of price times quantity is non-negative when every price and quantity is |
| CatalogQueries.TotalsAppend | admin.js:203-204 | one more product adds its value and its quantity to the sums |
| CatalogQueries.CategoryStats | admin.js:208-220 | every product's category has an entry in the breakdown |
| CatalogQueries.Categories | admin.js:208-220 | the categories in order of first appearance: no repeats, and each is a key of the breakdown |
| CatalogQueries.CategoryListed | admin.js:208-220 | every key of the breakdown is among the listed categories |
| CatalogQueries.CategoryKeyOccurs | admin.js:208-220 | every key of the breakdown is the category of some product |
| CatalogQueries.CategoryKeys | admin.js:208-220 | the keys of the breakdown are exactly the categories of the products |
| CatalogQueries.CategoriesAreKeys | admin.js:208-220 | the listed categories are exactly the keys of the breakdown |
| CatalogQueries.AppendOne | admin.js:210-218 | one more product creates its category's entry when missing, counts the product into it, and lists a new category at the end |
| CatalogQueries.TallyStat | admin.js:216-218 | counting a product into the entry of a list of products gives the entry of the list with that product appended |
| CatalogQueries.CategoryStatOf | admin.js:208-220 | each entry holds the number, total value and total stock of exactly the products of its category |
| CatalogQueries.CategoryStatStep | admin.js:208-220 | if every entry matches its category's products before one more product is counted, it still does afterwards |
| CatalogQueries.SelectNone | admin.js:208-220 | a category without an entry has no products |
| CatalogQueries.SumsIgnoreOthers | admin.js:208-220 | changing an entry outside a list of categories leaves the sums over that list |
| CatalogQueries.SumsTally | admin.js:217-218 | counting a product into one entry raises the count sum by one and the value sum by its value |
| CatalogQueries.SumsAppend | admin.js:208-220 | summing over one more category adds that entry |
| CatalogQueries.SumsKnownCategory | admin.js:210-218 | counting a product into an existing entry raises the count sum by one and the value sum by its value |
| CatalogQueries.SumsNewCategory | admin.js:210-218 | counting a product into a new entry raises the count sum by one and the value sum by its value |
| CatalogQueries.SumsStep | admin.js:208-220 | if the sums match the product count and the total value before one more product, they still match afterwards |
| CatalogQueries.CategorySums | admin.js:201-229 | the per-category counts sum to the number of products and the per-category values sum to the total value |
| CatalogQueries.Reported | admin.js:280-307 | a message is reported exactly when it is among those tested and its test fails, and the order of the tests is kept |
| CatalogQueries.ReportedOrder | admin.js:283-301 | filtering the message order performs the five checks one after another |
| CatalogQueries.ReportedFacts | admin.js:280-307 | each message is reported exactly when its test fails, none exactly when all pass, in the validator's order |
| CatalogQueries.Validate | admin.js:280-307 | the validator as written is valid exactly when it reports no message |
| CatalogQueries.ValidateTests | admin.js:283-301 | each `!field \|\| ...` test as written is the matching test of `FailsAsWritten`, applied in turn |
| CatalogQueries.ValidateChecks | admin.js:280-307 | the validator as written reports exactly the messages whose `FailsAsWritten` test fails, in the order tested |
| CatalogQueries.ValidateReports | admin.js:280-307 | as written: a missing or blank name, missing or blank category, missing or non-positive price, missing or non-positive quantity, or a name over 100 characters each report their message. Nothing else is reported, validity means no test fails, and the order is kept |
| CatalogQueries.ValidateIntended | admin.js:295-297 | the corrected validator is valid exactly when it reports no message |
| CatalogQueries.ValidateIntendedChecks | admin.js:280-307 | the corrected validator reports exactly the messages whose corrected test fails, in the order tested |
| CatalogQueries.ValidateIntendedReports | admin.js:280-307 | corrected: each message is reported exactly when its test fails, with a quantity failing only when missing or negative |
| CatalogQueries.ValidateIntendedAccepts | admin.js:280-307 | corrected: valid exactly for a non-blank name of at most 100 characters, a non-blank category, a positive price and a quantity of at least 0 |
| CatalogQueries.ValidateIntendedAgrees | admin.js:295-297 | the corrected validator reports nothing the written one does not, and agrees with it on all but the quantity message |
| CatalogQueries.ZeroQuantityRejected | admin.js:295-297 | every product with 0 units and otherwise valid data is rejected as written, with the quantity message alone, and accepted by the corrected validator |
| CatalogQueries.ZeroQuantityExample | admin.js:295-297 | the Yoga Mat with 0 units is such a product |
| CatalogQueries.ImportableRecords | admin.js:257-259 | no more records are kept than the file holds, and each kept record is importable |
| CatalogQueries.ImportableExactly | admin.js:257-259 | a record is kept exactly when it is in the file and importable |
| CatalogQueries.ImportableConcat | admin.js:257-259 | selecting importable records distributes over concatenation, so input order is kept |
| CatalogQueries.ImportedAll | admin.js:266-270 | the i-th imported product is the i-th record under the i-th new id and stamp |
| CatalogQueries.RecordsOf | admin.js:257-259 | an array without a `null` element is exactly its records, position by position |
| CatalogQueries.ImportInto | admin.js:247-277 | an import fails, leaving the catalog unchanged: "not parsable" when the file is not JSON, "Invalid data format" when it is not an array, the `TypeError` of the filter when an element is `null`, and "No valid products found" when no record is importable. It succeeds exactly when the array has no `null` element and some record is importable. It then keeps the old products first and appends exactly the importable records in order, each re-identified and stamped, and reports their count |
| CatalogQueries.ImportRecordsInto | admin.js:257-273 | for a parsed array: "No valid products found", with the catalog unchanged, exactly when no record is importable. Otherwise the old products come first, the importable records follow in order, re-identified and stamped, and their count is reported |
| AdminStore.ValidLogins | admin.js:31-38 | exactly the two demo accounts log in |
| AdminStore.SessionExpired | admin.js:15-19 | a session has expired exactly when more than 86400000 ms (24 hours) have passed since login |
| AdminStore.NewProduct | admin.js:138-148 | the new record is always stamped with the fresh `createdAt`. Its id is the generated one unless the form data carries an id. Its name, category, price, quantity, image and `updatedAt` come from the data |
| AdminStore.Merge | admin.js:154-158 | the record is stamped with `updatedAt`. Every other field (id, name, category, price, quantity, image, `createdAt`) is the patch's when the patch carries it and the old record's otherwise, so an empty patch only restamps |
| AdminStore.MergeTwice | admin.js:154-158 | applying a patch twice equals applying it once at the later time |
| AdminStore.ProductUpdated | admin.js:151-163 | `updateProduct` finds a product exactly when the id occurs, and then replaces only the first match by the merged record and returns it. The length is unchanged. Otherwise nothing changes |
| AdminStore.UpdatedFind | admin.js:151-180 | an update that carries no id keeps every id in place, and a later lookup of the id finds the updated record |
| AdminStore.ProductDeleted | admin.js:166-175 | `deleteProduct` finds a product exactly when the id occurs. It then removes and returns the first match, one product shorter and nothing else lost. Otherwise nothing changes |
| AdminStore.DeletedFind | admin.js:166-180 | with unique ids, the deleted id is no longer found and the remaining ids stay unique |
| AdminStore.SampleIdsUnique | admin.js:79-128 | no two seed products share an id |
| AdminStore.SampleTotals | admin.js:79-128 | the seed holds 110 units worth 22948.90 |
| AdminStore.SampleLowStock | admin.js:79-128 | the smart watch (8 units) is the only seed product below 10 units |
| AdminStore.AdminManager.constructor | admin.js:3-8 | starts from the stored catalog, or seeds and stores the samples. A stored session is restored only while it has not expired, and an expired one is removed |
| AdminStore.AdminManager.CheckSession | admin.js:11-26 | reports a live session exactly when one is stored and has not expired. An expired session is logged out, and with nothing stored nothing changes |
| AdminStore.AdminManager.Login | admin.js:29-57 | succeeds exactly for a demo account. On success it starts and stores a session stamped now, and remembers the email when asked. Otherwise nothing changes |
| AdminStore.AdminManager.Logout | admin.js:60-64 | the session and its stored copy are gone |
| AdminStore.AdminManager.LoadProducts | admin.js:67-75 | the catalog is the stored one, or the samples, which are then stored |
| AdminStore.AdminManager.SaveProducts | admin.js:133-135 | the stored catalog becomes the current one |
| AdminStore.AdminManager.AddProduct | admin.js:138-148 | exactly the new record is appended, earlier products are kept, and the catalog is stored |
| AdminStore.AdminManager.UpdateProduct | admin.js:151-163 | the new catalog and the result are those of `ProductUpdated`, stored exactly when found |
| AdminStore.AdminManager.DeleteProduct | admin.js:166-175 | the new catalog and the result are those of `ProductDeleted`, stored exactly when found |
| AdminStore.AdminManager.GetProduct | admin.js:178-180 | some product exactly when the id occurs, and then the first catalog product with that id |
| AdminStore.AdminManager.FilterProducts | admin.js:188-198 | a product is returned exactly when it is in the catalog and matches the term (if any) in name or category, case-insensitively, and the category (if any) exactly |
| AdminStore.AdminManager.AdvancedSearch | admin.js:315-353 | a product is returned exactly when it is in the catalog and meets every filter set: term, category, price bounds, stock bounds, and at most 10 units for low stock |
| AdminStore.AdminManager.GetLowStockAlerts | admin.js:310-312 | a product is returned exactly when it is in the catalog with at most `threshold` units (10 by default) |
| AdminStore.AdminManager.GetStats | admin.js:201-229 | the loop's statistics are the number of products, the stock and value sums, the count below 10 units, and the per-category breakdown `CategoryStats` |
| AdminStore.AdminManager.ImportProducts | admin.js:247-277 | the append loop produces the catalog and outcome of `ImportInto`, so a `null` element fails the whole import with the catalog unchanged, and the catalog is stored exactly on success |

## Left out

- `exportProducts` (admin.js:232-244): it only builds a download link in the page.
- Browser storage and JSON: stored values are fields, and the import file arrives already parsed. Malformed stored JSON (which throws in the source) is not modelled.
- Clocks and random ids are parameters. In the source an imported id is `Date.now() + Math.random()`, a fraction; here it is whatever integer the caller supplies. Timestamps are milliseconds, not ISO strings.
- IEEE floating-point rounding of prices, totals and the tax: the model computes exactly in `real`.
- `toLowerCase`/`toUpperCase` beyond ASCII, and `length` counted in UTF-16 code units: the model folds ASCII letters and counts characters.
- `advancedSearch` coerces numeric form strings with `parseFloat`/`parseInt`, and a filter given as the number 0 would be skipped as falsy. The model takes each numeric filter as an optional number that is already parsed.
- Fields of unexpected JSON types in imported or stored records (a string price, say) are not modelled; fields are typed.
- AdminStore.NewProduct, AdminStore.AdminManager.AddProduct and AdminStore.ProductData: the data given to add a product, and every stored `Product`, are assumed to carry a name, a category, a price and a quantity. `addProduct` (admin.js:138-148) stores whatever object it is given without checking it, and `updateProduct` (admin.js:154-158) can spread an explicitly `undefined` field over a stored one. A stored product missing a field then breaks later calls:
  - Without a quantity, `getStats` sums `undefined`, so its stock and value totals become `NaN` (admin.js:203-204, admin.js:217-219).
  - Without a name or a category, `filterProducts` and `advancedSearch` with a search term throw a `TypeError` (admin.js:191-192, admin.js:322-323).

  The model cannot express these records, so it does not capture these outcomes.
- `getStats` indexes a plain object by category name, so a name such as `constructor` would collide with an inherited property. The model uses a map.
- Object aliasing: the model's records are values, so nothing a caller holds can change the manager's state. In the source these calls share record objects with the manager:
  - `getItems` and `getAllProducts` return shallow copies of the lists (cart.js:103, admin.js:184).
  - `getProduct` returns the stored product itself (admin.js:179).
  - `addProduct` and `updateProduct` return the record they store (admin.js:147, admin.js:160).
  - `filterProducts`, `advancedSearch` and `getLowStockAlerts` return arrays of the stored records (admin.js:189, admin.js:316, admin.js:311).
  - `importProducts` stores the parsed objects after writing `id` and `createdAt` into them (admin.js:267-269).
  A caller writing to any of these would change the catalog or the cart in place.
- A `Cart.AddItem` that adds to an existing line or appends a line changes only the in-memory cart: cart.js:22-48 never calls `saveCart`, and the model follows the code there.
- CatalogQueries.CategoryStats: its contract only says every product's category is a key. That no other key exists is stated by `CategoryKeyOccurs` and `CategoryKeys`.
- The `success`/`message` objects are modelled as result datatypes; the message texts are not kept.

## Findings

| source | as written | input that shows it | evidently intended | confidence | as-written member | corrected member |
|---|---|---|---|---|---|---|
| admin.js:295-297 | `!productData.quantity \|\| productData.quantity < 0` rejects a quantity of 0, because 0 is falsy | name "Yoga Mat", category "Sports", price 79.99, quantity 0 | the message "Quantity must be 0 or greater" accepts 0 units | high (not executed) | CatalogQueries.ValidateChecks, CatalogQueries.ZeroQuantityRejected, CatalogQueries.ZeroQuantityExample | CatalogQueries.ValidateIntendedAccepts |
