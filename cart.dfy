/** The shopping cart of cart.js: a list of line items keyed by product id,
    mutated in place by `CartManager`, plus the pricing of an order. */
module CartStore {
  import opened Lists
  import opened Products
  import Text

  /** A line of the cart: the product's id, a snapshot of its name, price and
      image taken when the line was created, and the quantity selected. */
  datatype CartLine = CartLine(id: int, name: string, price: real, image: Option<string>, quantity: int)

  function LineIds(lines: seq<CartLine>): (ids: seq<int>)
    ensures |ids| == |lines| && forall i :: 0 <= i < |lines| ==> ids[i] == lines[i].id
  {
    seq(|lines|, i requires 0 <= i < |lines| => lines[i].id)
  }

  /** The line `addItem` pushes for a product not yet in the cart. */
  function NewLine(p: Product, quantity: int): CartLine {
    CartLine(p.id, p.name, p.price, p.image, quantity)
  }

  /** The effect of one cart operation: the lines afterwards, the value
      returned, and whether the operation writes the stored cart. */
  datatype Step<R> = Step(lines: seq<CartLine>, result: R, saves: bool)

  datatype AddResult =
    | QuantityUpdated(name: string)   // "<name> quantity updated"
    | AddedToCart(name: string)       // "<name> added to cart"
    | MaxQuantityReached
    | InsufficientStock
  {
    predicate Success() { QuantityUpdated? || AddedToCart? }
  }

  datatype UpdateResult =
    | Removal(removed: Option<CartLine>)   // the result of the delegated removeItem
    | QuantityChanged
    | NotEnoughStock
    | NotInCart
  {
    predicate Success() { (Removal? && removed.Some?) || QuantityChanged? }
  }

  /** `addItem(product, quantity)`. */
  function Added(lines: seq<CartLine>, p: Product, quantity: int): (s: Step<AddResult>)
    ensures !s.saves
    ensures var k := IndexOf(LineIds(lines), p.id);
      && (k >= 0 ==> s.result == QuantityUpdated(p.name) || s.result == MaxQuantityReached)
      && (k < 0 ==> s.result == AddedToCart(p.name) || s.result == InsufficientStock)
      && (s.result.Success() <==>
            if k >= 0 then lines[k].quantity + quantity <= p.quantity else quantity <= p.quantity)
      && (!s.result.Success() ==> s.lines == lines)
      && |lines| <= |s.lines|
      && (forall j :: 0 <= j < |lines| && j != k ==> s.lines[j] == lines[j])
      && (s.result.Success() && k >= 0 ==>
            |s.lines| == |lines| && s.lines[k] == lines[k].(quantity := lines[k].quantity + quantity)
            && s.lines[k].quantity <= p.quantity)
      && (s.result.Success() && k < 0 ==>
            |s.lines| == |lines| + 1 && s.lines[|lines|] == NewLine(p, quantity)
            && s.lines[|lines|].quantity <= p.quantity)
  {
    var k := IndexOf(LineIds(lines), p.id);
    if k >= 0 then
      if lines[k].quantity + quantity <= p.quantity then
        Step(lines[k := lines[k].(quantity := lines[k].quantity + quantity)], QuantityUpdated(p.name), false)
      else
        Step(lines, MaxQuantityReached, false)
    else if quantity <= p.quantity then
      var r := lines + [NewLine(p, quantity)];
      assert LineIds(r) == LineIds(lines) + [p.id];
      Step(r, AddedToCart(p.name), false)
    else
      Step(lines, InsufficientStock, false)
  }

  /** `addItem` keeps the cart's ids distinct: it raises the quantity of the
      line a product already has instead of adding a second one. */
  lemma AddedKeepsUnique(lines: seq<CartLine>, p: Product, quantity: int)
    requires Unique(LineIds(lines))
    ensures Unique(LineIds(Added(lines, p, quantity).lines))
  {
    var k := IndexOf(LineIds(lines), p.id);
    var s := Added(lines, p, quantity);
    if s.result.Success() && k < 0 {
      assert LineIds(s.lines) == LineIds(lines) + [p.id];
    } else if s.result.Success() {
      assert LineIds(s.lines) == LineIds(lines);
    }
  }

  /** `removeItem(id)`. */
  function Removed(lines: seq<CartLine>, id: int): (s: Step<Option<CartLine>>)
    ensures s.result.Some? <==> id in LineIds(lines)
    ensures s.saves <==> s.result.Some?
    ensures s.result.None? ==> s.lines == lines
    ensures s.result.Some? ==>
      && s.result.value.id == id
      && s.result.value == lines[IndexOf(LineIds(lines), id)]
      && s.lines == RemoveAt(lines, IndexOf(LineIds(lines), id))
      && |s.lines| == |lines| - 1
      && multiset(s.lines) + multiset{s.result.value} == multiset(lines)
    ensures Unique(LineIds(lines)) ==>
      Unique(LineIds(s.lines)) && (s.result.Some? ==> id !in LineIds(s.lines))
  {
    var k := IndexOf(LineIds(lines), id);
    if k < 0 then Step(lines, None, false)
    else
      assert LineIds(RemoveAt(lines, k)) == RemoveAt(LineIds(lines), k);
      assert Unique(LineIds(lines)) ==> Unique(LineIds(RemoveAt(lines, k))) && id !in LineIds(RemoveAt(lines, k)) by {
        if Unique(LineIds(lines)) { RemoveAtUnique(LineIds(lines), k); }
      }
      Step(RemoveAt(lines, k), Some(lines[k]), true)
  }

  /** `updateQuantity(id, newQuantity)`, checked against `catalog`, the
      product list stored under the `products` key (empty when absent). */
  function Updated(lines: seq<CartLine>, id: int, newQuantity: int, catalog: seq<Product>): (s: Step<UpdateResult>)
    ensures id !in LineIds(lines) ==> s == Step(lines, NotInCart, false)
    ensures id in LineIds(lines) && newQuantity <= 0 ==>
      var rm := Removed(lines, id); s == Step(rm.lines, Removal(rm.result), rm.saves)
    ensures id in LineIds(lines) && newQuantity > 0 ==>
      && (s.result == QuantityChanged || s.result == NotEnoughStock)
      && (s.result.Success() <==> Find(catalog, id).Some? && newQuantity <= Find(catalog, id).value.quantity)
    ensures s.result == NotEnoughStock ==> s.lines == lines && !s.saves
    ensures s.result == QuantityChanged ==>
      var k := IndexOf(LineIds(lines), id);
      && s.saves && |s.lines| == |lines|
      && s.lines[k] == lines[k].(quantity := newQuantity)
      && (forall j :: 0 <= j < |lines| && j != k ==> s.lines[j] == lines[j])
      && newQuantity <= Find(catalog, id).value.quantity
    ensures Unique(LineIds(lines)) ==> Unique(LineIds(s.lines))
  {
    var k := IndexOf(LineIds(lines), id);
    if k < 0 then Step(lines, NotInCart, false)
    else if newQuantity <= 0 then
      var rm := Removed(lines, id);
      Step(rm.lines, Removal(rm.result), rm.saves)
    else
      var product := Find(catalog, id);
      if product.Some? && newQuantity <= product.value.quantity then
        var r := lines[k := lines[k].(quantity := newQuantity)];
        assert LineIds(r) == LineIds(lines);
        Step(r, QuantityChanged, true)
      else
        Step(lines, NotEnoughStock, false)
  }

  function LineValue(l: CartLine): real {
    l.price * l.quantity as real
  }

  /** Changing a line's quantity by `q` changes its value by price times `q`. */
  lemma LineValueShift(l: CartLine, q: int)
    ensures LineValue(l.(quantity := l.quantity + q)) == LineValue(l) + l.price * q as real
  {
    assert (l.quantity + q) as real == l.quantity as real + q as real;
  }

  /** Setting a line's quantity to `q` changes its value by price times the
      difference. */
  lemma LineValueSet(l: CartLine, q: int)
    ensures LineValue(l.(quantity := q)) == LineValue(l) + l.price * (q - l.quantity) as real
  {
    assert q as real == l.quantity as real + (q - l.quantity) as real;
  }

  /** `getTotal`: the sum of price times quantity, folded from the left. */
  function Total(lines: seq<CartLine>): (t: real)
    ensures lines == [] ==> t == 0.0
  {
    if lines == [] then 0.0 else Total(lines[..|lines| - 1]) + LineValue(lines[|lines| - 1])
  }

  /** The total is never negative when no price and no quantity is. */
  lemma {:induction false} TotalNonNegative(lines: seq<CartLine>)
    requires forall i :: 0 <= i < |lines| ==> lines[i].price >= 0.0 && lines[i].quantity >= 0
    ensures Total(lines) >= 0.0
  {
    if lines != [] {
      var init, l := lines[..|lines| - 1], lines[|lines| - 1];
      assert forall i :: 0 <= i < |init| ==> init[i] == lines[i];
      TotalNonNegative(init);
      assert l.price * l.quantity as real >= 0.0;
    }
  }

  /** `getItemCount`: the sum of the quantities, folded from the left. */
  function ItemCount(lines: seq<CartLine>): (c: int)
    ensures lines == [] ==> c == 0
    ensures (forall i :: 0 <= i < |lines| ==> lines[i].quantity >= 0) ==>
      c >= 0 && forall i :: 0 <= i < |lines| ==> lines[i].quantity <= c
  {
    if lines == [] then 0 else ItemCount(lines[..|lines| - 1]) + lines[|lines| - 1].quantity
  }

  lemma {:induction false} TotalUpdate(lines: seq<CartLine>, k: nat, l: CartLine)
    requires k < |lines|
    ensures Total(lines[k := l]) == Total(lines) - LineValue(lines[k]) + LineValue(l)
    ensures ItemCount(lines[k := l]) == ItemCount(lines) - lines[k].quantity + l.quantity
  {
    var n := |lines| - 1;
    if k < n {
      TotalUpdate(lines[..n], k, l);
      assert lines[k := l][..n] == lines[..n][k := l];
    } else {
      assert lines[k := l][..n] == lines[..n];
    }
  }

  lemma {:induction false} TotalRemoveAt(lines: seq<CartLine>, k: nat)
    requires k < |lines|
    ensures Total(RemoveAt(lines, k)) == Total(lines) - LineValue(lines[k])
    ensures ItemCount(RemoveAt(lines, k)) == ItemCount(lines) - lines[k].quantity
  {
    var n := |lines| - 1;
    var r := RemoveAt(lines, k);
    if k < n {
      TotalRemoveAt(lines[..n], k);
      assert r[..n - 1] == RemoveAt(lines[..n], k);
      assert r[n - 1] == lines[n];
    } else {
      assert r == lines[..n];
    }
  }

  /** A successful `addItem` changes the total by the change in the value of
      the line it touched, and raises the item count by the quantity added. */
  lemma AddedTotals(lines: seq<CartLine>, p: Product, quantity: int, k: int)
    requires Added(lines, p, quantity).result.Success()
    requires k == IndexOf(LineIds(lines), p.id)
    ensures var after := Added(lines, p, quantity).lines;
      && (k >= 0 ==> Total(after) == Total(lines) - LineValue(lines[k]) + LineValue(after[k]))
      && (k < 0 ==> Total(after) == Total(lines) + LineValue(NewLine(p, quantity)))
      && ItemCount(after) == ItemCount(lines) + quantity
  {
    if k >= 0 {
      var l := lines[k].(quantity := lines[k].quantity + quantity);
      assert Added(lines, p, quantity).lines == lines[k := l];
      TotalUpdate(lines, k, l);
    } else {
      var r := lines + [NewLine(p, quantity)];
      assert Added(lines, p, quantity).lines == r;
      assert r[..|r| - 1] == lines;
    }
  }

  /** A successful `removeItem` lowers the total and the item count by what
      the removed line contributed. */
  lemma RemovedTotals(lines: seq<CartLine>, id: int)
    requires Removed(lines, id).result.Some?
    ensures var s := Removed(lines, id);
      && Total(s.lines) == Total(lines) - LineValue(s.result.value)
      && ItemCount(s.lines) == ItemCount(lines) - s.result.value.quantity
  {
    TotalRemoveAt(lines, IndexOf(LineIds(lines), id));
  }

  /** A successful quantity change replaces the old line's value in the total
      by the new one's, and moves the item count by the difference. */
  lemma UpdatedTotals(lines: seq<CartLine>, id: int, newQuantity: int, catalog: seq<Product>, k: nat)
    requires Updated(lines, id, newQuantity, catalog).result == QuantityChanged
    requires k == IndexOf(LineIds(lines), id)
    ensures var after := Updated(lines, id, newQuantity, catalog).lines;
      && Total(after) == Total(lines) - LineValue(lines[k]) + LineValue(lines[k].(quantity := newQuantity))
      && ItemCount(after) == ItemCount(lines) + newQuantity - lines[k].quantity
  {
    var l := lines[k].(quantity := newQuantity);
    assert Updated(lines, id, newQuantity, catalog).lines == lines[k := l];
    TotalUpdate(lines, k, l);
  }

  /** Setting one line's quantity to `q` moves the total by that line's
      price times the change of its quantity. */
  lemma SetQuantityTotal(lines: seq<CartLine>, k: nat, q: int)
    requires k < |lines|
    ensures Total(lines[k := lines[k].(quantity := q)]) ==
      Total(lines) + lines[k].price * (q - lines[k].quantity) as real
  {
    var l := lines[k].(quantity := q);
    var c, d := LineValue(lines[k]), LineValue(l);
    LineValueSet(lines[k], q);
    assert d == c + lines[k].price * (q - lines[k].quantity) as real;
    TotalUpdate(lines, k, l);
  }

  /** The lines after a successful `addItem`: the existing line with its
      quantity raised, or the old lines followed by a new one. */
  lemma AddedLines(lines: seq<CartLine>, p: Product, quantity: int, k: int)
    requires Added(lines, p, quantity).result.Success()
    requires k == IndexOf(LineIds(lines), p.id)
    ensures k >= 0 ==> Added(lines, p, quantity).lines == lines[k := lines[k].(quantity := lines[k].quantity + quantity)]
    ensures k < 0 ==> Added(lines, p, quantity).lines == lines + [NewLine(p, quantity)]
  {
  }

  /** Equal line lists have equal totals. */
  lemma TotalOfEqual(a: seq<CartLine>, b: seq<CartLine>)
    requires a == b
    ensures Total(a) == Total(b)
  {
  }

  /** Raising one line's quantity by `q` raises the total by that line's
      price times `q`. */
  lemma ShiftQuantityTotal(lines: seq<CartLine>, k: nat, q: int)
    requires k < |lines|
    ensures Total(lines[k := lines[k].(quantity := lines[k].quantity + q)]) ==
      Total(lines) + lines[k].price * q as real
  {
    var l := lines[k].(quantity := lines[k].quantity + q);
    var c, d := LineValue(lines[k]), LineValue(l);
    LineValueShift(lines[k], q);
    assert d == c + lines[k].price * q as real;
    TotalUpdate(lines, k, l);
  }

  /** Appending a new line for `quantity` units of `p` adds the product's
      price times `quantity` to the total. */
  lemma NewLineTotal(lines: seq<CartLine>, p: Product, quantity: int)
    ensures Total(lines + [NewLine(p, quantity)]) == Total(lines) + p.price * quantity as real
  {
    var r := lines + [NewLine(p, quantity)];
    assert r[..|r| - 1] == lines;
  }

  /** `AddedRaisesTotal` for a product already in the cart. */
  lemma AddedToLineTotal(lines: seq<CartLine>, p: Product, quantity: int, k: int)
    requires Added(lines, p, quantity).result.Success()
    requires k == IndexOf(LineIds(lines), p.id) && k >= 0
    ensures Total(Added(lines, p, quantity).lines) == Total(lines) + lines[k].price * quantity as real
  {
    var upd := lines[k := lines[k].(quantity := lines[k].quantity + quantity)];
    AddedLines(lines, p, quantity, k);
    TotalOfEqual(Added(lines, p, quantity).lines, upd);
    ShiftQuantityTotal(lines, k, quantity);
  }

  /** `AddedRaisesTotal` for a product not yet in the cart. */
  lemma AddedNewLineTotal(lines: seq<CartLine>, p: Product, quantity: int, k: int)
    requires Added(lines, p, quantity).result.Success()
    requires k == IndexOf(LineIds(lines), p.id) && k < 0
    ensures Total(Added(lines, p, quantity).lines) == Total(lines) + p.price * quantity as real
  {
    AddedLines(lines, p, quantity, k);
    TotalOfEqual(Added(lines, p, quantity).lines, lines + [NewLine(p, quantity)]);
    NewLineTotal(lines, p, quantity);
  }

  /** A successful `addItem` of `quantity` units raises the total by the
      line's price times `quantity`: the snapshot price of an existing line,
      or the product's price for a new one. */
  lemma AddedRaisesTotal(lines: seq<CartLine>, p: Product, quantity: int, k: int)
    requires Added(lines, p, quantity).result.Success()
    requires k == IndexOf(LineIds(lines), p.id)
    ensures var after := Added(lines, p, quantity).lines;
      && (k >= 0 ==> Total(after) == Total(lines) + lines[k].price * quantity as real)
      && (k < 0 ==> Total(after) == Total(lines) + p.price * quantity as real)
  {
    if k >= 0 {
      AddedToLineTotal(lines, p, quantity, k);
    } else {
      AddedNewLineTotal(lines, p, quantity, k);
    }
  }

  /** A successful quantity change moves the total by the line's price times
      the change in its quantity. */
  lemma UpdatedMovesTotal(lines: seq<CartLine>, id: int, newQuantity: int, catalog: seq<Product>, k: nat)
    requires Updated(lines, id, newQuantity, catalog).result == QuantityChanged
    requires k == IndexOf(LineIds(lines), id)
    ensures Total(Updated(lines, id, newQuantity, catalog).lines) ==
      Total(lines) + lines[k].price * (newQuantity - lines[k].quantity) as real
  {
    assert Updated(lines, id, newQuantity, catalog).lines == lines[k := lines[k].(quantity := newQuantity)];
    SetQuantityTotal(lines, k, newQuantity);
  }

  /** The fixed discount table of `applyDiscount`. */
  const Discounts: map<string, real> := map["SAVE10" := 0.1, "SAVE20" := 0.2, "WELCOME" := 0.15, "SPECIAL" := 0.25]

  /** `applyDiscount(code)`: the table entry for the upper-cased code, or 0. */
  function DiscountRate(code: string): (rate: real)
    ensures var key := Text.ToUpper(code);
      && (rate == 0.1 <==> key == "SAVE10")
      && (rate == 0.2 <==> key == "SAVE20")
      && (rate == 0.15 <==> key == "WELCOME")
      && (rate == 0.25 <==> key == "SPECIAL")
      && (rate == 0.0 <==> key !in {"SAVE10", "SAVE20", "WELCOME", "SPECIAL"})
  {
    var key := Text.ToUpper(code);
    if key in Discounts && Discounts[key] != 0.0 then Discounts[key] else 0.0
  }

  /** The code is looked up without regard to the case of its letters. */
  lemma DiscountIgnoresCase(a: string, b: string)
    requires Text.ToUpper(a) == Text.ToUpper(b)
    ensures DiscountRate(a) == DiscountRate(b)
  {
  }

  lemma LowerCaseCode()
    ensures DiscountRate("save10") == 0.1 && DiscountRate("Welcome") == 0.15
    ensures DiscountRate("") == 0.0 && DiscountRate("SAVE5") == 0.0
  {
    assert Text.ToUpper("save10") == "SAVE10";
    assert Text.ToUpper("Welcome") == "WELCOME";
  }

  /** `calculateShipping`: free above 100, 9.99 otherwise. */
  function Shipping(subtotal: real): (fee: real)
    ensures fee == 0.0 <==> subtotal > 100.0
    ensures fee == 0.0 || fee == 9.99
  {
    if subtotal > 100.0 then 0.0 else 9.99
  }

  /** `calculateTax`: ten percent of the subtotal. */
  function Tax(subtotal: real): (tax: real)
    ensures tax * 10.0 == subtotal
  {
    subtotal * 0.1
  }

  datatype OrderSummary = OrderSummary(subtotal: real, tax: real, shipping: real, discount: real, total: real, itemCount: int)

  /** `getOrderSummary(code)` for a cart with the given subtotal and item count;
      an empty code applies no discount. */
  function Summarize(subtotal: real, itemCount: int, code: string): (o: OrderSummary)
    ensures o.subtotal == subtotal && o.itemCount == itemCount
    ensures o.tax * 10.0 == subtotal
    ensures o.shipping == 0.0 <==> subtotal > 100.0
    ensures subtotal <= 100.0 ==> o.shipping == 9.99
    ensures o.discount == subtotal * DiscountRate(code)
    ensures o.total == o.subtotal + o.tax + o.shipping - o.discount
    ensures subtotal >= 0.0 ==> 0.0 <= o.discount <= subtotal * 0.25 && o.total > 0.0
  {
    var tax := Tax(subtotal);
    var shipping := Shipping(subtotal);
    var rate := if code != "" then DiscountRate(code) else 0.0;
    var discount := subtotal * rate;
    OrderSummary(subtotal, tax, shipping, discount, subtotal + tax + shipping - discount, itemCount)
  }

  /** The two worked orders: a subtotal of 150 with no code, and a subtotal of
      50 with the code "save10". */
  lemma SummaryExamples(n: int)
    ensures var o := Summarize(150.0, n, "");
      o.shipping == 0.0 && o.tax == 15.0 && o.total == 165.0
    ensures var o := Summarize(50.0, n, "save10");
      o.discount == 5.0 && o.shipping == 9.99 && o.tax == 5.0 && o.total == 59.99
  {
    LowerCaseCode();
  }

  /** The stock scenario: a product with price 100 and stock 5; adding 3 twice
      succeeds once and then fails, leaving the total at 300. */
  lemma StockExample(p: Product)
    requires p.id == 1 && p.price == 100.0 && p.quantity == 5
    ensures var first := Added([], p, 3);
      && first.result.Success() && Total(first.lines) == 300.0
      && var second := Added(first.lines, p, 3);
         !second.result.Success() && Total(second.lines) == 300.0
  {
    var first := Added([], p, 3);
    assert first.lines == [NewLine(p, 3)];
    AddedTotals([], p, 3, -1);
    assert IndexOf(LineIds(first.lines), p.id) == 0;
  }

  /** `CartManager`: the in-memory cart and the copy stored under the `cart`
      key (`None` while nothing is stored). */
  class Cart {
    var items: seq<CartLine>
    var saved: Option<seq<CartLine>>

    /** `loadCart`: start from the stored cart, or an empty one. */
    constructor (stored: Option<seq<CartLine>>)
      ensures items == stored.GetOr([]) && saved == stored
    {
      items := stored.GetOr([]);
      saved := stored;
    }

    /** `saveCart`. */
    method SaveCart()
      modifies this`saved
      ensures saved == Some(items)
    {
      saved := Some(items);
    }

    method AddItem(product: Product, quantity: int := 1) returns (r: AddResult)
      modifies this`items
      ensures Step(items, r, false) == Added(old(items), product, quantity)
      ensures saved == old(saved)
    {
      var k := IndexOf(LineIds(items), product.id);
      if k >= 0 {
        if items[k].quantity + quantity <= product.quantity {
          items := items[k := items[k].(quantity := items[k].quantity + quantity)];
          r := QuantityUpdated(product.name);
        } else {
          r := MaxQuantityReached;
        }
      } else {
        if quantity <= product.quantity {
          items := items + [NewLine(product, quantity)];
          r := AddedToCart(product.name);
        } else {
          r := InsufficientStock;
        }
      }
    }

    method RemoveItem(id: int) returns (r: Option<CartLine>)
      modifies this
      ensures var s := Removed(old(items), id);
        items == s.lines && r == s.result && saved == if s.saves then Some(items) else old(saved)
    {
      var k := IndexOf(LineIds(items), id);
      if k >= 0 {
        r := Some(items[k]);
        items := RemoveAt(items, k);
        SaveCart();
      } else {
        r := None;
      }
    }

    method UpdateQuantity(id: int, newQuantity: int, catalog: seq<Product>) returns (r: UpdateResult)
      modifies this
      ensures var s := Updated(old(items), id, newQuantity, catalog);
        items == s.lines && r == s.result && saved == if s.saves then Some(items) else old(saved)
    {
      var k := IndexOf(LineIds(items), id);
      if k >= 0 {
        if newQuantity <= 0 {
          var removed := RemoveItem(id);
          return Removal(removed);
        }
        var product := Find(catalog, id);
        if product.Some? && newQuantity <= product.value.quantity {
          items := items[k := items[k].(quantity := newQuantity)];
          SaveCart();
          r := QuantityChanged;
        } else {
          r := NotEnoughStock;
        }
      } else {
        r := NotInCart;
      }
    }

    method ClearCart()
      modifies this
      ensures items == [] && saved == Some([])
      ensures IsEmpty() && GetTotal() == 0.0 && GetItemCount() == 0
    {
      items := [];
      SaveCart();
    }

    function GetTotal(): real
      reads this
    {
      Total(items)
    }

    function GetItemCount(): int
      reads this
    {
      ItemCount(items)
    }

    /** `getItems`: a copy of the lines (a sequence is a value, so the caller
        cannot alter the cart through it). */
    function GetItems(): seq<CartLine>
      reads this
    {
      items
    }

    function IsEmpty(): (empty: bool)
      reads this
      ensures empty <==> |items| == 0
      ensures empty ==> GetTotal() == 0.0 && GetItemCount() == 0
    {
      |items| == 0
    }

    function GetOrderSummary(code: string := ""): OrderSummary
      reads this
    {
      Summarize(Total(items), ItemCount(items), code)
    }
  }
}
