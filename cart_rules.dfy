/**
 * The rules of the point-of-sale cart, stated on values: what adding a
 * product, changing a quantity and removing a product do to the list of cart
 * lines, how the order total is computed, and what the purchase request sent
 * at checkout contains. The `Cart` class in CartEngine performs these steps
 * in place and is proved to agree with them.
 */
module CartRules {
  import opened Wrappers
  import opened Seqs
  import opened Catalog

  /**
   * One line of the cart. `price` is the discounted unit price captured when
   * the product was first added, `maxStock` the stock level seen then.
   */
  datatype Line = Line(
    id: int,
    productInventoryId: int,
    name: string,
    price: real,
    originalPrice: real,
    discount: real,
    quantity: int,
    maxStock: int)

  /** Why a cart operation was refused; each is a distinct alert in the front end. */
  datatype CartError =
    | OutOfStock           // "Product out of stock!"
    | NotEnoughStock       // "Not enough stock available!"
    | EmptyCart            // "Cart is empty!"
    | InsufficientPayment  // "Insufficient payment amount!"

  /** One entry of the purchase request body `{items: [...]}`. */
  datatype OrderItem = OrderItem(productInventoryId: int, quantity: int)

  // ---------------------------------------------------------------------
  // Invariants of the cart

  ghost predicate UniqueIds(lines: seq<Line>)
  {
    forall i, j :: 0 <= i < j < |lines| ==> lines[i].id != lines[j].id
  }

  ghost predicate PositiveQuantities(lines: seq<Line>)
  {
    forall l :: l in lines ==> 1 <= l.quantity
  }

  /** Every line was made from one inventory item, so its two ids agree. */
  ghost predicate IdsAgree(lines: seq<Line>)
  {
    forall l :: l in lines ==> l.productInventoryId == l.id
  }

  /** What every reachable cart satisfies. */
  ghost predicate WellFormed(lines: seq<Line>)
  {
    UniqueIds(lines) && PositiveQuantities(lines) && IdsAgree(lines)
  }

  /** No line holds more units than the stock captured for it. */
  ghost predicate WithinStock(lines: seq<Line>)
  {
    forall l :: l in lines ==> l.quantity <= l.maxStock
  }

  // ---------------------------------------------------------------------
  // Finding a line: `cart.find(item => item.id === id)`

  /** The index of the first line with this id, if any. */
  function IndexOf(lines: seq<Line>, id: int): (r: Option<nat>)
    ensures r.Some? ==> r.value < |lines| && lines[r.value].id == id
    ensures r.Some? ==> forall j :: 0 <= j < r.value ==> lines[j].id != id
    ensures r.None? ==> forall j :: 0 <= j < |lines| ==> lines[j].id != id
  {
    if lines == [] then None
    else if lines[0].id == id then Some(0)
    else match IndexOf(lines[1..], id)
      case None => None
      case Some(k) => Some(k + 1)
  }

  /** In a cart with unique ids, the line with an id is found at its own index. */
  lemma IndexOfUnique(lines: seq<Line>, k: int)
    requires UniqueIds(lines) && 0 <= k < |lines|
    ensures IndexOf(lines, lines[k].id) == Some(k)
  {
    var r := IndexOf(lines, lines[k].id);
    assert r.Some?;
  }

  lemma InIndex(lines: seq<Line>, l: Line) returns (i: int)
    requires l in lines
    ensures 0 <= i < |lines| && lines[i] == l
  {
    i :| 0 <= i < |lines| && lines[i] == l;
  }

  // ---------------------------------------------------------------------
  // addToCart

  /** The line pushed for a product not yet in the cart. */
  function NewLine(p: Product): Line
  {
    Line(p.id, p.id, Label(p), EffectivePrice(p), p.salePrice, DiscountOf(p), 1, Stock(p))
  }

  /** The cart with line `k` set to quantity `q` and nothing else changed. */
  function WithQuantity(lines: seq<Line>, k: int, q: int): seq<Line>
    requires 0 <= k < |lines|
  {
    lines[k := lines[k].(quantity := q)]
  }

  /**
   * addToCart(product): refuse a product with no stock; increment the line
   * already holding it while its quantity is below the product's CURRENT
   * stock; otherwise append a new line of quantity 1.
   */
  function Add(lines: seq<Line>, p: Product): Result<seq<Line>, CartError>
  {
    var available := Stock(p);
    if available <= 0 then Failure(OutOfStock)
    else match IndexOf(lines, p.id)
      case Some(k) =>
        if lines[k].quantity < available then Success(WithQuantity(lines, k, lines[k].quantity + 1))
        else Failure(NotEnoughStock)
      case None => Success(lines + [NewLine(p)])
  }

  /** A product with no stock (or none recorded) is always refused, and only such a product is refused as out of stock. */
  lemma AddOutOfStock(lines: seq<Line>, p: Product)
    ensures Add(lines, p) == Failure(OutOfStock) <==> Stock(p) <= 0
    ensures p.saleQuantity.None? ==> Add(lines, p) == Failure(OutOfStock)
  {
  }

  /** A product not yet in the cart gets exactly one new line at the end; earlier lines are untouched. */
  lemma AddNew(lines: seq<Line>, p: Product)
    requires Stock(p) > 0
    requires forall l :: l in lines ==> l.id != p.id
    ensures Add(lines, p).Success?
    ensures var r := Add(lines, p).value;
      |r| == |lines| + 1 && r[..|lines|] == lines &&
      r[|lines|].id == p.id && r[|lines|].productInventoryId == p.id &&
      r[|lines|].quantity == 1 &&
      r[|lines|].price == p.salePrice * (1.0 - DiscountOf(p)) &&
      r[|lines|].maxStock == Stock(p)
  {
    assert (lines + [NewLine(p)])[..|lines|] == lines;
  }

  /**
   * A product already in the cart gains one unit if its line is below the
   * product's current stock, and otherwise is refused; the line's price is not
   * re-read and no second line appears.
   */
  lemma AddExisting(lines: seq<Line>, p: Product, k: int)
    requires UniqueIds(lines) && 0 <= k < |lines| && lines[k].id == p.id
    requires Stock(p) > 0
    ensures lines[k].quantity < Stock(p) ==>
      Add(lines, p) == Success(lines[k := lines[k].(quantity := lines[k].quantity + 1)])
    ensures lines[k].quantity >= Stock(p) ==> Add(lines, p) == Failure(NotEnoughStock)
  {
    IndexOfUnique(lines, k);
  }

  /** Updating one line's quantity keeps the others and the line's other fields. */
  lemma WithQuantityMembership(lines: seq<Line>, k: int, q: int, l: Line)
    requires 0 <= k < |lines| && l in WithQuantity(lines, k, q)
    ensures l == lines[k].(quantity := q) || l in lines
  {
    var i := InIndex(WithQuantity(lines, k, q), l);
    if i != k {
      assert lines[i] == l;
    }
  }

  lemma WithQuantityPreservesWellFormed(lines: seq<Line>, k: int, q: int)
    requires WellFormed(lines) && 0 <= k < |lines| && 1 <= q
    ensures WellFormed(WithQuantity(lines, k, q))
  {
    var r := WithQuantity(lines, k, q);
    assert lines[k] in lines;
    forall l | l in r
      ensures 1 <= l.quantity && l.productInventoryId == l.id
    {
      WithQuantityMembership(lines, k, q, l);
    }
  }

  /** addToCart keeps ids unique, quantities positive and each line's two ids equal. */
  lemma AddPreservesWellFormed(lines: seq<Line>, p: Product)
    requires WellFormed(lines)
    ensures Add(lines, p).Success? ==> WellFormed(Add(lines, p).value)
  {
    if Stock(p) > 0 {
      match IndexOf(lines, p.id)
      case Some(k) =>
        WithQuantityPreservesWellFormed(lines, k, lines[k].quantity + 1);
      case None =>
        var r := lines + [NewLine(p)];
        forall i, j | 0 <= i < j < |r|
          ensures r[i].id != r[j].id
        {
          if j == |lines| {
            assert r[i] == lines[i];
          } else {
            assert r[i] == lines[i] && r[j] == lines[j];
          }
        }
        forall l | l in r
          ensures 1 <= l.quantity && l.productInventoryId == l.id
        {
          if l != NewLine(p) {
            assert l in lines;
          }
        }
    }
  }

  /**
   * addToCart keeps every line within its captured stock provided the product's
   * current stock is no more than the stock captured for its line.
   */
  lemma AddKeepsWithinStock(lines: seq<Line>, p: Product)
    requires WithinStock(lines)
    requires forall l :: l in lines && l.id == p.id ==> Stock(p) <= l.maxStock
    ensures Add(lines, p).Success? ==> WithinStock(Add(lines, p).value)
  {
    if Stock(p) > 0 {
      match IndexOf(lines, p.id)
      case Some(k) =>
        var q := lines[k].quantity + 1;
        assert lines[k] in lines;
        if q <= Stock(p) {
          forall l | l in WithQuantity(lines, k, q)
            ensures l.quantity <= l.maxStock
          {
            WithQuantityMembership(lines, k, q, l);
          }
        }
      case None =>
        forall l | l in lines + [NewLine(p)]
          ensures l.quantity <= l.maxStock
        {
          if l != NewLine(p) {
            assert l in lines;
          }
        }
    }
  }

  /**
   * Without that proviso the bound can be broken: the stock is re-read from the
   * product, not from the line, so after a refresh raised it from 1 to 5 a
   * second unit is added to a line whose captured stock is 1.
   */
  lemma AddCanExceedMaxStock()
    ensures var lines := [Line(7, 7, "Tea", 2.0, 2.0, 0.0, 1, 1)];
      var p := Product(7, Some("Tea"), None, 2.0, None, Some(5));
      WellFormed(lines) && WithinStock(lines) &&
      Add(lines, p).Success? && !WithinStock(Add(lines, p).value)
  {
    var lines := [Line(7, 7, "Tea", 2.0, 2.0, 0.0, 1, 1)];
    var p := Product(7, Some("Tea"), None, 2.0, None, Some(5));
    assert IndexOf(lines, 7) == Some(0);
    assert Add(lines, p).value[0] in Add(lines, p).value;
  }

  // ---------------------------------------------------------------------
  // removeFromCart and clearCart

  /** removeFromCart(id): `cart.filter(item => item.id !== id)`. */
  function Remove(lines: seq<Line>, id: int): seq<Line>
  {
    Filter(lines, (l: Line) => l.id != id)
  }

  /** Removal drops exactly the lines with the id and keeps the rest in their order. */
  lemma RemoveMembership(lines: seq<Line>, id: int, l: Line)
    ensures l in Remove(lines, id) <==> l in lines && l.id != id
    ensures IsSubsequence(Remove(lines, id), lines)
  {
    FilterMembership(lines, (l: Line) => l.id != id, l);
    FilterIsSubsequence(lines, (l: Line) => l.id != id);
  }

  /** With unique ids, removing the id of line `k` is deleting index `k`. */
  lemma RemoveAt(lines: seq<Line>, k: int)
    requires UniqueIds(lines) && 0 <= k < |lines|
    ensures Remove(lines, lines[k].id) == lines[..k] + lines[k + 1..]
  {
    var id := lines[k].id;
    var keep := (l: Line) => l.id != id;
    var before, after := lines[..k], lines[k + 1..];
    assert lines == before + ([lines[k]] + after);
    FilterConcat(before, [lines[k]] + after, keep);
    FilterConcat([lines[k]], after, keep);
    assert Filter([lines[k]], keep) == [] by {
      assert [lines[k]][1..] == [];
    }
    forall l | l in before
      ensures keep(l)
    {
      var i := InIndex(before, l);
      assert lines[i] == l;
    }
    forall l | l in after
      ensures keep(l)
    {
      var i := InIndex(after, l);
      assert lines[k + 1 + i] == l;
    }
    FilterAllKept(before, keep);
    FilterAllKept(after, keep);
  }

  /** Removing an id that no line has leaves the cart equal. */
  lemma RemoveMissing(lines: seq<Line>, id: int)
    requires forall l :: l in lines ==> l.id != id
    ensures Remove(lines, id) == lines
  {
    FilterAllKept(lines, (l: Line) => l.id != id);
  }

  /** Removing twice is removing once. */
  lemma RemoveIdempotent(lines: seq<Line>, id: int)
    ensures Remove(Remove(lines, id), id) == Remove(lines, id)
  {
    FilterIdempotent(lines, (l: Line) => l.id != id);
  }

  lemma UniqueIdsDelete(lines: seq<Line>, k: int)
    requires UniqueIds(lines) && 0 <= k < |lines|
    ensures UniqueIds(lines[..k] + lines[k + 1..])
  {
    var r := lines[..k] + lines[k + 1..];
    forall i, j | 0 <= i < j < |r|
      ensures r[i].id != r[j].id
    {
      var i', j' := if i < k then i else i + 1, if j < k then j else j + 1;
      assert r[i] == lines[i'] && r[j] == lines[j'];
    }
  }

  /** removeFromCart keeps the cart well formed and within its captured stock. */
  lemma RemovePreservesInvariants(lines: seq<Line>, id: int)
    requires WellFormed(lines)
    ensures WellFormed(Remove(lines, id))
    ensures WithinStock(lines) ==> WithinStock(Remove(lines, id))
  {
    var r := Remove(lines, id);
    match IndexOf(lines, id)
    case Some(k) =>
      RemoveAt(lines, k);
      UniqueIdsDelete(lines, k);
    case None =>
      RemoveMissing(lines, id);
  }

  // ---------------------------------------------------------------------
  // updateQuantity

  /**
   * updateQuantity(id, change): nothing happens for an id not in the cart; a
   * new quantity of zero or less removes the line; one up to the line's
   * captured stock replaces the quantity; a larger one is refused.
   */
  function Update(lines: seq<Line>, id: int, change: int): Result<seq<Line>, CartError>
  {
    match IndexOf(lines, id)
    case None => Success(lines)
    case Some(k) =>
      var q := lines[k].quantity + change;
      if q <= 0 then Success(Remove(lines, id))
      else if q <= lines[k].maxStock then Success(WithQuantity(lines, k, q))
      else Failure(NotEnoughStock)
  }

  /** Changing the quantity of an id not in the cart does nothing. */
  lemma UpdateAbsent(lines: seq<Line>, id: int, change: int)
    requires forall l :: l in lines ==> l.id != id
    ensures Update(lines, id, change) == Success(lines)
  {
  }

  /** The three outcomes of changing the quantity of line `k` in a well-formed cart. */
  lemma UpdateAt(lines: seq<Line>, k: int, change: int)
    requires UniqueIds(lines) && 0 <= k < |lines|
    ensures var q := lines[k].quantity + change;
      Update(lines, lines[k].id, change) ==
        if q <= 0 then Success(lines[..k] + lines[k + 1..])
        else if q <= lines[k].maxStock then Success(lines[k := lines[k].(quantity := q)])
        else Failure(NotEnoughStock)
  {
    IndexOfUnique(lines, k);
    RemoveAt(lines, k);
  }

  /** Taking away all of a line's units is the same as removing it. */
  lemma UpdateAllUnitsIsRemove(lines: seq<Line>, k: int)
    requires UniqueIds(lines) && 0 <= k < |lines|
    ensures Update(lines, lines[k].id, -lines[k].quantity) == Success(Remove(lines, lines[k].id))
  {
    IndexOfUnique(lines, k);
  }

  /** updateQuantity keeps the cart well formed and every line within its captured stock. */
  lemma UpdatePreservesInvariants(lines: seq<Line>, id: int, change: int)
    requires WellFormed(lines)
    ensures Update(lines, id, change).Success? ==> WellFormed(Update(lines, id, change).value)
    ensures WithinStock(lines) && Update(lines, id, change).Success? ==>
      WithinStock(Update(lines, id, change).value)
  {
    match IndexOf(lines, id)
    case None =>
    case Some(k) =>
      var q := lines[k].quantity + change;
      if q <= 0 {
        RemovePreservesInvariants(lines, id);
      } else if q <= lines[k].maxStock {
        WithQuantityPreservesWellFormed(lines, k, q);
        if WithinStock(lines) {
          forall l | l in WithQuantity(lines, k, q)
            ensures l.quantity <= l.maxStock
          {
            WithQuantityMembership(lines, k, q, l);
          }
        }
      }
  }

  // ---------------------------------------------------------------------
  // Order totals

  /** What one line contributes, `item.price * item.quantity`. */
  function Amount(l: Line): real
  {
    l.price * (l.quantity as real)
  }

  /** `cart.reduce((sum, item) => sum + item.price * item.quantity, 0)`, folded from the left. */
  function Subtotal(lines: seq<Line>): real
  {
    if lines == [] then 0.0 else Subtotal(lines[..|lines| - 1]) + Amount(lines[|lines| - 1])
  }

  /** `total * (settings.taxRate / 100)`. */
  function Tax(subtotal: real, taxRate: real): real
  {
    subtotal * (taxRate / 100.0)
  }

  /** The order total with tax, as shown in the cart and in the checkout dialog. */
  function Total(lines: seq<Line>, taxRate: real): (t: real)
    ensures t == Subtotal(lines) * (1.0 + taxRate / 100.0)
    ensures taxRate == 0.0 ==> t == Subtotal(lines)
    ensures Subtotal(lines) >= 0.0 && taxRate >= 0.0 ==> t >= Subtotal(lines)
  {
    var subtotal := Subtotal(lines);
    subtotal + Tax(subtotal, taxRate)
  }

  lemma {:induction false} SubtotalAppend(a: seq<Line>, b: seq<Line>)
    ensures Subtotal(a + b) == Subtotal(a) + Subtotal(b)
  {
    if b == [] {
      assert a + b == a;
    } else {
      var c := a + b;
      assert c[..|c| - 1] == a + b[..|b| - 1];
      assert c[|c| - 1] == b[|b| - 1];
      SubtotalAppend(a, b[..|b| - 1]);
    }
  }

  lemma SubtotalSingle(l: Line)
    ensures Subtotal([l]) == Amount(l)
  {
    assert [l][..0] == [];
  }

  /** With no negative prices and quantities, the subtotal is not negative. */
  lemma {:induction false} SubtotalNonNegative(lines: seq<Line>)
    requires forall l :: l in lines ==> l.price >= 0.0 && l.quantity >= 0
    ensures Subtotal(lines) >= 0.0
  {
    if lines != [] {
      var last := lines[|lines| - 1];
      assert last in lines;
      assert forall l :: l in lines[..|lines| - 1] ==> l in lines;
      SubtotalNonNegative(lines[..|lines| - 1]);
    }
  }

  /** The subtotal around one line is the subtotals of both sides plus that line's amount. */
  lemma SubtotalSplit(before: seq<Line>, l: Line, after: seq<Line>)
    ensures Subtotal(before + [l] + after) == Subtotal(before) + Amount(l) + Subtotal(after)
  {
    SubtotalAppend(before + [l], after);
    SubtotalAppend(before, [l]);
    SubtotalSingle(l);
  }

  /** Changing one line's quantity changes the subtotal by that line's difference alone. */
  lemma SubtotalWithQuantity(lines: seq<Line>, k: int, q: int)
    requires 0 <= k < |lines|
    ensures Subtotal(WithQuantity(lines, k, q)) ==
      Subtotal(lines) - Amount(lines[k]) + Amount(lines[k].(quantity := q))
  {
    var updated := WithQuantity(lines, k, q);
    SplitAt(lines, k);
    SplitAt(updated, k);
    assert updated[..k] == lines[..k] && updated[k + 1..] == lines[k + 1..];
    SubtotalSplit(lines[..k], lines[k], lines[k + 1..]);
    SubtotalSplit(lines[..k], updated[k], lines[k + 1..]);
  }

  /** The unit price an added product is charged at: its line's locked-in price, or its discounted price. */
  function UnitPrice(lines: seq<Line>, p: Product): real
  {
    match IndexOf(lines, p.id)
    case Some(k) => lines[k].price
    case None => EffectivePrice(p)
  }

  lemma AmountOneMore(l: Line)
    ensures Amount(l.(quantity := l.quantity + 1)) == Amount(l) + l.price
  {
    assert (l.quantity + 1) as real == l.quantity as real + 1.0;
  }

  /**
   * Adding a product raises the subtotal by one unit price: the price locked
   * into its existing line, or the product's discounted price for a new line.
   */
  lemma AddSubtotal(lines: seq<Line>, p: Product)
    ensures Add(lines, p).Success? ==>
      Subtotal(Add(lines, p).value) == Subtotal(lines) + UnitPrice(lines, p)
  {
    if Stock(p) > 0 {
      match IndexOf(lines, p.id)
      case Some(k) =>
        var q := lines[k].quantity;
        SubtotalWithQuantity(lines, k, q + 1);
        AmountOneMore(lines[k]);
      case None =>
        SubtotalAppend(lines, [NewLine(p)]);
        SubtotalSingle(NewLine(p));
    }
  }

  /** Removing a line of a cart with unique ids takes exactly its amount off the subtotal. */
  lemma RemoveSubtotal(lines: seq<Line>, k: int)
    requires UniqueIds(lines) && 0 <= k < |lines|
    ensures Subtotal(Remove(lines, lines[k].id)) == Subtotal(lines) - Amount(lines[k])
  {
    var before, after := lines[..k], lines[k + 1..];
    RemoveAt(lines, k);
    SplitAt(lines, k);
    SubtotalSplit(before, lines[k], after);
    SubtotalAppend(before, after);
  }

  lemma SplitAt(lines: seq<Line>, k: int)
    requires 0 <= k < |lines|
    ensures lines == lines[..k] + [lines[k]] + lines[k + 1..]
  {
  }

  // ---------------------------------------------------------------------
  // checkout and the purchase request

  /** checkout(): refuse an empty cart, otherwise show the total with tax. */
  function Checkout(lines: seq<Line>, taxRate: real): (r: Result<real, CartError>)
    ensures r.Failure? <==> |lines| == 0
    ensures r.Failure? ==> r.error == EmptyCart
    ensures r.Success? ==> r.value == Subtotal(lines) * (1.0 + taxRate / 100.0)
  {
    if |lines| == 0 then Failure(EmptyCart) else Success(Total(lines, taxRate))
  }

  /** The purchase request's items: one `(productInventoryId, quantity)` per line, in cart order. */
  function PurchaseOrder(lines: seq<Line>): (r: seq<OrderItem>)
    ensures |r| == |lines|
    ensures forall i :: 0 <= i < |lines| ==>
      r[i].productInventoryId == lines[i].productInventoryId && r[i].quantity == lines[i].quantity
  {
    if lines == [] then []
    else [OrderItem(lines[0].productInventoryId, lines[0].quantity)] + PurchaseOrder(lines[1..])
  }

  /** The request built from a well-formed cart names each product once, each with at least one unit. */
  lemma PurchaseOrderWellFormed(lines: seq<Line>)
    requires WellFormed(lines)
    ensures var order := PurchaseOrder(lines);
      (forall i, j :: 0 <= i < j < |order| ==> order[i].productInventoryId != order[j].productInventoryId) &&
      (forall i :: 0 <= i < |order| ==> order[i].quantity >= 1)
  {
    var order := PurchaseOrder(lines);
    forall i | 0 <= i < |order|
      ensures order[i].productInventoryId == lines[i].id && order[i].quantity >= 1
    {
      assert lines[i] in lines;
    }
  }

  /**
   * Example: an item at 10.00 with a 20% discount and 5 in stock,
   * added twice, gives one line of 2 at 8.00, a subtotal of 16.00 and, at a
   * 10% tax rate, a total of 17.60.
   */
  lemma TwoAddsExample()
    ensures var p := Product(1, Some("Rice"), Some("Food"), 10.0, Some(0.2), Some(5));
      var once := Add([], p);
      once.Success? && Add(once.value, p).Success? &&
      var twice := Add(once.value, p).value;
      |twice| == 1 && twice[0].quantity == 2 && twice[0].price == 8.0 &&
      Subtotal(twice) == 16.0 && Total(twice, 10.0) == 17.6
  {
    var p := Product(1, Some("Rice"), Some("Food"), 10.0, Some(0.2), Some(5));
    var once := Add([], p);
    assert Stock(p) == 5 && IndexOf([], 1) == None;
    assert [] + [NewLine(p)] == [NewLine(p)];
    assert once == Success([NewLine(p)]);
    assert IndexOf(once.value, 1) == Some(0);
    var twice := Add(once.value, p).value;
    assert twice == [NewLine(p).(quantity := 2)];
    SubtotalSingle(twice[0]);
  }
}
