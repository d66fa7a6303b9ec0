/**
 * The point-of-sale session: the cart and the log of completed sales that
 * the front end keeps in module-level variables, the operations that change
 * them in place, the cart total as the cart panel computes it, and the
 * recent-transactions view of the reports page.
 */
module CartEngine {
  import opened Wrappers
  import opened Seqs
  import opened Catalog
  import opened CartRules

  /** A completed sale as logged locally; `products` is a copy of the cart's lines. */
  datatype Transaction = Transaction(
    time: string,
    items: int,
    total: real,
    paymentMethod: string,
    products: seq<Line>)

  /** What a cart operation reports back: done, or the alert it raised. */
  datatype Outcome = Done | Rejected(error: CartError)

  /**
   * What completeSale ends with: refused locally, refused by the store API
   * (with the request that was sent), or completed with the change due.
   */
  datatype SaleOutcome =
    | Refused(error: CartError)
    | SubmitFailed(order: seq<OrderItem>)
    | Completed(order: seq<OrderItem>, change: real)

  /** The cart after a rule's result: the new lines, or the old ones when refused. */
  function Applied(lines: seq<Line>, r: Result<seq<Line>, CartError>): seq<Line>
  {
    if r.Success? then r.value else lines
  }

  function OutcomeOf(r: Result<seq<Line>, CartError>): Outcome
  {
    if r.Success? then Done else Rejected(r.error)
  }

  // ---------------------------------------------------------------------
  // The cart panel's total

  /**
   * updateCartDisplay: an empty cart shows 0; otherwise the line amounts are
   * summed one by one and the tax added. This agrees with checkout's total.
   */
  method DisplayedTotal(lines: seq<Line>, taxRate: real) returns (shown: real)
    ensures shown == Total(lines, taxRate)
    ensures lines == [] ==> shown == 0.0
  {
    if |lines| == 0 {
      return 0.0;
    }
    var total := 0.0;
    var i := 0;
    while i < |lines|
      invariant 0 <= i <= |lines|
      invariant total == Subtotal(lines[..i])
    {
      var itemTotal := lines[i].price * (lines[i].quantity as real);
      total := total + itemTotal;
      assert lines[..i + 1][..i] == lines[..i];
      i := i + 1;
    }
    assert lines[..i] == lines;
    var tax := total * (taxRate / 100.0);
    shown := total + tax;
  }

  // ---------------------------------------------------------------------
  // The recent-transactions view: `transactions.slice(-10).reverse()`

  const RecentLimit: nat := 10

  function Min(a: int, b: int): int
  {
    if a < b then a else b
  }

  /** The last ten transactions (or all, if fewer), newest first. */
  function Recent(ts: seq<Transaction>): seq<Transaction>
  {
    Reverse(ts[|ts| - Min(RecentLimit, |ts|)..])
  }

  /** The view holds min(10, n) transactions, and its i-th is the i-th newest. */
  lemma RecentView(ts: seq<Transaction>)
    ensures |Recent(ts)| == Min(RecentLimit, |ts|)
    ensures forall i :: 0 <= i < |Recent(ts)| ==> Recent(ts)[i] == ts[|ts| - 1 - i]
  {
    var tail := ts[|ts| - Min(RecentLimit, |ts|)..];
    forall i | 0 <= i < |Recent(ts)|
      ensures Recent(ts)[i] == ts[|ts| - 1 - i]
    {
      ReverseAt(tail, i);
    }
  }

  /**
   * Logging a sale puts it first in the view and pushes the others down one
   * place; beyond ten, the oldest shown drops out.
   */
  lemma RecentAfterSale(ts: seq<Transaction>, t: Transaction)
    ensures Recent(ts + [t]) == [t] + Recent(ts)[..Min(RecentLimit - 1, |ts|)]
  {
    var after := ts + [t];
    RecentView(ts);
    RecentView(after);
    var expected := [t] + Recent(ts)[..Min(RecentLimit - 1, |ts|)];
    assert |Recent(after)| == |expected|;
    forall i | 0 <= i < |expected|
      ensures Recent(after)[i] == expected[i]
    {
      if i > 0 {
        assert expected[i] == Recent(ts)[i - 1];
      }
    }
  }

  // ---------------------------------------------------------------------
  // The session state

  /** The cart and the local transaction log of one front-end session. */
  class Cart {
    var lines: seq<Line>
    var transactions: seq<Transaction>

    ghost predicate Valid()
      reads this
    {
      WellFormed(lines)
    }

    /** A session starts with an empty cart and no transactions. */
    constructor ()
      ensures Valid() && lines == [] && transactions == []
    {
      lines := [];
      transactions := [];
    }

    /** addToCart(product). */
    method AddToCart(p: Product) returns (outcome: Outcome)
      requires Valid()
      modifies this
      ensures Valid()
      ensures lines == Applied(old(lines), Add(old(lines), p))
      ensures outcome == OutcomeOf(Add(old(lines), p))
      ensures transactions == old(transactions)
    {
      var available := Stock(p);
      if available <= 0 {
        return Rejected(OutOfStock);
      }
      var found := IndexOf(lines, p.id);
      if found.Some? {
        var k := found.value;
        if lines[k].quantity < available {
          lines := lines[k := lines[k].(quantity := lines[k].quantity + 1)];
        } else {
          return Rejected(NotEnoughStock);
        }
      } else {
        lines := lines + [NewLine(p)];
      }
      AddPreservesWellFormed(old(lines), p);
      outcome := Done;
    }

    /** updateQuantity(productId, change). */
    method UpdateQuantity(id: int, change: int) returns (outcome: Outcome)
      requires Valid()
      modifies this
      ensures Valid()
      ensures lines == Applied(old(lines), Update(old(lines), id, change))
      ensures outcome == OutcomeOf(Update(old(lines), id, change))
      ensures transactions == old(transactions)
    {
      UpdatePreservesInvariants(lines, id, change);
      var found := IndexOf(lines, id);
      if found.None? {
        return Done;
      }
      var k := found.value;
      var newQuantity := lines[k].quantity + change;
      if newQuantity <= 0 {
        RemoveFromCart(id);
      } else if newQuantity <= lines[k].maxStock {
        lines := lines[k := lines[k].(quantity := newQuantity)];
      } else {
        return Rejected(NotEnoughStock);
      }
      outcome := Done;
    }

    /** removeFromCart(productId). */
    method RemoveFromCart(id: int)
      requires Valid()
      modifies this
      ensures Valid()
      ensures lines == Remove(old(lines), id)
      ensures transactions == old(transactions)
    {
      RemovePreservesInvariants(lines, id);
      lines := Remove(lines, id);
    }

    /** clearCart(). */
    method ClearCart()
      modifies this
      ensures Valid()
      ensures lines == [] && transactions == old(transactions)
    {
      lines := [];
    }

    /**
     * completeSale: `total` is the amount the checkout dialog shows and
     * `accepts` is the store API's verdict on the purchase request. A short
     * payment changes nothing; otherwise the request is built from the cart
     * and submitted; a refused request changes nothing; an accepted one is
     * logged as a transaction and the cart is emptied.
     */
    method CompleteSale(total: real, received: real, paymentMethod: string, time: string,
                        accepts: seq<OrderItem> -> bool)
      returns (r: SaleOutcome)
      requires Valid()
      modifies this
      ensures Valid()
      ensures received < total ==>
        r == Refused(InsufficientPayment) &&
        lines == old(lines) && transactions == old(transactions)
      ensures received >= total && !accepts(PurchaseOrder(old(lines))) ==>
        r == SubmitFailed(PurchaseOrder(old(lines))) &&
        lines == old(lines) && transactions == old(transactions)
      ensures received >= total && accepts(PurchaseOrder(old(lines))) ==>
        r == Completed(PurchaseOrder(old(lines)), received - total) && r.change >= 0.0 &&
        lines == [] &&
        transactions == old(transactions) + [Transaction(time, |old(lines)|, total, paymentMethod, old(lines))]
    {
      if received < total {
        return Refused(InsufficientPayment);
      }
      var order := PurchaseOrder(lines);
      if !accepts(order) {
        return SubmitFailed(order);
      }
      var change := received - total;
      transactions := transactions + [Transaction(time, |lines|, total, paymentMethod, lines)];
      ClearCart();
      r := Completed(order, change);
    }
  }

  /**
   * checkout() followed by completeSale(): an empty cart is refused before any
   * dialog opens; otherwise the sale is run against the total checkout showed,
   * so an accepted sale logs that cart's total with tax.
   */
  method CheckoutThenSale(c: Cart, taxRate: real, received: real, paymentMethod: string, time: string,
                          accepts: seq<OrderItem> -> bool)
    returns (r: SaleOutcome)
    requires c.Valid()
    modifies c
    ensures c.Valid()
    ensures old(c.lines) == [] ==>
      r == Refused(EmptyCart) && c.lines == old(c.lines) && c.transactions == old(c.transactions)
    ensures old(c.lines) != [] && received < Total(old(c.lines), taxRate) ==>
      r == Refused(InsufficientPayment) && c.lines == old(c.lines) && c.transactions == old(c.transactions)
    ensures old(c.lines) != [] && received >= Total(old(c.lines), taxRate) &&
            !accepts(PurchaseOrder(old(c.lines))) ==>
      r == SubmitFailed(PurchaseOrder(old(c.lines))) &&
      c.lines == old(c.lines) && c.transactions == old(c.transactions)
    ensures old(c.lines) != [] && received >= Total(old(c.lines), taxRate) &&
            accepts(PurchaseOrder(old(c.lines))) ==>
      r == Completed(PurchaseOrder(old(c.lines)), received - Total(old(c.lines), taxRate)) &&
      c.lines == [] &&
      |c.transactions| == |old(c.transactions)| + 1 &&
      c.transactions[..|old(c.transactions)|] == old(c.transactions) &&
      var t := c.transactions[|c.transactions| - 1];
      t.products == old(c.lines) && t.items == |t.products| &&
      t.total == Total(t.products, taxRate) && t.paymentMethod == paymentMethod
  {
    var shown := Checkout(c.lines, taxRate);
    if shown.Failure? {
      return Refused(shown.error);
    }
    r := c.CompleteSale(shown.value, received, paymentMethod, time, accepts);
  }
}
