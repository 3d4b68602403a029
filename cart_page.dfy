/**
 * The cart page: per-line amounts, the order summary (subtotal, shipping,
 * 5% tax, total), the empty-cart view and the requests its quantity
 * buttons send to the store. The checkout page computes its summary with
 * the same formulas and reuses these definitions.
 */
module CartPage {
  import opened Catalog
  import opened CartStore

  /** Orders whose subtotal is strictly above this ship free. */
  const FreeShippingAbove: real := 500.0
  const ShippingFee: real := 50.0
  const TaxRate: real := 0.05

  /**
   * `price * n`, written as `n` repeated additions (subtractions for a
   * negative `n`) so that sums of line amounts stay linear arithmetic;
   * `TimesIsProduct` shows it is the product.
   */
  function Times(price: real, n: int): real
    decreases if n < 0 then -n else n
  {
    if n == 0 then 0.0
    else if n > 0 then Times(price, n - 1) + price
    else Times(price, n + 1) - price
  }

  /** `item.price * item.quantity`, using the price captured when the line was added. */
  function LineAmount(l: Line): real {
    Times(l.product.price, l.quantity)
  }

  /** `cart.reduce((sum, item) => sum + item.price * item.quantity, 0)`. */
  function Subtotal(cart: seq<Line>): real {
    if cart == [] then 0.0 else Subtotal(cart[..|cart| - 1]) + LineAmount(cart[|cart| - 1])
  }

  /** Free exactly above the threshold, the flat fee otherwise. */
  function Shipping(subtotal: real): (r: real)
    ensures r == 0.0 <==> subtotal > FreeShippingAbove
    ensures r == 0.0 || r == ShippingFee
  {
    if subtotal > FreeShippingAbove then 0.0 else ShippingFee
  }

  /** Five percent: twenty times the tax is the subtotal. */
  function Tax(subtotal: real): (r: real)
    ensures r * 20.0 == subtotal
  {
    subtotal * TaxRate
  }

  datatype Totals = Totals(subtotal: real, shipping: real, tax: real, total: real)

  /** The four figures of the order summary. */
  function OrderTotals(cart: seq<Line>): Totals {
    var subtotal := Subtotal(cart);
    Totals(subtotal, Shipping(subtotal), Tax(subtotal), subtotal + Shipping(subtotal) + Tax(subtotal))
  }

  /** The amount shown beside each line, in cart order. */
  function LineAmounts(cart: seq<Line>): (r: seq<real>)
    ensures |r| == |cart|
    ensures forall i :: 0 <= i < |cart| ==> r[i] == cart[i].product.price * cart[i].quantity as real
  {
    forall i | 0 <= i < |cart| {
      TimesIsProduct(cart[i].product.price, cart[i].quantity);
    }
    seq(|cart|, i requires 0 <= i < |cart| => LineAmount(cart[i]))
  }

  /** What the page shows: the empty-cart message, or the lines with the summary. */
  datatype CartView = EmptyView | SummaryView(amounts: seq<real>, totals: Totals)

  function RenderCart(cart: seq<Line>): (v: CartView)
    ensures v.EmptyView? <==> cart == []
    ensures v.SummaryView? ==> |v.amounts| == |cart| && v.totals.total == v.totals.subtotal + v.totals.shipping + v.totals.tax
  {
    if |cart| == 0 then EmptyView else SummaryView(LineAmounts(cart), OrderTotals(cart))
  }

  /**
   * The quantity the minus button asks for: one unit fewer, which is a
   * removal request exactly when the line holds at most one unit.
   */
  function MinusRequest(l: Line): (r: int)
    ensures r + 1 == l.quantity
    ensures r <= 0 <==> l.quantity <= 1
  {
    l.quantity - 1
  }

  /** The quantity the plus button asks for: one unit more, never a removal request for a line with units. */
  function PlusRequest(l: Line): (r: int)
    ensures r - 1 == l.quantity
    ensures l.quantity >= 0 ==> r > 0
  {
    l.quantity + 1
  }

  // ------------------------------------------------------------------ lemmas

  /** Repeated addition agrees with multiplication for every integer count. */
  lemma {:induction false} TimesIsProduct(price: real, n: int)
    ensures Times(price, n) == price * n as real
    decreases if n < 0 then -n else n
  {
    if n > 0 {
      TimesIsProduct(price, n - 1);
    } else if n < 0 {
      TimesIsProduct(price, n + 1);
    }
  }

  /** One more unit adds one more price, for every integer count. */
  lemma TimesStep(price: real, m: int)
    ensures Times(price, m) == Times(price, m - 1) + price
  {
  }

  lemma {:induction false} TimesAdd(price: real, a: int, b: int)
    ensures Times(price, a + b) == Times(price, a) + Times(price, b)
    decreases if b < 0 then -b else b
  {
    if b > 0 {
      TimesAdd(price, a, b - 1);
      TimesStep(price, a + b);
      TimesStep(price, b);
    } else if b < 0 {
      TimesAdd(price, a, b + 1);
      TimesStep(price, a + b + 1);
      TimesStep(price, b + 1);
    }
  }

  lemma {:induction false} SubtotalAppend(a: seq<Line>, b: seq<Line>)
    ensures Subtotal(a + b) == Subtotal(a) + Subtotal(b)
  {
    if b == [] {
      assert a + b == a;
    } else {
      assert (a + b)[..|a + b| - 1] == a + b[..|b| - 1];
      SubtotalAppend(a, b[..|b| - 1]);
    }
  }

  /** The subtotal is the sum of the amounts shown beside the lines. */
  lemma {:induction false} SubtotalIsSumOfLineAmounts(cart: seq<Line>)
    ensures Subtotal(cart) == Sum(LineAmounts(cart))
  {
    if cart != [] {
      var p := cart[..|cart| - 1];
      SubtotalIsSumOfLineAmounts(p);
      assert LineAmounts(cart)[..|cart| - 1] == LineAmounts(p);
    }
  }

  function Sum(s: seq<real>): real {
    if s == [] then 0.0 else Sum(s[..|s| - 1]) + s[|s| - 1]
  }

  predicate NonNegativePrices(cart: seq<Line>) {
    forall i :: 0 <= i < |cart| ==> cart[i].product.price >= 0.0 && cart[i].quantity >= 0
  }

  /** Non-negative prices and quantities give a non-negative subtotal. */
  lemma {:induction false} SubtotalNonNegative(cart: seq<Line>)
    requires NonNegativePrices(cart)
    ensures Subtotal(cart) >= 0.0
  {
    if cart != [] {
      var p := cart[..|cart| - 1];
      assert NonNegativePrices(p) by {
        forall i | 0 <= i < |p| ensures p[i] == cart[i] {}
      }
      SubtotalNonNegative(p);
      TimesIsProduct(cart[|cart| - 1].product.price, cart[|cart| - 1].quantity);
    }
  }

  /**
   * The summary rules: shipping is free exactly when the subtotal is above
   * 500 and 50 otherwise, tax is 5% of the subtotal, the total adds the
   * three, and for a non-negative subtotal the total is at least the subtotal.
   */
  lemma SummaryRules(cart: seq<Line>)
    ensures OrderTotals(cart).shipping == 0.0 <==> Subtotal(cart) > 500.0
    ensures !(Subtotal(cart) > 500.0) ==> OrderTotals(cart).shipping == 50.0
    ensures OrderTotals(cart).tax * 20.0 == Subtotal(cart)
    ensures OrderTotals(cart).total == Subtotal(cart) + OrderTotals(cart).shipping + OrderTotals(cart).tax
    ensures NonNegativePrices(cart) ==> OrderTotals(cart).total >= Subtotal(cart)
  {
    if NonNegativePrices(cart) {
      SubtotalNonNegative(cart);
    }
  }

  /** An empty cart: nothing to pay for, still charged the shipping fee. */
  lemma EmptyCartTotals()
    ensures OrderTotals([]) == Totals(0.0, 50.0, 0.0, 50.0)
    ensures RenderCart([]) == EmptyView
  {
  }

  /** One sofa-priced line of 300 × 2: 600 subtotal, free shipping, 30 tax, 630 total. */
  lemma SingleLineExample(l: Line)
    requires l.product.price == 300.0 && l.quantity == 2
    ensures OrderTotals([l]) == Totals(600.0, 0.0, 30.0, 630.0)
  {
    SubtotalCons(l, []);
    assert [l] + [] == [l];
    TimesIsProduct(l.product.price, l.quantity);
  }

  /** Lines 100 × 1 and 50 × 3: 250 subtotal, 50 shipping, 12.5 tax, 312.5 total. */
  lemma TwoLineExample(a: Line, b: Line)
    requires a.product.price == 100.0 && a.quantity == 1
    requires b.product.price == 50.0 && b.quantity == 3
    ensures OrderTotals([a, b]) == Totals(250.0, 50.0, 12.5, 312.5)
  {
    SubtotalCons(b, []);
    assert [b] + [] == [b];
    SubtotalCons(a, [b]);
    assert [a] + [b] == [a, b];
    TimesIsProduct(a.product.price, a.quantity);
    TimesIsProduct(b.product.price, b.quantity);
  }

  /** At exactly 500 the order still pays shipping; free shipping starts above it. */
  lemma ShippingThreshold()
    ensures Shipping(500.0) == 50.0
    ensures Shipping(500.01) == 0.0
  {
  }

  /**
   * Adding a product that is not yet in the cart raises the subtotal by the
   * amount of a line of `q` units at its price; adding one that is already
   * there raises it by `q` units at the price captured in the existing line,
   * not at the product's current price.
   */
  lemma SubtotalAfterAdd(cart: seq<Line>, p: Product, q: int, k: nat)
    requires UniqueIds(cart)
    requires HasLine(cart, p.id) ==> k < |cart| && cart[k].Id() == p.id
    ensures !HasLine(cart, p.id) ==> Subtotal(AddLine(cart, p, q)) == Subtotal(cart) + LineAmount(Line(p, q))
    ensures HasLine(cart, p.id) ==> Subtotal(AddLine(cart, p, q)) == Subtotal(cart) + LineAmount(Line(cart[k].product, q))
  {
    if HasLine(cart, p.id) {
      assert AddLine(cart, p, q) == Increase(cart, p.id, q);
      SubtotalIncrease(cart, k, q);
    } else {
      var line := Line(p, q);
      SubtotalAppend(cart, [line]);
      SubtotalCons(line, []);
      assert [line] + [] == [line];
      assert AddLine(cart, p, q) == cart + [line];
    }
  }

  lemma SubtotalCons(l: Line, s: seq<Line>)
    ensures Subtotal([l] + s) == LineAmount(l) + Subtotal(s)
  {
    SubtotalAppend([l], s);
    assert [l][..0] == [];
  }

  /** The subtotal of a non-empty cart is its first line's amount plus the rest. */
  lemma SubtotalSplit(cart: seq<Line>)
    requires cart != []
    ensures Subtotal(cart) == LineAmount(cart[0]) + Subtotal(cart[1..])
  {
    assert cart == [cart[0]] + cart[1..];
    SubtotalCons(cart[0], cart[1..]);
  }

  lemma {:induction false} SubtotalIncrease(cart: seq<Line>, k: nat, q: int)
    requires UniqueIds(cart) && k < |cart|
    ensures Subtotal(Increase(cart, cart[k].Id(), q)) == Subtotal(cart) + Times(cart[k].product.price, q)
  {
    var id := cart[k].Id();
    var r := Increase(cart, id, q);
    SubtotalSplit(cart);
    SubtotalSplit(r);
    assert r[1..] == Increase(cart[1..], id, q);
    UniqueTail(cart);
    if k == 0 {
      IncreaseAbsent(cart[1..], id, q);
      TimesAdd(cart[0].product.price, cart[0].quantity, q);
    } else {
      assert cart[1..][k - 1] == cart[k];
      SubtotalIncrease(cart[1..], k - 1, q);
    }
  }

  /** The minus button on a line holding one unit removes the line. */
  lemma MinusAtOneRemovesLine(cart: seq<Line>, k: nat)
    requires k < |cart| && cart[k].quantity == 1
    ensures !HasLine(UpdateLine(cart, cart[k].Id(), MinusRequest(cart[k])), cart[k].Id())
  {
  }

  /** The minus button takes exactly one unit off the badge count. */
  lemma MinusLowersCountByOne(cart: seq<Line>, k: nat)
    requires UniqueIds(cart) && k < |cart| && cart[k].quantity >= 1
    ensures Count(UpdateLine(cart, cart[k].Id(), MinusRequest(cart[k]))) == Count(cart) - 1
  {
    if cart[k].quantity == 1 {
      MinusAtOneCount(cart, k);
    } else {
      MinusAboveOneCount(cart, k);
    }
  }

  lemma MinusAtOneCount(cart: seq<Line>, k: nat)
    requires UniqueIds(cart) && k < |cart| && cart[k].quantity == 1
    ensures Count(UpdateLine(cart, cart[k].Id(), MinusRequest(cart[k]))) == Count(cart) - 1
  {
    assert UpdateLine(cart, cart[k].Id(), MinusRequest(cart[k])) == RemoveLine(cart, cart[k].Id());
    CountRemove(cart, k);
  }

  lemma MinusAboveOneCount(cart: seq<Line>, k: nat)
    requires UniqueIds(cart) && k < |cart| && cart[k].quantity > 1
    ensures Count(UpdateLine(cart, cart[k].Id(), MinusRequest(cart[k]))) == Count(cart) - 1
  {
    UpdateLineSets(cart, cart[k].Id(), cart[k].quantity - 1);
    CountAssign(cart, k, cart[k].quantity - 1);
  }

  /** The plus button adds exactly one unit to the badge count. */
  lemma PlusRaisesCountByOne(cart: seq<Line>, k: nat)
    requires UniqueIds(cart) && k < |cart| && cart[k].quantity >= 0
    ensures Count(UpdateLine(cart, cart[k].Id(), PlusRequest(cart[k]))) == Count(cart) + 1
  {
    var id := cart[k].Id();
    UpdateLineSets(cart, id, cart[k].quantity + 1);
    CountAssign(cart, k, cart[k].quantity + 1);
  }
}
