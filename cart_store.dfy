/**
 * The application-level session store: the cart lines with their
 * add/remove/update/clear handlers, the cart badge count, and the
 * logged-in user.
 */
module CartStore {
  import opened Wrappers
  import opened Seqs
  import opened Catalog

  /** A cart line: a snapshot of the product (`{...product}`) plus its quantity. */
  datatype Line = Line(product: Product, quantity: int) {
    function Id(): int { product.id }
  }

  /** The record `handleLogin` stores as the user. */
  datatype User = User(name: string, email: string, phone: Option<string>)

  predicate HasLine(cart: seq<Line>, id: int) {
    exists i :: 0 <= i < |cart| && cart[i].Id() == id
  }

  /** The cart invariant: at most one line per product id. */
  predicate UniqueIds(cart: seq<Line>) {
    forall i, j :: 0 <= i < j < |cart| ==> cart[i].Id() != cart[j].Id()
  }

  /** Every line holds at least one unit. */
  predicate PositiveQuantities(cart: seq<Line>) {
    forall i :: 0 <= i < |cart| ==> cart[i].quantity >= 1
  }

  /** The map in `addToCart`: every line with this id gets `q` more units. */
  function Increase(cart: seq<Line>, id: int, q: int): (r: seq<Line>)
    ensures |r| == |cart|
    ensures forall i :: 0 <= i < |cart| ==>
      r[i] == if cart[i].Id() == id then cart[i].(quantity := cart[i].quantity + q) else cart[i]
  {
    if cart == [] then []
    else
      [if cart[0].Id() == id then cart[0].(quantity := cart[0].quantity + q) else cart[0]]
      + Increase(cart[1..], id, q)
  }

  /** The map in `updateQuantity`: every line with this id gets quantity `q`. */
  function Assign(cart: seq<Line>, id: int, q: int): (r: seq<Line>)
    ensures |r| == |cart|
    ensures forall i :: 0 <= i < |cart| ==>
      r[i] == if cart[i].Id() == id then cart[i].(quantity := q) else cart[i]
  {
    if cart == [] then []
    else
      [if cart[0].Id() == id then cart[0].(quantity := q) else cart[0]]
      + Assign(cart[1..], id, q)
  }

  /** `addToCart(product, quantity)`: merge into the line with this id, or append a new line. */
  function AddLine(cart: seq<Line>, p: Product, q: int): (r: seq<Line>)
    ensures HasLine(r, p.id)
    ensures HasLine(cart, p.id) ==> |r| == |cart| && forall i :: 0 <= i < |cart| ==>
      r[i] == if cart[i].Id() == p.id then cart[i].(quantity := cart[i].quantity + q) else cart[i]
    ensures !HasLine(cart, p.id) ==> r == cart + [Line(p, q)]
  {
    if HasLine(cart, p.id) then Increase(cart, p.id, q)
    else
      assert (cart + [Line(p, q)])[|cart|].Id() == p.id;
      cart + [Line(p, q)]
  }

  function OtherId(id: int): Line -> bool {
    (l: Line) => l.Id() != id
  }

  /** `removeFromCart(id)`: keep the lines with another id, in order. */
  function RemoveLine(cart: seq<Line>, id: int): (r: seq<Line>)
    ensures |r| <= |cart|
    ensures !HasLine(r, id)
  {
    Filter(cart, OtherId(id))
  }

  /** `removeFromCart` keeps exactly the lines with another id. */
  lemma RemoveLineMembership(cart: seq<Line>, id: int, l: Line)
    ensures l in RemoveLine(cart, id) <==> l in cart && l.Id() != id
  {
    FilterMembership(cart, OtherId(id), l);
  }

  /** `updateQuantity(id, q)`: a quantity of 0 or less removes the line, any other sets it. */
  function UpdateLine(cart: seq<Line>, id: int, q: int): (r: seq<Line>)
    ensures q <= 0 ==> r == RemoveLine(cart, id)
    ensures q > 0 ==> |r| == |cart| && forall i :: 0 <= i < |cart| ==>
      r[i] == if cart[i].Id() == id then cart[i].(quantity := q) else cart[i]
  {
    if q <= 0 then RemoveLine(cart, id) else Assign(cart, id, q)
  }

  /** `cart.reduce((sum, item) => sum + item.quantity, 0)`: the badge count. */
  function Count(cart: seq<Line>): (n: int)
    ensures PositiveQuantities(cart) ==> n >= |cart|
  {
    if cart == [] then 0
    else
      assert PositiveQuantities(cart) ==> PositiveQuantities(cart[..|cart| - 1]);
      Count(cart[..|cart| - 1]) + cart[|cart| - 1].quantity
  }

  // ------------------------------------------------------------------ lemmas

  lemma {:induction false} CountAppend(a: seq<Line>, b: seq<Line>)
    ensures Count(a + b) == Count(a) + Count(b)
  {
    if b == [] {
      assert a + b == a;
    } else {
      assert (a + b)[..|a + b| - 1] == a + b[..|b| - 1];
      CountAppend(a, b[..|b| - 1]);
    }
  }

  lemma CountCons(l: Line, s: seq<Line>)
    ensures Count([l] + s) == l.quantity + Count(s)
  {
    CountAppend([l], s);
    assert [l][..0] == [];
  }

  lemma IncreaseAbsent(cart: seq<Line>, id: int, q: int)
    requires !HasLine(cart, id)
    ensures Increase(cart, id, q) == cart
  {
  }

  lemma AssignAbsent(cart: seq<Line>, id: int, q: int)
    requires !HasLine(cart, id)
    ensures Assign(cart, id, q) == cart
  {
  }

  /** The count of a non-empty cart is its first line's quantity plus the rest. */
  lemma CountSplit(cart: seq<Line>)
    requires cart != []
    ensures Count(cart) == cart[0].quantity + Count(cart[1..])
  {
    assert cart == [cart[0]] + cart[1..];
    CountCons(cart[0], cart[1..]);
  }

  /** Behind the first line of a cart with one line per id, that line's id does not occur again. */
  lemma UniqueTail(cart: seq<Line>)
    requires UniqueIds(cart) && cart != []
    ensures UniqueIds(cart[1..]) && !HasLine(cart[1..], cart[0].Id())
  {
    forall i | 0 <= i < |cart[1..]| ensures cart[1..][i].Id() != cart[0].Id() {
      assert cart[1..][i] == cart[i + 1];
    }
  }

  /** With one line per id, merging `q` units into the line with id `id` raises the count by `q`. */
  lemma {:induction false} CountIncrease(cart: seq<Line>, id: int, q: int)
    requires UniqueIds(cart) && HasLine(cart, id)
    ensures Count(Increase(cart, id, q)) == Count(cart) + q
  {
    var r := Increase(cart, id, q);
    CountSplit(cart);
    CountSplit(r);
    assert r[1..] == Increase(cart[1..], id, q);
    UniqueTail(cart);
    if cart[0].Id() == id {
      IncreaseAbsent(cart[1..], id, q);
    } else {
      var k :| 0 <= k < |cart| && cart[k].Id() == id;
      assert cart[1..][k - 1].Id() == id;
      CountIncrease(cart[1..], id, q);
    }
  }

  /** With one line per id, setting the line at `k` to quantity `q` changes the count by `q - old`. */
  lemma {:induction false} CountAssign(cart: seq<Line>, k: nat, q: int)
    requires UniqueIds(cart) && k < |cart|
    ensures Count(Assign(cart, cart[k].Id(), q)) == Count(cart) - cart[k].quantity + q
  {
    var id := cart[k].Id();
    var r := Assign(cart, id, q);
    CountSplit(cart);
    CountSplit(r);
    assert r[1..] == Assign(cart[1..], id, q);
    UniqueTail(cart);
    if k == 0 {
      AssignAbsent(cart[1..], id, q);
    } else {
      assert cart[1..][k - 1] == cart[k];
      CountAssign(cart[1..], k - 1, q);
    }
  }

  /** With one line per id, removing the line at `k` lowers the count by its quantity. */
  lemma {:induction false} CountRemove(cart: seq<Line>, k: nat)
    requires UniqueIds(cart) && k < |cart|
    ensures Count(RemoveLine(cart, cart[k].Id())) == Count(cart) - cart[k].quantity
  {
    var id := cart[k].Id();
    assert cart == [cart[0]] + cart[1..];
    CountCons(cart[0], cart[1..]);
    if k == 0 {
      forall i | 0 <= i < |cart[1..]| ensures OtherId(id)(cart[1..][i]) {
        assert cart[1..][i] == cart[i + 1];
      }
      FilterAll(cart[1..], OtherId(id));
    } else {
      assert cart[1..][k - 1] == cart[k];
      CountRemove(cart[1..], k - 1);
      CountCons(cart[0], RemoveLine(cart[1..], id));
    }
  }

  lemma UpdateLineSets(cart: seq<Line>, id: int, q: int)
    requires q > 0
    ensures UpdateLine(cart, id, q) == Assign(cart, id, q)
  {
  }

  /** Adding to the cart keeps one line per id. */
  lemma AddKeepsIdsUnique(cart: seq<Line>, p: Product, q: int)
    requires UniqueIds(cart)
    ensures UniqueIds(AddLine(cart, p, q))
  {
  }

  /** Removing lines keeps one line per id. */
  lemma {:induction false} RemoveKeepsIdsUnique(cart: seq<Line>, id: int)
    requires UniqueIds(cart)
    ensures UniqueIds(RemoveLine(cart, id))
  {
    UniqueFilter(cart, OtherId(id));
  }

  lemma {:induction false} UniqueFilter(cart: seq<Line>, f: Line -> bool)
    requires UniqueIds(cart)
    ensures UniqueIds(Filter(cart, f))
  {
    if cart != [] {
      var rest := cart[1..];
      assert UniqueIds(rest) by {
        forall i, j | 0 <= i < j < |rest| ensures rest[i].Id() != rest[j].Id() {
          assert rest[i] == cart[i + 1] && rest[j] == cart[j + 1];
        }
      }
      UniqueFilter(rest, f);
      var t := Filter(rest, f);
      forall i | 0 <= i < |t| ensures t[i].Id() != cart[0].Id() {
        var k :| 0 <= k < |rest| && rest[k] == t[i];
        assert rest[k] == cart[k + 1];
      }
    }
  }

  /** Updating a quantity keeps one line per id. */
  lemma UpdateKeepsIdsUnique(cart: seq<Line>, id: int, q: int)
    requires UniqueIds(cart)
    ensures UniqueIds(UpdateLine(cart, id, q))
  {
    if q <= 0 {
      RemoveKeepsIdsUnique(cart, id);
    }
  }

  /** `addToCart(p, q)` raises the badge count by exactly `q`, whether it merges or appends. */
  lemma AddRaisesCount(cart: seq<Line>, p: Product, q: int)
    requires UniqueIds(cart)
    ensures Count(AddLine(cart, p, q)) == Count(cart) + q
  {
    if HasLine(cart, p.id) {
      CountIncrease(cart, p.id, q);
    } else {
      CountAppend(cart, [Line(p, q)]);
      assert [Line(p, q)] == [] + [Line(p, q)];
    }
  }

  /** Two adds of the same product are one add of the summed quantity. */
  lemma AddTwice(cart: seq<Line>, p: Product, a: int, b: int)
    ensures AddLine(AddLine(cart, p, a), p, b) == AddLine(cart, p, a + b)
  {
    var once := AddLine(cart, p, a);
    var twice := AddLine(once, p, b);
    if HasLine(cart, p.id) {
      assert |twice| == |cart|;
      forall i | 0 <= i < |cart|
        ensures twice[i] == AddLine(cart, p, a + b)[i]
      {
      }
    } else {
      var expected := cart + [Line(p, a + b)];
      assert |twice| == |expected|;
      forall i | 0 <= i < |twice|
        ensures twice[i] == expected[i]
      {
        if i < |cart| {
          assert cart[i].Id() != p.id;
        }
      }
    }
  }

  /** Removing an id that has no line leaves the cart as it was. */
  lemma RemoveAbsentIsNoop(cart: seq<Line>, id: int)
    requires !HasLine(cart, id)
    ensures RemoveLine(cart, id) == cart
  {
    FilterAll(cart, OtherId(id));
  }

  /** Updating an id that has no line to a positive quantity leaves the cart as it was. */
  lemma UpdateAbsentIsNoop(cart: seq<Line>, id: int, q: int)
    requires !HasLine(cart, id)
    ensures UpdateLine(cart, id, q) == cart
  {
    if q <= 0 {
      RemoveAbsentIsNoop(cart, id);
    }
  }

  /**
   * Lines keep at least one unit: adds bring at least one unit, and a
   * requested quantity below one removes the line instead of storing it.
   */
  lemma QuantitiesStayPositive(cart: seq<Line>, p: Product, q: int, id: int, u: int)
    requires PositiveQuantities(cart)
    ensures q >= 1 ==> PositiveQuantities(AddLine(cart, p, q))
    ensures PositiveQuantities(UpdateLine(cart, id, u))
    ensures PositiveQuantities(RemoveLine(cart, id))
  {
    var r := RemoveLine(cart, id);
    forall i | 0 <= i < |r| ensures r[i].quantity >= 1 {
      RemoveLineMembership(cart, id, r[i]);
    }
  }

  // ------------------------------------------------------------------ store

  /** The state `App` owns: `cart`, `isLoggedIn` and `user`. */
  class Store {
    var cart: seq<Line>
    var isLoggedIn: bool
    var user: Option<User>

    ghost predicate Valid()
      reads this
    {
      UniqueIds(cart)
    }

    constructor ()
      ensures Valid()
      ensures cart == [] && !isLoggedIn && user == None
    {
      cart := [];
      isLoggedIn := false;
      user := None;
    }

    /** `addToCart(product, quantity = 1)`. */
    method AddToCart(product: Product, quantity: int := 1)
      requires Valid()
      modifies this
      ensures Valid()
      ensures cart == AddLine(old(cart), product, quantity)
      ensures CartCount() == old(CartCount()) + quantity
      ensures isLoggedIn == old(isLoggedIn) && user == old(user)
    {
      AddKeepsIdsUnique(cart, product, quantity);
      AddRaisesCount(cart, product, quantity);
      cart := AddLine(cart, product, quantity);
    }

    /** `removeFromCart(productId)`. */
    method RemoveFromCart(productId: int)
      requires Valid()
      modifies this
      ensures Valid()
      ensures cart == RemoveLine(old(cart), productId)
      ensures isLoggedIn == old(isLoggedIn) && user == old(user)
    {
      RemoveKeepsIdsUnique(cart, productId);
      cart := RemoveLine(cart, productId);
    }

    /** `updateQuantity(productId, quantity)`. */
    method UpdateQuantity(productId: int, quantity: int)
      requires Valid()
      modifies this
      ensures Valid()
      ensures cart == UpdateLine(old(cart), productId, quantity)
      ensures isLoggedIn == old(isLoggedIn) && user == old(user)
    {
      UpdateKeepsIdsUnique(cart, productId, quantity);
      if quantity <= 0 {
        RemoveFromCart(productId);
      } else {
        cart := Assign(cart, productId, quantity);
      }
    }

    /** `clearCart()`. */
    method ClearCart()
      requires Valid()
      modifies this
      ensures Valid()
      ensures cart == [] && CartCount() == 0
      ensures isLoggedIn == old(isLoggedIn) && user == old(user)
    {
      cart := [];
    }

    /** `handleLogin(userData)`: used by both the login and the signup page. */
    method HandleLogin(userData: User)
      requires Valid()
      modifies this
      ensures Valid()
      ensures isLoggedIn && user == Some(userData) && cart == old(cart)
    {
      isLoggedIn := true;
      user := Some(userData);
    }

    /** `handleLogout()`. */
    method HandleLogout()
      requires Valid()
      modifies this
      ensures Valid()
      ensures !isLoggedIn && user == None && cart == old(cart)
    {
      isLoggedIn := false;
      user := None;
    }

    /** The `cartCount` handed to the navigation bar. */
    function CartCount(): int
      reads this
    {
      Count(cart)
    }

    /** The `/add-product` route renders the form only for a logged-in session. */
    predicate MayAddProduct()
      reads this
    {
      isLoggedIn
    }
  }
}
