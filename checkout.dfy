/**
 * The three-step checkout wizard (shipping, payment, review): the step
 * counter and its Back / Continue / Place Order controls, the order-placed
 * flag, the card mask on the review step, and the redirect timer that
 * clears the cart. The order summary uses the cart page's definitions.
 */
module Checkout {
  import opened CartStore
  import opened CartPage

  const FirstStep: int := 1
  const ReviewStep: int := 3

  /** `cardNumber.slice(-4)`: the last four characters, or the whole string when it is shorter. */
  function LastFour(s: string): (r: string)
    ensures |r| == if |s| < 4 then |s| else 4
    ensures s == s[..|s| - |r|] + r
  {
    if |s| <= 4 then s else s[|s| - 4..]
  }

  /** The button on the right of the wizard: Continue before the review step, Place Order on it. */
  datatype ForwardButton = ContinueButton | PlaceOrderButton

  /** The navigation controls rendered for a step. */
  datatype Controls = Controls(back: bool, forward: ForwardButton)

  function StepControls(step: int): Controls {
    Controls(step > FirstStep, if step < ReviewStep then ContinueButton else PlaceOrderButton)
  }

  /**
   * On the three wizard steps, Back is offered exactly after the first step
   * and Place Order exactly on the review step.
   */
  lemma ControlsByStep(step: int)
    requires FirstStep <= step <= ReviewStep
    ensures StepControls(step).back <==> step > 1
    ensures StepControls(step).forward == PlaceOrderButton <==> step == 3
    ensures StepControls(step).forward == ContinueButton <==> step < 3
  {
  }

  /** The masks of a full card number and of a short entry. */
  lemma LastFourExamples()
    ensures LastFour("4111111111111234") == "1234"
    ensures LastFour("12") == "12"
    ensures LastFour("") == ""
  {
    assert "4111111111111234"[12..] == "1234";
  }

  /**
   * The checkout page's own state: `step`, `orderPlaced` and the card
   * number of `formData`. Once the order is placed the page shows only the
   * confirmation, so the wizard's controls and fields are gone.
   */
  class CheckoutPage {
    var step: int
    var orderPlaced: bool
    var cardNumber: string

    ghost predicate Valid()
      reads this
    {
      FirstStep <= step <= ReviewStep
    }

    constructor ()
      ensures Valid()
      ensures step == 1 && !orderPlaced && cardNumber == ""
    {
      step := FirstStep;
      orderPlaced := false;
      cardNumber := "";
    }

    /** Back: offered only after the first step, goes one step back. */
    method Back()
      requires Valid() && !orderPlaced && StepControls(step).back
      modifies this
      ensures Valid()
      ensures step == old(step) - 1
      ensures orderPlaced == old(orderPlaced) && cardNumber == old(cardNumber)
    {
      step := step - 1;
    }

    /** Continue: offered only before the review step, goes one step forward. */
    method Continue()
      requires Valid() && !orderPlaced && StepControls(step).forward == ContinueButton
      modifies this
      ensures Valid()
      ensures step == old(step) + 1
      ensures orderPlaced == old(orderPlaced) && cardNumber == old(cardNumber)
    {
      step := step + 1;
    }

    /** Typing in the card number field. */
    method EditCardNumber(value: string)
      requires Valid() && !orderPlaced
      modifies this
      ensures Valid()
      ensures cardNumber == value && step == old(step) && orderPlaced == old(orderPlaced)
    {
      cardNumber := value;
    }

    /** `handlePlaceOrder`: the form is submitted by the Place Order button of the review step. */
    method PlaceOrder()
      requires Valid() && !orderPlaced && StepControls(step).forward == PlaceOrderButton
      modifies this
      ensures Valid()
      ensures orderPlaced && step == old(step) && cardNumber == old(cardNumber)
    {
      orderPlaced := true;
    }

    /** The delayed part of `handlePlaceOrder`: `clearCart()` (the redirect home is not modelled). */
    method RedirectTimerFires(store: Store)
      requires Valid() && orderPlaced && store.Valid()
      modifies store
      ensures store.Valid()
      ensures store.cart == [] && store.CartCount() == 0
      ensures store.isLoggedIn == old(store.isLoggedIn) && store.user == old(store.user)
    {
      store.ClearCart();
    }

    /** "Card ending in …" on the review step. */
    function MaskedCard(): string
      reads this
    {
      LastFour(cardNumber)
    }
  }

  /**
   * A session from the first step through placing the order: two Continue
   * clicks reach the review step, Place Order sets the flag, and the timer
   * leaves the cart empty whatever it held.
   */
  method PlaceOrderSession(store: Store) returns (page: CheckoutPage)
    requires store.Valid()
    modifies store
    ensures fresh(page) && page.Valid() && page.orderPlaced && page.step == 3
    ensures store.Valid() && store.cart == []
  {
    page := new CheckoutPage();
    page.Continue();
    page.Continue();
    page.PlaceOrder();
    page.RedirectTimerFires(store);
  }
}
