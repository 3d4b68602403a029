/**
 * The signup page: the password confirmation guard and the user record it
 * hands to the store, which holds no password.
 */
module Signup {
  import opened Wrappers
  import opened CartStore

  datatype SignupForm = SignupForm(name: string, email: string, phone: string, password: string, confirmPassword: string)

  /**
   * The outcome of `handleSubmit`: `None` when the two password fields
   * differ (the alert path), otherwise the record passed to `onSignup`.
   */
  function SignupUser(form: SignupForm): (r: Option<User>)
    ensures r.None? <==> form.password != form.confirmPassword
    ensures r.Some? ==> r.value.name == form.name && r.value.email == form.email && r.value.phone == Some(form.phone)
  {
    if form.password != form.confirmPassword then None
    else Some(User(form.name, form.email, Some(form.phone)))
  }

  /** The record does not depend on the password: any matching pair gives the same record. */
  lemma RecordOmitsPassword(form: SignupForm, secret: string)
    requires form.password == form.confirmPassword
    ensures SignupUser(form.(password := secret, confirmPassword := secret)) == SignupUser(form)
  {
  }

  /** The page state: the form, `isLoading`, and the record waiting for the timer. */
  class SignupPage {
    var form: SignupForm
    var isLoading: bool
    var pending: Option<User>

    ghost predicate Valid()
      reads this
    {
      isLoading <==> pending.Some?
    }

    constructor ()
      ensures Valid() && form == SignupForm("", "", "", "", "") && !isLoading
    {
      form := SignupForm("", "", "", "", "");
      isLoading := false;
      pending := None;
    }

    /** Any of the five fields being edited. */
    method Edit(value: SignupForm)
      requires Valid()
      modifies this
      ensures Valid() && form == value && isLoading == old(isLoading) && pending == old(pending)
    {
      form := value;
    }

    /**
     * `handleSubmit` (the button is disabled while loading): a mismatch
     * raises the alert and changes nothing; otherwise loading starts and the
     * record is captured for the timer.
     */
    method Submit() returns (alerted: bool)
      requires Valid() && !isLoading
      modifies this
      ensures Valid() && form == old(form)
      ensures alerted <==> form.password != form.confirmPassword
      ensures alerted ==> !isLoading && pending == None
      ensures !alerted ==> isLoading && pending == SignupUser(form)
    {
      if form.password != form.confirmPassword {
        alerted := true;
        return;
      }
      alerted := false;
      isLoading := true;
      pending := SignupUser(form);
    }

    /** The timer: `onSignup(record)`, which logs the user in, then loading ends. */
    method SignupTimerFires(store: Store)
      requires Valid() && isLoading && store.Valid()
      modifies this, store
      ensures Valid() && !isLoading && form == old(form)
      ensures store.Valid() && store.isLoggedIn && store.user == old(pending)
      ensures store.cart == old(store.cart)
    {
      store.HandleLogin(pending.value);
      isLoading := false;
      pending := None;
    }
  }
}
