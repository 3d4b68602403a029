/**
 * The login page: the mock sign-in derives the user record from the typed
 * email, and the loading flag brackets the delayed hand-over to the store.
 */
module Login {
  import opened Wrappers
  import opened Text
  import opened CartStore

  /** `email.split('@')[0]`: the text before the first `@`, or the whole email without one. */
  function EmailName(email: string): (r: string)
    ensures r <= email && '@' !in r
    ensures |r| < |email| ==> email[|r|] == '@'
  {
    BeforeFirst(email, '@')
  }

  /** The record handed to `onLogin`: the derived name and the email as typed. */
  function LoginUser(email: string): (u: User)
    ensures u.email == email && u.name == EmailName(email) && u.phone == None
  {
    User(EmailName(email), email, None)
  }

  /** An email without `@` is its own name; an empty email gives an empty name. */
  lemma EmailNameCases(email: string)
    ensures '@' !in email ==> EmailName(email) == email
    ensures EmailName("") == ""
  {
  }

  /** Only the text before the first `@` matters: whatever follows it is ignored. */
  lemma EmailNameIgnoresDomain(local: string, domain: string)
    requires '@' !in local
    ensures EmailName(local + "@" + domain) == local
  {
    var e := local + "@" + domain;
    var r := EmailName(e);
    assert e[|local|] == '@';
    assert forall k :: 0 <= k < |local| ==> e[k] == local[k];
    assert forall k :: 0 <= k < |r| ==> r[k] == e[k];
    assert |r| == |local|;
    assert r == e[..|r|];
  }

  /** The page state: the typed credentials, `isLoading`, and the record waiting for the timer. */
  class LoginPage {
    var email: string
    var password: string
    var isLoading: bool
    var pending: Option<User>

    ghost predicate Valid()
      reads this
    {
      isLoading <==> pending.Some?
    }

    constructor ()
      ensures Valid() && email == "" && password == "" && !isLoading
    {
      email := "";
      password := "";
      isLoading := false;
      pending := None;
    }

    method EditEmail(value: string)
      requires Valid()
      modifies this
      ensures Valid() && email == value && password == old(password)
      ensures isLoading == old(isLoading) && pending == old(pending)
    {
      email := value;
    }

    method EditPassword(value: string)
      requires Valid()
      modifies this
      ensures Valid() && password == value && email == old(email)
      ensures isLoading == old(isLoading) && pending == old(pending)
    {
      password := value;
    }

    /** `handleSubmit` (the button is disabled while loading): loading starts; the timer will log in with the email as submitted. */
    method Submit()
      requires Valid() && !isLoading
      modifies this
      ensures Valid() && isLoading
      ensures pending == Some(LoginUser(email)) && email == old(email) && password == old(password)
    {
      isLoading := true;
      pending := Some(LoginUser(email));
    }

    /** The timer: `onLogin(record)`, then loading ends. */
    method LoginTimerFires(store: Store)
      requires Valid() && isLoading && store.Valid()
      modifies this, store
      ensures Valid() && !isLoading
      ensures store.Valid() && store.isLoggedIn && store.user == old(pending)
      ensures store.cart == old(store.cart)
      ensures email == old(email) && password == old(password)
    {
      store.HandleLogin(pending.value);
      isLoading := false;
      pending := None;
    }
  }
}
