/** The log-in page (src/pages/Login.jsx): the demonstration credential
    list, the check against it, and the error, loading and success state
    around the delayed check. */
module Login {

  datatype Credential = Credential(email: string, password: string)

  /** The hard-coded demonstration accounts. */
  const ValidCredentials := [
    Credential("admin@example.com", "securepw123"),
    Credential("demo@neobank.com", "demo1234"),
    Credential("enterprise@fintech.com", "enterprise")
  ]

  const InvalidMessage := "Invalid email or password. Please try again."

  /** `creds.some(c => c.email === email && c.password === password)` */
  function AnyMatches(creds: seq<Credential>, email: string, password: string): (r: bool)
    ensures r <==> exists i :: 0 <= i < |creds| && creds[i].email == email && creds[i].password == password
  {
    if creds == [] then false
    else (creds[0].email == email && creds[0].password == password) || AnyMatches(creds[1..], email, password)
  }

  /** Whether the check accepts a pair. */
  predicate IsValid(email: string, password: string) {
    AnyMatches(ValidCredentials, email, password)
  }

  /** The check accepts exactly the three listed pairs. */
  lemma ValidIffListed(email: string, password: string)
    ensures IsValid(email, password) <==> Credential(email, password) in ValidCredentials
  {
    if IsValid(email, password) {
      var i :| 0 <= i < |ValidCredentials| && ValidCredentials[i].email == email && ValidCredentials[i].password == password;
      assert ValidCredentials[i] == Credential(email, password);
    }
  }

  /** An e-mail is not accepted with another account's password. */
  lemma PasswordsAreNotShared()
    ensures !IsValid("admin@example.com", "demo1234")
    ensures !IsValid("demo@neobank.com", "enterprise")
    ensures IsValid("demo@neobank.com", "demo1234")
  {
    ValidIffListed("admin@example.com", "demo1234");
    ValidIffListed("demo@neobank.com", "enterprise");
    ValidIffListed("demo@neobank.com", "demo1234");
  }

  /** The component's state. */
  class LoginPage {
    var email: string
    var password: string
    var error: string
    var loading: bool
    var success: bool
    /** The credentials each not-yet-fired timer captured, oldest first:
        the timer checks the values of the render that set it. */
    var pending: seq<Credential>

    constructor ()
      ensures email == "" && password == "" && error == "" && !loading && !success && pending == []
    {
      email := "";
      password := "";
      error := "";
      loading := false;
      success := false;
      pending := [];
    }

    /** The e-mail input's `onChange`. */
    method SetEmail(value: string)
      modifies this
      ensures email == value
      ensures password == old(password) && error == old(error) && loading == old(loading)
      ensures success == old(success) && pending == old(pending)
    {
      email := value;
    }

    /** The password input's `onChange`. */
    method SetPassword(value: string)
      modifies this
      ensures password == value
      ensures email == old(email) && error == old(error) && loading == old(loading)
      ensures success == old(success) && pending == old(pending)
    {
      password := value;
    }

    /** `handleLogin(e)`: clears the error, starts loading and sets a timer
        that will check the credentials entered now. */
    method HandleLogin()
      modifies this
      ensures error == "" && loading
      ensures pending == old(pending) + [Credential(email, password)]
      ensures email == old(email) && password == old(password) && success == old(success)
    {
      error := "";
      loading := true;
      pending := pending + [Credential(email, password)];
    }

    /** The oldest timer fires: a listed pair succeeds and clears the error,
        any other sets the error and leaves `success` alone; loading ends
        either way. */
    method CheckFires()
      requires pending != []
      modifies this
      ensures pending == old(pending[1..])
      ensures !loading
      ensures IsValid(old(pending[0]).email, old(pending[0]).password) ==> success && error == ""
      ensures !IsValid(old(pending[0]).email, old(pending[0]).password) ==>
        (error == InvalidMessage && success == old(success))
      ensures email == old(email) && password == old(password)
    {
      var c := pending[0];
      pending := pending[1..];
      if AnyMatches(ValidCredentials, c.email, c.password) {
        success := true;
        error := "";
      } else {
        error := InvalidMessage;
      }
      loading := false;
    }
  }

  /** Submitting a listed pair and letting the timer fire logs in. */
  method LoginWithListedPair(page: LoginPage)
    requires page.pending == []
    requires Credential(page.email, page.password) in ValidCredentials
    modifies page
    ensures page.success && page.error == "" && !page.loading && page.pending == []
  {
    ValidIffListed(page.email, page.password);
    page.HandleLogin();
    page.CheckFires();
  }
}
