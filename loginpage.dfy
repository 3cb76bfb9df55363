/**
 * The login page object of Pages/LoginPage.py: fixed sequences of `type` and
 * `click` calls on hard-coded locator names, run on the shared action layer.
 */
module LoginPage {
  import opened Wrappers
  import opened Text
  import opened Locators
  import opened Basepage

  const UsernameField := "LoginPageUsernameinputField_XPATH"
  const PasswordField := "LoginPagePasswordinputField_XPATH"
  const LoginButton := "LoginPageloginButton_XPATH"
  const InventoryPageTitle := "InventoryPageTitle_XPATH"
  const LockedOutUserValidation := "lockedoutuservalidation_XPATH"

  /** Every locator name the page object uses. */
  const PageLocators := [UsernameField, PasswordField, LoginButton, InventoryPageTitle, LockedOutUserValidation]

  /** Every name the page uses resolves to XPath, so none can raise "Unsupported locator type". */
  lemma PageLocatorsAreXPath()
    ensures forall n :: n in PageLocators ==> ByType(n) == Success(XPath)
  {
    assert ByType(UsernameField) == Success(XPath);
    assert ByType(PasswordField) == Success(XPath);
    assert ByType(LoginButton) == Success(XPath);
    assert ByType(InventoryPageTitle) == Success(XPath);
    assert ByType(LockedOutUserValidation) == Success(XPath);
  }

  /** Looking up one of the page's names fails only on the registry or on a timeout. */
  lemma {:induction false} PageLookupErrors(config: Store, page: Page, n: string)
    requires n in PageLocators
    ensures Locate(config, page, n).Failure? ==>
              Locate(config, page, n).error in {NoSection(LocatorSection), NoOption(LocatorSection, Lower(n)), Timeout(n)}
  {
    PageLocatorsAreXPath();
  }

  /**
   * The actions that typing `username` into the field `user`, `password` into
   * the field `pass` and clicking `button` append to the trace, given how the
   * three lookups end, and how the sequence ends: the first lookup that raises
   * stops it.
   */
  function TypeTypeClick(user: Result<ElementId, Error>, pass: Result<ElementId, Error>, button: Result<ElementId, Error>,
                         username: string, password: string): (r: (Outcome<Error>, seq<Action>))
    ensures r.0.Pass? <==> user.Success? && pass.Success? && button.Success?
    ensures r.0.Pass? ==>
              r.1 == [Clear(user.value), SendKeys(user.value, username), Clear(pass.value), SendKeys(pass.value, password),
                      Action.Click(button.value)]
    ensures r.0.Fail? ==>
              (user.Failure? && r.0.error == user.error) ||
              (user.Success? && pass.Failure? && r.0.error == pass.error) ||
              (user.Success? && pass.Success? && button.Failure? && r.0.error == button.error)
    ensures r.0.Fail? ==> forall i :: 0 <= i < |r.1| ==> !r.1[i].Click?
    ensures user.Failure? ==> r.1 == []
    ensures user.Success? && pass.Failure? ==> r.1 == [Clear(user.value), SendKeys(user.value, username)]
    ensures user.Success? && pass.Success? && button.Failure? ==>
              r.1 == [Clear(user.value), SendKeys(user.value, username), Clear(pass.value), SendKeys(pass.value, password)]
  {
    match user
    case Failure(e) => (Fail(e), [])
    case Success(u) =>
      var typedUser := [Clear(u), SendKeys(u, username)];
      match pass
      case Failure(e) => (Fail(e), typedUser)
      case Success(p) =>
        var typedBoth := typedUser + [Clear(p), SendKeys(p, password)];
        match button
        case Failure(e) => (Fail(e), typedBoth)
        case Success(b) => (Pass, typedBoth + [Action.Click(b)])
  }

  /** The steps of both login methods of the page. */
  function LoginSteps(config: Store, page: Page, username: string, password: string): (Outcome<Error>, seq<Action>) {
    TypeTypeClick(Locate(config, page, UsernameField), Locate(config, page, PasswordField), Locate(config, page, LoginButton),
                  username, password)
  }

  /** A login never raises "Unsupported locator type". */
  lemma {:induction false} LoginNeverUnsupported(config: Store, page: Page, username: string, password: string)
    ensures LoginSteps(config, page, username, password).0.Fail? ==>
              !LoginSteps(config, page, username, password).0.error.UnsupportedLocatorType?
  {
    PageLookupErrors(config, page, UsernameField);
    PageLookupErrors(config, page, PasswordField);
    PageLookupErrors(config, page, LoginButton);
  }

  /** After the sequence succeeds on two distinct fields, they hold exactly the user name and the password. */
  lemma {:induction false} TypeTypeClickLeavesCredentials(trace: seq<Action>, user: Result<ElementId, Error>,
                                                          pass: Result<ElementId, Error>, button: Result<ElementId, Error>,
                                                          username: string, password: string)
    requires user.Success? && pass.Success? && button.Success? && user.value != pass.value
    ensures var after := trace + TypeTypeClick(user, pass, button, username, password).1;
            FieldText(after, user.value) == Some(username) && FieldText(after, pass.value) == Some(password)
  {
    var u, p, b := user.value, pass.value, button.value;
    var typedUser := trace + [Clear(u), SendKeys(u, username)];
    var typedBoth := typedUser + [Clear(p), SendKeys(p, password)];
    var after := typedBoth + [Action.Click(b)];
    assert after == trace + TypeTypeClick(user, pass, button, username, password).1;
    FieldTextAfterType(trace, u, username);
    FieldTextOtherActions(typedUser, [Clear(p), SendKeys(p, password)], u);
    FieldTextAfterType(typedUser, p, password);
    FieldTextOtherActions(typedBoth, [Action.Click(b)], u);
    FieldTextOtherActions(typedBoth, [Action.Click(b)], p);
  }

  /** Appending two pieces one after the other appends their concatenation. */
  lemma AppendTwice<T>(t: seq<T>, a: seq<T>, b: seq<T>)
    ensures t + a + b == t + (a + b)
  {
  }

  /** Type into two fields and click a button on `web`, as both login methods do. */
  method SubmitCredentials(web: WebActions, userField: string, passwordField: string, button: string,
                           username: string, password: string) returns (r: Outcome<Error>)
    modifies web`trace
    ensures r == TypeTypeClick(Locate(web.config, web.page, userField), Locate(web.config, web.page, passwordField),
                               Locate(web.config, web.page, button), username, password).0
    ensures web.trace == old(web.trace) + TypeTypeClick(Locate(web.config, web.page, userField),
                                                        Locate(web.config, web.page, passwordField),
                                                        Locate(web.config, web.page, button), username, password).1
  {
    ghost var user := Locate(web.config, web.page, userField);
    ghost var pass := Locate(web.config, web.page, passwordField);
    r := web.Type(userField, username);
    if r.Fail? {
      return;
    }
    r := web.Type(passwordField, password);
    if r.Fail? {
      return;
    }
    ghost var typedUser := [Clear(user.value), SendKeys(user.value, username)];
    ghost var typedBoth := typedUser + [Clear(pass.value), SendKeys(pass.value, password)];
    AppendTwice(old(web.trace), typedUser, [Clear(pass.value), SendKeys(pass.value, password)]);
    r := web.Click(button);
    if r.Pass? {
      AppendTwice(old(web.trace), typedBoth, [Action.Click(Locate(web.config, web.page, button).value)]);
    }
  }

  /** The page object over the shared action layer (composition in place of inheritance). */
  class LoginPage {
    const web: WebActions

    constructor (web: WebActions)
      ensures this.web == web
    {
      this.web := web;
    }

    /** `login_as_standard_user(username, password)`. */
    method LoginAsStandardUser(username: string, password: string) returns (r: Outcome<Error>)
      modifies web`trace
      ensures r == LoginSteps(web.config, web.page, username, password).0
      ensures web.trace == old(web.trace) + LoginSteps(web.config, web.page, username, password).1
    {
      r := SubmitCredentials(web, UsernameField, PasswordField, LoginButton, username, password);
    }

    /** `login_as_lockedout_user(username, password)`: the same steps as `login_as_standard_user`. */
    method LoginAsLockedOutUser(username: string, password: string) returns (r: Outcome<Error>)
      modifies web`trace
      ensures r == LoginSteps(web.config, web.page, username, password).0
      ensures web.trace == old(web.trace) + LoginSteps(web.config, web.page, username, password).1
    {
      r := SubmitCredentials(web, UsernameField, PasswordField, LoginButton, username, password);
    }

    /** `get_inventory_page_title()`: the text of the clickable `InventoryPageTitle_XPATH` element. */
    method GetInventoryPageTitle() returns (r: Result<string, Error>)
      ensures r.Success? <==> Locate(web.config, web.page, InventoryPageTitle).Success?
      ensures r.Success? ==> r.value == TextOf(web.page, Locate(web.config, web.page, InventoryPageTitle).value)
      ensures r.Failure? ==> r.error == Locate(web.config, web.page, InventoryPageTitle).error
    {
      var e := web.GetElement(InventoryPageTitle);
      if e.Failure? {
        return Failure(e.error);
      }
      r := Success(TextOf(web.page, e.value));
    }

    /** `get_lockedoutuservalidation()`: the text of the clickable `lockedoutuservalidation_XPATH` element. */
    method GetLockedOutUserValidation() returns (r: Result<string, Error>)
      ensures r.Success? <==> Locate(web.config, web.page, LockedOutUserValidation).Success?
      ensures r.Success? ==> r.value == TextOf(web.page, Locate(web.config, web.page, LockedOutUserValidation).value)
      ensures r.Failure? ==> r.error == Locate(web.config, web.page, LockedOutUserValidation).error
    {
      var e := web.GetElement(LockedOutUserValidation);
      if e.Failure? {
        return Failure(e.error);
      }
      r := Success(TextOf(web.page, e.value));
    }
  }
}
