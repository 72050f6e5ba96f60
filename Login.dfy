/**
 * The login form (pages/Login.js): a decision between three failures and
 * success, and the four session keys written only on success. The start
 * screen's "already signed in" test (pages/Splash.js) reads one of them.
 */
module Login {
  import opened Wrappers
  import opened Text
  import opened Records
  import opened Storage
  import opened Cadastro

  const DefaultUserName: string := "Usuário"

  /** How a login attempt ends. `ReadFailed` is a stored account that does not decode. */
  datatype LoginOutcome = FieldsMissing | EmailNotRegistered | WrongPassword | ReadFailed | LoggedIn(user: User) {
    function Message(): string {
      match this
      case FieldsMissing => "Todos os campos devem ser preenchidos"
      case EmailNotRegistered => "Email não cadastrado"
      case WrongPassword => "Senha inválida"
      case ReadFailed => "Erro ao fazer login, tente novamente"
      case LoggedIn(_) => ""
    }
  }

  /** `validateFields`' test: both fields hold something besides whitespace. */
  predicate FieldsFilled(email: string, password: string) {
    !IsBlank(email) && !IsBlank(password)
  }

  /**
   * The account check that follows validation: an absent account or a
   * different email (compared exactly), then a different password.
   */
  function CheckAccount(email: string, password: string, stored: Option<Blob>): (r: LoginOutcome)
    ensures r != FieldsMissing
    ensures r.LoggedIn? ==> stored == Some(UserRecord(r.user)) && r.user.email == email && r.user.password == password
    ensures r == WrongPassword ==> stored.Some? && stored.value.UserRecord? && stored.value.user.email == email
  {
    if !IsTruthy(stored) then EmailNotRegistered
    else
      match stored.value
      // `JSON.parse` rejects the text
      case Str(_) => ReadFailed
      // a list has no `email` property, so it never matches
      case PostList(_) => EmailNotRegistered
      case UserRecord(u) =>
        if u.email != email then EmailNotRegistered
        else if u.password != password then WrongPassword
        else LoggedIn(u)
  }

  /**
   * `handleLogin`'s decision from the typed email and password and the value
   * under `'user'`: blank fields first (the store is not consulted), then the
   * account check.
   */
  function DecideLogin(email: string, password: string, stored: Option<Blob>): (r: LoginOutcome)
    ensures r == FieldsMissing <==> !FieldsFilled(email, password)
    ensures r.LoggedIn? ==> stored == Some(UserRecord(r.user)) && r.user.email == email && r.user.password == password
    ensures r == WrongPassword ==> stored.Some? && stored.value.UserRecord? && stored.value.user.email == email
  {
    if !FieldsFilled(email, password) then FieldsMissing
    else CheckAccount(email, password, stored)
  }

  /**
   * The decision in full: blank fields first, whatever is stored; then an
   * absent account or a different email (compared exactly); then a different
   * password; success only when both match.
   */
  lemma LoginChecksInOrder(email: string, password: string, stored: Option<Blob>)
    ensures var r := DecideLogin(email, password, stored);
      && (r == FieldsMissing <==> AllWhitespace(email) || AllWhitespace(password))
      && (r == EmailNotRegistered <==>
            !AllWhitespace(email) && !AllWhitespace(password)
            && (stored.None? || stored.value == Str("") || stored.value.PostList?
                || (stored.value.UserRecord? && stored.value.user.email != email)))
      && (r == WrongPassword <==>
            !AllWhitespace(email) && !AllWhitespace(password) && stored.Some? && stored.value.UserRecord?
            && stored.value.user.email == email && stored.value.user.password != password)
      && (r.LoggedIn? <==>
            !AllWhitespace(email) && !AllWhitespace(password) && stored.Some? && stored.value.UserRecord?
            && stored.value.user.email == email && stored.value.user.password == password)
  {
    BlankIffAllWhitespace(email);
    BlankIffAllWhitespace(password);
  }

  /** The name shown for a user: the stored name, or "Usuário" when it is empty. */
  function DisplayName(u: User): (n: string)
    ensures n != ""
    ensures u.name != "" ==> n == u.name
    ensures u.name == "" ==> n == DefaultUserName
  {
    if u.name != "" then u.name else DefaultUserName
  }

  /**
   * The store after a successful login: the four session keys hold the user's
   * email, display name, disability and "true"; every other key is untouched.
   */
  function SessionAfterLogin(items: map<string, Blob>, u: User): (r: map<string, Blob>)
    ensures ReadString(r, UserEmailKey) == Some(u.email)
    ensures ReadString(r, UserNameKey) == Some(DisplayName(u))
    ensures ReadString(r, UserDisabilityKey) == Some(u.disability)
    ensures ReadString(r, HasLoggedInKey) == Some("true")
    ensures r.Keys == items.Keys + {UserEmailKey, UserNameKey, UserDisabilityKey, HasLoggedInKey}
    ensures forall k :: k in items && k !in {UserEmailKey, UserNameKey, UserDisabilityKey, HasLoggedInKey} ==>
              r[k] == items[k]
  {
    items[UserEmailKey := Str(u.email)]
         [UserNameKey := Str(DisplayName(u))]
         [UserDisabilityKey := Str(u.disability)]
         [HasLoggedInKey := Str("true")]
  }

  /** pages/Splash.js: the app opens on the home screen exactly when `hasLoggedIn` is "true". */
  predicate IsLoggedIn(items: map<string, Blob>): (b: bool)
    ensures b <==> HasLoggedInKey in items && items[HasLoggedInKey] == Str("true")
  {
    ReadString(items, HasLoggedInKey) == Some("true")
  }

  class LoginScreen {
    var email: string
    var password: string
    var errorMessage: string

    constructor ()
      ensures email == "" && password == "" && errorMessage == ""
    {
      email, password, errorMessage := "", "", "";
    }

    /** `validateFields`: both fields must hold a non-whitespace character. */
    method ValidateFields() returns (ok: bool)
      modifies this`errorMessage
      ensures ok <==> FieldsFilled(email, password)
      ensures errorMessage == if ok then "" else FieldsMissing.Message()
    {
      if IsBlank(email) || IsBlank(password) {
        errorMessage := FieldsMissing.Message();
        return false;
      }
      errorMessage := "";
      return true;
    }

    /**
     * `handleLogin`: the session keys are written only when the decision is
     * success; every failure leaves the store as it was.
     */
    method HandleLogin(storage: Store) returns (outcome: LoginOutcome)
      modifies this`errorMessage, storage
      ensures outcome == DecideLogin(email, password, Lookup(old(storage.items), UserKey))
      ensures errorMessage == outcome.Message()
      ensures outcome.LoggedIn? ==> storage.items == SessionAfterLogin(old(storage.items), outcome.user)
      ensures !outcome.LoggedIn? ==> storage.items == old(storage.items)
    {
      var ok := ValidateFields();
      if !ok {
        return FieldsMissing;
      }
      outcome := CheckAccount(email, password, Lookup(storage.items, UserKey));
      errorMessage := outcome.Message();
      if outcome.LoggedIn? {
        WriteSession(storage, outcome.user);
      }
    }
  }

  /** The four session writes of a successful login, in the source's order. */
  method WriteSession(storage: Store, user: User)
    modifies storage
    ensures storage.items == SessionAfterLogin(old(storage.items), user)
  {
    storage.SetItem(UserEmailKey, Str(user.email));
    storage.SetItem(UserNameKey, Str(DisplayName(user)));
    storage.SetItem(UserDisabilityKey, Str(user.disability));
    storage.SetItem(HasLoggedInKey, Str("true"));
  }

  /**
   * Registering and then logging in with the same email and password
   * succeeds, provided the password is not all whitespace (login trims it,
   * registration does not).
   */
  lemma RegisterThenLogin(items: map<string, Blob>, name: string, email: string, password: string,
                          confirmation: string, disability: string)
    requires ValidateRegistration(name, email, password, confirmation).None?
    requires !AllWhitespace(password)
    ensures var registered := items[UserKey := UserRecord(User(name, email, password, disability))];
            DecideLogin(email, password, Lookup(registered, UserKey)) == LoggedIn(User(name, email, password, disability))
  {
    BlankIffAllWhitespace(password);
    assert FieldsFilled(email, password);
    OwnerPassesCheck(User(name, email, password, disability));
  }

  /** The stored account's own email and password pass the account check. */
  lemma OwnerPassesCheck(u: User)
    ensures CheckAccount(u.email, u.password, Some(UserRecord(u))) == LoggedIn(u)
  {
  }

  /**
   * A password made only of whitespace, six characters or more, passes
   * registration but can never be used to log in: login trims it, registration
   * does not.
   */
  lemma WhitespacePasswordCannotLogIn(items: map<string, Blob>, name: string, email: string,
                                      password: string, disability: string)
    requires !AllWhitespace(name) && AcceptableEmail(email)
    requires |password| >= MinPasswordLength && AllWhitespace(password)
    ensures ValidateRegistration(name, email, password, password).None?
    ensures var registered := items[UserKey := UserRecord(User(name, email, password, disability))];
            DecideLogin(email, password, Lookup(registered, UserKey)) == FieldsMissing
  {
    BlankIffAllWhitespace(name);
    BlankIffAllWhitespace(password);
  }

  /** A successful login marks the session as signed in. */
  lemma LoginSignsIn(items: map<string, Blob>, u: User)
    ensures IsLoggedIn(SessionAfterLogin(items, u))
  {
  }
}
