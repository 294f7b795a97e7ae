// The NextAuth configuration: the email-and-password `authorize` step, and the `signIn`,
// `jwt` and `session` callbacks. OAuth sign-ins of new emails create a customer row.

module Auth {
  import opened Common
  import opened Customers
  import Signin

  datatype Credentials = Credentials(email: Option<string>, password: Option<string>)

  /** The user object `authorize` hands to NextAuth. */
  datatype AuthUser = AuthUser(id: string, name: string, email: string)

  /** `authorize`: the customer with that email whose stored hash matches the password, or
      none. `matches(password, hash)` is `bcrypt.compare`. */
  function Authorize(rows: seq<Customer>, creds: Option<Credentials>, matches: (string, string) -> bool)
    : (r: Option<AuthUser>)
    ensures (creds.None? || OrEmpty(creds.value.email) == "" || OrEmpty(creds.value.password) == "") ==> r.None?
    ensures r.Some? ==> exists c :: && c in rows && c.email == creds.value.email.value
                                    && matches(creds.value.password.value, c.passwordHash)
                                    && r.value == AuthUser(c.customerId, c.name, c.email)
  {
    if creds.None? || OrEmpty(creds.value.email) == "" || OrEmpty(creds.value.password) == "" then None
    else
      var found := FindEmail(rows, creds.value.email.value);
      if found.None? then None
      else
        var c := rows[found.value];
        assert c in rows;
        if !matches(creds.value.password.value, c.passwordHash) then None
        else Some(AuthUser(c.customerId, c.name, c.email))
  }

  /** `authorize` and the sign-in route accept exactly the same credentials and agree on who
      signed in: the user id is the customer id the route returns. */
  lemma AuthorizeAgreesWithSignin(rows: seq<Customer>, email: Option<string>, password: Option<string>,
                                  matches: (string, string) -> bool)
    ensures var a := Authorize(rows, Some(Credentials(email, password)), matches);
            var s := Signin.Post(rows, Signin.SigninBody(email, password), matches).0;
            && (a.Some? <==> s.Ok?)
            && (a.Some? ==> a.value == AuthUser(s.body.customerId, s.body.name, s.body.email))
  {
  }

  /** The provider a sign-in came through (`account.provider`). */
  datatype Account = Account(provider: string)

  /** The user NextAuth passes to the callbacks. */
  datatype SessionUser = SessionUser(id: Option<string>, name: Option<string>, email: Option<string>)

  /** `email.split("@")[0]`: everything before the first `@`. */
  function LocalPart(email: string): (r: string)
    ensures |r| <= |email| && r == email[..|r|]
    ensures '@' !in r
    ensures r == email || email[|r|] == '@'
  {
    if email == [] || email[0] == '@' then ""
    else
      var rest := LocalPart(email[1..]);
      assert email[..|rest| + 1] == [email[0]] + email[1..][..|rest|];
      [email[0]] + rest
  }

  /** The name an OAuth customer is created with: the user's name, else the provider
      profile's name, else the local part of the email. */
  function DisplayName(user: SessionUser, profileName: Option<string>, email: string): (r: string)
    ensures OrEmpty(user.name) != "" ==> r == user.name.value
    ensures OrEmpty(user.name) == "" && OrEmpty(profileName) != "" ==> r == profileName.value
    ensures OrEmpty(user.name) == "" && OrEmpty(profileName) == "" ==> r == LocalPart(email)
  {
    if OrEmpty(user.name) != "" then user.name.value
    else if OrEmpty(profileName) != "" then profileName.value
    else LocalPart(email)
  }

  /** Credential sign-ins (and calls without an account) skip the table entirely. */
  predicate SkipsTable(account: Option<Account>)
  {
    account.None? || account.value.provider == "credentials"
  }

  /** The outcome of the `signIn` callback: whether sign-in may proceed, and the customers
      table afterwards. `placeholder` is the bcrypt hash of a random password and `newId` the
      generated id of a row it may insert. */
  function SignInOutcome(rows: seq<Customer>, user: SessionUser, account: Option<Account>, profileName: Option<string>,
                         placeholder: string, newId: string, now: int): (r: (bool, seq<Customer>))
    ensures SkipsTable(account) ==> r == (true, rows)
    ensures !SkipsTable(account) && OrEmpty(user.email) == "" ==> r == (false, rows)
    ensures r.0 <==> SkipsTable(account) || OrEmpty(user.email) != ""
    ensures r.1 != rows ==>
              && !SkipsTable(account) && OrEmpty(user.email) != "" && !Registered(rows, user.email.value)
              && r.1 == rows + [Customer(newId, DisplayName(user, profileName, user.email.value), user.email.value,
                                         placeholder, None, None, None, now)]
    ensures !SkipsTable(account) && OrEmpty(user.email) != "" ==> Registered(r.1, user.email.value)
  {
    if SkipsTable(account) then (true, rows)
    else if OrEmpty(user.email) == "" then (false, rows)
    else if Registered(rows, user.email.value) then (true, rows)
    else
      var c := Customer(newId, DisplayName(user, profileName, user.email.value), user.email.value, placeholder,
                        None, None, None, now);
      assert (rows + [c])[|rows|] == c;
      (true, rows + [c])
  }

  /** Signing in through OAuth twice with the same email creates at most one customer: the
      second call finds the row the first one made and changes nothing. */
  lemma SignInIdempotent(rows: seq<Customer>, user: SessionUser, account: Option<Account>, profileName: Option<string>,
                         placeholder: string, newId: string, now: int,
                         placeholder2: string, newId2: string, now2: int)
    ensures var first := SignInOutcome(rows, user, account, profileName, placeholder, newId, now);
            SignInOutcome(first.1, user, account, profileName, placeholder2, newId2, now2) == first
  {
  }

  /** The `signIn` callback against the table. */
  method SignInCallback(table: CustomerTable, user: SessionUser, account: Option<Account>, profileName: Option<string>,
                        placeholder: string, newId: string, now: int) returns (allowed: bool)
    requires table.Valid()
    requires !HasCustomerId(table.rows, newId)
    modifies table
    ensures table.Valid()
    ensures (allowed, table.rows) == SignInOutcome(old(table.rows), user, account, profileName, placeholder, newId, now)
  {
    if SkipsTable(account) {
      return true;
    }
    if OrEmpty(user.email) == "" {
      return false;
    }
    var email := user.email.value;
    if FindEmail(table.rows, email).Some? {
      return true;
    }
    var c := Customer(newId, DisplayName(user, profileName, email), email, placeholder, None, None, None, now);
    var inserted := table.InsertIgnore(c);
    allowed := true;
  }

  /** The JWT's own claim and whatever else NextAuth keeps in it. */
  datatype Token = Token(id: Option<string>, claims: map<string, string>)

  /** `jwt`: a user with an id (present at sign-in) stamps it into the token. */
  function Jwt(token: Token, user: Option<SessionUser>): (r: Token)
    ensures r.claims == token.claims
    ensures user.Some? && OrEmpty(user.value.id) != "" ==> r.id == user.value.id
    ensures !(user.Some? && OrEmpty(user.value.id) != "") ==> r == token
  {
    if user.Some? && OrEmpty(user.value.id) != "" then token.(id := user.value.id) else token
  }

  datatype Session = Session(user: Option<SessionUser>, expires: string)

  /** `session`: copies the token's id into the session's user, when both exist. */
  function SessionOf(session: Session, token: Token): (r: Session)
    ensures r.expires == session.expires && r.user.Some? == session.user.Some?
    ensures session.user.Some? ==> r.user.value.name == session.user.value.name
                                   && r.user.value.email == session.user.value.email
    ensures session.user.Some? && OrEmpty(token.id) != "" ==> r.user.value.id == token.id
    ensures !(session.user.Some? && OrEmpty(token.id) != "") ==> r == session
  {
    if session.user.Some? && OrEmpty(token.id) != "" then session.(user := Some(session.user.value.(id := token.id)))
    else session
  }

  /** After an email-and-password sign-in, every later session carries the customer id: the
      id `authorize` returned passes through the token into `session.user.id`, and later
      `jwt` calls without a user keep it. */
  lemma SessionCarriesCustomerId(rows: seq<Customer>, creds: Credentials,
                                 matches: (string, string) -> bool, token: Token,
                                 later: nat, session: Session)
    requires Authorize(rows, Some(creds), matches).Some?
    requires Authorize(rows, Some(creds), matches).value.id != ""
    requires session.user.Some?
    ensures var a := Authorize(rows, Some(creds), matches).value;
            var t := Jwt(token, Some(SessionUser(Some(a.id), Some(a.name), Some(a.email))));
            SessionOf(session, Refreshed(t, later)).user.value.id == Some(a.id)
  {
    var a := Authorize(rows, Some(creds), matches).value;
    RefreshedIsToken(Jwt(token, Some(SessionUser(Some(a.id), Some(a.name), Some(a.email)))), later);
  }

  /** `jwt` calls without a user leave the token as it is, however many there are. */
  lemma {:induction false} RefreshedIsToken(t: Token, n: nat)
    ensures Refreshed(t, n) == t
  {
    if n > 0 {
      RefreshedIsToken(t, n - 1);
    }
  }

  /** The token after `n` further `jwt` calls made without a user (session reads). */
  function Refreshed(t: Token, n: nat): Token
  {
    if n == 0 then t else Jwt(Refreshed(t, n - 1), None)
  }
}
