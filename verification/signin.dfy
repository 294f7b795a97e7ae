// `POST /api/auth/signin`: checks an email and password against `customers` and signs the
// browser in through the `userEmail` cookie. It only reads the table.

module Signin {
  import opened Common
  import opened Customers
  import Signup

  datatype SigninBody = SigninBody(email: Option<string>, password: Option<string>)

  /** The single message for an unknown email and for a wrong password alike. */
  const MissingCredentials := "Email and password " + "are required."
  const InvalidCredentials := "Invalid email or " + "password."

  /** The reply and the cookie it sets. `matches(password, hash)` is `bcrypt.compare`. */
  function Post(rows: seq<Customer>, body: SigninBody, matches: (string, string) -> bool)
    : (r: (Reply<PublicUser>, Option<Cookie>))
    ensures OrEmpty(body.email) == "" || OrEmpty(body.password) == "" ==>
              r.0 == Fail(400, MissingCredentials)
    ensures OrEmpty(body.email) != "" && OrEmpty(body.password) != "" && r.0.Fail? ==>
              r.0 == Fail(401, InvalidCredentials)
    ensures r.0.Fail? <==> r.1.None?
    ensures r.0.Ok? ==> exists c :: && c in rows && c.email == body.email.value
                                    && matches(body.password.value, c.passwordHash)
                                    && r.0.body == Public(c) && r.1 == Some(SessionCookie(c.email))
    ensures UniqueKeys(rows) && OrEmpty(body.email) != "" && OrEmpty(body.password) != "" ==>
              (r.0.Ok? <==> exists c :: c in rows && c.email == body.email.value
                                       && matches(body.password.value, c.passwordHash))
  {
    if OrEmpty(body.email) == "" || OrEmpty(body.password) == "" then
      (Fail(400, MissingCredentials), None)
    else
      var found := FindEmail(rows, body.email.value);
      if found.None? then (Fail(401, InvalidCredentials), None)
      else
        var c := rows[found.value];
        assert c in rows;
        if !matches(body.password.value, c.passwordHash) then
          assert UniqueKeys(rows) ==> forall d :: d in rows && d.email == body.email.value ==> d == c by {
            if UniqueKeys(rows) {
              forall d | d in rows && d.email == body.email.value
                ensures d == c
              {
                var k :| 0 <= k < |rows| && rows[k] == d;
                FindEmailUnique(rows, body.email.value, k);
              }
            }
          }
          (Fail(401, InvalidCredentials), None)
        else (Ok(Public(c)), Some(SessionCookie(c.email)))
  }

  /** A customer who has just signed up can sign in with the same email and password, and
      gets back the public part of the row sign-up created. */
  lemma SigninAfterSignup(rows: seq<Customer>, b: Signup.SignupBody, hash: string -> string,
                          matches: (string, string) -> bool, newId: string, now: int)
    requires Signup.Complete(b) && !Registered(rows, b.email.value)
    requires matches(b.password.value, hash(b.password.value))
    ensures var c := Signup.NewCustomer(b, hash, newId, now);
            Post(rows + [c], SigninBody(b.email, b.password), matches)
              == (Ok(Public(c)), Some(SessionCookie(b.email.value)))
  {
    var c := Signup.NewCustomer(b, hash, newId, now);
    FindEmailSnoc(rows, c);
    assert (rows + [c])[|rows|] == c;
  }
}
