// `POST /api/auth/signup`: registers a customer with a hashed password and signs the
// browser in through the `userEmail` cookie.

module Signup {
  import opened Common
  import opened Customers

  const MissingFields := "Name, email and " + "password are required."
  const AlreadyRegistered := "Email already " + "registered."

  /** The JSON body; an absent or null field is `None`. */
  datatype SignupBody = SignupBody(name: Option<string>, email: Option<string>, password: Option<string>,
                                   phone: Option<string>, address: Option<string>)

  /** Name, email and password are all present and non-empty. */
  predicate Complete(b: SignupBody)
  {
    OrEmpty(b.name) != "" && OrEmpty(b.email) != "" && OrEmpty(b.password) != ""
  }

  /** The row inserted for a complete body: `hash` is bcrypt with cost 10, and phone and
      address stay null when the body leaves them out. */
  function NewCustomer(b: SignupBody, hash: string -> string, newId: string, now: int): (c: Customer)
    requires Complete(b)
    ensures c.email == b.email.value && c.name == b.name.value && c.customerId == newId
    ensures c.passwordHash == hash(b.password.value) && c.phone == b.phone && c.address == b.address
    ensures c.photoUrl.None?
  {
    Customer(newId, b.name.value, b.email.value, hash(b.password.value), b.phone, b.address, None, now)
  }

  /** The handler. `newId` is the generated `customer_id`; `now` the insertion time. */
  method Post(table: CustomerTable, body: SignupBody, hash: string -> string, newId: string, now: int)
    returns (reply: Reply<PublicUser>, cookie: Option<Cookie>)
    requires table.Valid()
    requires !HasCustomerId(table.rows, newId)
    modifies table
    ensures table.Valid()
    ensures reply.Fail? ==> cookie.None? && table.rows == old(table.rows)
    ensures !Complete(body) ==> reply == Fail(400, MissingFields)
    ensures Complete(body) && Registered(old(table.rows), body.email.value) ==>
              reply == Fail(409, AlreadyRegistered)
    ensures reply.Ok? <==> Complete(body) && !Registered(old(table.rows), body.email.value)
    ensures reply.Ok? ==>
              && table.rows == old(table.rows) + [NewCustomer(body, hash, newId, now)]
              && reply.body == Public(NewCustomer(body, hash, newId, now))
              && cookie == Some(SessionCookie(body.email.value))
  {
    if !Complete(body) {
      return Fail(400, MissingFields), None;
    }
    if FindEmail(table.rows, body.email.value).Some? {
      return Fail(409, AlreadyRegistered), None;
    }
    var c := NewCustomer(body, hash, newId, now);
    var inserted := table.InsertIgnore(c);
    reply := Ok(Public(c));
    cookie := Some(SessionCookie(c.email));
  }

  /** Appending a customer registers their email. */
  lemma AppendRegisters(rows: seq<Customer>, c: Customer)
    ensures Registered(rows + [c], c.email)
  {
  }

  /** The same sign-up sent twice: when the first succeeds, the second is refused with 409,
      sets no cookie and leaves the table as the first left it. */
  method SecondSignupConflicts(table: CustomerTable, body: SignupBody, hash: string -> string,
                               firstId: string, secondId: string, now: int, later: int)
    returns (first: Reply<PublicUser>, second: Reply<PublicUser>, cookie: Option<Cookie>)
    requires table.Valid()
    requires !HasCustomerId(table.rows, firstId) && !HasCustomerId(table.rows, secondId) && firstId != secondId
    modifies table
    ensures first.Ok? <==> Complete(body) && !Registered(old(table.rows), body.email.value)
    ensures first.Ok? ==> second == Fail(409, AlreadyRegistered) && cookie.None?
                          && table.rows == old(table.rows) + [NewCustomer(body, hash, firstId, now)]
  {
    var firstCookie;
    first, firstCookie := Post(table, body, hash, firstId, now);
    if first.Ok? {
      AppendRegisters(old(table.rows), NewCustomer(body, hash, firstId, now));
    }
    second, cookie := Post(table, body, hash, secondId, later);
  }
}
