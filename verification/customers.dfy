// The `customers` table shared by sign-up, sign-in, the OAuth sign-in callback and the
// profile routes, and the session cookie those routes set.

module Customers {
  import opened Common

  /** One row of `customers`. `passwordHash` is the stored bcrypt hash. */
  datatype Customer = Customer(customerId: string, name: string, email: string, passwordHash: string,
                               phone: Option<string>, address: Option<string>, photoUrl: Option<string>,
                               created: int)

  /** The public part of a customer that the auth routes return. */
  datatype PublicUser = PublicUser(customerId: string, name: string, email: string)

  function Public(c: Customer): PublicUser
  {
    PublicUser(c.customerId, c.name, c.email)
  }

  /** The options of a cookie set on a response. */
  datatype Cookie = Cookie(name: string, value: string, httpOnly: bool, sameSite: string, secure: bool,
                           path: string, maxAge: nat)

  /** Seven days, in seconds. */
  const SessionMaxAge: nat := 60 * 60 * 24 * 7

  /** The `userEmail` cookie that marks a signed-in browser. */
  function SessionCookie(email: string): (c: Cookie)
    ensures c.name == "userEmail" && c.value == email && c.httpOnly && c.secure
    ensures c.maxAge == 604800
  {
    Cookie("userEmail", email, true, "lax", true, "/", SessionMaxAge)
  }

  predicate Registered(rows: seq<Customer>, email: string)
  {
    exists c :: c in rows && c.email == email
  }

  predicate HasCustomerId(rows: seq<Customer>, id: string)
  {
    exists c :: c in rows && c.customerId == id
  }

  /** `email` and `customer_id` are both unique columns. */
  ghost predicate UniqueKeys(rows: seq<Customer>)
  {
    forall i, j :: 0 <= i < j < |rows| ==> rows[i].email != rows[j].email && rows[i].customerId != rows[j].customerId
  }

  /** `SELECT … WHERE email = $1 LIMIT 1`: the first row with that email. */
  function FindEmail(rows: seq<Customer>, email: string): (r: Option<nat>)
    ensures r.None? <==> !Registered(rows, email)
    ensures r.Some? ==> r.value < |rows| && rows[r.value].email == email
    ensures r.Some? ==> forall k :: 0 <= k < r.value ==> rows[k].email != email
  {
    if rows == [] then None
    else if rows[0].email == email then Some(0)
    else
      var rest := FindEmail(rows[1..], email);
      assert Registered(rows, email) <==> Registered(rows[1..], email) by {
        if Registered(rows, email) { var c :| c in rows && c.email == email; assert c in rows[1..]; }
      }
      if rest.None? then None else Some(rest.value + 1)
  }

  /** In a table with unique emails, the row found for an email is the only one carrying it. */
  lemma FindEmailUnique(rows: seq<Customer>, email: string, k: nat)
    requires UniqueKeys(rows)
    requires k < |rows| && rows[k].email == email
    ensures FindEmail(rows, email) == Some(k)
  {
    assert rows[k] in rows;
  }

  /** A new row appended behind rows that do not hold its email is the one found for it. */
  lemma FindEmailSnoc(rows: seq<Customer>, c: Customer)
    requires !Registered(rows, c.email)
    ensures FindEmail(rows + [c], c.email) == Some(|rows|)
  {
    var all := rows + [c];
    assert all[|rows|] in all;
    forall k | 0 <= k < |rows|
      ensures all[k].email != c.email
    {
      assert all[k] == rows[k] && rows[k] in rows;
    }
  }

  /** Appending a row whose email and id are new keeps the keys unique. */
  lemma SnocUnique(rows: seq<Customer>, c: Customer)
    requires UniqueKeys(rows)
    requires !Registered(rows, c.email) && !HasCustomerId(rows, c.customerId)
    ensures UniqueKeys(rows + [c])
  {
    var all := rows + [c];
    forall i, j | 0 <= i < j < |all|
      ensures all[i].email != all[j].email && all[i].customerId != all[j].customerId
    {
      if j == |rows| {
        assert all[i] == rows[i] && rows[i] in rows;
      }
    }
  }

  /** A profile update: each present field replaces the stored one (`COALESCE(new, old)`). */
  datatype ProfilePatch = ProfilePatch(name: Option<string>, phone: Option<string>, address: Option<string>,
                                       photoUrl: Option<string>)

  function Keep(x: Option<string>, old_: string): string
  {
    if x.Some? then x.value else old_
  }

  function KeepOpt(x: Option<string>, old_: Option<string>): Option<string>
  {
    if x.Some? then x else old_
  }

  function Patch(c: Customer, p: ProfilePatch): Customer
  {
    c.(name := Keep(p.name, c.name), phone := KeepOpt(p.phone, c.phone), address := KeepOpt(p.address, c.address),
       photoUrl := KeepOpt(p.photoUrl, c.photoUrl))
  }

  /** The table after `UPDATE customers SET … COALESCE … WHERE email = $email`. */
  function Patched(rows: seq<Customer>, email: string, p: ProfilePatch): (r: seq<Customer>)
    ensures |r| == |rows|
  {
    seq(|rows|, i requires 0 <= i < |rows| => if rows[i].email == email then Patch(rows[i], p) else rows[i])
  }

  /** A profile update never touches identity: every row keeps its id, email, password hash
      and creation time; rows of other emails are unchanged; absent fields keep their values. */
  lemma PatchedKeepsIdentity(rows: seq<Customer>, email: string, p: ProfilePatch, i: nat)
    requires i < |rows|
    ensures var r := Patched(rows, email, p);
            && r[i].customerId == rows[i].customerId && r[i].email == rows[i].email
            && r[i].passwordHash == rows[i].passwordHash && r[i].created == rows[i].created
            && (rows[i].email != email ==> r[i] == rows[i])
            && (p.name.None? ==> r[i].name == rows[i].name)
            && (p.phone.None? ==> r[i].phone == rows[i].phone)
            && (p.address.None? ==> r[i].address == rows[i].address)
            && (p.photoUrl.None? ==> r[i].photoUrl == rows[i].photoUrl)
            && (rows[i].email == email && p.name.Some? ==> r[i].name == p.name.value)
  {
  }

  /** Sending the same update twice leaves the table as sending it once. */
  lemma PatchedIdempotent(rows: seq<Customer>, email: string, p: ProfilePatch)
    ensures Patched(Patched(rows, email, p), email, p) == Patched(rows, email, p)
  {
    var once := Patched(rows, email, p);
    var twice := Patched(once, email, p);
    forall i | 0 <= i < |rows|
      ensures twice[i] == once[i]
    {
    }
  }

  /** Because emails and ids are untouched, an update keeps the keys unique. */
  lemma PatchedUnique(rows: seq<Customer>, email: string, p: ProfilePatch)
    requires UniqueKeys(rows)
    ensures UniqueKeys(Patched(rows, email, p))
  {
  }

  /** The `customers` table, in creation order. */
  class CustomerTable {
    var rows: seq<Customer>

    ghost predicate Valid()
      reads this
    {
      UniqueKeys(rows)
    }

    constructor (rows: seq<Customer>)
      requires UniqueKeys(rows)
      ensures Valid() && this.rows == rows
    {
      this.rows := rows;
    }

    /** `INSERT … ON CONFLICT (email) DO NOTHING`; `c.customerId` is the generated id.
        A plain `INSERT` is the same call made after checking the email is new. */
    method InsertIgnore(c: Customer) returns (inserted: bool)
      requires Valid()
      requires !HasCustomerId(rows, c.customerId)
      modifies this
      ensures Valid()
      ensures inserted <==> !Registered(old(rows), c.email)
      ensures inserted ==> rows == old(rows) + [c]
      ensures !inserted ==> rows == old(rows)
    {
      if FindEmail(rows, c.email).Some? {
        return false;
      }
      SnocUnique(rows, c);
      rows := rows + [c];
      return true;
    }

    /** `UPDATE … RETURNING …`: the updated row, or none when no row has that email. */
    method UpdateProfile(email: string, p: ProfilePatch) returns (updated: Option<Customer>)
      requires Valid()
      modifies this
      ensures Valid()
      ensures rows == Patched(old(rows), email, p)
      ensures updated.None? <==> !Registered(old(rows), email)
      ensures updated.Some? ==> updated.value == Patch(old(rows)[FindEmail(old(rows), email).value], p)
    {
      var found := FindEmail(rows, email);
      PatchedUnique(rows, email, p);
      rows := Patched(rows, email, p);
      updated := if found.Some? then Some(rows[found.value]) else None;
    }
  }
}
