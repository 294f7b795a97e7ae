// `GET` and `PUT /api/profile`: the signed-in customer's own record, found through the
// `userEmail` cookie; `PUT` updates only the fields it is given.

module Profile {
  import opened Common
  import opened Customers

  /** The columns the routes return; the password hash is never among them. */
  datatype ProfileView = ProfileView(customerId: string, name: string, email: string, phone: Option<string>,
                                     address: Option<string>, photoUrl: Option<string>, created: int)

  function View(c: Customer): ProfileView
  {
    ProfileView(c.customerId, c.name, c.email, c.phone, c.address, c.photoUrl, c.created)
  }

  /** `GET`: 401 without the cookie, 404 for an email with no row, else that row's view. */
  function Get(rows: seq<Customer>, email: Option<string>): (r: Reply<ProfileView>)
    ensures OrEmpty(email) == "" ==> r == Fail(401, "Not authenticated")
    ensures OrEmpty(email) != "" ==> (r.Ok? <==> Registered(rows, email.value))
    ensures OrEmpty(email) != "" && r.Fail? ==> r == Fail(404, "User not found")
    ensures r.Ok? ==> exists c :: c in rows && c.email == email.value && r.body == View(c)
  {
    if OrEmpty(email) == "" then Fail(401, "Not authenticated")
    else
      var found := FindEmail(rows, email.value);
      if found.None? then Fail(404, "User not found")
      else
        assert rows[found.value] in rows;
        Ok(View(rows[found.value]))
  }

  /** `PUT`: 401 without the cookie; otherwise the COALESCE update of the cookie's row, and
      its new view, or 404 when no row has that email. */
  method Put(table: CustomerTable, email: Option<string>, patch: ProfilePatch) returns (reply: Reply<ProfileView>)
    requires table.Valid()
    modifies table
    ensures table.Valid()
    ensures OrEmpty(email) == "" ==> reply == Fail(401, "Not authenticated") && table.rows == old(table.rows)
    ensures OrEmpty(email) != "" ==>
              && table.rows == Patched(old(table.rows), email.value, patch)
              && (reply.Ok? <==> Registered(old(table.rows), email.value))
              && (reply.Fail? ==> reply == Fail(404, "User not found"))
              && (reply.Ok? ==> reply == Get(table.rows, email))
  {
    if OrEmpty(email) == "" {
      return Fail(401, "Not authenticated");
    }
    ghost var before := table.rows;
    var updated := table.UpdateProfile(email.value, patch);
    if updated.None? {
      return Fail(404, "User not found");
    }
    reply := Ok(View(updated.value));
    GetAfterPut(before, email.value, patch);
  }

  /** What `PUT` returns is exactly what a following `GET` shows: the stored row with the
      given fields replaced. */
  lemma GetAfterPut(rows: seq<Customer>, email: string, p: ProfilePatch)
    requires UniqueKeys(rows) && email != "" && Registered(rows, email)
    ensures Get(Patched(rows, email, p), Some(email)) == Ok(View(Patch(rows[FindEmail(rows, email).value], p)))
  {
    var k := FindEmail(rows, email).value;
    var after := Patched(rows, email, p);
    PatchedUnique(rows, email, p);
    assert after[k].email == email;
    FindEmailUnique(after, email, k);
  }
}
