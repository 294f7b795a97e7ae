/** `/api/wishlist` (app/api/wishlist/route.ts): a customer's saved products, a set of
    (customer, product) pairs (the table's primary key), listed newest first. */
module Wishlist {
  import opened Common

  datatype WishRow = WishRow(customerId: string, productId: string, created: int)

  /** What the body offers, by content type: the `productId` of a JSON body, and that of
      a urlencoded form. */
  datatype WishBody = WishBody(contentType: Option<string>, jsonProductId: Option<string>, formProductId: Option<string>)

  /** The product id the body yields: JSON first, then a form; any other content type
      yields none. */
  function ProductIdOf(body: WishBody): (r: Option<string>)
    ensures r.Some? ==> r.value != ""
    ensures Contains(OrEmpty(body.contentType), "application/json") ==> r == NullIfEmpty(body.jsonProductId)
    ensures (!Contains(OrEmpty(body.contentType), "application/json")
             && Contains(OrEmpty(body.contentType), "application/x-www-form-urlencoded")) ==> r == NullIfEmpty(body.formProductId)
    ensures (!Contains(OrEmpty(body.contentType), "application/json")
             && !Contains(OrEmpty(body.contentType), "application/x-www-form-urlencoded")) ==> r.None?
  {
    var ct := OrEmpty(body.contentType);
    if Contains(ct, "application/json") then NullIfEmpty(body.jsonProductId)
    else if Contains(ct, "application/x-www-form-urlencoded") then NullIfEmpty(body.formProductId)
    else None
  }

  predicate HasPair(rows: seq<WishRow>, customerId: string, productId: string)
  {
    exists r :: r in rows && r.customerId == customerId && r.productId == productId
  }

  /** Every row except the pair (customer, product), in order. */
  function WithoutPair(rows: seq<WishRow>, customerId: string, productId: string): (r: seq<WishRow>)
    ensures forall x :: x in r <==> x in rows && !(x.customerId == customerId && x.productId == productId)
  {
    if rows == [] then []
    else (if rows[0].customerId == customerId && rows[0].productId == productId then [] else [rows[0]])
         + WithoutPair(rows[1..], customerId, productId)
  }

  /** The customer's products that are still in the catalogue, newest first. */
  function ItemsOf(rows: seq<WishRow>, customerId: string, catalog: set<string>): (r: seq<string>)
    ensures forall p :: p in r <==> p in catalog && HasPair(rows, customerId, p)
  {
    if rows == [] then []
    else
      var rest := ItemsOf(rows[1..], customerId, catalog);
      assert forall p :: HasPair(rows, customerId, p) <==>
        (rows[0].customerId == customerId && rows[0].productId == p) || HasPair(rows[1..], customerId, p) by {
        forall p ensures HasPair(rows, customerId, p) ==>
                           (rows[0].customerId == customerId && rows[0].productId == p) || HasPair(rows[1..], customerId, p) {
          if HasPair(rows, customerId, p) {
            var x :| x in rows && x.customerId == customerId && x.productId == p;
            if x != rows[0] { assert x in rows[1..]; }
          }
        }
      }
      rest + (if rows[0].customerId == customerId && rows[0].productId in catalog then [rows[0].productId] else [])
  }

  /** The listing is newest first: a row added last heads the customer's list. */
  lemma {:induction false} ItemsOfNewestFirst(rows: seq<WishRow>, x: WishRow, customerId: string, catalog: set<string>)
    ensures ItemsOf(rows + [x], customerId, catalog)
            == (if x.customerId == customerId && x.productId in catalog then [x.productId] else []) + ItemsOf(rows, customerId, catalog)
  {
    if rows == [] {
      assert rows + [x] == [x];
    } else {
      assert (rows + [x])[0] == rows[0];
      assert (rows + [x])[1..] == rows[1..] + [x];
      ItemsOfNewestFirst(rows[1..], x, customerId, catalog);
    }
  }

  /** Each (customer, product) pair appears at most once. */
  predicate PairsUnique(rows: seq<WishRow>)
  {
    forall i, j :: 0 <= i < j < |rows| ==> !(rows[i].customerId == rows[j].customerId && rows[i].productId == rows[j].productId)
  }

  /** Removing a pair keeps the others unique. */
  lemma WithoutPairUnique(rows: seq<WishRow>, customerId: string, productId: string)
    requires PairsUnique(rows)
    ensures PairsUnique(WithoutPair(rows, customerId, productId))
  {
    var r := WithoutPair(rows, customerId, productId);
    if rows != [] {
      assert PairsUnique(rows[1..]) by {
        forall i, j | 0 <= i < j < |rows[1..]|
          ensures !(rows[1..][i].customerId == rows[1..][j].customerId && rows[1..][i].productId == rows[1..][j].productId)
        {
          assert rows[1..][i] == rows[i + 1] && rows[1..][j] == rows[j + 1];
        }
      }
      WithoutPairUnique(rows[1..], customerId, productId);
      var tail := WithoutPair(rows[1..], customerId, productId);
      if !(rows[0].customerId == customerId && rows[0].productId == productId) {
        assert r == [rows[0]] + tail;
        forall j | 0 < j < |r| ensures !(r[0].customerId == r[j].customerId && r[0].productId == r[j].productId) {
          assert r[j] in tail;
          var k :| 0 <= k < |rows[1..]| && rows[1..][k] == r[j];
          assert rows[k + 1] == r[j];
        }
      }
    }
  }

  /** The `wishlist` table, its rows in the order they were added. */
  class WishlistTable {
    var rows: seq<WishRow>

    ghost predicate Valid()
      reads this
    {
      PairsUnique(rows)
    }

    constructor ()
      ensures Valid() && rows == []
    {
      rows := [];
    }

    /** `INSERT … ON CONFLICT (customer_id, product_id) DO NOTHING`. */
    method Insert(customerId: string, productId: string, now: int)
      requires Valid()
      modifies this
      ensures Valid() && HasPair(rows, customerId, productId)
      ensures HasPair(old(rows), customerId, productId) ==> rows == old(rows)
      ensures !HasPair(old(rows), customerId, productId) ==> rows == old(rows) + [WishRow(customerId, productId, now)]
    {
      if !HasPair(rows, customerId, productId) {
        var row := WishRow(customerId, productId, now);
        forall i | 0 <= i < |rows| ensures !(rows[i].customerId == customerId && rows[i].productId == productId) {
          assert rows[i] in rows;
        }
        rows := rows + [row];
        assert rows[|rows| - 1] in rows;
      }
    }

    /** `DELETE … WHERE customer_id = … AND product_id = …`. */
    method Delete(customerId: string, productId: string)
      requires Valid()
      modifies this
      ensures Valid() && !HasPair(rows, customerId, productId)
      ensures rows == WithoutPair(old(rows), customerId, productId)
      ensures forall c, p :: !(c == customerId && p == productId) ==> (HasPair(rows, c, p) <==> HasPair(old(rows), c, p))
    {
      WithoutPairUnique(rows, customerId, productId);
      rows := WithoutPair(rows, customerId, productId);
    }
  }

  /** `GET`: 401 without the cookie; an unknown customer gets an empty list. */
  function Get(table: seq<WishRow>, email: Option<string>, customers: map<string, string>, catalog: set<string>): (r: Reply<seq<string>>)
    ensures OrEmpty(email) == "" ==> r == Fail(401, "Not authenticated")
    ensures OrEmpty(email) != "" && email.value !in customers ==> r == Ok([])
    ensures OrEmpty(email) != "" && email.value in customers ==> r == Ok(ItemsOf(table, customers[email.value], catalog))
    ensures r.Ok? && OrEmpty(email) != "" && email.value in customers ==>
              forall p :: p in r.body <==> p in catalog && HasPair(table, customers[email.value], p)
  {
    if OrEmpty(email) == "" then Fail(401, "Not authenticated")
    else if email.value !in customers then Ok([])
    else Ok(ItemsOf(table, customers[email.value], catalog))
  }

  /** `POST` and `DELETE` share their checks: cookie (401), product id (400), customer (404). */
  function Target(email: Option<string>, customers: map<string, string>, body: WishBody): (r: Reply<(string, string)>)
    ensures OrEmpty(email) == "" ==> r == Fail(401, "Not authenticated")
    ensures OrEmpty(email) != "" && ProductIdOf(body).None? ==> r == Fail(400, "productId required")
    ensures r.Ok? <==> OrEmpty(email) != "" && ProductIdOf(body).Some? && email.value in customers
    ensures r.Ok? ==> r.body == (customers[email.value], ProductIdOf(body).value)
    ensures r.Fail? ==> r.status in {400, 401, 404}
  {
    if OrEmpty(email) == "" then Fail(401, "Not authenticated")
    else if ProductIdOf(body).None? then Fail(400, "productId required")
    else if email.value !in customers then Fail(404, "User not found")
    else Ok((customers[email.value], ProductIdOf(body).value))
  }

  /** `POST`: adding a pair that is already there changes nothing. */
  method Post(table: WishlistTable, email: Option<string>, customers: map<string, string>, body: WishBody, now: int)
    returns (reply: Reply<bool>)
    requires table.Valid()
    modifies table
    ensures table.Valid()
    ensures Target(email, customers, body).Fail? ==>
              reply == Fail(Target(email, customers, body).status, Target(email, customers, body).error)
              && table.rows == old(table.rows)
    ensures Target(email, customers, body).Ok? ==>
              reply == Ok(true)
              && HasPair(table.rows, Target(email, customers, body).body.0, Target(email, customers, body).body.1)
              && (HasPair(old(table.rows), Target(email, customers, body).body.0, Target(email, customers, body).body.1)
                  ==> table.rows == old(table.rows))
              && (!HasPair(old(table.rows), Target(email, customers, body).body.0, Target(email, customers, body).body.1)
                  ==> table.rows == old(table.rows) + [WishRow(Target(email, customers, body).body.0,
                                                               Target(email, customers, body).body.1, now)])
  {
    var target := Target(email, customers, body);
    if target.Fail? {
      return Fail(target.status, target.error);
    }
    table.Insert(target.body.0, target.body.1, now);
    reply := Ok(true);
  }

  /** `DELETE`: succeeds whether or not the pair was there, and touches no other pair. */
  method Delete(table: WishlistTable, email: Option<string>, customers: map<string, string>, body: WishBody)
    returns (reply: Reply<bool>)
    requires table.Valid()
    modifies table
    ensures table.Valid()
    ensures Target(email, customers, body).Fail? ==>
              reply == Fail(Target(email, customers, body).status, Target(email, customers, body).error)
              && table.rows == old(table.rows)
    ensures Target(email, customers, body).Ok? ==>
              reply == Ok(true)
              && table.rows == WithoutPair(old(table.rows), Target(email, customers, body).body.0, Target(email, customers, body).body.1)
  {
    var target := Target(email, customers, body);
    if target.Fail? {
      return Fail(target.status, target.error);
    }
    table.Delete(target.body.0, target.body.1);
    reply := Ok(true);
  }
}
