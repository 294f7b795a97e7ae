/** `/api/admin/products` (app/api/admin/products/route.ts): an allowlist of admin emails
    guards listing products, changing a product's price and stock, and adding a photo. */
module AdminProducts {
  import opened Common

  /** `s.split(c)`: the pieces between occurrences of `c`; there is always at least one. */
  function SplitOn(s: string, c: char): (r: seq<string>)
    ensures |r| >= 1
    ensures forall piece :: piece in r ==> c !in piece
  {
    if s == [] then [""]
    else
      var rest := SplitOn(s[1..], c);
      if s[0] == c then [""] + rest
      else
        assert forall piece :: piece in rest[1..] ==> piece in rest;
        assert rest[0] in rest;
        [[s[0]] + rest[0]] + rest[1..]
  }

  /** Joining the pieces with the separator gives back the original text. */
  lemma {:induction false} SplitJoin(s: string, c: char)
    ensures Join(SplitOn(s, c), [c]) == s
  {
    if s != [] {
      var rest := SplitOn(s[1..], c);
      SplitJoin(s[1..], c);
      if s[0] == c {
        assert ([""] + rest)[1..] == rest;
      } else {
        var r := [[s[0]] + rest[0]] + rest[1..];
        assert r[1..] == rest[1..];
        if |rest| > 1 {
          assert Join(rest, [c]) == rest[0] + [c] + Join(rest[1..], [c]);
        }
      }
    }
  }

  function TrimLowerAll(parts: seq<string>): (r: seq<string>)
    ensures |r| == |parts| && forall i :: 0 <= i < |r| ==> r[i] == Lower(Trim(parts[i]))
  {
    if parts == [] then [] else [Lower(Trim(parts[0]))] + TrimLowerAll(parts[1..])
  }

  /** The non-empty trimmed, lowercased pieces are exactly the lowercased pieces whose
      trimmed text is not empty. */
  lemma TrimLowerPieces(pieces: seq<string>)
    ensures forall e :: e in NonEmpty(TrimLowerAll(pieces)) <==>
              exists piece :: piece in pieces && Trim(piece) != "" && e == Lower(Trim(piece))
  {
    var parts := TrimLowerAll(pieces);
    forall e ensures e in NonEmpty(parts) <==> exists piece :: piece in pieces && Trim(piece) != "" && e == Lower(Trim(piece)) {
      if e in NonEmpty(parts) {
        var i :| 0 <= i < |parts| && parts[i] == e;
        assert pieces[i] in pieces && e == Lower(Trim(pieces[i]));
      }
      if exists piece :: piece in pieces && Trim(piece) != "" && e == Lower(Trim(piece)) {
        var piece :| piece in pieces && Trim(piece) != "" && e == Lower(Trim(piece));
        var i :| 0 <= i < |pieces| && pieces[i] == piece;
        assert parts[i] == e && e != "";
      }
    }
  }

  /** `adminEmails`: the comma-separated `ADMIN_EMAILS`, each entry trimmed and lowercased,
      empty entries dropped. */
  function AdminEmails(env: Option<string>): (r: seq<string>)
    ensures forall e :: e in r ==> e != "" && Lower(e) == e
    ensures forall e :: e in r <==> exists piece :: piece in SplitOn(OrEmpty(env), ',') && Trim(piece) != ""
                                                   && e == Lower(Trim(piece))
  {
    var r := NonEmpty(TrimLowerAll(SplitOn(OrEmpty(env), ',')));
    TrimLowerPieces(SplitOn(OrEmpty(env), ','));
    assert forall e :: e in r ==> Lower(e) == e by {
      forall e | e in r ensures Lower(e) == e {
        var parts := TrimLowerAll(SplitOn(OrEmpty(env), ','));
        var i :| 0 <= i < |parts| && parts[i] == e;
        LowerConcat(Trim(SplitOn(OrEmpty(env), ',')[i]), "");
        assert Trim(SplitOn(OrEmpty(env), ',')[i]) + "" == Trim(SplitOn(OrEmpty(env), ',')[i]);
      }
    }
    r
  }

  /** `requireAdmin(email)`: a non-empty email whose lowercase form is on the list. */
  predicate RequireAdmin(admins: seq<string>, email: Option<string>)
  {
    OrEmpty(email) != "" && Lower(email.value) in admins
  }

  /** Admin checks ignore letter case, and every listed address (as written in the
      setting, around its spaces) is an admin in any case. */
  lemma AdminIgnoresCase(env: Option<string>, email: string)
    ensures RequireAdmin(AdminEmails(env), Some(email)) <==> RequireAdmin(AdminEmails(env), Some(Lower(email)))
    ensures forall piece :: piece in SplitOn(OrEmpty(env), ',') && Trim(piece) != "" ==>
              RequireAdmin(AdminEmails(env), Some(Trim(piece)))
  {
    LowerConcat(email, "");
    assert email + "" == email;
    var pieces := SplitOn(OrEmpty(env), ',');
    var parts := TrimLowerAll(pieces);
    forall piece | piece in pieces && Trim(piece) != "" ensures RequireAdmin(AdminEmails(env), Some(Trim(piece))) {
      var i :| 0 <= i < |pieces| && pieces[i] == piece;
      assert parts[i] == Lower(Trim(piece));
      assert parts[i] in parts;
      assert |Lower(Trim(piece))| == |Trim(piece)|;
    }
  }

  /** A product row as the admin sees it; stock and photos may be null. */
  datatype AdminProduct = AdminProduct(productId: string, name: string, price: int, stock: Option<int>,
                                       photos: Option<seq<string>>, created: int)

  /** A row of the `GET` listing: stock reported as 0 when null. */
  datatype ListedProduct = ListedProduct(productId: string, name: string, price: int, stock: int,
                                         photos: Option<seq<string>>)

  function Listed(p: AdminProduct): ListedProduct
  {
    ListedProduct(p.productId, p.name, p.price, if p.stock.Some? then p.stock.value else 0, p.photos)
  }

  const ListLimit: nat := 50

  /** `GET`: the newest products first (the table is in creation order), at most 50. */
  function Listing(rows: seq<AdminProduct>): (r: seq<ListedProduct>)
    ensures |r| == if |rows| < ListLimit then |rows| else ListLimit
    ensures forall i :: 0 <= i < |r| ==> r[i] == Listed(rows[|rows| - 1 - i])
    decreases |rows|
  {
    if rows == [] then []
    else
      var rest := Listing(rows[..|rows| - 1]);
      var r := [Listed(rows[|rows| - 1])] + rest;
      if |r| > ListLimit then r[..ListLimit] else r
  }

  /** The PUT body as parsed JSON; an unparsable body is all `undefined`. */
  datatype PutBody = PutBody(productId: Json, price: Json, stock: Json)

  predicate IsHexChar(c: char)
  {
    '0' <= c <= '9' || 'a' <= c <= 'f' || 'A' <= c <= 'F'
  }

  /** The textual shape of a UUID: 8-4-4-4-12 hexadecimal digits. */
  predicate IsUuid(s: string)
  {
    |s| == 36
    && forall i :: 0 <= i < 36 ==> if i in {8, 13, 18, 23} then s[i] == '-' else IsHexChar(s[i])
  }

  datatype PriceStock = PriceStock(productId: string, price: Option<int>, stock: Option<int>)

  /** The schema: a UUID product id, an optional positive price and an optional
      non-negative integer stock. */
  function ParsePut(body: PutBody): (r: Option<PriceStock>)
    ensures r.Some? ==> IsUuid(r.value.productId)
    ensures r.Some? ==> (r.value.price.Some? ==> r.value.price.value > 0) && (r.value.stock.Some? ==> r.value.stock.value >= 0)
    ensures r.Some? <==> && body.productId.JStr? && IsUuid(body.productId.s)
                         && (body.price == JUndefined || (body.price.JNum? && body.price.num.Fin? && body.price.num.n > 0))
                         && (body.stock == JUndefined || (body.stock.JNum? && body.stock.num.Fin? && body.stock.num.n >= 0))
  {
    if !(body.productId.JStr? && IsUuid(body.productId.s)) then None
    else if !(body.price == JUndefined || (body.price.JNum? && body.price.num.Fin? && body.price.num.n > 0)) then None
    else if !(body.stock == JUndefined || (body.stock.JNum? && body.stock.num.Fin? && body.stock.num.n >= 0)) then None
    else Some(PriceStock(body.productId.s,
                         if body.price == JUndefined then None else Some(body.price.num.n),
                         if body.stock == JUndefined then None else Some(body.stock.num.n)))
  }

  /** `COALESCE(new, old)`. */
  function Coalesce<T>(x: Option<T>, old_: T): T
  {
    if x.Some? then x.value else old_
  }

  predicate HasProduct(rows: seq<AdminProduct>, id: string)
  {
    exists r :: r in rows && r.productId == id
  }

  /** The table after `SET price = COALESCE(price', price), stock_quantity = COALESCE(stock', stock_quantity)
      WHERE product_id = id`. */
  function WithPriceStock(rows: seq<AdminProduct>, id: string, price: Option<int>, stock: Option<int>): (r: seq<AdminProduct>)
    ensures |r| == |rows|
  {
    seq(|rows|, i requires 0 <= i < |rows| =>
      if rows[i].productId == id
      then rows[i].(price := Coalesce(price, rows[i].price), stock := if stock.Some? then stock else rows[i].stock)
      else rows[i])
  }

  /** The table after `SET photos = array_append(COALESCE(photos, '{}'), url) WHERE product_id = id`. */
  function WithPhoto(rows: seq<AdminProduct>, id: string, url: string): (r: seq<AdminProduct>)
    ensures |r| == |rows|
  {
    seq(|rows|, i requires 0 <= i < |rows| =>
      if rows[i].productId == id then rows[i].(photos := Some(Coalesce(rows[i].photos, []) + [url])) else rows[i])
  }

  /** A price/stock update changes only the named product, only in the fields given (an
      absent field keeps its stored value), and leaves every id in place. */
  lemma PriceStockEffect(rows: seq<AdminProduct>, id: string, price: Option<int>, stock: Option<int>, i: nat)
    requires i < |rows|
    ensures var r := WithPriceStock(rows, id, price, stock);
            && r[i].productId == rows[i].productId && r[i].name == rows[i].name && r[i].photos == rows[i].photos
            && (rows[i].productId != id ==> r[i] == rows[i])
            && (rows[i].productId == id ==>
                  (r[i].price == (if price.Some? then price.value else rows[i].price)
                   && r[i].stock == (if stock.Some? then stock else rows[i].stock)))
  {
  }

  /** Adding a photo appends exactly that URL to the named product's photos (a null list
      counting as empty), keeping the earlier photos in order, and changes nothing else. */
  lemma PhotoEffect(rows: seq<AdminProduct>, id: string, url: string, i: nat)
    requires i < |rows|
    ensures var r := WithPhoto(rows, id, url);
            && (rows[i].productId != id ==> r[i] == rows[i])
            && (rows[i].productId == id ==>
                  (r[i].photos.Some? && |r[i].photos.value| == |Coalesce(rows[i].photos, [])| + 1
                   && r[i].photos.value[..|r[i].photos.value| - 1] == Coalesce(rows[i].photos, [])
                   && r[i].photos.value[|r[i].photos.value| - 1] == url
                   && r[i] == rows[i].(photos := r[i].photos)))
  {
    var r := WithPhoto(rows, id, url);
    if rows[i].productId == id {
      assert r[i].photos.value == Coalesce(rows[i].photos, []) + [url];
    }
  }

  /** The row of `id`, if any. */
  function Find(rows: seq<AdminProduct>, id: string): (r: Option<nat>)
    ensures r.None? <==> !HasProduct(rows, id)
    ensures r.Some? ==> r.value < |rows| && rows[r.value].productId == id
  {
    if rows == [] then None
    else if rows[0].productId == id then Some(0)
    else
      var rest := Find(rows[1..], id);
      assert HasProduct(rows, id) <==> HasProduct(rows[1..], id) by {
        if HasProduct(rows, id) { var x :| x in rows && x.productId == id; assert x in rows[1..]; }
      }
      if rest.None? then None else Some(rest.value + 1)
  }

  /** The `products` table, in creation order; product ids are distinct. */
  class ProductTable {
    var rows: seq<AdminProduct>

    ghost predicate Valid()
      reads this
    {
      forall i, j :: 0 <= i < j < |rows| ==> rows[i].productId != rows[j].productId
    }

    constructor (rows: seq<AdminProduct>)
      requires forall i, j :: 0 <= i < j < |rows| ==> rows[i].productId != rows[j].productId
      ensures Valid() && this.rows == rows
    {
      this.rows := rows;
    }

    /** `UPDATE … RETURNING …` for price and stock: the updated row, or none for an unknown id. */
    method UpdatePriceStock(id: string, price: Option<int>, stock: Option<int>) returns (updated: Option<AdminProduct>)
      requires Valid()
      modifies this
      ensures Valid()
      ensures rows == WithPriceStock(old(rows), id, price, stock)
      ensures updated.None? <==> !HasProduct(old(rows), id)
      ensures updated.Some? ==> updated.value == rows[Find(old(rows), id).value]
    {
      var found := Find(rows, id);
      rows := WithPriceStock(rows, id, price, stock);
      updated := if found.Some? then Some(rows[found.value]) else None;
    }

    /** `UPDATE … RETURNING …` for a new photo. */
    method AppendPhoto(id: string, url: string) returns (updated: Option<AdminProduct>)
      requires Valid()
      modifies this
      ensures Valid()
      ensures rows == WithPhoto(old(rows), id, url)
      ensures updated.None? <==> !HasProduct(old(rows), id)
      ensures updated.Some? ==> updated.value == rows[Find(old(rows), id).value]
    {
      var found := Find(rows, id);
      rows := WithPhoto(rows, id, url);
      updated := if found.Some? then Some(rows[found.value]) else None;
    }
  }

  /** `GET`: 403 for non-admins. */
  function Get(admins: seq<string>, email: Option<string>, rows: seq<AdminProduct>): (r: Reply<seq<ListedProduct>>)
    ensures !RequireAdmin(admins, email) ==> r == Fail(403, "Forbidden")
    ensures RequireAdmin(admins, email) ==> r == Ok(Listing(rows))
    ensures r.Ok? ==> |r.body| <= ListLimit
  {
    if !RequireAdmin(admins, email) then Fail(403, "Forbidden") else Ok(Listing(rows))
  }

  /** `PUT`: 403 for non-admins, 400 for a body that fails the schema, 404 for an unknown
      product; otherwise the updated row. */
  method Put(table: ProductTable, admins: seq<string>, email: Option<string>, body: PutBody)
    returns (reply: Reply<AdminProduct>)
    requires table.Valid()
    modifies table
    ensures table.Valid()
    ensures !RequireAdmin(admins, email) ==> reply == Fail(403, "Forbidden") && table.rows == old(table.rows)
    ensures RequireAdmin(admins, email) && ParsePut(body).None? ==> reply == Fail(400, "Invalid payload") && table.rows == old(table.rows)
    ensures (RequireAdmin(admins, email) && ParsePut(body).Some?) ==>
              && table.rows == WithPriceStock(old(table.rows), ParsePut(body).value.productId, ParsePut(body).value.price,
                                              ParsePut(body).value.stock)
              && (reply.Fail? <==> !HasProduct(old(table.rows), ParsePut(body).value.productId))
              && (reply.Fail? ==> reply == Fail(404, "Product not found"))
              && (reply.Ok? ==> reply.body == table.rows[Find(old(table.rows), ParsePut(body).value.productId).value])
  {
    if !RequireAdmin(admins, email) {
      return Fail(403, "Forbidden");
    }
    var parsed := ParsePut(body);
    if parsed.None? {
      return Fail(400, "Invalid payload");
    }
    var updated := table.UpdatePriceStock(parsed.value.productId, parsed.value.price, parsed.value.stock);
    if updated.None? {
      return Fail(404, "Product not found");
    }
    reply := Ok(updated.value);
  }

  const MimeMessage := "Only JPEG/PNG/WebP " + "allowed"
  const AllowedMimes: seq<string> := ["image/jpeg", "image/png", "image/webp"]
  const DefaultMaxUploadBytes: nat := 5 * 1024 * 1024

  /** `Number(NEXT_PUBLIC_MAX_UPLOAD_BYTES || 5 MiB)`. */
  function MaxUploadBytes(env: Option<string>): JsNum
  {
    if OrEmpty(env) != "" then ParseNumber(env.value) else Fin(DefaultMaxUploadBytes)
  }

  /** `byteLength > max`; any comparison with NaN is false. */
  predicate TooLarge(size: nat, max: JsNum)
  {
    match max
    case Fin(n) => size > n
    case NegInf => true
    case _ => false
  }

  const MissingFileMessage := "file and productId " + "required"

  /** The checks `POST` makes before touching the image, in order. */
  function UploadCheck(admins: seq<string>, email: Option<string>, file: Option<FileUpload>, productId: Option<string>,
                       maxEnv: Option<string>): (r: Option<(int, string)>)
    ensures !RequireAdmin(admins, email) ==> r == Some((403, "Forbidden"))
    ensures r.None? <==> && RequireAdmin(admins, email) && file.Some? && OrEmpty(productId) != ""
                         && file.value.mime in AllowedMimes && !TooLarge(file.value.size, MaxUploadBytes(maxEnv))
    ensures (RequireAdmin(admins, email) && file.Some? && OrEmpty(productId) != "" && file.value.mime !in AllowedMimes) ==>
              r == Some((415, MimeMessage))
    ensures RequireAdmin(admins, email) && (file.None? || OrEmpty(productId) == "") ==> r == Some((400, MissingFileMessage))
    ensures (RequireAdmin(admins, email) && file.Some? && OrEmpty(productId) != "" && file.value.mime in AllowedMimes
             && TooLarge(file.value.size, MaxUploadBytes(maxEnv))) ==> r == Some((413, "File too large"))
  {
    if !RequireAdmin(admins, email) then Some((403, "Forbidden"))
    else if file.None? || OrEmpty(productId) == "" then Some((400, MissingFileMessage))
    else if file.value.mime !in AllowedMimes then Some((415, MimeMessage))
    else if TooLarge(file.value.size, MaxUploadBytes(maxEnv)) then Some((413, "File too large"))
    else None
  }

  /** With the default limit, exactly the files over 5 MiB are refused as too large. */
  lemma DefaultLimit(size: nat)
    ensures TooLarge(size, MaxUploadBytes(None)) <==> size > 5242880
  {
  }

  /** The object key a product photo is stored under: `products/<id>-<time>.<ext>`. */
  function PhotoKey(productId: string, now: nat, contentType: string): (k: string)
    ensures StartsWith(k, "products/" + productId + "-") && |k| > |productId| + 14
    ensures k[|productId| + 10..|k| - 4] == NatToString(now)
    ensures k[|k| - 4] == '.' && k[|k| - 3..] == ExtFor(contentType)
  {
    var prefix := "products/" + productId + "-";
    assert |prefix| == |productId| + 10;
    TimedKey(prefix, now, contentType)
  }

  /** Where the re-encoded image `data` of type `contentType` ends up: the bucket's public URL,
      or without a bucket an inline data URL. */
  function StoredUrl(storage: Storage, productId: string, now: nat, contentType: string, data: string): (r: Result<string>)
    ensures storage.NoStorage? ==> r == Success(DataUrl(contentType, data))
    ensures storage.Bucket? ==> r == storage.put(data, PhotoKey(productId, now, contentType))
  {
    match storage
    case NoStorage => Success(DataUrl(contentType, data))
    case Bucket(_, put) => put(data, PhotoKey(productId, now, contentType))
  }

  /** `POST`: checks, then the (re-oriented) image is stored and appended to the product's
      photos. `clean` is the image re-encoding; `url` is what was stored. */
  method Post(table: ProductTable, admins: seq<string>, email: Option<string>, file: Option<FileUpload>,
              productId: Option<string>, maxEnv: Option<string>, storage: Storage, clean: string -> string, now: nat)
    returns (reply: Reply<AdminProduct>, url: Option<string>)
    requires table.Valid()
    modifies table
    ensures table.Valid()
    ensures UploadCheck(admins, email, file, productId, maxEnv).Some? ==>
              reply == Fail(UploadCheck(admins, email, file, productId, maxEnv).value.0,
                            UploadCheck(admins, email, file, productId, maxEnv).value.1)
              && url.None?
    ensures url.None? ==> table.rows == old(table.rows) && reply.Fail?
    ensures (UploadCheck(admins, email, file, productId, maxEnv).None?
             && StoredUrl(storage, productId.value, now, ContentType(file.value), clean(file.value.base64)).Failure?) ==>
              reply == Fail(500, StoredUrl(storage, productId.value, now, ContentType(file.value), clean(file.value.base64)).message)
              && url.None? && table.rows == old(table.rows)
    ensures (UploadCheck(admins, email, file, productId, maxEnv).None?
             && StoredUrl(storage, productId.value, now, ContentType(file.value), clean(file.value.base64)).Success?) ==>
              url == Some(StoredUrl(storage, productId.value, now, ContentType(file.value), clean(file.value.base64)).value)
    ensures url.Some? ==>
              && UploadCheck(admins, email, file, productId, maxEnv).None?
              && StoredUrl(storage, productId.value, now, ContentType(file.value), clean(file.value.base64)) == Success(url.value)
              && table.rows == WithPhoto(old(table.rows), productId.value, url.value)
              && (reply.Fail? <==> !HasProduct(old(table.rows), productId.value))
              && (reply.Fail? ==> reply == Fail(404, "Product not found"))
              && (reply.Ok? ==> reply.body == table.rows[Find(old(table.rows), productId.value).value])
  {
    var check := UploadCheck(admins, email, file, productId, maxEnv);
    if check.Some? {
      return Fail(check.value.0, check.value.1), None;
    }
    var f := file.value;
    var stored := StoredUrl(storage, productId.value, now, ContentType(f), clean(f.base64));
    if stored.Failure? {
      return Fail(500, stored.message), None;
    }
    url := Some(stored.value);
    var updated := table.AppendPhoto(productId.value, stored.value);
    if updated.None? {
      return Fail(404, "Product not found"), url;
    }
    reply := Ok(updated.value);
  }
}
