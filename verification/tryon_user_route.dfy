/** `POST` and `DELETE /api/ai/tryon/user` (app/api/ai/tryon/user/route.ts): a signed-in
    customer tries a product on their own photo, or deletes one of their results. */
module TryonUserRoute {
  import opened Common
  import opened Ai
  import opened Tryon

  const MissingUpload := "file and productId " + "required"

  /** The checks both methods begin with, in order: the feature flag (403), the
      `userEmail` cookie (401), then the customer (404). On success, the customer id. */
  function Caller(settings: AiSettings, email: Option<string>, customers: map<string, string>): (r: Reply<string>)
    ensures !Enabled(settings) ==> r == Fail(403, "AI disabled")
    ensures Enabled(settings) && OrEmpty(email) == "" ==> r == Fail(401, "Unauthorized")
    ensures r.Ok? <==> Enabled(settings) && OrEmpty(email) != "" && email.value in customers
    ensures r.Ok? ==> r.body == customers[email.value]
    ensures r.Fail? ==> r.status in {401, 403, 404}
  {
    if !Enabled(settings) then Fail(403, "AI disabled")
    else if OrEmpty(email) == "" then Fail(401, "Unauthorized")
    else if email.value !in customers then Fail(404, "Customer not found")
    else Ok(customers[email.value])
  }

  /** `POST`: upload the customer's photo, then dress the product onto it. The photo is
      uploaded before the product is looked up, so an unknown product still leaves it
      stored; `uploadedKey` is the key it was stored under. */
  method Post(table: AiPhotoTable, settings: AiSettings, email: Option<string>, customers: map<string, string>,
              file: Option<FileUpload>, productId: Option<string>, products: map<string, ProductDetail>,
              fx: TryonEffects, now: nat)
    returns (reply: Reply<string>, uploadedKey: Option<string>)
    requires table.Valid()
    modifies table
    ensures table.Valid()
    ensures Caller(settings, email, customers).Fail? ==>
              reply == Fail(Caller(settings, email, customers).status, Caller(settings, email, customers).error)
              && uploadedKey.None?
    ensures (Caller(settings, email, customers).Ok? && (file.None? || OrEmpty(productId) == "")) ==>
              reply == Fail(400, MissingUpload) && uploadedKey.None?
    ensures (Caller(settings, email, customers).Ok? && file.Some? && OrEmpty(productId) != "" && fx.storage.NoStorage?) ==>
              reply == Fail(500, "Storage not configured") && uploadedKey.None?
    ensures (Caller(settings, email, customers).Ok? && file.Some? && OrEmpty(productId) != "" && fx.storage.Bucket?) ==>
              var put := fx.storage.put(file.value.base64, UserUploadKey(Caller(settings, email, customers).body, now, file.value));
              && (put.Failure? ==> reply == Fail(500, put.message) && uploadedKey.None?)
              && (put.Success? ==> uploadedKey.Some?)
              && (put.Success? && productId.value in products ==>
                    var dressed := UserDressOutcome(Some(products[productId.value]), put.value,
                                                    Some(Caller(settings, email, customers).body), fx, now);
                    reply == if dressed.Success? then Ok(dressed.value) else Fail(500, dressed.message))
    ensures uploadedKey.Some? ==> uploadedKey.value == UserUploadKey(Caller(settings, email, customers).body, now, file.value)
    ensures (uploadedKey.Some? && productId.value !in products) ==> reply == Fail(404, "Product not found")
    ensures reply.Ok? ==> uploadedKey.Some? && productId.value in products
    ensures reply.Fail? ==> table.rows == old(table.rows)
    ensures reply.Ok? ==> table.rows == old(table.rows) + [AiPhoto(old(table.nextId), Some(Caller(settings, email, customers).body),
                                                                 Some(products[productId.value].productId), reply.body,
                                                                 Some(if IsBelt(products[productId.value]) then "stability-user" else "viton-user"),
                                                                 now)]
  {
    uploadedKey := None;
    var caller := Caller(settings, email, customers);
    if caller.Fail? {
      return Fail(caller.status, caller.error), None;
    }
    var customerId := caller.body;
    if file.None? || OrEmpty(productId) == "" {
      return Fail(400, MissingUpload), None;
    }
    if fx.storage.NoStorage? {
      return Fail(500, "Storage not configured"), None;
    }
    var key := UserUploadKey(customerId, now, file.value);
    var humanUrl := fx.storage.put(file.value.base64, key);
    if humanUrl.Failure? {
      return Fail(500, humanUrl.message), None;
    }
    uploadedKey := Some(key);
    var product := FetchProduct(products, productId.value);
    if product.None? {
      return Fail(404, "Product not found"), uploadedKey;
    }
    var result, _ := DressUserWithTryon(table, product, humanUrl.value, Some(customerId), fx, now);
    if result.Failure? {
      return Fail(500, result.message), uploadedKey;
    }
    reply := Ok(result.value);
  }

  /** `DELETE ?photoId=`: removes the photo only when it belongs to the caller; a photo of
      another customer, or none at all, gives 404 and leaves the table as it was. */
  method Delete(table: AiPhotoTable, settings: AiSettings, email: Option<string>, customers: map<string, string>,
                photoId: Option<nat>)
    returns (reply: Reply<bool>)
    requires table.Valid()
    modifies table
    ensures table.Valid() && table.nextId == old(table.nextId)
    ensures Caller(settings, email, customers).Fail? ==>
              reply == Fail(Caller(settings, email, customers).status, Caller(settings, email, customers).error)
    ensures Caller(settings, email, customers).Ok? && photoId.None? ==> reply == Fail(400, "photoId required")
    ensures (Caller(settings, email, customers).Ok? && photoId.Some?) ==>
              && table.rows == WithoutOwned(old(table.rows), photoId.value, Caller(settings, email, customers).body)
              && (reply == Ok(true) <==> Owns(old(table.rows), photoId.value, Caller(settings, email, customers).body))
              && (reply.Fail? ==> reply == Fail(404, "Not found"))
    ensures reply.Ok? ==> |old(table.rows)| - |table.rows| == 1
    ensures reply.Fail? ==> table.rows == old(table.rows)
  {
    var caller := Caller(settings, email, customers);
    if caller.Fail? {
      return Fail(caller.status, caller.error);
    }
    if photoId.None? {
      return Fail(400, "photoId required");
    }
    var deleted := table.DeleteOwned(photoId.value, caller.body);
    if deleted == 0 {
      return Fail(404, "Not found");
    }
    reply := Ok(true);
  }
}
