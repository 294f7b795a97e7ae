/** `POST /api/uploads` (app/api/uploads/route.ts): a signed-in customer uploads a photo of
    themselves, stored in the bucket or inline as a data URL, and recorded in
    `uploaded_photos`. */
module UploadsRoute {
  import opened Common

  /** A row of `uploaded_photos`; the product is optional. */
  datatype UploadedPhoto = UploadedPhoto(photoId: nat, customerId: string, productId: Option<string>,
                                         imageUrl: string, created: int)

  /** The `uploaded_photos` table; photo ids are handed out fresh, so they are distinct. */
  class UploadedPhotoTable {
    var rows: seq<UploadedPhoto>
    var nextId: nat

    ghost predicate Valid()
      reads this
    {
      forall i :: 0 <= i < |rows| ==> rows[i].photoId < nextId
                                      && forall j :: i < j < |rows| ==> rows[i].photoId < rows[j].photoId
    }

    constructor ()
      ensures Valid() && rows == []
    {
      rows := [];
      nextId := 0;
    }

    /** `INSERT INTO uploaded_photos (customer_id, product_id, image_url)`. */
    method Insert(customerId: string, productId: Option<string>, imageUrl: string, now: int)
      requires Valid()
      modifies this
      ensures Valid() && nextId == old(nextId) + 1
      ensures rows == old(rows) + [UploadedPhoto(old(nextId), customerId, productId, imageUrl, now)]
    {
      rows := rows + [UploadedPhoto(nextId, customerId, productId, imageUrl, now)];
      nextId := nextId + 1;
    }
  }

  /** Where the photo ends up: in the bucket under `user-uploads/<customer>-<time>.<ext>`,
      or, without storage, inline as a data URL of its content type. */
  function UploadUrl(storage: Storage, customerId: string, file: FileUpload, now: nat): (r: Result<string>)
    ensures storage.NoStorage? ==> r == Success(DataUrl(ContentType(file), file.base64))
    ensures storage.Bucket? ==> r == storage.put(file.base64, UserUploadKey(customerId, now, file))
  {
    match storage
    case NoStorage => Success(DataUrl(ContentType(file), file.base64))
    case Bucket(_, put) => put(file.base64, UserUploadKey(customerId, now, file))
  }

  /** `POST`: the checks in order (403, 401, 404, 400), then exactly one row for the caller. */
  method Post(table: UploadedPhotoTable, aiEnabled: bool, email: Option<string>, customers: map<string, string>,
              file: Option<FileUpload>, productId: Option<string>, storage: Storage, now: nat)
    returns (reply: Reply<string>)
    requires table.Valid()
    modifies table
    ensures table.Valid()
    ensures !aiEnabled ==> reply == Fail(403, "AI uploads disabled")
    ensures aiEnabled && OrEmpty(email) == "" ==> reply == Fail(401, "Unauthorized")
    ensures (aiEnabled && OrEmpty(email) != "" && email.value !in customers) ==> reply == Fail(404, "Customer not found")
    ensures (aiEnabled && OrEmpty(email) != "" && email.value in customers && file.None?) ==> reply == Fail(400, "File missing")
    ensures (aiEnabled && OrEmpty(email) != "" && email.value in customers && file.Some?) ==>
              var url := UploadUrl(storage, customers[email.value], file.value, now);
              reply == if url.Success? then Ok(url.value) else Fail(500, url.message)
    ensures reply.Fail? ==> table.rows == old(table.rows)
    ensures reply.Ok? ==> && email.Some? && email.value in customers && file.Some?
                          && UploadUrl(storage, customers[email.value], file.value, now) == Success(reply.body)
                          && table.rows == old(table.rows) + [UploadedPhoto(old(table.nextId), customers[email.value],
                                                                            NullIfEmpty(productId), reply.body, now)]
  {
    if !aiEnabled {
      return Fail(403, "AI uploads disabled");
    }
    if OrEmpty(email) == "" {
      return Fail(401, "Unauthorized");
    }
    if email.value !in customers {
      return Fail(404, "Customer not found");
    }
    var customerId := customers[email.value];
    if file.None? {
      return Fail(400, "File missing");
    }
    var url := UploadUrl(storage, customerId, file.value, now);
    if url.Failure? {
      return Fail(500, url.message);
    }
    table.Insert(customerId, NullIfEmpty(productId), url.value, now);
    reply := Ok(url.value);
  }
}
