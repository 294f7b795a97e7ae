/** `POST /api/ai/dress` (app/api/ai/dress/route.ts): dress one product onto a chosen or
    the newest base model by inpainting and make the result the product's AI photo. */
module DressRoute {
  import opened Common
  import opened Ai

  /** The JSON body: `productId` is `None` when absent or empty, `basePhotoId` when absent
      or falsy. */
  datatype DressBody = DressBody(adminToken: Json, productId: Option<string>, basePhotoId: Option<nat>)

  const NoBaseImageMessage := "No base model image " + "found. Generate base " + "models first."

  /** The base image: the row with the given photo id whatever its tag, else the newest
      base-model row. */
  function BaseImage(basePhotoId: Option<nat>, rows: seq<AiPhoto>): (r: Option<string>)
    ensures basePhotoId.Some? ==> (r.Some? <==> exists i :: 0 <= i < |rows| && rows[i].photoId == basePhotoId.value)
    ensures basePhotoId.None? ==> (r.Some? <==> exists i :: 0 <= i < |rows| && IsBaseModel(rows[i]))
    ensures basePhotoId.None? && r.Some? ==>
              exists i :: 0 <= i < |rows| && IsBaseModel(rows[i]) && rows[i].imageUrl == r.value
                          && forall j :: i < j < |rows| ==> !IsBaseModel(rows[j])
  {
    if basePhotoId.Some? then PhotoUrlById(rows, basePhotoId.value) else NewestBaseModel(rows)
  }

  /** The checks before generation, in the route's order: the enable gate and the daily cap
      (thrown, so 500), then 400 for a missing product id, 404 for an unknown product and
      400 when there is no base image. */
  function Plan(settings: AiSettings, body: DressBody, rows: seq<AiPhoto>, products: map<string, ProductDetail>, now: int)
    : (r: Reply<(ProductDetail, string)>)
    ensures AssertAiEnabled(settings, body.adminToken).Failure? ==>
              r == Fail(500, AssertAiEnabled(settings, body.adminToken).message)
    ensures AssertAiEnabled(settings, body.adminToken).Success? && CheckDailyCap(DailyCap(settings), rows, now).Failure? ==>
              r == Fail(500, CheckDailyCap(DailyCap(settings), rows, now).message)
    ensures (AssertAiEnabled(settings, body.adminToken).Success? && CheckDailyCap(DailyCap(settings), rows, now).Success?
             && OrEmpty(body.productId) == "") ==> r == Fail(400, "productId is required")
    ensures (AssertAiEnabled(settings, body.adminToken).Success? && CheckDailyCap(DailyCap(settings), rows, now).Success?
             && OrEmpty(body.productId) != "" && body.productId.value !in products) ==> r == Fail(404, "Product not found")
    ensures (AssertAiEnabled(settings, body.adminToken).Success? && CheckDailyCap(DailyCap(settings), rows, now).Success?
             && OrEmpty(body.productId) != "" && body.productId.value in products
             && OrEmpty(BaseImage(body.basePhotoId, rows)) == "") ==> r == Fail(400, NoBaseImageMessage)
    ensures r.Fail? && r.status == 404 ==> OrEmpty(body.productId) != "" && body.productId.value !in products
    ensures r.Ok? <==> && AssertAiEnabled(settings, body.adminToken).Success?
                       && CheckDailyCap(DailyCap(settings), rows, now).Success?
                       && OrEmpty(body.productId) != "" && body.productId.value in products
                       && OrEmpty(BaseImage(body.basePhotoId, rows)) != ""
    ensures r.Ok? ==> r.body == (products[body.productId.value], BaseImage(body.basePhotoId, rows).value)
  {
    var gate := AssertAiEnabled(settings, body.adminToken);
    var cap := CheckDailyCap(DailyCap(settings), rows, now);
    if gate.Failure? then Fail(500, gate.message)
    else if cap.Failure? then Fail(500, cap.message)
    else if OrEmpty(body.productId) == "" then Fail(400, "productId is required")
    else if body.productId.value !in products then Fail(404, "Product not found")
    else
      var base := BaseImage(body.basePhotoId, rows);
      if OrEmpty(base) == "" then Fail(400, NoBaseImageMessage)
      else Ok((products[body.productId.value], base.value))
  }

  /** `POST`: on success the generated URL is returned unchanged and becomes the product's
      only AI photo; every failure leaves the table as it was. */
  method Post(table: AiPhotoTable, settings: AiSettings, body: DressBody, products: map<string, ProductDetail>,
              generate: (ProductDetail, string) -> Result<string>, now: nat)
    returns (reply: Reply<string>)
    requires table.Valid()
    modifies table
    ensures table.Valid()
    ensures Plan(settings, body, old(table.rows), products, now).Fail? ==>
              (var plan := Plan(settings, body, old(table.rows), products, now);
               reply == Fail(plan.status, plan.error) && table.rows == old(table.rows))
    ensures reply.Ok? ==> (var plan := Plan(settings, body, old(table.rows), products, now);
                           plan.Ok? && generate(plan.body.0, plan.body.1) == Success(reply.body)
                           && table.rows == UpsertRows(old(table.rows), plan.body.0.productId, reply.body, old(table.nextId), now))
    ensures reply.Fail? ==> table.rows == old(table.rows)
    ensures var plan := Plan(settings, body, old(table.rows), products, now);
            plan.Ok? ==> var dressed := generate(plan.body.0, plan.body.1);
                         reply == if dressed.Success? then Ok(dressed.value) else Fail(500, dressed.message)
  {
    var plan := Plan(settings, body, table.rows, products, now);
    if plan.Fail? {
      return Fail(plan.status, plan.error);
    }
    var (product, base) := plan.body;
    var dressed := generate(product, base);
    if dressed.Failure? {
      return Fail(500, dressed.message);
    }
    table.Upsert(product.productId, dressed.value, now);
    reply := Ok(dressed.value);
  }
}
