/** `POST /api/ai/tryon/refresh` (app/api/ai/tryon/refresh/route.ts): dress a batch of
    products with VITON, one result per selected product. */
module TryonRefreshRoute {
  import opened Common
  import opened Ai
  import opened Tryon

  /** The fields of the JSON body; an unreadable body reads as `{}`. */
  datatype RefreshBody = RefreshBody(adminToken: Json, force: Json, maxProducts: Json, generateBaseModels: Json)

  /** How many base models to generate first: none unless the field is truthy, the number
      itself when it is a number, else 4. */
  function BaseModelCount(v: Json): (r: Option<JsNum>)
    ensures r.None? <==> !Truthy(v)
    ensures Truthy(v) && v.JNum? ==> r == Some(v.num)
    ensures Truthy(v) && !v.JNum? ==> r == Some(Fin(4))
  {
    if !Truthy(v) then None
    else if v.JNum? then Some(v.num)
    else Some(Fin(4))
  }

  /** The batch size: `Number(maxProducts)` when finite, else 3; `None` (an empty batch)
      when that is not positive; otherwise clamped to at most 20. */
  function BatchLimit(maxProducts: Json): (r: Option<nat>)
    ensures r.Some? ==> 1 <= r.value <= 20
    ensures r.None? <==> ToNumber(maxProducts).Fin? && ToNumber(maxProducts).n <= 0
    ensures !ToNumber(maxProducts).Fin? ==> r == Some(3)
    ensures ToNumber(maxProducts).Fin? && 0 < ToNumber(maxProducts).n <= 20 ==> r == Some(ToNumber(maxProducts).n)
    ensures ToNumber(maxProducts).Fin? && ToNumber(maxProducts).n > 20 ==> r == Some(20)
  {
    var n := ToNumber(maxProducts);
    var limit := if n.Fin? then n.n else 3;
    if limit <= 0 then None
    else if limit > 20 then Some(20)
    else Some(limit)
  }

  /** The items of a batch: the i-th product is dressed with the i-th effects, against
      the catalog, with no explicit base model. */
  function Items(settings: AiSettings, token: Option<string>, products: map<string, ProductDetail>,
                 reg: Registry, fx: nat -> TryonEffects, now: nat): ItemOutcome
  {
    (rows: seq<AiPhoto>, i: nat, id: string) => DressOutcome(rows, settings, token, id, FetchProduct(products, id), None, reg, fx(i), now)
  }

  /** A product missing from the catalog gets a failed entry; without a token every product
      fails with the token message and the table is left as it was. */
  lemma RunFailures(rows: seq<AiPhoto>, nextId: nat, settings: AiSettings, token: Option<string>, ids: seq<string>,
                    products: map<string, ProductDetail>, reg: Registry, fx: nat -> TryonEffects, now: nat)
    ensures var b := RunBatch(rows, nextId, ids, Items(settings, token, products, reg, fx, now), now);
            forall j :: 0 <= j < |ids| && ids[j] !in products ==> b.results[j].outcome.Failure?
    ensures var b := RunBatch(rows, nextId, ids, Items(settings, token, products, reg, fx, now), now);
            OrEmpty(token) == "" ==>
              b.rows == rows && forall j :: 0 <= j < |ids| ==> b.results[j].outcome == Failure(TokenRequired)
  {
    var items := Items(settings, token, products, reg, fx, now);
    RunBatchEntries(rows, nextId, ids, items, now);
    forall rs, j | 0 <= j < |ids|
      ensures ids[j] !in products ==> items(rs, j, ids[j]).Failure?
      ensures OrEmpty(token) == "" ==> items(rs, j, ids[j]) == Failure(TokenRequired)
    {
      assert items(rs, j, ids[j]) == DressOutcome(rs, settings, token, ids[j], FetchProduct(products, ids[j]), None, reg, fx(j), now);
    }
    if OrEmpty(token) == "" {
      RunBatchAllFail(rows, nextId, ids, items, now);
    }
  }

  /** The reply of `POST`: the batch results, or a 500 with the error that escaped. */
  method Post(table: AiPhotoTable, settings: AiSettings, body: RefreshBody, baseGeneration: Result<()>,
              catalog: seq<string>, productsAny: nat -> seq<string>, token: Option<string>,
              products: map<string, ProductDetail>, reg: Registry, fx: nat -> TryonEffects, now: nat)
    returns (reply: Reply<seq<ItemResult>>, selected: seq<string>)
    requires table.Valid()
    modifies table
    ensures table.Valid()
    ensures AssertAiEnabled(settings, body.adminToken).Failure? ==>
              reply == Fail(500, AssertAiEnabled(settings, body.adminToken).message) && table.rows == old(table.rows)
    ensures (AssertAiEnabled(settings, body.adminToken).Success? && BaseModelCount(body.generateBaseModels).Some?
             && baseGeneration.Failure?) ==> reply == Fail(500, baseGeneration.message)
    ensures (AssertAiEnabled(settings, body.adminToken).Success?
             && (BaseModelCount(body.generateBaseModels).None? || baseGeneration.Success?)
             && BatchLimit(body.maxProducts).None?) ==> reply == Ok([]) && selected == []
    ensures reply.Ok? && BatchLimit(body.maxProducts).Some? ==>
              selected == if Truthy(body.force) then productsAny(BatchLimit(body.maxProducts).value)
                          else ProductsMissingAi(catalog, old(table.rows), BatchLimit(body.maxProducts).value)
    ensures reply.Ok? ==> |reply.body| == |selected|
                          && forall j :: 0 <= j < |selected| ==> reply.body[j].productId == selected[j]
    ensures reply.Ok? ==> forall j :: 0 <= j < |selected| && selected[j] !in products ==> reply.body[j].outcome.Failure?
    ensures reply.Ok? && OrEmpty(token) == "" ==>
              table.rows == old(table.rows)
              && forall j :: 0 <= j < |selected| ==> reply.body[j].outcome == Failure(TokenRequired)
    ensures (AssertAiEnabled(settings, body.adminToken).Success?
             && (BaseModelCount(body.generateBaseModels).None? || baseGeneration.Success?)) ==> reply.Ok?
    ensures reply.Ok? ==> Batch(reply.body, table.rows, table.nextId)
                            == RunBatch(old(table.rows), old(table.nextId), selected, Items(settings, token, products, reg, fx, now), now)
  {
    selected := [];
    var gate := AssertAiEnabled(settings, body.adminToken);
    if gate.Failure? {
      return Fail(500, gate.message), [];
    }
    if BaseModelCount(body.generateBaseModels).Some? && baseGeneration.Failure? {
      return Fail(500, baseGeneration.message), [];
    }
    var limit := BatchLimit(body.maxProducts);
    if limit.None? {
      return Ok([]), [];
    }
    selected := if Truthy(body.force) then productsAny(limit.value) else ProductsMissingAi(catalog, table.rows, limit.value);
    RunFailures(table.rows, table.nextId, settings, token, selected, products, reg, fx, now);
    var results := DressEach(table, settings, token, selected, products, reg, fx, now);
    reply := Ok(results);
  }

  /** The batch loop: each product is dressed in turn against the current table, and a
      failure becomes that product's entry without stopping the loop. */
  method DressEach(table: AiPhotoTable, settings: AiSettings, token: Option<string>, ids: seq<string>,
                   products: map<string, ProductDetail>, reg: Registry, fx: nat -> TryonEffects, now: nat)
    returns (results: seq<ItemResult>)
    requires table.Valid()
    modifies table
    ensures table.Valid()
    ensures Batch(results, table.rows, table.nextId)
              == RunBatch(old(table.rows), old(table.nextId), ids, Items(settings, token, products, reg, fx, now), now)
  {
    results := [];
    var i := 0;
    while i < |ids|
      invariant 0 <= i <= |ids| && table.Valid()
      invariant Batch(results, table.rows, table.nextId)
                  == RunBatch(old(table.rows), old(table.nextId), ids[..i], Items(settings, token, products, reg, fx, now), now)
    {
      ghost var before := Batch(results, table.rows, table.nextId);
      var item := DressItem(table, settings, token, ids[i], products, reg, fx(i), now);
      assert item.outcome == Items(settings, token, products, reg, fx, now)(before.rows, i, ids[i]);
      RunBatchStep(old(table.rows), old(table.nextId), ids, i, Items(settings, token, products, reg, fx, now), now);
      assert Batch(results + [item], table.rows, table.nextId) == Record(before, ids[i], item.outcome, now);
      results := results + [item];
      i := i + 1;
    }
    assert ids[..i] == ids;
  }

  /** One iteration: the product's URL, or the message of the error it threw. */
  method DressItem(table: AiPhotoTable, settings: AiSettings, token: Option<string>, id: string,
                   products: map<string, ProductDetail>, reg: Registry, fx: TryonEffects, now: nat)
    returns (item: ItemResult)
    requires table.Valid()
    modifies table
    ensures table.Valid() && item.productId == id
    ensures id !in products ==> item.outcome.Failure? && table.rows == old(table.rows)
    ensures OrEmpty(token) == "" ==> item.outcome == Failure(TokenRequired) && table.rows == old(table.rows)
    ensures item.outcome.Success? ==> table.rows == UpsertRows(old(table.rows), id, item.outcome.value, old(table.nextId), now)
    ensures item.outcome.Failure? ==> table.rows == old(table.rows)
    ensures table.nextId == if item.outcome.Success? then old(table.nextId) + 1 else old(table.nextId)
    ensures item.outcome == DressOutcome(old(table.rows), settings, token, id, FetchProduct(products, id), None, reg, fx, now)
  {
    var r, _ := DressProductWithViton(table, settings, token, id, FetchProduct(products, id), None, reg, fx, now);
    item := ItemResult(id, r);
  }
}
