/** `POST /api/ai/refresh` (app/api/ai/refresh/route.ts): regenerate catalog photos with
    the text-to-image model for up to 20 products. */
module AiRefreshRoute {
  import opened Common
  import opened Ai

  datatype AiRefreshBody = AiRefreshBody(adminToken: Json, force: Json)

  const BatchSize := 20
  const NotDefinedMessage := "getProductsAny is not " + "defined"

  /** The selection as written: the `force` branch calls `getProductsAny`, which the route
      never imports, so it throws a ReferenceError that the route reports as a 500. */
  function SelectAsWritten(force: Json, catalog: seq<string>, rows: seq<AiPhoto>): (r: Result<seq<string>>)
    ensures Truthy(force) <==> r == Failure(NotDefinedMessage)
    ensures r.Success? ==> |r.value| <= BatchSize
  {
    if Truthy(force) then Failure(NotDefinedMessage)
    else Success(ProductsMissingAi(catalog, rows, BatchSize))
  }

  /** The intended selection: any products when forced, else those missing AI photos. */
  function Select(force: Json, catalog: seq<string>, rows: seq<AiPhoto>, productsAny: nat -> seq<string>): (r: seq<string>)
    ensures Truthy(force) ==> r == productsAny(BatchSize)
    ensures !Truthy(force) ==> |r| <= BatchSize && forall x :: x in r ==> x in catalog && !HasAiRow(rows, x)
  {
    if Truthy(force) then productsAny(BatchSize) else ProductsMissingAi(catalog, rows, BatchSize)
  }

  /** With the intended selection a forced refresh proceeds to its batch; as written it
      never reaches a single product. */
  lemma ForcedRefreshDiffers(catalog: seq<string>, rows: seq<AiPhoto>, productsAny: nat -> seq<string>)
    ensures SelectAsWritten(JBool(true), catalog, rows).Failure?
    ensures Select(JBool(true), catalog, rows, productsAny) == productsAny(BatchSize)
    ensures forall force :: !Truthy(force) ==>
              SelectAsWritten(force, catalog, rows) == Success(Select(force, catalog, rows, productsAny))
  {
  }

  /** What one iteration answers for `id` when the table holds `rows`: the cap's error, else
      the generated URL or the generation's error text. */
  function Outcome(rows: seq<AiPhoto>, cap: JsNum, apiKey: Option<string>, id: string,
                   products: map<string, ProductDetail>, resp: ImageResponse, now: nat): (r: Result<string>)
    ensures CheckDailyCap(cap, rows, now).Failure? ==> r == Failure(ErrorText(CheckDailyCap(cap, rows, now).message))
    ensures OrEmpty(apiKey) == "" ==> r.Failure?
    ensures r.Success? ==> r == GenerateAiOutfitImage(apiKey, FetchProduct(products, id), resp).result
  {
    var gate := CheckDailyCap(cap, rows, now);
    if gate.Failure? then Failure(ErrorText(gate.message))
    else
      var g := GenerateAiOutfitImage(apiKey, FetchProduct(products, id), resp).result;
      if g.Success? then g else Failure(ErrorText(g.message))
  }

  /** The items of a batch: the i-th gets the i-th response. */
  function Items(cap: JsNum, apiKey: Option<string>, products: map<string, ProductDetail>,
                 responses: nat -> ImageResponse, now: nat): ItemOutcome
  {
    (rows: seq<AiPhoto>, i: nat, id: string) => Outcome(rows, cap, apiKey, id, products, responses(i), now)
  }

  /** Without an API key every item of a batch fails and the table is left as it was. */
  lemma RunWithoutKey(rows: seq<AiPhoto>, nextId: nat, cap: JsNum, apiKey: Option<string>, ids: seq<string>,
                      products: map<string, ProductDetail>, responses: nat -> ImageResponse, now: nat)
    requires OrEmpty(apiKey) == ""
    ensures var b := RunBatch(rows, nextId, ids, Items(cap, apiKey, products, responses, now), now);
            b.rows == rows && forall j :: 0 <= j < |ids| ==> b.results[j].outcome.Failure?
  {
    var items := Items(cap, apiKey, products, responses, now);
    forall rs, i | 0 <= i < |ids|
      ensures items(rs, i, ids[i]).Failure?
    {
      assert items(rs, i, ids[i]) == Outcome(rs, cap, apiKey, ids[i], products, responses(i), now);
    }
    RunBatchEntries(rows, nextId, ids, items, now);
    RunBatchAllFail(rows, nextId, ids, items, now);
  }

  /** One iteration: cap check, generation, upsert; any failure becomes the entry. */
  method Item(table: AiPhotoTable, cap: JsNum, apiKey: Option<string>, id: string,
              products: map<string, ProductDetail>, resp: ImageResponse, now: nat)
    returns (item: ItemResult)
    requires table.Valid()
    modifies table
    ensures table.Valid() && item.productId == id
    ensures CheckDailyCap(cap, old(table.rows), now).Failure? ==>
              item.outcome == Failure(ErrorText(CheckDailyCap(cap, old(table.rows), now).message))
    ensures CheckDailyCap(cap, old(table.rows), now).Success? ==>
              (var g := GenerateAiOutfitImage(apiKey, FetchProduct(products, id), resp).result;
               item.outcome == if g.Success? then g else Failure(ErrorText(g.message)))
    ensures item.outcome.Failure? ==> table.rows == old(table.rows)
    ensures OrEmpty(apiKey) == "" ==> item.outcome.Failure?
    ensures item.outcome.Success? ==> table.rows == UpsertRows(old(table.rows), id, item.outcome.value, old(table.nextId), now)
    ensures item.outcome == Outcome(old(table.rows), cap, apiKey, id, products, resp, now)
    ensures table.nextId == if item.outcome.Success? then old(table.nextId) + 1 else old(table.nextId)
  {
    var gate := CheckDailyCap(cap, table.rows, now);
    if gate.Failure? {
      return ItemResult(id, Failure(ErrorText(gate.message)));
    }
    var g := GenerateAiOutfitImage(apiKey, FetchProduct(products, id), resp).result;
    if g.Failure? {
      return ItemResult(id, Failure(ErrorText(g.message)));
    }
    table.Upsert(id, g.value, now);
    item := ItemResult(id, g);
  }

  /** The loop over the selected products, one `Item` each, in order. */
  method RefreshBatch(table: AiPhotoTable, cap: JsNum, apiKey: Option<string>, selected: seq<string>,
                      products: map<string, ProductDetail>, responses: nat -> ImageResponse, now: nat)
    returns (results: seq<ItemResult>)
    requires table.Valid()
    modifies table
    ensures table.Valid()
    ensures Batch(results, table.rows, table.nextId)
              == RunBatch(old(table.rows), old(table.nextId), selected, Items(cap, apiKey, products, responses, now), now)
  {
    results := [];
    var i := 0;
    while i < |selected|
      invariant 0 <= i <= |selected| && table.Valid()
      invariant Batch(results, table.rows, table.nextId)
                  == RunBatch(old(table.rows), old(table.nextId), selected[..i], Items(cap, apiKey, products, responses, now), now)
    {
      ghost var before := Batch(results, table.rows, table.nextId);
      var item := Item(table, cap, apiKey, selected[i], products, responses(i), now);
      assert item.outcome == Items(cap, apiKey, products, responses, now)(before.rows, i, selected[i]);
      RunBatchStep(old(table.rows), old(table.nextId), selected, i, Items(cap, apiKey, products, responses, now), now);
      assert Batch(results + [item], table.rows, table.nextId) == Record(before, selected[i], item.outcome, now);
      results := results + [item];
      i := i + 1;
    }
    assert selected[..i] == selected;
  }

  /** `POST` with the intended selection; `responses(i)` is the image model's answer for the
      i-th product. */
  method Post(table: AiPhotoTable, settings: AiSettings, body: AiRefreshBody, apiKey: Option<string>,
              catalog: seq<string>, productsAny: nat -> seq<string>, products: map<string, ProductDetail>,
              responses: nat -> ImageResponse, now: nat)
    returns (reply: Reply<seq<ItemResult>>, selected: seq<string>)
    requires table.Valid()
    modifies table
    ensures table.Valid()
    ensures AssertAiEnabled(settings, body.adminToken).Failure? ==>
              reply == Fail(500, AssertAiEnabled(settings, body.adminToken).message) && table.rows == old(table.rows)
    ensures AssertAiEnabled(settings, body.adminToken).Success? ==>
              reply.Ok? && selected == Select(body.force, catalog, old(table.rows), productsAny)
    ensures reply.Ok? ==> |reply.body| == |selected| && forall j :: 0 <= j < |selected| ==> reply.body[j].productId == selected[j]
    ensures reply.Ok? && OrEmpty(apiKey) == "" ==>
              table.rows == old(table.rows) && forall j :: 0 <= j < |selected| ==> reply.body[j].outcome.Failure?
    ensures reply.Ok? ==> Batch(reply.body, table.rows, table.nextId)
                            == RunBatch(old(table.rows), old(table.nextId), selected,
                                        Items(DailyCap(settings), apiKey, products, responses, now), now)
  {
    selected := [];
    var gate := AssertAiEnabled(settings, body.adminToken);
    if gate.Failure? {
      return Fail(500, gate.message), [];
    }
    selected := Select(body.force, catalog, table.rows, productsAny);
    if OrEmpty(apiKey) == "" {
      RunWithoutKey(table.rows, table.nextId, DailyCap(settings), apiKey, selected, products, responses, now);
    }
    var results := RefreshBatch(table, DailyCap(settings), apiKey, selected, products, responses, now);
    reply := Ok(results);
  }
}
