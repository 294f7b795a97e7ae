/** `POST /api/ai/stability/refresh` (app/api/ai/stability/refresh/route.ts): dress a batch
    of products onto the newest base model by inpainting, checking the daily cap before
    each product. */
module StabilityRefreshRoute {
  import opened Common
  import opened Ai

  datatype StabilityBody = StabilityBody(adminToken: Json, force: Json, maxProducts: Json)

  // Long message texts are written as short literals joined with `+`: the verifier reasons
  // about a string literal one character at a time, and short pieces keep that cheap. The
  // joined text is the source's message, character for character.
  const NoBaseMessage := "No base model images " + "found. Generate base " + "models first via " + "/api/ai/base-model."

  /** `Math.max(1, Math.min(Number(maxProducts) || 3, 20))`: 0 and NaN give 3, anything
      below 1 gives 1, anything above 20 gives 20. */
  function BatchLimit(maxProducts: Json): (r: nat)
    ensures 1 <= r <= 20
    ensures !NumTruthy(ToNumber(maxProducts)) ==> r == 3
    ensures ToNumber(maxProducts).NegInf? || (ToNumber(maxProducts).Fin? && ToNumber(maxProducts).n < 0) ==> r == 1
    ensures ToNumber(maxProducts).Fin? && 1 <= ToNumber(maxProducts).n <= 20 ==> r == ToNumber(maxProducts).n
    ensures ToNumber(maxProducts).PosInf? || (ToNumber(maxProducts).Fin? && ToNumber(maxProducts).n > 20) ==> r == 20
  {
    var n := ToNumber(maxProducts);
    var x := if NumTruthy(n) then n else Fin(3);
    if x.Fin? then (if x.n > 20 then 20 else if x.n < 1 then 1 else x.n)
    else if x.NegInf? then 1
    else 20
  }

  /** The inpainting provider: what the call for the i-th item answers, given the
      product and the base image. */
  type Inpaint = (nat, ProductDetail, string) -> Result<string>

  /** What one iteration answers for `id` when the table holds `rows`: the cap's error, a
      404-style "Product not found", or the inpainted URL or its error text. */
  function Outcome(rows: seq<AiPhoto>, cap: JsNum, id: string, index: nat, products: map<string, ProductDetail>,
                   base: string, generate: Inpaint, now: nat): (r: Result<string>)
    ensures CheckDailyCap(cap, rows, now).Failure? ==> r == Failure(ErrorText(CheckDailyCap(cap, rows, now).message))
    ensures CheckDailyCap(cap, rows, now).Success? && id !in products ==> r == Failure("Product not found")
    ensures (CheckDailyCap(cap, rows, now).Success? && id in products && generate(index, products[id], base).Success?)
              ==> r == generate(index, products[id], base)
    ensures r.Success? ==> id in products && r == generate(index, products[id], base)
  {
    var gate := CheckDailyCap(cap, rows, now);
    if gate.Failure? then Failure(ErrorText(gate.message))
    else if id !in products then Failure("Product not found")
    else
      var url := generate(index, products[id], base);
      if url.Success? then url else Failure(ErrorText(url.message))
  }

  /** The items of a batch: the i-th is inpainted with index i onto `base`. */
  function Items(cap: JsNum, products: map<string, ProductDetail>, base: string, generate: Inpaint, now: nat): ItemOutcome
  {
    (rows: seq<AiPhoto>, i: nat, id: string) => Outcome(rows, cap, id, i, products, base, generate, now)
  }

  /** Every successful entry of a batch is a known product's inpainting, made with the
      entry's own index. */
  lemma RunSucceeded(rows: seq<AiPhoto>, nextId: nat, cap: JsNum, ids: seq<string>, products: map<string, ProductDetail>,
                     base: string, generate: Inpaint, now: nat)
    ensures var b := RunBatch(rows, nextId, ids, Items(cap, products, base, generate, now), now);
            forall j :: 0 <= j < |ids| && b.results[j].outcome.Success? ==>
              ids[j] in products && b.results[j].outcome == generate(j, products[ids[j]], base)
  {
    var items := Items(cap, products, base, generate, now);
    RunBatchEntries(rows, nextId, ids, items, now);
    forall rs, j | 0 <= j < |ids| && items(rs, j, ids[j]).Success?
      ensures ids[j] in products && items(rs, j, ids[j]) == generate(j, products[ids[j]], base)
    {
      assert items(rs, j, ids[j]) == Outcome(rs, cap, ids[j], j, products, base, generate, now);
    }
  }

  /** One iteration: cap check, product lookup, generation, then the upsert. */
  method Item(table: AiPhotoTable, cap: JsNum, id: string, index: nat, products: map<string, ProductDetail>,
              base: string, generate: Inpaint, now: nat)
    returns (item: ItemResult)
    requires table.Valid()
    modifies table
    ensures table.Valid() && item.productId == id
    ensures CheckDailyCap(cap, old(table.rows), now).Failure? ==>
              item.outcome == Failure(ErrorText(CheckDailyCap(cap, old(table.rows), now).message))
    ensures CheckDailyCap(cap, old(table.rows), now).Success? && id !in products ==>
              item.outcome == Failure("Product not found")
    ensures item.outcome.Success? ==> id in products && item.outcome == generate(index, products[id], base)
    ensures item.outcome.Failure? ==> table.rows == old(table.rows)
    ensures item.outcome.Success? ==> table.rows == UpsertRows(old(table.rows), id, item.outcome.value, old(table.nextId), now)
    ensures table.nextId == if item.outcome.Success? then old(table.nextId) + 1 else old(table.nextId)
    ensures (CheckDailyCap(cap, old(table.rows), now).Success? && id in products)
              ==> (var g := generate(index, products[id], base);
                   item.outcome == if g.Success? then g else Failure(ErrorText(g.message)))
    ensures item.outcome == Outcome(old(table.rows), cap, id, index, products, base, generate, now)
  {
    var gate := CheckDailyCap(cap, table.rows, now);
    if gate.Failure? {
      return ItemResult(id, Failure(ErrorText(gate.message)));
    }
    if id !in products {
      return ItemResult(id, Failure("Product not found"));
    }
    var url := generate(index, products[id], base);
    if url.Failure? {
      return ItemResult(id, Failure(ErrorText(url.message)));
    }
    table.Upsert(id, url.value, now);
    item := ItemResult(id, url);
  }

  /** The batch loop: one entry per id, in order; a failing item does not stop the rest. */
  method Each(table: AiPhotoTable, cap: JsNum, ids: seq<string>, products: map<string, ProductDetail>,
              base: string, generate: Inpaint, now: nat)
    returns (results: seq<ItemResult>)
    requires table.Valid()
    modifies table
    ensures table.Valid()
    ensures Batch(results, table.rows, table.nextId)
              == RunBatch(old(table.rows), old(table.nextId), ids, Items(cap, products, base, generate, now), now)
  {
    results := [];
    var i := 0;
    while i < |ids|
      invariant 0 <= i <= |ids| && table.Valid()
      invariant Batch(results, table.rows, table.nextId)
                  == RunBatch(old(table.rows), old(table.nextId), ids[..i], Items(cap, products, base, generate, now), now)
    {
      ghost var before := Batch(results, table.rows, table.nextId);
      var item := Item(table, cap, ids[i], i, products, base, generate, now);
      assert item.outcome == Items(cap, products, base, generate, now)(before.rows, i, ids[i]);
      RunBatchStep(old(table.rows), old(table.nextId), ids, i, Items(cap, products, base, generate, now), now);
      assert Batch(results + [item], table.rows, table.nextId) == Record(before, ids[i], item.outcome, now);
      results := results + [item];
      i := i + 1;
    }
    assert ids[..i] == ids;
  }

  /** `POST`: the gate, then the newest base model (400 when there is none), then the batch. */
  method Post(table: AiPhotoTable, settings: AiSettings, body: StabilityBody, catalog: seq<string>,
              productsAny: nat -> seq<string>, products: map<string, ProductDetail>, generate: Inpaint, now: nat)
    returns (reply: Reply<seq<ItemResult>>, selected: seq<string>)
    requires table.Valid()
    modifies table
    ensures table.Valid()
    ensures AssertAiEnabled(settings, body.adminToken).Failure? ==>
              reply == Fail(500, AssertAiEnabled(settings, body.adminToken).message) && table.rows == old(table.rows)
    ensures (AssertAiEnabled(settings, body.adminToken).Success? && OrEmpty(NewestBaseModel(old(table.rows))) == "")
              ==> reply == Fail(400, NoBaseMessage) && table.rows == old(table.rows)
    ensures reply.Ok? ==> OrEmpty(NewestBaseModel(old(table.rows))) != ""
    ensures reply.Ok? ==> selected == if Truthy(body.force) then productsAny(BatchLimit(body.maxProducts))
                                      else ProductsMissingAi(catalog, old(table.rows), BatchLimit(body.maxProducts))
    ensures reply.Ok? ==> |reply.body| == |selected| && forall j :: 0 <= j < |selected| ==> reply.body[j].productId == selected[j]
    ensures reply.Ok? ==> forall j :: 0 <= j < |selected| && reply.body[j].outcome.Success? ==>
              selected[j] in products && reply.body[j].outcome == generate(j, products[selected[j]], NewestBaseModel(old(table.rows)).value)
    ensures AssertAiEnabled(settings, body.adminToken).Success? && OrEmpty(NewestBaseModel(old(table.rows))) != "" ==> reply.Ok?
    ensures reply.Ok? ==> Batch(reply.body, table.rows, table.nextId)
                            == RunBatch(old(table.rows), old(table.nextId), selected,
                                        Items(DailyCap(settings), products, NewestBaseModel(old(table.rows)).value, generate, now), now)
  {
    selected := [];
    var gate := AssertAiEnabled(settings, body.adminToken);
    if gate.Failure? {
      return Fail(500, gate.message), [];
    }
    var base := NewestBaseModel(table.rows);
    if OrEmpty(base) == "" {
      return Fail(400, NoBaseMessage), [];
    }
    var limit := BatchLimit(body.maxProducts);
    selected := if Truthy(body.force) then productsAny(limit) else ProductsMissingAi(catalog, table.rows, limit);
    RunSucceeded(table.rows, table.nextId, DailyCap(settings), selected, products, base.value, generate, now);
    var results := Each(table, DailyCap(settings), selected, products, base.value, generate, now);
    reply := Ok(results);
  }
}
