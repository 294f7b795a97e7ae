/** Usage governance and the AI-photo catalog (app/lib/ai.ts): the enable flag and
    admin-token gate, the daily cap, the text-to-image prompt and response handling,
    and the `ai_generated_photos` table with its replace-latest upsert. */
module Ai {
  import opened Common

  /** The product record returned by `fetchProductById`; a null `photos` array is the empty list. */
  datatype ProductDetail = ProductDetail(
    productId: string,
    name: string,
    categoryName: Option<string>,
    subcategoryName: Option<string>,
    brandName: Option<string>,
    colour: Option<string>,
    size: Option<string>,
    fit: Option<string>,
    material: Option<string>,
    description: Option<string>,
    photos: seq<string>)

  /** A row of `ai_generated_photos`. `photoId` is the primary key; `created` is in
      milliseconds since the epoch. Base-model images have no product and the tag
      'base-model'; catalog photos have no customer. */
  datatype AiPhoto = AiPhoto(
    photoId: nat,
    customerId: Option<string>,
    productId: Option<string>,
    imageUrl: string,
    model: Option<string>,
    created: int)

  /** The environment variables read at start-up. */
  datatype AiSettings = AiSettings(
    enabledVar: Option<string>,   // AI_IMAGES_ENABLED
    dailyCapVar: Option<string>,  // AI_IMAGES_DAILY_CAP
    adminTokenVar: Option<string>) // AI_IMAGES_ADMIN_TOKEN

  const DisabledMessage := "AI image generation " + "disabled (set " + "AI_IMAGES_ENABLED=true)"
  const BadTokenMessage := "Unauthorized: invalid " + "admin token"
  const CatalogTag := "gpt-image-1"
  const BaseModelTag := "base-model"
  const MsPerDay := 86400000

  predicate Enabled(s: AiSettings)
  {
    s.enabledVar == Some("true")
  }

  /** The default cap's text is the decimal rendering of 20. */
  lemma NatToStringTwenty()
    ensures NatToString(20) == "20"
  {
    assert NatToString(2) == "2";
  }

  /** `Number(process.env.AI_IMAGES_DAILY_CAP || '20')`. */
  function DailyCap(s: AiSettings): (r: JsNum)
    ensures OrEmpty(s.dailyCapVar) == "" ==> r == Fin(20)
    ensures OrEmpty(s.dailyCapVar) != "" ==> r == ParseNumber(s.dailyCapVar.value)
  {
    if OrEmpty(s.dailyCapVar) == "" then
      ParseNumberOfNatToString(20);
      NatToStringTwenty();
      ParseNumber("20")
    else ParseNumber(s.dailyCapVar.value)
  }

  /** `assertAiEnabled(adminToken)`: the feature flag first, then the admin token
      when one is configured. */
  function AssertAiEnabled(s: AiSettings, adminToken: Json): (r: Result<()>)
    ensures !Enabled(s) ==> r == Failure(DisabledMessage)
    ensures Enabled(s) && OrEmpty(s.adminTokenVar) == "" ==> r.Success?
    ensures Enabled(s) && OrEmpty(s.adminTokenVar) != "" ==>
              (r.Success? <==> adminToken == JStr(s.adminTokenVar.value))
    ensures r.Failure? ==> r.message in {DisabledMessage, BadTokenMessage}
  {
    if !Enabled(s) then Failure(DisabledMessage)
    else if OrEmpty(s.adminTokenVar) != "" && adminToken != JStr(s.adminTokenVar.value) then Failure(BadTokenMessage)
    else Success(())
  }

  // ---------------------------------------------------------------------------
  // Daily cap

  /** The UTC calendar day of a timestamp: the date part of its ISO string. */
  function Day(t: int): int
  {
    t / MsPerDay
  }

  /** `SELECT COUNT(*) ... WHERE created_at::date = today`. */
  function CountOnDay(rows: seq<AiPhoto>, day: int): nat
  {
    if rows == [] then 0
    else (if Day(rows[0].created) == day then 1 else 0) + CountOnDay(rows[1..], day)
  }

  /** The cap is enforced only for a positive finite value; 0, negative and NaN disable it. */
  predicate CapActive(cap: JsNum)
  {
    NumTruthy(cap) && !cap.NegInf? && !(cap.Fin? && cap.n <= 0)
  }

  /** `checkDailyCap()` at time `now`. */
  function CheckDailyCap(cap: JsNum, rows: seq<AiPhoto>, now: int): (r: Result<()>)
    ensures !CapActive(cap) ==> r.Success?
    ensures cap.PosInf? ==> r.Success?
    ensures cap.Fin? && cap.n > 0 ==> (r.Failure? <==> CountOnDay(rows, Day(now)) >= cap.n)
  {
    if !CapActive(cap) then Success(())
    else if cap.Fin? && CountOnDay(rows, Day(now)) >= cap.n then
      Failure("Daily AI generation " + "cap reached (" + NatToString(cap.n) + ")")
    else Success(())
  }

  // ---------------------------------------------------------------------------
  // Filters over the table

  /** The rows whose product is `pid`, in table order. */
  function RowsFor(rows: seq<AiPhoto>, pid: Option<string>): (r: seq<AiPhoto>)
    ensures forall x :: x in r <==> x in rows && x.productId == pid
  {
    if rows == [] then []
    else (if rows[0].productId == pid then [rows[0]] else []) + RowsFor(rows[1..], pid)
  }

  /** `DELETE FROM ai_generated_photos WHERE product_id = p`. */
  function WithoutProduct(rows: seq<AiPhoto>, p: string): (r: seq<AiPhoto>)
    ensures forall x :: x in r <==> x in rows && x.productId != Some(p)
    ensures |r| <= |rows|
  {
    if rows == [] then []
    else (if rows[0].productId != Some(p) then [rows[0]] else []) + WithoutProduct(rows[1..], p)
  }

  /** `DELETE ... WHERE photo_id = id AND customer_id = c`. */
  function WithoutOwned(rows: seq<AiPhoto>, id: nat, c: string): (r: seq<AiPhoto>)
    ensures forall x :: x in r <==> x in rows && !(x.photoId == id && x.customerId == Some(c))
    ensures |r| <= |rows|
  {
    if rows == [] then []
    else (if !(rows[0].photoId == id && rows[0].customerId == Some(c)) then [rows[0]] else [])
         + WithoutOwned(rows[1..], id, c)
  }

  predicate HasAiRow(rows: seq<AiPhoto>, p: string)
  {
    exists i :: 0 <= i < |rows| && rows[i].productId == Some(p)
  }

  /** Photo ids strictly increase along the table and stay below the next id to hand out;
      in particular `photo_id` is a key. */
  predicate IdsIncreasingBelow(rows: seq<AiPhoto>, bound: nat)
  {
    rows == [] ||
    (&& rows[0].photoId < bound
     && (forall x :: x in rows[1..] ==> rows[0].photoId < x.photoId)
     && IdsIncreasingBelow(rows[1..], bound))
  }

  lemma {:induction false} IdsBelowBound(rows: seq<AiPhoto>, bound: nat, x: AiPhoto)
    requires IdsIncreasingBelow(rows, bound) && x in rows
    ensures x.photoId < bound
  {
    if rows[0] != x {
      IdsBelowBound(rows[1..], bound, x);
    }
  }

  /** Appending a row whose id is at least the bound keeps ids increasing. */
  lemma {:induction false} IdsAppend(rows: seq<AiPhoto>, bound: nat, row: AiPhoto)
    requires IdsIncreasingBelow(rows, bound) && bound <= row.photoId
    ensures IdsIncreasingBelow(rows + [row], row.photoId + 1)
  {
    if rows == [] {
      assert [row][1..] == [];
    } else {
      assert (rows + [row])[1..] == rows[1..] + [row];
      IdsAppend(rows[1..], bound, row);
      IdsBelowBound(rows, bound, rows[0]);
    }
  }

  lemma {:induction false} RowsForAppend(a: seq<AiPhoto>, b: seq<AiPhoto>, pid: Option<string>)
    ensures RowsFor(a + b, pid) == RowsFor(a, pid) + RowsFor(b, pid)
  {
    if a == [] {
      assert a + b == b;
    } else {
      assert (a + b)[1..] == a[1..] + b;
      RowsForAppend(a[1..], b, pid);
    }
  }

  /** Deleting one product's rows leaves every other product's rows as they were. */
  lemma {:induction false} WithoutProductRowsFor(rows: seq<AiPhoto>, p: string, q: Option<string>)
    ensures RowsFor(WithoutProduct(rows, p), q) == if q == Some(p) then [] else RowsFor(rows, q)
  {
    if rows != [] {
      var head := if rows[0].productId != Some(p) then [rows[0]] else [];
      assert WithoutProduct(rows, p) == head + WithoutProduct(rows[1..], p);
      RowsForAppend(head, WithoutProduct(rows[1..], p), q);
      WithoutProductRowsFor(rows[1..], p, q);
    }
  }

  lemma {:induction false} WithoutProductKeepsIds(rows: seq<AiPhoto>, p: string, bound: nat)
    requires IdsIncreasingBelow(rows, bound)
    ensures IdsIncreasingBelow(WithoutProduct(rows, p), bound)
  {
    if rows != [] {
      WithoutProductKeepsIds(rows[1..], p, bound);
      var tail := WithoutProduct(rows[1..], p);
      if rows[0].productId != Some(p) {
        assert WithoutProduct(rows, p) == [rows[0]] + tail;
        assert ([rows[0]] + tail)[1..] == tail;
        assert forall x :: x in tail ==> rows[0].photoId < x.photoId by {
          forall x | x in tail ensures rows[0].photoId < x.photoId {
            assert x in rows[1..];
          }
        }
        assert IdsIncreasingBelow([rows[0]] + tail, bound);
      } else {
        assert WithoutProduct(rows, p) == tail;
      }
    }
  }

  lemma {:induction false} WithoutOwnedKeepsIds(rows: seq<AiPhoto>, id: nat, c: string, bound: nat)
    requires IdsIncreasingBelow(rows, bound)
    ensures IdsIncreasingBelow(WithoutOwned(rows, id, c), bound)
  {
    if rows != [] {
      WithoutOwnedKeepsIds(rows[1..], id, c, bound);
      var tail := WithoutOwned(rows[1..], id, c);
      if !(rows[0].photoId == id && rows[0].customerId == Some(c)) {
        assert WithoutOwned(rows, id, c) == [rows[0]] + tail;
        assert ([rows[0]] + tail)[1..] == tail;
        assert forall x :: x in tail ==> rows[0].photoId < x.photoId by {
          forall x | x in tail ensures rows[0].photoId < x.photoId {
            assert x in rows[1..];
          }
        }
        assert IdsIncreasingBelow([rows[0]] + tail, bound);
      } else {
        assert WithoutOwned(rows, id, c) == tail;
      }
    }
  }

  /** Some row has this photo id and belongs to this customer. */
  predicate Owns(rows: seq<AiPhoto>, id: nat, c: string)
  {
    exists x :: x in rows && x.photoId == id && x.customerId == Some(c)
  }

  /** With unique photo ids, the owner-scoped delete removes at most one row; it removes
      one exactly when a row with that id belongs to that customer. */
  lemma {:induction false} WithoutOwnedRemovesAtMostOne(rows: seq<AiPhoto>, id: nat, c: string, bound: nat)
    requires IdsIncreasingBelow(rows, bound)
    ensures |rows| - |WithoutOwned(rows, id, c)| <= 1
    ensures |WithoutOwned(rows, id, c)| == |rows| <==> !Owns(rows, id, c)
  {
    if rows != [] {
      WithoutOwnedRemovesAtMostOne(rows[1..], id, c, bound);
      if rows[0].photoId == id && rows[0].customerId == Some(c) {
        WithoutOwnedIdentity(rows[1..], id, c);
      } else {
        assert Owns(rows, id, c) <==> Owns(rows[1..], id, c) by {
          if Owns(rows, id, c) {
            var x :| x in rows && x.photoId == id && x.customerId == Some(c);
            assert x in rows[1..];
          }
        }
      }
    }
  }

  /** When the customer owns no row with that id, the delete changes nothing. */
  lemma {:induction false} WithoutOwnedNotOwned(rows: seq<AiPhoto>, id: nat, c: string)
    requires !Owns(rows, id, c)
    ensures WithoutOwned(rows, id, c) == rows
  {
    if rows != [] {
      WithoutOwnedNotOwned(rows[1..], id, c);
    }
  }

  /** When no row carries the photo id, the delete changes nothing. */
  lemma {:induction false} WithoutOwnedIdentity(rows: seq<AiPhoto>, id: nat, c: string)
    requires forall x :: x in rows ==> x.photoId != id
    ensures WithoutOwned(rows, id, c) == rows
  {
    if rows != [] {
      WithoutOwnedIdentity(rows[1..], id, c);
    }
  }

  /** Deleting one product's rows never adds to a day's count, and removes at least one
      from it when that product had a row created on that day. */
  lemma {:induction false} WithoutProductCount(rows: seq<AiPhoto>, p: string, day: int)
    ensures CountOnDay(WithoutProduct(rows, p), day) <= CountOnDay(rows, day)
    ensures (exists i :: 0 <= i < |rows| && rows[i].productId == Some(p) && Day(rows[i].created) == day)
            ==> CountOnDay(WithoutProduct(rows, p), day) < CountOnDay(rows, day)
  {
    if rows != [] {
      WithoutProductCount(rows[1..], p, day);
      var head := if rows[0].productId != Some(p) then [rows[0]] else [];
      CountAppend(head, WithoutProduct(rows[1..], p), day);
      if exists i :: 0 <= i < |rows| && rows[i].productId == Some(p) && Day(rows[i].created) == day {
        var i :| 0 <= i < |rows| && rows[i].productId == Some(p) && Day(rows[i].created) == day;
        if i > 0 {
          assert rows[1..][i - 1] == rows[i];
        }
      }
    }
  }

  lemma {:induction false} CountAppend(a: seq<AiPhoto>, b: seq<AiPhoto>, day: int)
    ensures CountOnDay(a + b, day) == CountOnDay(a, day) + CountOnDay(b, day)
  {
    if a == [] {
      assert a + b == b;
    } else {
      assert (a + b)[1..] == a[1..] + b;
      CountAppend(a[1..], b, day);
    }
  }

  // ---------------------------------------------------------------------------
  // Replace-latest upsert

  function CatalogRow(id: nat, p: string, url: string, now: int): AiPhoto
  {
    AiPhoto(id, None, Some(p), url, Some(CatalogTag), now)
  }

  /** The table after `upsertAiPhoto(p, url)`: every row for `p` deleted, then one row inserted. */
  function UpsertRows(rows: seq<AiPhoto>, p: string, url: string, id: nat, now: int): seq<AiPhoto>
  {
    WithoutProduct(rows, p) + [CatalogRow(id, p, url, now)]
  }

  /** After the upsert exactly one row belongs to `p`: the new catalog row with no customer,
      the given image and the 'gpt-image-1' tag. Earlier rows for `p`, customer-owned ones
      included, are gone; rows for every other product (and base models) are untouched. */
  lemma UpsertReplacesLatest(rows: seq<AiPhoto>, p: string, url: string, id: nat, now: int)
    ensures RowsFor(UpsertRows(rows, p, url, id, now), Some(p)) == [CatalogRow(id, p, url, now)]
    ensures forall q :: q != Some(p) ==> RowsFor(UpsertRows(rows, p, url, id, now), q) == RowsFor(rows, q)
  {
    var row := CatalogRow(id, p, url, now);
    RowsForAppend(WithoutProduct(rows, p), [row], Some(p));
    WithoutProductRowsFor(rows, p, Some(p));
    assert RowsFor([row], Some(p)) == [row];
    forall q | q != Some(p)
      ensures RowsFor(UpsertRows(rows, p, url, id, now), q) == RowsFor(rows, q)
    {
      RowsForAppend(WithoutProduct(rows, p), [row], q);
      WithoutProductRowsFor(rows, p, q);
      assert RowsFor([row], q) == [];
    }
  }

  /** Two successive upserts for one product leave a single row, carrying the second image. */
  lemma UpsertTwice(rows: seq<AiPhoto>, p: string, u1: string, u2: string, id: nat, now1: int, now2: int)
    ensures RowsFor(UpsertRows(UpsertRows(rows, p, u1, id, now1), p, u2, id + 1, now2), Some(p))
            == [CatalogRow(id + 1, p, u2, now2)]
  {
    UpsertReplacesLatest(UpsertRows(rows, p, u1, id, now1), p, u2, id + 1, now2);
  }

  /** The daily count grows by at most one per upsert, and does not grow at all when the
      product already had a row created that day: regenerating one product never reaches
      the cap. */
  lemma UpsertDailyCount(rows: seq<AiPhoto>, p: string, url: string, id: nat, now: int)
    ensures CountOnDay(UpsertRows(rows, p, url, id, now), Day(now)) <= CountOnDay(rows, Day(now)) + 1
    ensures (exists i :: 0 <= i < |rows| && rows[i].productId == Some(p) && Day(rows[i].created) == Day(now))
            ==> CountOnDay(UpsertRows(rows, p, url, id, now), Day(now)) <= CountOnDay(rows, Day(now))
  {
    WithoutProductCount(rows, p, Day(now));
    CountAppend(WithoutProduct(rows, p), [CatalogRow(id, p, url, now)], Day(now));
  }

  // ---------------------------------------------------------------------------
  // Lookups

  predicate IsBaseModel(r: AiPhoto)
  {
    r.productId.None? && r.model == Some(BaseModelTag)
  }

  /** The position of the newest base-model row: rows are kept in creation order. */
  function NewestBaseModelIndex(rows: seq<AiPhoto>): (r: Option<nat>)
    ensures r.None? <==> forall i :: 0 <= i < |rows| ==> !IsBaseModel(rows[i])
    ensures r.Some? ==> r.value < |rows| && IsBaseModel(rows[r.value])
    ensures r.Some? ==> forall j :: r.value < j < |rows| ==> !IsBaseModel(rows[j])
  {
    if rows == [] then None
    else if IsBaseModel(rows[|rows| - 1]) then Some(|rows| - 1)
    else NewestBaseModelIndex(rows[..|rows| - 1])
  }

  /** `SELECT image_url ... WHERE product_id IS NULL AND ai_model_version = 'base-model'
      ORDER BY created_at DESC LIMIT 1`. */
  function NewestBaseModel(rows: seq<AiPhoto>): Option<string>
  {
    var i := NewestBaseModelIndex(rows);
    if i.Some? then Some(rows[i.value].imageUrl) else None
  }

  /** `SELECT image_url ... WHERE photo_id = id LIMIT 1`, whatever the row's tag. */
  function PhotoUrlById(rows: seq<AiPhoto>, id: nat): (r: Option<string>)
    ensures r.None? <==> forall i :: 0 <= i < |rows| ==> rows[i].photoId != id
    ensures r.Some? ==> exists i :: 0 <= i < |rows| && rows[i].photoId == id && rows[i].imageUrl == r.value
  {
    if rows == [] then None
    else if rows[0].photoId == id then Some(rows[0].imageUrl)
    else
      var r := PhotoUrlById(rows[1..], id);
      assert forall i :: 1 <= i < |rows| ==> rows[1..][i - 1] == rows[i];
      r
  }

  /** `getProductsMissingAi(limit)`: products with no AI-photo row, in catalog order, at most `limit`. */
  function ProductsMissingAi(products: seq<string>, rows: seq<AiPhoto>, limit: nat): (r: seq<string>)
    ensures |r| <= limit
    ensures forall x :: x in r ==> x in products && !HasAiRow(rows, x)
    ensures |r| < limit ==> forall x :: x in products && !HasAiRow(rows, x) ==> x in r
  {
    if limit == 0 || products == [] then []
    else if HasAiRow(rows, products[0]) then ProductsMissingAi(products[1..], rows, limit)
    else [products[0]] + ProductsMissingAi(products[1..], rows, limit - 1)
  }

  // ---------------------------------------------------------------------------
  // The table

  class AiPhotoTable {
    var rows: seq<AiPhoto>
    var nextId: nat

    ghost predicate Valid()
      reads this
    {
      IdsIncreasingBelow(rows, nextId)
    }

    constructor ()
      ensures Valid() && rows == [] && nextId == 0
    {
      rows := [];
      nextId := 0;
    }

    /** `upsertAiPhoto(productId, imageUrl)`: delete every row of the product, then insert
        the new catalog row under a fresh photo id. */
    method Upsert(productId: string, imageUrl: string, now: int)
      requires Valid()
      modifies this
      ensures Valid()
      ensures rows == UpsertRows(old(rows), productId, imageUrl, old(nextId), now)
      ensures nextId == old(nextId) + 1
    {
      WithoutProductKeepsIds(rows, productId, nextId);
      IdsAppend(WithoutProduct(rows, productId), nextId, CatalogRow(nextId, productId, imageUrl, now));
      rows := WithoutProduct(rows, productId) + [CatalogRow(nextId, productId, imageUrl, now)];
      nextId := nextId + 1;
    }

    /** `insertUserAiPhoto`: append a row owned by the customer (the user gallery grows). */
    method InsertUserPhoto(productId: string, customerId: Option<string>, imageUrl: string, model: string, now: int)
      requires Valid()
      modifies this
      ensures Valid()
      ensures rows == old(rows) + [AiPhoto(old(nextId), customerId, Some(productId), imageUrl, Some(model), now)]
      ensures nextId == old(nextId) + 1
    {
      IdsAppend(rows, nextId, AiPhoto(nextId, customerId, Some(productId), imageUrl, Some(model), now));
      rows := rows + [AiPhoto(nextId, customerId, Some(productId), imageUrl, Some(model), now)];
      nextId := nextId + 1;
    }

    /** `DELETE ... WHERE photo_id = id AND customer_id = c RETURNING photo_id`; returns the
        number of rows deleted, which is at most one. */
    method DeleteOwned(id: nat, customerId: string) returns (deleted: nat)
      requires Valid()
      modifies this
      ensures Valid() && nextId == old(nextId)
      ensures rows == WithoutOwned(old(rows), id, customerId)
      ensures deleted == |old(rows)| - |rows| && deleted <= 1
      ensures deleted == 0 <==> !Owns(old(rows), id, customerId)
      ensures deleted == 0 ==> rows == old(rows)
    {
      if !Owns(rows, id, customerId) {
        WithoutOwnedNotOwned(rows, id, customerId);
      }
      WithoutOwnedKeepsIds(rows, id, customerId, nextId);
      WithoutOwnedRemovesAtMostOne(rows, id, customerId, nextId);
      var before := |rows|;
      rows := WithoutOwned(rows, id, customerId);
      deleted := before - |rows|;
    }
  }

  // ---------------------------------------------------------------------------
  // Text-to-image generation

  // Long message texts are written as short literals joined with `+`: the verifier reasons
  // about a string literal one character at a time, and short pieces keep that cheap. The
  // joined text is the source's message, character for character.
  const ColourSuffix := " \U{E2}\U{20AC}\U{201D} keep this exact " + "hue."
  const FitPrefix := "- Fit / cut: "
  const FitSuffix := " (keep leg " + "width/shape " + "consistent; do not " + "slim or taper if " + "marked baggy/loose)."
  const MaterialPrefix := "- Material: "
  const DescriptionPrefix := "- Description notes: "
  const HardConstraints := "Hard constraints: no " + "extra accessories, no " + "pattern or color " + "changes, keep any " + "implied logos only, " + "realistic fabric " + "texture, respect the " + "stated fit and " + "silhouette."

  /** `x ?? fallback`. */
  function Default(x: Option<string>, fallback: string): string
  {
    if x.Some? then x.value else fallback
  }

  function FitLine(fit: string): (r: string)
    ensures r != "" <==> fit != ""
  {
    if fit != "" then FitPrefix + fit + FitSuffix else ""
  }

  function MaterialLine(material: string): (r: string)
    ensures r != "" <==> material != ""
  {
    if material != "" then MaterialPrefix + material + "." else ""
  }

  function DescriptionLine(desc: string): (r: string)
    ensures r != "" <==> desc != ""
  {
    if desc != "" then DescriptionPrefix + desc else ""
  }

  /** The three fixed opening lines. */
  function OpeningLines(): (r: seq<string>)
    ensures |r| == 3 && forall i :: 0 <= i < |r| ==> r[i] != ""
  {
    [ "E-commerce studio " + "photo, must exactly " + "match the real " + "garment silhouette " + "and details.",
      "Full-body model, " + "neutral pose, facing " + "camera, balanced " + "lighting, clean " + "light-gray background.",
      "Product facts (follow " + "precisely, no " + "creative changes):" ]
  }

  /** The product facts that always appear, each with its `??` default. */
  function NameLine(p: ProductDetail): (r: string)
    ensures r != ""
  {
    "- Name: \"" + p.name + "\""
  }

  function BrandLine(p: ProductDetail): (r: string)
    ensures r != ""
  {
    "- Brand: " + Default(p.brandName, "Unbranded")
  }

  function CategoryLine(p: ProductDetail): (r: string)
    ensures r != ""
  {
    "- Category: " + Default(p.categoryName, "Apparel")
      + (if OrEmpty(p.subcategoryName) != "" then " / " + p.subcategoryName.value else "")
  }

  function ColourLine(p: ProductDetail): (r: string)
    ensures r != ""
  {
    "- Colour: " + Default(p.colour, "unspecified") + ColourSuffix
  }

  function SizeLine(p: ProductDetail): (r: string)
    ensures r != ""
  {
    "- Size shown: " + Default(p.size, "standard sample size") + "."
  }

  /** The fixed opening lines and the product facts that always appear. */
  function PromptHead(p: ProductDetail): seq<string>
  {
    OpeningLines() + [NameLine(p), BrandLine(p), CategoryLine(p), ColourLine(p), SizeLine(p)]
  }

  /** The lines that are present only for a non-empty trimmed fit, material or description. */
  function OptionalLines(p: ProductDetail): seq<string>
  {
    [ FitLine(Trim(OrEmpty(p.fit))),
      MaterialLine(Trim(OrEmpty(p.material))),
      DescriptionLine(Trim(OrEmpty(p.description))) ]
  }

  /** The prompt's lines before empty ones are dropped. */
  function PromptLines(p: ProductDetail): seq<string>
  {
    PromptHead(p) + OptionalLines(p) + [HardConstraints]
  }

  /** The prompt sent to the image model: the non-empty lines joined by single spaces. */
  function OutfitPrompt(p: ProductDetail): string
  {
    Join(NonEmpty(PromptLines(p)), " ")
  }

  /** Dropping empty lines keeps the eight head lines and the closing constraints, and of
      the optional lines exactly those whose trimmed value is non-empty. */
  lemma PromptKeptLines(p: ProductDetail)
    ensures NonEmpty(PromptLines(p)) == PromptHead(p) + NonEmpty(OptionalLines(p)) + [HardConstraints]
    ensures FitLine(Trim(OrEmpty(p.fit))) in NonEmpty(PromptLines(p)) <==> Trim(OrEmpty(p.fit)) != ""
    ensures MaterialLine(Trim(OrEmpty(p.material))) in NonEmpty(PromptLines(p)) <==> Trim(OrEmpty(p.material)) != ""
    ensures (DescriptionLine(Trim(OrEmpty(p.description))) in NonEmpty(PromptLines(p)))
              == (Trim(OrEmpty(p.description)) != "")
  {
    NonEmptyHead(p);
    KeptLines(PromptHead(p), OptionalLines(p), HardConstraints);
    var opt := OptionalLines(p);
    assert forall x :: x in opt ==> x in PromptLines(p);
  }

  /** Filtering lines whose head is all non-empty and whose last line is non-empty filters
      only the middle. */
  lemma KeptLines(head: seq<string>, middle: seq<string>, last: string)
    requires NonEmpty(head) == head && last != ""
    ensures NonEmpty(head + middle + [last]) == head + NonEmpty(middle) + [last]
  {
    NonEmptyAppend(head + middle, [last]);
    NonEmptyAppend(head, middle);
    assert NonEmpty([last]) == [last];
  }

  /** The prompt always ends with a space and the hard constraints. */
  lemma PromptEndsWithConstraints(p: ProductDetail)
    ensures var kept := NonEmpty(PromptLines(p));
            OutfitPrompt(p) == Join(kept[..|kept| - 1], " ") + " " + HardConstraints
  {
    PromptKeptLines(p);
    var kept := NonEmpty(PromptLines(p));
    var front := PromptHead(p) + NonEmpty(OptionalLines(p));
    assert kept == front + [HardConstraints];
    assert kept[..|kept| - 1] == front;
    assert front != [];
    JoinSnoc(front, HardConstraints, " ");
  }

  /** None of the head lines is empty, so all eight are always kept. */
  lemma NonEmptyHead(p: ProductDetail)
    ensures NonEmpty(PromptHead(p)) == PromptHead(p)
  {
    NonEmptyOfNonEmpty(PromptHead(p));
  }

  lemma {:induction false} NonEmptyOfNonEmpty(parts: seq<string>)
    requires forall i :: 0 <= i < |parts| ==> parts[i] != ""
    ensures NonEmpty(parts) == parts
  {
    if parts != [] {
      NonEmptyOfNonEmpty(parts[1..]);
    }
  }

  // Response selection

  const MissingOpenAiKey := "OPENAI_API_KEY is " + "required to generate " + "AI images."
  const PngDataPrefix := "data:image/png;base64,"

  /** The JSON answer of the images endpoint: a non-2xx status with its body text, or the
      first item's `url` and `b64_json` and the raw text of the response. */
  datatype ImageResponse = HttpError(bodyText: string) | ImageData(url: Option<string>, b64: Option<string>, raw: string)

  /** URL first, then base64 as a PNG data URL (RFC 2397); neither is an error. */
  function SelectImage(resp: ImageResponse): (r: Result<string>)
    ensures resp.HttpError? ==> r == Failure("OpenAI image " + "generation failed: " + resp.bodyText)
    ensures resp.ImageData? && OrEmpty(resp.url) != "" ==> r == Success(resp.url.value)
    ensures (resp.ImageData? && OrEmpty(resp.url) == "" && OrEmpty(resp.b64) != "")
              ==> r == Success(PngDataPrefix + resp.b64.value)
    ensures r.Success? <==> resp.ImageData? && (OrEmpty(resp.url) != "" || OrEmpty(resp.b64) != "")
  {
    match resp
    case HttpError(text) => Failure("OpenAI image " + "generation failed: " + text)
    case ImageData(url, b64, raw) =>
      if OrEmpty(url) != "" then Success(url.value)
      else if OrEmpty(b64) != "" then Success(PngDataPrefix + b64.value)
      else Failure("No image URL returned " + "from OpenAI. Raw " + "response: " + raw)
  }

  /** The request actually made to the provider (if any) and what came of it. */
  datatype Generation = Generation(result: Result<string>, promptSent: Option<string>)

  /** `generateAiOutfitImage(productId)`, given the API key, the product lookup and the
      provider's answer to the prompt. */
  function GenerateAiOutfitImage(apiKey: Option<string>, product: Option<ProductDetail>, resp: ImageResponse): (g: Generation)
    ensures OrEmpty(apiKey) == "" ==> g == Generation(Failure(MissingOpenAiKey), None)
    ensures OrEmpty(apiKey) != "" && product.None? ==> g == Generation(Failure("Product not found"), None)
    ensures g.promptSent.Some? <==> OrEmpty(apiKey) != "" && product.Some?
    ensures g.promptSent.Some? ==> g.promptSent.value == OutfitPrompt(product.value) && g.result == SelectImage(resp)
  {
    if OrEmpty(apiKey) == "" then Generation(Failure(MissingOpenAiKey), None)
    else if product.None? then Generation(Failure("Product not found"), None)
    else Generation(SelectImage(resp), Some(OutfitPrompt(product.value)))
  }

  /** `fetchProductById` over the catalog, keyed by product id. */
  function FetchProduct(catalog: map<string, ProductDetail>, id: string): (r: Option<ProductDetail>)
    ensures r.Some? <==> id in catalog
    ensures r.Some? ==> r.value == catalog[id]
  {
    if id in catalog then Some(catalog[id]) else None
  }

  // ---------------------------------------------------------------------------
  // Refresh batches

  /** One entry of a refresh batch's `results`: the product and its URL or error text. */
  datatype ItemResult = ItemResult(productId: string, outcome: Result<string>)

  /** A refresh batch part way through: the entries so far, and the photo table's rows and
      next id after the items they report. */
  datatype Batch = Batch(results: seq<ItemResult>, rows: seq<AiPhoto>, nextId: nat)

  /** One more item of a batch: its entry is appended, and a success upserts the product's
      photo under the next id. */
  function Record(b: Batch, id: string, outcome: Result<string>, now: nat): (r: Batch)
    ensures r.results == b.results + [ItemResult(id, outcome)]
  {
    if outcome.Success? then Batch(b.results + [ItemResult(id, outcome)], UpsertRows(b.rows, id, outcome.value, b.nextId, now), b.nextId + 1)
    else Batch(b.results + [ItemResult(id, outcome)], b.rows, b.nextId)
  }

  /** What the i-th item of a batch answers for product `id` when the table holds `rows`. */
  type ItemOutcome = (seq<AiPhoto>, nat, string) -> Result<string>

  /** A whole batch over `ids`, starting from `rows` and `nextId`: the i-th item answers
      `outcome` on the table the items before it left. */
  function RunBatch(rows: seq<AiPhoto>, nextId: nat, ids: seq<string>, outcome: ItemOutcome, now: nat): (b: Batch)
    ensures |b.results| == |ids| && forall j :: 0 <= j < |ids| ==> b.results[j].productId == ids[j]
    decreases |ids|
  {
    if ids == [] then Batch([], rows, nextId)
    else
      var i := |ids| - 1;
      var prev := RunBatch(rows, nextId, ids[..i], outcome, now);
      Record(prev, ids[i], outcome(prev.rows, i, ids[i]), now)
  }

  /** The batch over one more id is the batch so far followed by that id's item. */
  lemma RunBatchStep(rows: seq<AiPhoto>, nextId: nat, ids: seq<string>, i: nat, outcome: ItemOutcome, now: nat)
    requires i < |ids|
    ensures var prev := RunBatch(rows, nextId, ids[..i], outcome, now);
            RunBatch(rows, nextId, ids[..i + 1], outcome, now) == Record(prev, ids[i], outcome(prev.rows, i, ids[i]), now)
  {
    assert ids[..i + 1][..i] == ids[..i];
  }

  /** Each entry of a batch is what its item answers on the table the earlier items left. */
  lemma {:induction false} RunBatchEntries(rows: seq<AiPhoto>, nextId: nat, ids: seq<string>, outcome: ItemOutcome, now: nat)
    ensures var b := RunBatch(rows, nextId, ids, outcome, now);
            forall j :: 0 <= j < |ids| ==>
              b.results[j].outcome == outcome(RunBatch(rows, nextId, ids[..j], outcome, now).rows, j, ids[j])
    decreases |ids|
  {
    if ids != [] {
      var i := |ids| - 1;
      var prev := RunBatch(rows, nextId, ids[..i], outcome, now);
      RunBatchEntries(rows, nextId, ids[..i], outcome, now);
      var b := RunBatch(rows, nextId, ids, outcome, now);
      assert b.results == prev.results + [ItemResult(ids[i], outcome(prev.rows, i, ids[i]))];
      forall j | 0 <= j < |ids|
        ensures b.results[j].outcome == outcome(RunBatch(rows, nextId, ids[..j], outcome, now).rows, j, ids[j])
      {
        if j < i {
          assert ids[..i][..j] == ids[..j] && ids[..i][j] == ids[j];
          assert b.results[j] == prev.results[j];
        }
      }
    }
  }

  /** A batch whose every item fails leaves the table as it was. */
  lemma {:induction false} RunBatchAllFail(rows: seq<AiPhoto>, nextId: nat, ids: seq<string>, outcome: ItemOutcome, now: nat)
    requires forall rs, i :: 0 <= i < |ids| ==> outcome(rs, i, ids[i]).Failure?
    ensures RunBatch(rows, nextId, ids, outcome, now).rows == rows
    ensures RunBatch(rows, nextId, ids, outcome, now).nextId == nextId
    decreases |ids|
  {
    if ids != [] {
      RunBatchAllFail(rows, nextId, ids[..|ids| - 1], outcome, now);
    }
  }

  /** `err.message || 'failed'`. */
  function ErrorText(message: string): (r: string)
    ensures r != ""
    ensures message != "" ==> r == message
  {
    if message != "" then message else "failed"
  }
}
