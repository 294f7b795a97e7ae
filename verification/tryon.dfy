/** Try-on orchestration (app/lib/tryon.ts): the keyword classifiers, the garment
    description sent to the VITON model, the choice of base-model image with its
    opposite-gender fallback, the two-attempt retry, the prediction poll loop and the
    persistence of the produced image. Provider calls, storage and image conversion are
    inputs: each is a value or a total function supplied by the caller. */
module Tryon {
  import opened Common
  import opened Ai

  // ---------------------------------------------------------------------------
  // Keyword classification

  /** The lowercased `name category subcategory` text every classifier searches. */
  function Haystack(p: ProductDetail): string
  {
    Lower(p.name + " " + OrEmpty(p.categoryName) + " " + OrEmpty(p.subcategoryName))
  }

  /** `isBelt`: belts are dressed by inpainting instead of VITON. */
  predicate IsBelt(p: ProductDetail)
  {
    Contains(Haystack(p), "belt")
  }

  datatype ClothType = UpperBody | LowerBody | Dresses

  const LowerKeywords: seq<string> := ["jean", "pant", "trouser", "short", "skirt", "bottom"]

  /** `inferClothType`: "dress" first, then any lower-body keyword, else upper body. */
  function InferClothType(p: ProductDetail): (r: ClothType)
    ensures r == Dresses <==> Contains(Haystack(p), "dress")
    ensures r == LowerBody <==>
              !Contains(Haystack(p), "dress") && exists k :: k in LowerKeywords && Contains(Haystack(p), k)
  {
    var h := Haystack(p);
    if Contains(h, "dress") then Dresses
    else if exists k :: k in LowerKeywords && Contains(h, k) then LowerBody
    else UpperBody
  }

  datatype Gender = Male | Female | Unisex

  /** `inferGender`: "women" is tested before "men". */
  function InferGender(p: ProductDetail): Gender
  {
    var h := Haystack(p);
    if Contains(h, "women") then Female
    else if Contains(h, "men") then Male
    else Unisex
  }

  /** A product is unisex exactly when its text mentions neither "men" nor anything
      containing it, and female whenever it mentions "women" even though that also
      contains "men". */
  lemma GenderCases(p: ProductDetail)
    ensures InferGender(p) == Unisex <==> !Contains(Haystack(p), "men")
    ensures InferGender(p) == Female <==> Contains(Haystack(p), "women")
    ensures InferGender(p) == Male <==> Contains(Haystack(p), "men") && !Contains(Haystack(p), "women")
  {
    if Contains(Haystack(p), "women") {
      WomenContainsMen(Haystack(p));
    }
  }

  // ---------------------------------------------------------------------------
  // Garment description

  // Long message texts are written as short literals joined with `+`: the verifier reasons
  // about a string literal one character at a time, and short pieces keep that cheap. The
  // joined text is the source's message, character for character.
  const BaggyNote := "baggy/loose fit: wide " + "leg, roomy " + "silhouette, no taper"
  const SlimNote := "slim fit"
  const DescConstraint := "avoid changing " + "silhouette; keep " + "stated fit and " + "length; no turning " + "belt into jacket; do " + "not slim wide legs"

  /** The fit note: the baggy family wins over the slim family; an empty or absent fit has none. */
  function FitNote(fit: Option<string>): (r: string)
    ensures OrEmpty(fit) == "" ==> r == ""
    ensures r == BaggyNote <==>
              OrEmpty(fit) != "" && (Contains(Lower(fit.value), "baggy") || Contains(Lower(fit.value), "loose")
                                     || Contains(Lower(fit.value), "relaxed"))
    ensures r == SlimNote <==>
              OrEmpty(fit) != "" && !(Contains(Lower(fit.value), "baggy") || Contains(Lower(fit.value), "loose")
                                      || Contains(Lower(fit.value), "relaxed"))
              && (Contains(Lower(fit.value), "slim") || Contains(Lower(fit.value), "skinny"))
    ensures r in {"", BaggyNote, SlimNote}
  {
    if OrEmpty(fit) == "" then ""
    else
      var f := Lower(fit.value);
      if Contains(f, "baggy") || Contains(f, "loose") || Contains(f, "relaxed") then BaggyNote
      else if Contains(f, "slim") || Contains(f, "skinny") then SlimNote
      else ""
  }

  /** The fit part of the description: the note, else `fit <fit>` for a non-empty fit. */
  function FitPart(fit: Option<string>): (r: string)
    ensures r == "" <==> OrEmpty(fit) == ""
    ensures FitNote(fit) != "" ==> r == FitNote(fit)
    ensures FitNote(fit) == "" && OrEmpty(fit) != "" ==> r == "fit " + fit.value
  {
    var note := FitNote(fit);
    if note != "" then note
    else if OrEmpty(fit) != "" then "fit " + fit.value
    else ""
  }

  /** The length note, for dresses only, read from the description, else the name:
      midi before maxi before mini, else knee length. */
  function LengthNote(p: ProductDetail, t: ClothType): (r: string)
    ensures t != Dresses <==> r == ""
    ensures var text := Lower(if OrEmpty(p.description) != "" then p.description.value else p.name);
            t == Dresses && Contains(text, "midi") ==> r == "midi length dress"
    ensures var text := Lower(if OrEmpty(p.description) != "" then p.description.value else p.name);
            t == Dresses && !Contains(text, "midi") && Contains(text, "maxi") ==> r == "maxi length dress"
    ensures var text := Lower(if OrEmpty(p.description) != "" then p.description.value else p.name);
            (t == Dresses && !Contains(text, "midi") && !Contains(text, "maxi") && Contains(text, "mini"))
              ==> r == "mini length dress"
    ensures var text := Lower(if OrEmpty(p.description) != "" then p.description.value else p.name);
            (t == Dresses && !Contains(text, "midi") && !Contains(text, "maxi") && !Contains(text, "mini"))
              ==> r == "knee-length dress"
  {
    if t != Dresses then ""
    else
      var text := Lower(if OrEmpty(p.description) != "" then p.description.value else p.name);
      if Contains(text, "midi") then "midi length dress"
      else if Contains(text, "maxi") then "maxi length dress"
      else if Contains(text, "mini") then "mini length dress"
      else "knee-length dress"
  }

  /** The seven candidate parts of the description, before empty ones are dropped. */
  function DescParts(p: ProductDetail): seq<string>
  {
    [ p.name,
      if OrEmpty(p.colour) != "" then "color " + p.colour.value else "",
      FitPart(p.fit),
      if OrEmpty(p.material) != "" then "material " + p.material.value else "",
      LengthNote(p, InferClothType(p)),
      OrEmpty(p.description),
      DescConstraint ]
  }

  /** `garmentDesc`: the non-empty parts joined by ", ". */
  function GarmentDesc(p: ProductDetail): string
  {
    Join(NonEmpty(DescParts(p)), ", ")
  }

  /** The description always ends with the fixed constraint, preceded by ", " when any
      other part is present; the fit and length parts appear exactly when non-empty. */
  lemma GarmentDescShape(p: ProductDetail)
    ensures var front := NonEmpty(DescParts(p)[..6]);
            GarmentDesc(p) == if front == [] then DescConstraint else Join(front, ", ") + ", " + DescConstraint
    ensures FitPart(p.fit) in NonEmpty(DescParts(p)) <==> OrEmpty(p.fit) != ""
    ensures InferClothType(p) == Dresses <==> LengthNote(p, InferClothType(p)) in NonEmpty(DescParts(p))
  {
    var parts := DescParts(p);
    assert parts == parts[..6] + [DescConstraint];
    NonEmptyAppend(parts[..6], [DescConstraint]);
    assert NonEmpty([DescConstraint]) == [DescConstraint];
    JoinSnoc(NonEmpty(parts[..6]), DescConstraint, ", ");
  }

  // ---------------------------------------------------------------------------
  // Base-model selection

  /** What `getLatestBaseModelUrl` answers for a female, male or unspecified gender;
      "" when there is no such base model. */
  datatype Registry = Registry(female: string, male: string, any: string)

  datatype BaseChoice = BaseChoice(primary: string, fallback: string)

  /** The primary image is the explicit URL, else the latest base model of the product's
      gender (any gender when unisex); the fallback is the latest of the other gender,
      male for unisex products. */
  function ChooseBase(explicit: Option<string>, g: Gender, reg: Registry): (b: BaseChoice)
    ensures OrEmpty(explicit) != "" ==> b.primary == explicit.value
    ensures OrEmpty(explicit) == "" ==>
              b.primary == (match g case Female => reg.female case Male => reg.male case Unisex => reg.any)
    ensures b.fallback == if g == Male then reg.female else reg.male
  {
    var primary := if OrEmpty(explicit) != "" then explicit.value
                   else if g == Unisex then reg.any
                   else if g == Male then reg.male
                   else reg.female;
    BaseChoice(primary, if g == Male then reg.female else reg.male)
  }

  /** The image used first: the primary, else the fallback. */
  function HumanUrl(b: BaseChoice): (r: string)
    ensures r == "" <==> b.primary == "" && b.fallback == ""
    ensures b.primary != "" ==> r == b.primary
    ensures b.primary == "" ==> r == b.fallback
  {
    if b.primary != "" then b.primary else b.fallback
  }

  // ---------------------------------------------------------------------------
  // Image inputs and persistence

  /** Conversion of a stored image to base64 PNG (`fetchImageAsBase64` then
      `resizeBase64ToPng`), which may throw. */
  type Converter = string -> Result<string>

  /** An http(s) URL is passed as is; anything else becomes a PNG data URL of its
      converted bytes, or the conversion's error. */
  function PrepareImage(url: string, convert: Converter): (r: Result<string>)
    ensures StartsWith(url, "http") ==> r == Success(url)
    ensures !StartsWith(url, "http") && convert(url).Success? ==> r == Success(PngDataPrefix + convert(url).value)
    ensures r.Failure? <==> !StartsWith(url, "http") && convert(url).Failure?
  {
    if StartsWith(url, "http") then Success(url)
    else
      var c := convert(url);
      if c.Success? then Success(PngDataPrefix + c.value) else Failure(c.message)
  }

  predicate MimeChar(c: char)
  {
    'a' <= c <= 'z' || 'A' <= c <= 'Z' || '0' <= c <= '9' || c == '.' || c == '+' || c == '-'
  }

  /** The length of the leading run of `[a-zA-Z0-9.+-]`. */
  function MimeRun(s: string): (n: nat)
    ensures n <= |s|
    ensures forall i :: 0 <= i < n ==> MimeChar(s[i])
    ensures n < |s| ==> !MimeChar(s[n])
  {
    if s != [] && MimeChar(s[0]) then 1 + MimeRun(s[1..]) else 0
  }

  // Thrown messages, split into short literals as the notes above are.
  const TokenRequired := "REPLICATE_API_TOKEN " + "is required."
  const NoGarmentPhoto := "Product has no photo " + "to use as garment."
  const VitonTokenRequired := "REPLICATE_API_TOKEN " + "is required for VITON " + "try-on."
  const MissingPredictionUrl := "Missing prediction " + "URL from Replicate."
  const DataImagePrefix := "data:image/"
  const Base64Marker := ";base64,"

  /** `s.replace(/^data:image\/[a-zA-Z0-9.+-]+;base64,/, '')`. */
  function StripDataImage(s: string): string
  {
    if StartsWith(s, DataImagePrefix) then
      var rest := s[|DataImagePrefix|..];
      var n := MimeRun(rest);
      if n > 0 && StartsWith(rest[n..], Base64Marker) then rest[n + |Base64Marker|..] else s
    else s
  }

  lemma {:induction false} MimeRunOfPrefix(u: string, v: string)
    requires forall i :: 0 <= i < |u| ==> MimeChar(u[i])
    requires v != [] && !MimeChar(v[0])
    ensures MimeRun(u + v) == |u|
  {
    if u != [] {
      assert (u + v)[1..] == u[1..] + v;
      MimeRunOfPrefix(u[1..], v);
    }
  }

  /** Stripping the prefix of an image data URL gives back the base64 payload. */
  lemma StripDataUrl(subtype: string, b64: string)
    requires subtype != [] && forall i :: 0 <= i < |subtype| ==> MimeChar(subtype[i])
    ensures StripDataImage(DataUrl("image/" + subtype, b64)) == b64
  {
    var s := DataUrl("image/" + subtype, b64);
    var tail := Base64Marker + b64;
    assert s == DataImagePrefix + (subtype + tail);
    PrefixSplit(DataImagePrefix, subtype + tail);
    MimeRunOfPrefix(subtype, tail);
    PrefixSplit(subtype, tail);
    PrefixSplit(Base64Marker, b64);
  }

  lemma PrefixSplit(p: string, t: string)
    ensures StartsWith(p + t, p) && (p + t)[|p|..] == t
  {
    assert (p + t)[..|p|] == p;
  }

  /** In particular for the PNG data URLs built from base64 answers. */
  lemma StripPngDataUrl(b64: string)
    ensures StripDataImage(PngDataPrefix + b64) == b64
  {
    assert PngDataPrefix + b64 == DataUrl("image/" + "png", b64);
    StripDataUrl("png", b64);
  }

  /** `persistProductImage` / `persistUserTryonImage`: the object key starts with `stem`
      and the time; a failed fetch or upload falls back to the source URL. */
  function Persist(st: Storage, source: string, stem: string, now: nat): (r: string)
    ensures st.NoStorage? ==> r == source
    ensures (st.Bucket? && StartsWith(source, "data:image"))
              ==> r == (var u := st.put(StripDataImage(source), stem + NatToString(now) + ".png");
                        if u.Success? then u.value else source)
    ensures st.Bucket? && !StartsWith(source, "data:image") && st.fetch(source).Failure? ==> r == source
    ensures (st.Bucket? && !StartsWith(source, "data:image") && st.fetch(source).Success?)
              ==> r == (var f := st.fetch(source).value;
                        var u := st.put(f.bytes, stem + NatToString(now) + "." + ExtFor(f.contentType));
                        if u.Success? then u.value else source)
  {
    match st
    case NoStorage => source
    case Bucket(fetch, put) =>
      if StartsWith(source, "data:image") then
        var u := put(StripDataImage(source), stem + NatToString(now) + ".png");
        if u.Success? then u.value else source
      else
        var f := fetch(source);
        if f.Failure? then source
        else
          var u := put(f.value.bytes, stem + NatToString(now) + "." + ExtFor(f.value.contentType));
          if u.Success? then u.value else source
  }

  function ProductStem(productId: string): string
  {
    "products/" + productId + "-"
  }

  function UserStem(customerId: Option<string>, productId: string): string
  {
    "user-tryon/" + (if OrEmpty(customerId) != "" then customerId.value else "anon") + "-" + productId + "-"
  }

  // ---------------------------------------------------------------------------
  // The prediction request and its poll loop

  /** The `input` object posted to the predictions endpoint. */
  datatype VitonRequest = VitonRequest(humanImg: string, garmImg: string, category: string,
                                       garmentDes: string, forceDc: bool, crop: bool)

  function CategoryName(t: ClothType): string
  {
    match t
    case UpperBody => "upper_body"
    case LowerBody => "lower_body"
    case Dresses => "dresses"
  }

  /** Dresses are sent uncropped with `force_dc`; everything else is cropped without it. */
  function BuildRequest(human: string, cloth: string, t: ClothType, desc: string): (q: VitonRequest)
    ensures q.forceDc <==> t == Dresses
    ensures q.crop <==> t != Dresses
    ensures q.humanImg == human && q.garmImg == cloth && q.garmentDes == desc
  {
    VitonRequest(human, cloth, CategoryName(t), desc, t == Dresses, t != Dresses)
  }

  /** The answer to the prediction POST: an error body, or the `urls.get` poll address. */
  datatype Submit = SubmitError(body: string) | Submitted(getUrl: Option<string>)

  /** The `output` field of a prediction: absent, a single value, or an array. */
  datatype Output = NoOutput | Single(url: string) | Many(urls: seq<string>)

  /** One poll of the prediction: an error body, or its status, output and error text. */
  datatype Poll = PollError(body: string) | PollState(status: string, output: Output, error: Option<string>)

  /** A poll the loop stops at. */
  predicate Terminal(p: Poll)
  {
    p.PollError? || p.status == "succeeded" || p.status == "failed" || p.status == "canceled"
  }

  /** `Array.isArray(output) ? output[0] : output`, "" when there is nothing. */
  function FirstOutput(o: Output): string
  {
    match o
    case NoOutput => ""
    case Single(u) => u
    case Many(us) => if us == [] then "" else us[0]
  }

  /** What the loop returns or throws at a terminal poll. */
  function PollOutcome(p: Poll): (r: Result<string>)
    requires Terminal(p)
    ensures r.Success? <==> p.PollState? && p.status == "succeeded" && FirstOutput(p.output) != ""
    ensures r.Success? ==> r.value == FirstOutput(p.output)
  {
    match p
    case PollError(body) => Failure("Replicate poll failed: " + body)
    case PollState(status, output, error) =>
      if status == "succeeded" then
        if FirstOutput(output) == "" then Failure("Replicate returned no " + "output image.")
        else Success(FirstOutput(output))
      else Failure("Replicate failed: " + (if OrEmpty(error) != "" then error.value else status))
  }

  /** `runReplicateViton`, with the polls observed so far: `None` when none of them was
      terminal, so the real loop would still be waiting. The result is the outcome of the
      first terminal poll; every poll before it had a non-terminal status. */
  method RunReplicateViton(token: Option<string>, submit: Submit, polls: seq<Poll>) returns (r: Option<Result<string>>)
    ensures OrEmpty(token) == "" ==> r == Some(Failure(VitonTokenRequired))
    ensures OrEmpty(token) != "" && submit.SubmitError? ==> r == Some(Failure("Replicate VITON " + "request failed: " + submit.body))
    ensures (OrEmpty(token) != "" && submit.Submitted? && OrEmpty(submit.getUrl) == "")
              ==> r == Some(Failure(MissingPredictionUrl))
    ensures OrEmpty(token) != "" && submit.Submitted? && OrEmpty(submit.getUrl) != "" ==>
              && (r.None? <==> forall j :: 0 <= j < |polls| ==> !Terminal(polls[j]))
              && (r.Some? ==> exists k :: 0 <= k < |polls| && Terminal(polls[k])
                                && (forall j :: 0 <= j < k ==> !Terminal(polls[j]))
                                && r.value == PollOutcome(polls[k]))
  {
    if OrEmpty(token) == "" {
      return Some(Failure(VitonTokenRequired));
    }
    if submit.SubmitError? {
      return Some(Failure("Replicate VITON " + "request failed: " + submit.body));
    }
    if OrEmpty(submit.getUrl) == "" {
      return Some(Failure(MissingPredictionUrl));
    }
    var i := 0;
    while i < |polls|
      invariant 0 <= i <= |polls|
      invariant forall j :: 0 <= j < i ==> !Terminal(polls[j])
    {
      if Terminal(polls[i]) {
        return Some(PollOutcome(polls[i]));
      }
      i := i + 1;
    }
    return None;
  }

  // ---------------------------------------------------------------------------
  // The two-attempt retry

  /** The attempt loop of `dressProductWithViton`. `outcomes[i]` is what the i-th VITON call
      answers and `altInput` is the prepared fallback image. The first attempt sends
      `firstInput`; a second one runs only when the first failed and the fallback is
      non-empty and differs from the primary, and it sends the fallback. `sent` lists
      the human images actually sent. */
  method VitonAttempts(firstInput: string, b: BaseChoice, altInput: Result<string>, first: Result<string>, second: Result<string>)
    returns (r: Result<string>, sent: seq<string>)
    ensures 1 <= |sent| <= 2 && sent[0] == firstInput
    ensures |sent| == 2 <==> first.Failure? && b.fallback != "" && b.fallback != b.primary && altInput.Success?
    ensures |sent| == 2 ==> sent[1] == altInput.value && r == second
    ensures first.Success? ==> r == first
    ensures (first.Failure? && b.fallback != "" && b.fallback != b.primary && altInput.Failure?)
              ==> r == Failure(altInput.message)
    ensures first.Failure? && !(b.fallback != "" && b.fallback != b.primary) ==> r == first
  {
    var outcomes := [first, second];
    var humanInput := firstInput;
    var lastError := "";
    sent := [];
    var attempt := 0;
    var done := false;
    r := Failure("VITON try-on failed");
    while attempt < 2 && !done
      invariant 0 <= attempt <= 1
      invariant |sent| == (if done then attempt + 1 else attempt)
      invariant attempt == 0 ==> humanInput == firstInput
      invariant |sent| >= 1 ==> sent[0] == firstInput
      invariant attempt >= 1 ==> outcomes[0].Failure? && b.fallback != "" && b.fallback != b.primary && altInput.Success?
      invariant attempt == 1 ==> humanInput == altInput.value && |sent| >= 1
      invariant attempt == 1 && !done ==> |sent| == 1
      invariant |sent| == 2 ==> sent[1] == altInput.value
      invariant done && attempt == 0 && outcomes[0].Success? ==> r == outcomes[0]
      invariant (done && attempt == 0 && outcomes[0].Failure? && b.fallback != "" && b.fallback != b.primary)
                  ==> altInput.Failure? && r == Failure(altInput.message)
      invariant (done && attempt == 0 && outcomes[0].Failure? && !(b.fallback != "" && b.fallback != b.primary))
                  ==> r == outcomes[0]
      invariant done && attempt == 1 ==> r == outcomes[1]
      decreases 2 - attempt, !done
    {
      sent := sent + [humanInput];
      var out := outcomes[attempt];
      if out.Success? {
        r := out;
        done := true;
      } else {
        lastError := out.message;
        if attempt == 0 && b.fallback != "" && b.fallback != b.primary {
          if altInput.Failure? {
            // the conversion of the fallback throws out of the catch block
            r := Failure(altInput.message);
            done := true;
          } else {
            humanInput := altInput.value;
            attempt := attempt + 1;
          }
        } else {
          r := Failure(lastError);
          done := true;
        }
      }
    }
  }

  // ---------------------------------------------------------------------------
  // The two flows

  /** What the external calls of a flow answer: the inpainting call used for belts, the
      image conversion, each VITON call in turn, and the storage. */
  datatype TryonEffects = TryonEffects(stability: Result<string>, convert: Converter,
                                       firstViton: Result<string>, secondViton: Result<string>,
                                       storage: Storage)

  /** `(product.photos && product.photos[0]) || ''`. */
  function ClothUrl(p: ProductDetail): string
  {
    if p.photos == [] then "" else p.photos[0]
  }

  /** What the admin flow has established once its checks pass. */
  datatype Ready = Ready(product: ProductDetail, cloth: string, base: BaseChoice, human: string)

  /** The checks `dressProductWithViton` makes before any provider call, in order: the
      Replicate token, the daily cap, the product, its garment photo, a base-model image. */
  function DressChecks(token: Option<string>, cap: Result<()>, product: Option<ProductDetail>,
                       explicit: Option<string>, reg: Registry): (r: Result<Ready>)
    ensures OrEmpty(token) == "" ==> r == Failure(TokenRequired)
    ensures OrEmpty(token) != "" && cap.Failure? ==> r == Failure(cap.message)
    ensures (OrEmpty(token) != "" && cap.Success? && product.None?) ==> r == Failure("Product not found")
    ensures (OrEmpty(token) != "" && cap.Success? && product.Some? && ClothUrl(product.value) == "")
              ==> r == Failure(NoGarmentPhoto)
    ensures r.Success? <==> OrEmpty(token) != "" && cap.Success? && product.Some? && ClothUrl(product.value) != ""
                            && HumanUrl(ChooseBase(explicit, InferGender(product.value), reg)) != ""
    ensures r.Success? ==> && r.value.product == product.value
                           && r.value.cloth == ClothUrl(product.value)
                           && r.value.base == ChooseBase(explicit, InferGender(product.value), reg)
                           && r.value.human == HumanUrl(r.value.base) != ""
  {
    if OrEmpty(token) == "" then Failure(TokenRequired)
    else if cap.Failure? then Failure(cap.message)
    else if product.None? then Failure("Product not found")
    else if ClothUrl(product.value) == "" then Failure(NoGarmentPhoto)
    else
      var b := ChooseBase(explicit, InferGender(product.value), reg);
      if HumanUrl(b) == "" then Failure("No base model " + "available. Generate " + "base models first.")
      else Success(Ready(product.value, ClothUrl(product.value), b, HumanUrl(b)))
  }

  /** The VITON requests of a non-belt product `p`: each sends the prepared garment photo,
      the product's category and description, and its own human image; the first sends the
      prepared primary image (`HumanUrl`), and a second, sent only after a failed first when
      a distinct fallback exists, sends the prepared fallback. */
  predicate VitonRequests(requests: seq<VitonRequest>, p: ProductDetail, b: BaseChoice, fx: TryonEffects)
  {
    && 1 <= |requests| <= 2
    && PrepareImage(ClothUrl(p), fx.convert).Success? && PrepareImage(HumanUrl(b), fx.convert).Success?
    && requests[0].humanImg == PrepareImage(HumanUrl(b), fx.convert).value
    && (forall i :: 0 <= i < |requests| ==>
          requests[i] == BuildRequest(requests[i].humanImg, PrepareImage(ClothUrl(p), fx.convert).value,
                                      InferClothType(p), GarmentDesc(p)))
    && (|requests| == 2 <==> fx.firstViton.Failure? && b.fallback != "" && b.fallback != b.primary
                             && PrepareImage(b.fallback, fx.convert).Success?)
    && (|requests| == 2 ==> requests[1].humanImg == PrepareImage(b.fallback, fx.convert).value)
  }

  /** The answer of the last VITON request made. */
  function LastAnswer(requests: seq<VitonRequest>, fx: TryonEffects): Result<string>
  {
    if |requests| == 2 then fx.secondViton else fx.firstViton
  }

  /** What the VITON loop ends with for the base choice `b`: the first answer when it
      succeeded or no distinct fallback exists; otherwise the fallback's conversion error,
      or else the second answer. */
  function VitonOutcome(b: BaseChoice, fx: TryonEffects): (r: Result<string>)
    ensures fx.firstViton.Success? ==> r == fx.firstViton
    ensures r.Success? ==> r == fx.firstViton || r == fx.secondViton
    ensures fx.firstViton.Failure? && b.fallback == "" ==> r == fx.firstViton
  {
    if fx.firstViton.Success? || !(b.fallback != "" && b.fallback != b.primary) then fx.firstViton
    else
      var alt := PrepareImage(b.fallback, fx.convert);
      if alt.Failure? then Failure(alt.message) else fx.secondViton
  }

  /** The VITON loop for a non-belt product whose garment and primary images are prepared:
      the requests it sends, and the outcome, which is the last answer unless converting
      the fallback fails. */
  method SendToViton(clothInput: string, humanInput: string, p: ProductDetail, b: BaseChoice, fx: TryonEffects)
    returns (outcome: Result<string>, requests: seq<VitonRequest>)
    requires PrepareImage(ClothUrl(p), fx.convert) == Success(clothInput)
    requires PrepareImage(HumanUrl(b), fx.convert) == Success(humanInput)
    ensures VitonRequests(requests, p, b, fx)
    ensures outcome.Success? <==> LastAnswer(requests, fx).Success?
    ensures outcome.Success? || |requests| == 2 ==> outcome == LastAnswer(requests, fx)
    ensures outcome == VitonOutcome(b, fx)
  {
    var sent;
    outcome, sent := VitonAttempts(humanInput, b, PrepareImage(b.fallback, fx.convert), fx.firstViton, fx.secondViton);
    var t, desc := InferClothType(p), GarmentDesc(p);
    if |sent| == 2 {
      requests := [BuildRequest(sent[0], clothInput, t, desc), BuildRequest(sent[1], clothInput, t, desc)];
    } else {
      requests := [BuildRequest(sent[0], clothInput, t, desc)];
    }
  }

  /** What `dressProductWithViton` answers when the photo table holds `rows`: the first
      failed check; for a belt, the inpainted image persisted under the product's stem; else
      a garment or base image that fails to convert, or the outcome of the VITON loop
      persisted under the product's stem. */
  function DressOutcome(rows: seq<AiPhoto>, settings: AiSettings, token: Option<string>, productId: string,
                        product: Option<ProductDetail>, baseModelUrl: Option<string>, reg: Registry,
                        fx: TryonEffects, now: nat): (r: Result<string>)
    ensures OrEmpty(token) == "" ==> r == Failure(TokenRequired)
    ensures product.None? ==> r.Failure?
    ensures r.Success? ==> exists answer :: r.value == Persist(fx.storage, answer, ProductStem(productId), now)
  {
    var checks := DressChecks(token, CheckDailyCap(DailyCap(settings), rows, now), product, baseModelUrl, reg);
    if checks.Failure? then Failure(checks.message)
    else if IsBelt(checks.value.product) then
      if fx.stability.Failure? then Failure(fx.stability.message)
      else Success(Persist(fx.storage, fx.stability.value, ProductStem(productId), now))
    else
      var cloth := PrepareImage(checks.value.cloth, fx.convert);
      var human := PrepareImage(checks.value.human, fx.convert);
      if cloth.Failure? then Failure(cloth.message)
      else if human.Failure? then Failure(human.message)
      else
        var o := VitonOutcome(checks.value.base, fx);
        if o.Failure? then Failure(o.message) else Success(Persist(fx.storage, o.value, ProductStem(productId), now))
  }

  /** `dressProductWithViton(productId, baseModelUrl)`: on success the product's AI photos
      are replaced by the one produced, and on failure the table is untouched. Belts go to
      inpainting and never to VITON; every other garment gets at most two VITON attempts,
      the second with the fallback base model. `requests` lists the VITON requests sent. */
  method DressProductWithViton(table: AiPhotoTable, settings: AiSettings, token: Option<string>,
                               productId: string, product: Option<ProductDetail>, baseModelUrl: Option<string>,
                               reg: Registry, fx: TryonEffects, now: nat)
    returns (r: Result<string>, requests: seq<VitonRequest>)
    requires table.Valid()
    modifies table
    ensures table.Valid()
    ensures var checks := DressChecks(token, CheckDailyCap(DailyCap(settings), old(table.rows), now), product, baseModelUrl, reg);
            checks.Failure? ==> r == Failure(checks.message) && requests == []
    ensures OrEmpty(token) == "" ==> r == Failure(TokenRequired)
    ensures product.None? ==> r.Failure?
    ensures r.Failure? ==> table.rows == old(table.rows) && table.nextId == old(table.nextId)
    ensures r.Success? ==> table.rows == UpsertRows(old(table.rows), productId, r.value, old(table.nextId), now)
    ensures product.Some? && IsBelt(product.value) ==> requests == []
    ensures requests != [] ==>
              && product.Some? && !IsBelt(product.value)
              && VitonRequests(requests, product.value, ChooseBase(baseModelUrl, InferGender(product.value), reg), fx)
              && (r.Success? <==> LastAnswer(requests, fx).Success?)
              && (r.Success? ==> r.value == Persist(fx.storage, LastAnswer(requests, fx).value, ProductStem(productId), now))
              && (|requests| == 2 ==> r.Failure? ==> r == fx.secondViton)
    ensures var checks := DressChecks(token, CheckDailyCap(DailyCap(settings), old(table.rows), now), product, baseModelUrl, reg);
            checks.Success? && IsBelt(product.value) ==>
              r == if fx.stability.Failure? then Failure(fx.stability.message)
                   else Success(Persist(fx.storage, fx.stability.value, ProductStem(productId), now))
    ensures var checks := DressChecks(token, CheckDailyCap(DailyCap(settings), old(table.rows), now), product, baseModelUrl, reg);
            checks.Success? && !IsBelt(product.value) ==>
              var cloth := PrepareImage(ClothUrl(product.value), fx.convert);
              var human := PrepareImage(HumanUrl(ChooseBase(baseModelUrl, InferGender(product.value), reg)), fx.convert);
              && (cloth.Failure? ==> r == Failure(cloth.message) && requests == [])
              && (cloth.Success? && human.Failure? ==> r == Failure(human.message) && requests == [])
              && (cloth.Success? && human.Success? ==> requests != [])
    ensures r.Success? ==> table.nextId == old(table.nextId) + 1
    ensures r == DressOutcome(old(table.rows), settings, token, productId, product, baseModelUrl, reg, fx, now)
  {
    requests := [];
    var checks := DressChecks(token, CheckDailyCap(DailyCap(settings), table.rows, now), product, baseModelUrl, reg);
    if checks.Failure? {
      return Failure(checks.message), [];
    }
    var ready := checks.value;
    if IsBelt(ready.product) {
      if fx.stability.Failure? {
        return Failure(fx.stability.message), [];
      }
      var finalUrl := Persist(fx.storage, fx.stability.value, ProductStem(productId), now);
      table.Upsert(productId, finalUrl, now);
      return Success(finalUrl), [];
    }
    var clothInput := PrepareImage(ready.cloth, fx.convert);
    if clothInput.Failure? {
      return Failure(clothInput.message), [];
    }
    var humanInput := PrepareImage(ready.human, fx.convert);
    if humanInput.Failure? {
      return Failure(humanInput.message), [];
    }
    var outcome;
    outcome, requests := SendToViton(clothInput.value, humanInput.value, ready.product, ready.base, fx);
    if outcome.Failure? {
      return outcome, requests;
    }
    var finalUrl := Persist(fx.storage, outcome.value, ProductStem(productId), now);
    table.Upsert(productId, finalUrl, now);
    r := Success(finalUrl);
  }

  /** What `dressUserWithTryon` answers: for a belt, the inpainted image persisted under the
      customer's stem; else the garment photo's absence or conversion error, or the single
      VITON answer persisted under the customer's stem. */
  function UserDressOutcome(product: Option<ProductDetail>, humanUrl: string, customerId: Option<string>,
                            fx: TryonEffects, now: nat): (r: Result<string>)
    ensures product.None? ==> r == Failure("Product not found")
    ensures r.Success? ==>
              && product.Some?
              && exists answer :: r.value == Persist(fx.storage, answer, UserStem(customerId, product.value.productId), now)
  {
    if product.None? then Failure("Product not found")
    else
      var p := product.value;
      var stem := UserStem(customerId, p.productId);
      if IsBelt(p) then
        if fx.stability.Failure? then Failure(fx.stability.message)
        else Success(Persist(fx.storage, fx.stability.value, stem, now))
      else if ClothUrl(p) == "" then Failure(NoGarmentPhoto)
      else
        var cloth := PrepareImage(ClothUrl(p), fx.convert);
        if cloth.Failure? then Failure(cloth.message)
        else if fx.firstViton.Failure? then Failure(fx.firstViton.message)
        else Success(Persist(fx.storage, fx.firstViton.value, stem, now))
  }

  /** `dressUserWithTryon(product, humanUrl, customerId)`: the customer's own photo is sent
      unchanged, belts go to inpainting before the garment photo is even looked at, and a
      success appends one row owned by the customer. `request` is the VITON input sent. */
  method DressUserWithTryon(table: AiPhotoTable, product: Option<ProductDetail>, humanUrl: string,
                            customerId: Option<string>, fx: TryonEffects, now: nat)
    returns (r: Result<string>, request: Option<VitonRequest>)
    requires table.Valid()
    modifies table
    ensures table.Valid()
    ensures product.None? ==> r == Failure("Product not found")
    ensures (product.Some? && !IsBelt(product.value) && ClothUrl(product.value) == "")
              ==> r == Failure(NoGarmentPhoto) && request.None?
    ensures product.Some? && IsBelt(product.value) ==> request.None?
    ensures request.Some? ==> && product.Some?
                              && request.value.humanImg == humanUrl
                              && request.value.garmentDes == GarmentDesc(product.value)
                              && request.value.category == CategoryName(InferClothType(product.value))
    ensures r.Failure? ==> table.rows == old(table.rows) && table.nextId == old(table.nextId)
    ensures product.Some? && IsBelt(product.value) ==>
              r == if fx.stability.Failure? then Failure(fx.stability.message)
                   else Success(Persist(fx.storage, fx.stability.value, UserStem(customerId, product.value.productId), now))
    ensures product.Some? && !IsBelt(product.value) && ClothUrl(product.value) != "" ==>
              var p := product.value;
              var cloth := PrepareImage(ClothUrl(p), fx.convert);
              && (cloth.Failure? ==> r == Failure(cloth.message) && request.None?)
              && (cloth.Success? ==> request == Some(BuildRequest(humanUrl, cloth.value, InferClothType(p), GarmentDesc(p))))
              && (cloth.Success? && fx.firstViton.Failure? ==> r == fx.firstViton)
              && (cloth.Success? && fx.firstViton.Success? ==>
                    r == Success(Persist(fx.storage, fx.firstViton.value, UserStem(customerId, p.productId), now)))
    ensures r == UserDressOutcome(product, humanUrl, customerId, fx, now)
    ensures r.Success? ==> table.nextId == old(table.nextId) + 1
    ensures r.Success? ==> product.Some? &&
                           table.rows == old(table.rows) + [AiPhoto(old(table.nextId), customerId, Some(product.value.productId), r.value,
                                                       Some(if IsBelt(product.value) then "stability-user" else "viton-user"), now)]
  {
    request := None;
    if product.None? {
      return Failure("Product not found"), None;
    }
    var p := product.value;
    if IsBelt(p) {
      if fx.stability.Failure? {
        return Failure(fx.stability.message), None;
      }
      var finalUrl := Persist(fx.storage, fx.stability.value, UserStem(customerId, p.productId), now);
      table.InsertUserPhoto(p.productId, customerId, finalUrl, "stability-user", now);
      return Success(finalUrl), None;
    }
    var cloth := ClothUrl(p);
    if cloth == "" {
      return Failure(NoGarmentPhoto), None;
    }
    var clothInput := PrepareImage(cloth, fx.convert);
    if clothInput.Failure? {
      return Failure(clothInput.message), None;
    }
    request := Some(BuildRequest(humanUrl, clothInput.value, InferClothType(p), GarmentDesc(p)));
    var outcome := fx.firstViton;
    if outcome.Failure? {
      return outcome, request;
    }
    var finalUrl := Persist(fx.storage, outcome.value, UserStem(customerId, p.productId), now);
    table.InsertUserPhoto(p.productId, customerId, finalUrl, "viton-user", now);
    r := Success(finalUrl);
  }
}
