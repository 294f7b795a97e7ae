/** Value types and string helpers shared by every part of the storefront model:
    optional values, thrown errors, HTTP replies, JavaScript numbers and JSON
    scalars, and the handful of `String.prototype` operations the routes use.
    Throughout the model, long message texts are split into short literals joined with
    `+`, which keeps the verifier's work on them small; the joined text is the source's. */
module Common {

  datatype Option<T> = None | Some(value: T)

  /** The outcome of an async helper that either returns a value or throws an `Error`. */
  datatype Result<T> = Success(value: T) | Failure(message: string)

  /** An HTTP reply produced by `NextResponse.json`: a 200 body, or an error status and message. */
  datatype Reply<T> = Ok(body: T) | Fail(status: int, error: string)

  /** A JavaScript number. Only integral finite values are modelled. */
  datatype JsNum = NaN | PosInf | NegInf | Fin(n: int)

  /** A scalar read from a parsed JSON request body (`undefined` when the key is absent). */
  datatype Json = JUndefined | JNull | JBool(b: bool) | JNum(num: JsNum) | JStr(s: string) | JObject

  /** JavaScript truthiness of a number: `NaN` and `0` are falsy. */
  predicate NumTruthy(x: JsNum)
  {
    x != NaN && x != Fin(0)
  }

  /** JavaScript truthiness of a JSON value. */
  predicate Truthy(v: Json)
  {
    match v
    case JUndefined => false
    case JNull => false
    case JBool(b) => b
    case JNum(x) => NumTruthy(x)
    case JStr(s) => s != ""
    case JObject => true
  }

  /** `Number(v)` for a JSON scalar. */
  function ToNumber(v: Json): JsNum
  {
    match v
    case JUndefined => NaN
    case JNull => Fin(0)
    case JBool(b) => if b then Fin(1) else Fin(0)
    case JNum(x) => x
    case JStr(s) => ParseNumber(s)
    case JObject => NaN
  }

  /** `x || ""` for a nullable string. */
  function OrEmpty(x: Option<string>): string
  {
    if x.Some? then x.value else ""
  }

  /** `x || null` for a nullable string: the empty string becomes null. */
  function NullIfEmpty(x: Option<string>): (r: Option<string>)
    ensures r.Some? <==> OrEmpty(x) != ""
    ensures r.Some? ==> r == x
  {
    if OrEmpty(x) != "" then x else None
  }

  // ---------------------------------------------------------------------------
  // Substrings

  predicate StartsWith(s: string, prefix: string)
  {
    |prefix| <= |s| && s[..|prefix|] == prefix
  }

  /** `s.includes(sub)`. */
  predicate Contains(s: string, sub: string)
    decreases |s|
  {
    StartsWith(s, sub) || (|s| > 0 && Contains(s[1..], sub))
  }

  /** An occurrence of `sub` at position `i` makes `s` contain `sub`. */
  lemma {:induction false} ContainsAt(s: string, sub: string, i: nat)
    requires i + |sub| <= |s| && s[i..i + |sub|] == sub
    ensures Contains(s, sub)
  {
    if i == 0 {
      assert s[..|sub|] == sub;
    } else {
      assert s[1..][i - 1..i - 1 + |sub|] == sub;
      ContainsAt(s[1..], sub, i - 1);
    }
  }

  /** Every containment has a position. */
  lemma {:induction false} ContainsPosition(s: string, sub: string) returns (i: nat)
    requires Contains(s, sub)
    ensures i + |sub| <= |s| && s[i..i + |sub|] == sub
  {
    if StartsWith(s, sub) {
      i := 0;
    } else {
      var j := ContainsPosition(s[1..], sub);
      i := j + 1;
      assert s[i..i + |sub|] == s[1..][j..j + |sub|];
    }
  }

  /** Substring containment is transitive. */
  lemma ContainsTransitive(s: string, mid: string, sub: string)
    requires Contains(s, mid) && Contains(mid, sub)
    ensures Contains(s, sub)
  {
    var i := ContainsPosition(s, mid);
    var j := ContainsPosition(mid, sub);
    forall k | 0 <= k < |sub|
      ensures s[i + j + k] == sub[k]
    {
      assert s[i..i + |mid|][j + k] == mid[j + k];
      assert mid[j..j + |sub|][k] == mid[j + k];
    }
    assert s[i + j..i + j + |sub|] == sub;
    ContainsAt(s, sub, i + j);
  }

  /** A string containing "women" also contains "men". */
  lemma WomenContainsMen(s: string)
    requires Contains(s, "women")
    ensures Contains(s, "men")
  {
    ContainsAt("women", "men", 2);
    ContainsTransitive(s, "women", "men");
  }

  /** Containment survives adding text on either side. */
  lemma ContainsInConcat(a: string, b: string, sub: string)
    ensures Contains(a, sub) ==> Contains(a + b, sub)
    ensures Contains(b, sub) ==> Contains(a + b, sub)
  {
    if Contains(a, sub) {
      var i := ContainsPosition(a, sub);
      assert (a + b)[i..i + |sub|] == a[i..i + |sub|];
      ContainsAt(a + b, sub, i);
    }
    if Contains(b, sub) {
      var i := ContainsPosition(b, sub);
      assert (a + b)[|a| + i..|a| + i + |sub|] == b[i..i + |sub|];
      ContainsAt(a + b, sub, |a| + i);
    }
  }

  // ---------------------------------------------------------------------------
  // Case and whitespace

  /** `toLowerCase` on one character (ASCII letters only). */
  function LowerChar(c: char): char
  {
    if 'A' <= c <= 'Z' then (c as int + 32) as char else c
  }

  function Lower(s: string): (r: string)
    ensures |r| == |s|
    ensures forall i :: 0 <= i < |s| ==> r[i] == LowerChar(s[i])
  {
    seq(|s|, i requires 0 <= i < |s| => LowerChar(s[i]))
  }

  /** Lowercasing distributes over concatenation and is idempotent. */
  lemma LowerConcat(a: string, b: string)
    ensures Lower(a + b) == Lower(a) + Lower(b)
    ensures Lower(Lower(a)) == Lower(a)
  {
    assert Lower(a + b) == Lower(a) + Lower(b) by {
      forall i | 0 <= i < |a + b|
        ensures Lower(a + b)[i] == (Lower(a) + Lower(b))[i]
      {
        if i < |a| { assert (a + b)[i] == a[i]; } else { assert (a + b)[i] == b[i - |a|]; }
      }
    }
  }

  /** The characters `String.prototype.trim` removes (the ASCII and Latin-1 ones). */
  predicate IsSpace(c: char)
  {
    c == ' ' || c == '\t' || c == '\n' || c == '\r' || c == '\U{B}' || c == '\U{C}'
    || c == '\U{A0}' || c == '\U{FEFF}'
  }

  function TrimStart(s: string): (r: string)
    ensures |r| <= |s| && r == s[|s| - |r|..]
    ensures r == "" || !IsSpace(r[0])
    ensures forall i :: 0 <= i < |s| - |r| ==> IsSpace(s[i])
  {
    if s != [] && IsSpace(s[0]) then TrimStart(s[1..]) else s
  }

  function TrimEnd(s: string): (r: string)
    ensures |r| <= |s| && r == s[..|r|]
    ensures r == "" || !IsSpace(r[|r| - 1])
    ensures forall i :: |r| <= i < |s| ==> IsSpace(s[i])
  {
    if s != [] && IsSpace(s[|s| - 1]) then TrimEnd(s[..|s| - 1]) else s
  }

  /** `s.trim()`. */
  function Trim(s: string): string
  {
    TrimEnd(TrimStart(s))
  }

  /** A trimmed string is empty exactly when the input is all whitespace, and otherwise
      begins and ends with a non-space character. */
  lemma TrimProperties(s: string)
    ensures Trim(s) == "" <==> forall i :: 0 <= i < |s| ==> IsSpace(s[i])
    ensures Trim(s) != "" ==> !IsSpace(Trim(s)[0]) && !IsSpace(Trim(s)[|Trim(s)| - 1])
  {
    var t := TrimStart(s);
    if Trim(s) != "" {
      assert Trim(s)[0] == t[0];
      assert !IsSpace(s[|s| - |t|]);
    }
  }

  // ---------------------------------------------------------------------------
  // Joining

  /** `parts.filter(Boolean)` for strings: the non-empty parts, in order. */
  function NonEmpty(parts: seq<string>): (r: seq<string>)
    ensures forall x :: x in r <==> x in parts && x != ""
    ensures |r| <= |parts|
  {
    if parts == [] then []
    else (if parts[0] == "" then [] else [parts[0]]) + NonEmpty(parts[1..])
  }

  lemma {:induction false} NonEmptyAppend(a: seq<string>, b: seq<string>)
    ensures NonEmpty(a + b) == NonEmpty(a) + NonEmpty(b)
  {
    if a != [] {
      assert (a + b)[1..] == a[1..] + b;
      NonEmptyAppend(a[1..], b);
    } else {
      assert a + b == b;
    }
  }

  /** `parts.join(sep)`. */
  function Join(parts: seq<string>, sep: string): string
  {
    if parts == [] then ""
    else if |parts| == 1 then parts[0]
    else parts[0] + sep + Join(parts[1..], sep)
  }

  /** Joining a list that ends in `last` yields text ending in `last`, preceded by the
      separator whenever anything comes before it. */
  lemma {:induction false} JoinSnoc(parts: seq<string>, last: string, sep: string)
    ensures Join(parts + [last], sep) == if parts == [] then last else Join(parts, sep) + sep + last
  {
    if |parts| == 0 {
      assert parts + [last] == [last];
    } else if |parts| == 1 {
      assert parts + [last] == [parts[0], last];
      assert (parts + [last])[1..] == [last];
    } else {
      assert (parts + [last])[1..] == parts[1..] + [last];
      JoinSnoc(parts[1..], last, sep);
    }
  }

  // ---------------------------------------------------------------------------
  // Decimal numbers

  predicate IsDigit(c: char)
  {
    '0' <= c <= '9'
  }

  predicate AllDigits(s: string)
  {
    forall i :: 0 <= i < |s| ==> IsDigit(s[i])
  }

  function DigitChar(d: nat): char
    requires d < 10
  {
    ('0' as int + d) as char
  }

  /** The value of a string of decimal digits. */
  function DigitsValue(s: string): nat
    requires AllDigits(s)
  {
    if s == [] then 0
    else DigitsValue(s[..|s| - 1]) * 10 + (s[|s| - 1] as int - '0' as int)
  }

  /** `n.toString()` for a natural number. */
  function NatToString(n: nat): (r: string)
    ensures r != [] && AllDigits(r)
  {
    if n < 10 then [DigitChar(n)] else NatToString(n / 10) + [DigitChar(n % 10)]
  }

  /** Reading back the decimal rendering of `n` gives `n`. */
  lemma {:induction false} DigitsValueOfNatToString(n: nat)
    ensures DigitsValue(NatToString(n)) == n
  {
    var r := NatToString(n);
    if n >= 10 {
      assert r[..|r| - 1] == NatToString(n / 10);
      DigitsValueOfNatToString(n / 10);
    }
  }

  /** `Number(s)` for a string: surrounding whitespace is ignored, the empty string is 0,
      an optionally signed run of decimal digits is its value, `Infinity` is infinite,
      and anything else (fractions, exponents and hexadecimal are not modelled) is NaN. */
  function ParseNumber(s: string): JsNum
  {
    var t := Trim(s);
    if t == "" then Fin(0)
    else if t == "Infinity" || t == "+Infinity" then PosInf
    else if t == "-Infinity" then NegInf
    else if AllDigits(t) then Fin(DigitsValue(t))
    else if (t[0] == '-' || t[0] == '+') && |t| > 1 && AllDigits(t[1..]) then
      (var v: int := DigitsValue(t[1..]); if t[0] == '-' then Fin(-v) else Fin(v))
    else NaN
  }

  /** A non-empty run of digits has no surrounding whitespace. */
  lemma DigitsTrimmed(s: string)
    requires s != [] && AllDigits(s)
    ensures Trim(s) == s
  {
    assert IsDigit(s[0]) && IsDigit(s[|s| - 1]);
    assert TrimStart(s) == s;
  }

  /** `Number(String(n)) === n` for every natural number. */
  lemma ParseNumberOfNatToString(n: nat)
    ensures ParseNumber(NatToString(n)) == Fin(n)
  {
    var r := NatToString(n);
    DigitsTrimmed(r);
    assert IsDigit(r[0]);
    DigitsValueOfNatToString(n);
  }

  // ---------------------------------------------------------------------------
  // Uploaded files

  /** A file from a multipart form: its content (already base64-encoded) and its MIME type. */
  datatype FileUpload = FileUpload(base64: string, mime: string, size: nat)

  /** `file.type || 'image/png'`. */
  function ContentType(f: FileUpload): string
  {
    if f.mime != "" then f.mime else "image/png"
  }

  /** jpg when the content type mentions jpeg or jpg, else png. */
  function ExtFor(contentType: string): (r: string)
    ensures r in {"jpg", "png"}
    ensures r == "jpg" <==> Contains(contentType, "jpeg") || Contains(contentType, "jpg")
  {
    if Contains(contentType, "jpeg") || Contains(contentType, "jpg") then "jpg" else "png"
  }

  /** The object key `<prefix><now>.<ext>` a photo of type `contentType` is stored under at
      time `now`: the prefix, then the time in decimal, which reads back as `now`, then a dot
      and the extension `ExtFor(contentType)`. */
  function TimedKey(prefix: string, now: nat, contentType: string): (k: string)
    ensures |k| > |prefix| + 4 && k[..|prefix|] == prefix
    ensures k[|prefix|..|k| - 4] == NatToString(now)
    ensures k[|k| - 4] == '.' && k[|k| - 3..] == ExtFor(contentType)
  {
    KeyParts(prefix, NatToString(now), ExtFor(contentType));
    prefix + NatToString(now) + "." + ExtFor(contentType)
  }

  /** The time can be read back from a key: `Number` of the part between the prefix and the
      extension is `now`. */
  lemma TimedKeyTime(prefix: string, now: nat, contentType: string)
    ensures var k := TimedKey(prefix, now, contentType);
            ParseNumber(k[|prefix|..|k| - 4]) == Fin(now)
  {
    ParseNumberOfNatToString(now);
  }

  /** How `prefix + stamp + "." + ext` splits back into its parts. */
  lemma KeyParts(prefix: string, stamp: string, ext: string)
    requires |ext| == 3
    ensures var k := prefix + stamp + "." + ext;
            |k| == |prefix| + |stamp| + 4 && k[..|prefix|] == prefix && k[|prefix|..|k| - 4] == stamp
            && k[|k| - 4] == '.' && k[|k| - 3..] == ext
  {
  }

  /** The key a customer's own photo is stored under: `user-uploads/<customer>-<now>.<ext>`. */
  function UserUploadKey(customerId: string, now: nat, file: FileUpload): (k: string)
    ensures StartsWith(k, "user-uploads/" + customerId + "-") && |k| > |customerId| + 18
    ensures k[|customerId| + 14..|k| - 4] == NatToString(now)
    ensures k[|k| - 4] == '.' && k[|k| - 3..] == ExtFor(ContentType(file))
  {
    var prefix := "user-uploads/" + customerId + "-";
    assert |prefix| == |customerId| + 14;
    TimedKey(prefix, now, ContentType(file))
  }

  /** `data:<type>;base64,<payload>` (RFC 2397). */
  function DataUrl(contentType: string, b64: string): string
  {
    "data:" + contentType + ";base64," + b64
  }

  /** The result of fetching an image: its bytes and its content type ('image/png' when
      the response has none). */
  datatype Fetched = Fetched(bytes: string, contentType: string)

  /** Object storage: absent, or a bucket with the fetch of a source URL and the upload
      of a payload under a key, each of which may fail. */
  datatype Storage = NoStorage | Bucket(fetch: string -> Result<Fetched>, put: (string, string) -> Result<string>)
}
