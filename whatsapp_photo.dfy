/**
 * The profile-photo route (`app/api/whatsapp-photo/route.ts`): a POST handler
 * that normalises a phone number, asks an external lookup service for the
 * WhatsApp profile picture of that number, and answers with either the photo
 * URL or a fixed avatar; and an OPTIONS handler for CORS pre-flight requests.
 *
 * The lookup is not performed here: its outcome is a parameter of `Post`, and
 * `Post` reports the call it issued (if any) beside the response.
 */
module WhatsappPhoto {
  import opened Js
  import opened Http

  // ---------------------------------------------------------------------------
  // Phone normalisation
  // ---------------------------------------------------------------------------

  predicate IsDigit(c: char)
  {
    '0' <= c <= '9'
  }

  predicate AllDigits(s: string)
  {
    forall i :: 0 <= i < |s| ==> IsDigit(s[i])
  }

  /** The country calling code the lookup service expects in front of a number. */
  const CountryCode: string := "55"

  /** Whether `s` already begins with the country code. */
  predicate HasCountryCode(s: string)
  {
    |s| >= |CountryCode| && s[..|CountryCode|] == CountryCode
  }

  /** The shortest cleaned number that gets the country code put in front. */
  const MinLengthForPrefix: nat := 11

  /** `phone.replace(/[^0-9]/g, "")`: every character that is not an ASCII digit removed. */
  function Clean(s: string): (r: string)
    ensures AllDigits(r)
    ensures |r| <= |s|
  {
    if s == [] then []
    else (if IsDigit(s[0]) then [s[0]] else []) + Clean(s[1..])
  }

  /** The number sent to the lookup service: the cleaned digits, with the
      country code put in front when they do not start with it already and
      there are at least eleven of them. */
  function Normalize(phone: string): (r: string)
    ensures AllDigits(r)
    ensures |r| == |Clean(phone)| || |r| == |Clean(phone)| + |CountryCode|
    ensures r[|r| - |Clean(phone)|..] == Clean(phone)
  {
    var clean := Clean(phone);
    if !HasCountryCode(clean) && |clean| >= MinLengthForPrefix then CountryCode + clean else clean
  }

  /** Cleaning works character by character, so it keeps the order of the digits. */
  lemma {:induction false} CleanConcat(a: string, b: string)
    ensures Clean(a + b) == Clean(a) + Clean(b)
  {
    if a == [] {
      assert a + b == b;
    } else {
      assert (a + b)[0] == a[0];
      assert (a + b)[1..] == a[1..] + b;
      CleanConcat(a[1..], b);
    }
  }

  /** Every digit of the input survives cleaning as often as it occurs, and no
      other character does. */
  lemma {:induction false} CleanCount(s: string, c: char)
    ensures multiset(Clean(s))[c] == if IsDigit(c) then multiset(s)[c] else 0
  {
    if s != [] {
      CleanCount(s[1..], c);
      assert s == [s[0]] + s[1..];
      assert multiset(s) == multiset([s[0]]) + multiset(s[1..]);
    }
  }

  /** Cleaning leaves a string of digits unchanged. */
  lemma {:induction false} CleanOfDigits(s: string)
    requires AllDigits(s)
    ensures Clean(s) == s
  {
    if s != [] {
      assert AllDigits(s[1..]) by {
        forall i | 0 <= i < |s[1..]| ensures IsDigit(s[1..][i]) {
          assert s[1..][i] == s[i + 1];
        }
      }
      CleanOfDigits(s[1..]);
    }
  }

  /** Digits that already start with the country code are sent as they are. */
  lemma NormalizeKeepsCountryCode(phone: string)
    requires HasCountryCode(Clean(phone))
    ensures Normalize(phone) == Clean(phone)
  {
  }

  /** Eleven or more digits without the country code get it put in front. */
  lemma NormalizeAddsCountryCode(phone: string)
    requires !HasCountryCode(Clean(phone)) && |Clean(phone)| >= MinLengthForPrefix
    ensures Normalize(phone) == CountryCode + Clean(phone)
    ensures HasCountryCode(Normalize(phone))
  {
  }

  /** Fewer than eleven digits without the country code are sent as they are. */
  lemma NormalizeLeavesShortNumbers(phone: string)
    requires !HasCountryCode(Clean(phone)) && |Clean(phone)| < MinLengthForPrefix
    ensures Normalize(phone) == Clean(phone)
    ensures !HasCountryCode(Normalize(phone))
  {
  }

  /** Normalising a normalised number changes nothing. */
  lemma NormalizeIdempotent(phone: string)
    ensures Normalize(Normalize(phone)) == Normalize(phone)
  {
    var n := Normalize(phone);
    CleanOfDigits(n);
    if n != Clean(phone) {
      assert n[..|CountryCode|] == CountryCode;
    }
  }

  /** On a string of digits, normalisation only decides about the country code. */
  lemma NormalizeOfDigits(d: string)
    requires AllDigits(d)
    ensures !HasCountryCode(d) && |d| >= MinLengthForPrefix ==> Normalize(d) == CountryCode + d
    ensures HasCountryCode(d) || |d| < MinLengthForPrefix ==> Normalize(d) == d
  {
    CleanOfDigits(d);
  }

  /** The digits of the mobile number in the examples below. */
  lemma CleanMobileExample()
    ensures Clean("11987654321") == "11987654321"
  {
    CleanOfDigits("11987654321");
  }

  /** A mobile number with area code gets the country code. */
  lemma NormalizeMobileExample()
    ensures Normalize("11987654321") == "55" + "11987654321"
  {
    CleanMobileExample();
    assert "11987654321"[..2][0] == '1';
    NormalizeAddsCountryCode("11987654321");
  }

  /** The same number with the country code already in front is sent as it is. */
  lemma NormalizePrefixedExample()
    ensures Normalize("5511987654321") == "5511987654321"
  {
    var d := "5511987654321";
    assert d[..2] == CountryCode;
    NormalizeOfDigits(d);
  }

  /** A number without area code is too short to be given the country code. */
  lemma NormalizeShortExample()
    ensures Normalize("987654321") == "987654321"
  {
    NormalizeOfDigits("987654321");
  }

  // ---------------------------------------------------------------------------
  // Responses
  // ---------------------------------------------------------------------------

  const FallbackPhotoUrl: string :=
    "https://media.istockphoto.com/id/1337144146/vector/default-avatar-profile-icon-vector.jpg?s=612x612&w=0&k=20&c=BIbFwuv7FxTWvh5S3vB6bkT0Qv8Vn8N5Ffseq84ClGI="

  const AllowOrigin: string := "Access-Control-Allow-Origin"
  const AllowMethods: string := "Access-Control-Allow-Methods"
  const AllowHeaders: string := "Access-Control-Allow-Headers"

  /** The only header the POST handler sets. */
  const CorsHeaders: map<string, string> := map[AllowOrigin := "*"]

  const MissingPhoneMessage: string := "Número de telefone é obrigatório"

  /** The body of every answer other than the missing-phone one. */
  function PhotoPayload(result: Value, isPhotoPrivate: bool): Value
  {
    Obj(map["success" := Bool(true), "result" := result, "is_photo_private" := Bool(isPhotoPrivate)])
  }

  /** `fallbackPayload`: the generic avatar, marked private. */
  const FallbackPayload: Value := PhotoPayload(Str(FallbackPhotoUrl), true)

  const FallbackResponse: Response := Json(FallbackPayload, 200, CorsHeaders)

  const MissingPhoneResponse: Response :=
    Json(Obj(map["success" := Bool(false), "error" := Str(MissingPhoneMessage)]), 400, CorsHeaders)

  /** A body with exactly the fields `success: true`, `result` and a boolean `is_photo_private`. */
  predicate IsPhotoPayload(body: Option<Value>)
  {
    && body.Some? && body.value.Obj?
    && body.value.fields.Keys == {"success", "result", "is_photo_private"}
    && body.value.fields["success"] == Bool(true)
    && body.value.fields["is_photo_private"].Bool?
  }

  /** The request sent to the lookup service: the number in the query string
      and the API key in a header. */
  datatype LookupCall = LookupCall(number: string, apiKey: string)

  /** One run of the POST handler: the lookup it issued, if any, and its answer. */
  datatype Run = Run(lookup: Option<LookupCall>, response: Response)

  /** Whether a parsed lookup answer reports a photo: `data?.exists === true`
      and a truthy `data?.profile_picture_url`. */
  predicate HasPhoto(data: Value): (has: bool)
    ensures has <==> && data.Obj?
                     && "exists" in data.fields && data.fields["exists"] == Bool(true)
                     && "profile_picture_url" in data.fields && Truthy(data.fields["profile_picture_url"])
  {
    OptionalMember(data, "exists") == Bool(true) && Truthy(OptionalMember(data, "profile_picture_url"))
  }

  /** The answer built from the lookup's outcome, once the lookup has been issued. */
  function LookupResponse(lookup: Fetched): (r: Response)
    ensures r.status == 200 && r.headers == CorsHeaders && IsPhotoPayload(r.body)
    ensures r.body.value.fields["is_photo_private"] == Bool(false)
        <==> Succeeded(lookup) && lookup.body.Parsed? && HasPhoto(lookup.body.value)
    ensures r.body.value.fields["is_photo_private"] == Bool(false) ==>
              r.body.value.fields["result"] == OptionalMember(lookup.body.value, "profile_picture_url")
    ensures r.body.value.fields["is_photo_private"] == Bool(true) ==> r == FallbackResponse
  {
    match lookup
    case Threw => FallbackResponse
    case Answered(ok, body) =>
      if !ok then FallbackResponse
      else match body
        case Unreadable => FallbackResponse
        case Parsed(data) =>
          var isPhotoPrivate := !HasPhoto(data);
          Json(PhotoPayload(if isPhotoPrivate then Str(FallbackPhotoUrl) else OptionalMember(data, "profile_picture_url"),
                            isPhotoPrivate),
               200, CorsHeaders)
  }

  /** `POST /api/whatsapp-photo`. `request` is the request body as `request.json()`
      reads it, `apiKey` is `process.env.RAPIDAPI_KEY`, and `lookup` is what the
      lookup `fetch` yields if it is issued. */
  function Post(request: Parsed, apiKey: Option<string>, lookup: Fetched): (run: Run)
    ensures run.response.headers == CorsHeaders
    ensures run.response.status == 400 || run.response.status == 200
    ensures run.response.status == 400 ==> run.response == MissingPhoneResponse && run.lookup.None?
    ensures run.response.status == 200 ==> IsPhotoPayload(run.response.body)
  {
    match request
    case Unreadable => Run(None, FallbackResponse)
    case Parsed(body) =>
      match Member(body, "phone")
      case None => Run(None, FallbackResponse)
      case Some(phone) =>
        if !Truthy(phone) then Run(None, MissingPhoneResponse)
        else if !IsSet(apiKey) then Run(None, FallbackResponse)
        else if !phone.Str? then Run(None, FallbackResponse)
        else Run(Some(LookupCall(Normalize(phone.s), apiKey.value)), LookupResponse(lookup))
  }

  /** `OPTIONS /api/whatsapp-photo`: the pre-flight answer, with no body. It
      allows every origin, the two methods the route serves, and a JSON
      `Content-Type` request header, and sets nothing else. */
  function Options(): (r: Response)
    ensures r.status == 200 && r.body.None?
    ensures r.headers.Keys == {AllowOrigin, AllowMethods, AllowHeaders}
    ensures r.headers[AllowOrigin] == "*"
    ensures r.headers[AllowMethods] == "POST, OPTIONS"
    ensures r.headers[AllowHeaders] == "Content-Type"
  {
    Response(200, None, map[AllowOrigin := "*", AllowMethods := "POST, OPTIONS", AllowHeaders := "Content-Type"])
  }

  // ---------------------------------------------------------------------------
  // Properties of the POST handler
  // ---------------------------------------------------------------------------

  /** The value of the request's `phone` field, when the body can be destructured. */
  function PhoneField(request: Parsed): Option<Value>
  {
    if request.Parsed? then Member(request.value, "phone") else None
  }

  /** A missing or falsy phone is answered with 400 before anything else
      happens, and exactly then. */
  lemma PostMissingPhone(request: Parsed, apiKey: Option<string>, lookup: Fetched)
    ensures Post(request, apiKey, lookup).response.status == 400
        <==> PhoneField(request).Some? && !Truthy(PhoneField(request).value)
    ensures Post(request, apiKey, lookup).response.status == 400 ==>
              Post(request, apiKey, lookup) == Run(None, MissingPhoneResponse)
  {
  }

  /** The lookup is issued exactly when the phone is a non-empty string and the
      API key is set, and then with the normalised number and that key. */
  lemma PostLookupIssued(request: Parsed, apiKey: Option<string>, lookup: Fetched)
    ensures Post(request, apiKey, lookup).lookup.Some?
        <==> PhoneField(request).Some? && PhoneField(request).value.Str?
             && PhoneField(request).value.s != "" && IsSet(apiKey)
    ensures Post(request, apiKey, lookup).lookup.Some? ==>
              Post(request, apiKey, lookup).lookup.value
              == LookupCall(Normalize(PhoneField(request).value.s), apiKey.value)
  {
  }

  /** An unreadable body, a missing API key, a phone that is not a string, or a
      lookup that throws, is not ok, answers unreadably or reports no photo all
      end in exactly the fallback answer. */
  lemma PostFallback(request: Parsed, apiKey: Option<string>, lookup: Fetched)
    requires PhoneField(request).None?
          || (Truthy(PhoneField(request).value) && !IsSet(apiKey))
          || (Truthy(PhoneField(request).value) && !PhoneField(request).value.Str?)
          || (Truthy(PhoneField(request).value) && IsSet(apiKey)
              && (lookup.Threw? || !lookup.ok || lookup.body.Unreadable? || !HasPhoto(lookup.body.value)))
    ensures Post(request, apiKey, lookup).response == FallbackResponse
  {
  }

  /** The photo is reported as not private exactly when the lookup was issued
      and came back ok, readable, with `exists === true` and a truthy URL; the
      result is then that URL and otherwise the fallback avatar. */
  lemma PostPhotoFound(request: Parsed, apiKey: Option<string>, lookup: Fetched)
    requires Post(request, apiKey, lookup).response.status == 200
    ensures var body := Post(request, apiKey, lookup).response.body.value.fields;
            && (body["is_photo_private"] == Bool(false)
                <==> Post(request, apiKey, lookup).lookup.Some? && Succeeded(lookup)
                     && lookup.body.Parsed? && HasPhoto(lookup.body.value))
            && (body["is_photo_private"] == Bool(false) ==>
                  body["result"] == OptionalMember(lookup.body.value, "profile_picture_url"))
            && (body["is_photo_private"] == Bool(true) ==> body["result"] == Str(FallbackPhotoUrl))
  {
  }

  /** Every answer of the route, from either handler, allows every origin. */
  lemma CorsAlwaysAllowed(request: Parsed, apiKey: Option<string>, lookup: Fetched)
    ensures AllowOrigin in Post(request, apiKey, lookup).response.headers
    ensures Post(request, apiKey, lookup).response.headers[AllowOrigin] == "*"
    ensures AllowOrigin in Options().headers && Options().headers[AllowOrigin] == "*"
  {
  }
}
