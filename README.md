# Lead capture and WhatsApp photo routes, modelled in Dafny

This project models the two HTTP route handlers of a Next.js web application
backend:

- `POST /api/subscribe` takes a lead's `userEmail` and `phoneNumber`. It checks
  that both are present and that the CRM settings (base URL, API token, tag id)
  are configured. It then creates the contact in an external CRM and tags it.
  Each failure point ends the request with a fixed status and message. A
  contact that was created but could not be tagged is not rolled back.
- `POST /api/whatsapp-photo` takes a `phone` and strips everything but its
  digits. It puts the country code `55` in front of numbers of 11 or more digits
  that lack it, then asks an external lookup service for the number's WhatsApp
  profile picture. Every answer except the one for a missing phone has status
  200 and the shape `{ success, result, is_photo_private }`. Any failure falls
  back to a fixed avatar. `OPTIONS /api/whatsapp-photo` answers CORS pre-flight
  requests.

Both handlers are pure request-to-response mappings, so they are modelled as
functions over datatypes, with lemmas.

- Outbound `fetch` calls are not performed. Each handler takes the outcome of
  each call as a parameter (`Http.Fetched`: it threw, or it answered with an
  `ok` flag and a body).
- Each handler returns the calls it issued, in order, together with its reply.
  This makes statements like "no call on invalid input" and "the tag call is
  never issued after a failed create" provable.

Files:

- `js.dfy` (module `Js`): parsed JSON values, JavaScript truthiness, and
  property access with `.` (which throws on `null`/`undefined`) and with `?.`.
- `http.dfy` (module `Http`): the response, the outcome of reading a JSON body,
  and the outcome of a `fetch`.
- `whatsapp_photo.dfy` (module `WhatsappPhoto`): phone normalisation, the
  photo POST handler and the OPTIONS handler.
- `subscribe.dfy` (module `Subscribe`): the subscribe POST handler.

Behaviour of the code worth knowing, each stated by the members named:

- A cleaned number of fewer than 11 digits that does not start with `55` is
  sent without the country code (app/api/whatsapp-photo/route.ts:40;
  `WhatsappPhoto.NormalizeLeavesShortNumbers`, `WhatsappPhoto.NormalizeShortExample`).
  Only numbers of at least 11 digits are guaranteed to begin with `55`.
- A create-contact response that is ok but whose body cannot be read, or has
  no `contact`, makes `contactData.contact.id` throw
  (app/api/subscribe/route.ts:47-48). The handler then answers the same generic
  500 as for a failed create, and the tag call is not issued (`Subscribe.PostCreateFails`).
- The subscribe handler reads and destructures the request body before its
  `try` (app/api/subscribe/route.ts:7). An unreadable or `null` body therefore
  makes the handler reject instead of answering (`Subscribe.PostRejects`). In
  the photo handler the same step is inside the `try`
  (app/api/whatsapp-photo/route.ts:12-13) and ends in the fallback answer
  (`WhatsappPhoto.PostFallback`).

## Model

| member | source | states |
|---|---|---|
| `Js.Member` | app/api/whatsapp-photo/route.ts:13 | reading a property (`.` or destructuring) throws exactly on `null` or `undefined`. Otherwise it gives the object's field, or `undefined` when there is no such field |
| `Js.OptionalMember` | app/api/whatsapp-photo/route.ts:72 | `?.` never throws: it gives what `.` gives, and `undefined` where `.` would throw |
| `WhatsappPhoto.Clean` | app/api/whatsapp-photo/route.ts:38 | the cleaned phone holds only the characters `0`–`9` and is no longer than the input |
| `WhatsappPhoto.CleanConcat` | app/api/whatsapp-photo/route.ts:38 | cleaning a concatenation is the concatenation of the cleaned parts, so the digits keep their order |
| `WhatsappPhoto.CleanCount` | app/api/whatsapp-photo/route.ts:38 | each digit occurs in the cleaned phone exactly as often as in the input; no other character occurs |
| `WhatsappPhoto.CleanOfDigits` | app/api/whatsapp-photo/route.ts:38 | a string made only of digits is unchanged by cleaning |
| `WhatsappPhoto.Normalize` | app/api/whatsapp-photo/route.ts:38-42 | the number sent is all digits, ends with the cleaned digits, and is as long as them or two longer |
| `WhatsappPhoto.NormalizeKeepsCountryCode` | app/api/whatsapp-photo/route.ts:39-40 | cleaned digits that already start with `55` are sent unchanged |
| `WhatsappPhoto.NormalizeAddsCountryCode` | app/api/whatsapp-photo/route.ts:40-41 | cleaned digits without `55` and at least 11 long are sent as `55` followed by them, which then starts with `55` |
| `WhatsappPhoto.NormalizeLeavesShortNumbers` | app/api/whatsapp-photo/route.ts:39-42 | cleaned digits without `55` and under 11 long are sent unchanged, still without the country code |
| `WhatsappPhoto.NormalizeIdempotent` | app/api/whatsapp-photo/route.ts:38-42 | normalising an already normalised number returns it unchanged |
| `WhatsappPhoto.NormalizeOfDigits` | app/api/whatsapp-photo/route.ts:39-42 | on a string of digits, normalisation only decides whether to add `55`, by the prefix and length rule |
| `WhatsappPhoto.CleanMobileExample` | app/api/whatsapp-photo/route.ts:38 | `11987654321` has nothing to remove |
| `WhatsappPhoto.NormalizeMobileExample` | app/api/whatsapp-photo/route.ts:38-42 | `11987654321` is sent as `5511987654321` |
| `WhatsappPhoto.NormalizePrefixedExample` | app/api/whatsapp-photo/route.ts:38-42 | `5511987654321` is sent unchanged |
| `WhatsappPhoto.NormalizeShortExample` | app/api/whatsapp-photo/route.ts:38-42 | the 9-digit `987654321` is sent unchanged |
| `WhatsappPhoto.HasPhoto` | app/api/whatsapp-photo/route.ts:72 | the lookup answer reports a photo iff it is an object whose `exists` is the boolean `true` and whose `profile_picture_url` is present and truthy |
| `WhatsappPhoto.LookupResponse` | app/api/whatsapp-photo/route.ts:57-93 | every outcome of an issued lookup gives status 200, the CORS header and a `{success: true, result, is_photo_private}` body. `is_photo_private` is false iff the lookup came back ok, readable, with a photo; `result` is then that photo's URL. A private answer is exactly the fallback answer |
| `WhatsappPhoto.Post` | app/api/whatsapp-photo/route.ts:11-94 | every POST answer carries exactly the CORS header and has status 200 or 400. A 400 is the missing-phone answer with no lookup issued. A 200 has the `{success: true, result, is_photo_private}` shape |
| `WhatsappPhoto.Options` | app/api/whatsapp-photo/route.ts:96-105 | the pre-flight answer has status 200 and no body. Its headers are exactly `Access-Control-Allow-Origin: *`, `Access-Control-Allow-Methods: POST, OPTIONS` and `Access-Control-Allow-Headers: Content-Type` |
| `WhatsappPhoto.PostMissingPhone` | app/api/whatsapp-photo/route.ts:13-23 | the answer is 400 exactly when the readable body's `phone` is falsy. It is then `{success: false, error: "Número de telefone é obrigatório"}` and no lookup is issued |
| `WhatsappPhoto.PostLookupIssued` | app/api/whatsapp-photo/route.ts:26-57 | the lookup is issued exactly when `phone` is a non-empty string and the API key is set. It carries the normalised number and that key |
| `WhatsappPhoto.PostFallback` | app/api/whatsapp-photo/route.ts:12-93 | each of these gives exactly the fallback answer (200, `fallbackPayload`, CORS): an unreadable body, a missing key, a non-string phone, a lookup that throws or is not ok, an unreadable lookup body, or no photo |
| `WhatsappPhoto.PostPhotoFound` | app/api/whatsapp-photo/route.ts:72-79 | on a 200, `is_photo_private` is false iff the lookup was issued, came back ok, and has `exists === true` and a truthy URL. `result` is then that URL, and otherwise the fallback avatar |
| `WhatsappPhoto.CorsAlwaysAllowed` | app/api/whatsapp-photo/route.ts:11-104 | every POST answer and the OPTIONS answer carry `Access-Control-Allow-Origin: *` |
| `Subscribe.ContactId` | app/api/subscribe/route.ts:47-48 | the contact id can be read iff the create body is readable and neither it nor its `contact` is null or undefined. It is then `contact.id`, which may be undefined |
| `Subscribe.CreateAndTag` | app/api/subscribe/route.ts:24-76 | one or two calls are issued, create first. Tag follows iff create succeeded with a readable id. Success iff both calls were issued and tag succeeded, else the generic 500 |
| `Subscribe.Post` | app/api/subscribe/route.ts:5-77 | at most two calls; a rejected handler has issued none; every answer has status 200, 400 or 500 |
| `Subscribe.PostRejects` | app/api/subscribe/route.ts:7 | the handler rejects exactly when the body cannot be read or is null, and then it has issued no call |
| `Subscribe.PostFieldsRequired` | app/api/subscribe/route.ts:10-12 | a falsy email or phone gives 400 `{error: "Email and phone are required"}` and no call, whatever the configuration |
| `Subscribe.PostConfigError` | app/api/subscribe/route.ts:15-22 | with both fields present, a missing URL, token or tag id gives 500 `{error: "Server configuration error."}` and no call |
| `Subscribe.PostCreatesFirst` | app/api/subscribe/route.ts:26-39 | calls are issued iff fields and configuration are in order. The first call creates the contact at `URL + "/api/3/contacts"` with the given email, the given phone and status 1 |
| `Subscribe.PostCreateFails` | app/api/subscribe/route.ts:41-48 | if create throws, is not ok or has no readable contact, the only call is the create, and the answer is 500 `{error: "Could not subscribe user."}` |
| `Subscribe.PostTagsCreatedContact` | app/api/subscribe/route.ts:47-63 | after a successful create, the second call tags the reported contact id with the configured tag at `URL + "/api/3/contactTags"` |
| `Subscribe.PostTagFails` | app/api/subscribe/route.ts:65-76 | a failed tag call gives the generic 500 after exactly the create and tag calls; nothing rolls the contact back |
| `Subscribe.PostSucceeds` | app/api/subscribe/route.ts:24-76 | the answer is 200 `{success: true}` iff fields and configuration are in order and both calls succeed. Only the first call ever creates a contact |

## Left out

- `fetch`, the network, and the 10-second `AbortSignal.timeout` of the lookup. Each call is a supplied outcome; a timeout is the outcome "threw".
- The behaviour of the CRM and of the lookup service themselves.
- `request.json()` and `response.json()` parsing. A body is either unreadable or a parsed value. The body of a non-ok response is never modelled: the handlers fail the same way whether or not reading it throws.
- JSON numbers are integers in `Js.Value`; fractional numbers and `NaN` are not modelled. These values only decide truthiness, or are passed through unchanged.
- Property access (`Js.Member`) reads an object's own fields only. Built-in properties such as `length` are not modelled; none of the keys the handlers read is one.
- The lookup URL and its query string, and the `x-rapidapi-host` header. `WhatsappPhoto.LookupCall` records the number and the API key that are sent.
- The `Content-Type` headers that `fetch` calls and `NextResponse.json` add, and the request method names.
- `process.env`: each variable is an optional string input, unset or empty meaning missing.
- `console.error` logging.
- The framework's own answer when the subscribe handler rejects (`Subscribe.Reply.Rejected`).
- The regular expression `/[^0-9]/g` is modelled as a filter that keeps the characters `0`–`9`.
