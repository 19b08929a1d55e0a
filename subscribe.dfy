/**
 * The lead-subscription route (`app/api/subscribe/route.ts`): a POST handler
 * that checks the form fields and the CRM configuration, creates a contact in
 * the CRM and then tags it.
 *
 * The two CRM calls are not performed here: their outcomes are parameters of
 * `Post`, and `Post` reports the calls it issued, in order, beside its reply.
 */
module Subscribe {
  import opened Js
  import opened Http

  const ContactsPath: string := "/api/3/contacts"
  const ContactTagsPath: string := "/api/3/contactTags"

  /** The CRM status code of an active (subscribed) contact. */
  const ActiveStatus: int := 1

  const FieldsRequiredMessage: string := "Email and phone are required"
  const ConfigErrorMessage: string := "Server configuration error."
  const SubscribeFailedMessage: string := "Could not subscribe user."

  /** The CRM settings read from the environment: base URL, API token, tag id. */
  datatype Config = Config(apiUrl: Option<string>, apiToken: Option<string>, tagId: Option<string>)

  predicate Configured(config: Config)
  {
    IsSet(config.apiUrl) && IsSet(config.apiToken) && IsSet(config.tagId)
  }

  /** An outbound CRM request: create a contact with the given email, phone and
      status; or attach a tag to a contact id (an absent id is `Undefined`). */
  datatype Call =
    | CreateContact(url: string, apiToken: string, email: Value, phone: Value, status: int)
    | TagContact(url: string, apiToken: string, contact: Value, tag: string)

  /** What the handler does with the request: it answers, or its promise
      rejects (the framework then answers on its behalf). */
  datatype Reply = Rejected | Sent(response: Response)

  /** One run of the handler: the CRM calls it issued, in order, and its reply. */
  datatype Run = Run(calls: seq<Call>, reply: Reply)

  function ErrorReply(message: string, status: int): Reply
  {
    Sent(Json(Obj(map["error" := Str(message)]), status, map[]))
  }

  const SuccessReply: Reply := Sent(Json(Obj(map["success" := Bool(true)]), 200, map[]))

  /** `contactData.contact.id` read from the create response's body: `None`
      when reading the body or either property access throws. */
  function ContactId(body: Parsed): (id: Option<Value>)
    ensures id.Some? <==> body.Parsed? && !Nullish(body.value) && !Nullish(OptionalMember(body.value, "contact"))
    ensures id.Some? ==> id.value == OptionalMember(OptionalMember(body.value, "contact"), "id")
  {
    match body
    case Unreadable => None
    case Parsed(data) =>
      match Member(data, "contact")
      case None => None
      case Some(contact) => Member(contact, "id")
  }

  /** The CRM calls, once the fields and the configuration have been checked. */
  function CreateAndTag(email: Value, phone: Value, url: string, token: string, tagId: string,
                        create: Fetched, tag: Fetched): (run: Run)
    ensures 1 <= |run.calls| <= 2
    ensures run.calls[0] == CreateContact(url + ContactsPath, token, email, phone, ActiveStatus)
    ensures |run.calls| == 2 <==> Succeeded(create) && ContactId(create.body).Some?
    ensures |run.calls| == 2 ==> run.calls[1] == TagContact(url + ContactTagsPath, token, ContactId(create.body).value, tagId)
    ensures run.reply == SuccessReply <==> |run.calls| == 2 && Succeeded(tag)
    ensures run.reply != SuccessReply ==> run.reply == ErrorReply(SubscribeFailedMessage, 500)
  {
    var createCall := CreateContact(url + ContactsPath, token, email, phone, ActiveStatus);
    if !Succeeded(create) then Run([createCall], ErrorReply(SubscribeFailedMessage, 500))
    else match ContactId(create.body)
      case None => Run([createCall], ErrorReply(SubscribeFailedMessage, 500))
      case Some(id) =>
        var tagCall := TagContact(url + ContactTagsPath, token, id, tagId);
        if !Succeeded(tag) then Run([createCall, tagCall], ErrorReply(SubscribeFailedMessage, 500))
        else Run([createCall, tagCall], SuccessReply)
  }

  /** `POST /api/subscribe`. `request` is the request body as `request.json()`
      reads it, `config` the environment, and `create` and `tag` what the two
      CRM `fetch`es yield if they are issued. */
  function Post(request: Parsed, config: Config, create: Fetched, tag: Fetched): (run: Run)
    ensures |run.calls| <= 2
    ensures run.reply.Rejected? ==> run.calls == []
    ensures run.reply.Sent? ==> run.reply.response.status in {200, 400, 500}
  {
    match request
    case Unreadable => Run([], Rejected)
    case Parsed(body) =>
      match Member(body, "userEmail")
      case None => Run([], Rejected)
      case Some(email) =>
        var phone := Member(body, "phoneNumber").value;
        if !Truthy(email) || !Truthy(phone) then Run([], ErrorReply(FieldsRequiredMessage, 400))
        else if !Configured(config) then Run([], ErrorReply(ConfigErrorMessage, 500))
        else CreateAndTag(email, phone, config.apiUrl.value, config.apiToken.value, config.tagId.value, create, tag)
  }

  // ---------------------------------------------------------------------------
  // Properties of the handler
  // ---------------------------------------------------------------------------

  /** The body as destructured by `const { userEmail, phoneNumber } = …`. */
  predicate Destructurable(request: Parsed)
  {
    request.Parsed? && !Nullish(request.value)
  }

  /** Whether both form fields are present and truthy. */
  predicate FieldsPresent(request: Parsed)
    requires Destructurable(request)
  {
    Truthy(Member(request.value, "userEmail").value) && Truthy(Member(request.value, "phoneNumber").value)
  }

  /** A body that cannot be read or destructured makes the handler reject,
      before any call. */
  lemma PostRejects(request: Parsed, config: Config, create: Fetched, tag: Fetched)
    ensures Post(request, config, create, tag).reply.Rejected? <==> !Destructurable(request)
    ensures !Destructurable(request) ==> Post(request, config, create, tag).calls == []
  {
  }

  /** A missing or falsy email or phone is answered with 400 and no call is
      made, whatever the configuration. */
  lemma PostFieldsRequired(request: Parsed, config: Config, create: Fetched, tag: Fetched)
    requires Destructurable(request) && !FieldsPresent(request)
    ensures Post(request, config, create, tag) == Run([], ErrorReply(FieldsRequiredMessage, 400))
  {
  }

  /** With both fields present, a missing URL, token or tag id is answered with
      500 and no call is made. */
  lemma PostConfigError(request: Parsed, config: Config, create: Fetched, tag: Fetched)
    requires Destructurable(request) && FieldsPresent(request) && !Configured(config)
    ensures Post(request, config, create, tag) == Run([], ErrorReply(ConfigErrorMessage, 500))
  {
  }

  /** Calls are made exactly when the fields and the configuration are in
      order; the first creates the contact with the given email and phone as
      active, at the contacts endpoint of the configured URL. */
  lemma PostCreatesFirst(request: Parsed, config: Config, create: Fetched, tag: Fetched)
    ensures var run := Post(request, config, create, tag);
            && (|run.calls| > 0 <==> Destructurable(request) && FieldsPresent(request) && Configured(config))
            && (|run.calls| > 0 ==>
                  run.calls[0] == CreateContact(config.apiUrl.value + ContactsPath, config.apiToken.value,
                                                Member(request.value, "userEmail").value,
                                                Member(request.value, "phoneNumber").value, ActiveStatus))
  {
  }

  /** When creating the contact fails (it throws, is not ok, or its body has
      no contact to read), the tag call is never issued and the answer is the
      generic 500. */
  lemma PostCreateFails(request: Parsed, config: Config, create: Fetched, tag: Fetched)
    requires Destructurable(request) && FieldsPresent(request) && Configured(config)
    requires !Succeeded(create) || ContactId(create.body).None?
    ensures var run := Post(request, config, create, tag);
            |run.calls| == 1 && run.calls[0].CreateContact? && run.reply == ErrorReply(SubscribeFailedMessage, 500)
  {
  }

  /** After a successful create, the tag call attaches the configured tag to
      the id the create response reported, at the contact-tags endpoint. */
  lemma PostTagsCreatedContact(request: Parsed, config: Config, create: Fetched, tag: Fetched)
    requires Destructurable(request) && FieldsPresent(request) && Configured(config)
    requires Succeeded(create) && ContactId(create.body).Some?
    ensures var run := Post(request, config, create, tag);
            |run.calls| == 2
            && run.calls[1] == TagContact(config.apiUrl.value + ContactTagsPath, config.apiToken.value,
                                          ContactId(create.body).value, config.tagId.value)
  {
  }

  /** When tagging fails the answer is the generic 500, and the created
      contact stays: no call follows the tag call. */
  lemma PostTagFails(request: Parsed, config: Config, create: Fetched, tag: Fetched)
    requires Destructurable(request) && FieldsPresent(request) && Configured(config)
    requires Succeeded(create) && ContactId(create.body).Some? && !Succeeded(tag)
    ensures var run := Post(request, config, create, tag);
            && |run.calls| == 2 && run.calls[0].CreateContact? && run.calls[1].TagContact?
            && run.reply == ErrorReply(SubscribeFailedMessage, 500)
  {
  }

  /** The answer is 200 `{ success: true }` exactly when both calls were
      issued and both succeeded; calls come create first, then tag, and at most
      one of each. */
  lemma PostSucceeds(request: Parsed, config: Config, create: Fetched, tag: Fetched)
    ensures var run := Post(request, config, create, tag);
            && (run.reply == SuccessReply
                <==> Destructurable(request) && FieldsPresent(request) && Configured(config)
                     && Succeeded(create) && ContactId(create.body).Some? && Succeeded(tag))
            && (run.reply.Sent? && run.reply.response.status == 200 <==> run.reply == SuccessReply)
            && (forall i | 0 <= i < |run.calls| :: run.calls[i].CreateContact? <==> i == 0)
  {
  }
}
