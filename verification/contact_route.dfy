/** The contact submission handler `POST /api/contact`
    (app/api/contact/route.ts): required-field check, address check,
    normalisation, persistence through the `Contact` model, and the mapping of
    every outcome to a status and a JSON body. */
module ContactRoute {
  import opened JsText
  import opened EmailPattern
  import opened Io
  import opened Maybe
  import opened ContactModel

  const AllFieldsRequired := "All fields are required"
  const InvalidEmailAddress := "Please provide a valid email address"
  const ThankYou := "Thank you for your message! I will get back to you soon."
  const SomethingWentWrong := "Something went wrong. Please try again later."

  /** One member of the JSON body: absent or a falsy non-string (`null`,
      `false`, `0`); a string; or a truthy non-string (a non-zero number,
      `true`, an array, an object), given with its conversion to a string,
      which is what a regular-expression test reads. */
  datatype JsonText = Absent | Text(value: string) | Other(shown: string) {
    /** JavaScript truthiness of the member: a non-empty string or a truthy
        non-string. */
    predicate Truthy() {
      (Text? && value != "") || Other?
    }

    /** The text a regular-expression test sees: the string itself, or the
        value converted to a string. */
    function Shown(): (r: string)
      requires Truthy()
      ensures Text? ==> r == value
    {
      if Text? then value else shown
    }
  }

  /** The four members the form sends. */
  datatype Submission = Submission(name: JsonText, email: JsonText, subject: JsonText, message: JsonText) {
    /** `name && email && subject && message`. */
    predicate Complete() {
      name.Truthy() && email.Truthy() && subject.Truthy() && message.Truthy()
    }

    /** All four members are strings, so `.trim()` can be called on each. */
    predicate Strings() {
      name.Text? && email.Text? && subject.Text? && message.Text?
    }
  }

  /** The request body as `request.json()` delivers it: unparsable or the
      JSON `null` (the destructuring then throws), or a value with the four
      members (a body without them, such as a number, has them all absent). */
  datatype Request = Unparsable | Json(body: Submission)

  /** The JSON response body: `{success: true, message}` or
      `{success: false, error}`. */
  datatype Body = Thanks(message: string) | Problem(error: string)

  datatype Response = Response(status: int, body: Body) {
    /** The `success` member of the body. */
    predicate Success() {
      body.Thanks?
    }
  }

  /** How the document store behaves for this request: whether `connectDB()`
      returns, and whether the write inside `save()` succeeds. */
  datatype Store = Store(connect: Outcome, write: Outcome)

  /** Everything one call of the handler does: the response, whether it called
      `connectDB()`, the document it handed to `save()` (if any), and the
      document that ended up stored (if any). */
  datatype Trace = Trace(response: Response, connected: bool, handed: Option<Contact>, stored: Option<Contact>)

  /** Text with no whitespace at either end. */
  predicate Bare(t: string) {
    |t| > 0 ==> !IsSpace(t[0]) && !IsSpace(t[|t| - 1])
  }

  /** The document the handler builds from a complete submission: every field
      trimmed, and the address also lowercased. */
  function Normalise(s: Submission, now: int): (c: Contact)
    requires s.Strings()
    ensures Bare(c.name) && Bare(c.subject) && Bare(c.message)
    ensures |c.name| <= |s.name.value| && |c.email| <= |s.email.value|
    ensures |c.subject| <= |s.subject.value| && |c.message| <= |s.message.value|
    ensures !c.isRead && c.createdAt == now
  {
    NewContact(Trim(s.name.value), ToLower(Trim(s.email.value)), Trim(s.subject.value), Trim(s.message.value), now)
  }

  /** The `catch` block and the success path: how the outcome of `save()` becomes
      a response. A `ValidationError` is the client's fault and lists every
      violated path; anything else is a generic server error. */
  function Respond(result: SaveResult): (r: Response)
    ensures r.status in {201, 400, 500}
    ensures r.Success() <==> r.status == 201
    ensures r.status == 201 <==> result.Saved?
    ensures r.status == 400 <==> result.Invalid?
    ensures result.Invalid? ==> r.body == Problem(Join(result.messages, ", "))
    ensures result.Saved? ==> r.body == Thanks(ThankYou)
    ensures result.Failed? ==> r.body == Problem(SomethingWentWrong)
  {
    match result
    case Saved => Response(201, Thanks(ThankYou))
    case Invalid(messages) => Response(400, Problem(Join(messages, ", ")))
    case Failed(_) => Response(500, Problem(SomethingWentWrong))
  }

  /** The part of `POST` after both checks passed: connect, build the
      document (a member that is not a string makes `.trim()` throw a
      TypeError, answered as any other error), save it, answer. */
  function Persist(s: Submission, store: Store, now: int): (t: Trace)
    requires s.Complete() && Matches(s.email.Shown())
    ensures t.connected
    ensures t.response.status in {201, 400, 500}
    ensures t.response.Success() <==> t.response.status == 201
    ensures t.stored.Some? <==> t.response.status == 201
    ensures t.stored.Some? ==> t.handed == t.stored && Conforms(t.stored.value)
    ensures t.handed.Some? <==> store.connect.Ok? && s.Strings()
    ensures t.response.status == 400 ==>
              t.handed.Some? && t.response.body == Problem(Join(Validate(t.handed.value), ", "))
    ensures store.connect.Err? || !s.Strings() ==>
              t.response == Response(500, Problem(SomethingWentWrong)) && t.handed.None?
  {
    if store.connect.Err? || !s.Strings() then
      Trace(Response(500, Problem(SomethingWentWrong)), true, None, None)
    else
      var doc := Normalise(s, now);
      var result := Save(doc, store.write);
      Trace(Respond(result), true, Some(doc), if result.Saved? then Some(doc) else None)
  }

  /** `POST(request)` with the store's behaviour and the clock as inputs. */
  function Post(request: Request, store: Store, now: int): (t: Trace)
    // every response is one of the three statuses, and `success` tracks 201
    ensures t.response.status in {201, 400, 500}
    ensures t.response.Success() <==> t.response.status == 201
    // the store is contacted only for complete submissions with an acceptable address
    ensures t.connected <==> request.Json? && request.body.Complete() && Matches(request.body.email.Shown())
    ensures t.handed.Some? ==> t.connected && store.connect.Ok? && request.body.Strings()
    // the checks before the store, in their order
    ensures request.Json? && !request.body.Complete() ==>
              t.response == Response(400, Problem(AllFieldsRequired)) && t.handed.None?
    ensures request.Json? && request.body.Complete() && !Matches(request.body.email.Shown()) ==>
              t.response == Response(400, Problem(InvalidEmailAddress)) && t.handed.None?
    // failures before or at the store itself, and a member that is not a
    // string, are server errors
    ensures request.Unparsable? || (t.connected && (store.connect.Err? || !request.body.Strings())) ==>
              t.response == Response(500, Problem(SomethingWentWrong)) && t.handed.None?
  {
    match request
    case Unparsable => Trace(Response(500, Problem(SomethingWentWrong)), false, None, None)
    case Json(s) =>
      if !s.Complete() then
        Trace(Response(400, Problem(AllFieldsRequired)), false, None, None)
      else if !Matches(s.email.Shown()) then
        Trace(Response(400, Problem(InvalidEmailAddress)), false, None, None)
      else
        Persist(s, store, now)
  }

  /** A complete submission with an acceptable address reaches the store. */
  lemma PostReachesStore(request: Request, store: Store, now: int)
    requires request.Json? && request.body.Complete() && Matches(request.body.email.Shown())
    ensures Post(request, store, now) == Persist(request.body, store, now)
  {
  }

  /** Once connected, the answer is the mapping of what `save()` did with the
      normalised document. */
  lemma PersistAnswer(s: Submission, store: Store, now: int)
    requires s.Complete() && s.Strings() && Matches(s.email.Shown()) && store.connect.Ok?
    ensures Persist(s, store, now).response == Respond(Save(Normalise(s, now), store.write))
    ensures Persist(s, store, now).handed == Some(Normalise(s, now))
  {
  }

  /** A document is stored exactly when the answer is 201, and a stored
      document always obeys the schema. */
  lemma StoredIffCreated(request: Request, store: Store, now: int)
    ensures var t := Post(request, store, now);
            && (t.stored.Some? <==> t.response.status == 201)
            && (t.stored.Some? ==> t.handed == t.stored && Conforms(t.stored.value))
  {
  }

  /** The document handed to `save()`: trimmed fields, the address exactly
      lowercased (an accepted address has no whitespace, so trimming it does
      nothing), `createdAt` the clock reading and `isRead` false. */
  lemma HandedDocument(request: Request, store: Store, now: int)
    requires Post(request, store, now).handed.Some?
    ensures var d := Post(request, store, now).handed.value;
            var s := request.body;
            && d.name == Trim(s.name.value)
            && d.email == ToLower(s.email.value)
            && d.subject == Trim(s.subject.value)
            && d.message == Trim(s.message.value)
            && d.createdAt == now && !d.isRead
  {
    var s := request.body;
    PostReachesStore(request, store, now);
    assert Persist(s, store, now).handed == Some(Normalise(s, now));
    MatchesIsSpaceFree(s.email.value);
  }

  /** After the store was contacted, a 400 is the schema's verdict: the body
      joins the messages of every violated path with ", ". */
  lemma SchemaRejection(request: Request, store: Store, now: int)
    requires Post(request, store, now).connected && Post(request, store, now).response.status == 400
    ensures var t := Post(request, store, now);
            t.handed.Some? && t.response.body == Problem(Join(Validate(t.handed.value), ", "))
  {
  }

  /** Whatever the handler accepts, the schema's address rules accept too: the
      lowercased address still matches the same pattern, so a 400 after the
      store was contacted never concerns the address. */
  lemma AcceptedAddressPassesSchema(request: Request, store: Store, now: int)
    requires Post(request, store, now).handed.Some?
    ensures var d := Post(request, store, now).handed.value;
            EmailRequired !in Validate(d) && EmailInvalid !in Validate(d) && Matches(d.email)
  {
    HandedDocument(request, store, now);
    MatchesToLower(request.body.email.value);
    ValidateMessages(Post(request, store, now).handed.value);
  }

  /** A field made only of whitespace passes the handler's emptiness check but
      is stored trimmed to "", so the schema's `required` rule rejects it and
      the answer is a 400 naming that field. */
  lemma BlankFieldRejected(request: Request, store: Store, now: int)
    requires request.Json? && request.body.Complete() && request.body.Strings()
    requires Matches(request.body.email.Shown()) && store.connect.Ok?
    requires AllSpace(request.body.name.value) || AllSpace(request.body.subject.value)
             || AllSpace(request.body.message.value)
    ensures var t := Post(request, store, now);
            && t.response.status == 400 && t.stored.None?
            && (AllSpace(request.body.name.value) ==> NameRequired in Validate(t.handed.value))
            && (AllSpace(request.body.subject.value) ==> SubjectRequired in Validate(t.handed.value))
            && (AllSpace(request.body.message.value) ==> MessageRequired in Validate(t.handed.value))
  {
    var s := request.body;
    TrimEmptyIffAllSpace(s.name.value);
    TrimEmptyIffAllSpace(s.subject.value);
    TrimEmptyIffAllSpace(s.message.value);
    PostReachesStore(request, store, now);
    var d := Normalise(s, now);
    assert Persist(s, store, now).handed == Some(d);
    assert !Conforms(d);
    ValidateMessages(d);
  }

  /** A document whose only defect is an empty name fails with exactly the
      name's `required` message. */
  lemma OnlyNameMissing(d: Contact)
    requires d.name == "" && Matches(d.email)
    requires d.subject != "" && JsLength(d.subject) <= SubjectMaxLength
    requires d.message != "" && JsLength(d.message) <= MessageMaxLength
    ensures Validate(d) == [NameRequired]
    ensures Join(Validate(d), ", ") == NameRequired
  {
    assert EmailPathErrors(d.email) == [];
  }

  /** When the name is the only problem (whitespace only, everything else
      acceptable after trimming) the error is exactly "Name is required". */
  lemma BlankNameMessage(request: Request, store: Store, now: int)
    requires request.Json? && request.body.Complete() && request.body.Strings()
    requires Matches(request.body.email.Shown()) && store.connect.Ok?
    requires AllSpace(request.body.name.value)
    requires var subject := Trim(request.body.subject.value);
             subject != "" && JsLength(subject) <= SubjectMaxLength
    requires var message := Trim(request.body.message.value);
             message != "" && JsLength(message) <= MessageMaxLength
    ensures Post(request, store, now).response == Response(400, Problem(NameRequired))
  {
    var s := request.body;
    TrimEmptyIffAllSpace(s.name.value);
    MatchesIsSpaceFree(s.email.value);
    MatchesToLower(s.email.value);
    PostReachesStore(request, store, now);
    var d := Normalise(s, now);
    assert d.email == ToLower(s.email.value);
    OnlyNameMissing(d);
    PersistAnswer(s, store, now);
    assert Save(d, store.write) == Invalid(Validate(d));
  }

  /** A complete submission with an acceptable address whose trimmed fields
      fit the schema is stored, as its trimmed fields with the address
      lowercased, and answered with 201 and the thank-you message. */
  lemma AcceptedSubmissionStored(request: Request, now: int)
    requires request.Json? && request.body.Complete() && request.body.Strings()
    requires Matches(request.body.email.Shown())
    requires var name := Trim(request.body.name.value);
             name != "" && JsLength(name) <= NameMaxLength
    requires var subject := Trim(request.body.subject.value);
             subject != "" && JsLength(subject) <= SubjectMaxLength
    requires var message := Trim(request.body.message.value);
             message != "" && JsLength(message) <= MessageMaxLength
    ensures var t := Post(request, Store(Ok, Ok), now);
            var s := request.body;
            && t.response == Response(201, Thanks(ThankYou))
            && t.stored == Some(NewContact(Trim(s.name.value), ToLower(s.email.value),
                                           Trim(s.subject.value), Trim(s.message.value), now))
  {
    var s := request.body;
    MatchesIsSpaceFree(s.email.value);
    MatchesToLower(s.email.value);
    PostReachesStore(request, Store(Ok, Ok), now);
    PersistAnswer(s, Store(Ok, Ok), now);
    assert Conforms(Normalise(s, now));
  }

  /** An address without '@' is refused before the store is contacted. */
  lemma MalformedAddressScenario(now: int, store: Store)
    ensures var t := Post(Json(Submission(Text("John Doe"), Text("invalid-email"), Text("Test Subject"),
                                          Text("This is a test message"))), store, now);
            t.response == Response(400, Problem(InvalidEmailAddress)) && !t.connected
  {
    var email := "invalid-email";
    assert forall k | 0 <= k < |email| :: email[k] != '@';
    assert !Matches(email);
  }

  /** A member that is truthy but not a string passes the emptiness check;
      if the address passes its test too, `.trim()` throws after the store
      was connected, and the answer is the generic 500: nothing is saved. */
  lemma NonStringMemberFails(request: Request, store: Store, now: int)
    requires request.Json? && request.body.Complete() && !request.body.Strings()
    requires Matches(request.body.email.Shown())
    ensures var t := Post(request, store, now);
            && t.connected && t.handed.None? && t.stored.None?
            && t.response == Response(500, Problem(SomethingWentWrong))
  {
  }

  /** A number for the name, with an acceptable address, is a server error. */
  lemma NumericNameScenario(email: string, store: Store, now: int)
    requires Matches(email)
    ensures var t := Post(Json(Submission(Other("5"), Text(email), Text("Test Subject"),
                                          Text("This is a test message"))), store, now);
            t.connected && t.response == Response(500, Problem(SomethingWentWrong))
  {
    assert email != "";
  }
}
