/** The `Contact` document schema (models/Contact.ts): field constraints,
    defaults, and what `save()` does with them. Mongoose validates a document
    before writing it; the write itself is an abstract outcome. */
module ContactModel {
  import opened JsText
  import opened EmailPattern
  import opened Io

  const NameMaxLength: nat := 50
  const SubjectMaxLength: nat := 100
  const MessageMaxLength: nat := 1000

  const NameRequired := "Name is required"
  const NameTooLong := "Name cannot exceed 50 characters"
  const EmailRequired := "Email is required"
  const EmailInvalid := "Please provide a valid email"
  const SubjectRequired := "Subject is required"
  const SubjectTooLong := "Subject cannot exceed 100 characters"
  const MessageRequired := "Message is required"
  const MessageTooLong := "Message cannot exceed 1000 characters"

  /** A contact document. `createdAt` is a millisecond clock reading. */
  datatype Contact = Contact(
    name: string,
    email: string,
    subject: string,
    message: string,
    createdAt: int,
    isRead: bool)

  /** `new Contact({name, email, subject, message})` at clock reading `now`:
      the schema defaults fill `createdAt` (`Date.now`) and `isRead` (false). */
  function NewContact(name: string, email: string, subject: string, message: string, now: int): (c: Contact)
    ensures !c.isRead && c.createdAt == now
    ensures c.name == name && c.email == email && c.subject == subject && c.message == message
  {
    Contact(name, email, subject, message, now, false)
  }

  /** What the schema demands of a stored document, stated as one predicate:
      every text field present, within its maximum length (in UTF-16 code
      units, inclusive), and the address matching the pattern. */
  predicate Conforms(c: Contact) {
    && c.name != "" && JsLength(c.name) <= NameMaxLength
    && Matches(c.email)
    && c.subject != "" && JsLength(c.subject) <= SubjectMaxLength
    && c.message != "" && JsLength(c.message) <= MessageMaxLength
  }

  /** The validators of one text path with `required` and `maxlength`: at most
      one message, and `required` is reported first (Mongoose's String
      `required` rejects ""; `maxlength` never fails on ""). */
  function TextPathErrors(value: string, max: nat, required: string, tooLong: string): seq<string> {
    if value == "" then [required]
    else if JsLength(value) > max then [tooLong]
    else []
  }

  /** The validators of the `email` path: `required`, then `match` (which
      Mongoose skips for "", so at most one message). */
  function EmailPathErrors(email: string): seq<string> {
    if email == "" then [EmailRequired]
    else if !Matches(email) then [EmailInvalid]
    else []
  }

  /** The messages of a failed validation, one per failing path, in the
      schema's path order: name, email, subject, message. */
  function Validate(c: Contact): (errors: seq<string>)
    ensures errors == [] <==> Conforms(c)
    ensures |errors| <= 4
  {
    TextPathErrors(c.name, NameMaxLength, NameRequired, NameTooLong)
    + EmailPathErrors(c.email)
    + TextPathErrors(c.subject, SubjectMaxLength, SubjectRequired, SubjectTooLong)
    + TextPathErrors(c.message, MessageMaxLength, MessageRequired, MessageTooLong)
  }

  /** Each message names its own defect: it is in the list exactly when that
      path violates that rule. */
  lemma ValidateMessages(c: Contact)
    ensures NameRequired in Validate(c) <==> c.name == ""
    ensures NameTooLong in Validate(c) <==> c.name != "" && JsLength(c.name) > NameMaxLength
    ensures EmailRequired in Validate(c) <==> c.email == ""
    ensures EmailInvalid in Validate(c) <==> c.email != "" && !Matches(c.email)
    ensures SubjectRequired in Validate(c) <==> c.subject == ""
    ensures SubjectTooLong in Validate(c) <==> c.subject != "" && JsLength(c.subject) > SubjectMaxLength
    ensures MessageRequired in Validate(c) <==> c.message == ""
    ensures MessageTooLong in Validate(c) <==> c.message != "" && JsLength(c.message) > MessageMaxLength
  {
    NameMessages(c);
    EmailMessages(c);
    SubjectMessages(c);
    MessageMessages(c);
  }

  /** The messages of the `name` path. */
  lemma NameMessages(c: Contact)
    ensures NameRequired in Validate(c) <==> c.name == ""
    ensures NameTooLong in Validate(c) <==> c.name != "" && JsLength(c.name) > NameMaxLength
  {
  }

  /** The messages of the `email` path. */
  lemma EmailMessages(c: Contact)
    ensures EmailRequired in Validate(c) <==> c.email == ""
    ensures EmailInvalid in Validate(c) <==> c.email != "" && !Matches(c.email)
  {
  }

  /** The messages of the `subject` path. */
  lemma SubjectMessages(c: Contact)
    ensures SubjectRequired in Validate(c) <==> c.subject == ""
    ensures SubjectTooLong in Validate(c) <==> c.subject != "" && JsLength(c.subject) > SubjectMaxLength
  {
  }

  /** The messages of the `message` path. */
  lemma MessageMessages(c: Contact)
    ensures MessageRequired in Validate(c) <==> c.message == ""
    ensures MessageTooLong in Validate(c) <==> c.message != "" && JsLength(c.message) > MessageMaxLength
  {
  }

  /** What `save()` can end in: the document was written; validation failed
      with per-path messages (a Mongoose `ValidationError`); or some other
      error was thrown. */
  datatype SaveResult = Saved | Invalid(messages: seq<string>) | Failed(message: string)

  /** `await contact.save()`: validation runs first and stops the write;
      otherwise the write's own outcome decides. */
  function Save(c: Contact, write: Outcome): (r: SaveResult)
    ensures r.Saved? ==> Conforms(c) && write.Ok?
    ensures r.Invalid? <==> !Conforms(c)
    ensures r.Invalid? ==> r.messages != [] && r.messages == Validate(c)
    ensures r.Failed? ==> write == Err(r.message)
  {
    var errors := Validate(c);
    if errors != [] then Invalid(errors)
    else match write
      case Ok => Saved
      case Err(m) => Failed(m)
  }

  /** The length limits are inclusive: a value of exactly the maximum length
      passes and one code unit more fails. */
  lemma LengthBoundsInclusive(c: Contact)
    ensures JsLength(c.name) == NameMaxLength ==> NameTooLong !in Validate(c) && NameRequired !in Validate(c)
    ensures JsLength(c.name) == NameMaxLength + 1 ==> NameTooLong in Validate(c)
    ensures JsLength(c.subject) == SubjectMaxLength ==> SubjectTooLong !in Validate(c) && SubjectRequired !in Validate(c)
    ensures JsLength(c.subject) == SubjectMaxLength + 1 ==> SubjectTooLong in Validate(c)
    ensures JsLength(c.message) == MessageMaxLength ==> MessageTooLong !in Validate(c) && MessageRequired !in Validate(c)
    ensures JsLength(c.message) == MessageMaxLength + 1 ==> MessageTooLong in Validate(c)
  {
    ValidateMessages(c);
  }
}
