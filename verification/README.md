# Contact pipeline of a portfolio site, modelled in Dafny

The site is a Next.js portfolio with a contact form. This project models the
parts of it that hold logic:

- the `POST /api/contact` handler (`app/api/contact/route.ts`): the
  required-field check, the address pattern `^[^\s@]+@[^\s@]+\.[^\s@]+$`,
  trimming and lowercasing, and the mapping of every outcome to a status
  (201, 400 or 500) and a JSON body;
- the `Contact` document schema (`models/Contact.ts`): `required`,
  `maxlength` (50, 100, 1000 UTF-16 code units), the address `match`, the
  defaults of `createdAt` and `isRead`, and what `save()` does with them;
- the e-mail service (`lib/emailService.ts`): the transport options derived
  from the environment, `escapeHtml`, the chain of global replaces that
  fills the notification template, the fallback template, the plain-text
  summary, the auto-reply page, the guards and the order of the two sends,
  and `verifyConnection`;
- the animation provider (`components/AnimationProvider.tsx`): a key and a
  page-loaded flag driven by an effect on the pathname and a 100 ms timer,
  as a state machine with explicit time;
- the project list of the projects page (`app/projects/page.tsx`): the
  constant list, the category buttons and the category filter.

One module per source file, plus small modules for the JavaScript string
primitives the code relies on (`JsText`: ECMAScript whitespace, `trim`,
`toLowerCase`, `length` in code units, `join`, `includes`), `parseInt`
(`JsNumber`), `String.prototype.replace` with a string replacement and its
`$` patterns (`Substitution`), the e-mail address pattern (`EmailPattern`),
and two helper datatypes (`Maybe`, `Io`). Everything the code gets from
outside is an input: the request body, the document store's answers, the
clock readings, the environment, the template file, and every answer of the
mail transport.

## Model

| member | source | states |
|---|---|---|
| JsText.TrimIsInfix | app/api/contact/route.ts:32-35 | `trim` removes only whitespace, and only from the two ends: the result is an infix with whitespace outside it and no whitespace at either of its ends |
| JsText.TrimEmptyIffAllSpace | app/api/contact/route.ts:32-35 | a field trims to "" exactly when it is made of whitespace only |
| JsText.Trim | app/api/contact/route.ts:32-35 | the trimmed text is no longer than the input and has no whitespace at either end; `TrimIsInfix` states what lies outside it |
| JsText.TrimStart | app/api/contact/route.ts:32-35 | the leading-whitespace strip keeps the longest suffix not starting with whitespace; all it drops is whitespace |
| JsText.TrimEnd | app/api/contact/route.ts:32-35 | the trailing-whitespace strip keeps the longest prefix not ending with whitespace; all it drops is whitespace |
| JsText.TrimSpaceFree | app/api/contact/route.ts:33 | `trim` leaves text without whitespace unchanged |
| JsText.TrimFramed | lib/emailService.ts:302-313 | trimming text framed by whitespace keeps a body that starts with non-whitespace and drops only the tail's trailing whitespace |
| JsText.ToLower | app/api/contact/route.ts:33 | lowercasing keeps the length and maps each character on its own (ASCII letters to lower case) |
| JsText.ToLowerIdempotent | app/api/contact/route.ts:33 | lowercasing twice is lowercasing once |
| JsText.JsLength | models/Contact.ts:7 | `length` counts UTF-16 code units: between the number of characters and twice that, and equal to it on text inside the Basic Multilingual Plane |
| JsText.JoinLength | app/api/contact/route.ts:54-56 | the joined text is as long as the parts plus one separator between each two neighbours, and starts with the first part |
| JsNumber.ParseInt | lib/emailService.ts:31 | `parseInt` gives NaN exactly when no digit follows the leading whitespace, sign and hexadecimal prefix |
| JsNumber.DigitRun | lib/emailService.ts:31 | `parseInt` reads the longest run of digits: all of it are digits and the character after it is not |
| JsNumber.ParseShow | lib/emailService.ts:31 | `parseInt` reads back the decimal text of every natural number |
| JsNumber.ParsePorts | lib/emailService.ts:31-52 | "587" and "465", the ports the service tells apart, read back as 587 and 465 |
| EmailPattern.SplitShape | app/api/contact/route.ts:19 | an address the pattern accepts has no whitespace and exactly one '@' |
| EmailPattern.MatchesIsSpaceFree | app/api/contact/route.ts:19-33 | an address the handler accepts is unchanged by `trim` |
| EmailPattern.MatchesToLower | models/Contact.ts:12 | lowercasing an accepted address keeps it accepted, so the schema's `match` agrees with the handler |
| EmailPattern.Scan | app/api/contact/route.ts:19-20 | a left-to-right scan without backtracking answers true exactly when the pattern matches |
| ContactModel.NewContact | models/Contact.ts:24-31 | a new document keeps the four given fields, is unread and is stamped with the current time |
| ContactModel.Validate | models/Contact.ts:3-23 | validation reports nothing exactly when the document conforms to the schema, and never more than four messages |
| ContactModel.ValidateMessages | models/Contact.ts:4-23 | each of the eight messages is reported exactly when its rule is violated |
| ContactModel.NameMessages | models/Contact.ts:4-8 | the name is required and at most 50 code units long, with `required` taking precedence |
| ContactModel.EmailMessages | models/Contact.ts:9-13 | the address is required and must match the pattern; `match` is not reported for an empty address |
| ContactModel.SubjectMessages | models/Contact.ts:14-18 | the subject is required and at most 100 code units long |
| ContactModel.MessageMessages | models/Contact.ts:19-23 | the message is required and at most 1000 code units long |
| ContactModel.LengthBoundsInclusive | models/Contact.ts:7-22 | a value of exactly the maximum length passes and one code unit more fails |
| ContactModel.Save | app/api/contact/route.ts:38 | `save()` fails validation exactly when the document does not conform, with the schema's messages; only a conforming document reaches the write |
| ContactRoute.Respond | app/api/contact/route.ts:38-64 | a saved document gives 201 and the thanks; a validation error gives 400 with the messages joined by ", "; any other error gives 500 |
| ContactRoute.Persist | app/api/contact/route.ts:27-46 | after the checks: a failed connection is a 500, a document is stored exactly on 201 and always conforms |
| ContactRoute.Post | app/api/contact/route.ts:5-66 | status is 201, 400 or 500 and `success` is true exactly on 201; the store is contacted only for complete submissions whose address, as a string, is accepted; the field check comes first, then the address check; an unparsable or null body, a failed connection, and a truthy member that is not a string (it has no `.trim()`) are 500 with nothing saved |
| ContactRoute.Normalise | app/api/contact/route.ts:31-36 | the document built from four strings has no whitespace at either end of name, subject and message, no field longer than its input, is unread and stamped now; `HandedDocument` states the fields exactly |
| ContactRoute.NonStringMemberFails | app/api/contact/route.ts:11-36 | a truthy non-string member passes both checks when the address text is accepted, the store is connected, `.trim()` throws, and the answer is 500 with nothing saved |
| ContactRoute.NumericNameScenario | app/api/contact/route.ts:11-64 | a number as the name with an acceptable address is answered 500 after connecting |
| ContactRoute.PostReachesStore | app/api/contact/route.ts:11-28 | a complete submission with an accepted address goes on to the store |
| ContactRoute.PersistAnswer | app/api/contact/route.ts:31-46 | once connected, the answer is the mapping of what `save()` did with the normalised document |
| ContactRoute.StoredIffCreated | app/api/contact/route.ts:38-46 | a document is stored exactly when the answer is 201, and it conforms |
| ContactRoute.HandedDocument | app/api/contact/route.ts:31-36 | the document handed to `save()` has the trimmed fields and exactly the lowercased address |
| ContactRoute.SchemaRejection | app/api/contact/route.ts:52-58 | a 400 after the store was contacted carries the schema's messages joined by ", " |
| ContactRoute.AcceptedAddressPassesSchema | app/api/contact/route.ts:19-33 | an address the handler accepts never draws a schema error |
| ContactRoute.BlankFieldRejected | app/api/contact/route.ts:11-58 | a whitespace-only field passes the handler's check but is stored as "", so the answer is 400 naming that field |
| ContactRoute.OnlyNameMissing | models/Contact.ts:4-23 | a document whose only defect is an empty name fails with exactly "Name is required" |
| ContactRoute.BlankNameMessage | app/api/contact/route.ts:31-58 | a whitespace-only name, everything else acceptable, is answered 400 "Name is required" |
| ContactRoute.AcceptedSubmissionStored | app/api/contact/route.ts:31-46 | an acceptable submission is stored as its trimmed fields with the address lowercased and answered 201 |
| ContactRoute.MalformedAddressScenario | app/api/contact/route.ts:19-25 | an address without '@' is refused with 400 before the store is contacted |
| HtmlEscape.Escape | lib/emailService.ts:138-147 | escaping never shortens the text |
| HtmlEscape.EscapePlain | lib/emailService.ts:138-147 | text without the five special characters is left as it is |
| HtmlEscape.EscapeIsInert | lib/emailService.ts:138-147 | of the five special characters only '&' can occur in the output, where it opens an entity |
| HtmlEscape.EscapeAppend | lib/emailService.ts:146 | escaping works character by character, so it distributes over concatenation |
| HtmlEscape.EscapeKeepsOtherChars | lib/emailService.ts:146 | any character that is neither special nor part of an entity occurs in the output exactly when it occurs in the input |
| HtmlEscape.UnescapeEscape | lib/emailService.ts:138-147 | decoding the five entities gives back the input: escaping loses nothing |
| HtmlEscape.TagEscaped | lib/emailService.ts:138-147 | a tag such as `<script>` comes out with its angle brackets as entities and its name kept |
| Substitution.Expand | lib/emailService.ts:130-135 | a replacement string without `$` is inserted as it is |
| Substitution.ReplaceAll | lib/emailService.ts:131-135 | a global replace with a string replacement; `ReplaceAllLiteral` states that it is plain substitution when the replacement has no `$`, and `DollarAmpersandKeepsToken` what `$&` does |
| Substitution.ReplaceFromLiteral | lib/emailService.ts:130-135 | a global replace with a `$`-free replacement is plain text substitution, from any start index |
| Substitution.ReplaceAllLiteral | lib/emailService.ts:130-135 | a global replace with a `$`-free replacement is plain text substitution |
| Substitution.ReplaceLiteralAbsent | lib/emailService.ts:130-135 | text without the placeholder is left unchanged |
| Substitution.ReplaceLiteralToken | lib/emailService.ts:130-135 | a placeholder at the front is replaced by the value |
| Substitution.ReplaceLiteralSkip | lib/emailService.ts:130-135 | text in which no occurrence starts is copied unchanged |
| Substitution.DollarAmpersandKeepsToken | lib/emailService.ts:131 | a replacement starting with `$&` puts the matched placeholder back |
| Template.TokenShape | lib/emailService.ts:131-135 | each placeholder opens with two braces and has no other '{'; the five differ in their third character |
| Template.PieceStartsNoToken | lib/emailService.ts:131-135 | no placeholder starts inside brace-safe fixed text, a brace-free value or another placeholder |
| Template.LayoutStep | lib/emailService.ts:131-135 | one replace fills exactly the placeholders of its field and nothing else |
| Template.EscapeAddsNoBraceNorDollar | lib/emailService.ts:138-147 | escaping adds neither '{' nor '$' |
| Template.Render | lib/emailService.ts:120-136 | the source's chain of five global replaces with the escaped fields as replacement strings; its partners `RenderWithoutDollar` and `RenderFillsLayout` state what it produces, `DollarNameShowsPlaceholder` where it goes wrong |
| Template.RenderLiteral | lib/emailService.ts:131-135 | the same chain with literal insertion, the evidently intended behaviour; its partner `RenderLiteralFillsLayout` states that it fills the layout |
| Template.RenderLiteralFillsLayout | lib/emailService.ts:130-135 | filling every placeholder of a well-formed template gives each escaped field and the raw timestamp in place, the fixed text untouched |
| Template.RenderWithoutDollar | lib/emailService.ts:130-135 | with no `$` in the fields and the timestamp, the source's chain of replaces is literal substitution |
| Template.RenderFillsLayout | lib/emailService.ts:130-135 | the source's chain fills a well-formed template as intended when no field has '{' and nothing has `$` |
| Template.LayoutShowsValue | lib/emailService.ts:130-135 | a filled placeholder shows its value in the text |
| Template.RenderShowsFields | lib/emailService.ts:130-135 | the source's rendered page contains every escaped field and the timestamp wherever the template has its placeholder, when no field has '{' or `$` and the timestamp has no `$` |
| Template.EmptyFieldsKeep | lib/emailService.ts:132-135 | the later replaces with empty values leave a text with only the name placeholder alone |
| Template.DollarNameShowsPlaceholder | lib/emailService.ts:131 | as written, a name `$&` renders as the name placeholder followed by "amp;" |
| Template.DollarNameLiteral | lib/emailService.ts:131 | with literal insertion, a name `$&` renders as its escaped text "$&amp;" |
| Fallback.FieldPageText | lib/emailService.ts:96-117 | a page of five placeholders between six fixed texts reads as those texts with the placeholders' texts between them |
| Fallback.HtmlIsLayout | lib/emailService.ts:74-118 | the fallback page is its six fixed texts with the placeholders name, email, subject, message, timestamp between them, in that order |
| Fallback.PiecesWellFormed | lib/emailService.ts:74-118 | no placeholder can start inside the fallback page's fixed texts |
| Fallback.RenderFieldPage | lib/emailService.ts:96-136 | the source's chain on any page of this shape with brace-safe fixed texts puts each escaped field and the timestamp in its place, when no field has '{' or `$` and the timestamp has no `$` |
| Fallback.Html | lib/emailService.ts:74-118 | the fallback page as text; `HtmlIsLayout` states that it is the six fixed texts with the five placeholders between them |
| Fallback.RenderFallback | lib/emailService.ts:74-136 | the source's chain on the fallback page puts each escaped field and the timestamp where its placeholder was and changes nothing else, when no field has '{' or `$` and the timestamp has no `$` |
| EmailService.DeriveConfig | lib/emailService.ts:30-58 | host and port default to smtp.gmail.com and 587; `secure` follows SMTP_SECURE when it is set and port 465 otherwise; credentials default to ""; STARTTLS options are present exactly on port 587 |
| EmailService.DefaultConfig | lib/emailService.ts:31-58 | with nothing set: smtp.gmail.com, 587, not secure, empty credentials, STARTTLS with "SSLv3" |
| EmailService.SslPort | lib/emailService.ts:35-57 | port 465 without SMTP_SECURE is secure and has no STARTTLS options |
| EmailService.ExplicitSecureWins | lib/emailService.ts:36-37 | SMTP_SECURE other than "true" means not secure, even on port 465 |
| EmailService.StartTlsConfig | lib/emailService.ts:31-57 | a typical port-587 environment gives exactly its host, credentials and the STARTTLS options |
| EmailService.LoadTemplate | lib/emailService.ts:64-72 | loading never fails: the file's content, or the fallback page when it cannot be read |
| EmailService.FallbackHasTokens | lib/emailService.ts:74-118 | the fallback page contains each of the five placeholders |
| EmailService.PlainTextShowsSummary | lib/emailService.ts:300-314 | the plain-text version is the summary followed by the timestamp, losing only the timestamp's trailing whitespace |
| EmailService.AutoReplyInjective | lib/emailService.ts:218-298 | different names give different auto-reply pages |
| EmailService.AutoReplyTagName | lib/emailService.ts:280 | a tag given as the name arrives in the auto-reply as escaped text |
| EmailService.SendAutoReply | lib/emailService.ts:191-216 | the auto-reply is attempted exactly when SEND_AUTO_REPLY is "true", goes out as the reply message, and never fails |
| EmailService.SendContactFormNotification | lib/emailService.ts:149-189 | missing credentials, then a missing NOTIFICATION_EMAIL, fail before any send; the notification goes from SMTP_USER to NOTIFICATION_EMAIL with subject "New Contact: ", the submitter as reply-to and the source's rendering of the template as HTML; a failed send is rethrown with no auto-reply; the result is success exactly when configured and the send succeeded |
| EmailService.AutoReplyFailureSwallowed | lib/emailService.ts:183-215 | the outcome of the notification never depends on the auto-reply's |
| EmailService.AutoReplyGoesToSubmitter | lib/emailService.ts:197-208 | when sent, the auto-reply goes second, to the submitter, with the "Re: ..." subject and the auto-reply page |
| EmailService.FallbackNotification | lib/emailService.ts:160 | with the template file missing, the source's rendering shows the fallback page with the escaped fields and the timestamp in place, when no field has '{' or `$` and the timestamp has no `$` |
| EmailService.NotificationDollarName | lib/emailService.ts:160-170 | as sent, a submitter named `$&` with the template `{{name}}` gets HTML showing the placeholder followed by "amp;" |
| EmailService.NotificationMail | lib/emailService.ts:160-177 | the notification's mail options; `SendContactFormNotification` states its sender, recipient, subject, reply-to and HTML |
| EmailService.PlainText | lib/emailService.ts:300-314 | the trimmed plain-text summary; `PlainTextShowsSummary` states that it is the summary followed by the timestamp |
| EmailService.AutoReplyPage | lib/emailService.ts:218-298 | the auto-reply page around the escaped name; `AutoReplyInjective` and `AutoReplyTagName` state that it shows the name losslessly and as inert text |
| EmailService.AutoReplyMail | lib/emailService.ts:197-208 | the auto-reply's mail options; `AutoReplyGoesToSubmitter` states its recipient, subject and HTML |
| EmailService.VerifyConnection | lib/emailService.ts:316-325 | true exactly when the transport's check completes; a failure is answered false, never thrown |
| Animation.Mount | components/AnimationProvider.tsx:11-20 | before the first effect the context is key 0, not loaded, with no timer |
| Animation.Effect | components/AnimationProvider.tsx:23-29 | an effect clears the flag, adds one to the key and sets a timer due 100 ms later |
| Animation.Tick | components/AnimationProvider.tsx:27-29 | time passing sets the flag exactly when the pending timer falls due, and leaves the key |
| Animation.Step | components/AnimationProvider.tsx:23-32 | no event lowers the key; unmounting clears the timer and leaves the context |
| Animation.StepValid | components/AnimationProvider.tsx:23-32 | every event keeps the provider's invariant: loaded means no timer, a timer is due within 100 ms, the key is positive once a path was seen |
| Animation.KeyCountsEffects | components/AnimationProvider.tsx:25-32 | the key grows by exactly the number of effects run |
| Animation.Replay | components/AnimationProvider.tsx:23-32 | replaying events keeps the invariant and counts the effects the key records |
| Animation.FirstMount | components/AnimationProvider.tsx:23-29 | after mounting the key is 1 and the page loads 100 ms later, not earlier |
| Animation.SamePathNoEffect | components/AnimationProvider.tsx:32 | a render with an unchanged pathname changes nothing |
| Animation.ChangeCancelsTimer | components/AnimationProvider.tsx:27-32 | a pathname change cancels the pending timer: the flag stays clear until the new timer fires, and the key goes up by one |
| Animation.NavigationScenario | components/AnimationProvider.tsx:23-32 | mount, 100 ms, navigate, 100 ms gives (1, false), (1, true), (2, false), (2, true) |
| Animation.UnmountedStaysPut | components/AnimationProvider.tsx:31 | after unmounting no event changes the context and no timer is pending |
| Projects.OfCategory | app/projects/page.tsx:84 | the filter keeps only projects of the category and never lengthens the list |
| Projects.OfCategoryMembers | app/projects/page.tsx:84 | a project is shown for a category exactly when it is in the list and has that category |
| Projects.OfCategoryAppend | app/projects/page.tsx:84 | the filter keeps the projects' order: it distributes over concatenation |
| Projects.OfCategoryWhole | app/projects/page.tsx:82-84 | the filter keeps the whole list exactly when every project has the category |
| Projects.Filter | app/projects/page.tsx:84 | a loop over the list computes the filter |
| Projects.Initial | app/projects/page.tsx:80-83 | the page opens on "All", which shows the whole list |
| Projects.Click | app/projects/page.tsx:129-132 | a button selects exactly its own category, one of the four |
| Projects.Shown | app/projects/page.tsx:82-84 | "All" shows the whole list; any other selection shows only projects of that category, never more than the list |
| Projects.ClicksSelectCategories | app/projects/page.tsx:129-132 | whatever the clicks, the selection is one of the four categories |
| Projects.ShownByCategory | app/projects/page.tsx:8-84 | "All" shows ids 1-5, "Full Stack" 1, 2, 3, 5, "Frontend" 4, and "Backend" nothing |
| Projects.DistinctIds | app/projects/page.tsx:8-75 | the project ids are distinct |
| Projects.ShownDistinctIds | app/projects/page.tsx:153-155 | the shown projects have distinct ids, so the list keys are unique |

## Left out

- Logging: every `console.*` call.
- Foreign calls are inputs: `request.json()` is a `Request` value, `connectDB()` and the write inside `save()` are `Outcome`s, `fs.readFileSync` is a `FileRead`, and `sendMail` and `verify` are `Outcome`s. Mongoose's and Nodemailer's own behaviour is not modelled.
- The connection cache of `lib/mongodb` is not part of this model.
- The route does not call the e-mail service, so no "store, then notify" pipeline is modelled.
- Clock and locale: `Date.now` is the `now` argument. The two `toLocaleString` readings are the `stamp` and `plainStamp` arguments, taken as given strings.
- `toLowerCase` is modelled for the ASCII letters only; other characters are left as they are.
- Mongoose reports one message per path, in the schema's path order (name, email, subject, message). The order of `Object.values(errors)` is assumed to be this order.
- JsNumber.ParseInt: numbers are exact integers. The loss of precision of very long digit runs in a double is not modelled, nor are `Infinity` and other non-integer results.
- Projects: description, technologies, URLs and colour are display-only and are left out of `Project`.
- The projects page's rendering, animations and links are left out; only the list, the buttons and the filter are modelled.
- EmailService.NewService: carries no contract of its own. Its parts are stated by `DeriveConfig` and `LoadTemplate`. The service record also carries the auto-reply's fixed texts, which the constructor always sets to `AutoReplyLetter()`, so that statements about the page need not spell them out. Statements about the auto-reply hold for any such texts.
- Template.RenderLiteralFillsLayout: stated only for fields without '{'. A field containing a later placeholder such as `{{email}}` is filled again by the later replaces, and no theorem describes that page.
- Template.RenderFillsLayout: stated only for fields and timestamps without `$`. With `$` in them, the source's output is described by the finding below.
- Animation: React's batching of the two state updates and the double effects of development mode are left out. Time is counted in whole milliseconds.
- Template.RenderShowsFields: stated only for fields without '{' or `$` and a timestamp without `$`. With `$`, the source's page is described by the finding below; with '{', no theorem describes it.
- Fallback.RenderFieldPage: stated only for fields without '{' or `$` and a timestamp without `$`, for the same reasons.
- Fallback.RenderFallback: stated only for fields without '{' or `$` and a timestamp without `$`, for the same reasons.
- EmailService.FallbackNotification: stated only for fields without '{' or `$` and a timestamp without `$`, for the same reasons.
- ContactRoute.Post: a non-string member is reduced to truthy or falsy and its string conversion. A `toString` that throws is not modelled. A JSON body that is a primitive other than `null` is taken as a body with all four members absent.
- JsText.JsLength: strings are sequences of Unicode scalar values, so a lone UTF-16 surrogate, which a JavaScript string can hold, cannot be represented.
- HtmlEscape.Escape: its own contract only bounds the length. What escaping does is stated by `EscapePlain`, `EscapeIsInert`, `EscapeKeepsOtherChars` and `UnescapeEscape`.

## Findings

| source | as written | input that shows it | evidently intended | confidence | as-written member | corrected member |
|---|---|---|---|---|---|---|
| lib/emailService.ts:131-134 | The escaped fields are passed to `replace` as replacement strings, so `$&`, `$$` and the other `$` patterns in user text are expanded. | The name `$&`, with the other fields empty and the template `{{name}}`, renders as `{{name}}amp;`. | The field appears literally, as its escaped text `$&amp;`. | not executed | Template.DollarNameShowsPlaceholder | Template.DollarNameLiteral |

Both members are stated on `Template.Render`, the chain as written, and on
`Template.RenderLiteral`, the chain with literal insertion.
`Template.RenderLiteralFillsLayout` proves the intended behaviour of
`RenderLiteral` for every well-formed template. The notification message
(`EmailService.NotificationMail`) renders with `Render`, as the source does,
and `EmailService.NotificationDollarName` shows the defect in the sent HTML.
`Template.RenderWithoutDollar` shows that the two chains agree whenever no
`$` occurs.
