/** The e-mail service (lib/emailService.ts): the transport configuration
    derived from the environment, the notification template and its
    fallback, the two messages it sends and the order of its guards and
    sends. The environment, the template file, the clock and every
    `sendMail`/`verify` call of the transport are inputs. */
module EmailService {
  import opened Maybe
  import opened Io
  import opened JsText
  import opened JsNumber
  import opened HtmlEscape
  import opened Template
  import Fallback

  // Long texts below are written as concatenations of short pieces; where a
  // piece ends carries no meaning, and each value equals the source's text.

  /** The environment variables the service reads; `None` when unset. */
  datatype Env = Env(smtpHost: Option<string>, smtpPort: Option<string>, smtpSecure: Option<string>,
                     smtpUser: Option<string>, smtpPass: Option<string>,
                     notificationEmail: Option<string>, sendAutoReply: Option<string>)

  /** JavaScript truthiness of an environment variable: set and not empty. */
  predicate Truthy(v: Option<string>) {
    v.Some? && v.value != ""
  }

  /** `v || fallback` for an environment variable. */
  function OrElse(v: Option<string>, fallback: string): string {
    if Truthy(v) then v.value else fallback
  }

  datatype Auth = Auth(user: string, pass: string)

  datatype TlsOptions = TlsOptions(ciphers: string)

  /** The options handed to the transport; the two optional fields are
      present only when the spread in the constructor adds them. */
  datatype Config = Config(host: string, port: Number, secure: bool, auth: Auth,
                           requireTls: Option<bool>, tls: Option<TlsOptions>)

  /** The constructor's configuration: port and host with their defaults,
      `secure` from SMTP_SECURE when it is set and from the port otherwise,
      and STARTTLS options for port 587 only. */
  function DeriveConfig(env: Env): (c: Config)
    ensures c.host == (if Truthy(env.smtpHost) then env.smtpHost.value else "smtp.gmail.com")
    ensures c.port == (if Truthy(env.smtpPort) then ParseInt(env.smtpPort.value) else Int(587))
    ensures env.smtpSecure.Some? ==> (c.secure <==> env.smtpSecure.value == "true")
    ensures env.smtpSecure.None? ==> (c.secure <==> c.port == Int(465))
    ensures c.auth.user == (if Truthy(env.smtpUser) then env.smtpUser.value else "")
    ensures c.auth.pass == (if Truthy(env.smtpPass) then env.smtpPass.value else "")
    ensures c.requireTls.Some? <==> c.port == Int(587)
    ensures c.tls.Some? <==> c.port == Int(587)
    ensures c.requireTls.Some? ==> c.requireTls.value && c.tls == Some(TlsOptions("SSLv3"))
  {
    ParsePorts();
    var port := ParseInt(OrElse(env.smtpPort, "587"));
    var secure := if env.smtpSecure.Some? then env.smtpSecure.value == "true" else port == Int(465);
    var startTls := port == Int(587);
    Config(OrElse(env.smtpHost, "smtp.gmail.com"), port, secure,
           Auth(OrElse(env.smtpUser, ""), OrElse(env.smtpPass, "")),
           if startTls then Some(true) else None,
           if startTls then Some(TlsOptions("SSLv3")) else None)
  }

  /** With nothing set, the service talks STARTTLS to smtp.gmail.com on port
      587 with empty credentials. */
  lemma DefaultConfig()
    ensures DeriveConfig(Env(None, None, None, None, None, None, None))
         == Config("smtp.gmail.com", Int(587), false, Auth("", ""), Some(true), Some(TlsOptions("SSLv3")))
  {
  }

  /** SMTP_PORT=465 without SMTP_SECURE gives an implicit-TLS connection and
      no STARTTLS options. */
  lemma SslPort(env: Env)
    requires env.smtpPort == Some("465") && env.smtpSecure.None?
    ensures DeriveConfig(env).port == Int(465) && DeriveConfig(env).secure
    ensures DeriveConfig(env).requireTls.None? && DeriveConfig(env).tls.None?
  {
    ParsePorts();
  }

  /** An explicit SMTP_SECURE overrides the port: anything but "true" means
      no implicit TLS, even on port 465. */
  lemma ExplicitSecureWins(env: Env)
    requires env.smtpPort == Some("465") && env.smtpSecure.Some? && env.smtpSecure.value != "true"
    ensures !DeriveConfig(env).secure && DeriveConfig(env).port == Int(465)
  {
    ParsePorts();
  }

  /** The environment of a typical deployment on port 587. */
  lemma StartTlsConfig(host: string, user: string, pass: string)
    requires host != "" && user != "" && pass != ""
    ensures DeriveConfig(Env(Some(host), Some("587"), None, Some(user), Some(pass), None, None))
         == Config(host, Int(587), false, Auth(user, pass), Some(true), Some(TlsOptions("SSLv3")))
  {
    ParsePorts();
  }

  /** The service after construction: its transport options, the template
      it loaded, and the fixed texts of the auto-reply page. */
  datatype Service = Service(config: Config, template: string, letter: Letter)

  /** `loadEmailTemplate`: the template file's content, or the fallback page
      when it cannot be read; it never fails. */
  function LoadTemplate(read: FileRead): (t: string)
    ensures read.Unreadable? ==> t == Fallback.Html()
    ensures read.Content? ==> t == read.text
  {
    if read.Content? then read.text else Fallback.Html()
  }

  /** The constructor: the configuration from the environment, the loaded
      template, and the auto-reply page of `getAutoReplyTemplate`. The
      `letter` field holds that page's fixed texts so that statements about
      the page need not spell them out; every service the program builds has
      exactly these. */
  function NewService(env: Env, read: FileRead): Service {
    Service(DeriveConfig(env), LoadTemplate(read), AutoReplyLetter())
  }

  /** The fallback page carries each of the five placeholders. */
  lemma FallbackHasTokens(f: Field)
    ensures Contains(LoadTemplate(Unreadable), Token(f))
  {
    PageHasTokens(Fallback.Head(), Fallback.NextField("Email"), Fallback.NextField("Subject"),
                  Fallback.NextField("Message"), Fallback.ReceivedOpen(), Fallback.Epilogue(), f);
  }

  /** A page with the five placeholders between six fixed texts carries each
      of them. */
  lemma PageHasTokens(head: string, afterName: string, afterEmail: string, afterSubject: string,
                      afterMessage: string, tail: string, f: Field)
    ensures Contains(head + (Token(Name) + (afterName + (Token(Email) + (afterEmail + (Token(Subject)
                     + (afterSubject + (Token(Message) + (afterMessage + (Token(Timestamp) + tail)))))))))
                     , Token(f))
  {
    var s5 := Token(Timestamp) + tail;
    var s4 := Token(Message) + (afterMessage + s5);
    var s3 := Token(Subject) + (afterSubject + s4);
    var s2 := Token(Email) + (afterEmail + s3);
    var s1 := Token(Name) + (afterName + s2);
    if f == Name {
      ContainsFront(Token(Name), afterName + s2);
    } else {
      if f == Email {
        ContainsFront(Token(Email), afterEmail + s3);
      } else {
        if f == Subject {
          ContainsFront(Token(Subject), afterSubject + s4);
        } else {
          if f == Message {
            ContainsFront(Token(Message), afterMessage + s5);
          } else {
            ContainsFront(Token(Timestamp), tail);
            ContainsBehind(afterMessage, s5, Token(f));
            ContainsBehind(Token(Message), afterMessage + s5, Token(f));
          }
          ContainsBehind(afterSubject, s4, Token(f));
          ContainsBehind(Token(Subject), afterSubject + s4, Token(f));
        }
        ContainsBehind(afterEmail, s3, Token(f));
        ContainsBehind(Token(Email), afterEmail + s3, Token(f));
      }
      ContainsBehind(afterName, s2, Token(f));
      ContainsBehind(Token(Name), afterName + s2, Token(f));
    }
    ContainsBehind(head, s1, Token(f));
  }

  /** A text contains what it starts with. */
  lemma ContainsFront(t: string, rest: string)
    ensures Contains(t + rest, t)
  {
    assert OccursAt(t + rest, t, 0);
  }

  /** What a text contains, it still contains with anything put in front. */
  lemma ContainsBehind(front: string, s: string, t: string)
    requires Contains(s, t)
    ensures Contains(front + s, t)
  {
    var i :| 0 <= i <= |s| - |t| && OccursAt(s, t, i);
    assert (front + s)[|front| + i..|front| + i + |t|] == s[i..i + |t|];
    assert OccursAt(front + s, t, |front| + i);
  }

  /** A sender as the transport takes it: display name and address. */
  datatype Sender = Sender(name: string, address: string)

  /** The mail options handed to `sendMail`. */
  datatype Mail = Mail(from: Sender, to: string, subject: string, html: string, text: string,
                       replyTo: Option<string>, headers: seq<(string, string)>)

  /** What a send operation did: the messages it handed to the transport, in
      order, and whether it completed or threw. */
  datatype Sent = Sent(attempted: seq<Mail>, result: Outcome)

  const CredentialsMissing: string :=
    "SMTP credentials " + "not configured. " + "Please set " + "SMTP_USER and " + "SMTP_PASS " + "environment " + "variables."

  const NotificationMissing: string :=
    "NOTIFICATION_EMAIL " + "not configured. " + "Please set the " + "email address " + "to receive " + "notifications."

  /** The plain-text summary before the timestamp. */
  function Summary(data: FormData): string {
    "New Contact " + "Form Submission" + "\n\n"
    + "Name: " + data.name + "\n"
    + "Email: " + data.email + "\n"
    + "Subject: " + data.subject + "\n\n"
    + "Message:\n" + data.message + "\n\n"
    + "Received: "
  }

  /** `generatePlainTextVersion`: the summary and the timestamp, trimmed. */
  function PlainText(data: FormData, stamp: string): string {
    Trim("\n" + Summary(data) + stamp + "\n    ")
  }

  /** The plain-text version is the summary followed by the timestamp; only
      the timestamp's own trailing whitespace is lost to the trim. */
  lemma PlainTextShowsSummary(data: FormData, stamp: string)
    requires !AllSpace(stamp)
    ensures PlainText(data, stamp) == Summary(data) + TrimEnd(stamp)
  {
    SummaryStart(data);
    FrameIsSpace();
    TrimFramed("\n", Summary(data), stamp, "\n    ");
  }

  /** The whitespace around the summary in the source's template literal. */
  lemma FrameIsSpace()
    ensures AllSpace("\n") && AllSpace("\n    ")
  {
    var t := "\n    ";
    assert forall k | 0 <= k < |t| :: t[k] == '\n' || t[k] == ' ';
  }

  /** The summary opens with its title. */
  lemma SummaryStart(data: FormData)
    ensures |Summary(data)| > 0 && Summary(data)[0] == 'N'
  {
  }

  /** The notification: from the SMTP user to NOTIFICATION_EMAIL, with the
      submitter as reply-to, the rendered template as HTML and the summary as
      plain text. */
  function NotificationMail(service: Service, user: string, to: string, data: FormData,
                            stamp: string, plainStamp: string): Mail {
    Mail(Sender("Silambarasu Portfolio", user), to, "New Contact: " + data.subject,
         Render(service.template, data, stamp), PlainText(data, plainStamp), Some(data.email),
         [("X-Mailer", "Silambarasu " + "Portfolio " + "Contact Form"), ("X-Priority", "1")])
  }

  /** The fixed start of the auto-reply page, up to the name. */
  function ReplyHead(): string {
    "\n" + ReplyDocumentOpen() + ReplyStyle() + ReplyBodyOpen() + Fallback.Indent(16) + "<p>Hi <strong>"
  }

  function ReplyDocumentOpen(): string {
    Fallback.Line(4, "<!DOCTYPE html>")
    + Fallback.Line(4, "<html>")
    + Fallback.Line(4, "<head>")
    + Fallback.Line(8, "<meta " + "charset=\"UTF-8\">")
    + Fallback.Line(8, "<title>Thank " + "you for " + "reaching " + "out!</title>")
    + Fallback.Line(8, "<style>")
  }

  function ReplyStyle(): string {
    Fallback.Line(12, "body { ")
    + Fallback.Line(16, "font-family: " + "-apple-system, " + "BlinkMacSystemFont, " + "'Segoe UI', " + "Roboto, " + "sans-serif; ")
    + Fallback.Line(16, "background: " + "linear-gradient(" + "135deg, " + "#0f172a 0%, " + "#581c87 50%, " + "#0f172a 100%);")
    + Fallback.Line(16, "color: #ffffff; ")
    + Fallback.Line(16, "margin: 0; ")
    + Fallback.Line(16, "padding: 20px;")
    + Fallback.Line(12, "}")
    + Fallback.Line(12, ".container { ")
    + Fallback.Line(16, "max-width: " + "600px; ")
    + Fallback.Line(16, "margin: 0 auto; ")
    + Fallback.Line(16, "background: " + "rgba(15, 23, " + "42, 0.95);")
    + Fallback.Line(16, "border-radius: " + "16px;")
    + Fallback.Line(16, "overflow: " + "hidden;")
    + Fallback.Line(16, "box-shadow: 0 " + "25px 50px -12px " + "rgba(0, 0, 0, " + "0.5);")
    + Fallback.Line(12, "}")
    + Fallback.Line(12, ".header { ")
    + Fallback.Line(16, "background: " + "linear-gradient(" + "135deg, " + "#7c3aed 0%, " + "#ec4899 100%); ")
    + Fallback.Line(16, "padding: 30px " + "24px; ")
    + Fallback.Line(16, "text-align: " + "center; ")
    + Fallback.Line(12, "}")
    + Fallback.Line(12, ".content { ")
    + Fallback.Line(16, "padding: 30px " + "24px;")
    + Fallback.Line(16, "line-height: " + "1.6;")
    + Fallback.Line(12, "}")
    + Fallback.Line(12, ".logo {")
    + Fallback.Line(16, "width: 50px;")
    + Fallback.Line(16, "height: 50px;")
    + Fallback.Line(16, "background: " + "linear-gradient(" + "135deg, " + "#a855f7 0%, " + "#ec4899 100%);")
    + Fallback.Line(16, "border-radius: " + "12px;")
    + Fallback.Line(16, "display: " + "inline-flex;")
    + Fallback.Line(16, "align-items: " + "center;")
    + Fallback.Line(16, "justify-content: " + "center;")
    + Fallback.Line(16, "margin-bottom: " + "16px;")
    + Fallback.Line(16, "color: white;")
    + Fallback.Line(16, "font-size: 20px;")
    + Fallback.Line(16, "font-weight: " + "bold;")
    + Fallback.Line(12, "}")
    + Fallback.Line(12, ".footer {")
    + Fallback.Line(16, "background: " + "rgba(15, 23, " + "42, 0.9);")
    + Fallback.Line(16, "padding: 20px " + "24px;")
    + Fallback.Line(16, "text-align: " + "center;")
    + Fallback.Line(16, "border-top: 1px " + "solid rgba(255, " + "255, 255, 0.1);")
    + Fallback.Line(16, "color: " + "rgba(255, 255, " + "255, 0.7);")
    + Fallback.Line(16, "font-size: 14px;")
    + Fallback.Line(12, "}")
  }

  function ReplyBodyOpen(): string {
    Fallback.Line(8, "</style>")
    + Fallback.Line(4, "</head>")
    + Fallback.Line(4, "<body>")
    + Fallback.Line(8, "<div " + "class=\"container\">")
    + Fallback.Line(12, "<div " + "class=\"header\">")
    + Fallback.Line(16, "<div " + "class=\"logo\">S</div>")
    + Fallback.Line(16, "<h1 " + "style=\"margin: " + "0; font-size: " + "24px;\">Thanks " + "for reaching " + "out!</h1>")
    + Fallback.Line(12, "</div>")
    + Fallback.Line(12, "<div " + "class=\"content\">")
  }

  /** The fixed end of the auto-reply page, after the name. */
  function ReplyTail(): string {
    "</strong>,</p>\n"
    + Fallback.Line(16, "<p>Thank you " + "for reaching " + "out through my " + "portfolio! I've " + "received your " + "message and " + "truly " + "appreciate you " + "taking the time " + "to connect.</p>")
    + Fallback.Line(16, "<p>I typically " + "respond within " + "<strong>24 " + "hours</strong> " + "and am excited " + "to discuss your " + "project or " + "inquiry " + "further.</p>")
    + Fallback.Line(16, "<p>In the " + "meantime, feel " + "free to check " + "out my latest " + "work and " + "connect with me " + "on other " + "platforms.</p>")
    + Fallback.Line(16, "<p>Looking " + "forward to our " + "conversation!</p>")
    + Fallback.Line(16, "<p " + "style=\"margin-top: " + "30px;\">")
    + Fallback.Line(20, "Best " + "regards,<br>")
    + Fallback.Line(20, "<strong>Silambarasu " + "Arunkumaravel" + "</strong><br>")
    + Fallback.Line(20, "<span " + "style=\"color: " + "rgba(255, 255, " + "255, " + "0.8);\">Full " + "Stack Developer " + "at Starlight " + "Music</span>")
    + Fallback.Line(16, "</p>")
    + Fallback.Line(12, "</div>")
    + Fallback.Line(12, "<div " + "class=\"footer\">")
    + Fallback.Line(16, "<p>This is an " + "automated " + "response. " + "Please don't " + "reply to this " + "email.</p>")
    + Fallback.Line(16, "<p>Visit my " + "portfolio: <a " + "href=\"https://" + "silambarasu.dev\" " + "style=\"color: " + "#a855f7;\">" + "silambarasu.dev" + "</a></p>")
    + Fallback.Line(12, "</div>")
    + Fallback.Line(8, "</div>")
    + Fallback.Line(4, "</body>")
    + Fallback.Indent(4) + "</html>"
  }

  /** The fixed texts of a page around the one name it shows. */
  datatype Letter = Letter(head: string, tail: string)

  /** The auto-reply page's fixed texts. */
  function AutoReplyLetter(): Letter {
    Letter(ReplyHead(), ReplyTail())
  }

  /** `getAutoReplyTemplate(name)`: the page with the escaped name. */
  function AutoReplyPage(letter: Letter, name: string): string {
    letter.head + Escape(name) + letter.tail
  }

  /** Different names give different auto-reply pages: the page shows the
      name losslessly. */
  lemma AutoReplyInjective(letter: Letter, a: string, b: string)
    requires AutoReplyPage(letter, a) == AutoReplyPage(letter, b)
    ensures a == b
  {
    MiddleCancel(letter.head, Escape(a), Escape(b), letter.tail);
    UnescapeEscape(a);
    UnescapeEscape(b);
  }

  /** Equal texts with the same ends have the same middle. */
  lemma MiddleCancel(head: string, x: string, y: string, tail: string)
    requires head + x + tail == head + y + tail
    ensures x == y
  {
    var s := head + x + tail;
    assert |x| == |y|;
    assert s[|head|..|head| + |x|] == x;
    assert (head + y + tail)[|head|..|head| + |y|] == y;
  }

  /** A tag such as `<script>` given as the name arrives as text in the
      auto-reply. */
  lemma AutoReplyTagName(letter: Letter, name: string)
    requires forall k | 0 <= k < |name| :: 'a' <= name[k] <= 'z'
    ensures AutoReplyPage(letter, "<" + name + ">") == letter.head + ("&lt;" + name + "&gt;") + letter.tail
  {
    TagEscaped(name);
  }

  /** The plain-text auto-reply after the greeting. */
  function ReplyText(): string {
    ",\n\nThank you " + "for reaching out " + "through my " + "portfolio! " + "I've received " + "your message " + "and will get " + "back to you " + "within 24 hours."
    + "\n\nBest regards," + "\nSilambarasu " + "Arunkumaravel" + "\nFull Stack " + "Developer"
  }

  /** The auto-reply: from the SMTP user to the submitter. */
  function AutoReplyMail(letter: Letter, user: string, data: FormData): Mail {
    Mail(Sender("Silambarasu Arunkumaravel", user), data.email,
         "Re: " + data.subject + " - Thanks for " + "reaching out!",
         AutoReplyPage(letter, data.name), "Hi " + data.name + ReplyText(), None, [])
  }

  /** `sendAutoReply`: sends only when SEND_AUTO_REPLY is exactly "true", and
      completes whatever the transport answers. The caller guarantees that
      SMTP_USER is set. */
  function SendAutoReply(service: Service, env: Env, data: FormData, delivery: Outcome): (r: Sent)
    requires env.smtpUser.Some?
    ensures r.result == Ok
    ensures r.attempted == [] || r.attempted == [AutoReplyMail(service.letter, env.smtpUser.value, data)]
    ensures r.attempted != [] <==> env.sendAutoReply == Some("true")
  {
    if !Truthy(env.sendAutoReply) || env.sendAutoReply.value != "true" then Sent([], Ok)
    else Sent([AutoReplyMail(service.letter, env.smtpUser.value, data)], Ok)
  }

  /** Both credentials and the notification address are set. */
  predicate Configured(env: Env) {
    Truthy(env.smtpUser) && Truthy(env.smtpPass) && Truthy(env.notificationEmail)
  }

  /** `sendContactFormNotification`: two guards, then the notification, then
      the auto-reply; a failed notification is rethrown and stops there. */
  function SendContactFormNotification(service: Service, env: Env, data: FormData, stamp: string,
                                       plainStamp: string, primary: Outcome, reply: Outcome): (r: Sent)
    ensures !Truthy(env.smtpUser) || !Truthy(env.smtpPass) ==> r == Sent([], Err(CredentialsMissing))
    ensures Truthy(env.smtpUser) && Truthy(env.smtpPass) && !Truthy(env.notificationEmail)
            ==> r == Sent([], Err(NotificationMissing))
    ensures r.attempted != [] <==> Configured(env)
    ensures Configured(env) ==>
              var m := r.attempted[0];
              && m.from.address == env.smtpUser.value && m.to == env.notificationEmail.value
              && m.subject == "New Contact: " + data.subject && m.replyTo == Some(data.email)
              && m.html == Render(service.template, data, stamp)
    ensures Configured(env) && primary.Err? ==> r.result == primary && |r.attempted| == 1
    ensures r.result == Ok <==> Configured(env) && primary == Ok
    ensures |r.attempted| == 2 <==> Configured(env) && primary == Ok && env.sendAutoReply == Some("true")
    ensures |r.attempted| <= 2
  {
    if !Truthy(env.smtpUser) || !Truthy(env.smtpPass) then Sent([], Err(CredentialsMissing))
    else if !Truthy(env.notificationEmail) then Sent([], Err(NotificationMissing))
    else
      var mail := NotificationMail(service, env.smtpUser.value, env.notificationEmail.value, data,
                                   stamp, plainStamp);
      match primary
      case Err(_) => Sent([mail], primary)
      case Ok =>
        var auto := SendAutoReply(service, env, data, reply);
        Sent([mail] + auto.attempted, Ok)
  }

  /** The outcome of the notification never depends on how the auto-reply
      went. */
  lemma AutoReplyFailureSwallowed(service: Service, env: Env, data: FormData, stamp: string,
                                  plainStamp: string, primary: Outcome, reply: Outcome, other: Outcome)
    ensures SendContactFormNotification(service, env, data, stamp, plainStamp, primary, reply)
         == SendContactFormNotification(service, env, data, stamp, plainStamp, primary, other)
  {
  }

  /** When the auto-reply is sent, it goes second, to the submitter. */
  lemma AutoReplyGoesToSubmitter(service: Service, env: Env, data: FormData, stamp: string,
                                 plainStamp: string, reply: Outcome)
    requires Configured(env) && env.sendAutoReply == Some("true")
    ensures var r := SendContactFormNotification(service, env, data, stamp, plainStamp, Ok, reply);
            |r.attempted| == 2 && r.attempted[1].to == data.email
            && r.attempted[1].subject == "Re: " + data.subject + " - Thanks for " + "reaching out!"
            && r.attempted[1].html == AutoReplyPage(service.letter, data.name)
  {
  }

  /** With the template file missing, the notification shows the fallback
      page with the escaped fields and the timestamp in place, for fields
      without '{' or `$` and a timestamp without `$`. */
  lemma FallbackNotification(data: FormData, stamp: string)
    requires FieldsAvoid(data, '{') && FieldsAvoid(data, '$') && '$' !in stamp
    ensures Render(LoadTemplate(Unreadable), data, stamp)
         == Fallback.Head() + (Escape(data.name) + (Fallback.NextField("Email") + (Escape(data.email)
            + (Fallback.NextField("Subject") + (Escape(data.subject) + (Fallback.NextField("Message")
            + (Escape(data.message) + (Fallback.ReceivedOpen() + (stamp + Fallback.Epilogue())))))))))
  {
    Fallback.RenderFallback(data, stamp);
  }

  /** The `$&` defect as the recipient sees it: with a template that is just
      the name placeholder, a submitter named `$&` makes the notification's
      HTML show the placeholder followed by "amp;" instead of the name. */
  lemma NotificationDollarName(service: Service, env: Env, plainStamp: string, primary: Outcome, reply: Outcome)
    requires Configured(env) && service.template == Token(Name)
    ensures var r := SendContactFormNotification(service, env, FormData("$&", "", "", ""), "", plainStamp,
                                                 primary, reply);
            r.attempted[0].html == Token(Name) + "amp;"
  {
    DollarNameShowsPlaceholder();
  }

  /** `verifyConnection`: true exactly when the transport's check completes. */
  function VerifyConnection(check: Outcome): (ok: bool)
    ensures ok <==> check == Ok
  {
    check.Ok?
  }
}
