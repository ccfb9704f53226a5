/** `getFallbackTemplate` of the e-mail service (lib/emailService.ts): the
    notification page used when the template file cannot be read. It is
    written here the way it is laid out in the source: indented lines, a
    style sheet of one-line rules, and one block per form field, with the
    five placeholders between fixed texts. */
module Fallback {
  import opened JsText
  import opened Template
  import opened HtmlEscape

  /** `n` spaces of indentation. */
  function Indent(n: nat): (r: string)
    ensures |r| == n && forall k | 0 <= k < n :: r[k] == ' '
  {
    seq(n, _ => ' ')
  }

  /** One line of the page: indentation, content, line break. */
  function Line(indent: nat, content: string): string {
    Indent(indent) + content + "\n"
  }

  /** A style rule on one line: `selector { declarations }`. */
  function Rule(selector: string, declarations: string): string {
    selector + " { " + declarations + " }"
  }

  /** The document head up to the opening of the style sheet. */
  function Prologue(): string {
    "\n" + Line(4, "<!DOCTYPE html>") + Line(4, "<html>") + Line(4, "<head>")
    + Line(8, "<meta charset=\"UTF-8\">")
    + Line(8, "<title>" + "New Contact Form Submission" + "</title>")
    + Line(8, "<style>")
  }

  function BodyRule(): string {
    Rule("body", "font-family: Arial, sans-serif; " + "background-color: #0f172a; " + "color: #ffffff;")
  }

  function ContainerRule(): string {
    Rule(".container", "max-width: 600px; " + "margin: 0 auto; " + "padding: 20px;")
  }

  function HeaderRule(): string {
    Rule(".header", "background: linear-gradient(" + "135deg, #7c3aed 0%, " + "#ec4899 100%); "
      + ("padding: 20px; " + "border-radius: 10px; " + "text-align: center;"))
  }

  function ContentRule(): string {
    Rule(".content", "background: #1e293b; " + "padding: 20px; " + "margin: 20px 0; " + "border-radius: 10px;")
  }

  function FieldRule(): string {
    Rule(".field", "margin-bottom: 15px;")
  }

  function LabelRule(): string {
    Rule(".label", "font-weight: bold; " + "color: #a855f7;")
  }

  function ValueRule(): string {
    Rule(".value", "background: " + "rgba(255, 255, 255, 0.1); " + "padding: 10px; "
      + "border-radius: 5px; " + "margin-top: 5px;")
  }

  /** The style sheet: seven rules, one per line. */
  function Sheet(): string {
    Line(12, BodyRule()) + Line(12, ContainerRule()) + Line(12, HeaderRule())
    + Line(12, ContentRule()) + Line(12, FieldRule()) + Line(12, LabelRule())
    + Line(12, ValueRule())
  }

  /** From the end of the style sheet to the opening of the content box. */
  function BodyOpen(): string {
    Line(8, "</style>") + Line(4, "</head>") + Line(4, "<body>")
    + Line(8, "<div class=\"container\">") + Line(12, "<div class=\"header\">")
    + Line(16, "<h1>" + "New Contact Form Submission" + "</h1>")
    + Line(12, "</div>") + Line(12, "<div class=\"content\">")
  }

  /** The opening of a field block, up to where its value goes. */
  function FieldOpen(caption: string): string {
    Line(16, "<div class=\"field\">")
    + Line(20, "<div class=\"label\">" + caption + ":</div>")
    + Indent(20) + "<div class=\"value\">"
  }

  /** The closing of a field block after its value. */
  function FieldClose(): string {
    "</div>\n" + Line(16, "</div>")
  }

  /** The fixed text before the name. */
  function Head(): string {
    Prologue() + Sheet() + BodyOpen() + FieldOpen("Name")
  }

  /** The fixed text between one field's value and the next field's. */
  function NextField(caption: string): string {
    FieldClose() + FieldOpen(caption)
  }

  /** The fixed text before the timestamp. */
  function ReceivedOpen(): string {
    FieldClose() + Indent(16) + "<p><strong>Received:</strong> "
  }

  /** The fixed text after the timestamp. */
  function Epilogue(): string {
    "</p>\n" + Line(12, "</div>") + Line(8, "</div>") + Line(4, "</body>") + Indent(4) + "</html>"
  }

  /** A page with the five placeholders, each once, in the order name,
      e-mail, subject, message, timestamp, between six fixed texts. */
  function FieldPage(head: string, afterName: string, afterEmail: string, afterSubject: string,
                     afterMessage: string, tail: string): seq<Piece> {
    [Text(head), Slot(Name), Text(afterName), Slot(Email), Text(afterEmail), Slot(Subject),
     Text(afterSubject), Slot(Message), Text(afterMessage), Slot(Timestamp), Text(tail)]
  }

  /** The fallback page as a layout. */
  function Pieces(): seq<Piece> {
    FieldPage(Head(), NextField("Email"), NextField("Subject"), NextField("Message"),
              ReceivedOpen(), Epilogue())
  }

  /** The fallback page with its placeholders unfilled. */
  function Html(): string {
    Head() + (Token(Name) + (NextField("Email") + (Token(Email)
    + (NextField("Subject") + (Token(Subject) + (NextField("Message")
    + (Token(Message) + (ReceivedOpen() + (Token(Timestamp) + Epilogue())))))))))
  }

  /** Indentation is brace-free. */
  lemma IndentFree(n: nat)
    ensures '{' !in Indent(n)
  {
    assert forall k | 0 <= k < |Indent(n)| :: Indent(n)[k] != '{';
  }

  /** A line with brace-free content is brace-free. */
  lemma LineFree(indent: nat, content: string)
    requires '{' !in content
    ensures '{' !in Line(indent, content)
  {
    IndentFree(indent);
  }

  /** A rule is brace-safe when its selector and declarations have no braces:
      its one '{' is followed by a space. */
  lemma RuleLineSafe(selector: string, declarations: string)
    requires '{' !in selector && '{' !in declarations
    ensures BraceSafe(Line(12, Rule(selector, declarations)))
  {
    IndentFree(12);
    var before := Indent(12) + selector + " ";
    var after := declarations + " }" + "\n";
    BraceFreeSafe(before);
    BraceFreeSafe(after);
    assert BraceSafe("{ ");
    BraceSafeAppend("{ ", after);
    BraceSafeAppend(before, "{ " + after);
    assert before + ("{ " + after) == Line(12, Rule(selector, declarations));
  }

  lemma PrologueFree()
    ensures '{' !in Prologue()
  {
    PrologueContentsFree();
    LineFree(4, "<!DOCTYPE html>");
    LineFree(4, "<html>");
    LineFree(4, "<head>");
    LineFree(8, "<meta charset=\"UTF-8\">");
    LineFree(8, "<title>" + "New Contact Form Submission" + "</title>");
    LineFree(8, "<style>");
  }

  lemma PrologueContentsFree()
    ensures '{' !in "<!DOCTYPE html>" && '{' !in "<html>" && '{' !in "<head>"
    ensures '{' !in "<meta charset=\"UTF-8\">" && '{' !in "<style>"
    ensures '{' !in "<title>" + "New Contact Form Submission" + "</title>"
  {
  }

  lemma BodyRuleSafe()
    ensures BraceSafe(Line(12, BodyRule()))
  {
    var d := "font-family: Arial, sans-serif; " + "background-color: #0f172a; " + "color: #ffffff;";
    BodyDeclarationsFree();
    RuleLineSafe("body", d);
  }

  lemma BodyDeclarationsFree()
    ensures '{' !in "body"
    ensures '{' !in "font-family: Arial, sans-serif; " + "background-color: #0f172a; " + "color: #ffffff;"
  {
  }

  lemma ContainerRuleSafe()
    ensures BraceSafe(Line(12, ContainerRule()))
  {
    ContainerDeclarationsFree();
    RuleLineSafe(".container", "max-width: 600px; " + "margin: 0 auto; " + "padding: 20px;");
  }

  lemma ContainerDeclarationsFree()
    ensures '{' !in ".container"
    ensures '{' !in "max-width: 600px; " + "margin: 0 auto; " + "padding: 20px;"
  {
  }

  lemma HeaderRuleSafe()
    ensures BraceSafe(Line(12, HeaderRule()))
  {
    var gradient := "background: linear-gradient(" + "135deg, #7c3aed 0%, " + "#ec4899 100%); ";
    var box := "padding: 20px; " + "border-radius: 10px; " + "text-align: center;";
    HeaderDeclarationsFree();
    RuleLineSafe(".header", gradient + box);
  }

  lemma HeaderDeclarationsFree()
    ensures '{' !in ".header"
    ensures '{' !in ("background: linear-gradient(" + "135deg, #7c3aed 0%, " + "#ec4899 100%); ")
                    + ("padding: 20px; " + "border-radius: 10px; " + "text-align: center;")
  {
    GradientFree();
    BoxFree();
  }

  lemma GradientFree()
    ensures '{' !in "background: linear-gradient(" + "135deg, #7c3aed 0%, " + "#ec4899 100%); "
  {
  }

  lemma BoxFree()
    ensures '{' !in "padding: 20px; " + "border-radius: 10px; " + "text-align: center;"
  {
  }

  lemma ContentRuleSafe()
    ensures BraceSafe(Line(12, ContentRule()))
  {
    ContentDeclarationsFree();
    RuleLineSafe(".content", "background: #1e293b; " + "padding: 20px; " + "margin: 20px 0; " + "border-radius: 10px;");
  }

  lemma ContentDeclarationsFree()
    ensures '{' !in ".content"
    ensures '{' !in "background: #1e293b; " + "padding: 20px; " + "margin: 20px 0; " + "border-radius: 10px;"
  {
  }

  lemma FieldAndLabelRulesSafe()
    ensures BraceSafe(Line(12, FieldRule())) && BraceSafe(Line(12, LabelRule()))
  {
    FieldAndLabelDeclarationsFree();
    RuleLineSafe(".field", "margin-bottom: 15px;");
    RuleLineSafe(".label", "font-weight: bold; " + "color: #a855f7;");
  }

  lemma FieldAndLabelDeclarationsFree()
    ensures '{' !in ".field" && '{' !in "margin-bottom: 15px;"
    ensures '{' !in ".label" && '{' !in "font-weight: bold; " + "color: #a855f7;"
  {
  }

  lemma ValueRuleSafe()
    ensures BraceSafe(Line(12, ValueRule()))
  {
    ValueDeclarationsFree();
    RuleLineSafe(".value", "background: " + "rgba(255, 255, 255, 0.1); " + "padding: 10px; "
      + "border-radius: 5px; " + "margin-top: 5px;");
  }

  lemma ValueDeclarationsFree()
    ensures '{' !in ".value"
    ensures '{' !in "background: " + "rgba(255, 255, 255, 0.1); " + "padding: 10px; "
                    + "border-radius: 5px; " + "margin-top: 5px;"
  {
  }

  /** The style sheet is brace-safe. */
  lemma SheetSafe()
    ensures BraceSafe(Sheet())
  {
    BodyRuleSafe();
    ContainerRuleSafe();
    HeaderRuleSafe();
    ContentRuleSafe();
    FieldAndLabelRulesSafe();
    ValueRuleSafe();
    var a := Line(12, BodyRule()) + Line(12, ContainerRule());
    BraceSafeAppend(Line(12, BodyRule()), Line(12, ContainerRule()));
    var b := a + Line(12, HeaderRule());
    BraceSafeAppend(a, Line(12, HeaderRule()));
    var c := b + Line(12, ContentRule());
    BraceSafeAppend(b, Line(12, ContentRule()));
    var d := c + Line(12, FieldRule());
    BraceSafeAppend(c, Line(12, FieldRule()));
    var e := d + Line(12, LabelRule());
    BraceSafeAppend(d, Line(12, LabelRule()));
    BraceSafeAppend(e, Line(12, ValueRule()));
  }

  lemma BodyOpenFree()
    ensures '{' !in BodyOpen()
  {
    BodyOpenContentsFree();
    LineFree(8, "</style>");
    LineFree(4, "</head>");
    LineFree(4, "<body>");
    LineFree(8, "<div class=\"container\">");
    LineFree(12, "<div class=\"header\">");
    LineFree(16, "<h1>" + "New Contact Form Submission" + "</h1>");
    LineFree(12, "</div>");
    LineFree(12, "<div class=\"content\">");
  }

  lemma BodyOpenContentsFree()
    ensures '{' !in "</style>" && '{' !in "</head>" && '{' !in "<body>" && '{' !in "</div>"
    ensures '{' !in "<div class=\"container\">" && '{' !in "<div class=\"header\">"
    ensures '{' !in "<h1>" + "New Contact Form Submission" + "</h1>"
    ensures '{' !in "<div class=\"content\">"
  {
  }

  /** A field block's fixed texts are brace-free for a brace-free label. */
  lemma FieldFree(caption: string)
    requires '{' !in caption
    ensures '{' !in FieldOpen(caption) && '{' !in FieldClose()
  {
    LineFree(16, "<div class=\"field\">");
    LineFree(20, "<div class=\"label\">" + caption + ":</div>");
    IndentFree(20);
    LineFree(16, "</div>");
  }

  lemma LastTextsFree()
    ensures '{' !in ReceivedOpen() && '{' !in Epilogue()
  {
    FieldFree("");
    IndentFree(16);
    IndentFree(4);
    LineFree(12, "</div>");
    LineFree(8, "</div>");
    LineFree(4, "</body>");
  }

  /** The fixed text up to the name placeholder is brace-safe. */
  lemma FirstTextSafe()
    ensures BraceSafe(Head())
  {
    PrologueFree();
    SheetSafe();
    BodyOpenFree();
    FieldFree("Name");
    FreeSafeFreeSafe(Prologue(), Sheet(), BodyOpen(), FieldOpen("Name"));
  }

  /** A safe text between texts without braces leaves the whole safe. */
  lemma FreeSafeFreeSafe(a: string, b: string, c: string, d: string)
    requires '{' !in a && BraceSafe(b) && '{' !in c && '{' !in d
    ensures BraceSafe(a + b + c + d)
  {
    BraceFreeSafe(a);
    BraceFreeSafe(c + d);
    BraceSafeAppend(a, b);
    BraceSafeAppend(a + b, c + d);
    assert a + b + (c + d) == a + b + c + d;
  }

  /** The fixed texts between the four field values are brace-safe. */
  lemma NextFieldsSafe()
    ensures BraceSafe(NextField("Email")) && BraceSafe(NextField("Subject"))
    ensures BraceSafe(NextField("Message"))
  {
    NextFieldSafe("Email");
    NextFieldSafe("Subject");
    NextFieldSafe("Message");
  }

  /** The fixed texts around the timestamp are brace-safe. */
  lemma LastTextsSafe()
    ensures BraceSafe(ReceivedOpen()) && BraceSafe(Epilogue())
  {
    LastTextsFree();
    BraceFreeSafe(ReceivedOpen());
    BraceFreeSafe(Epilogue());
  }

  /** The fixed text between two field values is brace-safe. */
  lemma NextFieldSafe(caption: string)
    requires '{' !in caption
    ensures BraceSafe(NextField(caption))
  {
    FieldFree(caption);
    BraceFreeSafe(NextField(caption));
  }

  /** Such a page is well formed when its six fixed texts are brace-safe. */
  lemma FieldPageWellFormed(head: string, afterName: string, afterEmail: string, afterSubject: string,
                            afterMessage: string, tail: string)
    requires BraceSafe(head) && BraceSafe(afterName) && BraceSafe(afterEmail)
    requires BraceSafe(afterSubject) && BraceSafe(afterMessage) && BraceSafe(tail)
    ensures WellFormed(FieldPage(head, afterName, afterEmail, afterSubject, afterMessage, tail))
  {
    var ps := FieldPage(head, afterName, afterEmail, afterSubject, afterMessage, tail);
    forall k | 0 <= k < |ps| && ps[k].Text?
      ensures BraceSafe(ps[k].text)
    {
      assert k % 2 == 0;
    }
  }

  /** Every fixed text of the fallback page is brace-safe. */
  lemma PiecesWellFormed()
    ensures WellFormed(Pieces())
  {
    FirstTextSafe();
    NextFieldsSafe();
    LastTextsSafe();
    FieldPageWellFormed(Head(), NextField("Email"), NextField("Subject"), NextField("Message"),
                        ReceivedOpen(), Epilogue());
  }

  /** The text of such a page is its six fixed texts with the five pieces of
      placeholder text between them. */
  lemma FieldPageText(head: string, afterName: string, afterEmail: string, afterSubject: string,
                      afterMessage: string, tail: string, values: map<Field, string>)
    ensures Layout(FieldPage(head, afterName, afterEmail, afterSubject, afterMessage, tail), values)
         == head + (PieceText(Slot(Name), values) + (afterName + (PieceText(Slot(Email), values)
            + (afterEmail + (PieceText(Slot(Subject), values) + (afterSubject
            + (PieceText(Slot(Message), values) + (afterMessage
            + (PieceText(Slot(Timestamp), values) + tail)))))))))
  {
    var v := values;
    var r5 := [Text(tail)];
    var r4 := [Text(afterMessage), Slot(Timestamp)] + r5;
    var r3 := [Text(afterSubject), Slot(Message)] + r4;
    var r2 := [Text(afterEmail), Slot(Subject)] + r3;
    var r1 := [Text(afterName), Slot(Email)] + r2;
    var r0 := [Text(head), Slot(Name)] + r1;
    LayoutSingle(tail, v);
    LayoutPair(afterMessage, Timestamp, r5, v);
    LayoutPair(afterSubject, Message, r4, v);
    LayoutPair(afterEmail, Subject, r3, v);
    LayoutPair(afterName, Email, r2, v);
    LayoutPair(head, Name, r1, v);
    assert r0 == FieldPage(head, afterName, afterEmail, afterSubject, afterMessage, tail);
  }

  /** A layout of one text is that text. */
  lemma LayoutSingle(t: string, values: map<Field, string>)
    ensures Layout([Text(t)], values) == t
  {
    assert [Text(t)][1..] == [];
  }

  /** A text and a placeholder in front of a layout. */
  lemma LayoutPair(t: string, f: Field, rest: seq<Piece>, values: map<Field, string>)
    ensures Layout([Text(t), Slot(f)] + rest, values)
         == t + (PieceText(Slot(f), values) + Layout(rest, values))
  {
    var ps := [Text(t), Slot(f)] + rest;
    assert ps[1..] == [Slot(f)] + rest;
    assert ps[1..][1..] == rest;
  }

  /** The fallback page is the layout of its pieces with no field filled. */
  lemma HtmlIsLayout()
    ensures Html() == Layout(Pieces(), map[])
  {
    FieldPageText(Head(), NextField("Email"), NextField("Subject"), NextField("Message"),
                  ReceivedOpen(), Epilogue(), map[]);
  }

  /** The source's rendering of a page of this shape puts each escaped
      field, and the timestamp, where its placeholder was, and changes
      nothing else, for fields without '{' and without `$`. */
  lemma RenderFieldPage(head: string, afterName: string, afterEmail: string, afterSubject: string,
                        afterMessage: string, tail: string, data: FormData, timestamp: string)
    requires BraceSafe(head) && BraceSafe(afterName) && BraceSafe(afterEmail)
    requires BraceSafe(afterSubject) && BraceSafe(afterMessage) && BraceSafe(tail)
    requires FieldsAvoid(data, '{') && FieldsAvoid(data, '$') && '$' !in timestamp
    ensures Render(Layout(FieldPage(head, afterName, afterEmail, afterSubject, afterMessage, tail), map[]),
                          data, timestamp)
         == head + (Escape(data.name) + (afterName + (Escape(data.email)
            + (afterEmail + (Escape(data.subject) + (afterSubject
            + (Escape(data.message) + (afterMessage + (timestamp + tail)))))))))
  {
    var ps := FieldPage(head, afterName, afterEmail, afterSubject, afterMessage, tail);
    var values := Filled(data, timestamp);
    FieldPageWellFormed(head, afterName, afterEmail, afterSubject, afterMessage, tail);
    RenderFillsLayout(ps, data, timestamp);
    FieldPageText(head, afterName, afterEmail, afterSubject, afterMessage, tail, values);
    FilledTexts(data, timestamp);
  }

  /** What each placeholder shows once the form is filled in. */
  lemma FilledTexts(data: FormData, timestamp: string)
    ensures PieceText(Slot(Name), Filled(data, timestamp)) == Escape(data.name)
    ensures PieceText(Slot(Email), Filled(data, timestamp)) == Escape(data.email)
    ensures PieceText(Slot(Subject), Filled(data, timestamp)) == Escape(data.subject)
    ensures PieceText(Slot(Message), Filled(data, timestamp)) == Escape(data.message)
    ensures PieceText(Slot(Timestamp), Filled(data, timestamp)) == timestamp
  {
  }

  /** The source's rendering of the fallback page puts each escaped field,
      and the timestamp, where its placeholder was, and changes nothing else,
      for fields without '{' and without `$`. */
  lemma RenderFallback(data: FormData, timestamp: string)
    requires FieldsAvoid(data, '{') && FieldsAvoid(data, '$') && '$' !in timestamp
    ensures Render(Html(), data, timestamp)
         == Head() + (Escape(data.name) + (NextField("Email") + (Escape(data.email)
            + (NextField("Subject") + (Escape(data.subject) + (NextField("Message")
            + (Escape(data.message) + (ReceivedOpen() + (timestamp + Epilogue())))))))))
  {
    FirstTextSafe();
    NextFieldsSafe();
    LastTextsSafe();
    HtmlIsLayout();
    RenderFieldPage(Head(), NextField("Email"), NextField("Subject"), NextField("Message"),
                    ReceivedOpen(), Epilogue(), data, timestamp);
  }
}
