/** `replaceTemplateVariables` of the e-mail service (lib/emailService.ts):
    the notification template's five `{{field}}` placeholders are filled, one
    global replace after another, with the HTML-escaped form fields and the
    submission time. */
module Template {
  import opened JsText
  import opened HtmlEscape
  import opened Substitution

  /** The placeholders the template may contain. */
  datatype Field = Name | Email | Subject | Message | Timestamp

  function FieldName(f: Field): string {
    match f
    case Name => "name"
    case Email => "email"
    case Subject => "subject"
    case Message => "message"
    case Timestamp => "timestamp"
  }

  /** The placeholder `{{field}}`. */
  function Token(f: Field): string {
    "{{" + FieldName(f) + "}}"
  }

  /** Every placeholder opens with two braces and has no further brace, and the
      five placeholders already differ in their third character. */
  lemma TokenShape(f: Field, g: Field)
    ensures |Token(f)| >= 5 && Token(f)[0] == '{' && Token(f)[1] == '{'
    ensures forall k | 2 <= k < |Token(f)| :: Token(f)[k] != '{'
    ensures f != g ==> Token(f)[2] != Token(g)[2]
  {
  }

  /** The four user-supplied fields of a submission. */
  datatype FormData = FormData(name: string, email: string, subject: string, message: string)

  /** The source's chain of five global replaces; the first four insert the
      escaped field as a replacement string, so `$` patterns in it expand. */
  function Render(template: string, data: FormData, timestamp: string): string {
    var named := ReplaceAll(template, Token(Name), Escape(data.name));
    var mailed := ReplaceAll(named, Token(Email), Escape(data.email));
    var titled := ReplaceAll(mailed, Token(Subject), Escape(data.subject));
    var written := ReplaceAll(titled, Token(Message), Escape(data.message));
    ReplaceAll(written, Token(Timestamp), timestamp)
  }

  /** The same chain with every value inserted literally, as the placeholders
      are evidently meant to be filled. */
  function RenderLiteral(template: string, data: FormData, timestamp: string): string {
    var named := ReplaceLiteral(template, Token(Name), Escape(data.name));
    var mailed := ReplaceLiteral(named, Token(Email), Escape(data.email));
    var titled := ReplaceLiteral(mailed, Token(Subject), Escape(data.subject));
    var written := ReplaceLiteral(titled, Token(Message), Escape(data.message));
    ReplaceLiteral(written, Token(Timestamp), timestamp)
  }

  /** A template seen as fixed text with placeholders between it. */
  datatype Piece = Text(text: string) | Slot(field: Field)

  /** A piece as text: a placeholder shows its value once it has one. */
  function PieceText(p: Piece, values: map<Field, string>): string {
    match p
    case Text(t) => t
    case Slot(f) => if f in values then values[f] else Token(f)
  }

  /** The text of a layout whose fields in `values` are filled. */
  function Layout(ps: seq<Piece>, values: map<Field, string>): string
    decreases |ps|
  {
    if ps == [] then [] else PieceText(ps[0], values) + Layout(ps[1..], values)
  }

  /** Every '{' is followed, within the text, by something other than '{':
      no placeholder can start inside such a text, nor straddle its end. */
  predicate BraceSafe(s: string) {
    forall k | 0 <= k < |s| :: SafeAt(s, k)
  }

  /** The character at `k` is no '{', or one followed by something else. */
  predicate SafeAt(s: string, k: nat)
    requires k < |s|
  {
    s[k] == '{' ==> k + 1 < |s| && s[k + 1] != '{'
  }

  /** Every fixed text of the layout is brace-safe. */
  predicate WellFormed(ps: seq<Piece>) {
    forall k | 0 <= k < |ps| && ps[k].Text? :: BraceSafe(ps[k].text)
  }

  /** No filled value contains a brace. */
  predicate BraceFreeValues(values: map<Field, string>) {
    forall f | f in values :: '{' !in values[f]
  }

  /** Text without braces is brace-safe. */
  lemma BraceFreeSafe(s: string)
    requires '{' !in s
    ensures BraceSafe(s)
  {
    forall k | 0 <= k < |s| ensures SafeAt(s, k) {
      assert s[k] in s;
    }
  }

  /** Brace-safety is kept by concatenation. */
  lemma BraceSafeAppend(a: string, b: string)
    requires BraceSafe(a) && BraceSafe(b)
    ensures BraceSafe(a + b)
  {
    var s := a + b;
    forall k | 0 <= k < |s|
      ensures SafeAt(s, k)
    {
      if k < |a| {
        assert SafeAt(a, k);
        assert s[k] == a[k];
        if k + 1 < |a| {
          assert s[k + 1] == a[k + 1];
        }
      } else {
        assert SafeAt(b, k - |a|);
        assert s[k] == b[k - |a|];
        if k + 1 < |s| {
          assert s[k + 1] == b[k + 1 - |a|];
        }
      }
    }
  }

  /** A token does not occur at `i` if some character of it differs there. */
  lemma Mismatch(s: string, t: string, i: nat, j: nat)
    requires j < |t| && (i + j < |s| ==> s[i + j] != t[j])
    ensures !OccursAt(s, t, i)
  {
    if i + |t| <= |s| {
      assert s[i..i + |t|][j] == s[i + j];
      assert s[i..i + |t|][j] != t[j];
    }
  }

  /** No placeholder `Token(f)` starts inside a piece, given that fixed text is
      brace-safe, filled values have no brace and the piece is not the
      unfilled placeholder for `f` itself. */
  lemma PieceStartsNoToken(p: Piece, values: map<Field, string>, rest: string, f: Field)
    requires p.Text? ==> BraceSafe(p.text)
    requires BraceFreeValues(values)
    requires p.Slot? && p.field !in values ==> p.field != f
    ensures NoneStartsIn(PieceText(p, values), rest, Token(f))
  {
    var a := PieceText(p, values);
    var s := a + rest;
    var t := Token(f);
    forall i | 0 <= i < |a|
      ensures !OccursAt(s, t, i)
    {
      assert s[i] == a[i];
      match p
      case Text(x) =>
        TokenShape(f, f);
        if a[i] != '{' {
          Mismatch(s, t, i, 0);
        } else {
          assert SafeAt(x, i);
          assert s[i + 1] == a[i + 1];
          Mismatch(s, t, i, 1);
        }
      case Slot(g) =>
        if g in values {
          assert a[i] in values[g];
          TokenShape(f, f);
          Mismatch(s, t, i, 0);
        } else {
          TokenShape(g, f);
          TokenShape(f, g);
          if i == 0 {
            assert s[2] == a[2];
            Mismatch(s, t, i, 2);
          } else if i == 1 {
            assert s[2] == a[2];
            Mismatch(s, t, i, 1);
          } else {
            Mismatch(s, t, i, 0);
          }
        }
    }
  }

  /** One literal substitution step fills exactly the placeholders of `f`:
      its result is the layout with `f` given the value. */
  lemma {:induction false} LayoutStep(ps: seq<Piece>, values: map<Field, string>, f: Field, v: string)
    requires WellFormed(ps) && BraceFreeValues(values) && f !in values
    ensures ReplaceLiteral(Layout(ps, values), Token(f), v) == Layout(ps, values[f := v])
    decreases |ps|
  {
    if ps != [] {
      var p := ps[0];
      var rest := Layout(ps[1..], values);
      assert WellFormed(ps[1..]) by {
        forall k | 0 <= k < |ps[1..]| && ps[1..][k].Text?
          ensures BraceSafe(ps[1..][k].text)
        {
          assert ps[1..][k] == ps[k + 1];
        }
      }
      LayoutStep(ps[1..], values, f, v);
      if p == Slot(f) {
        ReplaceLiteralToken(Token(f), rest, v);
      } else {
        assert p.Text? ==> BraceSafe(p.text) by {
          if p.Text? {
            assert ps[0].Text?;
          }
        }
        PieceStartsNoToken(p, values, rest, f);
        ReplaceLiteralSkip(PieceText(p, values), rest, Token(f), v);
        assert PieceText(p, values[f := v]) == PieceText(p, values);
      }
    }
  }

  /** The values the five placeholders receive. */
  function Filled(data: FormData, timestamp: string): map<Field, string> {
    map[Name := Escape(data.name), Email := Escape(data.email), Subject := Escape(data.subject),
        Message := Escape(data.message), Timestamp := timestamp]
  }

  /** No form field contains `c`. */
  predicate FieldsAvoid(data: FormData, c: char) {
    c !in data.name && c !in data.email && c !in data.subject && c !in data.message
  }

  /** Escaping adds neither '{' nor '$'. */
  lemma EscapeAddsNoBraceNorDollar(s: string)
    ensures '{' in Escape(s) <==> '{' in s
    ensures '$' in Escape(s) <==> '$' in s
  {
    EscapeKeepsOtherChars(s, '{');
    EscapeKeepsOtherChars(s, '$');
  }

  /** Literal rendering of a well-formed layout fills every placeholder with
      its escaped field and the timestamp, and leaves the fixed text as it
      is. */
  lemma RenderLiteralFillsLayout(ps: seq<Piece>, data: FormData, timestamp: string)
    requires WellFormed(ps) && FieldsAvoid(data, '{')
    ensures RenderLiteral(Layout(ps, map[]), data, timestamp) == Layout(ps, Filled(data, timestamp))
  {
    EscapeAddsNoBraceNorDollar(data.name);
    EscapeAddsNoBraceNorDollar(data.email);
    EscapeAddsNoBraceNorDollar(data.subject);
    EscapeAddsNoBraceNorDollar(data.message);
    var m0: map<Field, string> := map[];
    var m1 := FillStep(ps, m0, Name, Escape(data.name));
    var m2 := FillStep(ps, m1, Email, Escape(data.email));
    var m3 := FillStep(ps, m2, Subject, Escape(data.subject));
    var m4 := FillStep(ps, m3, Message, Escape(data.message));
    LayoutStep(ps, m4, Timestamp, timestamp);
    assert m4[Timestamp := timestamp] == Filled(data, timestamp);
  }

  /** One step of the chain, handing on the filled values. */
  lemma FillStep(ps: seq<Piece>, values: map<Field, string>, f: Field, v: string)
      returns (filled: map<Field, string>)
    requires WellFormed(ps) && BraceFreeValues(values) && f !in values && '{' !in v
    ensures filled == values[f := v] && BraceFreeValues(filled)
    ensures ReplaceLiteral(Layout(ps, values), Token(f), v) == Layout(ps, filled)
  {
    filled := values[f := v];
    LayoutStep(ps, values, f, v);
  }

  /** Without `$` in the fields and the timestamp, the source's chain of
      replaces is literal substitution. */
  lemma RenderWithoutDollar(template: string, data: FormData, timestamp: string)
    requires FieldsAvoid(data, '$') && '$' !in timestamp
    ensures Render(template, data, timestamp) == RenderLiteral(template, data, timestamp)
  {
    EscapeAddsNoBraceNorDollar(data.name);
    EscapeAddsNoBraceNorDollar(data.email);
    EscapeAddsNoBraceNorDollar(data.subject);
    EscapeAddsNoBraceNorDollar(data.message);
    var named := ReplaceAll(template, Token(Name), Escape(data.name));
    ReplaceAllLiteral(template, Token(Name), Escape(data.name));
    var mailed := ReplaceAll(named, Token(Email), Escape(data.email));
    ReplaceAllLiteral(named, Token(Email), Escape(data.email));
    var titled := ReplaceAll(mailed, Token(Subject), Escape(data.subject));
    ReplaceAllLiteral(mailed, Token(Subject), Escape(data.subject));
    var written := ReplaceAll(titled, Token(Message), Escape(data.message));
    ReplaceAllLiteral(titled, Token(Message), Escape(data.message));
    ReplaceAllLiteral(written, Token(Timestamp), timestamp);
  }

  /** The source's rendering of a well-formed layout, for fields and a
      timestamp without `$` and fields without '{'. */
  lemma RenderFillsLayout(ps: seq<Piece>, data: FormData, timestamp: string)
    requires WellFormed(ps) && FieldsAvoid(data, '{')
    requires FieldsAvoid(data, '$') && '$' !in timestamp
    ensures Render(Layout(ps, map[]), data, timestamp) == Layout(ps, Filled(data, timestamp))
  {
    RenderWithoutDollar(Layout(ps, map[]), data, timestamp);
    RenderLiteralFillsLayout(ps, data, timestamp);
  }

  /** A filled placeholder shows its value in the text. */
  lemma {:induction false} LayoutShowsValue(ps: seq<Piece>, values: map<Field, string>, k: nat)
    requires k < |ps| && ps[k].Slot? && ps[k].field in values
    ensures Contains(Layout(ps, values), values[ps[k].field])
    decreases k
  {
    var head := PieceText(ps[0], values);
    var rest := Layout(ps[1..], values);
    var v := values[ps[k].field];
    if k == 0 {
      ContainsMiddle([], v, rest);
      assert [] + v + rest == head + rest;
    } else {
      assert ps[1..][k - 1] == ps[k];
      LayoutShowsValue(ps[1..], values, k - 1);
      var i :| 0 <= i <= |rest| - |v| && OccursAt(rest, v, i);
      assert (head + rest)[|head| + i..|head| + i + |v|] == rest[i..i + |v|];
      assert OccursAt(head + rest, v, |head| + i);
    }
  }

  /** Every placeholder receives a value. */
  lemma FilledEveryField(data: FormData, timestamp: string, f: Field)
    ensures f in Filled(data, timestamp)
  {
  }

  /** The source's rendering shows every escaped field and the timestamp
      wherever the layout has a placeholder for it, for fields and a
      timestamp without `$` and fields without '{'. */
  lemma RenderShowsFields(ps: seq<Piece>, data: FormData, timestamp: string, k: nat)
    requires WellFormed(ps) && FieldsAvoid(data, '{')
    requires FieldsAvoid(data, '$') && '$' !in timestamp
    requires k < |ps| && ps[k].Slot?
    ensures ps[k].field in Filled(data, timestamp)
    ensures Contains(Render(Layout(ps, map[]), data, timestamp), Filled(data, timestamp)[ps[k].field])
  {
    var m := Filled(data, timestamp);
    FilledEveryField(data, timestamp, ps[k].field);
    RenderFillsLayout(ps, data, timestamp);
    LayoutShowsValue(ps, m, k);
  }

  /** A name `$&` is escaped to `$&amp;`. */
  lemma EscapeDollarAmpersand()
    ensures Escape("$&") == "$&" + "amp;"
  {
    assert "$&"[1..] == "&";
    assert Escape("&") == "&amp;";
  }

  /** The source's chain for a name `$&` and otherwise empty fields, with the
      empty fields' escaping done. */
  lemma DollarNameChain()
    ensures Render(Token(Name), FormData("$&", "", "", ""), "")
         == ReplaceAll(ReplaceAll(ReplaceAll(ReplaceAll(
              ReplaceAll(Token(Name), Token(Name), Escape("$&")),
              Token(Email), ""), Token(Subject), ""), Token(Message), ""), Token(Timestamp), "")
  {
    assert Escape("") == "";
  }

  /** Where the source goes wrong: a name `$&` is escaped to `$&amp;`, and the
      replace reads its `$&` as "the matched text", so the name placeholder
      reappears followed by `amp;` instead of the name. */
  lemma DollarNameShowsPlaceholder()
    ensures Render(Token(Name), FormData("$&", "", "", ""), "") == Token(Name) + "amp;"
  {
    DollarNameChain();
    EscapeDollarAmpersand();
    DollarAmpersandKeepsToken(Token(Name), "amp;");
    EmptyFieldsKeep(Token(Name) + "amp;");
  }

  /** The last four replaces with empty values leave the placeholder for the
      name, and text without braces, alone. */
  lemma EmptyFieldsKeep(named: string)
    requires named == Token(Name) + "amp;"
    ensures ReplaceAll(ReplaceAll(ReplaceAll(ReplaceAll(named, Token(Email), ""),
              Token(Subject), ""), Token(Message), ""), Token(Timestamp), "") == named
  {
    var ps := [Slot(Name), Text("amp;")];
    BraceFreeSafe("amp;");
    assert WellFormed(ps);
    assert Layout(ps, map[]) == named;
    var m0: map<Field, string> := map[];
    var m1 := m0[Email := ""];
    var m2 := m1[Subject := ""];
    var m3 := m2[Message := ""];
    EmptyStep(ps, m0, Email);
    EmptyStep(ps, m1, Subject);
    EmptyStep(ps, m2, Message);
    EmptyStep(ps, m3, Timestamp);
    assert Layout(ps, m3[Timestamp := ""]) == named;
  }

  /** The global replace of a placeholder by empty text, on a layout. */
  lemma EmptyStep(ps: seq<Piece>, values: map<Field, string>, f: Field)
    requires WellFormed(ps) && BraceFreeValues(values) && f !in values
    ensures ReplaceAll(Layout(ps, values), Token(f), "") == Layout(ps, values[f := ""])
  {
    ReplaceAllLiteral(Layout(ps, values), Token(f), "");
    LayoutStep(ps, values, f, "");
  }

  /** The corrected rendering shows the name `$&` as its escaped text. */
  lemma DollarNameLiteral()
    ensures RenderLiteral(Token(Name), FormData("$&", "", "", ""), "") == "$&amp;"
  {
    var data := FormData("$&", "", "", "");
    EscapeDollarAmpersand();
    var single := [Slot(Name)];
    assert Layout(single, map[]) == Token(Name);
    RenderLiteralFillsLayout(single, data, "");
    assert Layout(single, Filled(data, "")) == Escape("$&");
  }
}
