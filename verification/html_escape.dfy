/** `escapeHtml` of the e-mail service (lib/emailService.ts): a per-character
    entity map for the five characters that are special in HTML. */
module HtmlEscape {

  /** The five characters `escapeHtml` replaces. */
  predicate Special(c: char) {
    c == '&' || c == '<' || c == '>' || c == '"' || c == '\''
  }

  /** The entity each special character becomes; any other character stays. */
  function EscapeChar(c: char): string {
    match c
    case '&' => "&amp;"
    case '<' => "&lt;"
    case '>' => "&gt;"
    case '"' => "&quot;"
    case '\'' => "&#039;"
    case _ => [c]
  }

  /** The characters that occur in the entities. */
  predicate EntityChar(c: char) {
    c in "&amp;lt;gt;quot;#039"
  }

  /** `text.replace(/[&<>"']/g, m => map[m])`. */
  function Escape(s: string): (r: string)
    ensures |r| >= |s|
    decreases |s|
  {
    if s == [] then [] else EscapeChar(s[0]) + Escape(s[1..])
  }

  /** Text without special characters is left as it is. */
  lemma {:induction false} EscapePlain(s: string)
    requires forall k | 0 <= k < |s| :: !Special(s[k])
    ensures Escape(s) == s
    decreases |s|
  {
    if s != [] {
      EscapePlain(s[1..]);
      EscapeCons(s[0], s[1..]);
      assert s == [s[0]] + s[1..];
    }
  }

  /** Escaped text can no longer open or close a tag or an attribute value:
      of the special characters only '&' survives, as the start of an
      entity. */
  lemma {:induction false} EscapeIsInert(s: string)
    ensures forall k | 0 <= k < |Escape(s)| :: !Special(Escape(s)[k]) || Escape(s)[k] == '&'
    decreases |s|
  {
    if s != [] {
      EscapeIsInert(s[1..]);
      var e := EscapeChar(s[0]);
      var r := Escape(s[1..]);
      assert Escape(s) == e + r;
      forall k | 0 <= k < |e + r|
        ensures !Special((e + r)[k]) || (e + r)[k] == '&'
      {
        if k < |e| {
          assert (e + r)[k] == e[k];
        } else {
          assert (e + r)[k] == r[k - |e|];
        }
      }
    }
  }

  /** Escaping works character by character, so it distributes over
      concatenation. */
  lemma {:induction false} EscapeAppend(a: string, b: string)
    ensures Escape(a + b) == Escape(a) + Escape(b)
    decreases |a|
  {
    if a != [] {
      assert (a + b)[0] == a[0];
      assert (a + b)[1..] == a[1..] + b;
      EscapeAppend(a[1..], b);
      calc {
        Escape(a + b);
        EscapeChar(a[0]) + Escape(a[1..] + b);
        EscapeChar(a[0]) + (Escape(a[1..]) + Escape(b));
        (EscapeChar(a[0]) + Escape(a[1..])) + Escape(b);
      }
    } else {
      assert a + b == b;
    }
  }

  /** Escaping only ever adds characters of the entities: any other
      non-special character occurs in the output exactly when it occurs in the
      input (so escaping never introduces, say, '{' or '$'). */
  lemma {:induction false} EscapeKeepsOtherChars(s: string, c: char)
    requires !Special(c) && !EntityChar(c)
    ensures c in Escape(s) <==> c in s
    decreases |s|
  {
    if s != [] {
      EscapeKeepsOtherChars(s[1..], c);
      assert s == [s[0]] + s[1..];
      assert c in EscapeChar(s[0]) <==> c == s[0];
    }
  }

  /** Decodes the five entities `escapeHtml` produces, leaving every other
      character as it is; the partner used to state that escaping loses
      nothing. */
  function Unescape(s: string): string
    decreases |s|
  {
    if s == [] then []
    else if s[0] != '&' then [s[0]] + Unescape(s[1..])
    else if |s| >= 5 && s[..5] == "&amp;" then "&" + Unescape(s[5..])
    else if |s| >= 4 && s[..4] == "&lt;" then "<" + Unescape(s[4..])
    else if |s| >= 4 && s[..4] == "&gt;" then ">" + Unescape(s[4..])
    else if |s| >= 6 && s[..6] == "&quot;" then "\"" + Unescape(s[6..])
    else if |s| >= 6 && s[..6] == "&#039;" then "'" + Unescape(s[6..])
    else [s[0]] + Unescape(s[1..])
  }

  /** Decoding undoes one escaped character in front of any text. */
  lemma UnescapeStep(c: char, rest: string)
    ensures Unescape(EscapeChar(c) + rest) == [c] + Unescape(rest)
  {
    match c
    case '&' => UnescapeEntity("&amp;", '&', rest);
    case '<' => UnescapeEntity("&lt;", '<', rest);
    case '>' => UnescapeEntity("&gt;", '>', rest);
    case '"' => UnescapeEntity("&quot;", '"', rest);
    case '\'' => UnescapeEntity("&#039;", '\'', rest);
    case _ => UnescapePlain(c, rest);
  }

  /** One entity in front of any text decodes to its character. */
  lemma UnescapeEntity(entity: string, c: char, rest: string)
    requires (entity, c) in {("&amp;", '&'), ("&lt;", '<'), ("&gt;", '>'), ("&quot;", '"'), ("&#039;", '\'')}
    ensures Unescape(entity + rest) == [c] + Unescape(rest)
  {
    var e := entity + rest;
    assert e[..|entity|] == entity && e[|entity|..] == rest;
    assert e[1] == entity[1];
  }

  /** A character other than '&' in front of any text decodes to itself. */
  lemma UnescapePlain(c: char, rest: string)
    requires c != '&'
    ensures Unescape([c] + rest) == [c] + Unescape(rest)
  {
    var e := [c] + rest;
    assert e[0] == c && e[1..] == rest;
  }

  /** Escaping is injective: decoding the entities gives back the input. */
  lemma {:induction false} UnescapeEscape(s: string)
    ensures Unescape(Escape(s)) == s
    decreases |s|
  {
    if s != [] {
      UnescapeEscape(s[1..]);
      UnescapeStep(s[0], Escape(s[1..]));
      assert s == [s[0]] + s[1..];
    }
  }

  /** A tag such as `<script>` typed into a form field arrives as inert
      text: its angle brackets become entities and its name is kept. */
  lemma TagEscaped(name: string)
    requires forall k | 0 <= k < |name| :: 'a' <= name[k] <= 'z'
    ensures Escape("<" + name + ">") == "&lt;" + name + "&gt;"
  {
    PlainWord(name);
    EscapeAngles();
    EscapeAppend("<", name);
    EscapeAppend("<" + name, ">");
  }

  /** The two angle brackets on their own. */
  lemma EscapeAngles()
    ensures Escape("<") == "&lt;" && Escape(">") == "&gt;"
  {
    EscapeCons('<', []);
    EscapeCons('>', []);
  }

  /** Escaping a text is escaping its first character, then the rest. */
  lemma EscapeCons(c: char, s: string)
    ensures Escape([c] + s) == EscapeChar(c) + Escape(s)
  {
    assert ([c] + s)[0] == c && ([c] + s)[1..] == s;
  }

  /** A word of letters escapes to itself. */
  lemma PlainWord(w: string)
    requires forall k | 0 <= k < |w| :: 'a' <= w[k] <= 'z'
    ensures Escape(w) == w
  {
    EscapePlain(w);
  }
}
