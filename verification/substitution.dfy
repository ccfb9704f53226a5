/** `String.prototype.replace` with a global regular expression that matches a
    fixed text and a replacement given as a string (section 22.1.3.19 of
    ECMA-262, with GetSubstitution of section 22.1.3.19.1): every
    non-overlapping occurrence, scanned left to right, is replaced by the
    replacement string after its `$` patterns are expanded. */
module Substitution {
  import opened JsText

  /** GetSubstitution for a pattern without capture groups: `$$` is a dollar,
      `$&` the matched text, `` $` `` the text before the match, `$'` the text
      after it; any other `$` stands for itself. */
  function Expand(replacement: string, matched: string, subject: string, position: nat): (r: string)
    requires position + |matched| <= |subject|
    ensures '$' !in replacement ==> r == replacement
    decreases |replacement|
  {
    if replacement == [] then []
    else if replacement[0] == '$' && |replacement| >= 2 then
      (match replacement[1]
       case '$' => "$"
       case '&' => matched
       case '`' => subject[..position]
       case '\'' => subject[position + |matched|..]
       case _ => "$" + [replacement[1]])
      + Expand(replacement[2..], matched, subject, position)
    else [replacement[0]] + Expand(replacement[1..], matched, subject, position)
  }

  /** The scan of the global replace from index `i` on: at each index the
      token either occurs, and is replaced, or the character is copied. */
  function ReplaceFrom(subject: string, token: string, replacement: string, i: nat): string
    requires |token| > 0 && i <= |subject|
    decreases |subject| - i
  {
    if i + |token| > |subject| then subject[i..]
    else if subject[i..i + |token|] == token then
      Expand(replacement, token, subject, i) + ReplaceFrom(subject, token, replacement, i + |token|)
    else [subject[i]] + ReplaceFrom(subject, token, replacement, i + 1)
  }

  /** `subject.replace(/token/g, replacement)`. */
  function ReplaceAll(subject: string, token: string, replacement: string): string
    requires |token| > 0
  {
    ReplaceFrom(subject, token, replacement, 0)
  }

  /** Plain text substitution: every non-overlapping occurrence of `token`,
      leftmost first, becomes `value`, taken literally. */
  function ReplaceLiteral(s: string, token: string, value: string): string
    requires |token| > 0
    decreases |s|
  {
    if |s| < |token| then s
    else if s[..|token|] == token then value + ReplaceLiteral(s[|token|..], token, value)
    else [s[0]] + ReplaceLiteral(s[1..], token, value)
  }

  /** A replacement without `$` is inserted literally: the global replace is
      then plain text substitution. */
  lemma {:induction false} ReplaceFromLiteral(subject: string, token: string, replacement: string, i: nat)
    requires |token| > 0 && i <= |subject|
    requires '$' !in replacement
    ensures ReplaceFrom(subject, token, replacement, i) == ReplaceLiteral(subject[i..], token, replacement)
    decreases |subject| - i
  {
    var s := subject[i..];
    if i + |token| > |subject| {
    } else if subject[i..i + |token|] == token {
      assert s[..|token|] == token && s[|token|..] == subject[i + |token|..];
      calc {
        ReplaceFrom(subject, token, replacement, i);
        Expand(replacement, token, subject, i) + ReplaceFrom(subject, token, replacement, i + |token|);
        { ReplaceFromLiteral(subject, token, replacement, i + |token|); }
        replacement + ReplaceLiteral(subject[i + |token|..], token, replacement);
        { ReplaceLiteralFront(s, token, replacement); }
        ReplaceLiteral(s, token, replacement);
      }
    } else {
      assert s[..|token|] != token && s[1..] == subject[i + 1..] && s[0] == subject[i];
      calc {
        ReplaceFrom(subject, token, replacement, i);
        [subject[i]] + ReplaceFrom(subject, token, replacement, i + 1);
        { ReplaceFromLiteral(subject, token, replacement, i + 1); }
        [subject[i]] + ReplaceLiteral(subject[i + 1..], token, replacement);
        { ReplaceLiteralFront(s, token, replacement); }
        ReplaceLiteral(s, token, replacement);
      }
    }
  }

  /** One step of the plain substitution on a text at least as long as the
      token. */
  lemma ReplaceLiteralFront(s: string, token: string, value: string)
    requires 0 < |token| <= |s|
    ensures s[..|token|] == token ==> ReplaceLiteral(s, token, value) == value + ReplaceLiteral(s[|token|..], token, value)
    ensures s[..|token|] != token ==> ReplaceLiteral(s, token, value) == [s[0]] + ReplaceLiteral(s[1..], token, value)
  {
  }

  /** The same for the whole subject. */
  lemma ReplaceAllLiteral(subject: string, token: string, replacement: string)
    requires |token| > 0 && '$' !in replacement
    ensures ReplaceAll(subject, token, replacement) == ReplaceLiteral(subject, token, replacement)
  {
    ReplaceFromLiteral(subject, token, replacement, 0);
    assert subject[0..] == subject;
  }

  /** Text in which the token does not occur is left unchanged. */
  lemma {:induction false} ReplaceLiteralAbsent(s: string, token: string, value: string)
    requires |token| > 0 && !Contains(s, token)
    ensures ReplaceLiteral(s, token, value) == s
    decreases |s|
  {
    if |s| >= |token| {
      assert !OccursAt(s, token, 0);
      assert s[..|token|] != token;
      assert !Contains(s[1..], token) by {
        forall i | 0 <= i <= |s[1..]| - |token|
          ensures !OccursAt(s[1..], token, i)
        {
          assert !OccursAt(s, token, i + 1);
          assert s[1..][i..i + |token|] == s[i + 1..i + 1 + |token|];
        }
      }
      ReplaceLiteralAbsent(s[1..], token, value);
      assert s == [s[0]] + s[1..];
    }
  }

  /** A token at the front is replaced by the value. */
  lemma ReplaceLiteralToken(token: string, rest: string, value: string)
    requires |token| > 0
    ensures ReplaceLiteral(token + rest, token, value) == value + ReplaceLiteral(rest, token, value)
  {
    var s := token + rest;
    assert s[..|token|] == token && s[|token|..] == rest;
  }

  /** No occurrence of `token` in `a + b` starts inside `a`. */
  predicate NoneStartsIn(a: string, b: string, token: string) {
    forall i | 0 <= i < |a| :: !OccursAt(a + b, token, i)
  }

  /** Text in front of which no occurrence starts is copied unchanged. */
  lemma {:induction false} ReplaceLiteralSkip(a: string, b: string, token: string, value: string)
    requires |token| > 0 && NoneStartsIn(a, b, token)
    ensures ReplaceLiteral(a + b, token, value) == a + ReplaceLiteral(b, token, value)
    decreases |a|
  {
    if a == [] {
      assert a + b == b;
    } else {
      var s := a + b;
      assert !OccursAt(s, token, 0);
      NoneStartsInTail(a, b, token);
      ReplaceLiteralSkip(a[1..], b, token, value);
      if |s| < |token| {
        assert ReplaceLiteral(b, token, value) == b;
      } else {
        assert s[..|token|] != token && s[1..] == a[1..] + b && s[0] == a[0];
        calc {
          ReplaceLiteral(s, token, value);
          { ReplaceLiteralFront(s, token, value); }
          [a[0]] + ReplaceLiteral(a[1..] + b, token, value);
          [a[0]] + (a[1..] + ReplaceLiteral(b, token, value));
          { assert a == [a[0]] + a[1..]; }
          a + ReplaceLiteral(b, token, value);
        }
      }
    }
  }

  /** If no occurrence starts in `a`, none starts in its tail either. */
  lemma NoneStartsInTail(a: string, b: string, token: string)
    requires |a| > 0 && NoneStartsIn(a, b, token)
    ensures NoneStartsIn(a[1..], b, token)
  {
    var s := a + b;
    assert s[1..] == a[1..] + b;
    forall i | 0 <= i < |a[1..]|
      ensures !OccursAt(a[1..] + b, token, i)
    {
      assert !OccursAt(s, token, i + 1);
      if i <= |s[1..]| - |token| {
        assert s[1..][i..i + |token|] == s[i + 1..i + 1 + |token|];
      }
    }
  }

  /** What the `$&` pattern does: a replacement that starts with `$&` puts the
      matched token back in front of the rest of the replacement. */
  lemma DollarAmpersandKeepsToken(token: string, tail: string)
    requires |token| > 0 && '$' !in tail
    ensures ReplaceAll(token, token, "$&" + tail) == token + tail
  {
    var rep := "$&" + tail;
    assert rep[0] == '$' && rep[1] == '&' && rep[2..] == tail;
    assert token[0..|token|] == token;
    assert Expand(rep, token, token, 0) == token + tail;
    assert ReplaceFrom(token, token, rep, |token|) == [];
  }
}
