/** The ECMAScript string primitives the contact pipeline relies on:
    `\s` / `trim` whitespace, `trim`, `toLowerCase`, `length` (UTF-16 code
    units) and `Array.prototype.join`. Strings are sequences of Unicode
    scalar values. */
module JsText {

  /** The characters ECMAScript calls WhiteSpace or LineTerminator: exactly the
      set the regular-expression class `\s` matches and `String.prototype.trim`
      strips (tab, VT, FF, space, NBSP, BOM, the Zs category, LF, CR, LS, PS). */
  predicate IsSpace(c: char) {
    || c == '\t' || c == '\U{000B}' || c == '\U{000C}' || c == ' '
    || c == '\U{00A0}' || c == '\U{FEFF}' || c == '\U{1680}'
    || ('\U{2000}' <= c <= '\U{200A}')
    || c == '\U{202F}' || c == '\U{205F}' || c == '\U{3000}'
    || c == '\n' || c == '\r' || c == '\U{2028}' || c == '\U{2029}'
  }

  /** No character of `s` is whitespace. */
  predicate SpaceFree(s: string) {
    forall k | 0 <= k < |s| :: !IsSpace(s[k])
  }

  /** Every character of `s` is whitespace (vacuously true of ""). */
  predicate AllSpace(s: string) {
    forall k | 0 <= k < |s| :: IsSpace(s[k])
  }

  /** Strips leading whitespace: the result is the longest suffix of `s` that
      does not start with whitespace, and everything dropped is whitespace. */
  function TrimStart(s: string): (r: string)
    ensures |r| <= |s| && r == s[|s| - |r|..]
    ensures AllSpace(s[..|s| - |r|])
    ensures |r| > 0 ==> !IsSpace(r[0])
    decreases |s|
  {
    if |s| > 0 && IsSpace(s[0]) then TrimStart(s[1..]) else s
  }

  /** Strips trailing whitespace: the result is the longest prefix of `s` that
      does not end with whitespace, and everything dropped is whitespace. */
  function TrimEnd(s: string): (r: string)
    ensures |r| <= |s| && r == s[..|r|]
    ensures AllSpace(s[|r|..])
    ensures |r| > 0 ==> !IsSpace(r[|r| - 1])
    decreases |s|
  {
    if |s| > 0 && IsSpace(s[|s| - 1]) then TrimEnd(s[..|s| - 1]) else s
  }

  /** `String.prototype.trim`: an infix of `s` that neither starts nor ends
      with whitespace (see `TrimIsInfix` for what lies outside it). */
  function Trim(s: string): (r: string)
    ensures |r| <= |s|
    ensures |r| > 0 ==> !IsSpace(r[0]) && !IsSpace(r[|r| - 1])
  {
    TrimEnd(TrimStart(s))
  }

  /** Trimming removes only whitespace from the two ends: the result is an
      infix `s[i..j]` with whitespace outside it and non-whitespace at its ends. */
  lemma TrimIsInfix(s: string)
    ensures exists i, j :: 0 <= i <= j <= |s| && Trim(s) == s[i..j]
                           && AllSpace(s[..i]) && AllSpace(s[j..])
    ensures |Trim(s)| > 0 ==> !IsSpace(Trim(s)[0]) && !IsSpace(Trim(s)[|Trim(s)| - 1])
  {
    var a := TrimStart(s);
    var i := |s| - |a|;
    var j := i + |TrimEnd(a)|;
    assert Trim(s) == s[i..j];
    assert s[j..] == a[|TrimEnd(a)|..];
  }

  /** `trim` is the identity exactly on strings with no whitespace at either end;
      in particular on strings with no whitespace at all. */
  lemma TrimSpaceFree(s: string)
    requires SpaceFree(s)
    ensures Trim(s) == s
  {
    if |s| > 0 {
      assert !IsSpace(s[0]);
      assert TrimStart(s) == s;
      assert !IsSpace(s[|s| - 1]);
    }
  }

  /** A string that neither starts nor ends with whitespace trims to itself. */
  lemma TrimKeepsInnerSpace(s: string)
    requires |s| > 0 && !IsSpace(s[0]) && !IsSpace(s[|s| - 1])
    ensures Trim(s) == s
  {
  }

  /** A string trims to "" exactly when it consists of whitespace only. */
  lemma TrimEmptyIffAllSpace(s: string)
    ensures Trim(s) == "" <==> AllSpace(s)
  {
  }

  /** Whitespace at the end is stripped along with anything before it. */
  lemma {:induction false} TrimEndSpaceSuffix(s: string, spaces: string)
    requires AllSpace(spaces)
    ensures TrimEnd(s + spaces) == TrimEnd(s)
    decreases |spaces|
  {
    if spaces == [] {
      assert s + spaces == s;
    } else {
      var shorter := spaces[..|spaces| - 1];
      assert (s + spaces)[..|s + spaces| - 1] == s + shorter;
      TrimEndSpaceSuffix(s, shorter);
    }
  }

  /** Text ending in a non-whitespace part keeps everything before that part. */
  lemma {:induction false} TrimEndKeepsPrefix(p: string, s: string)
    requires !AllSpace(s)
    ensures TrimEnd(p + s) == p + TrimEnd(s)
    decreases |s|
  {
    var last := s[|s| - 1];
    assert (p + s)[|p + s| - 1] == last;
    if IsSpace(last) {
      var shorter := s[..|s| - 1];
      assert !AllSpace(shorter) by {
        var k :| 0 <= k < |s| && !IsSpace(s[k]);
        assert k < |s| - 1 && shorter[k] == s[k];
      }
      assert (p + s)[..|p + s| - 1] == p + shorter;
      TrimEndKeepsPrefix(p, shorter);
    }
  }

  /** Leading whitespace in front of any text is dropped by TrimStart. */
  lemma {:induction false} TrimStartSpacePrefix(spaces: string, s: string)
    requires AllSpace(spaces)
    ensures TrimStart(spaces + s) == TrimStart(s)
    decreases |spaces|
  {
    if spaces == [] {
      assert spaces + s == s;
    } else {
      assert (spaces + s)[0] == spaces[0] && (spaces + s)[1..] == spaces[1..] + s;
      TrimStartSpacePrefix(spaces[1..], s);
    }
  }

  /** Trimming a text framed by whitespace, whose body starts with a
      non-whitespace character and whose tail is not all whitespace, keeps the
      body and the tail up to its trailing whitespace. */
  lemma TrimFramed(lead: string, body: string, tail: string, trailing: string)
    requires AllSpace(lead) && AllSpace(trailing)
    requires |body| > 0 && !IsSpace(body[0]) && !AllSpace(tail)
    ensures Trim(lead + body + tail + trailing) == body + TrimEnd(tail)
  {
    var inner := body + tail + trailing;
    assert lead + body + tail + trailing == lead + inner;
    TrimStartSpacePrefix(lead, inner);
    assert inner[0] == body[0];
    TrimEndSpaceSuffix(body + tail, trailing);
    TrimEndKeepsPrefix(body, tail);
  }

  /** ASCII `toLowerCase` on one character: `A`-`Z` map to `a`-`z`. */
  function LowerChar(c: char): char {
    if 'A' <= c <= 'Z' then (c as int + 32) as char else c
  }

  /** `String.prototype.toLowerCase`, for the ASCII letters. */
  function ToLower(s: string): (r: string)
    ensures |r| == |s|
    ensures forall k | 0 <= k < |s| :: r[k] == LowerChar(s[k])
    decreases |s|
  {
    if s == [] then [] else [LowerChar(s[0])] + ToLower(s[1..])
  }

  /** Lowercasing is idempotent. */
  lemma ToLowerIdempotent(s: string)
    ensures ToLower(ToLower(s)) == ToLower(s)
  {
  }

  /** Lowercasing never creates or removes whitespace, '@' or '.'. */
  lemma LowerCharKeepsClass(c: char)
    ensures IsSpace(LowerChar(c)) <==> IsSpace(c)
    ensures LowerChar(c) == '@' <==> c == '@'
    ensures LowerChar(c) == '.' <==> c == '.'
  {
  }

  /** Number of UTF-16 code units of one character. */
  function CodeUnits(c: char): nat {
    if c as int > 0xFFFF then 2 else 1
  }

  /** `String.prototype.length`: the number of UTF-16 code units, so a
      character outside the Basic Multilingual Plane counts twice. */
  function JsLength(s: string): (n: nat)
    ensures |s| <= n <= 2 * |s|
    ensures (forall k | 0 <= k < |s| :: s[k] as int <= 0xFFFF) ==> n == |s|
    decreases |s|
  {
    if s == [] then 0 else CodeUnits(s[0]) + JsLength(s[1..])
  }

  /** `Array.prototype.join(sep)` on an array of strings. */
  function Join(parts: seq<string>, sep: string): string
    decreases |parts|
  {
    if parts == [] then ""
    else if |parts| == 1 then parts[0]
    else parts[0] + sep + Join(parts[1..], sep)
  }

  /** Joining keeps every part, in order, with one separator between
      neighbours: the joined length is the parts' lengths plus the separators. */
  lemma {:induction false} JoinLength(parts: seq<string>, sep: string)
    requires parts != []
    ensures |Join(parts, sep)| == SumLengths(parts) + (|parts| - 1) * |sep|
    ensures Join(parts, sep)[..|parts[0]|] == parts[0]
    decreases |parts|
  {
    if |parts| > 1 {
      JoinLength(parts[1..], sep);
      assert SumLengths(parts) == |parts[0]| + SumLengths(parts[1..]);
    }
  }

  /** Total length of a list of strings. */
  function SumLengths(parts: seq<string>): nat
    decreases |parts|
  {
    if parts == [] then 0 else |parts[0]| + SumLengths(parts[1..])
  }

  /** `t` occurs in `s` as a contiguous infix (`s.includes(t)`). */
  predicate Contains(s: string, t: string) {
    exists i | 0 <= i <= |s| - |t| :: OccursAt(s, t, i)
  }

  /** `t` occurs in `s` starting at index `i`. */
  predicate OccursAt(s: string, t: string, i: int) {
    0 <= i <= |s| - |t| && s[i..i + |t|] == t
  }

  /** An infix of a middle part is an infix of the whole. */
  lemma ContainsMiddle(a: string, t: string, b: string)
    ensures Contains(a + t + b, t)
  {
    assert OccursAt(a + t + b, t, |a|);
  }
}
