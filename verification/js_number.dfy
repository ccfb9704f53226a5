/** The global `parseInt` of ECMAScript (section 19.2.5 of ECMA-262) with no
    radix argument, and the decimal text of a natural number that it reads
    back. Numbers are exact integers here; `NaN` is a value of its own. */
module JsNumber {
  import opened JsText

  /** What `parseInt` returns: an integer, or `NaN` when no digit is found. */
  datatype Number = Int(value: int) | NaN

  /** The value of `c` as a digit of `radix` (10 or 16), or -1. */
  function DigitValue(c: char, radix: nat): (d: int)
    requires radix == 10 || radix == 16
    ensures -1 <= d < radix
    ensures radix == 10 ==> (d >= 0 <==> '0' <= c <= '9')
  {
    if '0' <= c <= '9' then c as int - '0' as int
    else if radix == 16 && 'a' <= c <= 'f' then c as int - 'a' as int + 10
    else if radix == 16 && 'A' <= c <= 'F' then c as int - 'A' as int + 10
    else -1
  }

  /** Every character of `s` is a digit of `radix`. */
  predicate AllDigits(s: string, radix: nat)
    requires radix == 10 || radix == 16
  {
    forall k | 0 <= k < |s| :: DigitValue(s[k], radix) >= 0
  }

  /** The length of the longest prefix of `s` made of digits of `radix`. */
  function DigitRun(s: string, radix: nat): (n: nat)
    requires radix == 10 || radix == 16
    ensures n <= |s| && AllDigits(s[..n], radix)
    ensures n < |s| ==> DigitValue(s[n], radix) < 0
    decreases |s|
  {
    if s == [] || DigitValue(s[0], radix) < 0 then 0
    else
      var n := 1 + DigitRun(s[1..], radix);
      assert s[..n] == [s[0]] + s[1..][..n - 1];
      n
  }

  /** The value of a string of digits, most significant first. */
  function DigitsValue(s: string, radix: nat): nat
    requires radix == 10 || radix == 16
    requires AllDigits(s, radix)
    decreases |s|
  {
    if s == [] then 0
    else DigitsValue(s[..|s| - 1], radix) * radix + DigitValue(s[|s| - 1], radix)
  }

  /** `parseInt(s)`: leading whitespace is skipped, then an optional sign,
      then a `0x`/`0X` prefix switches to radix 16; the longest run of digits
      that follows is the value, and anything after it is ignored. */
  function ParseInt(s: string): (r: Number)
    ensures r.NaN? <==> (var t := Unsigned(TrimStart(s));
                         DigitRun(Digits(t), Radix(t)) == 0)
  {
    var t := TrimStart(s);
    var sign := if |t| > 0 && t[0] == '-' then -1 else 1;
    var u := Unsigned(t);
    var radix := Radix(u);
    var digits := Digits(u);
    var n := DigitRun(digits, radix);
    if n == 0 then NaN else Int(sign * DigitsValue(digits[..n], radix))
  }

  /** The text after a leading sign, if any. */
  function Unsigned(t: string): (u: string)
    ensures u == t || (|t| > 0 && (t[0] == '-' || t[0] == '+') && u == t[1..])
  {
    if |t| > 0 && (t[0] == '-' || t[0] == '+') then t[1..] else t
  }

  /** Whether the unsigned text starts with a hexadecimal prefix. */
  predicate HexPrefixed(u: string) {
    |u| >= 2 && u[0] == '0' && (u[1] == 'x' || u[1] == 'X')
  }

  function Radix(u: string): (radix: nat)
    ensures radix == 10 || radix == 16
  {
    if HexPrefixed(u) then 16 else 10
  }

  /** The text after the hexadecimal prefix, if any. */
  function Digits(u: string): string {
    if HexPrefixed(u) then u[2..] else u
  }

  /** The decimal digit for `d`. */
  function DigitChar(d: nat): (c: char)
    requires d < 10
    ensures DigitValue(c, 10) == d
  {
    ('0' as int + d) as char
  }

  /** `String(n)` for a natural number: its decimal digits, without leading
      zeros. */
  function ShowNat(n: nat): (s: string)
    ensures |s| > 0 && AllDigits(s, 10)
    ensures |s| > 1 ==> s[0] != '0'
    decreases n
  {
    if n < 10 then [DigitChar(n)]
    else
      var s := ShowNat(n / 10) + [DigitChar(n % 10)];
      assert s[0] == ShowNat(n / 10)[0];
      s
  }

  /** The digits of `ShowNat(n)` are worth `n`. */
  lemma {:induction false} ShowNatValue(n: nat)
    ensures DigitsValue(ShowNat(n), 10) == n
    decreases n
  {
    var s := ShowNat(n);
    if n >= 10 {
      ShowNatValue(n / 10);
      assert s[..|s| - 1] == ShowNat(n / 10);
    }
  }

  /** `parseInt` reads back the decimal text of any natural number. */
  lemma ParseShow(n: nat)
    ensures ParseInt(ShowNat(n)) == Int(n)
  {
    var s := ShowNat(n);
    assert DigitValue(s[0], 10) >= 0;
    assert !IsSpace(s[0]);
    assert TrimStart(s) == s;
    assert Unsigned(s) == s;
    assert !HexPrefixed(s);
    DigitRunAll(s, 10);
    assert s[..|s|] == s;
    ShowNatValue(n);
  }

  /** A string made only of digits is one run. */
  lemma {:induction false} DigitRunAll(s: string, radix: nat)
    requires radix == 10 || radix == 16
    requires AllDigits(s, radix)
    ensures DigitRun(s, radix) == |s|
    decreases |s|
  {
    if s != [] {
      assert DigitValue(s[0], radix) >= 0;
      DigitRunAll(s[1..], radix);
    }
  }

  /** The two port numbers the mail service distinguishes read back as
      themselves. */
  lemma ParsePorts()
    ensures ParseInt("587") == Int(587) && ParseInt("465") == Int(465)
  {
    ShowPorts();
    ParseShow(587);
    ParseShow(465);
  }

  lemma ShowPorts()
    ensures ShowNat(587) == "587" && ShowNat(465) == "465"
  {
    assert ShowNat(5) == "5" && ShowNat(4) == "4";
    assert ShowNat(58) == ShowNat(5) + "8";
    assert ShowNat(46) == ShowNat(4) + "6";
    assert ShowNat(587) == ShowNat(58) + "7";
    assert ShowNat(465) == ShowNat(46) + "5";
  }
}
