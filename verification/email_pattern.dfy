/** The e-mail address pattern `^[^\s@]+@[^\s@]+\.[^\s@]+$`, which the contact
    handler (app/api/contact/route.ts) and the contact schema
    (models/Contact.ts) both use. */
module EmailPattern {
  import opened JsText

  /** A character the class `[^\s@]` accepts. */
  predicate Plain(c: char) {
    !IsSpace(c) && c != '@'
  }

  /** `[^\s@]+`: a non-empty run of plain characters. */
  predicate PlainRun(s: string) {
    |s| > 0 && forall k | 0 <= k < |s| :: Plain(s[k])
  }

  /** A range of plain characters of `s` is a run. */
  lemma RangeIsRun(s: string, lo: int, hi: int)
    requires 0 <= lo < hi <= |s|
    requires forall k | lo <= k < hi :: Plain(s[k])
    ensures PlainRun(s[lo..hi])
  {
    forall k | 0 <= k < hi - lo
      ensures Plain(s[lo..hi][k])
    {
      assert s[lo..hi][k] == s[lo + k];
    }
  }

  /** The pattern read literally: the whole of `s` splits as a plain run, the
      '@' at index `at`, a plain run, the '.' at index `dot`, a plain run.
      (The middle run may itself contain dots; any such split will do.) */
  predicate IsSplit(s: string, at: int, dot: int) {
    && 0 < at < dot < |s|
    && s[at] == '@' && s[dot] == '.'
    && PlainRun(s[..at]) && PlainRun(s[at + 1..dot]) && PlainRun(s[dot + 1..])
  }

  /** `/^[^\s@]+@[^\s@]+\.[^\s@]+$/.test(s)`. */
  predicate Matches(s: string) {
    exists at, dot | 0 <= at < |s| && 0 <= dot < |s| :: IsSplit(s, at, dot)
  }

  /** What a split forces on the whole string: no whitespace anywhere, and the
      '@' at `at` is the only one. */
  lemma SplitShape(s: string, at: int, dot: int)
    requires IsSplit(s, at, dot)
    ensures SpaceFree(s)
    ensures forall k | 0 <= k < |s| :: s[k] == '@' <==> k == at
  {
    forall k | 0 <= k < |s|
      ensures !IsSpace(s[k]) && (s[k] == '@' <==> k == at)
    {
      if k < at {
        assert s[k] == s[..at][k];
      } else if at < k < dot {
        assert s[k] == s[at + 1..dot][k - at - 1];
      } else if dot < k {
        assert s[k] == s[dot + 1..][k - dot - 1];
      }
    }
  }

  /** An address the pattern accepts contains no whitespace, so `trim` leaves it
      unchanged. */
  lemma MatchesIsSpaceFree(s: string)
    requires Matches(s)
    ensures SpaceFree(s)
    ensures Trim(s) == s
  {
    var at, dot :| 0 <= at < |s| && 0 <= dot < |s| && IsSplit(s, at, dot);
    SplitShape(s, at, dot);
    TrimSpaceFree(s);
  }

  /** Lowercasing (ASCII) keeps an accepted address accepted: it maps the three
      runs to runs of the same length and keeps the '@' and the '.'. */
  lemma MatchesToLower(s: string)
    requires Matches(s)
    ensures Matches(ToLower(s))
  {
    var at, dot :| 0 <= at < |s| && 0 <= dot < |s| && IsSplit(s, at, dot);
    var t := ToLower(s);
    forall k | 0 <= k < |s|
      ensures Plain(t[k]) <==> Plain(s[k])
    {
      LowerCharKeepsClass(s[k]);
    }
    SplitShape(s, at, dot);
    RangeIsRun(t, 0, at);
    RangeIsRun(t, at + 1, dot);
    RangeIsRun(t, dot + 1, |t|);
    LowerCharKeepsClass(s[at]);
    LowerCharKeepsClass(s[dot]);
    assert IsSplit(t, at, dot);
  }

  /** The split a scan reports: whitespace-free, a unique '@' that is not
      first, and a '.' at least two places after it and not last. */
  lemma ScanWitness(s: string, at: int, dot: int)
    requires SpaceFree(s)
    requires 0 < at && at + 1 < dot < |s| - 1
    requires s[at] == '@' && s[dot] == '.'
    requires forall k | 0 <= k < |s| && k != at :: s[k] != '@'
    ensures IsSplit(s, at, dot)
  {
    RangeIsRun(s, 0, at);
    RangeIsRun(s, at + 1, dot);
    RangeIsRun(s, dot + 1, |s|);
  }

  /** A single left-to-right scan deciding the pattern without backtracking:
      it tracks whether whitespace was seen, the position of the first '@',
      whether a second one followed, and a '.' that can end the middle run. */
  method Scan(s: string) returns (ok: bool)
    ensures ok <==> Matches(s)
  {
    var spaced := false;
    var manyAts := false;
    var at := -1;
    var dot := -1;
    var i := 0;
    while i < |s|
      invariant 0 <= i <= |s|
      invariant !spaced ==> SpaceFree(s[..i])
      invariant spaced ==> exists k | 0 <= k < i :: IsSpace(s[k])
      invariant -1 <= at < i
      invariant at == -1 ==> !manyAts && forall k | 0 <= k < i :: s[k] != '@'
      invariant at >= 0 ==> s[at] == '@'
      invariant at >= 0 && !manyAts ==> forall k | 0 <= k < i && k != at :: s[k] != '@'
      invariant manyAts ==> exists k | 0 <= k < i && k != at :: s[k] == '@'
      invariant dot >= 0 ==> at >= 0 && at + 1 < dot < i && dot < |s| - 1 && s[dot] == '.'
      invariant dot == -1 && at >= 0 ==> forall k | at + 1 < k < i && k < |s| - 1 :: s[k] != '.'
    {
      var c := s[i];
      if IsSpace(c) {
        spaced := true;
      }
      if c == '@' {
        if at >= 0 {
          manyAts := true;
        } else {
          at := i;
        }
      } else if c == '.' && at >= 0 && at + 1 < i < |s| - 1 && dot == -1 {
        dot := i;
      }
      i := i + 1;
    }
    assert s[..i] == s;
    ok := !spaced && !manyAts && at > 0 && dot >= 0;
    if ok {
      ScanWitness(s, at, dot);
    } else if Matches(s) {
      var a, d :| 0 <= a < |s| && 0 <= d < |s| && IsSplit(s, a, d);
      SplitShape(s, a, d);
    }
  }
}
