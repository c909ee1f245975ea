/** The two regular expressions the sign-up and password-reset screens test
    input against, each given twice: as the search a JavaScript regular
    expression engine performs (`RegExp.prototype.test`), and as the set of
    strings the pattern describes, with a lemma that the two agree.

    Email: `/^[^\s@]+@[^\s@]+\.[^\s@]+$/`. Password:
    `/(?=.*[a-z])(?=.*[A-Z])(?=.*\d)/`, unanchored, whose `.` does not cross
    a line terminator. */
module Validation {
  import opened Common

  // ---------------------------------------------------------------------
  // The email pattern
  // ---------------------------------------------------------------------

  /** `[^\s@]`. */
  predicate EmailPartChar(c: char)
  {
    !IsJsWhitespace(c) && c != '@'
  }

  /** `[^\s@]+` matches `s[lo..hi]`. */
  predicate EmailRun(s: string, lo: int, hi: int)
    requires 0 <= lo <= hi <= |s|
  {
    lo < hi && forall k :: lo <= k < hi ==> EmailPartChar(s[k])
  }

  /** The strings the email pattern matches: three non-empty runs of
      characters other than whitespace and '@', the first two joined by
      '@' and the last two by '.'. Since the runs may hold dots, any dot of
      the domain that is neither its first nor its last character will do. */
  ghost predicate MatchesEmailPattern(s: string)
  {
    exists i, j :: 0 < i < j < |s| && s[i] == '@' && s[j] == '.'
      && EmailRun(s, 0, i) && EmailRun(s, i + 1, j) && EmailRun(s, j + 1, |s|)
  }

  /** The first index of `c` in `s`, if any. */
  function IndexOf(s: string, c: char): (r: Option<nat>)
    ensures r.None? <==> c !in s
    ensures r.Some? ==> r.value < |s| && s[r.value] == c && c !in s[..r.value]
  {
    if s == [] then None
    else if s[0] == c then Some(0)
    else
      var r := IndexOf(s[1..], c);
      if r.None? then None
      else
        assert s[..r.value + 1] == [s[0]] + s[1..][..r.value];
        Some(r.value + 1)
  }

  /** No character of `s` is `\s`. */
  predicate NoWhitespace(s: string)
  {
    forall k :: 0 <= k < |s| ==> !IsJsWhitespace(s[k])
  }

  /** `emailRegex.test(s)`, decided by locating the '@': it is not the first
      character, it is the only one, nothing is whitespace, and the domain
      after it has a dot that is neither its first nor its last character. */
  function EmailRegexTest(s: string): (r: bool)
  {
    match IndexOf(s, '@')
    case None => false
    case Some(i) =>
      && NoWhitespace(s)
      && 0 < i
      && '@' !in s[i + 1..]
      && i + 2 <= |s| - 1
      && '.' in s[i + 2..|s| - 1]
  }

  lemma EmailTestImpliesPattern(s: string)
    requires EmailRegexTest(s)
    ensures MatchesEmailPattern(s)
  {
    var i := IndexOf(s, '@').value;
    var m :| 0 <= m < |s[i + 2..|s| - 1]| && s[i + 2..|s| - 1][m] == '.';
    var j := i + 2 + m;
    assert s[j] == '.';
    forall k | 0 <= k < |s| && k != i ensures EmailPartChar(s[k]) {
      if k < i {
        assert s[k] == s[..i][k];
      } else {
        assert s[k] == s[i + 1..][k - i - 1];
      }
    }
    assert EmailRun(s, 0, i) && EmailRun(s, i + 1, j) && EmailRun(s, j + 1, |s|);
  }

  lemma PatternImpliesEmailTest(s: string)
    requires MatchesEmailPattern(s)
    ensures EmailRegexTest(s)
  {
    var i, j :| 0 < i < j < |s| && s[i] == '@' && s[j] == '.'
      && EmailRun(s, 0, i) && EmailRun(s, i + 1, j) && EmailRun(s, j + 1, |s|);
    assert forall k :: 0 <= k < |s| && k != i && k != j ==> EmailPartChar(s[k]);
    var p := IndexOf(s, '@').value;
    assert p == i;
    var tail := s[i + 1..];
    assert forall k :: 0 <= k < |tail| ==> tail[k] == s[i + 1 + k];
    assert '@' !in s[i + 1..];
    assert s[i + 2..|s| - 1][j - i - 2] == '.';
  }

  /** The test accepts exactly the strings of the pattern. */
  lemma EmailRegexTestIffPattern(s: string)
    ensures EmailRegexTest(s) <==> MatchesEmailPattern(s)
  {
    if EmailRegexTest(s) {
      EmailTestImpliesPattern(s);
    }
    if MatchesEmailPattern(s) {
      PatternImpliesEmailTest(s);
    }
  }

  // ---------------------------------------------------------------------
  // The password pattern
  // ---------------------------------------------------------------------

  /** The three classes a password must show: `[a-z]`, `[A-Z]`, `\d`. */
  datatype CharClass = Lower | Upper | Digit

  predicate InClass(c: char, cls: CharClass)
  {
    match cls
    case Lower => 'a' <= c <= 'z'
    case Upper => 'A' <= c <= 'Z'
    case Digit => '0' <= c <= '9'
  }

  /** `(?=.*X)` holds at position `p`: a character of class X lies at or
      after `p` with no line terminator between (`.` never matches one). */
  ghost predicate LookaheadAt(s: string, p: int, cls: CharClass)
  {
    exists q :: 0 <= p <= q < |s| && InClass(s[q], cls) && forall k :: p <= k < q ==> !IsLineTerminator(s[k])
  }

  /** The pattern matches at some position of the string. */
  ghost predicate MatchesPasswordPattern(s: string)
  {
    exists p :: 0 <= p <= |s| && LookaheadAt(s, p, Lower) && LookaheadAt(s, p, Upper) && LookaheadAt(s, p, Digit)
  }

  /** The engine's `.*X` from position `p`: scan forward until a character of
      the class (success) or a line terminator or the end (failure). */
  function ClassAhead(s: string, p: nat, cls: CharClass): bool
    decreases |s| - p
  {
    if p >= |s| then false
    else if InClass(s[p], cls) then true
    else if IsLineTerminator(s[p]) then false
    else ClassAhead(s, p + 1, cls)
  }

  lemma {:induction false} ClassAheadIffLookahead(s: string, p: nat, cls: CharClass)
    ensures ClassAhead(s, p, cls) <==> LookaheadAt(s, p, cls)
    decreases |s| - p
  {
    if p >= |s| {
    } else if InClass(s[p], cls) {
      assert p <= p < |s| && InClass(s[p], cls);
    } else if IsLineTerminator(s[p]) {
      forall q | p <= q < |s| && InClass(s[q], cls) ensures exists k :: p <= k < q && IsLineTerminator(s[k]) {
        assert q != p;
      }
    } else {
      ClassAheadIffLookahead(s, p + 1, cls);
      if LookaheadAt(s, p, cls) {
        var q :| p <= q < |s| && InClass(s[q], cls) && forall k :: p <= k < q ==> !IsLineTerminator(s[k]);
        assert q != p;
        assert p + 1 <= q;
      }
    }
  }

  /** `test`: try the lookaheads at `p`, then at each later position. */
  function PasswordTestFrom(s: string, p: nat): bool
    decreases |s| - p
  {
    (ClassAhead(s, p, Lower) && ClassAhead(s, p, Upper) && ClassAhead(s, p, Digit))
    || (p < |s| && PasswordTestFrom(s, p + 1))
  }

  function PasswordRegexTest(s: string): bool
  {
    PasswordTestFrom(s, 0)
  }

  lemma {:induction false} PasswordTestFromIff(s: string, p: nat)
    requires p <= |s|
    ensures PasswordTestFrom(s, p) <==>
            exists q :: p <= q <= |s| && LookaheadAt(s, q, Lower) && LookaheadAt(s, q, Upper) && LookaheadAt(s, q, Digit)
    decreases |s| - p
  {
    ClassAheadIffLookahead(s, p, Lower);
    ClassAheadIffLookahead(s, p, Upper);
    ClassAheadIffLookahead(s, p, Digit);
    if p < |s| {
      PasswordTestFromIff(s, p + 1);
    }
  }

  /** The test accepts exactly the strings of the pattern. */
  lemma PasswordRegexTestIffPattern(s: string)
    ensures PasswordRegexTest(s) <==> MatchesPasswordPattern(s)
  {
    PasswordTestFromIff(s, 0);
  }

  predicate HasClass(s: string, cls: CharClass)
  {
    exists k :: 0 <= k < |s| && InClass(s[k], cls)
  }

  predicate SingleLine(s: string)
  {
    forall k :: 0 <= k < |s| ==> !IsLineTerminator(s[k])
  }

  /** On one line, the pattern asks for what its error message says: a
      lowercase letter, an uppercase letter and a digit, anywhere. */
  lemma SingleLinePasswordPattern(s: string)
    requires SingleLine(s)
    ensures PasswordRegexTest(s) <==> HasClass(s, Lower) && HasClass(s, Upper) && HasClass(s, Digit)
  {
    PasswordRegexTestIffPattern(s);
    if HasClass(s, Lower) && HasClass(s, Upper) && HasClass(s, Digit) {
      var a :| 0 <= a < |s| && InClass(s[a], Lower);
      var b :| 0 <= b < |s| && InClass(s[b], Upper);
      var c :| 0 <= c < |s| && InClass(s[c], Digit);
      assert LookaheadAt(s, 0, Lower) && LookaheadAt(s, 0, Upper) && LookaheadAt(s, 0, Digit);
    }
    if MatchesPasswordPattern(s) {
      var p :| 0 <= p <= |s| && LookaheadAt(s, p, Lower) && LookaheadAt(s, p, Upper) && LookaheadAt(s, p, Digit);
      var a :| p <= a < |s| && InClass(s[a], Lower) && forall k :: p <= k < a ==> !IsLineTerminator(s[k]);
      var b :| p <= b < |s| && InClass(s[b], Upper) && forall k :: p <= k < b ==> !IsLineTerminator(s[k]);
      var c :| p <= c < |s| && InClass(s[c], Digit) && forall k :: p <= k < c ==> !IsLineTerminator(s[k]);
    }
  }

  /** Across a line break the classes do not combine: "Password" on one
      line and "1" on the next has all three classes, yet fails the test. */
  lemma PasswordClassesMustShareALine()
    ensures var s := "Password\n1";
            HasClass(s, Lower) && HasClass(s, Upper) && HasClass(s, Digit) && !PasswordRegexTest(s)
  {
    var s := "Password\n1";
    assert InClass(s[1], Lower) && InClass(s[0], Upper) && InClass(s[9], Digit);
    PasswordRegexTestIffPattern(s);
    forall p | 0 <= p <= |s|
      ensures !(LookaheadAt(s, p, Lower) && LookaheadAt(s, p, Upper) && LookaheadAt(s, p, Digit))
    {
      if p <= 8 {
        forall q | p <= q < |s| && InClass(s[q], Digit) ensures exists k :: p <= k < q && IsLineTerminator(s[k]) {
          assert q == 9 && IsLineTerminator(s[8]);
        }
      } else {
        forall q | p <= q < |s| ensures !InClass(s[q], Lower) {
          assert q == 9;
        }
      }
    }
  }
}
