/** Shared vocabulary of the model: an Option type for JavaScript's
    null/undefined and Python's None, and the handful of JavaScript string
    built-ins the screens and the API client rely on (trim, ASCII case
    mapping, substring search, number-to-string). */
module Common {

  datatype Option<T> = None | Some(value: T)
  {
    function GetOr(default: T): T
    {
      match this
      case Some(v) => v
      case None => default
    }
  }

  /** Characters matched by `\s` in a JavaScript regular expression and removed
      by `String.prototype.trim`: WhiteSpace plus LineTerminator of ECMA-262. */
  predicate IsJsWhitespace(c: char)
  {
    c == ' ' || c == '\t' || c == '\n' || c == '\U{000B}' || c == '\U{000C}' || c == '\r'
    || c == '\U{00A0}' || c == '\U{1680}' || ('\U{2000}' <= c <= '\U{200A}')
    || c == '\U{2028}' || c == '\U{2029}' || c == '\U{202F}' || c == '\U{205F}'
    || c == '\U{3000}' || c == '\U{FEFF}'
  }

  /** The characters that `.` in a JavaScript regular expression does not match. */
  predicate IsLineTerminator(c: char)
  {
    c == '\n' || c == '\r' || c == '\U{2028}' || c == '\U{2029}'
  }

  /** The index of the first non-whitespace character at or after `i`, or
      the length when there is none. */
  function SkipSpaceForward(s: string, i: nat): (j: nat)
    requires i <= |s|
    ensures i <= j <= |s|
    ensures forall k :: i <= k < j ==> IsJsWhitespace(s[k])
    ensures j < |s| ==> !IsJsWhitespace(s[j])
    decreases |s| - i
  {
    if i == |s| || !IsJsWhitespace(s[i]) then i else SkipSpaceForward(s, i + 1)
  }

  /** The end of `s[lo..hi]` once its trailing whitespace is dropped. */
  function SkipSpaceBackward(s: string, lo: nat, hi: nat): (j: nat)
    requires lo <= hi <= |s|
    ensures lo <= j <= hi
    ensures forall k :: j <= k < hi ==> IsJsWhitespace(s[k])
    ensures j > lo ==> !IsJsWhitespace(s[j - 1])
    decreases hi - lo
  {
    if hi == lo || !IsJsWhitespace(s[hi - 1]) then hi else SkipSpaceBackward(s, lo, hi - 1)
  }

  /** `s.trim()`: the part of `s` between its leading and its trailing
      whitespace. */
  function Trim(s: string): (r: string)
    ensures |r| <= |s|
    ensures r == [] || (!IsJsWhitespace(r[0]) && !IsJsWhitespace(r[|r| - 1]))
  {
    var start := SkipSpaceForward(s, 0);
    s[start..SkipSpaceBackward(s, start, |s|)]
  }

  /** The trimmed string is a slice of the string, with only whitespace
      before and after it. */
  lemma TrimIsSlice(s: string)
    ensures var start := SkipSpaceForward(s, 0);
            var end := SkipSpaceBackward(s, start, |s|);
            && Trim(s) == s[start..end]
            && (forall k :: 0 <= k < start ==> IsJsWhitespace(s[k]))
            && (forall k :: end <= k < |s| ==> IsJsWhitespace(s[k]))
  {
  }

  /** A string with no whitespace at either end is left alone by trim. */
  lemma TrimmedIsFixed(s: string)
    requires s == [] || (!IsJsWhitespace(s[0]) && !IsJsWhitespace(s[|s| - 1]))
    ensures Trim(s) == s
  {
    assert SkipSpaceForward(s, 0) == 0;
    assert SkipSpaceBackward(s, 0, |s|) == |s|;
  }

  /** Trimming twice is trimming once. */
  lemma TrimIdempotent(s: string)
    ensures Trim(Trim(s)) == Trim(s)
  {
    TrimmedIsFixed(Trim(s));
  }

  /** The trimmed string is empty exactly when the whole string is whitespace. */
  lemma TrimEmptyIffBlank(s: string)
    ensures Trim(s) == [] <==> forall k :: 0 <= k < |s| ==> IsJsWhitespace(s[k])
  {
    TrimIsSlice(s);
    var start := SkipSpaceForward(s, 0);
    if start < |s| {
      assert Trim(s)[0] == s[start];
    }
  }

  function AsciiLower(c: char): (r: char)
  {
    if 'A' <= c <= 'Z' then (c as int + 32) as char else c
  }

  function AsciiUpper(c: char): (r: char)
  {
    if 'a' <= c <= 'z' then (c as int - 32) as char else c
  }

  /** `s.toLowerCase()`, restricted to the ASCII letters. */
  function ToLower(s: string): (r: string)
    ensures |r| == |s|
    ensures forall i :: 0 <= i < |s| ==> r[i] == AsciiLower(s[i])
    ensures forall i :: 0 <= i < |r| ==> !('A' <= r[i] <= 'Z')
  {
    seq(|s|, i requires 0 <= i < |s| => AsciiLower(s[i]))
  }

  /** Lower-casing a string without ASCII capitals changes nothing. */
  lemma ToLowerFixed(s: string)
    requires forall k :: 0 <= k < |s| ==> !('A' <= s[k] <= 'Z')
    ensures ToLower(s) == s
  {
  }

  /** Trimming keeps a string free of ASCII capitals. */
  lemma TrimKeepsNoCapitals(s: string)
    requires forall k :: 0 <= k < |s| ==> !('A' <= s[k] <= 'Z')
    ensures forall k :: 0 <= k < |Trim(s)| ==> !('A' <= Trim(s)[k] <= 'Z')
  {
    TrimIsSlice(s);
    var start := SkipSpaceForward(s, 0);
    var r := Trim(s);
    forall k | 0 <= k < |r| ensures !('A' <= r[k] <= 'Z') {
      assert r[k] == s[start + k];
    }
  }

  /** `s.toUpperCase()`, restricted to the ASCII letters. */
  function ToUpper(s: string): (r: string)
    ensures |r| == |s|
    ensures forall i :: 0 <= i < |s| ==> r[i] == AsciiUpper(s[i])
    ensures forall i :: 0 <= i < |r| ==> !('a' <= r[i] <= 'z')
  {
    seq(|s|, i requires 0 <= i < |s| => AsciiUpper(s[i]))
  }

  /** `s.charAt(0)`: the first character, or the empty string. */
  function FirstChar(s: string): (r: string)
    ensures |r| == (if s == [] then 0 else 1)
    ensures s != [] ==> r[0] == s[0]
  {
    if s == [] then "" else [s[0]]
  }

  /** `p` occurs in `s` at index `i`. */
  ghost predicate OccursAt(s: string, p: string, i: int)
  {
    0 <= i && i + |p| <= |s| && s[i..i + |p|] == p
  }

  /** `s.includes(p)`, also what a regular expression made of plain letters
      tests: `p` occurs somewhere in `s`. */
  function Contains(s: string, p: string): (r: bool)
    decreases |s|
  {
    if |p| > |s| then false
    else if s[..|p|] == p then true
    else Contains(s[1..], p)
  }

  /** Contains is substring search, in both directions. */
  lemma {:induction false} ContainsIffOccurs(s: string, p: string)
    ensures Contains(s, p) <==> exists i :: OccursAt(s, p, i)
    decreases |s|
  {
    if |p| > |s| {
      assert forall i :: !OccursAt(s, p, i);
    } else if s[..|p|] == p {
      assert OccursAt(s, p, 0);
    } else {
      ContainsIffOccurs(s[1..], p);
      if exists i :: OccursAt(s[1..], p, i) {
        var i :| OccursAt(s[1..], p, i);
        assert s[1..][i..i + |p|] == s[i + 1..i + 1 + |p|];
        assert OccursAt(s, p, i + 1);
      }
      if exists i :: OccursAt(s, p, i) {
        var i :| OccursAt(s, p, i);
        assert i != 0;
        assert s[1..][i - 1..i - 1 + |p|] == s[i..i + |p|];
        assert OccursAt(s[1..], p, i - 1);
      }
    }
  }

  /** A string contains every string that occurs in the middle of it. */
  lemma ContainsInfix(a: string, p: string, b: string)
    ensures Contains(a + p + b, p)
  {
    var s := a + p + b;
    assert s[|a|..|a| + |p|] == p;
    assert OccursAt(s, p, |a|);
    ContainsIffOccurs(s, p);
  }

  /** Every string contains the empty string. */
  lemma ContainsEmpty(s: string)
    ensures Contains(s, "")
  {
    assert OccursAt(s, "", 0);
    ContainsIffOccurs(s, "");
  }

  function DigitChar(d: nat): (c: char)
    requires d < 10
    ensures '0' <= c <= '9'
  {
    (48 + d) as char
  }

  /** `String(n)` for a natural number: its decimal digits, no leading zero. */
  function NatToString(n: nat): (r: string)
    ensures |r| >= 1
    ensures forall i :: 0 <= i < |r| ==> '0' <= r[i] <= '9'
    ensures |r| > 1 ==> r[0] != '0'
    decreases n
  {
    if n < 10 then [DigitChar(n)] else NatToString(n / 10) + [DigitChar(n % 10)]
  }

  /** `String(n)` for an integer. */
  function IntToString(n: int): (r: string)
    ensures |r| >= 1
    ensures (r[0] == '-') <==> n < 0
  {
    if n < 0 then "-" + NatToString(-n) else NatToString(n)
  }

  // ---------------------------------------------------------------------
  // Removing by id, in order
  // ---------------------------------------------------------------------

  /** `items.filter(x => x.id !== id)`. */
  function RemoveById<T>(items: seq<T>, idOf: T -> string, id: string): (r: seq<T>)
    ensures |r| <= |items|
    ensures forall x :: x in r ==> x in items && idOf(x) != id
    ensures forall x :: x in items && idOf(x) != id ==> x in r
  {
    if items == [] then []
    else (if idOf(items[0]) != id then [items[0]] else []) + RemoveById(items[1..], idOf, id)
  }

  /** The filter distributes over concatenation: each part keeps its own
      survivors, in their original order. */
  lemma {:induction false} RemoveByIdConcat<T>(a: seq<T>, b: seq<T>, idOf: T -> string, id: string)
    ensures RemoveById(a + b, idOf, id) == RemoveById(a, idOf, id) + RemoveById(b, idOf, id)
    decreases |a|
  {
    if a != [] {
      var ab := a + b;
      assert ab[0] == a[0] && ab[1..] == a[1..] + b;
      RemoveByIdConcat(a[1..], b, idOf, id);
      if idOf(a[0]) != id {
        assert RemoveById(ab, idOf, id) == [a[0]] + RemoveById(ab[1..], idOf, id);
        assert RemoveById(a, idOf, id) == [a[0]] + RemoveById(a[1..], idOf, id);
      } else {
        assert RemoveById(ab, idOf, id) == RemoveById(ab[1..], idOf, id);
        assert RemoveById(a, idOf, id) == RemoveById(a[1..], idOf, id);
      }
    } else {
      assert a + b == b;
    }
  }

  /** Nothing with another id is removed: a list without the id is kept as is. */
  lemma {:induction false} RemoveAbsentId<T>(items: seq<T>, idOf: T -> string, id: string)
    requires forall i :: 0 <= i < |items| ==> idOf(items[i]) != id
    ensures RemoveById(items, idOf, id) == items
    decreases |items|
  {
    if items != [] {
      var tail := items[1..];
      assert forall i :: 0 <= i < |tail| ==> idOf(tail[i]) != id by {
        forall i | 0 <= i < |tail| ensures idOf(tail[i]) != id {
          assert tail[i] == items[i + 1];
        }
      }
      RemoveAbsentId(tail, idOf, id);
      assert RemoveById(items, idOf, id) == [items[0]] + RemoveById(tail, idOf, id);
      assert items == [items[0]] + tail;
    }
  }

  /** Removing the same id twice is removing it once. */
  lemma RemoveByIdIdempotent<T>(items: seq<T>, idOf: T -> string, id: string)
    ensures RemoveById(RemoveById(items, idOf, id), idOf, id) == RemoveById(items, idOf, id)
  {
    var r := RemoveById(items, idOf, id);
    forall i | 0 <= i < |r| ensures idOf(r[i]) != id {
      assert r[i] in r;
    }
    RemoveAbsentId(r, idOf, id);
  }
}
