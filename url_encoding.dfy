/** The two URL encoders the API client's query strings go through:
    `encodeURIComponent` (for the search query) and the
    application/x-www-form-urlencoded serializer behind
    `URLSearchParams.toString()` (for the event-list filters). Both encode a
    character as the UTF-8 bytes of its code point, each written `%XX`. */
module UrlEncoding {

  /** The UTF-8 encoding of one Unicode scalar value. */
  function Utf8(c: char): (bytes: seq<nat>)
    ensures 1 <= |bytes| <= 4
    ensures forall i :: 0 <= i < |bytes| ==> bytes[i] < 256
    ensures (c as int < 0x80) <==> |bytes| == 1
  {
    var n := c as int;
    if n < 0x80 then [n]
    else if n < 0x800 then [0xC0 + n / 64, 0x80 + n % 64]
    else if n < 0x10000 then [0xE0 + n / 4096, 0x80 + (n / 64) % 64, 0x80 + n % 64]
    else [0xF0 + n / 262144, 0x80 + (n / 4096) % 64, 0x80 + (n / 64) % 64, 0x80 + n % 64]
  }

  function HexUpper(d: nat): (c: char)
    requires d < 16
    ensures ('0' <= c <= '9') || ('A' <= c <= 'F')
  {
    if d < 10 then (48 + d) as char else (55 + d) as char
  }

  predicate IsHexUpper(c: char)
  {
    ('0' <= c <= '9') || ('A' <= c <= 'F')
  }

  /** `%XX` for each byte, upper-case hexadecimal. */
  function PercentBytes(bytes: seq<nat>): (r: string)
    requires forall i :: 0 <= i < |bytes| ==> bytes[i] < 256
    ensures |r| == 3 * |bytes|
    ensures forall i :: 0 <= i < |r| ==> r[i] == '%' || IsHexUpper(r[i])
  {
    if bytes == [] then ""
    else ['%', HexUpper(bytes[0] / 16), HexUpper(bytes[0] % 16)] + PercentBytes(bytes[1..])
  }

  predicate IsAsciiAlnum(c: char)
  {
    ('A' <= c <= 'Z') || ('a' <= c <= 'z') || ('0' <= c <= '9')
  }

  /** Characters `encodeURIComponent` leaves as they are. */
  predicate IsUriUnreserved(c: char)
  {
    IsAsciiAlnum(c) || c == '-' || c == '_' || c == '.' || c == '!' || c == '~'
    || c == '*' || c == '\'' || c == '(' || c == ')'
  }

  /** `encodeURIComponent(s)`. */
  function EncodeUriComponent(s: string): (r: string)
    ensures forall i :: 0 <= i < |r| ==> IsUriUnreserved(r[i]) || r[i] == '%'
    ensures |r| >= |s|
  {
    if s == [] then ""
    else (if IsUriUnreserved(s[0]) then [s[0]] else PercentBytes(Utf8(s[0])))
         + EncodeUriComponent(s[1..])
  }

  /** A string made only of unreserved characters is its own encoding. */
  lemma {:induction false} EncodeUriComponentKeepsUnreserved(s: string)
    requires forall i :: 0 <= i < |s| ==> IsUriUnreserved(s[i])
    ensures EncodeUriComponent(s) == s
  {
    if s != [] {
      EncodeUriComponentKeepsUnreserved(s[1..]);
      assert s == [s[0]] + s[1..];
    }
  }

  /** Characters the form-urlencoded serializer leaves as they are. */
  predicate IsFormSafe(c: char)
  {
    IsAsciiAlnum(c) || c == '*' || c == '-' || c == '.' || c == '_'
  }

  /** The application/x-www-form-urlencoded byte serializer of one name or
      value: a space becomes `+`, safe characters stay, the rest is `%XX`. */
  function FormEncode(s: string): (r: string)
    ensures forall i :: 0 <= i < |r| ==> IsFormSafe(r[i]) || r[i] == '+' || r[i] == '%'
    ensures |r| >= |s|
  {
    if s == [] then ""
    else (if IsFormSafe(s[0]) then [s[0]] else if s[0] == ' ' then "+" else PercentBytes(Utf8(s[0])))
         + FormEncode(s[1..])
  }

  /** `URLSearchParams.toString()` of a list of name/value pairs, in order. */
  function FormSerialize(params: seq<(string, string)>): (r: string)
    ensures params == [] <==> r == ""
  {
    if params == [] then ""
    else
      var first := FormEncode(params[0].0) + "=" + FormEncode(params[0].1);
      if |params| == 1 then first else first + "&" + FormSerialize(params[1..])
  }

  /** Neither encoder can put a query-string delimiter into an encoded
      component, so user text can never add or split a parameter. */
  lemma EncodedComponentsHaveNoDelimiters(s: string)
    ensures '&' !in EncodeUriComponent(s) && '=' !in EncodeUriComponent(s) && '?' !in EncodeUriComponent(s)
    ensures '&' !in FormEncode(s) && '=' !in FormEncode(s) && '?' !in FormEncode(s)
  {
  }
}
