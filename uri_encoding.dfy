/** The two percent-encoders the API layer puts user values through before
    they go into a URL: `encodeURIComponent` (the email in `/users/{email}`)
    and the `application/x-www-form-urlencoded` serializer behind
    `URLSearchParams.toString()` (the date range of `/quest/my`). Both write
    the UTF-8 bytes of any other character as `%XY` with upper-case hex. */
module UriEncoding {

  /** The UTF-8 encoding of one Unicode scalar value. */
  function Utf8(c: char): (bytes: seq<nat>)
    ensures 1 <= |bytes| <= 4
    ensures forall i :: 0 <= i < |bytes| ==> bytes[i] < 256
    ensures (c as int) < 0x80 <==> bytes == [c as int]
  {
    var n := c as int;
    if n < 0x80 then [n]
    else if n < 0x800 then [0xC0 + n / 0x40, 0x80 + n % 0x40]
    else if n < 0x1_0000 then [0xE0 + n / 0x1000, 0x80 + (n / 0x40) % 0x40, 0x80 + n % 0x40]
    else [0xF0 + n / 0x4_0000, 0x80 + (n / 0x1000) % 0x40, 0x80 + (n / 0x40) % 0x40, 0x80 + n % 0x40]
  }

  /** The UTF-8 bytes of a whole string. */
  function Utf8String(s: string): seq<nat> {
    if s == [] then [] else Utf8(s[0]) + Utf8String(s[1..])
  }

  /** The upper-case hex digit for `d`. */
  function HexDigit(d: nat): (c: char)
    requires d < 16
  {
    if d < 10 then ('0' as int + d) as char else ('A' as int + d - 10) as char
  }

  predicate IsHexDigit(c: char) {
    ('0' <= c <= '9') || ('A' <= c <= 'F')
  }

  function HexValue(c: char): (v: nat)
    requires IsHexDigit(c)
    ensures v < 16
  {
    if '0' <= c <= '9' then c as nat - '0' as nat else c as nat - 'A' as nat + 10
  }

  /** `%XY` for one byte. */
  function PercentByte(b: nat): (s: string)
    requires b < 256
    ensures |s| == 3 && s[0] == '%' && IsHexDigit(s[1]) && IsHexDigit(s[2])
    ensures HexValue(s[1]) * 16 + HexValue(s[2]) == b
  {
    ['%', HexDigit(b / 16), HexDigit(b % 16)]
  }

  /** `%XY%ZW...` for the bytes of one character. */
  function PercentBytes(bytes: seq<nat>): (s: string)
    requires forall i :: 0 <= i < |bytes| ==> bytes[i] < 256
    ensures |s| == 3 * |bytes|
  {
    if bytes == [] then [] else PercentByte(bytes[0]) + PercentBytes(bytes[1..])
  }

  /** The characters `encodeURIComponent` leaves as they are. */
  predicate IsUriUnreserved(c: char) {
    || ('A' <= c <= 'Z') || ('a' <= c <= 'z') || ('0' <= c <= '9')
    || c == '-' || c == '_' || c == '.' || c == '!' || c == '~' || c == '*'
    || c == '\'' || c == '(' || c == ')'
  }

  /** `encodeURIComponent(s)`. */
  function EncodeUriComponent(s: string): string {
    if s == [] then []
    else
      (if IsUriUnreserved(s[0]) then [s[0]] else PercentBytes(Utf8(s[0])))
      + EncodeUriComponent(s[1..])
  }

  /** The characters the form serializer leaves as they are. */
  predicate IsFormSafe(c: char) {
    || ('A' <= c <= 'Z') || ('a' <= c <= 'z') || ('0' <= c <= '9')
    || c == '*' || c == '-' || c == '.' || c == '_'
  }

  predicate AllFormSafe(s: string) {
    forall i :: 0 <= i < |s| ==> IsFormSafe(s[i])
  }

  /** The form serializer on one name or value: a space becomes '+'. */
  function FormEncode(s: string): string {
    if s == [] then []
    else
      (if IsFormSafe(s[0]) then [s[0]] else if s[0] == ' ' then "+" else PercentBytes(Utf8(s[0])))
      + FormEncode(s[1..])
  }

  /** `new URLSearchParams(pairs).toString()`. */
  function SearchParams(pairs: seq<(string, string)>): string {
    if pairs == [] then []
    else if |pairs| == 1 then PairText(pairs[0])
    else PairText(pairs[0]) + "&" + SearchParams(pairs[1..])
  }

  /** One `name=value` pair of a query string. */
  function PairText(pair: (string, string)): string {
    FormEncode(pair.0) + "=" + FormEncode(pair.1)
  }

  /** A pair whose name and value are form-safe is written as it is. */
  lemma PlainPair(name: string, value: string)
    requires AllFormSafe(name) && AllFormSafe(value)
    ensures PairText((name, value)) == name + "=" + value
  {
    FormEncodeIdentity(name);
    FormEncodeIdentity(value);
  }

  /** Two pairs serialize as `a=b&c=d`, each part form-encoded. */
  lemma SearchParamsOfTwo(a: string, b: string, c: string, d: string)
    ensures SearchParams([(a, b), (c, d)]) == PairText((a, b)) + "&" + PairText((c, d))
  {
    var pairs := [(a, b), (c, d)];
    assert pairs[1..] == [(c, d)];
  }

  /** Every character of an encoded component is unreserved, a '%' or an
      upper-case hex digit: no '/', '?', '#', '&' or '=' can come out. */
  predicate UriComponentChars(s: string) {
    forall i :: 0 <= i < |s| ==> IsUriUnreserved(s[i]) || s[i] == '%' || IsHexDigit(s[i])
  }

  lemma {:induction false} PercentBytesChars(bytes: seq<nat>)
    requires forall i :: 0 <= i < |bytes| ==> bytes[i] < 256
    ensures forall i :: 0 <= i < |PercentBytes(bytes)| ==>
              PercentBytes(bytes)[i] == '%' || IsHexDigit(PercentBytes(bytes)[i])
  {
    if bytes != [] {
      PercentBytesChars(bytes[1..]);
    }
  }

  lemma {:induction false} EncodeUriComponentChars(s: string)
    ensures UriComponentChars(EncodeUriComponent(s))
  {
    if s != [] {
      EncodeUriComponentChars(s[1..]);
      if !IsUriUnreserved(s[0]) {
        PercentBytesChars(Utf8(s[0]));
      }
    }
  }

  /** A component made of unreserved characters only is left unchanged. */
  lemma {:induction false} EncodeUriComponentIdentity(s: string)
    requires forall i :: 0 <= i < |s| ==> IsUriUnreserved(s[i])
    ensures EncodeUriComponent(s) == s
  {
    if s != [] {
      EncodeUriComponentIdentity(s[1..]);
    }
  }

  /** Reads `%XY` escapes back as bytes and every other (ASCII) character as
      its own code: what a server does with a percent-encoded component
      before it decodes UTF-8. */
  function PercentDecode(s: string): seq<nat> {
    if s == [] then []
    else if s[0] == '%' && |s| >= 3 && IsHexDigit(s[1]) && IsHexDigit(s[2]) then
      [HexValue(s[1]) * 16 + HexValue(s[2])] + PercentDecode(s[3..])
    else [s[0] as nat] + PercentDecode(s[1..])
  }

  lemma {:induction false} PercentBytesDecode(bytes: seq<nat>, rest: string)
    requires forall i :: 0 <= i < |bytes| ==> bytes[i] < 256
    ensures PercentDecode(PercentBytes(bytes) + rest) == bytes + PercentDecode(rest)
  {
    if bytes != [] {
      var p := PercentByte(bytes[0]);
      assert PercentBytes(bytes) + rest == p + (PercentBytes(bytes[1..]) + rest);
      var t := p + (PercentBytes(bytes[1..]) + rest);
      assert t[0] == '%' && t[1] == p[1] && t[2] == p[2];
      assert t[3..] == PercentBytes(bytes[1..]) + rest;
      PercentBytesDecode(bytes[1..], rest);
      assert PercentDecode(t) == [bytes[0]] + PercentDecode(t[3..]);
      assert bytes == [bytes[0]] + bytes[1..];
    } else {
      assert PercentBytes(bytes) + rest == rest;
    }
  }

  /** Decoding an encoded component gives back exactly the UTF-8 bytes of
      the original string, so no two strings share an encoding up to UTF-8. */
  lemma {:induction false} EncodeUriComponentRoundTrip(s: string)
    ensures PercentDecode(EncodeUriComponent(s)) == Utf8String(s)
  {
    if s != [] {
      EncodeUriComponentRoundTrip(s[1..]);
      var rest := EncodeUriComponent(s[1..]);
      if IsUriUnreserved(s[0]) {
        assert ([s[0]] + rest)[1..] == rest;
      } else {
        PercentBytesDecode(Utf8(s[0]), rest);
      }
    }
  }

  /** A value made of form-safe characters is left unchanged by the form
      serializer (an ISO date such as 2025-01-31 is one). */
  lemma {:induction false} FormEncodeIdentity(s: string)
    requires AllFormSafe(s)
    ensures FormEncode(s) == s
  {
    if s != [] {
      FormEncodeIdentity(s[1..]);
    }
  }

  /** The form serializer writes nothing exactly for the empty string. */
  lemma FormEncodeEmpty(s: string)
    ensures FormEncode(s) == [] <==> s == []
  {
    if s != [] && !IsFormSafe(s[0]) && s[0] != ' ' {
      assert |PercentBytes(Utf8(s[0]))| >= 3;
    }
  }

  /** The form serializer never writes '&' or '=', so the pairs of a query
      string cannot run into each other. */
  lemma {:induction false} FormEncodeNoSeparators(s: string)
    ensures '&' !in FormEncode(s) && '=' !in FormEncode(s)
  {
    if s != [] {
      FormEncodeNoSeparators(s[1..]);
      if !IsFormSafe(s[0]) && s[0] != ' ' {
        PercentBytesChars(Utf8(s[0]));
      }
    }
  }
}
