/**
 * JavaScript's `encodeURIComponent` over Unicode scalar values: the unreserved characters
 * stay, every other character becomes the `%XY` escapes of its UTF-8 bytes (upper-case hex).
 * Decoding the escapes gives back exactly the UTF-8 bytes of the input.
 */
module Uri {
  import opened Wrappers

  type Byte = b: int | 0 <= b < 256

  /** The characters `encodeURIComponent` leaves alone. */
  predicate IsUnreserved(c: char) {
    || 'A' <= c <= 'Z' || 'a' <= c <= 'z' || '0' <= c <= '9'
    || c == '-' || c == '_' || c == '.' || c == '!' || c == '~' || c == '*' || c == '\'' || c == '(' || c == ')'
  }

  /** The UTF-8 encoding of one scalar value: one to four bytes. */
  function Utf8(c: char): (bytes: seq<Byte>)
    ensures 1 <= |bytes| <= 4
    ensures (c as int) < 0x80 <==> |bytes| == 1
    ensures |bytes| == 1 ==> bytes[0] == c as int
  {
    var cp := c as int;
    if cp < 0x80 then [cp]
    else if cp < 0x800 then [0xC0 + cp / 64, 0x80 + cp % 64]
    else if cp < 0x10000 then [0xE0 + cp / 4096, 0x80 + (cp / 64) % 64, 0x80 + cp % 64]
    else [0xF0 + cp / 262144, 0x80 + (cp / 4096) % 64, 0x80 + (cp / 64) % 64, 0x80 + cp % 64]
  }

  function Utf8All(s: string): seq<Byte> {
    if s == [] then [] else Utf8(s[0]) + Utf8All(s[1..])
  }

  predicate IsUpperHex(c: char) {
    '0' <= c <= '9' || 'A' <= c <= 'F'
  }

  function HexDigit(n: nat): (c: char)
    requires n < 16
    ensures IsUpperHex(c)
  {
    if n < 10 then (n + '0' as int) as char else (n - 10 + 'A' as int) as char
  }

  function HexValue(c: char): (n: nat)
    requires IsUpperHex(c)
    ensures n < 16
  {
    if c <= '9' then c as int - '0' as int else c as int - 'A' as int + 10
  }

  lemma HexRoundTrip(n: nat)
    requires n < 16
    ensures HexValue(HexDigit(n)) == n
  {
  }

  /** `%XY` for one byte. */
  function Escape(b: Byte): (r: string)
    ensures |r| == 3 && r[0] == '%' && IsUpperHex(r[1]) && IsUpperHex(r[2])
  {
    ['%', HexDigit(b / 16), HexDigit(b % 16)]
  }

  function EscapeAll(bytes: seq<Byte>): string {
    if bytes == [] then "" else Escape(bytes[0]) + EscapeAll(bytes[1..])
  }

  function EncodeChar(c: char): string {
    if IsUnreserved(c) then [c] else EscapeAll(Utf8(c))
  }

  /** `encodeURIComponent(s)`. */
  function Encode(s: string): string {
    if s == [] then "" else EncodeChar(s[0]) + Encode(s[1..])
  }

  /** What an encoded component may contain: unreserved characters, `%` and upper-case hex. */
  predicate IsEncodedChar(c: char) {
    IsUnreserved(c) || c == '%' || IsUpperHex(c)
  }

  lemma {:induction false} EscapeAllAlphabet(bytes: seq<Byte>)
    ensures forall i :: 0 <= i < |EscapeAll(bytes)| ==> IsEncodedChar(EscapeAll(bytes)[i])
  {
    if bytes != [] {
      EscapeAllAlphabet(bytes[1..]);
      var e, rest := Escape(bytes[0]), EscapeAll(bytes[1..]);
      forall i | 0 <= i < |e + rest| ensures IsEncodedChar((e + rest)[i]) {
        if i >= 3 {
          assert (e + rest)[i] == rest[i - 3];
        }
      }
    }
  }

  /** The output never holds a separator such as `&`, `=`, `?` or a space. */
  lemma {:induction false} EncodeAlphabet(s: string)
    ensures forall i :: 0 <= i < |Encode(s)| ==> IsEncodedChar(Encode(s)[i])
  {
    if s != [] {
      EncodeAlphabet(s[1..]);
      EscapeAllAlphabet(Utf8(s[0]));
      var e, rest := EncodeChar(s[0]), Encode(s[1..]);
      forall i | 0 <= i < |e + rest| ensures IsEncodedChar((e + rest)[i]) {
        if i >= |e| {
          assert (e + rest)[i] == rest[i - |e|];
        } else {
          assert (e + rest)[i] == e[i];
        }
      }
    }
  }

  /** Percent-decoding to bytes: `%XY` is one byte, any other character (all ASCII here) its code. */
  function DecodeBytes(s: string): Option<seq<Byte>>
    decreases |s|
  {
    if s == [] then Some([])
    else if s[0] == '%' then
      if |s| >= 3 && IsUpperHex(s[1]) && IsUpperHex(s[2]) then
        match DecodeBytes(s[3..])
        case Some(rest) => Some([16 * HexValue(s[1]) + HexValue(s[2])] + rest)
        case None => None
      else None
    else if (s[0] as int) < 0x80 then
      match DecodeBytes(s[1..])
      case Some(rest) => Some([s[0] as int] + rest)
      case None => None
    else None
  }

  /** Prepending a byte's escape prepends the byte. */
  lemma DecodeEscape(b: Byte, t: string)
    ensures DecodeBytes(Escape(b) + t) ==
      (match DecodeBytes(t) case Some(rest) => Some([b] + rest) case None => None)
  {
    var s := Escape(b) + t;
    assert s[0] == '%' && s[1] == HexDigit(b / 16) && s[2] == HexDigit(b % 16);
    assert s[3..] == t;
    HexRoundTrip(b / 16);
    HexRoundTrip(b % 16);
  }

  lemma {:induction false} DecodeEscapeAll(bytes: seq<Byte>, t: string)
    ensures DecodeBytes(EscapeAll(bytes) + t) ==
      (match DecodeBytes(t) case Some(rest) => Some(bytes + rest) case None => None)
  {
    if bytes == [] {
      assert EscapeAll(bytes) + t == t;
      match DecodeBytes(t)
      case Some(rest) => assert bytes + rest == rest;
      case None =>
    } else {
      assert EscapeAll(bytes) + t == Escape(bytes[0]) + (EscapeAll(bytes[1..]) + t);
      DecodeEscape(bytes[0], EscapeAll(bytes[1..]) + t);
      DecodeEscapeAll(bytes[1..], t);
      match DecodeBytes(t)
      case Some(rest) => assert [bytes[0]] + (bytes[1..] + rest) == bytes + rest;
      case None =>
    }
  }

  lemma DecodeEncodeChar(c: char, t: string)
    ensures DecodeBytes(EncodeChar(c) + t) ==
      (match DecodeBytes(t) case Some(rest) => Some(Utf8(c) + rest) case None => None)
  {
    if IsUnreserved(c) {
      var s := [c] + t;
      assert s[0] == c && s[1..] == t;
    } else {
      DecodeEscapeAll(Utf8(c), t);
    }
  }

  /** Decoding `encodeURIComponent(s)` gives back the UTF-8 bytes of `s`. */
  lemma {:induction false} DecodeEncode(s: string)
    ensures DecodeBytes(Encode(s)) == Some(Utf8All(s))
  {
    if s != [] {
      DecodeEncodeChar(s[0], Encode(s[1..]));
      DecodeEncode(s[1..]);
    }
  }
}
