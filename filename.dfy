/**
 * The download file name: control characters and the characters `"` `;` `\` `/` become `_`,
 * and the result is percent-encoded as `encodeURIComponent` does (UTF-8 bytes, `%XX` with
 * upper-case hexadecimal digits, the unreserved ASCII marks left as they are).
 */
module Filename {
  import opened Wrappers
  import opened JsText

  type Byte = b: int | 0 <= b < 256

  /** `[\x00-\x1F\x7F]`: the C0 controls and DEL. */
  predicate IsControl(c: char) {
    c <= '\U{1F}' || c == '\U{7F}'
  }

  /** `[";\\/]`: the marks that would end or escape a header parameter or name a directory. */
  predicate IsUnsafeMark(c: char) {
    c == '"' || c == ';' || c == '\\' || c == '/'
  }

  /** The two `replace` calls in order: controls first, then the unsafe marks. */
  function Clean(s: string): (r: string)
    ensures |r| == |s|
    ensures forall i :: 0 <= i < |s| ==>
      r[i] == if IsControl(s[i]) || IsUnsafeMark(s[i]) then '_' else s[i]
  {
    ReplaceAll(ReplaceAll(s, IsControl, '_'), IsUnsafeMark, '_')
  }

  /** Cleaning leaves no control character and no unsafe mark behind. */
  lemma CleanRemovesUnsafe(s: string)
    ensures forall i :: 0 <= i < |Clean(s)| ==> !IsControl(Clean(s)[i]) && !IsUnsafeMark(Clean(s)[i])
  {
  }

  /** Cleaning a cleaned name changes nothing. */
  lemma CleanIdempotent(s: string)
    ensures Clean(Clean(s)) == Clean(s)
  {
    var c := Clean(s);
    assert forall i :: 0 <= i < |c| ==> Clean(c)[i] == c[i];
  }

  /** The characters `encodeURIComponent` leaves as they are: ASCII letters, digits and `-_.!~*'()`. */
  predicate IsUnreserved(c: char) {
    || ('A' <= c <= 'Z') || ('a' <= c <= 'z') || ('0' <= c <= '9')
    || c == '-' || c == '_' || c == '.' || c == '!' || c == '~' || c == '*' || c == '\'' || c == '(' || c == ')'
  }

  predicate IsContinuation(b: Byte) {
    0x80 <= b < 0xC0
  }

  /** The UTF-8 encoding of one Unicode scalar value: one to four bytes. */
  function Utf8(c: char): (r: seq<Byte>)
    ensures 1 <= |r| <= 4
    ensures |r| == 1 <==> c as int < 0x80
    ensures |r| == 1 ==> r[0] == c as int
    ensures forall i :: 1 <= i < |r| ==> IsContinuation(r[i])
  {
    var n := c as int;
    if n < 0x80 then [n]
    else if n < 0x800 then [0xC0 + n / 64, 0x80 + n % 64]
    else if n < 0x10000 then [0xE0 + n / 4096, 0x80 + (n / 64) % 64, 0x80 + n % 64]
    else [0xF0 + n / 262144, 0x80 + (n / 4096) % 64, 0x80 + (n / 64) % 64, 0x80 + n % 64]
  }

  /** The UTF-8 encoding of a string: its characters' encodings one after another. */
  function Utf8Encode(s: string): seq<Byte> {
    if s == [] then [] else Utf8(s[0]) + Utf8Encode(s[1..])
  }

  /** A character read from the front of a byte sequence, with the number of bytes it took. */
  datatype Decoded = Decoded(c: char, size: nat)

  /** A code point that is a Unicode scalar value, i.e. a Dafny `char`. */
  predicate IsScalar(n: int) {
    (0 <= n < 0xD800) || (0xE000 <= n < 0x11_0000)
  }

  /** Reads one well-formed UTF-8 sequence (no overlong form, no surrogate, nothing above U+10FFFF). */
  function DecodeOne(b: seq<Byte>): (r: Option<Decoded>)
    ensures r.Some? ==> 1 <= r.value.size <= |b|
  {
    if b == [] then None
    else if b[0] < 0x80 then Some(Decoded(b[0] as char, 1))
    else if 0xC0 <= b[0] < 0xE0 && |b| >= 2 && IsContinuation(b[1]) then
      var n := Payload(b[0], 0xC0) * 64 + Payload(b[1], 0x80);
      if 0x80 <= n then Some(Decoded(n as char, 2)) else None
    else if 0xE0 <= b[0] < 0xF0 && |b| >= 3 && IsContinuation(b[1]) && IsContinuation(b[2]) then
      var n := Payload(b[0], 0xE0) * 4096 + Payload(b[1], 0x80) * 64 + Payload(b[2], 0x80);
      if 0x800 <= n && IsScalar(n) then Some(Decoded(n as char, 3)) else None
    else if 0xF0 <= b[0] < 0xF8 && |b| >= 4 && IsContinuation(b[1]) && IsContinuation(b[2]) && IsContinuation(b[3]) then
      var n := Payload(b[0], 0xF0) * 262144 + Payload(b[1], 0x80) * 4096 + Payload(b[2], 0x80) * 64 + Payload(b[3], 0x80);
      if 0x1_0000 <= n < 0x11_0000 then Some(Decoded(n as char, 4)) else None
    else None
  }

  /** The bits a byte carries below its marker bits `marker`. */
  function Payload(b: Byte, marker: int): int {
    (b as int) - marker
  }

  /** Reads a whole byte sequence as UTF-8; `None` at the first malformed sequence. */
  function Utf8Decode(b: seq<Byte>): Option<string>
    decreases |b|
  {
    if b == [] then Some([])
    else match DecodeOne(b)
      case None => None
      case Some(d) =>
        match Utf8Decode(b[d.size..])
        case None => None
        case Some(rest) => Some([d.c] + rest)
  }

  /** The decoder reads back exactly the character the encoder wrote, whatever follows it. */
  lemma DecodeOneUtf8(c: char, tail: seq<Byte>)
    ensures DecodeOne(Utf8(c) + tail) == Some(Decoded(c, |Utf8(c)|))
  {
    var n := c as int;
    if n < 0x80 {
    } else if n < 0x800 {
      DecodeTwo(c, tail);
    } else if n < 0x10000 {
      DecodeThree(c, tail);
    } else {
      DecodeFour(c, tail);
    }
  }

  lemma DecodeTwo(c: char, tail: seq<Byte>)
    requires 0x80 <= c as int < 0x800
    ensures DecodeOne(Utf8(c) + tail) == Some(Decoded(c, 2))
  {
    var n := c as int;
    var b := Utf8(c) + tail;
    assert b[0] == 0xC0 + n / 64 && b[1] == 0x80 + n % 64;
    assert (n / 64) * 64 + n % 64 == n;
  }

  lemma DecodeThree(c: char, tail: seq<Byte>)
    requires 0x800 <= c as int < 0x10000
    ensures DecodeOne(Utf8(c) + tail) == Some(Decoded(c, 3))
  {
    var n := c as int;
    var b := Utf8(c) + tail;
    assert b[0] == 0xE0 + n / 4096 && b[1] == 0x80 + (n / 64) % 64 && b[2] == 0x80 + n % 64;
    assert n / 64 == (n / 4096) * 64 + (n / 64) % 64;
    assert (n / 4096) * 4096 + ((n / 64) % 64) * 64 + n % 64 == n;
  }

  lemma DecodeFour(c: char, tail: seq<Byte>)
    requires 0x10000 <= c as int
    ensures DecodeOne(Utf8(c) + tail) == Some(Decoded(c, 4))
  {
    var n := c as int;
    var b := Utf8(c) + tail;
    assert b[0] == 0xF0 + n / 262144 && b[1] == 0x80 + (n / 4096) % 64;
    assert b[2] == 0x80 + (n / 64) % 64 && b[3] == 0x80 + n % 64;
    assert n / 4096 == (n / 262144) * 64 + (n / 4096) % 64;
    assert n / 64 == (n / 4096) * 64 + (n / 64) % 64;
    assert (n / 262144) * 262144 + ((n / 4096) % 64) * 4096 + ((n / 64) % 64) * 64 + n % 64 == n;
  }

  /** UTF-8 decoding undoes UTF-8 encoding. */
  lemma {:induction false} Utf8RoundTrip(s: string)
    ensures Utf8Decode(Utf8Encode(s)) == Some(s)
  {
    if s != [] {
      var head := Utf8(s[0]);
      var tail := Utf8Encode(s[1..]);
      DecodeOneUtf8(s[0], tail);
      assert (head + tail)[|head|..] == tail;
      Utf8RoundTrip(s[1..]);
      assert s == [s[0]] + s[1..];
    }
  }

  /** The upper-case hexadecimal digit `encodeURIComponent` writes for `d`. */
  function HexDigit(d: nat): (c: char)
    requires d < 16
    ensures IsHexDigit(c) && HexValue(c) == d
    ensures '0' <= c <= '9' || 'A' <= c <= 'F'
  {
    if d < 10 then (('0' as int) + d) as char else (('A' as int) + d - 10) as char
  }

  /** A hexadecimal digit in either case, as `decodeURIComponent` accepts them. */
  predicate IsHexDigit(c: char) {
    ('0' <= c <= '9') || ('A' <= c <= 'F') || ('a' <= c <= 'f')
  }

  function HexValue(c: char): (d: nat)
    requires IsHexDigit(c)
    ensures d < 16
  {
    if c <= '9' then (c as int) - ('0' as int)
    else if c <= 'F' then (c as int) - ('A' as int) + 10
    else (c as int) - ('a' as int) + 10
  }

  /** `%XX` for one byte. */
  function PercentByte(b: Byte): string {
    ['%', HexDigit(b / 16), HexDigit(b % 16)]
  }

  function PercentBytes(bs: seq<Byte>): string {
    if bs == [] then "" else PercentByte(bs[0]) + PercentBytes(bs[1..])
  }

  /** One character of `encodeURIComponent`'s output: itself when unreserved, else its UTF-8 bytes escaped. */
  function EncodeChar(c: char): string {
    if IsUnreserved(c) then [c] else PercentBytes(Utf8(c))
  }

  /** `encodeURIComponent(s)`; a Dafny string holds no lone surrogate, so the `URIError` case cannot arise. */
  function EncodeUriComponent(s: string): string {
    if s == [] then "" else EncodeChar(s[0]) + EncodeUriComponent(s[1..])
  }

  /** The characters that can appear in an encoded component. */
  predicate IsEncodedChar(c: char) {
    IsUnreserved(c) || c == '%' || ('0' <= c <= '9') || ('A' <= c <= 'F')
  }

  predicate AllEncodedChars(s: string) {
    forall i :: 0 <= i < |s| ==> IsEncodedChar(s[i])
  }

  /** Escaped bytes take three characters each: `%` and the byte's two upper-case hexadecimal digits. */
  lemma {:induction false} PercentBytesChars(bs: seq<Byte>)
    ensures |PercentBytes(bs)| == 3 * |bs|
    ensures forall i :: 0 <= i < |bs| ==>
      && PercentBytes(bs)[3 * i] == '%'
      && PercentBytes(bs)[3 * i + 1] == HexDigit(bs[i] / 16)
      && PercentBytes(bs)[3 * i + 2] == HexDigit(bs[i] % 16)
    ensures forall j :: 0 <= j < |PercentBytes(bs)| ==>
      PercentBytes(bs)[j] == '%' || ('0' <= PercentBytes(bs)[j] <= '9') || ('A' <= PercentBytes(bs)[j] <= 'F')
    ensures AllEncodedChars(PercentBytes(bs))
  {
    if bs != [] {
      PercentBytesChars(bs[1..]);
      var head, rest := PercentByte(bs[0]), PercentBytes(bs[1..]);
      assert PercentBytes(bs) == head + rest;
      forall i | 1 <= i < |bs|
        ensures PercentBytes(bs)[3 * i] == '%'
        ensures PercentBytes(bs)[3 * i + 1] == HexDigit(bs[i] / 16)
        ensures PercentBytes(bs)[3 * i + 2] == HexDigit(bs[i] % 16)
      {
        assert bs[i] == bs[1..][i - 1];
        assert 3 * i == 3 + 3 * (i - 1);
      }
    }
  }

  /** The encoded text uses only unreserved characters, `%` and upper-case hexadecimal digits. */
  lemma {:induction false} EncodedAlphabet(s: string)
    ensures AllEncodedChars(EncodeUriComponent(s))
  {
    if s != [] {
      EncodedAlphabet(s[1..]);
      if !IsUnreserved(s[0]) {
        PercentBytesChars(Utf8(s[0]));
      }
    }
  }

  /** A name made of unreserved characters only is passed through unchanged. */
  lemma {:induction false} UnreservedUnchanged(s: string)
    requires forall i :: 0 <= i < |s| ==> IsUnreserved(s[i])
    ensures EncodeUriComponent(s) == s
  {
    if s != [] {
      UnreservedUnchanged(s[1..]);
      assert s == [s[0]] + s[1..];
    }
  }

  function Prepend(p: seq<Byte>, o: Option<seq<Byte>>): Option<seq<Byte>> {
    match o
    case None => None
    case Some(v) => Some(p + v)
  }

  /**
   * The bytes a `decodeURIComponent` input stands for: `%XX` is one byte, any other character its
   * own UTF-8 bytes; `None` for a `%` not followed by two hexadecimal digits.
   */
  function PercentDecode(s: string): Option<seq<Byte>>
    decreases |s|
  {
    if s == [] then Some([])
    else if s[0] == '%' then
      if |s| >= 3 && IsHexDigit(s[1]) && IsHexDigit(s[2]) then
        Prepend([HexValue(s[1]) * 16 + HexValue(s[2])], PercentDecode(s[3..]))
      else None
    else Prepend(Utf8(s[0]), PercentDecode(s[1..]))
  }

  /** `decodeURIComponent(s)`: the bytes read as UTF-8; `None` where the JavaScript call throws `URIError`. */
  function DecodeUriComponent(s: string): Option<string> {
    match PercentDecode(s)
    case None => None
    case Some(bytes) => Utf8Decode(bytes)
  }

  lemma {:induction false} PercentBytesDecode(bs: seq<Byte>, rest: string)
    ensures PercentDecode(PercentBytes(bs) + rest) == Prepend(bs, PercentDecode(rest))
  {
    if bs == [] {
      assert PercentBytes(bs) + rest == rest;
      match PercentDecode(rest) {
        case None =>
        case Some(v) => assert [] + v == v;
      }
    } else {
      var s := PercentBytes(bs) + rest;
      var b := bs[0];
      assert s[..3] == PercentByte(b);
      assert s[3..] == PercentBytes(bs[1..]) + rest;
      assert HexValue(s[1]) * 16 + HexValue(s[2]) == b;
      PercentBytesDecode(bs[1..], rest);
      match PercentDecode(rest) {
        case None =>
        case Some(v) => assert [b] + (bs[1..] + v) == bs + v;
      }
    }
  }

  /** Percent-decoding the encoded text gives the UTF-8 bytes of the original. */
  lemma {:induction false} PercentDecodeEncode(s: string)
    ensures PercentDecode(EncodeUriComponent(s)) == Some(Utf8Encode(s))
  {
    if s != [] {
      var rest := EncodeUriComponent(s[1..]);
      PercentDecodeEncode(s[1..]);
      if IsUnreserved(s[0]) {
        assert ([s[0]] + rest)[1..] == rest;
      } else {
        PercentBytesDecode(Utf8(s[0]), rest);
      }
    }
  }

  /** `decodeURIComponent(encodeURIComponent(s)) === s`. */
  lemma UriComponentRoundTrip(s: string)
    ensures DecodeUriComponent(EncodeUriComponent(s)) == Some(s)
  {
    PercentDecodeEncode(s);
    Utf8RoundTrip(s);
  }

  /** `contentDispositionFilename(filename)`. */
  function ContentDispositionFilename(filename: string): string {
    EncodeUriComponent(Clean(filename))
  }

  /**
   * The header value is plain ASCII from the encoded alphabet, and decoding it gives back the
   * cleaned name, so no two different cleaned names share a header value.
   */
  lemma FilenameDecodes(filename: string)
    ensures AllEncodedChars(ContentDispositionFilename(filename))
    ensures DecodeUriComponent(ContentDispositionFilename(filename)) == Some(Clean(filename))
  {
    EncodedAlphabet(Clean(filename));
    UriComponentRoundTrip(Clean(filename));
  }

  /** The header value carries no quote, semicolon, backslash, slash, space or control character. */
  lemma HeaderSafe(filename: string)
    ensures forall i :: 0 <= i < |ContentDispositionFilename(filename)| ==>
      var c := ContentDispositionFilename(filename)[i];
      !IsControl(c) && !IsUnsafeMark(c) && c != ' '
  {
    FilenameDecodes(filename);
  }

  /** Two names that clean to different strings keep different encodings. */
  lemma EncodingInjective(a: string, b: string)
    requires ContentDispositionFilename(a) == ContentDispositionFilename(b)
    ensures Clean(a) == Clean(b)
  {
    FilenameDecodes(a);
    FilenameDecodes(b);
  }

  /** The unsafe marks all become underscores, and an ASCII name stays readable. */
  lemma MarksExample()
    ensures ContentDispositionFilename("a/b\\c\"d;e") == "a_b_c_d_e"
  {
    MarksCleaned();
    UnderscoredKept();
  }

  lemma UnderscoredKept()
    ensures EncodeUriComponent("a_b_c_d_e") == "a_b_c_d_e"
  {
    UnreservedUnchanged("a_b_c_d_e");
  }

  lemma MarksCleaned()
    ensures Clean("a/b\\c\"d;e") == "a_b_c_d_e"
  {
    var c := Clean("a/b\\c\"d;e");
    assert c[0] == 'a' && c[1] == '_' && c[2] == 'b' && c[3] == '_' && c[4] == 'c';
    assert c[5] == '_' && c[6] == 'd' && c[7] == '_' && c[8] == 'e';
  }

  /** A space and a katakana character are escaped byte by byte. */
  lemma EscapeExample()
    ensures ContentDispositionFilename(" キ") == "%20%E3%82%AD"
  {
    var s := " キ";
    assert Clean(s) == s by {
      assert Clean(s)[0] == ' ' && Clean(s)[1] == 'キ';
    }
    SpaceEscaped();
    KatakanaEscaped();
    assert EncodeUriComponent(s) == EncodeChar(' ') + EncodeUriComponent(s[1..]);
    assert EncodeUriComponent(s[1..]) == EncodeChar('キ') + EncodeUriComponent("");
  }

  lemma SpaceEscaped()
    ensures EncodeChar(' ') == "%20"
  {
    assert Utf8(' ') == [0x20];
  }

  lemma KatakanaEscaped()
    ensures EncodeChar('キ') == "%E3%82%AD"
  {
    assert Utf8('キ') == [0xE3, 0x82, 0xAD];
    assert PercentBytes([0xAD]) == "%AD";
    assert PercentBytes([0x82, 0xAD]) == "%82%AD";
  }
}
