/** `encodeURI` as ECMAScript defines it: every character outside the URI
    alphabet (letters, digits, `-_.!~*'()`, the reserved `;/?:@&=+$,` and
    `#`) is written as the UTF-8 bytes of its code point, each as `%XX`
    with upper-case hex digits. Its partner is a percent-decoder that reads
    the escapes back into characters (what `decodeURIComponent` does). */
module UriEncoding {
  import opened Text

  predicate IsAsciiAlnum(c: char) {
    ('A' <= c <= 'Z') || ('a' <= c <= 'z') || ('0' <= c <= '9')
  }

  /** The characters `encodeURI` leaves as they are. */
  predicate IsUriUnescaped(c: char) {
    IsAsciiAlnum(c) ||
    c == '-' || c == '_' || c == '.' || c == '!' || c == '~' || c == '*' || c == '\'' || c == '(' || c == ')' ||
    c == ';' || c == '/' || c == '?' || c == ':' || c == '@' || c == '&' || c == '=' || c == '+' || c == '$' || c == ',' ||
    c == '#'
  }

  predicate AllUnescaped(s: string) {
    forall k :: 0 <= k < |s| ==> IsUriUnescaped(s[k])
  }

  function HexDigit(d: nat): (c: char)
    requires d < 16
  {
    "0123456789ABCDEF"[d]
  }

  predicate IsHexDigit(c: char) {
    ('0' <= c <= '9') || ('A' <= c <= 'F') || ('a' <= c <= 'f')
  }

  function HexValue(c: char): (d: nat)
    requires IsHexDigit(c)
    ensures d < 16
  {
    if '0' <= c <= '9' then (c as int - '0' as int) as nat
    else if 'A' <= c <= 'F' then (c as int - 'A' as int + 10) as nat
    else (c as int - 'a' as int + 10) as nat
  }

  lemma HexDigitValue(d: nat)
    requires d < 16
    ensures IsHexDigit(HexDigit(d)) && HexValue(HexDigit(d)) == d
  {
  }

  /** `%XX` for one byte. */
  function Escape(b: nat): (r: string)
    requires b < 256
    ensures |r| == 3 && r[0] == '%'
  {
    ['%', HexDigit(b / 16), HexDigit(b % 16)]
  }

  function EscapeAll(bytes: seq<nat>): (r: string)
    requires forall i :: 0 <= i < |bytes| ==> bytes[i] < 256
    ensures |r| == 3 * |bytes|
  {
    if bytes == [] then [] else Escape(bytes[0]) + EscapeAll(bytes[1..])
  }

  /** The UTF-8 encoding of a Unicode scalar value (one to four bytes): the
      code point's 6-bit groups, most significant first, under a lead byte
      that gives the length. */
  function Utf8(c: char): (bytes: seq<nat>)
    ensures 1 <= |bytes| <= 4
    ensures forall i :: 0 <= i < |bytes| ==> bytes[i] < 256
  {
    var cp := c as int;
    var q1 := cp / 64;
    var q2 := q1 / 64;
    if cp < 0x80 then [cp]
    else if cp < 0x800 then [0xC0 + q1, 0x80 + cp % 64]
    else if cp < 0x10000 then [0xE0 + q2, 0x80 + q1 % 64, 0x80 + cp % 64]
    else [0xF0 + q2 / 64, 0x80 + q2 % 64, 0x80 + q1 % 64, 0x80 + cp % 64]
  }

  function EncodeChar(c: char): (r: string)
    ensures IsUriUnescaped(c) ==> r == [c]
    ensures !IsUriUnescaped(c) ==> |r| >= 3 && r[0] == '%'
  {
    if IsUriUnescaped(c) then [c] else EscapeAll(Utf8(c))
  }

  /** `encodeURI(s)`. */
  function EncodeUri(s: string): (r: string)
    ensures |r| >= |s|
    ensures s != [] ==> r != []
  {
    if s == [] then [] else EncodeChar(s[0]) + EncodeUri(s[1..])
  }

  /** The encoding writes only URI characters: the unescaped alphabet, `%`
      and hex digits. */
  lemma {:induction false} EncodeUriAlphabet(s: string)
    ensures forall k :: 0 <= k < |EncodeUri(s)| ==>
              IsUriUnescaped(EncodeUri(s)[k]) || EncodeUri(s)[k] == '%'
  {
    if s != [] {
      EncodeUriAlphabet(s[1..]);
      var e := EncodeChar(s[0]);
      if !IsUriUnescaped(s[0]) {
        EscapeAllAlphabet(Utf8(s[0]));
      }
      var r := EncodeUri(s);
      assert r == e + EncodeUri(s[1..]);
      forall k | 0 <= k < |r| ensures IsUriUnescaped(r[k]) || r[k] == '%' {
        if k < |e| {
          assert r[k] == e[k];
        } else {
          assert r[k] == EncodeUri(s[1..])[k - |e|];
        }
      }
    }
  }

  lemma {:induction false} EscapeAllAlphabet(bytes: seq<nat>)
    requires forall i :: 0 <= i < |bytes| ==> bytes[i] < 256
    ensures forall k :: 0 <= k < |EscapeAll(bytes)| ==>
              IsUriUnescaped(EscapeAll(bytes)[k]) || EscapeAll(bytes)[k] == '%'
  {
    if bytes != [] {
      EscapeAllAlphabet(bytes[1..]);
      var e := Escape(bytes[0]);
      var r := EscapeAll(bytes);
      forall k | 0 <= k < |r| ensures IsUriUnescaped(r[k]) || r[k] == '%' {
        if k < 3 {
          assert r[k] == e[k];
        } else {
          assert r[k] == EscapeAll(bytes[1..])[k - 3];
        }
      }
    }
  }

  /** `encodeURI` changes a string exactly when it holds a character outside
      the URI alphabet: each such character grows to at least three. */
  lemma {:induction false} EncodeUriIdentityIff(s: string)
    ensures EncodeUri(s) == s <==> AllUnescaped(s)
  {
    if s != [] {
      EncodeUriIdentityIff(s[1..]);
      if IsUriUnescaped(s[0]) {
        assert EncodeUri(s) == [s[0]] + EncodeUri(s[1..]);
        assert s == [s[0]] + s[1..];
        if AllUnescaped(s[1..]) {
          assert AllUnescaped(s) by {
            forall k | 0 <= k < |s| ensures IsUriUnescaped(s[k]) {
              if k > 0 { assert s[k] == s[1..][k - 1]; }
            }
          }
        } else {
          var k :| 0 <= k < |s[1..]| && !IsUriUnescaped(s[1..][k]);
          assert s[k + 1] == s[1..][k];
          assert !AllUnescaped(s);
        }
      } else {
        assert |EncodeUri(s)| > |s|;
      }
    }
  }

  /** The encoding is free of characters outside the URI alphabet exactly
      when its input was: an escaped character leaves a `%` behind. */
  lemma EncodeUriAllUnescapedIff(s: string)
    ensures AllUnescaped(EncodeUri(s)) <==> AllUnescaped(s)
  {
    EncodeUriIdentityIff(s);
    if !AllUnescaped(s) {
      var k :| 0 <= k < |s| && !IsUriUnescaped(s[k]);
      var j := EscapedLeavesPercent(s, k);
    }
  }

  /** A character outside the URI alphabet leaves a `%` in the encoding. */
  lemma {:induction false} EscapedLeavesPercent(s: string, k: nat) returns (j: nat)
    requires k < |s| && !IsUriUnescaped(s[k])
    ensures j < |EncodeUri(s)| && EncodeUri(s)[j] == '%'
  {
    var e := EncodeChar(s[0]);
    var tail := EncodeUri(s[1..]);
    assert EncodeUri(s) == e + tail;
    if k == 0 {
      j := 0;
      assert (e + tail)[0] == e[0];
    } else {
      var i := EscapedLeavesPercent(s[1..], k - 1);
      j := |e| + i;
      assert (e + tail)[j] == tail[i];
    }
  }

  /** Every `%` in the input is escaped as `%25`, so encoding an already
      encoded string with escapes in it changes it again. */
  lemma EncodePercent()
    ensures EncodeUri("%") == "%25"
  {
    assert Utf8('%') == [37];
    assert EncodeUri("%") == EncodeChar('%') + EncodeUri([]);
  }

  // ---------------------------------------------------------------------
  // The partner: reading escapes back.

  /** The number of bytes a UTF-8 sequence with this lead byte has (0: not a lead byte). */
  function Utf8Length(b0: nat): nat {
    if b0 < 0x80 then 1
    else if 0xC2 <= b0 < 0xE0 then 2
    else if 0xE0 <= b0 < 0xF0 then 3
    else if 0xF0 <= b0 < 0xF5 then 4
    else 0
  }

  predicate IsContinuation(b: nat) {
    0x80 <= b < 0xC0
  }

  /** The code point of a complete UTF-8 sequence, if it names a scalar value. */
  function Utf8Decode(bytes: seq<nat>): Option<char> {
    if |bytes| == 0 || Utf8Length(bytes[0]) != |bytes| then None
    else if exists i :: 1 <= i < |bytes| && !IsContinuation(bytes[i]) then None
    else
      var cp :=
        if |bytes| == 1 then bytes[0]
        else if |bytes| == 2 then (bytes[0] - 0xC0) * 64 + (bytes[1] - 0x80)
        else if |bytes| == 3 then (bytes[0] - 0xE0) * 4096 + (bytes[1] - 0x80) * 64 + (bytes[2] - 0x80)
        else (bytes[0] - 0xF0) * 262144 + (bytes[1] - 0x80) * 4096 + (bytes[2] - 0x80) * 64 + (bytes[3] - 0x80);
      if 0 <= cp < 0xD800 || 0xE000 <= cp < 0x11_0000 then Some(cp as char) else None
  }

  /** The byte written as `%XY` at the start of `t`, if `t` starts with one. */
  function EscapedByte(t: string): Option<nat> {
    if |t| >= 3 && t[0] == '%' && IsHexDigit(t[1]) && IsHexDigit(t[2])
    then Some(HexValue(t[1]) * 16 + HexValue(t[2]))
    else None
  }

  /** `n` escaped bytes at the start of `t`. */
  function EscapedBytes(t: string, n: nat): Option<seq<nat>>
    decreases n
  {
    if n == 0 then Some([])
    else match EscapedByte(t)
      case None => None
      case Some(b) =>
        match EscapedBytes(t[3..], n - 1)
        case None => None
        case Some(rest) => Some([b] + rest)
  }

  /** The character written as a run of escapes at the start of `t` (its
      UTF-8 bytes, the lead byte saying how many), and the length of the run. */
  function DecodeEscape(t: string): Option<(char, nat)> {
    match EscapedByte(t)
    case None => None
    case Some(b0) =>
      var n := Utf8Length(b0);
      if n == 0 || |t| < 3 * n then None
      else match EscapedBytes(t, n)
        case None => None
        case Some(bytes) =>
          match Utf8Decode(bytes)
          case None => None
          case Some(c) => Some((c, 3 * n))
  }

  /** Percent-decoding: escapes are read as UTF-8 and every other character
      stands for itself; a malformed escape is an error (a URIError). */
  function DecodeUri(t: string): Option<string>
    decreases |t|
  {
    if t == [] then Some([])
    else if t[0] != '%' then
      match DecodeUri(t[1..])
      case None => None
      case Some(rest) => Some([t[0]] + rest)
    else
      match DecodeEscape(t)
      case None => None
      case Some((c, n)) =>
        if n == 0 || n > |t| then None
        else match DecodeUri(t[n..])
          case None => None
          case Some(rest) => Some([c] + rest)
  }

  lemma EscapeRoundTrip(b: nat, rest: string)
    requires b < 256
    ensures EscapedByte(Escape(b) + rest) == Some(b)
  {
    HexDigitValue(b / 16);
    HexDigitValue(b % 16);
  }

  lemma {:induction false} EscapeAllRoundTrip(bytes: seq<nat>, rest: string)
    requires forall i :: 0 <= i < |bytes| ==> bytes[i] < 256
    ensures EscapedBytes(EscapeAll(bytes) + rest, |bytes|) == Some(bytes)
  {
    if bytes != [] {
      var tail := EscapeAll(bytes[1..]) + rest;
      var t := EscapeAll(bytes) + rest;
      assert t == Escape(bytes[0]) + tail;
      EscapeRoundTrip(bytes[0], tail);
      EscapeAllRoundTrip(bytes[1..], rest);
      EscapedBytesStep(t, |bytes|, bytes[0], tail, bytes[1..]);
      assert [bytes[0]] + bytes[1..] == bytes;
    }
  }

  /** One escaped byte followed by `n - 1` more makes `n`. */
  lemma EscapedBytesStep(t: string, n: nat, b: nat, tail: string, more: seq<nat>)
    requires n > 0 && |t| >= 3 && t[3..] == tail
    requires EscapedByte(t) == Some(b) && EscapedBytes(tail, n - 1) == Some(more)
    ensures EscapedBytes(t, n) == Some([b] + more)
  {
  }

  lemma Utf8TwoBytes(cp: int)
    requires 0x80 <= cp < 0x800
    ensures var q1 := cp / 64;
            0xC2 <= 0xC0 + q1 < 0xE0 && (0xC0 + q1 - 0xC0) * 64 + (0x80 + cp % 64 - 0x80) == cp
  {
  }

  lemma Utf8ThreeBytes(cp: int)
    requires 0x800 <= cp < 0x10000
    ensures var q1 := cp / 64; var q2 := q1 / 64;
            0xE0 <= 0xE0 + q2 < 0xF0 &&
            (0xE0 + q2 - 0xE0) * 4096 + (0x80 + q1 % 64 - 0x80) * 64 + (0x80 + cp % 64 - 0x80) == cp
  {
    var q1 := cp / 64;
    var q2 := q1 / 64;
    assert cp == q1 * 64 + cp % 64;
    assert q1 == q2 * 64 + q1 % 64;
  }

  lemma Utf8FourBytes(cp: int)
    requires 0x10000 <= cp < 0x11_0000
    ensures var q1 := cp / 64; var q2 := q1 / 64; var q3 := q2 / 64;
            0xF0 <= 0xF0 + q3 < 0xF5 &&
            (0xF0 + q3 - 0xF0) * 262144 + (0x80 + q2 % 64 - 0x80) * 4096 +
            (0x80 + q1 % 64 - 0x80) * 64 + (0x80 + cp % 64 - 0x80) == cp
  {
    var q1 := cp / 64;
    var q2 := q1 / 64;
    var q3 := q2 / 64;
    assert cp == q1 * 64 + cp % 64;
    assert q1 == q2 * 64 + q1 % 64;
    assert q2 == q3 * 64 + q2 % 64;
  }

  /** Decoding the UTF-8 bytes of a character gives the character back. */
  lemma Utf8RoundTrip(c: char)
    ensures Utf8Length(Utf8(c)[0]) == |Utf8(c)|
    ensures Utf8Decode(Utf8(c)) == Some(c)
  {
    var cp := c as int;
    if 0x80 <= cp < 0x800 {
      Utf8TwoBytes(cp);
    } else if 0x800 <= cp < 0x10000 {
      Utf8ThreeBytes(cp);
    } else if 0x10000 <= cp {
      Utf8FourBytes(cp);
    }
  }

  lemma DecodeEscapeOfEncoding(bytes: seq<nat>, c: char, rest: string)
    requires forall i :: 0 <= i < |bytes| ==> bytes[i] < 256
    requires |bytes| > 0 && Utf8Length(bytes[0]) == |bytes| && Utf8Decode(bytes) == Some(c)
    ensures DecodeEscape(EscapeAll(bytes) + rest) == Some((c, 3 * |bytes|))
  {
    var t := EscapeAll(bytes) + rest;
    EscapeAllRoundTrip(bytes, rest);
    EscapeAllHead(bytes, rest);
    DecodeEscapeOfBytes(t, bytes, c);
  }

  /** Escaped bytes begin with the escape of the first byte. */
  lemma EscapeAllHead(bytes: seq<nat>, rest: string)
    requires forall i :: 0 <= i < |bytes| ==> bytes[i] < 256
    requires |bytes| > 0
    ensures EscapedByte(EscapeAll(bytes) + rest) == Some(bytes[0])
  {
    var e := Escape(bytes[0]);
    var t := EscapeAll(bytes) + rest;
    assert EscapeAll(bytes) == e + EscapeAll(bytes[1..]);
    assert t[0] == '%' && t[1] == e[1] && t[2] == e[2];
    HexDigitValue(bytes[0] / 16);
    HexDigitValue(bytes[0] % 16);
  }

  /** A run of escapes whose bytes are one UTF-8 sequence decodes to its
      character. */
  lemma DecodeEscapeOfBytes(t: string, bytes: seq<nat>, c: char)
    requires |bytes| > 0 && Utf8Length(bytes[0]) == |bytes| && Utf8Decode(bytes) == Some(c)
    requires EscapedByte(t) == Some(bytes[0]) && |t| >= 3 * |bytes|
    requires EscapedBytes(t, |bytes|) == Some(bytes)
    ensures DecodeEscape(t) == Some((c, 3 * |bytes|))
  {
  }

  lemma DecodeEscapedChar(bytes: seq<nat>, c: char, rest: string)
    requires forall i :: 0 <= i < |bytes| ==> bytes[i] < 256
    requires |bytes| > 0 && Utf8Length(bytes[0]) == |bytes| && Utf8Decode(bytes) == Some(c)
    requires DecodeUri(rest).Some?
    ensures DecodeUri(EscapeAll(bytes) + rest) == Some([c] + DecodeUri(rest).value)
  {
    var t := EscapeAll(bytes) + rest;
    DecodeEscapeOfEncoding(bytes, c, rest);
    assert t[0] == '%';
    assert t[3 * |bytes|..] == rest;
  }

  lemma DecodeEncodedChar(c: char, rest: string)
    requires DecodeUri(rest).Some?
    ensures DecodeUri(EncodeChar(c) + rest) == Some([c] + DecodeUri(rest).value)
  {
    var t := EncodeChar(c) + rest;
    if IsUriUnescaped(c) {
      assert t[1..] == rest;
    } else {
      Utf8RoundTrip(c);
      DecodeEscapedChar(Utf8(c), c, rest);
    }
  }

  /** Decoding undoes `encodeURI`. */
  lemma {:induction false} DecodeEncodeUri(s: string)
    ensures DecodeUri(EncodeUri(s)) == Some(s)
  {
    if s != [] {
      DecodeEncodeUri(s[1..]);
      DecodeEncodedChar(s[0], EncodeUri(s[1..]));
      assert [s[0]] + s[1..] == s;
    }
  }
}
