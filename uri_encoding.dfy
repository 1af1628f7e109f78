/**
 * `encodeURI` as section 15.1.3.3 of ECMA-262 5.1 defines it: every character
 * of the unescaped URI set is copied, every other character is written as
 * the UTF-8 octets of its code point, each as `%` and two upper-case hex digits.
 *
 * `Unescape` is a percent-decoder that reads such octet sequences back. It is
 * the partner used to prove that encoding loses nothing.
 */
module UriEncoding {
  import opened Wrappers

  const Reserved: set<char> := {';', '/', '?', ':', '@', '&', '=', '+', '$', ','}
  const Marks: set<char> := {'-', '_', '.', '!', '~', '*', '\'', '(', ')'}

  predicate IsAlphaNum(c: char) {
    'a' <= c <= 'z' || 'A' <= c <= 'Z' || '0' <= c <= '9'
  }

  /** The unescaped URI set: uriReserved, uriUnescaped and `#`. */
  predicate Unescaped(c: char) {
    IsAlphaNum(c) || c in Reserved || c in Marks || c == '#'
  }

  predicate IsHexDigit(c: char) {
    '0' <= c <= '9' || 'A' <= c <= 'F' || 'a' <= c <= 'f'
  }

  /** A code point that is a Unicode scalar value, i.e. that a `char` can hold. */
  predicate IsScalar(v: int) {
    0 <= v < 0xD800 || 0xE000 <= v < 0x11_0000
  }

  /** The upper-case hex digit for `d`. */
  function HexDigit(d: nat): (c: char)
    requires d < 16
    ensures IsHexDigit(c) && !('a' <= c <= 'f')
  {
    if d < 10 then ('0' as int + d) as char else ('A' as int + d - 10) as char
  }

  /** The value of a hex digit of either case. */
  function HexValue(c: char): (r: Option<nat>)
    ensures r.Some? <==> IsHexDigit(c)
    ensures r.Some? ==> r.value < 16
  {
    if '0' <= c <= '9' then Some(c as int - '0' as int)
    else if 'A' <= c <= 'F' then Some(c as int - 'A' as int + 10)
    else if 'a' <= c <= 'f' then Some(c as int - 'a' as int + 10)
    else None
  }

  lemma HexValueOfDigit(d: nat)
    requires d < 16
    ensures HexValue(HexDigit(d)) == Some(d)
  {
  }

  /** The UTF-8 octets of a code point (the table in section 15.1.3 of ECMA-262 5.1). */
  function Utf8(v: nat): (bytes: seq<nat>)
    requires IsScalar(v)
    ensures 1 <= |bytes| <= 4
    ensures forall i :: 0 <= i < |bytes| ==> bytes[i] < 256
  {
    if v < 0x80 then [v]
    else if v < 0x800 then [0xC0 + v / 64, 0x80 + v % 64]
    else if v < 0x1_0000 then [0xE0 + v / 4096, 0x80 + (v / 64) % 64, 0x80 + v % 64]
    else [0xF0 + v / 262144, 0x80 + (v / 4096) % 64, 0x80 + (v / 64) % 64, 0x80 + v % 64]
  }

  /** One octet as `%XY`. */
  function Escape(b: nat): string
    requires b < 256
  {
    ['%', HexDigit(b / 16), HexDigit(b % 16)]
  }

  function EscapeAll(bytes: seq<nat>): (r: string)
    requires forall i :: 0 <= i < |bytes| ==> bytes[i] < 256
    ensures |r| == 3 * |bytes|
  {
    if |bytes| == 0 then [] else Escape(bytes[0]) + EscapeAll(bytes[1..])
  }

  /** What `encodeURI` writes for one character. */
  function EncodeChar(c: char): string {
    if Unescaped(c) then [c] else EscapeAll(Utf8(c as int))
  }

  /** `encodeURI(s)`. */
  function EncodeURI(s: string): string {
    if |s| == 0 then [] else EncodeChar(s[0]) + EncodeURI(s[1..])
  }

  /** The octet written as `%XY` at position `i` of `s`, if there is one. */
  function OctetAt(s: string, i: nat): Option<nat> {
    if i + 3 <= |s| && s[i] == '%' && HexValue(s[i + 1]).Some? && HexValue(s[i + 2]).Some?
    then Some(16 * HexValue(s[i + 1]).value + HexValue(s[i + 2]).value)
    else None
  }

  /** A continuation octet 10xxxxxx at position `i`, as its six payload bits. */
  function ContinuationAt(s: string, i: nat): Option<nat> {
    match OctetAt(s, i)
    case Some(b) => if 0x80 <= b < 0xC0 then Some(b - 0x80) else None
    case None => None
  }

  /** Decodes the escaped UTF-8 sequence at the start of `s` into one character
      and the number of characters of `s` it spans. */
  function DecodeSequence(s: string): Option<(char, nat)> {
    match OctetAt(s, 0)
    case None => None
    case Some(b0) =>
      if b0 < 0x80 then Some((b0 as char, 3))
      else if 0xC0 <= b0 < 0xE0 then
        (match ContinuationAt(s, 3)
         case Some(c1) =>
           var v := (b0 - 0xC0) * 64 + c1;
           if IsScalar(v) then Some((v as char, 6)) else None
         case None => None)
      else if 0xE0 <= b0 < 0xF0 then
        (match (ContinuationAt(s, 3), ContinuationAt(s, 6))
         case (Some(c1), Some(c2)) =>
           var v := (b0 - 0xE0) * 4096 + c1 * 64 + c2;
           if IsScalar(v) then Some((v as char, 9)) else None
         case _ => None)
      else if 0xF0 <= b0 < 0xF8 then
        (match (ContinuationAt(s, 3), ContinuationAt(s, 6), ContinuationAt(s, 9))
         case (Some(c1), Some(c2), Some(c3)) =>
           var v := (b0 - 0xF0) * 262144 + c1 * 4096 + c2 * 64 + c3;
           if IsScalar(v) then Some((v as char, 12)) else None
         case _ => None)
      else None
  }

  /** Percent-decoding of UTF-8 escapes; any other character stands for itself.
      `None` for a malformed escape. */
  function Unescape(s: string): Option<string>
    decreases |s|
  {
    if |s| == 0 then Some([])
    else if s[0] != '%' then
      match Unescape(s[1..])
      case Some(t) => Some([s[0]] + t)
      case None => None
    else
      match DecodeSequence(s)
      case None => None
      case Some(d) =>
        if 0 < d.1 <= |s| then
          match Unescape(s[d.1..])
          case Some(t) => Some([d.0] + t)
          case None => None
        else None
  }

  /** The octet escaped at position 3k of an escaped octet string reads back. */
  lemma {:induction false} OctetAtEscapeAll(bytes: seq<nat>, rest: string, k: nat)
    requires forall i :: 0 <= i < |bytes| ==> bytes[i] < 256
    requires k < |bytes|
    ensures OctetAt(EscapeAll(bytes) + rest, 3 * k) == Some(bytes[k])
  {
    var s := EscapeAll(bytes) + rest;
    if k == 0 {
      var b := bytes[0];
      assert s[..3] == Escape(b);
      HexValueOfDigit(b / 16);
      HexValueOfDigit(b % 16);
    } else {
      assert s == Escape(bytes[0]) + (EscapeAll(bytes[1..]) + rest);
      OctetAtEscapeAll(bytes[1..], rest, k - 1);
      var t := EscapeAll(bytes[1..]) + rest;
      assert s[3 * k .. 3 * k + 3] == t[3 * (k - 1) .. 3 * (k - 1) + 3];
    }
  }

  lemma Utf8Arith2(v: nat)
    requires 0x80 <= v < 0x800
    ensures 0xC0 <= 0xC0 + v / 64 < 0xE0
    ensures (v / 64) * 64 + v % 64 == v
  {
  }

  lemma Utf8Arith3(v: nat)
    requires 0x800 <= v < 0x1_0000
    ensures 0xE0 <= 0xE0 + v / 4096 < 0xF0
    ensures (v / 4096) * 4096 + ((v / 64) % 64) * 64 + v % 64 == v
  {
    var a, b, c := v / 4096, (v / 64) % 64, v % 64;
    assert v / 64 == a * 64 + b;
  }

  lemma Utf8Arith4(v: nat)
    requires 0x1_0000 <= v < 0x11_0000
    ensures 0xF0 <= 0xF0 + v / 262144 < 0xF8
    ensures (v / 262144) * 262144 + ((v / 4096) % 64) * 4096 + ((v / 64) % 64) * 64 + v % 64 == v
  {
    var a, b := v / 262144, (v / 4096) % 64;
    assert v / 4096 == a * 64 + b;
    assert v / 64 == (v / 4096) * 64 + (v / 64) % 64;
  }

  lemma DecodeTwo(s: string, b0: nat, c1: nat)
    requires OctetAt(s, 0) == Some(b0) && 0xC0 <= b0 < 0xE0
    requires ContinuationAt(s, 3) == Some(c1)
    requires IsScalar((b0 - 0xC0) * 64 + c1)
    ensures DecodeSequence(s) == Some((((b0 - 0xC0) * 64 + c1) as char, 6))
  {
  }

  lemma DecodeThree(s: string, b0: nat, c1: nat, c2: nat)
    requires OctetAt(s, 0) == Some(b0) && 0xE0 <= b0 < 0xF0
    requires ContinuationAt(s, 3) == Some(c1) && ContinuationAt(s, 6) == Some(c2)
    requires IsScalar((b0 - 0xE0) * 4096 + c1 * 64 + c2)
    ensures DecodeSequence(s) == Some((((b0 - 0xE0) * 4096 + c1 * 64 + c2) as char, 9))
  {
  }

  lemma DecodeFour(s: string, b0: nat, c1: nat, c2: nat, c3: nat)
    requires OctetAt(s, 0) == Some(b0) && 0xF0 <= b0 < 0xF8
    requires ContinuationAt(s, 3) == Some(c1) && ContinuationAt(s, 6) == Some(c2)
    requires ContinuationAt(s, 9) == Some(c3)
    requires IsScalar((b0 - 0xF0) * 262144 + c1 * 4096 + c2 * 64 + c3)
    ensures DecodeSequence(s) == Some((((b0 - 0xF0) * 262144 + c1 * 4096 + c2 * 64 + c3) as char, 12))
  {
  }

  lemma DecodeEscaped1(v: nat, rest: string)
    requires v < 0x80
    ensures DecodeSequence(EscapeAll(Utf8(v)) + rest) == Some((v as char, 3))
  {
    OctetAtEscapeAll(Utf8(v), rest, 0);
  }

  lemma DecodeEscaped2(v: nat, rest: string)
    requires 0x80 <= v < 0x800
    ensures DecodeSequence(EscapeAll(Utf8(v)) + rest) == Some((v as char, 6))
  {
    var bytes := Utf8(v);
    var s := EscapeAll(bytes) + rest;
    OctetAtEscapeAll(bytes, rest, 0);
    OctetAtEscapeAll(bytes, rest, 1);
    Utf8Arith2(v);
    DecodeTwo(s, bytes[0], v % 64);
  }

  lemma DecodeEscaped3(v: nat, rest: string)
    requires 0x800 <= v < 0x1_0000 && IsScalar(v)
    ensures DecodeSequence(EscapeAll(Utf8(v)) + rest) == Some((v as char, 9))
  {
    var bytes := Utf8(v);
    var s := EscapeAll(bytes) + rest;
    OctetAtEscapeAll(bytes, rest, 0);
    OctetAtEscapeAll(bytes, rest, 1);
    OctetAtEscapeAll(bytes, rest, 2);
    Utf8Arith3(v);
    DecodeThree(s, bytes[0], (v / 64) % 64, v % 64);
  }

  lemma DecodeEscaped4(v: nat, rest: string)
    requires 0x1_0000 <= v < 0x11_0000
    ensures DecodeSequence(EscapeAll(Utf8(v)) + rest) == Some((v as char, 12))
  {
    var bytes := Utf8(v);
    var s := EscapeAll(bytes) + rest;
    OctetAtEscapeAll(bytes, rest, 0);
    OctetAtEscapeAll(bytes, rest, 1);
    OctetAtEscapeAll(bytes, rest, 2);
    OctetAtEscapeAll(bytes, rest, 3);
    Utf8Arith4(v);
    DecodeFour(s, bytes[0], (v / 4096) % 64, (v / 64) % 64, v % 64);
  }

  /** Decoding the escapes that encode one character gives that character back. */
  lemma DecodeEscapedChar(c: char, rest: string)
    ensures DecodeSequence(EscapeAll(Utf8(c as int)) + rest)
            == Some((c, |EscapeAll(Utf8(c as int))|))
  {
    var v := c as int;
    if v < 0x80 {
      DecodeEscaped1(v, rest);
    } else if v < 0x800 {
      DecodeEscaped2(v, rest);
    } else if v < 0x1_0000 {
      DecodeEscaped3(v, rest);
    } else {
      DecodeEscaped4(v, rest);
    }
  }

  /** One step of `Unescape` over a decoded escape sequence. */
  lemma UnescapeEscapedStep(c: char, e: string, rest: string)
    requires 0 < |e| && e[0] == '%'
    requires DecodeSequence(e + rest) == Some((c, |e|))
    ensures Unescape(e + rest) == (match Unescape(rest) case Some(t) => Some([c] + t) case None => None)
  {
    assert (e + rest)[|e|..] == rest;
  }

  /** One step of `Unescape` over a character that stands for itself. */
  lemma UnescapePlainStep(c: char, rest: string)
    requires c != '%'
    ensures Unescape([c] + rest) == (match Unescape(rest) case Some(t) => Some([c] + t) case None => None)
  {
    assert ([c] + rest)[1..] == rest;
  }

  /** Round trip: percent-decoding undoes `encodeURI`. */
  lemma {:induction false} UnescapeEncodeURI(s: string)
    ensures Unescape(EncodeURI(s)) == Some(s)
  {
    if |s| > 0 {
      var c := s[0];
      var rest := EncodeURI(s[1..]);
      UnescapeEncodeURI(s[1..]);
      assert s == [c] + s[1..];
      if Unescaped(c) {
        assert EncodeURI(s) == [c] + rest;
        UnescapePlainStep(c, rest);
      } else {
        var e := EscapeAll(Utf8(c as int));
        assert EncodeURI(s) == e + rest;
        DecodeEscapedChar(c, rest);
        UnescapeEscapedStep(c, e, rest);
      }
    }
  }

  /** Two strings with the same `encodeURI` are the same string. */
  lemma EncodeURIInjective(a: string, b: string)
    requires EncodeURI(a) == EncodeURI(b)
    ensures a == b
  {
    UnescapeEncodeURI(a);
    UnescapeEncodeURI(b);
  }

  /** The characters `encodeURI` can write: the unescaped set, `%`, hex digits. */
  predicate EncodedChar(c: char) {
    Unescaped(c) || c == '%' || IsHexDigit(c)
  }

  lemma {:induction false} EscapeAllChars(bytes: seq<nat>)
    requires forall i :: 0 <= i < |bytes| ==> bytes[i] < 256
    ensures forall i :: 0 <= i < |EscapeAll(bytes)| ==> EncodedChar(EscapeAll(bytes)[i])
  {
    if |bytes| > 0 {
      EscapeAllChars(bytes[1..]);
    }
  }

  /** `encodeURI` writes only characters of the unescaped set, `%` and hex digits;
      in particular its output is ASCII and holds no `"`. */
  lemma {:induction false} EncodeURIChars(s: string)
    ensures forall i :: 0 <= i < |EncodeURI(s)| ==> EncodedChar(EncodeURI(s)[i])
    ensures forall i :: 0 <= i < |EncodeURI(s)| ==> EncodeURI(s)[i] as int < 128
  {
    if |s| > 0 {
      EncodeURIChars(s[1..]);
      if !Unescaped(s[0]) {
        EscapeAllChars(Utf8(s[0] as int));
      }
    }
  }

  /** `encodeURI` leaves a string made only of unescaped characters as it is. */
  lemma {:induction false} EncodeURIIdentity(s: string)
    requires forall i :: 0 <= i < |s| ==> Unescaped(s[i])
    ensures EncodeURI(s) == s
  {
    if |s| > 0 {
      EncodeURIIdentity(s[1..]);
      assert s == [s[0]] + s[1..];
    }
  }
}
