/**
 * JavaScript's `encodeURIComponent`: every character outside the unreserved
 * set of section 2.3 of RFC 2396 (`A-Z a-z 0-9 - _ . ! ~ * ' ( )`) is written
 * as the `%XY` escapes (upper-case hexadecimal, section 2.1 of RFC 3986) of
 * its UTF-8 bytes (section 3 of RFC 3629).
 *
 * A Dafny `char` is a Unicode scalar value, so every string here is well
 * formed and the encoding never fails. `PercentDecode` and `Utf8Decode` are
 * the inverse that states what the encoding preserves.
 */
module Uri {
  import opened Wrappers

  type Byte = b: int | 0 <= b < 256

  predicate IsUnreserved(c: char)
  {
    ('A' <= c <= 'Z') || ('a' <= c <= 'z') || ('0' <= c <= '9') ||
    c == '-' || c == '_' || c == '.' || c == '!' || c == '~' ||
    c == '*' || c == '\'' || c == '(' || c == ')'
  }

  /** The UTF-8 bytes of one scalar value: one byte below U+0080, then two,
      three or four bytes, a lead byte followed by continuation bytes. */
  function Utf8(c: char): (r: seq<Byte>)
    ensures 1 <= |r| <= 4
    ensures |r| == SequenceLength(r[0])
    ensures (|r| == 1) == (c as int < 0x80)
    ensures |r| == 1 ==> r[0] == c as int
    ensures forall i :: 1 <= i < |r| ==> 0x80 <= r[i] < 0xC0
  {
    var v := c as int;
    if v < 0x80 then [v]
    else if v < 0x800 then [0xC0 + v / 64, 0x80 + v % 64]
    else if v < 0x10000 then [0xE0 + v / 4096, 0x80 + (v / 64) % 64, 0x80 + v % 64]
    else [0xF0 + v / 262144, 0x80 + (v / 4096) % 64, 0x80 + (v / 64) % 64, 0x80 + v % 64]
  }

  /** The UTF-8 bytes of a whole string. */
  function Utf8String(s: string): seq<Byte>
  {
    if s == [] then [] else Utf8(s[0]) + Utf8String(s[1..])
  }

  const HexDigits: string := "0123456789ABCDEF"

  /** `%XY` for one byte. */
  function Escape(b: Byte): (r: string)
    ensures |r| == 3 && r[0] == '%' && IsUnreserved(r[1]) && IsUnreserved(r[2])
  {
    ['%', HexDigits[b / 16], HexDigits[b % 16]]
  }

  function EscapeAll(bs: seq<Byte>): (r: string)
    ensures |r| == 3 * |bs|
    ensures forall i :: 0 <= i < |r| ==> IsUnreserved(r[i]) || r[i] == '%'
  {
    if bs == [] then [] else Escape(bs[0]) + EscapeAll(bs[1..])
  }

  function EncodeChar(c: char): (r: string)
  {
    if IsUnreserved(c) then [c] else EscapeAll(Utf8(c))
  }

  /** `encodeURIComponent(s)`. Its output is made of unreserved characters
      and `%` only; it changes `s` exactly when `s` holds a character outside
      the unreserved set, and then it grows. */
  function EncodeURIComponent(s: string): (r: string)
    ensures forall i :: 0 <= i < |r| ==> IsUnreserved(r[i]) || r[i] == '%'
    ensures |r| >= |s|
    ensures (forall i :: 0 <= i < |s| ==> IsUnreserved(s[i])) ==> r == s
    ensures (exists i :: 0 <= i < |s| && !IsUnreserved(s[i])) ==> |r| > |s|
  {
    if s == [] then []
    else
      var rest := EncodeURIComponent(s[1..]);
      assert forall i :: 1 <= i < |s| ==> s[i] == s[1..][i - 1];
      EncodeChar(s[0]) + rest
  }

  /** `encodeURIComponent` leaves a string alone exactly when all its characters are unreserved. */
  lemma EncodeIdentity(s: string)
    ensures EncodeURIComponent(s) == s <==> forall i :: 0 <= i < |s| ==> IsUnreserved(s[i])
  {
  }

  lemma EncodeAppend(a: string, b: string)
    ensures EncodeURIComponent(a + b) == EncodeURIComponent(a) + EncodeURIComponent(b)
  {
    if a == [] {
      assert a + b == b;
    } else {
      assert (a + b)[1..] == a[1..] + b;
      EncodeAppend(a[1..], b);
    }
  }

  function HexValue(c: char): Option<int>
  {
    if '0' <= c <= '9' then Some(c as int - '0' as int)
    else if 'A' <= c <= 'F' then Some(c as int - 'A' as int + 10)
    else if 'a' <= c <= 'f' then Some(c as int - 'a' as int + 10)
    else None
  }

  /** Undo the `%XY` escapes of a string, giving its bytes: an unescaped
      character must be ASCII and stands for itself. None for a malformed escape. */
  function PercentDecode(t: string): Option<seq<Byte>>
  {
    if t == [] then Some([])
    else if t[0] == '%' then
      if |t| >= 3 && HexValue(t[1]).Some? && HexValue(t[2]).Some? then
        match PercentDecode(t[3..])
        case None => None
        case Some(rest) => Some([HexValue(t[1]).value * 16 + HexValue(t[2]).value] + rest)
      else None
    else if t[0] as int < 0x80 then
      match PercentDecode(t[1..])
      case None => None
      case Some(rest) => Some([t[0] as int] + rest)
    else None
  }

  /** The number of bytes of the UTF-8 sequence a lead byte starts, or 0 if it cannot start one. */
  function SequenceLength(b: Byte): nat
  {
    if b < 0x80 then 1
    else if 0xC2 <= b < 0xE0 then 2
    else if 0xE0 <= b < 0xF0 then 3
    else if 0xF0 <= b < 0xF5 then 4
    else 0
  }

  predicate IsContinuation(b: Byte) { 0x80 <= b < 0xC0 }

  /** The scalar value one complete UTF-8 sequence stands for; None if the
      sequence is malformed, overlong, a surrogate or beyond U+10FFFF. */
  function DecodeScalar(bs: seq<Byte>): Option<char>
    requires 1 <= |bs| <= 4 && |bs| == SequenceLength(bs[0])
  {
    if |bs| == 1 then Some(bs[0] as char)
    else if exists i :: 1 <= i < |bs| && !IsContinuation(bs[i]) then None
    else if |bs| == 2 then
      Some(((bs[0] as int - 0xC0) * 64 + (bs[1] as int - 0x80)) as char)
    else if |bs| == 3 then
      var v := (bs[0] as int - 0xE0) * 4096 + (bs[1] as int - 0x80) * 64 + (bs[2] as int - 0x80);
      if v < 0x800 || (0xD800 <= v < 0xE000) then None else Some(v as char)
    else
      var v := (bs[0] as int - 0xF0) * 262144 + (bs[1] as int - 0x80) * 4096 + (bs[2] as int - 0x80) * 64 + (bs[3] as int - 0x80);
      if v < 0x10000 || v >= 0x110000 then None else Some(v as char)
  }

  /** The string a sequence of UTF-8 bytes stands for; None if it is not well-formed UTF-8. */
  function Utf8Decode(bs: seq<Byte>): Option<string>
  {
    if bs == [] then Some([])
    else
      var n := SequenceLength(bs[0]);
      if n == 0 || |bs| < n then None
      else
        match DecodeScalar(bs[..n])
        case None => None
        case Some(c) =>
          match Utf8Decode(bs[n..])
          case None => None
          case Some(rest) => Some([c] + rest)
  }

  /** `decodeURIComponent`, for the strings `encodeURIComponent` can produce. */
  function DecodeURIComponent(t: string): Option<string>
  {
    match PercentDecode(t)
    case None => None
    case Some(bs) => Utf8Decode(bs)
  }

  lemma HexDigitValue(d: int)
    requires 0 <= d < 16
    ensures HexValue(HexDigits[d]) == Some(d)
  {
  }

  lemma DecodeEscape(b: Byte, t: string, rest: seq<Byte>)
    requires PercentDecode(t) == Some(rest)
    ensures PercentDecode(Escape(b) + t) == Some([b] + rest)
  {
    var hi, lo := b / 16, b % 16;
    assert b == hi * 16 + lo;
    var u := Escape(b) + t;
    assert u[0] == '%' && u[1] == HexDigits[hi] && u[2] == HexDigits[lo];
    assert u[3..] == t;
    HexDigitValue(hi);
    HexDigitValue(lo);
  }

  lemma {:induction false} DecodeEscapes(bs: seq<Byte>, t: string, rest: seq<Byte>)
    requires PercentDecode(t) == Some(rest)
    ensures PercentDecode(EscapeAll(bs) + t) == Some(bs + rest)
  {
    if bs == [] {
      assert EscapeAll(bs) + t == t;
      assert bs + rest == rest;
    } else {
      var e, e' := Escape(bs[0]), EscapeAll(bs[1..]);
      var tail := e' + t;
      assert EscapeAll(bs) + t == e + tail by {
        assert EscapeAll(bs) == e + e';
        AppendAssoc(e, e', t);
      }
      assert PercentDecode(tail) == Some(bs[1..] + rest) by {
        DecodeEscapes(bs[1..], t, rest);
      }
      assert PercentDecode(e + tail) == Some([bs[0]] + (bs[1..] + rest)) by {
        DecodeEscape(bs[0], tail, bs[1..] + rest);
      }
      assert [bs[0]] + (bs[1..] + rest) == bs + rest by {
        AppendAssoc([bs[0]], bs[1..], rest);
        assert [bs[0]] + bs[1..] == bs;
      }
    }
  }

  lemma AppendAssoc<T>(a: seq<T>, b: seq<T>, c: seq<T>)
    ensures (a + b) + c == a + (b + c)
  {
  }

  /** Percent-decoding the encoding of `s` gives the UTF-8 bytes of `s`. */
  lemma {:induction false} PercentDecodeEncode(s: string)
    ensures PercentDecode(EncodeURIComponent(s)) == Some(Utf8String(s))
  {
    if s != [] {
      var c := s[0];
      var rest := EncodeURIComponent(s[1..]);
      PercentDecodeEncode(s[1..]);
      if IsUnreserved(c) {
        var u := [c] + rest;
        assert u[1..] == rest;
      } else {
        DecodeEscapes(Utf8(c), rest, Utf8String(s[1..]));
      }
    }
  }

  lemma Utf8ScalarRoundTrip(c: char)
    ensures DecodeScalar(Utf8(c)) == Some(c)
  {
    var v := c as int;
    var r := Utf8(c);
    if v < 0x80 {
    } else if v < 0x800 {
      assert (v / 64) * 64 + v % 64 == v;
    } else if v < 0x10000 {
      assert v / 4096 * 4096 + (v / 64) % 64 * 64 + v % 64 == v by {
        DivMod64(v);
      }
    } else {
      assert v / 262144 * 262144 + (v / 4096) % 64 * 4096 + (v / 64) % 64 * 64 + v % 64 == v by {
        DivMod64(v);
        DivMod64(v / 64);
        assert v / 64 / 64 == v / 4096;
        assert v / 4096 / 64 == v / 262144;
      }
    }
  }

  lemma DivMod64(v: nat)
    ensures v / 4096 * 4096 + (v / 64) % 64 * 64 + v % 64 == v
  {
    var q := v / 64;
    assert v == q * 64 + v % 64;
    assert q == q / 64 * 64 + q % 64;
    assert q / 64 == v / 4096;
  }

  lemma {:induction false} Utf8DecodeString(s: string)
    ensures Utf8Decode(Utf8String(s)) == Some(s)
  {
    if s != [] {
      var c := s[0];
      var bs := Utf8String(s);
      var n := |Utf8(c)|;
      assert bs == Utf8(c) + Utf8String(s[1..]);
      assert bs[..n] == Utf8(c);
      assert bs[n..] == Utf8String(s[1..]);
      Utf8ScalarRoundTrip(c);
      Utf8DecodeString(s[1..]);
      assert [c] + s[1..] == s;
    }
  }

  /** `decodeURIComponent(encodeURIComponent(s)) == s` for every string. */
  lemma DecodeEncode(s: string)
    ensures DecodeURIComponent(EncodeURIComponent(s)) == Some(s)
  {
    PercentDecodeEncode(s);
    Utf8DecodeString(s);
  }
}
