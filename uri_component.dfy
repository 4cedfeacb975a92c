/**
 * Percent-encoding of a URI component, as ECMAScript's
 * `encodeURIComponent` does it (section 19.2.6.5 of ECMA-262): every
 * character outside the unreserved set is written as the `%XX` escapes of
 * its UTF-8 bytes, with upper-case hex digits. `Decode` is the inverse the
 * router applies to query values.
 *
 * Characters are Unicode scalar values, so the lone surrogates for which
 * `encodeURIComponent` throws cannot occur.
 */
module UriComponent {
  import opened Common

  /** The characters `encodeURIComponent` leaves as they are. */
  predicate Unreserved(c: char)
  {
    || ('A' <= c <= 'Z') || ('a' <= c <= 'z') || ('0' <= c <= '9')
    || c in {'-', '_', '.', '!', '~', '*', '\'', '(', ')'}
  }

  /** A byte value. */
  type Byte = b: int | 0 <= b < 256

  function HexDigit(d: int): (c: char)
    requires 0 <= d < 16
    ensures HexValue(c) == Some(d)
  {
    if d < 10 then ('0' as int + d) as char else ('A' as int + d - 10) as char
  }

  function HexValue(c: char): (v: Option<int>)
    ensures v.Some? ==> 0 <= v.value < 16
  {
    if '0' <= c <= '9' then Some(c as int - '0' as int)
    else if 'A' <= c <= 'F' then Some(c as int - 'A' as int + 10)
    else if 'a' <= c <= 'f' then Some(c as int - 'a' as int + 10)
    else None
  }

  /** The escape of one byte. */
  function Escape(b: Byte): (e: string)
    ensures |e| == 3 && e[0] == '%'
  {
    ['%', HexDigit(b / 16), HexDigit(b % 16)]
  }

  /** The UTF-8 encoding of a Unicode scalar value. */
  function Utf8(c: char): (bs: seq<Byte>)
    ensures 1 <= |bs| <= 4
  {
    var cp := c as int;
    if cp < 0x80 then [cp]
    else if cp < 0x800 then [0xC0 + cp / 64, 0x80 + cp % 64]
    else if cp < 0x10000 then [0xE0 + cp / 4096, 0x80 + (cp / 64) % 64, 0x80 + cp % 64]
    else [0xF0 + cp / 262144, 0x80 + (cp / 4096) % 64, 0x80 + (cp / 64) % 64, 0x80 + cp % 64]
  }

  function EscapeAll(bs: seq<Byte>): (e: string)
    ensures |e| == 3 * |bs|
  {
    if bs == [] then [] else Escape(bs[0]) + EscapeAll(bs[1..])
  }

  function EncodeChar(c: char): string
  {
    if Unreserved(c) then [c] else EscapeAll(Utf8(c))
  }

  /** `encodeURIComponent`. */
  function Encode(s: string): string
  {
    if s == [] then [] else EncodeChar(s[0]) + Encode(s[1..])
  }

  /** The byte written by the escape at the start of `s`, if there is one. */
  function ReadEscape(s: string): (b: Option<Byte>)
  {
    if |s| >= 3 && s[0] == '%' && HexValue(s[1]).Some? && HexValue(s[2]).Some?
    then Some(HexValue(s[1]).value * 16 + HexValue(s[2]).value)
    else None
  }

  /** The length of the UTF-8 sequence a lead byte starts, or 0 for a byte that cannot lead. */
  function SequenceLength(b: Byte): nat
  {
    if b < 0x80 then 1
    else if 0xC0 <= b < 0xE0 then 2
    else if 0xE0 <= b < 0xF0 then 3
    else if 0xF0 <= b < 0xF8 then 4
    else 0
  }

  /** The code point of a well-formed UTF-8 sequence of `n` escapes at the start of `s`. */
  function ReadCodePoint(s: string, n: nat): (r: Option<char>)
    requires 1 <= n <= 4
  {
    if |s| < 3 * n then None
    else
      var b0 := ReadEscape(s);
      var b1 := ReadEscape(s[3..]);
      var b2 := if n >= 3 then ReadEscape(s[6..]) else Some(0x80);
      var b3 := if n >= 4 then ReadEscape(s[9..]) else Some(0x80);
      if b0.None? || (n >= 2 && (b1.None? || !(0x80 <= b1.value < 0xC0)))
         || b2.None? || !(0x80 <= b2.value < 0xC0) || b3.None? || !(0x80 <= b3.value < 0xC0)
      then None
      else
        var cp :=
          if n == 1 then b0.value
          else if n == 2 then (b0.value - 0xC0) * 64 + (b1.value - 0x80)
          else if n == 3 then ((b0.value - 0xE0) * 64 + (b1.value - 0x80)) * 64 + (b2.value - 0x80)
          else (((b0.value - 0xF0) * 64 + (b1.value - 0x80)) * 64 + (b2.value - 0x80)) * 64 + (b3.value - 0x80);
        var least := if n == 1 then 0 else if n == 2 then 0x80 else if n == 3 then 0x800 else 0x10000;
        if least <= cp < 0x110000 && !(0xD800 <= cp < 0xE000) then Some(cp as char) else None
  }

  /** `decodeURIComponent`: `None` where it throws on a malformed escape. */
  function Decode(s: string): (r: Option<string>)
    decreases |s|
  {
    if s == [] then Some([])
    else if s[0] != '%' then
      var rest := Decode(s[1..]);
      if rest.Some? then Some([s[0]] + rest.value) else None
    else
      var b0 := ReadEscape(s);
      if b0.None? || SequenceLength(b0.value) == 0 then None
      else
        var n := SequenceLength(b0.value);
        var c := ReadCodePoint(s, n);
        if c.None? || |s| < 3 * n then None
        else
          var rest := Decode(s[3 * n..]);
          if rest.Some? then Some([c.value] + rest.value) else None
  }

  lemma ReadEscapeOf(b: Byte, rest: string)
    ensures ReadEscape(Escape(b) + rest) == Some(b)
  {
    var e := Escape(b) + rest;
    assert e[1] == HexDigit(b / 16) && e[2] == HexDigit(b % 16);
  }

  /** The bytes of a character's escapes, as `ReadCodePoint` finds them. */
  lemma {:induction false} EscapesAt(bs: seq<Byte>, rest: string, i: nat)
    requires i < |bs|
    ensures |EscapeAll(bs) + rest| >= 3 * i + 3
    ensures ReadEscape((EscapeAll(bs) + rest)[3 * i..]) == Some(bs[i])
    decreases i
  {
    if i == 0 {
      assert EscapeAll(bs) + rest == Escape(bs[0]) + (EscapeAll(bs[1..]) + rest);
      ReadEscapeOf(bs[0], EscapeAll(bs[1..]) + rest);
    } else {
      var tail := EscapeAll(bs[1..]) + rest;
      assert EscapeAll(bs) + rest == Escape(bs[0]) + tail;
      EscapesAt(bs[1..], rest, i - 1);
      assert (EscapeAll(bs) + rest)[3 * i..] == tail[3 * (i - 1)..];
    }
  }

  /** The escapes of a character's UTF-8 bytes sit at the start of `e`. */
  predicate EscapesOf(c: char, e: string)
  {
    var bs := Utf8(c);
    && |e| >= 3 * |bs|
    && ReadEscape(e) == Some(bs[0])
    && (|bs| >= 2 ==> ReadEscape(e[3..]) == Some(bs[1]))
    && (|bs| >= 3 ==> ReadEscape(e[6..]) == Some(bs[2]))
    && (|bs| >= 4 ==> ReadEscape(e[9..]) == Some(bs[3]))
  }

  /** The low six bits of a number and the rest. */
  lemma SplitSixBits(n: nat)
    ensures n == (n / 64) * 64 + n % 64
    ensures (n / 64) / 64 == n / 4096
    ensures (n / 4096) / 64 == n / 262144
  {
  }

  lemma ReadOneByte(c: char, e: string)
    requires c as int < 0x80 && EscapesOf(c, e)
    ensures SequenceLength(Utf8(c)[0]) == 1 && ReadCodePoint(e, 1) == Some(c)
  {
  }

  lemma ReadTwoBytes(c: char, e: string)
    requires 0x80 <= c as int < 0x800 && EscapesOf(c, e)
    ensures SequenceLength(Utf8(c)[0]) == 2 && ReadCodePoint(e, 2) == Some(c)
  {
    var cp := c as int;
    assert cp == (cp / 64) * 64 + cp % 64;
  }

  lemma ReadThreeBytes(c: char, e: string)
    requires 0x800 <= c as int < 0x10000 && EscapesOf(c, e)
    ensures SequenceLength(Utf8(c)[0]) == 3 && ReadCodePoint(e, 3) == Some(c)
  {
    var cp := c as int;
    SplitSixBits(cp);
    SplitSixBits(cp / 64);
    var bs := Utf8(c);
    assert bs[0] - 0xE0 == cp / 4096 && bs[1] - 0x80 == (cp / 64) % 64 && bs[2] - 0x80 == cp % 64;
  }

  lemma ReadFourBytes(c: char, e: string)
    requires 0x10000 <= c as int && EscapesOf(c, e)
    ensures SequenceLength(Utf8(c)[0]) == 4 && ReadCodePoint(e, 4) == Some(c)
  {
    var cp := c as int;
    SplitSixBits(cp);
    SplitSixBits(cp / 64);
    SplitSixBits(cp / 4096);
    var bs := Utf8(c);
    assert bs[0] - 0xF0 == cp / 262144 && bs[1] - 0x80 == (cp / 4096) % 64;
    assert bs[2] - 0x80 == (cp / 64) % 64 && bs[3] - 0x80 == cp % 64;
  }

  /** Decoding an escaped character recovers it and continues after its escapes. */
  lemma DecodeEscapedChar(c: char, rest: string)
    requires !Unreserved(c)
    ensures var e := EscapeAll(Utf8(c)) + rest;
            && |e| >= 3 * |Utf8(c)|
            && e[0] == '%'
            && ReadEscape(e).Some?
            && SequenceLength(ReadEscape(e).value) == |Utf8(c)|
            && ReadCodePoint(e, |Utf8(c)|) == Some(c)
            && e[3 * |Utf8(c)|..] == rest
  {
    var bs := Utf8(c);
    var e := EscapeAll(bs) + rest;
    var cp := c as int;
    EscapesAt(bs, rest, 0);
    assert e[0] == '%' by {
      assert EscapeAll(bs) + rest == Escape(bs[0]) + (EscapeAll(bs[1..]) + rest);
    }
    if |bs| >= 2 { EscapesAt(bs, rest, 1); }
    if |bs| >= 3 { EscapesAt(bs, rest, 2); }
    if |bs| >= 4 { EscapesAt(bs, rest, 3); }
    assert EscapesOf(c, e);
    assert e[..3 * |bs|] == EscapeAll(bs);
    if cp < 0x80 {
      ReadOneByte(c, e);
    } else if cp < 0x800 {
      ReadTwoBytes(c, e);
    } else if cp < 0x10000 {
      ReadThreeBytes(c, e);
    } else {
      ReadFourBytes(c, e);
    }
  }

  /** Decoding one encoded character, then anything. */
  lemma DecodeEncodeChar(c: char, rest: string)
    ensures Decode(EncodeChar(c) + rest) ==
            (if Decode(rest).Some? then Some([c] + Decode(rest).value) else None)
  {
    var e := EncodeChar(c) + rest;
    if Unreserved(c) {
      assert e[0] == c && e[1..] == rest;
    } else {
      DecodeEscapedChar(c, rest);
    }
  }

  /** Decoding undoes encoding. */
  lemma {:induction false} DecodeEncode(s: string)
    ensures Decode(Encode(s)) == Some(s)
    decreases |s|
  {
    if s != [] {
      DecodeEncode(s[1..]);
      assert Encode(s) == EncodeChar(s[0]) + Encode(s[1..]);
      DecodeEncodeChar(s[0], Encode(s[1..]));
      assert [s[0]] + s[1..] == s;
    }
  }

  /** Encoded text uses only unreserved characters, `%` and hex digits. */
  predicate EncodedChar(c: char)
  {
    Unreserved(c) || c == '%'
  }

  lemma {:induction false} EscapeAllChars(bs: seq<Byte>)
    ensures forall i :: 0 <= i < |EscapeAll(bs)| ==> EncodedChar(EscapeAll(bs)[i])
    decreases |bs|
  {
    if bs != [] {
      EscapeAllChars(bs[1..]);
      var e := EscapeAll(bs);
      assert e == Escape(bs[0]) + EscapeAll(bs[1..]);
      forall i | 0 <= i < |e|
        ensures EncodedChar(e[i])
      {
        if i >= 3 {
          assert e[i] == EscapeAll(bs[1..])[i - 3];
        }
      }
    }
  }

  lemma {:induction false} EncodeChars(s: string)
    ensures forall i :: 0 <= i < |Encode(s)| ==> EncodedChar(Encode(s)[i])
    decreases |s|
  {
    if s != [] {
      EncodeChars(s[1..]);
      EscapeAllChars(Utf8(s[0]));
      var e := Encode(s);
      var head := EncodeChar(s[0]);
      assert e == head + Encode(s[1..]);
      forall i | 0 <= i < |e|
        ensures EncodedChar(e[i])
      {
        if i >= |head| {
          assert e[i] == Encode(s[1..])[i - |head|];
        }
      }
    }
  }
}
