/** String and byte helpers that the server's code takes from the Swift
    standard library: optional values, bytes, ASCII case folding, the
    `Int(String)` parser, decimal rendering of a count, and UTF-8. */
module Strings {

  datatype Option<+T> = None | Some(value: T)

  /** One byte of a buffer (Swift `UInt8`). */
  newtype byte = x: int | 0 <= x < 0x100

  // ---------------------------------------------------------------------
  // ASCII case folding, as NIO uses when it compares header names
  // ---------------------------------------------------------------------

  function LowerChar(c: char): char
  {
    if 'A' <= c <= 'Z' then (c as int + 32) as char else c
  }

  function Lower(s: string): (r: string)
    ensures |r| == |s|
    ensures forall i :: 0 <= i < |s| ==> r[i] == LowerChar(s[i])
  {
    seq(|s|, i requires 0 <= i < |s| => LowerChar(s[i]))
  }

  /** Header-name equality: equal after folding ASCII upper case to lower case. */
  predicate EqualsIgnoreCase(a: string, b: string)
  {
    Lower(a) == Lower(b)
  }

  // ---------------------------------------------------------------------
  // Swift's `Int(String)`: an optional sign, one or more decimal digits,
  // nothing else, and a value that fits a 64-bit signed integer
  // ---------------------------------------------------------------------

  const Int64Min: int := -0x8000_0000_0000_0000
  const Int64Max: int := 0x7FFF_FFFF_FFFF_FFFF

  predicate IsDigit(c: char) { '0' <= c <= '9' }

  predicate AllDigits(s: string)
  {
    forall i :: 0 <= i < |s| ==> IsDigit(s[i])
  }

  /** The value of a string of decimal digits, most significant first. */
  function DigitsValue(s: string): nat
    requires AllDigits(s)
  {
    if s == [] then 0
    else DigitsValue(s[..|s| - 1]) * 10 + (s[|s| - 1] as int - '0' as int)
  }

  /** The text after an optional leading '+' or '-'. */
  function Unsigned(s: string): (d: string)
    ensures |d| <= |s|
  {
    if |s| > 0 && (s[0] == '+' || s[0] == '-') then s[1..] else s
  }

  /** `Int(s)`: an optional sign followed by one or more decimal digits and
      nothing else, whose signed value fits a 64-bit `Int`; None otherwise. */
  function ParseInt(s: string): (r: Option<int>)
    ensures r.Some? ==> Int64Min <= r.value <= Int64Max
    ensures AllDigits(s) && s != [] && DigitsValue(s) <= Int64Max ==> r == Some(DigitsValue(s))
  {
    var digits := Unsigned(s);
    if digits == [] || !AllDigits(digits) then None
    else
      var v: int := if s[0] == '-' then -(DigitsValue(digits) as int) else DigitsValue(digits);
      if Int64Min <= v <= Int64Max then Some(v) else None
  }

  /** When `Int(s)` succeeds, and what it gives: exactly for an optional sign
      followed by one or more digits whose signed value fits Int64, and then
      that signed value. */
  lemma ParseIntSpec(s: string)
    ensures ParseInt(s).Some? <==> Unsigned(s) != [] && AllDigits(Unsigned(s))
                                   && (if s[0] == '-' then DigitsValue(Unsigned(s)) <= -Int64Min
                                       else DigitsValue(Unsigned(s)) <= Int64Max)
    ensures ParseInt(s).Some? ==>
              ParseInt(s).value == if s[0] == '-' then -(DigitsValue(Unsigned(s)) as int) else DigitsValue(Unsigned(s))
  {
  }

  /** Texts `Int(_:)` rejects: no digits, a trailing non-digit, leading
      whitespace and a doubled sign. */
  lemma ParseIntRejects()
    ensures ParseInt("") == None && ParseInt("+") == None && ParseInt("-") == None
    ensures ParseInt("1a") == None && ParseInt(" 5") == None && ParseInt("--5") == None
  {
    ParseIntSpec(""); ParseIntSpec("+"); ParseIntSpec("-");
    ParseIntSpec("1a"); ParseIntSpec(" 5"); ParseIntSpec("--5");
    assert Unsigned("") == [] && Unsigned("+") == [] && Unsigned("-") == [];
    assert Unsigned("1a") == "1a" && !IsDigit("1a"[1]);
    assert Unsigned(" 5") == " 5" && !IsDigit(" 5"[0]);
    assert Unsigned("--5") == "-5" && !IsDigit("-5"[0]);
  }

  /** A signed text gives its signed value, and leading zeros are allowed. */
  lemma ParseIntSigned()
    ensures ParseInt("-5") == Some(-5) && ParseInt("+7") == Some(7) && ParseInt("007") == Some(7)
  {
    ParseIntSpec("-5"); ParseIntSpec("+7"); ParseIntSpec("007");
    assert Unsigned("-5") == "5" && DigitsValue("5") == 5;
    assert Unsigned("+7") == "7" && DigitsValue("7") == 7;
    assert Unsigned("007") == "007" && DigitsValue("007") == 7;
  }

  function DigitChar(d: nat): (c: char)
    requires d < 10
  {
    ('0' as int + d) as char
  }

  /** `String(n)` for a count: decimal digits without leading zeros. */
  function ShowNat(n: nat): (s: string)
    ensures s != [] && AllDigits(s)
    ensures DigitsValue(s) == n
    ensures s[0] == '0' ==> n == 0
  {
    if n < 10 then [DigitChar(n)]
    else
      var prefix := ShowNat(n / 10);
      var s := prefix + [DigitChar(n % 10)];
      assert s[..|s| - 1] == prefix;
      s
  }

  /** Rendering a count and parsing it back gives the count: the
      `content-length` a response carries reads back as its body length. */
  lemma ParseShowNat(n: nat)
    requires n <= Int64Max
    ensures ParseInt(ShowNat(n)) == Some(n)
  {
  }

  /** A rendered magnitude after a '-' parses back to the negative value,
      down to `Int.min`. */
  lemma ParseShowNegative(n: nat)
    requires 0 < n <= -Int64Min
    ensures ParseInt("-" + ShowNat(n)) == Some(-(n as int))
  {
    assert Unsigned("-" + ShowNat(n)) == ShowNat(n);
  }

  // ---------------------------------------------------------------------
  // UTF-8 (`String.utf8`, `ByteBuffer.writeString`)
  // ---------------------------------------------------------------------

  /** Bytes that the UTF-8 encoding uses for one scalar value. */
  function Utf8Width(c: char): nat
  {
    if c as int < 0x80 then 1
    else if c as int < 0x800 then 2
    else if c as int < 0x1_0000 then 3
    else 4
  }

  /** `s.utf8.count`. */
  function Utf8Count(s: string): nat
  {
    if s == [] then 0 else Utf8Width(s[0]) + Utf8Count(s[1..])
  }

  function EncodeChar(c: char): (bs: seq<byte>)
    ensures |bs| == Utf8Width(c)
  {
    var cp := c as int;
    if cp < 0x80 then [cp as byte]
    else if cp < 0x800 then
      [(0xC0 + cp / 0x40) as byte, (0x80 + cp % 0x40) as byte]
    else if cp < 0x1_0000 then
      [(0xE0 + cp / 0x1000) as byte, (0x80 + cp / 0x40 % 0x40) as byte, (0x80 + cp % 0x40) as byte]
    else
      [(0xF0 + cp / 0x4_0000) as byte, (0x80 + cp / 0x1000 % 0x40) as byte,
       (0x80 + cp / 0x40 % 0x40) as byte, (0x80 + cp % 0x40) as byte]
  }

  /** The UTF-8 encoding of a string, scalar by scalar. */
  function Utf8Encode(s: string): (bs: seq<byte>)
  {
    if s == [] then [] else EncodeChar(s[0]) + Utf8Encode(s[1..])
  }

  predicate IsContinuation(b: byte) { 0x80 <= b < 0xC0 }

  /** Decodes the scalar value at the front of `bs`, with the number of bytes
      it takes; None on a malformed, overlong or surrogate sequence. */
  function DecodeChar(bs: seq<byte>): (r: Option<(char, nat)>)
    ensures r.Some? ==> 1 <= r.value.1 <= |bs| && r.value.1 <= 4
  {
    if bs == [] then None
    else
      var b0 := bs[0] as int;
      if b0 < 0x80 then Some((b0 as char, 1))
      else if 0xC0 <= b0 < 0xE0 then
        if |bs| < 2 || !IsContinuation(bs[1]) then None
        else
          var cp := (b0 - 0xC0) * 0x40 + (bs[1] as int - 0x80);
          if cp < 0x80 then None else Some((cp as char, 2))
      else if 0xE0 <= b0 < 0xF0 then
        if |bs| < 3 || !IsContinuation(bs[1]) || !IsContinuation(bs[2]) then None
        else
          var cp := (b0 - 0xE0) * 0x1000 + (bs[1] as int - 0x80) * 0x40 + (bs[2] as int - 0x80);
          if cp < 0x800 || (0xD800 <= cp < 0xE000) then None else Some((cp as char, 3))
      else if 0xF0 <= b0 < 0xF8 then
        if |bs| < 4 || !IsContinuation(bs[1]) || !IsContinuation(bs[2]) || !IsContinuation(bs[3]) then None
        else
          var cp := (b0 - 0xF0) * 0x4_0000 + (bs[1] as int - 0x80) * 0x1000
                    + (bs[2] as int - 0x80) * 0x40 + (bs[3] as int - 0x80);
          if cp < 0x1_0000 || cp >= 0x11_0000 then None else Some((cp as char, 4))
      else None
  }

  function Utf8Decode(bs: seq<byte>): Option<string>
    decreases |bs|
  {
    if bs == [] then Some([])
    else match DecodeChar(bs)
      case None => None
      case Some((c, n)) =>
        match Utf8Decode(bs[n..])
        case None => None
        case Some(rest) => Some([c] + rest)
  }

  /** The decoder reads back exactly the scalar the encoder wrote, whatever follows it. */
  lemma DecodeEncodeChar(c: char, rest: seq<byte>)
    ensures DecodeChar(EncodeChar(c) + rest) == Some((c, Utf8Width(c)))
  {
    var cp := c as int;
    if cp < 0x80 {
    } else if cp < 0x800 {
      DecodeTwo(c, rest);
    } else if cp < 0x1_0000 {
      DecodeThree(c, rest);
    } else {
      DecodeFour(c, rest);
    }
  }

  lemma DecodeTwo(c: char, rest: seq<byte>)
    requires 0x80 <= c as int < 0x800
    ensures DecodeChar(EncodeChar(c) + rest) == Some((c, 2))
  {
    var cp := c as int;
    var bs := EncodeChar(c) + rest;
    var hi, lo := cp / 0x40, cp % 0x40;
    assert cp == hi * 0x40 + lo;
    assert bs[0] as int == 0xC0 + hi && bs[1] as int == 0x80 + lo;
  }

  lemma DecodeThree(c: char, rest: seq<byte>)
    requires 0x800 <= c as int < 0x1_0000
    ensures DecodeChar(EncodeChar(c) + rest) == Some((c, 3))
  {
    var cp := c as int;
    var bs := EncodeChar(c) + rest;
    var q, lo := cp / 0x40, cp % 0x40;
    var hi, mid := q / 0x40, q % 0x40;
    assert cp == q * 0x40 + lo;
    assert q == hi * 0x40 + mid;
    assert hi == cp / 0x1000;
    assert bs[0] as int == 0xE0 + hi && bs[1] as int == 0x80 + mid && bs[2] as int == 0x80 + lo;
  }

  lemma DecodeFour(c: char, rest: seq<byte>)
    requires 0x1_0000 <= c as int
    ensures DecodeChar(EncodeChar(c) + rest) == Some((c, 4))
  {
    var cp := c as int;
    var bs := EncodeChar(c) + rest;
    var q1, b3 := cp / 0x40, cp % 0x40;
    var q2, b2 := q1 / 0x40, q1 % 0x40;
    var b0, b1 := q2 / 0x40, q2 % 0x40;
    assert cp == q1 * 0x40 + b3;
    assert q1 == q2 * 0x40 + b2;
    assert q2 == b0 * 0x40 + b1;
    assert q2 == cp / 0x1000 && b0 == cp / 0x4_0000;
    assert bs[0] as int == 0xF0 + b0 && bs[1] as int == 0x80 + b1;
    assert bs[2] as int == 0x80 + b2 && bs[3] as int == 0x80 + b3;
  }

  /** Round trip: decoding the UTF-8 encoding of any string gives the string back,
      and the encoding is `utf8.count` bytes long. */
  lemma {:induction false} Utf8RoundTrip(s: string)
    ensures Utf8Decode(Utf8Encode(s)) == Some(s)
    ensures |Utf8Encode(s)| == Utf8Count(s)
  {
    if s != [] {
      var head := EncodeChar(s[0]);
      var tail := Utf8Encode(s[1..]);
      DecodeEncodeChar(s[0], tail);
      assert (head + tail)[|head|..] == tail;
      Utf8RoundTrip(s[1..]);
      assert Utf8Encode(s) == head + tail;
      assert [s[0]] + s[1..] == s;
    }
  }

  predicate IsAscii(s: string)
  {
    forall i :: 0 <= i < |s| ==> s[i] as int < 0x80
  }

  /** On ASCII text the UTF-8 encoding is one byte per character, holding its code. */
  lemma {:induction false} Utf8Ascii(s: string)
    requires IsAscii(s)
    ensures |Utf8Encode(s)| == |s|
    ensures forall i :: 0 <= i < |s| ==> Utf8Encode(s)[i] as int == s[i] as int
  {
    if s != [] {
      Utf8Ascii(s[1..]);
    }
  }
}
