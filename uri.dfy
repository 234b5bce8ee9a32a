/**
 * JavaScript's `encodeURI` and the percent-decoding that undoes it.
 *
 * `encodeURI` keeps letters, digits, the marks - _ . ! ~ * ' ( ), the
 * reserved characters ; / ? : @ & = + $ , and `#`; every other character is
 * written as the UTF-8 bytes of its code point, each as `%` and two
 * upper-case hexadecimal digits.  Characters are Unicode scalar values, so
 * the lone surrogates on which `encodeURI` throws do not arise.
 */
module Uri {

  /** The characters `encodeURI` leaves as they are. */
  predicate Unescaped(c: char)
  {
    ('A' <= c <= 'Z') || ('a' <= c <= 'z') || ('0' <= c <= '9') || c in Marks
  }

  /** The marks and reserved characters `encodeURI` leaves as they are. */
  const Marks: set<char> := {'-', '_', '.', '!', '~', '*', '\'', '(', ')', ';', '/', '?', ':', '@', '&', '=', '+', '$', ',', '#'}

  /** A byte value. */
  type Byte = b: int | 0 <= b < 256

  function HexDigit(d: int): char
    requires 0 <= d < 16
  {
    "0123456789ABCDEF"[d]
  }

  /** The value of a hexadecimal digit in either case, or -1. */
  function HexValue(c: char): (v: int)
    ensures -1 <= v < 16
  {
    if '0' <= c <= '9' then c as int - '0' as int
    else if 'A' <= c <= 'F' then c as int - 'A' as int + 10
    else if 'a' <= c <= 'f' then c as int - 'a' as int + 10
    else -1
  }

  /** `%XY` for one byte. */
  function PercentByte(b: Byte): string
  {
    ['%', HexDigit(b / 16), HexDigit(b % 16)]
  }

  /** Each element encoded on its own, the pieces concatenated in order. */
  function EncodeEach<T>(xs: seq<T>, f: T -> string): string
    decreases |xs|
  {
    if xs == [] then "" else f(xs[0]) + EncodeEach(xs[1..], f)
  }

  function PercentBytes(bs: seq<Byte>): string
  {
    EncodeEach(bs, PercentByte)
  }

  /** The UTF-8 encoding of one code point. */
  function Utf8(c: char): (bytes: seq<Byte>)
    ensures 1 <= |bytes| <= 4
  {
    var n := c as int;
    if n < 0x80 then [n]
    else if n < 0x800 then [0xC0 + n / 64, 0x80 + n % 64]
    else if n < 0x10000 then [0xE0 + n / 4096, 0x80 + (n / 64) % 64, 0x80 + n % 64]
    else [0xF0 + n / 262144, 0x80 + (n / 4096) % 64, 0x80 + (n / 64) % 64, 0x80 + n % 64]
  }

  function EncodeChar(c: char): string
  {
    if Unescaped(c) then [c] else PercentBytes(Utf8(c))
  }

  /** `encodeURI(s)`: every character it emits is one it would itself keep, or `%`. */
  function EncodeUri(s: string): (r: string)
    ensures forall i :: 0 <= i < |r| ==> Unescaped(r[i]) || r[i] == '%'
  {
    EncodeCharsAlphabet();
    EncodeEachAlphabet(s, EncodeChar, c => Unescaped(c) || c == '%');
    EncodeEach(s, EncodeChar)
  }

  /** The UTF-8 bytes of a whole string. */
  function Utf8Of(s: string): seq<int>
    decreases |s|
  {
    if s == [] then [] else Utf8(s[0]) + Utf8Of(s[1..])
  }

  // ---------------------------------------------------------------- decoding

  /** First decoding stage: each well-formed `%XY` becomes its byte, any other character its code. */
  function PercentDecodeBytes(s: string): seq<int>
    decreases |s|
  {
    if s == [] then []
    else if s[0] == '%' && |s| >= 3 && HexValue(s[1]) >= 0 && HexValue(s[2]) >= 0 then
      [HexValue(s[1]) * 16 + HexValue(s[2])] + PercentDecodeBytes(s[3..])
    else [s[0] as int] + PercentDecodeBytes(s[1..])
  }

  /** The length of the UTF-8 sequence a lead byte announces. */
  function Utf8Len(b: int): nat
  {
    if b < 0x80 then 1 else if b < 0xE0 then 2 else if b < 0xF0 then 3 else 4
  }

  /** The code point a UTF-8 sequence of one to four bytes spells. */
  function Utf8Value(chunk: seq<int>): int
  {
    if |chunk| == 0 then 0
    else if |chunk| == 1 then chunk[0]
    else if |chunk| == 2 then (chunk[0] - 0xC0) * 64 + (chunk[1] - 0x80)
    else if |chunk| == 3 then (chunk[0] - 0xE0) * 4096 + (chunk[1] - 0x80) * 64 + (chunk[2] - 0x80)
    else (chunk[0] - 0xF0) * 262144 + (chunk[1] - 0x80) * 4096 + (chunk[2] - 0x80) * 64 + (chunk[3] - 0x80)
  }

  /** A code point as a character; anything that is not a scalar value becomes U+FFFD. */
  function ToChar(n: int): char
  {
    if 0 <= n < 0xD800 || 0xE000 <= n < 0x110000 then n as char else '�'
  }

  /** Second decoding stage: UTF-8 bytes to characters. */
  function Utf8Decode(bs: seq<int>): string
    decreases |bs|
  {
    if bs == [] then []
    else
      var k := if Utf8Len(bs[0]) <= |bs| then Utf8Len(bs[0]) else |bs|;
      [ToChar(Utf8Value(bs[..k]))] + Utf8Decode(bs[k..])
  }

  /** Percent-decoding (what `decodeURIComponent` does on well-formed input). */
  function PercentDecode(s: string): string
  {
    Utf8Decode(PercentDecodeBytes(s))
  }

  // ------------------------------------------------------------- properties

  lemma HexRoundTrip(d: int)
    requires 0 <= d < 16
    ensures HexValue(HexDigit(d)) == d
  {
    var digits := "0123456789ABCDEF";
    assert digits[0] == '0' && digits[1] == '1' && digits[2] == '2' && digits[3] == '3';
    assert digits[4] == '4' && digits[5] == '5' && digits[6] == '6' && digits[7] == '7';
    assert digits[8] == '8' && digits[9] == '9' && digits[10] == 'A' && digits[11] == 'B';
    assert digits[12] == 'C' && digits[13] == 'D' && digits[14] == 'E' && digits[15] == 'F';
  }

  lemma PercentByteDecodes(b: Byte, rest: string)
    ensures PercentDecodeBytes(PercentByte(b) + rest) == [b] + PercentDecodeBytes(rest)
  {
    HexRoundTrip(b / 16);
    HexRoundTrip(b % 16);
    var s := PercentByte(b) + rest;
    assert s[0] == '%' && s[1] == HexDigit(b / 16) && s[2] == HexDigit(b % 16);
    assert s[3..] == rest;
  }

  lemma {:induction false} PercentBytesDecode(bs: seq<Byte>, rest: string)
    ensures PercentDecodeBytes(PercentBytes(bs) + rest) == bs + PercentDecodeBytes(rest)
    decreases |bs|
  {
    if bs != [] {
      PercentBytesCons(bs, rest);
      PercentByteDecodes(bs[0], PercentBytes(bs[1..]) + rest);
      PercentBytesDecode(bs[1..], rest);
      assert bs == [bs[0]] + bs[1..];
    } else {
      assert PercentBytes(bs) + rest == rest;
    }
  }

  lemma PercentBytesCons(bs: seq<Byte>, rest: string)
    requires bs != []
    ensures PercentBytes(bs) + rest == PercentByte(bs[0]) + (PercentBytes(bs[1..]) + rest)
  {
    var head, tail := PercentByte(bs[0]), PercentBytes(bs[1..]);
    assert PercentBytes(bs) == head + tail;
    assert (head + tail) + rest == head + (tail + rest);
  }

  /** Percent-decoding one encoded character yields its UTF-8 bytes. */
  lemma EncodeCharDecodes(c: char, rest: string)
    ensures PercentDecodeBytes(EncodeChar(c) + rest) == Utf8(c) + PercentDecodeBytes(rest)
  {
    if Unescaped(c) {
      assert (EncodeChar(c) + rest)[1..] == rest;
    } else {
      PercentBytesDecode(Utf8(c), rest);
    }
  }

  lemma {:induction false} EncodeUriBytes(s: string)
    ensures PercentDecodeBytes(EncodeUri(s)) == Utf8Of(s)
    decreases |s|
  {
    if s != [] {
      EncodeCharDecodes(s[0], EncodeUri(s[1..]));
      EncodeUriBytes(s[1..]);
    }
  }

  lemma DivSplit(n: int)
    requires 0 <= n
    ensures (n / 64) / 64 == n / 4096 && (n / 64) % 64 == (n / 64) - 64 * (n / 4096)
    ensures (n / 4096) / 64 == n / 262144 && (n / 4096) % 64 == (n / 4096) - 64 * (n / 262144)
  {
    var q1, q2, q3 := n / 64, n / 4096, n / 262144;
    assert n == 64 * q1 + n % 64;
    assert q1 / 64 == q2 by {
      assert n == 4096 * (q1 / 64) + 64 * (q1 % 64) + n % 64;
    }
    assert q2 / 64 == q3 by {
      assert n == 4096 * q2 + n % 4096;
      assert n == 262144 * (q2 / 64) + 4096 * (q2 % 64) + n % 4096;
    }
  }

  /** Decoding the UTF-8 bytes of one character gives the character back. */
  lemma Utf8CharDecodes(c: char, rest: seq<int>)
    ensures Utf8Decode(Utf8(c) + rest) == [c] + Utf8Decode(rest)
  {
    var bytes := Utf8(c);
    var n := c as int;
    DivSplit(n);
    assert Utf8Len(bytes[0]) == |bytes|;
    assert Utf8Value(bytes) == n;
    assert ToChar(n) == c;
    assert (bytes + rest)[..|bytes|] == bytes;
    assert (bytes + rest)[|bytes|..] == rest;
  }

  lemma {:induction false} Utf8OfDecodes(s: string)
    ensures Utf8Decode(Utf8Of(s)) == s
    decreases |s|
  {
    if s != [] {
      Utf8CharDecodes(s[0], Utf8Of(s[1..]));
      Utf8OfDecodes(s[1..]);
      assert s == [s[0]] + s[1..];
    }
  }

  /** Percent-decoding undoes `encodeURI`: nothing is lost or changed. */
  lemma EncodeUriRoundTrip(s: string)
    ensures PercentDecode(EncodeUri(s)) == s
  {
    EncodeUriBytes(s);
    Utf8OfDecodes(s);
  }

  /** Encoding works element by element, so it distributes over concatenation. */
  lemma {:induction false} EncodeEachAppend<T>(xs: seq<T>, ys: seq<T>, f: T -> string)
    ensures EncodeEach(xs + ys, f) == EncodeEach(xs, f) + EncodeEach(ys, f)
    decreases |xs|
  {
    if xs == [] {
      assert xs + ys == ys;
    } else {
      assert (xs + ys)[0] == xs[0] && (xs + ys)[1..] == xs[1..] + ys;
      EncodeEachAppend(xs[1..], ys, f);
    }
  }

  /** `encodeURI` works character by character, so it distributes over concatenation. */
  lemma EncodeUriAppend(a: string, b: string)
    ensures EncodeUri(a + b) == EncodeUri(a) + EncodeUri(b)
  {
    EncodeEachAppend(a, b, EncodeChar);
  }

  /** A string made only of characters `encodeURI` keeps is left unchanged. */
  lemma {:induction false} EncodeUriKeepsSafe(s: string)
    requires forall i :: 0 <= i < |s| ==> Unescaped(s[i])
    ensures EncodeUri(s) == s
    decreases |s|
  {
    if s != [] {
      EncodeUriKeepsSafe(s[1..]);
      assert s == [s[0]] + s[1..];
    }
  }

  /** If every piece uses only characters in `ok`, so does their concatenation. */
  lemma {:induction false} EncodeEachAlphabet<T>(xs: seq<T>, f: T -> string, ok: char -> bool)
    requires forall x, i :: 0 <= i < |f(x)| ==> ok(f(x)[i])
    ensures forall i :: 0 <= i < |EncodeEach(xs, f)| ==> ok(EncodeEach(xs, f)[i])
    decreases |xs|
  {
    if xs != [] {
      EncodeEachAlphabet(xs[1..], f, ok);
      var head, tail := f(xs[0]), EncodeEach(xs[1..], f);
      forall i | 0 <= i < |head + tail| ensures ok((head + tail)[i]) {
        if i >= |head| {
          assert (head + tail)[i] == tail[i - |head|];
        }
      }
    }
  }

  /** No character's encoding uses anything but unescaped characters and `%`. */
  lemma EncodeCharsAlphabet()
    ensures forall c: char, i :: 0 <= i < |EncodeChar(c)| ==> Unescaped(EncodeChar(c)[i]) || EncodeChar(c)[i] == '%'
  {
    forall c: char, i | 0 <= i < |EncodeChar(c)| ensures Unescaped(EncodeChar(c)[i]) || EncodeChar(c)[i] == '%' {
      EncodeCharAlphabet(c);
    }
  }

  lemma EncodeCharAlphabet(c: char)
    ensures forall i :: 0 <= i < |EncodeChar(c)| ==> Unescaped(EncodeChar(c)[i]) || EncodeChar(c)[i] == '%'
  {
    if !Unescaped(c) {
      PercentBytesAlphabet(Utf8(c));
    }
  }

  lemma PercentBytesAlphabet(bs: seq<Byte>)
    ensures forall i :: 0 <= i < |PercentBytes(bs)| ==> Unescaped(PercentBytes(bs)[i]) || PercentBytes(bs)[i] == '%'
  {
    forall b: Byte, i | 0 <= i < |PercentByte(b)| ensures Unescaped(PercentByte(b)[i]) || PercentByte(b)[i] == '%' {
      HexDigitUnescaped(b / 16);
      HexDigitUnescaped(b % 16);
    }
    EncodeEachAlphabet(bs, PercentByte, c => Unescaped(c) || c == '%');
  }

  lemma HexDigitUnescaped(d: int)
    requires 0 <= d < 16
    ensures Unescaped(HexDigit(d))
  {
    HexRoundTrip(d);
  }

  /** The opening brace of the Teams context becomes `%7B`. */
  lemma EncodeUriBrace()
    ensures EncodeUri("{") == "%7B"
  {
    EncodeAsciiEscaped('{');
    assert HexDigit(7) == '7' && HexDigit(11) == 'B';
  }

  /** A one-element sequence encodes as its element. */
  lemma EncodeEachSingle<T>(x: T, f: T -> string)
    ensures EncodeEach([x], f) == f(x)
  {
    assert [x][1..] == [];
  }

  /** An escaped ASCII character becomes one percent-escape of its code. */
  lemma EncodeAsciiEscaped(c: char)
    requires c < 0x80 as char && !Unescaped(c)
    ensures EncodeUri([c]) == ['%', HexDigit(c as int / 16), HexDigit(c as int % 16)]
  {
    var b: Byte := c as int;
    assert Utf8(c) == [b];
    EncodeEachSingle(c, EncodeChar);
    EncodeEachSingle(b, PercentByte);
  }
}
