/** UTF-8 as RFC 3629 defines it, in the strict form `String::from_utf8` accepts. */
module Utf8 {
  import opened Seqs

  type byte = x: int | 0 <= x < 256

  predicate Continuation(b: byte) {
    0x80 <= b < 0xC0
  }

  /** The payload of a byte whose marker bits are `marker`. */
  function Bits(b: int, marker: int): int {
    b - marker
  }

  predicate Scalar(n: int) {
    0 <= n < 0xD800 || 0xE000 <= n < 0x11_0000
  }

  function EncodeScalar(n: int): (bs: seq<byte>)
    requires Scalar(n)
    ensures 1 <= |bs| <= 4
  {
    if n < 0x80 then [n]
    else if n < 0x800 then [0xC0 + n / 64, 0x80 + n % 64]
    else if n < 0x1_0000 then [0xE0 + n / 4096, 0x80 + n / 64 % 64, 0x80 + n % 64]
    else [0xF0 + n / 262144, 0x80 + n / 4096 % 64, 0x80 + n / 64 % 64, 0x80 + n % 64]
  }

  function Encode(s: string): seq<byte> {
    if s == [] then [] else EncodeScalar(s[0] as int) + Encode(s[1..])
  }

  /** The first scalar value of `bs` and its length, unless the bytes are malformed,
      overlong, a surrogate, or out of range. */
  function DecodeScalar(bs: seq<byte>): (r: Option<(int, nat)>)
    ensures r.Some? ==> Scalar(r.value.0) && 1 <= r.value.1 <= |bs|
  {
    if |bs| == 0 then None
    else if bs[0] < 0x80 then Some((bs[0], 1))
    else if 0xC0 <= bs[0] < 0xE0 && |bs| >= 2 && Continuation(bs[1]) then
      var n := Bits(bs[0], 0xC0) * 64 + Bits(bs[1], 0x80);
      if 0x80 <= n then Some((n, 2)) else None
    else if 0xE0 <= bs[0] < 0xF0 && |bs| >= 3 && Continuation(bs[1]) && Continuation(bs[2]) then
      var n := Bits(bs[0], 0xE0) * 4096 + Bits(bs[1], 0x80) * 64 + Bits(bs[2], 0x80);
      if 0x800 <= n && Scalar(n) then Some((n, 3)) else None
    else if 0xF0 <= bs[0] < 0xF8 && |bs| >= 4 && Continuation(bs[1]) && Continuation(bs[2]) && Continuation(bs[3]) then
      var n := Bits(bs[0], 0xF0) * 262144 + Bits(bs[1], 0x80) * 4096 + Bits(bs[2], 0x80) * 64 + Bits(bs[3], 0x80);
      if 0x1_0000 <= n && Scalar(n) then Some((n, 4)) else None
    else None
  }

  function Decode(bs: seq<byte>): Option<string> {
    if bs == [] then Some([])
    else
      var first := DecodeScalar(bs);
      if first.None? then None
      else
        var rest := Decode(bs[first.value.1..]);
        if rest.None? then None else Some([first.value.0 as char] + rest.value)
  }

  lemma DivByParts(n: nat)
    ensures n / 64 / 64 == n / 4096 && n == n / 64 * 64 + n % 64
  {
    var a, r := n / 64, n % 64;
    var q, t := a / 64, a % 64;
    assert n == 4096 * q + (64 * t + r) && 0 <= 64 * t + r < 4096;
  }

  lemma DivByMoreParts(n: nat)
    ensures n / 4096 / 64 == n / 262144
  {
    var a, r := n / 4096, n % 4096;
    var q, t := a / 64, a % 64;
    assert n == 262144 * q + (4096 * t + r) && 0 <= 4096 * t + r < 262144;
  }

  /** A number is the sum of its base-64 digits. */
  lemma Digits(n: nat)
    ensures n == n / 64 * 64 + n % 64
    ensures n == n / 4096 * 4096 + n / 64 % 64 * 64 + n % 64
    ensures n == n / 262144 * 262144 + n / 4096 % 64 * 4096 + n / 64 % 64 * 64 + n % 64
  {
    DivByParts(n);
    DivByMoreParts(n);
    var a, b := n / 64, n / 4096;
    assert a == a / 64 * 64 + a % 64;
    assert b == b / 64 * 64 + b % 64;
  }

  lemma ScalarRoundTrip(n: int, rest: seq<byte>)
    requires Scalar(n)
    ensures DecodeScalar(EncodeScalar(n) + rest) == Some((n, |EncodeScalar(n)|))
  {
    var code := EncodeScalar(n);
    Digits(n);
    if |code| <= 2 {
      assert forall i | 0 <= i < |code| :: (code + rest)[i] == code[i];
    } else {
      WideRoundTrip(n, rest);
    }
  }

  lemma WideRoundTrip(n: int, rest: seq<byte>)
    requires Scalar(n) && 0x800 <= n
    ensures DecodeScalar(EncodeScalar(n) + rest) == Some((n, |EncodeScalar(n)|))
  {
    Digits(n);
    var code := EncodeScalar(n);
    var bs := code + rest;
    assert bs[0] == code[0] && bs[1] == code[1] && bs[2] == code[2];
    if |code| == 4 {
      assert bs[3] == code[3];
    }
  }

  lemma {:induction false} RoundTrip(s: string)
    ensures Decode(Encode(s)) == Some(s)
  {
    hide DecodeScalar, EncodeScalar;
    if s != [] {
      var n, rest := s[0] as int, Encode(s[1..]);
      ScalarRoundTrip(n, rest);
      assert (EncodeScalar(n) + rest)[|EncodeScalar(n)|..] == rest;
      RoundTrip(s[1..]);
      assert n as char == s[0];
      assert s == [s[0]] + s[1..];
    }
  }

  /** Digits below 64 are what division finds. */
  lemma DigitsFound(a: nat, b: nat, c: nat, d: nat)
    requires b < 64 && c < 64 && d < 64
    ensures (a * 64 + b) / 64 == a && (a * 64 + b) % 64 == b
    ensures var n := a * 4096 + b * 64 + c; n / 4096 == a && n / 64 % 64 == b && n % 64 == c
    ensures var n := a * 262144 + b * 4096 + c * 64 + d;
            n / 262144 == a && n / 4096 % 64 == b && n / 64 % 64 == c && n % 64 == d
  {
    OneDigit(a, b);
    OneDigit(a * 64 + b, c);
    OneDigit((a * 64 + b) * 64 + c, d);
    DivByParts(a * 4096 + b * 64 + c);
    DivByParts(a * 262144 + b * 4096 + c * 64 + d);
    DivByMoreParts(a * 262144 + b * 4096 + c * 64 + d);
  }

  lemma OneDigit(a: nat, b: nat)
    requires b < 64
    ensures (a * 64 + b) / 64 == a && (a * 64 + b) % 64 == b
  {
  }

  lemma TwoBytesAreExact(bs: seq<byte>)
    requires DecodeScalar(bs).Some? && DecodeScalar(bs).value.1 <= 2
    ensures EncodeScalar(DecodeScalar(bs).value.0) == bs[..DecodeScalar(bs).value.1]
  {
    if DecodeScalar(bs).value.1 == 2 {
      OneDigit(bs[0] - 0xC0, bs[1] - 0x80);
    }
  }

  lemma ThreeBytesAreExact(bs: seq<byte>)
    requires DecodeScalar(bs).Some? && DecodeScalar(bs).value.1 == 3
    ensures EncodeScalar(DecodeScalar(bs).value.0) == bs[..3]
  {
    DigitsFound(bs[0] - 0xE0, bs[1] - 0x80, bs[2] - 0x80, 0);
  }

  lemma FourBytesAreExact(bs: seq<byte>)
    requires DecodeScalar(bs).Some? && DecodeScalar(bs).value.1 == 4
    ensures EncodeScalar(DecodeScalar(bs).value.0) == bs[..4]
  {
    DigitsFound(bs[0] - 0xF0, bs[1] - 0x80, bs[2] - 0x80, bs[3] - 0x80);
  }

  lemma AtMostFour(bs: seq<byte>)
    requires DecodeScalar(bs).Some?
    ensures DecodeScalar(bs).value.1 <= 4
  {
  }

  /** Bytes decode to a character only if they are its encoding: the shortest one, and
      no surrogate's. */
  lemma ScalarIsExact(bs: seq<byte>)
    requires DecodeScalar(bs).Some?
    ensures EncodeScalar(DecodeScalar(bs).value.0) == bs[..DecodeScalar(bs).value.1]
  {
    AtMostFour(bs);
    hide DecodeScalar, EncodeScalar;
    match DecodeScalar(bs).value.1
    case 3 => ThreeBytesAreExact(bs);
    case 4 => FourBytesAreExact(bs);
    case _ => TwoBytesAreExact(bs);
  }

  /** The decoder accepts exactly the encodings: what decodes encodes back to the same bytes. */
  lemma {:induction false} DecodeIsExact(bs: seq<byte>)
    requires Decode(bs).Some?
    ensures Encode(Decode(bs).value) == bs
  {
    hide DecodeScalar, EncodeScalar;
    if bs != [] {
      var (n, k) := DecodeScalar(bs).value;
      ScalarIsExact(bs);
      DecodeIsExact(bs[k..]);
      var rest := Decode(bs[k..]).value;
      assert ([n as char] + rest)[1..] == rest && ([n as char] + rest)[0] as int == n;
      assert bs == bs[..k] + bs[k..];
    }
  }

  /** One character of each length. */
  lemma ScalarsLookLike()
    ensures EncodeScalar(0x41) == [0x41] && EncodeScalar(0xE9) == [0xC3, 0xA9]
    ensures EncodeScalar(0x20AC) == [0xE2, 0x82, 0xAC] && EncodeScalar(0x1_F600) == [0xF0, 0x9F, 0x98, 0x80]
  {
  }
}
