/** What text the machine takes: exactly the UTF-8 encodings of Unicode scalar values (section 3 of RFC 3629). */
module Utf8 {
  import opened StateMachine

  predicate Scalar(rune: nat) {
    rune <= 0x10FFFF && !(0xD800 <= rune <= 0xDFFF)
  }

  /** The table of section 3. */
  function Encode(rune: nat): (s: Text)
    requires Scalar(rune)
    ensures 1 <= |s| <= 4
  {
    if rune < 0x80 then [rune]
    else if rune < 0x800 then [0xC0 + rune / 64, 0x80 + rune % 64]
    else if rune < 0x10000 then [0xE0 + rune / 4096, 0x80 + rune / 64 % 64, 0x80 + rune % 64]
    else [0xF0 + rune / 262144, 0x80 + rune / 4096 % 64, 0x80 + rune / 64 % 64, 0x80 + rune % 64]
  }

  predicate Scalars(runes: seq<nat>) {
    forall i :: 0 <= i < |runes| ==> Scalar(runes[i])
  }

  function EncodeAll(runes: seq<nat>): Text
    requires Scalars(runes)
  {
    if runes == [] then [] else Encode(runes[0]) + EncodeAll(runes[1..])
  }

  lemma Digits(high: nat, low: nat)
    requires low < 64
    ensures (high * 64 + low) / 64 == high && (high * 64 + low) % 64 == low
  {
  }

  /** What starts a text, if the machine accepts it, is the encoding of a scalar value. */
  lemma AcceptedIsEncoded(s: Text) returns (rune: nat)
    requires s != [] && LeadingRune(s) > 0
    ensures Scalar(rune) && Encode(rune) == s[..LeadingRune(s)]
  {
    rune := s[0];
    if s[0] >= 0xF0 {
      rune := Packed([s[0] - 0xF0, s[1] - 0x80, s[2] - 0x80, s[3] - 0x80]);
    } else if s[0] >= 0xE0 {
      rune := Packed([s[0] - 0xE0, s[1] - 0x80, s[2] - 0x80]);
    } else if s[0] >= 0x80 {
      rune := Packed([s[0] - 0xC0, s[1] - 0x80]);
    }
  }

  /** The rune with these digits to the base 64. */
  lemma Packed(d: seq<nat>) returns (rune: nat)
    requires 2 <= |d| <= 4 && forall i :: 0 < i < |d| ==> d[i] < 64
    ensures |d| == 2 ==> rune == d[0] * 64 + d[1] && rune / 64 == d[0] && rune % 64 == d[1]
    ensures |d| == 3 ==>
              rune == d[0] * 4096 + d[1] * 64 + d[2] && rune / 4096 == d[0] && rune / 64 % 64 == d[1] && rune % 64 == d[2]
    ensures |d| == 4 ==>
              && rune == d[0] * 262144 + d[1] * 4096 + d[2] * 64 + d[3] && rune / 262144 == d[0]
              && rune / 4096 % 64 == d[1] && rune / 64 % 64 == d[2] && rune % 64 == d[3]
  {
    rune := d[0] * 64 + d[1];
    Digits(d[0], d[1]);
    if |d| >= 3 {
      Digits(rune, d[2]);
      rune := rune * 64 + d[2];
    }
    if |d| == 4 {
      Digits(rune, d[3]);
      rune := rune * 64 + d[3];
    }
  }

  /** The digits of a rune to the base 64. */
  lemma Unpacked(rune: nat)
    ensures rune == rune / 64 * 64 + rune % 64
    ensures rune / 64 == rune / 4096 * 64 + rune / 64 % 64
    ensures rune / 4096 == rune / 262144 * 64 + rune / 4096 % 64
  {
  }

  lemma AcceptsTwo(a: nat, b: nat, rest: Text)
    requires 2 <= a < 32 && b < 64
    ensures LeadingRune([0xC0 + a, 0x80 + b] + rest) == 2
  {
  }

  lemma AcceptsThree(a: nat, b: nat, c: nat, rest: Text)
    requires a < 16 && b < 64 && c < 64 && (a == 0 ==> b >= 32) && (a == 13 ==> b < 32)
    ensures LeadingRune([0xE0 + a, 0x80 + b, 0x80 + c] + rest) == 3
  {
  }

  lemma AcceptsFour(a: nat, b: nat, c: nat, d: nat, rest: Text)
    requires a < 5 && b < 64 && c < 64 && d < 64 && (a == 0 ==> b >= 16) && (a == 4 ==> b < 16)
    ensures LeadingRune([0xF0 + a, 0x80 + b, 0x80 + c, 0x80 + d] + rest) == 4
  {
  }

  lemma EncodedIsAccepted(rune: nat, rest: Text)
    requires Scalar(rune)
    ensures LeadingRune(Encode(rune) + rest) == |Encode(rune)|
  {
    Unpacked(rune);
    if rune >= 0x80 {
      hide LeadingRune;
      if rune < 0x800 {
        AcceptsTwo(rune / 64, rune % 64, rest);
      } else if rune < 0x10000 {
        AcceptsThree(rune / 4096, rune / 64 % 64, rune % 64, rest);
      } else {
        AcceptsFour(rune / 262144, rune / 4096 % 64, rune / 64 % 64, rune % 64, rest);
      }
    }
  }

  lemma {:induction false} EncodedIsValid(runes: seq<nat>)
    requires Scalars(runes)
    ensures ValidString(EncodeAll(runes))
  {
    if runes != [] {
      var first, rest := Encode(runes[0]), EncodeAll(runes[1..]);
      EncodedIsValid(runes[1..]);
      EncodedIsAccepted(runes[0], rest);
      assert (first + rest)[|first|..] == rest;
    }
  }

  lemma {:induction false} ValidIsEncoded(s: Text) returns (runes: seq<nat>)
    requires ValidString(s)
    ensures Scalars(runes) && EncodeAll(runes) == s
    decreases |s|
  {
    runes := [];
    if s != [] {
      var n := LeadingRune(s);
      var first := AcceptedIsEncoded(s);
      var rest := ValidIsEncoded(s[n..]);
      runes := [first] + rest;
      assert runes[1..] == rest && s == s[..n] + s[n..];
    }
  }

  lemma ValidStringIsUtf8(s: Text)
    ensures ValidString(s) <==> exists runes :: Scalars(runes) && EncodeAll(runes) == s
  {
    if ValidString(s) {
      var runes := ValidIsEncoded(s);
    }
    forall runes | Scalars(runes) && EncodeAll(runes) == s ensures ValidString(s) {
      EncodedIsValid(runes);
    }
  }
}
