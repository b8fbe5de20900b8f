/**
 What the splitter takes for well-formed: exactly the byte strings that encode Unicode scalar values, as section 3 of
 RFC 3629 lays the bits out.
 */
module Utf8 {
  import opened Options
  import opened Chunker

  /** A code point that is no surrogate. */
  predicate Scalar(c: bv32) { c <= 0x10FFFF && !(0xD800 <= c <= 0xDFFF) }

  /** The continuation byte with the six bits of `c` from bit `shift` on. */
  function TailByte(c: bv32, shift: bv5): bv8 { 0x80 | ((c >> shift) & 0x3F) as bv8 }

  function Encoding(c: bv32): (s: Bytes)
    requires Scalar(c)
    ensures 1 <= |s| <= 4
  {
    if c <= 0x7F then [c as bv8]
    else if c <= 0x7FF then [0xC0 | (c >> 6) as bv8, TailByte(c, 0)]
    else if c <= 0xFFFF then [0xE0 | (c >> 12) as bv8, TailByte(c, 6), TailByte(c, 0)]
    else [0xF0 | (c >> 18) as bv8, TailByte(c, 12), TailByte(c, 6), TailByte(c, 0)]
  }

  /** The splitter sees a scalar's encoding as one character, whatever follows. */
  lemma EncodingIsCharacter(c: bv32, rest: Bytes)
    requires Scalar(c)
    ensures CharLength(Encoding(c) + rest) == |Encoding(c)|
  {
  }

  /** The low six bits, which are what a continuation byte carries. */
  function Low(b: bv8): bv32 { (b & 0x3F) as bv32 }

  lemma TwoBytes(a: bv8, b: bv8) returns (c: bv32)
    requires Within(a, 0xC2, 0xDF) && Tail(b)
    ensures 0x7F < c <= 0x7FF && 0xC0 | (c >> 6) as bv8 == a && TailByte(c, 0) == b
  {
    c := ((a & 0x1F) as bv32 << 6) | Low(b);
  }

  lemma ThreeBytes(a: bv8, b: bv8, d: bv8) returns (c: bv32)
    requires Within(a, 0xE0, 0xEF) && Tail(b) && Tail(d)
    requires (a == 0xE0 ==> b >= 0xA0) && (a == 0xED ==> b <= 0x9F)
    ensures 0x7FF < c <= 0xFFFF && !(0xD800 <= c <= 0xDFFF)
    ensures 0xE0 | (c >> 12) as bv8 == a && TailByte(c, 6) == b && TailByte(c, 0) == d
  {
    c := ((a & 0x0F) as bv32 << 12) | (Low(b) << 6) | Low(d);
  }

  lemma FourBytes(a: bv8, b: bv8, d: bv8, e: bv8) returns (c: bv32)
    requires Within(a, 0xF0, 0xF4) && Tail(b) && Tail(d) && Tail(e)
    requires (a == 0xF0 ==> b >= 0x90) && (a == 0xF4 ==> b <= 0x8F)
    ensures 0xFFFF < c <= 0x10FFFF
    ensures 0xF0 | (c >> 18) as bv8 == a && TailByte(c, 12) == b && TailByte(c, 6) == d && TailByte(c, 0) == e
  {
    c := ((a & 0x07) as bv32 << 18) | (Low(b) << 12) | (Low(d) << 6) | Low(e);
  }

  /** Every character the splitter sees encodes a scalar. */
  lemma CharacterIsEncoding(s: Bytes) returns (c: bv32)
    requires CharLength(s) > 0
    ensures Scalar(c) && Encoding(c) == s[..CharLength(s)]
  {
    var n := CharLength(s);
    hide TailByte, Tail, CharLength, Encoding, Scalar;
    if n == 1 {
      c := OneIsEncoding(s);
    } else if n == 2 {
      c := TwoAreEncoding(s);
    } else if n == 3 {
      c := ThreeAreEncoding(s);
    } else {
      c := FourAreEncoding(s);
    }
  }

  lemma OneIsEncoding(s: Bytes) returns (c: bv32)
    requires CharLength(s) == 1
    ensures Scalar(c) && Encoding(c) == s[..1]
  {
    c := s[0] as bv32;
    hide TailByte, Tail;
  }

  lemma TwoAreEncoding(s: Bytes) returns (c: bv32)
    requires CharLength(s) == 2
    ensures Scalar(c) && Encoding(c) == s[..2]
  {
    c := TwoBytes(s[0], s[1]);
    hide TailByte, Tail, CharLength;
  }

  lemma ThreeAreEncoding(s: Bytes) returns (c: bv32)
    requires CharLength(s) == 3
    ensures Scalar(c) && Encoding(c) == s[..3]
  {
    c := ThreeBytes(s[0], s[1], s[2]);
    hide TailByte, Tail, CharLength;
  }

  lemma FourAreEncoding(s: Bytes) returns (c: bv32)
    requires CharLength(s) == 4
    ensures Scalar(c) && Encoding(c) == s[..4]
  {
    c := FourBytes(s[0], s[1], s[2], s[3]);
    hide TailByte, Tail, CharLength;
  }

  ghost predicate Scalars(cs: seq<bv32>) { forall c :: c in cs ==> Scalar(c) }

  /** The UTF-8 form of a text. */
  ghost function EncodingOf(cs: seq<bv32>): Bytes
    requires Scalars(cs)
  {
    if cs == [] then [] else Encoding(cs[0]) + EncodingOf(cs[1..])
  }

  /** The UTF-8 form of any text is valid, and no valid bytes are anything else. */
  lemma {:induction false} TextIsValid(cs: seq<bv32>)
    requires Scalars(cs)
    ensures Valid(EncodingOf(cs))
  {
    if cs != [] {
      var s := EncodingOf(cs);
      TextIsValid(cs[1..]);
      EncodingIsCharacter(cs[0], EncodingOf(cs[1..]));
      assert s[|Encoding(cs[0])|..] == EncodingOf(cs[1..]);
      hide Encoding, CharLength, Scalar;
    }
  }

  lemma {:induction false} ValidIsText(s: Bytes) returns (cs: seq<bv32>)
    requires Valid(s)
    ensures Scalars(cs) && EncodingOf(cs) == s
  {
    if s == [] {
      cs := [];
    } else {
      var c := CharacterIsEncoding(s);
      var rest := ValidIsText(s[CharLength(s)..]);
      hide Encoding, CharLength, Scalar;
      cs := [c] + rest;
      assert cs[1..] == rest;
      assert s == s[..CharLength(s)] + s[CharLength(s)..];
    }
  }
}
