/** UTF-8 as unicode/utf8 reads and writes it. A character below 256 stands for one byte. */
module Utf8 {

  /** What decoding finds at the front of a text: a rune of so many bytes, or one byte that is not valid UTF-8. */
  datatype Unit = Good(rune: int, size: nat) | Bad(byte: int)

  predicate Bytes(s: string) {
    forall i :: 0 <= i < |s| ==> s[i] as int < 256
  }

  predicate Continues(s: string, i: nat) {
    i < |s| && 0x80 <= s[i] as int <= 0xBF
  }

  function Low(s: string, i: nat): int
    requires i < |s|
  {
    s[i] as int - 0x80
  }

  /** utf8.DecodeRune. */
  function Decode(s: string): (u: Unit)
    requires s != ""
    ensures u.Good? ==> 1 <= u.size <= |s|
  {
    var b := s[0] as int;
    if b < 0x80 then Good(b, 1)
    else if 0xC2 <= b <= 0xDF && Continues(s, 1) then Good((b - 0xC0) * 64 + Low(s, 1), 2)
    else if 0xE0 <= b <= 0xEF && Continues(s, 1) && Continues(s, 2)
            && (b == 0xE0 ==> s[1] as int >= 0xA0) && (b == 0xED ==> s[1] as int <= 0x9F) then
      Good(((b - 0xE0) * 64 + Low(s, 1)) * 64 + Low(s, 2), 3)
    else if 0xF0 <= b <= 0xF4 && Continues(s, 1) && Continues(s, 2) && Continues(s, 3)
            && (b == 0xF0 ==> s[1] as int >= 0x90) && (b == 0xF4 ==> s[1] as int <= 0x8F) then
      Good((((b - 0xF0) * 64 + Low(s, 1)) * 64 + Low(s, 2)) * 64 + Low(s, 3), 4)
    else Bad(b)
  }

  /** A Unicode scalar value. */
  predicate Scalar(r: int) {
    0 <= r <= 0xD7FF || 0xE000 <= r <= 0x10FFFF
  }

  function Byte(n: int): char
    requires 0 <= n < 256
  {
    n as char
  }

  /** utf8.AppendRune. */
  function Encode(r: int): (s: string)
    requires Scalar(r)
    ensures 1 <= |s| <= 4 && Bytes(s)
  {
    if r < 0x80 then [Byte(r)]
    else if r < 0x800 then [Byte(0xC0 + r / 64), Byte(0x80 + r % 64)]
    else if r < 0x10000 then [Byte(0xE0 + r / 64 / 64), Byte(0x80 + r / 64 % 64), Byte(0x80 + r % 64)]
    else [Byte(0xF0 + r / 64 / 64 / 64), Byte(0x80 + r / 64 / 64 % 64), Byte(0x80 + r / 64 % 64), Byte(0x80 + r % 64)]
  }

  lemma Split64(a: int, x: int)
    requires 0 <= x < 64
    ensures (a * 64 + x) / 64 == a && (a * 64 + x) % 64 == x
  {
  }

  /** Whatever decodes is a scalar value, and its bytes are the only encoding of it. */
  lemma DecodeIsEncode(s: string)
    requires s != "" && Decode(s).Good?
    ensures Scalar(Decode(s).rune) && Encode(Decode(s).rune) == s[..Decode(s).size]
  {
    var u := Decode(s);
    var b := s[0] as int;
    if u.size == 2 {
      DecodeIsEncode2(s, b - 0xC0, Low(s, 1));
    } else if u.size == 3 {
      DecodeIsEncode3(s, b - 0xE0, Low(s, 1), Low(s, 2));
    } else if u.size == 4 {
      DecodeIsEncode4(s, b - 0xF0, Low(s, 1), Low(s, 2), Low(s, 3));
    }
  }

  lemma DecodeIsEncode2(s: string, a: int, x: int)
    requires |s| >= 2 && s[0] as int == 0xC0 + a && s[1] as int == 0x80 + x && 2 <= a < 32 && 0 <= x < 64
    ensures Scalar(a * 64 + x) && Encode(a * 64 + x) == s[..2]
  {
    Split64(a, x);
  }

  lemma DecodeIsEncode3(s: string, a: int, x: int, y: int)
    requires |s| >= 3 && s[0] as int == 0xE0 + a && s[1] as int == 0x80 + x && s[2] as int == 0x80 + y
    requires 0 <= a < 16 && 0 <= x < 64 && 0 <= y < 64 && (a == 0 ==> x >= 32) && (a == 13 ==> x < 32)
    ensures Scalar((a * 64 + x) * 64 + y) && Encode((a * 64 + x) * 64 + y) == s[..3]
  {
    Split64(a * 64 + x, y);
    Split64(a, x);
  }

  lemma DecodeIsEncode4(s: string, a: int, x: int, y: int, z: int)
    requires |s| >= 4 && s[0] as int == 0xF0 + a && s[1] as int == 0x80 + x && s[2] as int == 0x80 + y && s[3] as int == 0x80 + z
    requires 0 <= a < 5 && 0 <= x < 64 && 0 <= y < 64 && 0 <= z < 64 && (a == 0 ==> x >= 16) && (a == 4 ==> x < 16)
    ensures Scalar(((a * 64 + x) * 64 + y) * 64 + z) && Encode(((a * 64 + x) * 64 + y) * 64 + z) == s[..4]
  {
    Split64((a * 64 + x) * 64 + y, z);
    Split64(a * 64 + x, y);
    Split64(a, x);
  }

  lemma Halves64(r: int)
    requires r >= 0
    ensures r == r / 64 * 64 + r % 64 && 0 <= r % 64 < 64 && r / 64 >= 0
  {
  }

  /** An encoded rune decodes to itself, whatever follows. */
  lemma EncodeDecodes(r: int, rest: string)
    requires Scalar(r)
    ensures Decode(Encode(r) + rest) == Good(r, |Encode(r)|)
  {
    Halves64(r);
    Halves64(r / 64);
    Halves64(r / 64 / 64);
    if r < 0x80 {
    } else if r < 0x800 {
      DecodesPair(Encode(r) + rest, r / 64, r % 64);
    } else if r < 0x10000 {
      DecodesTriple(Encode(r) + rest, r / 64 / 64, r / 64 % 64, r % 64);
    } else {
      DecodesQuad(Encode(r) + rest, r / 64 / 64 / 64, r / 64 / 64 % 64, r / 64 % 64, r % 64);
    }
  }

  lemma DecodesPair(s: string, a: int, x: int)
    requires |s| >= 2 && s[0] as int == 0xC0 + a && s[1] as int == 0x80 + x && 2 <= a < 32 && 0 <= x < 64
    ensures Decode(s) == Good(a * 64 + x, 2)
  {
  }

  lemma DecodesTriple(s: string, a: int, x: int, y: int)
    requires |s| >= 3 && s[0] as int == 0xE0 + a && s[1] as int == 0x80 + x && s[2] as int == 0x80 + y
    requires 0 <= a < 16 && 0 <= x < 64 && 0 <= y < 64 && (a == 0 ==> x >= 32) && (a == 13 ==> x < 32)
    ensures Decode(s) == Good((a * 64 + x) * 64 + y, 3)
  {
  }

  lemma DecodesQuad(s: string, a: int, x: int, y: int, z: int)
    requires |s| >= 4 && s[0] as int == 0xF0 + a && s[1] as int == 0x80 + x && s[2] as int == 0x80 + y && s[3] as int == 0x80 + z
    requires 0 <= a < 5 && 0 <= x < 64 && 0 <= y < 64 && 0 <= z < 64 && (a == 0 ==> x >= 16) && (a == 4 ==> x < 16)
    ensures Decode(s) == Good(((a * 64 + x) * 64 + y) * 64 + z, 4)
  {
  }

  /** What decodes in full does so whatever follows. */
  lemma DecodeFront(s: string, rest: string)
    requires s != "" && Decode(s).Good?
    ensures Decode(s + rest) == Decode(s)
  {
  }

  function SizeOf(u: Unit): nat {
    if u.Good? then u.size else 1
  }

  /** The text as the escaper walks it. */
  function Units(s: string): seq<Unit>
    decreases |s|
  {
    if s == "" then [] else [Decode(s)] + Units(s[SizeOf(Decode(s))..])
  }

  predicate AllGood(us: seq<Unit>) {
    forall i :: 0 <= i < |us| ==> us[i].Good?
  }

  predicate ValidText(s: string) {
    AllGood(Units(s))
  }

  /** Valid UTF-8 is walked the same whatever follows it. */
  lemma {:induction false} UnitsConcat(a: string, b: string)
    requires ValidText(a)
    ensures Units(a + b) == Units(a) + Units(b)
    decreases |a|
  {
    hide Decode, AllGood;
    if a == "" {
      assert a + b == b;
    } else {
      var u := Decode(a);
      var tail := a[SizeOf(u)..];
      TailGood(u, Units(tail));
      UnitsConcat(tail, b);
      DecodeFront(a, b);
      assert (a + b)[SizeOf(u)..] == tail + b;
      assert [u] + Units(tail) + Units(b) == [u] + (Units(tail) + Units(b));
    }
  }

  lemma TailGood(u: Unit, us: seq<Unit>)
    requires AllGood([u] + us)
    ensures u.Good? && AllGood(us)
  {
    assert ([u] + us)[0] == u;
    assert forall i :: 0 <= i < |us| ==> us[i] == ([u] + us)[i + 1];
  }

  lemma GoodConcat(us: seq<Unit>, vs: seq<Unit>)
    requires AllGood(us) && AllGood(vs)
    ensures AllGood(us + vs)
  {
  }

  lemma ValidConcat(a: string, b: string)
    requires ValidText(a) && ValidText(b)
    ensures ValidText(a + b)
  {
    UnitsConcat(a, b);
    GoodConcat(Units(a), Units(b));
  }

  lemma UnitsOfRune(r: int)
    requires Scalar(r)
    ensures Units(Encode(r)) == [Good(r, |Encode(r)|)] && ValidText(Encode(r))
  {
    hide Encode, Decode;
    EncodeDecodes(r, "");
    assert Encode(r) + "" == Encode(r);
    assert Encode(r)[|Encode(r)|..] == "";
    assert Units("") == [];
  }

  predicate Ascii(s: string) {
    forall i :: 0 <= i < |s| ==> s[i] as int < 0x80
  }

  lemma {:induction false} AsciiUnits(s: string)
    requires Ascii(s)
    ensures |Units(s)| == |s| && forall i :: 0 <= i < |s| ==> Units(s)[i] == Good(s[i] as int, 1)
    decreases |s|
  {
    if s != "" {
      AsciiUnits(s[1..]);
      assert forall i :: 1 <= i < |s| ==> s[i] == s[1..][i - 1];
    }
  }

  /** Section 7 of RFC 3629: one, two, three and four bytes. */
  lemma Examples()
    ensures Encode(0x24) == [0x24 as char] && Encode(0x391) == [0xCE as char, 0x91 as char]
    ensures Encode(0x2262) == [0xE2 as char, 0x89 as char, 0xA2 as char]
    ensures Encode(0x233B4) == [0xF0 as char, 0xA3 as char, 0x8E as char, 0xB4 as char]
  {
  }
}
