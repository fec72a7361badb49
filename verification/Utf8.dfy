/** UTF-8 (RFC 3629): the encoding of scripts, and a decoder to measure it
    against. */
module Utf8 {
  import opened Options
  import opened Bytes

  /** One scalar value. */
  function EncodeChar(c: char): (s: Bytes)
    ensures 1 <= |s| <= 4
  {
    var n := c as int;
    if n < 0x80 then [n]
    else if n < 0x800 then [0xC0 + n / 64, 0x80 + n % 64]
    else if n < 0x10000 then [0xE0 + n / 4096, 0x80 + n / 64 % 64, 0x80 + n % 64]
    else [0xF0 + n / 262144, 0x80 + n / 4096 % 64, 0x80 + n / 64 % 64, 0x80 + n % 64]
  }

  /** `str.encode("utf-8")`. */
  function Encode(s: string): (r: Bytes)
    ensures |s| <= |r|
  {
    if s == [] then [] else EncodeChar(s[0]) + Encode(s[1..])
  }

  predicate Continues(b: Byte) {
    0x80 <= b < 0xC0
  }

  predicate Scalar(n: int) {
    0 <= n < 0xD800 || 0xE000 <= n < 0x11_0000
  }

  /** How many bytes a lead byte announces, itself included. */
  function Length(lead: Byte): Option<nat> {
    if lead < 0x80 then Some(1)
    else if 0xC0 <= lead < 0xE0 then Some(2)
    else if 0xE0 <= lead < 0xF0 then Some(3)
    else if 0xF0 <= lead < 0xF8 then Some(4)
    else None
  }

  /** The bits a lead byte of each length carries. */
  function LeadBits(lead: Byte, n: nat): int {
    if n == 1 then lead else if n == 2 then lead - 0xC0 else if n == 3 then lead - 0xE0 else lead - 0xF0
  }

  /** Six more bits from every continuation byte. */
  function Bits(s: Bytes, lead: int): int {
    if s == [] then lead else Bits(s[1..], 64 * lead + s[0] as int - 0x80)
  }

  /** The least value that needs so many bytes. */
  function Least(n: nat): int {
    if n == 1 then 0 else if n == 2 then 0x80 else if n == 3 then 0x800 else 0x1_0000
  }

  /** The first character and its length; None if no well-formed one is there. */
  function DecodeChar(s: Bytes): (r: Option<(char, nat)>)
    ensures r.Some? ==> 0 < r.value.1 <= |s|
  {
    if s == [] || Length(s[0]).None? || Length(s[0]).value > |s| then None
    else
      var n := Length(s[0]).value;
      var value := Bits(s[1..n], LeadBits(s[0], n));
      if (forall i | 1 <= i < n :: Continues(s[i])) && Scalar(value) && value >= Least(n)
      then Some((value as char, n)) else None
  }

  function Decode(s: Bytes): Option<string> {
    if s == [] then Some("")
    else
      match DecodeChar(s)
      case None => None
      case Some((c, n)) =>
        match Decode(s[n..])
        case None => None
        case Some(rest) => Some([c] + rest)
  }

  lemma BitsOf(s: Bytes, lead: int)
    ensures |s| == 0 ==> Bits(s, lead) == lead
    ensures |s| == 1 ==> Bits(s, lead) == 64 * lead + s[0] as int - 0x80
    ensures |s| == 2 ==> Bits(s, lead) == 64 * (64 * lead + s[0] as int - 0x80) + s[1] as int - 0x80
    ensures |s| == 3 ==>
              Bits(s, lead) == 64 * (64 * (64 * lead + s[0] as int - 0x80) + s[1] as int - 0x80) + s[2] as int - 0x80
  {
    if |s| >= 1 {
      assert s[1..] != [] ==> s[1..][0] == s[1];
      if |s| >= 2 {
        assert s[1..][1..] == s[2..];
        if |s| == 3 {
          assert s[2..][1..] == [];
        }
      }
    }
  }

  lemma LastSix(q: nat, r: nat)
    requires r < 64
    ensures (64 * q + r) / 64 == q && (64 * q + r) % 64 == r
  {
  }

  lemma StepByStep(v: nat)
    ensures v / 4096 == v / 64 / 64 && v / 262144 == v / 64 / 64 / 64
  {
  }

  /** Six bits at a time. */
  lemma Sixes(a: nat, b: nat, c: nat, d: nat)
    requires b < 64 && c < 64 && d < 64
    ensures var v := 64 * (64 * (64 * a + b) + c) + d;
            v / 262144 == a && v / 4096 % 64 == b && v / 64 % 64 == c && v % 64 == d
    ensures var v := 64 * (64 * b + c) + d; v / 4096 == b && v / 64 % 64 == c && v % 64 == d
    ensures var v := 64 * c + d; v / 64 == c && v % 64 == d
  {
    var ab := 64 * a + b;
    LastSix(a, b);
    LastSix(ab, c);
    LastSix(64 * ab + c, d);
    StepByStep(64 * (64 * ab + c) + d);
    LastSix(b, c);
    LastSix(64 * b + c, d);
    StepByStep(64 * (64 * b + c) + d);
    LastSix(c, d);
  }

  lemma SixesBack(v: nat)
    ensures v == 64 * (v / 64) + v % 64
    ensures v / 64 == 64 * (v / 4096) + v / 64 % 64
    ensures v / 4096 == 64 * (v / 262144) + v / 4096 % 64
  {
  }

  /** The encoding is its announced length, its continuation bytes, and its bits. */
  lemma EncodedShape(c: char)
    ensures var e := EncodeChar(c);
            && Length(e[0]) == Some(|e|)
            && (forall i | 1 <= i < |e| :: Continues(e[i]))
            && c as int >= Least(|e|)
  {
  }

  lemma EncodedBits(c: char)
    ensures var e := EncodeChar(c); Bits(e[1..], LeadBits(e[0], |e|)) == c as int
  {
    var e, n := EncodeChar(c), c as int;
    BitsOf(e[1..], LeadBits(e[0], |e|));
    SixesBack(n);
    hide Bits;
    if |e| == 2 {
      assert e[1..] == [0x80 + n % 64];
    } else if |e| == 3 {
      assert e[1..] == [0x80 + n / 64 % 64, 0x80 + n % 64];
    } else if |e| == 4 {
      assert e[1..] == [0x80 + n / 4096 % 64, 0x80 + n / 64 % 64, 0x80 + n % 64];
    }
  }

  lemma DecodeEncoded(c: char, rest: Bytes)
    ensures DecodeChar(EncodeChar(c) + rest) == Some((c, |EncodeChar(c)|))
  {
    EncodedShape(c);
    EncodedBits(c);
    hide EncodeChar, Bits;
    var e := EncodeChar(c);
    var s := e + rest;
    assert s[0] == e[0] && s[1..|e|] == e[1..];
    assert forall i | 1 <= i < |e| :: s[i] == e[i];
  }

  /** A value of a length is encoded in that length, by these bytes. */
  lemma EncodeValue(s: Bytes, n: nat, c: char)
    requires 0 < n <= |s| && Length(s[0]) == Some(n) && forall i | 1 <= i < n :: Continues(s[i])
    requires c as int == Bits(s[1..n], LeadBits(s[0], n)) && c as int >= Least(n)
    ensures EncodeChar(c) == s[..n]
  {
    BitsOf(s[1..n], LeadBits(s[0], n));
    hide Bits;
    if n == 2 {
      assert Continues(s[1]);
      Sixes(0, 0, s[0] - 0xC0, s[1] - 0x80);
    } else if n == 3 {
      assert Continues(s[1]) && Continues(s[2]);
      Sixes(0, s[0] - 0xE0, s[1] - 0x80, s[2] - 0x80);
    } else if n == 4 {
      assert Continues(s[1]) && Continues(s[2]) && Continues(s[3]);
      Sixes(s[0] - 0xF0, s[1] - 0x80, s[2] - 0x80, s[3] - 0x80);
    }
  }

  /** A character is decoded only from its own encoding. */
  lemma EncodeDecoded(s: Bytes)
    requires DecodeChar(s).Some?
    ensures var (c, n) := DecodeChar(s).value; s[..n] == EncodeChar(c)
  {
    var (c, n) := DecodeChar(s).value;
    hide EncodeChar, Bits;
    EncodeValue(s, n, c);
  }

  /** Decoding takes back exactly what encoding gives, for every string, and
      accepts nothing else. */
  lemma {:induction false} DecodeExactly(s: string, b: Bytes)
    ensures Decode(b) == Some(s) <==> b == Encode(s)
    decreases |b|
  {
    if s != [] {
      DecodeEncoded(s[0], Encode(s[1..]));
      var n := |EncodeChar(s[0])|;
      assert Encode(s)[n..] == Encode(s[1..]);
      if b == Encode(s) {
        DecodeExactly(s[1..], b[n..]);
        assert [s[0]] + s[1..] == s;
      }
    }
    if b != [] && Decode(b) == Some(s) {
      EncodeDecoded(b);
      var (c, n) := DecodeChar(b).value;
      assert s == [c] + s[1..];
      DecodeExactly(s[1..], b[n..]);
      assert b == b[..n] + b[n..];
    }
  }

  /** An ASCII string is its own encoding, character by character. */
  lemma {:induction false} AsciiIsItself(s: string)
    requires forall i | 0 <= i < |s| :: s[i] as int < 128
    ensures |Encode(s)| == |s| && forall i | 0 <= i < |s| :: Encode(s)[i] == s[i] as int
  {
    if s != [] {
      AsciiIsItself(s[1..]);
    }
  }

  lemma {:induction false} EncodeSnoc(s: string, c: char)
    ensures Encode(s + [c]) == Encode(s) + EncodeChar(c)
  {
    if s == [] {
      assert s + [c] == [c];
      assert Encode([c]) == EncodeChar(c) + Encode([]);
    } else {
      assert (s + [c])[1..] == s[1..] + [c];
      EncodeSnoc(s[1..], c);
    }
  }

  /** A byte below 128 stands in an encoding only for the character it is. */
  lemma {:induction false} LowBytes(s: string, b: Byte)
    requires b < 128
    ensures b in Encode(s) <==> (b as char) in s
  {
    if s != [] {
      LowBytes(s[1..], b);
      LowByte(s[0], b);
    }
  }

  lemma LowByte(c: char, b: Byte)
    requires b < 128
    ensures b in EncodeChar(c) <==> c == b as char
    ensures EncodeChar(c)[|EncodeChar(c)| - 1] == b <==> c == b as char
  {
  }
}
