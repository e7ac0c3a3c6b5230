/** Unpadded standard base64 (sections 3.2, 3.5 and 4 of RFC 4648), decoded strictly: bits that encode
    nothing must be zero. Line breaks in the input are ignored, as Go's decoder does. */
module Base64 {
  import opened Prelude

  type Byte = x: int | 0 <= x < 256

  function CharOf(i: nat): char
    requires i < 64
  {
    if i < 26 then ('A' as int + i) as char
    else if i < 52 then ('a' as int + i - 26) as char
    else if i < 62 then ('0' as int + i - 52) as char
    else if i == 62 then '+'
    else '/'
  }

  /** The index of a character of the alphabet, or 64. */
  function IndexOf(c: char): nat {
    if 'A' <= c <= 'Z' then c as int - 'A' as int
    else if 'a' <= c <= 'z' then c as int - 'a' as int + 26
    else if '0' <= c <= '9' then c as int - '0' as int + 52
    else if c == '+' then 62
    else if c == '/' then 63
    else 64
  }

  /** Table 1 of section 4 of RFC 4648: where each run of letters or digits begins and ends, and that it is one. */
  lemma Alphabet(i: nat)
    ensures CharOf(0) == 'A' && CharOf(25) == 'Z' && CharOf(26) == 'a' && CharOf(51) == 'z'
    ensures CharOf(52) == '0' && CharOf(61) == '9' && CharOf(62) == '+' && CharOf(63) == '/'
    ensures i < 61 && i != 25 && i != 51 ==> CharOf(i + 1) as int == CharOf(i) as int + 1
  {
  }

  lemma AlphabetInverse(c: char, i: nat)
    ensures i < 64 ==> IndexOf(CharOf(i)) == i
    ensures IndexOf(c) < 64 ==> CharOf(IndexOf(c)) == c
  {
  }

  type Sextet = i: nat | i < 64

  /** Three bytes as four groups of six bits, and back. */
  function Sextets(a: Byte, b: Byte, c: Byte): (Sextet, Sextet, Sextet, Sextet) {
    (a / 4, a % 4 * 16 + b / 16, b % 16 * 4 + c / 64, c % 64)
  }

  function Bytes(i: Sextet, j: Sextet, k: Sextet, l: Sextet): (Byte, Byte, Byte) {
    (i * 4 + j / 16, j % 16 * 16 + k / 4, k % 4 * 64 + l)
  }

  lemma Regroup(high: nat, low: nat)
    ensures low < 4 ==> (high * 4 + low) / 4 == high && (high * 4 + low) % 4 == low
    ensures low < 16 ==> (high * 16 + low) / 16 == high && (high * 16 + low) % 16 == low
    ensures low < 64 ==> (high * 64 + low) / 64 == high && (high * 64 + low) % 64 == low
  {
  }

  /** Both sides are the same number of 24 bits. */
  lemma SextetsExactly(a: Byte, b: Byte, c: Byte, i: Sextet, j: Sextet, k: Sextet, l: Sextet)
    ensures Sextets(a, b, c) == (i, j, k, l) <==> a * 0x1_0000 + b * 0x100 + c == i * 0x4_0000 + j * 0x1000 + k * 0x40 + l
  {
    var (x, y, z, u) := Sextets(a, b, c);
    SameNumber(a, b, c);
    if a * 0x1_0000 + b * 0x100 + c == i * 0x4_0000 + j * 0x1000 + k * 0x40 + l {
      SameSextets(x, y, z, u, i, j, k, l);
    }
  }

  lemma SameNumber(a: Byte, b: Byte, c: Byte)
    ensures var (i, j, k, l) := Sextets(a, b, c); a * 0x1_0000 + b * 0x100 + c == i * 0x4_0000 + j * 0x1000 + k * 0x40 + l
  {
    assert a == a / 4 * 4 + a % 4 && b == b / 16 * 16 + b % 16 && c == c / 64 * 64 + c % 64;
  }

  lemma SameSextets(x: Sextet, y: Sextet, z: Sextet, u: Sextet, i: Sextet, j: Sextet, k: Sextet, l: Sextet)
    requires x * 0x4_0000 + y * 0x1000 + z * 0x40 + u == i * 0x4_0000 + j * 0x1000 + k * 0x40 + l
    ensures x == i && y == j && z == k && u == l
  {
  }

  lemma SextetsInverse(a: Byte, b: Byte, c: Byte)
    ensures var (i, j, k, l) := Sextets(a, b, c); Bytes(i, j, k, l) == (a, b, c)
  {
    Regroup(a % 4, b / 16);
    Regroup(b % 16, c / 64);
  }

  lemma BytesInverse(i: Sextet, j: Sextet, k: Sextet, l: Sextet)
    ensures var (a, b, c) := Bytes(i, j, k, l); Sextets(a, b, c) == (i, j, k, l)
  {
    Regroup(i, j / 16);
    Regroup(j % 16, k / 4);
    Regroup(k % 4, l);
  }

  function Quad(a: Byte, b: Byte, c: Byte): string {
    var (i, j, k, l) := Sextets(a, b, c);
    [CharOf(i), CharOf(j), CharOf(k), CharOf(l)]
  }

  /** A last group of one or two bytes is padded with zero bits, and only its own characters are kept. */
  function Encode(b: seq<Byte>): string {
    if |b| == 0 then ""
    else if |b| == 1 then Quad(b[0], 0, 0)[..2]
    else if |b| == 2 then Quad(b[0], b[1], 0)[..3]
    else Quad(b[0], b[1], b[2]) + Encode(b[3..])
  }

  predicate Letters(s: string) {
    forall n :: 0 <= n < |s| ==> IndexOf(s[n]) < 64
  }

  /** The three bytes of the first group, as if it were complete. */
  function Head(s: string): (Byte, Byte, Byte)
    requires 2 <= |s| && Letters(s)
  {
    Bytes(IndexOf(s[0]), IndexOf(s[1]), if |s| < 3 then 0 else IndexOf(s[2]), if |s| < 4 then 0 else IndexOf(s[3]))
  }

  /** Groups of four; a last group of two or three must have zero bits where the missing bytes were. */
  function DecodeLetters(s: string): Option<seq<Byte>>
    requires Letters(s)
  {
    if |s| == 0 then Some([])
    else if |s| == 1 then None
    else
      var (a, b, c) := Head(s);
      if |s| == 2 then (if b == 0 then Some([a]) else None)
      else if |s| == 3 then (if c == 0 then Some([a, b]) else None)
      else
        match DecodeLetters(s[4..])
        case None => None
        case Some(rest) => Some([a, b, c] + rest)
  }

  function DecodeClean(s: string): Option<seq<Byte>> {
    if Letters(s) then DecodeLetters(s) else None
  }

  function WithoutBreaks(s: string): string {
    if s == "" then ""
    else if s[0] == '\r' || s[0] == '\n' then WithoutBreaks(s[1..])
    else [s[0]] + WithoutBreaks(s[1..])
  }

  function Decode(s: string): Option<seq<Byte>> {
    DecodeClean(WithoutBreaks(s))
  }

  predicate HeadIs(s: string, bytes: (Byte, Byte, Byte)) {
    2 <= |s| && Letters(s) && Head(s) == bytes
  }

  lemma HeadOfFour(i: Sextet, j: Sextet, k: Sextet, l: Sextet)
    ensures var q := [CharOf(i), CharOf(j), CharOf(k), CharOf(l)];
      HeadIs(q, Bytes(i, j, k, l)) && HeadIs(q[..3], Bytes(i, j, k, 0)) && HeadIs(q[..2], Bytes(i, j, 0, 0))
  {
    AlphabetInverse('A', i);
    AlphabetInverse('A', j);
    AlphabetInverse('A', k);
    AlphabetInverse('A', l);
    hide Bytes, IndexOf, CharOf;
  }

  lemma QuadDecodes(a: Byte, b: Byte, c: Byte)
    ensures HeadIs(Quad(a, b, c), (a, b, c))
    ensures Sextets(a, b, c).3 == 0 ==> HeadIs(Quad(a, b, c)[..3], (a, b, c))
    ensures Sextets(a, b, c).2 == 0 && Sextets(a, b, c).3 == 0 ==> HeadIs(Quad(a, b, c)[..2], (a, b, c))
  {
    hide Sextets, Bytes, IndexOf, CharOf, HeadIs;
    var (i, j, k, l) := Sextets(a, b, c);
    HeadOfFour(i, j, k, l);
    SextetsInverse(a, b, c);
  }

  lemma QuadLetters(a: Byte, b: Byte, c: Byte)
    ensures HeadIs(Quad(a, b, c), (a, b, c))
    ensures HeadIs(Quad(a, b, 0)[..3], (a, b, 0)) && HeadIs(Quad(a, 0, 0)[..2], (a, 0, 0))
  {
    hide Sextets, HeadIs, Quad;
    QuadDecodes(a, b, c);
    QuadDecodes(a, b, 0);
    QuadDecodes(a, 0, 0);
    PaddingIsZero(a, b);
  }

  /** The characters left out of a short group stand for zero. */
  lemma PaddingIsZero(a: Byte, b: Byte)
    ensures Sextets(a, b, 0).3 == 0 && Sextets(a, 0, 0).2 == 0 && Sextets(a, 0, 0).3 == 0
  {
  }

  lemma HeadQuad(s: string)
    requires 2 <= |s| && Letters(s)
    ensures var (a, b, c) := Head(s);
      && (|s| == 2 && b == 0 ==> c == 0 && Quad(a, 0, 0)[..2] == s)
      && (|s| == 3 && c == 0 ==> Quad(a, b, 0)[..3] == s)
      && (|s| >= 4 ==> Quad(a, b, c) == s[..4])
  {
    var i, j, k, l := IndexOf(s[0]), IndexOf(s[1]), if |s| < 3 then 0 else IndexOf(s[2]), if |s| < 4 then 0 else IndexOf(s[3]);
    BytesInverse(i, j, k, l);
    AlphabetInverse(s[0], 0);
    AlphabetInverse(s[1], 0);
    if |s| >= 3 { AlphabetInverse(s[2], 0); }
    if |s| >= 4 { AlphabetInverse(s[3], 0); }
  }

  lemma DecodeShort(b: seq<Byte>)
    requires 0 < |b| < 3
    ensures Letters(Encode(b)) && DecodeLetters(Encode(b)) == Some(b)
  {
    hide Quad, Head;
    if |b| == 1 {
      QuadLetters(b[0], 0, 0);
      QuadLength(b[0], 0, 0);
      assert b == [b[0]];
    } else {
      QuadLetters(b[0], b[1], 0);
      QuadLength(b[0], b[1], 0);
      assert b == [b[0], b[1]];
      assert Letters(Encode(b));
    }
  }

  /** Decoding a complete group and then the rest. */
  lemma DecodeGroup(q: string, s: string, rest: seq<Byte>)
    requires |q| == 4 && Letters(q) && Letters(s) && DecodeLetters(s) == Some(rest)
    ensures var (a, b, c) := Head(q);
      Letters(q + s) && DecodeLetters(q + s) == Some([a, b, c] + rest)
  {
    HeadOfPrefix(q, s);
    hide Head;
    assert (q + s)[4..] == s;
  }

  lemma {:induction false} DecodeEncode(b: seq<Byte>)
    ensures Letters(Encode(b)) && DecodeLetters(Encode(b)) == Some(b)
    decreases |b|
  {
    hide Quad, Head, Letters;
    if b == [] {
      NothingDecodes();
    } else if |b| < 3 {
      DecodeShort(b);
    } else {
      var q := Quad(b[0], b[1], b[2]);
      QuadLetters(b[0], b[1], b[2]);
      QuadLength(b[0], b[1], b[2]);
      DecodeEncode(b[3..]);
      hide DecodeLetters;
      DecodeGroup(q, Encode(b[3..]), b[3..]);
      assert b == [b[0], b[1], b[2]] + b[3..];
    }
  }

  lemma NothingDecodes()
    ensures Letters("") && DecodeLetters("") == Some([])
  {
  }

  lemma QuadLength(a: Byte, b: Byte, c: Byte)
    ensures |Quad(a, b, c)| == 4
  {
  }

  lemma HeadOfPrefix(q: string, s: string)
    requires |q| == 4 && Letters(q) && Letters(s)
    ensures Letters(q + s) && Head(q + s) == Head(q)
  {
  }

  lemma {:induction false} EncodeDecode(s: string, b: seq<Byte>)
    requires Letters(s) && DecodeLetters(s) == Some(b)
    ensures Encode(b) == s
    decreases |s|
  {
    hide Quad, Head;
    if |s| < 4 {
      if 2 <= |s| {
        HeadQuad(s);
      }
    } else {
      HeadQuad(s);
      var rest := DecodeLetters(s[4..]).value;
      EncodeDecode(s[4..], rest);
      assert b[3..] == rest;
      assert s == s[..4] + s[4..];
    }
  }

  /** Strict decoding accepts exactly the encodings: apart from line breaks there is one text per value. */
  lemma DecodesExactly(s: string, b: seq<Byte>)
    ensures Decode(s) == Some(b) <==> WithoutBreaks(s) == Encode(b)
  {
    DecodeEncode(b);
    if Decode(s) == Some(b) {
      EncodeDecode(WithoutBreaks(s), b);
    }
  }

  lemma EncodingIsPlain(b: seq<Byte>)
    ensures forall c :: c in Encode(b) ==> c != '$' && c != '\r' && c != '\n'
  {
    DecodeEncode(b);
  }

  lemma {:induction false} NoBreaks(s: string)
    requires forall c :: c in s ==> c != '\r' && c != '\n'
    ensures WithoutBreaks(s) == s
  {
    if s == "" {
    } else {
      assert s[0] in s;
      assert forall c :: c in s[1..] ==> c in s;
      NoBreaks(s[1..]);
    }
  }

  lemma RoundTrip(b: seq<Byte>)
    ensures Decode(Encode(b)) == Some(b)
  {
    EncodingIsPlain(b);
    NoBreaks(Encode(b));
    DecodeEncode(b);
  }

  /** Some of the test vectors of section 10 of RFC 4648, without their padding. */
  lemma TestVectors()
    ensures Encode([0x66]) == "Zg" && Encode([0x66, 0x6f]) == "Zm8" && Encode([0x66, 0x6f, 0x6f]) == "Zm9v"
  {
    hide Quad;
    VectorQuads();
    assert Encode([]) == "" && [0x66, 0x6f, 0x6f][3..] == [];
  }

  lemma VectorQuads()
    ensures Quad(0x66, 0, 0) == "ZgAA" && Quad(0x66, 0x6f, 0) == "Zm8A" && Quad(0x66, 0x6f, 0x6f) == "Zm9v"
  {
    hide CharOf, Sextets;
    VectorLetters();
    SextetsExactly(0x66, 0, 0, 25, 32, 0, 0);
    SextetsExactly(0x66, 0x6f, 0, 25, 38, 60, 0);
    SextetsExactly(0x66, 0x6f, 0x6f, 25, 38, 61, 47);
  }

  lemma VectorLetters()
    ensures CharOf(0) == 'A' && CharOf(25) == 'Z' && CharOf(32) == 'g' && CharOf(38) == 'm'
    ensures CharOf(47) == 'v' && CharOf(60) == '8' && CharOf(61) == '9'
  {
  }
}
