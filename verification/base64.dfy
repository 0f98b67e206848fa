/**
 * The base 64 encoding of section 4 of RFC 4648. The job manager turns the
 * second item of a task's list result back into bytes with
 * `base64.b64decode`; `Encode` is the encoding such text is assumed to be in
 * (no writer of it is modelled). `Decode` is a strict decoder (padding only
 * at the end, unused bits zero, no characters outside the alphabet, as
 * section 3.5 of RFC 4648 allows a decoder to demand), stricter than
 * `b64decode`, which by default drops non-alphabet characters and ignores
 * non-zero unused bits; the two round-trip lemmas make it exactly the
 * inverse of `Encode`.
 */
module Base64 {
  import opened Wrappers

  type byte = x: int | 0 <= x < 256

  /** The character for a 6-bit value, from the alphabet of Table 1 of RFC 4648. */
  function Char64(i: nat): char
    requires i < 64
  {
    if i < 26 then ('A' as int + i) as char
    else if i < 52 then ('a' as int + (i - 26)) as char
    else if i < 62 then ('0' as int + (i - 52)) as char
    else if i == 62 then '+'
    else '/'
  }

  /** The 6-bit value of an alphabet character; `None` for any other character, `=` included. */
  function Index64(c: char): (r: Option<nat>)
    ensures r.Some? ==> r.value < 64 && Char64(r.value) == c
  {
    if 'A' <= c <= 'Z' then Some(c as int - 'A' as int)
    else if 'a' <= c <= 'z' then Some(c as int - 'a' as int + 26)
    else if '0' <= c <= '9' then Some(c as int - '0' as int + 52)
    else if c == '+' then Some(62)
    else if c == '/' then Some(63)
    else None
  }

  lemma Index64Char64(i: nat)
    requires i < 64
    ensures Index64(Char64(i)) == Some(i)
  {
  }

  /** Three bytes as four characters. */
  function EncodeTriple(b0: byte, b1: byte, b2: byte): string
  {
    [Char64(b0 / 4), Char64((b0 % 4) * 16 + b1 / 16), Char64((b1 % 16) * 4 + b2 / 64), Char64(b2 % 64)]
  }

  /** `base64.b64encode`: groups of three bytes, and a final group of one or two padded with `=`. */
  function Encode(b: seq<byte>): (s: string)
    ensures |s| == 0 <==> |b| == 0
  {
    if |b| == 0 then []
    else if |b| == 1 then [Char64(b[0] / 4), Char64((b[0] % 4) * 16), '=', '=']
    else if |b| == 2 then [Char64(b[0] / 4), Char64((b[0] % 4) * 16 + b[1] / 16), Char64((b[1] % 16) * 4), '=']
    else EncodeTriple(b[0], b[1], b[2]) + Encode(b[3..])
  }

  /**
   * Four characters as bytes. Only the final group (`last`) may carry padding,
   * and the bits a padded group does not use must be zero.
   */
  function DecodeQuad(a: char, b: char, c: char, d: char, last: bool): Option<seq<byte>>
  {
    var n0, n1, n2, n3 := Index64(a), Index64(b), Index64(c), Index64(d);
    if n0.None? || n1.None? then None
    else if n2.Some? && n3.Some? then
      Some([Join0(n0.value, n1.value), Join1(n1.value, n2.value), Join2(n2.value, n3.value)])
    else if n2.Some? then
      if last && d == '=' && n2.value % 4 == 0 then Some([Join0(n0.value, n1.value), Join1(n1.value, n2.value)]) else None
    else if last && c == '=' && d == '=' && n1.value % 16 == 0 then Some([Join0(n0.value, n1.value)])
    else None
  }

  /** The bytes of a group from its 6-bit values: the high six bits of the first byte and so on. */
  function Join0(n0: nat, n1: nat): byte requires n0 < 64 && n1 < 64 { n0 * 4 + n1 / 16 }
  function Join1(n1: nat, n2: nat): byte requires n1 < 64 && n2 < 64 { (n1 % 16) * 16 + n2 / 4 }
  function Join2(n2: nat, n3: nat): byte requires n2 < 64 && n3 < 64 { (n2 % 4) * 64 + n3 }

  /** Strict decoding: `None` for any text that is not the canonical encoding of some bytes. */
  function Decode(s: string): Option<seq<byte>>
  {
    if |s| == 0 then Some([])
    else if |s| < 4 then None
    else
      match DecodeQuad(s[0], s[1], s[2], s[3], |s| == 4)
      case None => None
      case Some(head) =>
        if |s| == 4 then Some(head)
        else
          match Decode(s[4..])
          case None => None
          case Some(rest) => Some(head + rest)
  }

  /** The four 6-bit values of a group of three bytes, and back. */
  lemma TripleArithmetic(b0: byte, b1: byte, b2: byte)
    ensures var n0, n1, n2, n3 := b0 / 4, (b0 % 4) * 16 + b1 / 16, (b1 % 16) * 4 + b2 / 64, b2 % 64;
            n0 < 64 && n1 < 64 && n2 < 64 && n3 < 64
            && n0 * 4 + n1 / 16 == b0 && (n1 % 16) * 16 + n2 / 4 == b1 && (n2 % 4) * 64 + n3 == b2
  {
  }

  lemma TripleRoundTrip(b0: byte, b1: byte, b2: byte, last: bool)
    ensures var t := EncodeTriple(b0, b1, b2);
            DecodeQuad(t[0], t[1], t[2], t[3], last) == Some([b0, b1, b2])
  {
    TripleArithmetic(b0, b1, b2);
    Index64Char64(b0 / 4);
    Index64Char64((b0 % 4) * 16 + b1 / 16);
    Index64Char64((b1 % 16) * 4 + b2 / 64);
    Index64Char64(b2 % 64);
  }

  lemma PairRoundTrip(b0: byte, b1: byte)
    ensures DecodeQuad(Char64(b0 / 4), Char64((b0 % 4) * 16 + b1 / 16), Char64((b1 % 16) * 4), '=', true)
            == Some([b0, b1])
  {
    var n0, n1, n2 := b0 / 4, (b0 % 4) * 16 + b1 / 16, (b1 % 16) * 4;
    assert n0 < 64 && n1 < 64 && n2 < 64 && n2 % 4 == 0;
    assert Join0(n0, n1) == b0 && Join1(n1, n2) == b1;
    Index64Char64(n0);
    Index64Char64(n1);
    Index64Char64(n2);
  }

  lemma SingleRoundTrip(b0: byte)
    ensures DecodeQuad(Char64(b0 / 4), Char64((b0 % 4) * 16), '=', '=', true) == Some([b0])
  {
    var n0, n1 := b0 / 4, (b0 % 4) * 16;
    assert n0 < 64 && n1 < 64 && n1 % 16 == 0;
    assert Join0(n0, n1) == b0;
    Index64Char64(n0);
    Index64Char64(n1);
  }

  /** Decoding a text of four or more characters: one group, then the rest. */
  lemma DecodeFirstGroup(t: string, rest: string, head: seq<byte>, tail: seq<byte>)
    requires |t| == 4 && |rest| > 0
    requires DecodeQuad(t[0], t[1], t[2], t[3], false) == Some(head)
    requires Decode(rest) == Some(tail)
    ensures Decode(t + rest) == Some(head + tail)
  {
    var s := t + rest;
    assert s[0] == t[0] && s[1] == t[1] && s[2] == t[2] && s[3] == t[3];
    assert s[4..] == rest;
  }

  lemma DecodeLastGroup(t: string, head: seq<byte>)
    requires |t| == 4
    requires DecodeQuad(t[0], t[1], t[2], t[3], true) == Some(head)
    ensures Decode(t) == Some(head)
  {
  }

  /** Decoding what was encoded gives back the bytes: nothing is lost across the text boundary. */
  lemma {:induction false} DecodeEncode(b: seq<byte>)
    ensures Decode(Encode(b)) == Some(b)
  {
    if |b| == 1 {
      SingleRoundTrip(b[0]);
      assert b == [b[0]];
      assert Encode(b) == [Char64(b[0] / 4), Char64((b[0] % 4) * 16), '=', '='];
      DecodeLastGroup(Encode(b), b);
    } else if |b| == 2 {
      PairRoundTrip(b[0], b[1]);
      assert b == [b[0], b[1]];
      assert Encode(b) == [Char64(b[0] / 4), Char64((b[0] % 4) * 16 + b[1] / 16), Char64((b[1] % 16) * 4), '='];
      DecodeLastGroup(Encode(b), b);
    } else if |b| >= 3 {
      var t := EncodeTriple(b[0], b[1], b[2]);
      assert Encode(b) == t + Encode(b[3..]);
      assert b == [b[0], b[1], b[2]] + b[3..];
      if |b| == 3 {
        TripleRoundTrip(b[0], b[1], b[2], true);
        assert Encode(b) == t && b == [b[0], b[1], b[2]];
        DecodeLastGroup(t, b);
      } else {
        TripleRoundTrip(b[0], b[1], b[2], false);
        DecodeEncode(b[3..]);
        DecodeFirstGroup(t, Encode(b[3..]), [b[0], b[1], b[2]], b[3..]);
      }
    }
  }

  /** A group that is not the last one decodes to three bytes, and encodes back to itself. */
  lemma InnerQuadRoundTrip(a: char, b: char, c: char, d: char, bytes: seq<byte>)
    requires DecodeQuad(a, b, c, d, false) == Some(bytes)
    ensures |bytes| == 3 && EncodeTriple(bytes[0], bytes[1], bytes[2]) == [a, b, c, d]
  {
    var n0, n1, n2, n3 := Index64(a).value, Index64(b).value, Index64(c).value, Index64(d).value;
    assert bytes[0] / 4 == n0 && (bytes[0] % 4) * 16 + bytes[1] / 16 == n1;
    assert (bytes[1] % 16) * 4 + bytes[2] / 64 == n2 && bytes[2] % 64 == n3;
  }

  /** The last group decodes to one, two or three bytes, and encodes back to itself. */
  lemma LastQuadRoundTrip(a: char, b: char, c: char, d: char, bytes: seq<byte>)
    requires DecodeQuad(a, b, c, d, true) == Some(bytes)
    ensures Encode(bytes) == [a, b, c, d]
  {
    var n0 := Index64(a).value;
    var n1 := Index64(b).value;
    if |bytes| == 3 {
      var n2 := Index64(c).value;
      var n3 := Index64(d).value;
      assert bytes[0] / 4 == n0 && (bytes[0] % 4) * 16 + bytes[1] / 16 == n1;
      assert (bytes[1] % 16) * 4 + bytes[2] / 64 == n2 && bytes[2] % 64 == n3;
      EncodeFirstGroup(bytes);
      assert bytes[3..] == [];
    } else if |bytes| == 2 {
      var n2 := Index64(c).value;
      assert bytes[0] / 4 == n0 && (bytes[0] % 4) * 16 + bytes[1] / 16 == n1;
      assert (bytes[1] % 16) * 4 == n2;
    } else {
      assert bytes[0] / 4 == n0 && (bytes[0] % 4) * 16 == n1;
    }
  }

  /** Encoding three or more bytes: one group, then the rest. */
  lemma EncodeFirstGroup(b: seq<byte>)
    requires |b| >= 3
    ensures Encode(b) == EncodeTriple(b[0], b[1], b[2]) + Encode(b[3..])
  {
  }

  /** Decoding a text of more than four characters splits into its first group and the rest. */
  lemma DecodeSplit(s: string, b: seq<byte>)
    requires |s| > 4 && Decode(s) == Some(b)
    ensures DecodeQuad(s[0], s[1], s[2], s[3], false).Some? && Decode(s[4..]).Some?
    ensures b == DecodeQuad(s[0], s[1], s[2], s[3], false).value + Decode(s[4..]).value
  {
  }

  /** Encoding a first group of three bytes and then the rest. */
  lemma EncodeJoin(s: string, b: seq<byte>, head: seq<byte>, rest: seq<byte>)
    requires |s| > 4 && |head| == 3
    requires EncodeTriple(head[0], head[1], head[2]) == s[..4]
    requires Encode(rest) == s[4..]
    requires b == head + rest
    ensures Encode(b) == s
  {
    EncodeFirstGroup(b);
    assert b[..3] == head && b[3..] == rest;
  }

  /** Only canonical encodings decode: whatever decodes is exactly the encoding of its bytes. */
  lemma {:induction false} EncodeDecode(s: string, b: seq<byte>)
    requires Decode(s) == Some(b)
    ensures Encode(b) == s
  {
    if |s| == 4 {
      LastQuadRoundTrip(s[0], s[1], s[2], s[3], b);
      assert s == [s[0], s[1], s[2], s[3]];
    } else if |s| > 4 {
      DecodeSplit(s, b);
      var head := DecodeQuad(s[0], s[1], s[2], s[3], false).value;
      var rest := Decode(s[4..]).value;
      InnerQuadRoundTrip(s[0], s[1], s[2], s[3], head);
      assert s[..4] == [s[0], s[1], s[2], s[3]];
      EncodeDecode(s[4..], rest);
      EncodeJoin(s, b, head, rest);
    }
  }
}
