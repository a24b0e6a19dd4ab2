/**
 * The base64 codec of section 4 of RFC 4648 (alphabet `A-Z a-z 0-9 + /`,
 * `=` padding), as used by the audio pipeline to turn bytes into text and back.
 * Decoding is modelled on well-formed input only: `Decode` returns `None` for
 * anything that is not a sequence of complete, correctly padded quanta.
 */
module Base64 {
  import opened Options

  /** An octet. */
  type Byte = b: int | 0 <= b < 256

  /** The value of one base64 character. */
  type Sextet = v: int | 0 <= v < 64

  /** The padding character. */
  const Pad: char := '='

  /** The character of the base64 alphabet (table 1 of RFC 4648) whose value is `v`. */
  function CharOf(v: Sextet): (c: char)
    ensures ValueOf(c) == Some(v)
    ensures c != Pad && c != ','
  {
    if v < 26 then ('A' as int + v) as char
    else if v < 52 then ('a' as int + (v - 26)) as char
    else if v < 62 then ('0' as int + (v - 52)) as char
    else if v == 62 then '+'
    else '/'
  }

  /** The value of an alphabet character; `None` for any other character. */
  function ValueOf(c: char): (r: Option<Sextet>)
    ensures r.None? <==> !('A' <= c <= 'Z' || 'a' <= c <= 'z' || '0' <= c <= '9' || c == '+' || c == '/')
  {
    if 'A' <= c <= 'Z' then Some(c as int - 'A' as int)
    else if 'a' <= c <= 'z' then Some(c as int - 'a' as int + 26)
    else if '0' <= c <= '9' then Some(c as int - '0' as int + 52)
    else if c == '+' then Some(62)
    else if c == '/' then Some(63)
    else None
  }

  /** A character that may appear in an encoding: an alphabet character or the pad. */
  predicate IsEncodingChar(c: char) {
    ValueOf(c).Some? || c == Pad
  }

  /** Three octets become four characters. */
  function EncodeQuantum(a: Byte, b: Byte, c: Byte): (s: string)
    ensures |s| == 4 && forall i :: 0 <= i < 4 ==> ValueOf(s[i]).Some?
  {
    [CharOf(a / 4), CharOf((a % 4) * 16 + b / 16), CharOf((b % 16) * 4 + c / 64), CharOf(c % 64)]
  }

  /** A final single octet: two characters and two pads. */
  function EncodeOne(a: Byte): (s: string)
    ensures |s| == 4 && ValueOf(s[0]).Some? && ValueOf(s[1]).Some? && s[2] == Pad && s[3] == Pad
  {
    [CharOf(a / 4), CharOf((a % 4) * 16), Pad, Pad]
  }

  /** A final pair of octets: three characters and one pad. */
  function EncodeTwo(a: Byte, b: Byte): (s: string)
    ensures |s| == 4 && ValueOf(s[0]).Some? && ValueOf(s[1]).Some? && ValueOf(s[2]).Some? && s[3] == Pad
  {
    [CharOf(a / 4), CharOf((a % 4) * 16 + b / 16), CharOf((b % 16) * 4), Pad]
  }

  /** The base64 encoding of `bytes`. */
  function Encode(bytes: seq<Byte>): (s: string)
    ensures |s| == (|bytes| + 2) / 3 * 4
    decreases |bytes|
  {
    if |bytes| == 0 then ""
    else if |bytes| == 1 then EncodeOne(bytes[0])
    else if |bytes| == 2 then EncodeTwo(bytes[0], bytes[1])
    else
      var head := EncodeQuantum(bytes[0], bytes[1], bytes[2]);
      var tail := Encode(bytes[3..]);
      assert |tail| == (|bytes| - 1) / 3 * 4;
      head + tail
  }

  /** Every character of an encoding is from the alphabet or the pad. */
  lemma {:induction false} EncodeIsAlphabet(bytes: seq<Byte>)
    ensures forall i :: 0 <= i < |Encode(bytes)| ==> IsEncodingChar(Encode(bytes)[i])
    decreases |bytes|
  {
    if |bytes| > 2 {
      var head := EncodeQuantum(bytes[0], bytes[1], bytes[2]);
      var tail := Encode(bytes[3..]);
      EncodeIsAlphabet(bytes[3..]);
      assert Encode(bytes) == head + tail;
      forall i | 0 <= i < |head + tail| ensures IsEncodingChar((head + tail)[i]) {
        if i >= 4 {
          assert (head + tail)[i] == tail[i - 4];
        }
      }
    }
  }

  /** Four alphabet characters become three octets. */
  function DecodeQuantum(s: string): (r: Option<seq<Byte>>)
    requires |s| == 4
    ensures r.Some? ==> |r.value| == 3
  {
    match (ValueOf(s[0]), ValueOf(s[1]), ValueOf(s[2]), ValueOf(s[3]))
    case (Some(v0), Some(v1), Some(v2), Some(v3)) =>
      Some([v0 * 4 + v1 / 16, (v1 % 16) * 16 + v2 / 4, (v2 % 4) * 64 + v3])
    case _ => None
  }

  /** A final quantum `xx==` becomes one octet. */
  function DecodeOne(s: string): (r: Option<seq<Byte>>)
    requires |s| == 4
    ensures r.Some? ==> |r.value| == 1
  {
    match (ValueOf(s[0]), ValueOf(s[1]))
    case (Some(v0), Some(v1)) => Some([v0 * 4 + v1 / 16])
    case _ => None
  }

  /** A final quantum `xxx=` becomes two octets. */
  function DecodeTwo(s: string): (r: Option<seq<Byte>>)
    requires |s| == 4
    ensures r.Some? ==> |r.value| == 2
  {
    match (ValueOf(s[0]), ValueOf(s[1]), ValueOf(s[2]))
    case (Some(v0), Some(v1), Some(v2)) => Some([v0 * 4 + v1 / 16, (v1 % 16) * 16 + v2 / 4])
    case _ => None
  }

  /**
   * The octets a well-formed base64 string stands for; `None` when the
   * length is not a multiple of four, a character is outside the alphabet,
   * or padding appears anywhere but at the end of the last quantum.
   */
  function Decode(s: string): (r: Option<seq<Byte>>)
    ensures r.Some? ==> |s| % 4 == 0 && |r.value| <= |s| / 4 * 3
    decreases |s|
  {
    if |s| == 0 then Some([])
    else if |s| < 4 then None
    else if |s| == 4 && s[2] == Pad && s[3] == Pad then DecodeOne(s)
    else if |s| == 4 && s[3] == Pad then DecodeTwo(s)
    else
      match DecodeQuantum(s[..4])
      case None => None
      case Some(head) =>
        match Decode(s[4..])
        case None => None
        case Some(tail) => Some(head + tail)
  }

  lemma QuantumRoundTrip(a: Byte, b: Byte, c: Byte)
    ensures DecodeQuantum(EncodeQuantum(a, b, c)) == Some([a, b, c])
  {
    var v1 := (a % 4) * 16 + b / 16;
    var v2 := (b % 16) * 4 + c / 64;
    assert v1 / 16 == a % 4 && v1 % 16 == b / 16;
    assert v2 / 4 == b % 16 && v2 % 4 == c / 64;
  }

  lemma OneRoundTrip(a: Byte)
    ensures Decode(EncodeOne(a)) == Some([a])
  {
    var s := EncodeOne(a);
    assert Decode(s) == DecodeOne(s);
    var v1 := (a % 4) * 16;
    assert v1 / 16 == a % 4;
  }

  lemma TwoRoundTrip(a: Byte, b: Byte)
    ensures Decode(EncodeTwo(a, b)) == Some([a, b])
  {
    var s := EncodeTwo(a, b);
    assert Decode(s) == DecodeTwo(s);
    var v1 := (a % 4) * 16 + b / 16;
    var v2 := (b % 16) * 4;
    assert v1 / 16 == a % 4 && v1 % 16 == b / 16;
    assert v2 / 4 == b % 16;
  }

  /** Decoding undoes encoding, for every byte sequence. */
  lemma {:induction false} DecodeEncode(bytes: seq<Byte>)
    ensures Decode(Encode(bytes)) == Some(bytes)
    decreases |bytes|
  {
    if |bytes| <= 2 {
      ShortRoundTrip(bytes);
    } else {
      DecodeEncode(bytes[3..]);
      LongRoundTrip(bytes);
    }
  }

  /** The round trip for zero, one or two octets. */
  lemma ShortRoundTrip(bytes: seq<Byte>)
    requires |bytes| <= 2
    ensures Decode(Encode(bytes)) == Some(bytes)
  {
    if |bytes| == 1 {
      assert bytes == [bytes[0]];
      OneRoundTrip(bytes[0]);
    } else if |bytes| == 2 {
      assert bytes == [bytes[0], bytes[1]];
      TwoRoundTrip(bytes[0], bytes[1]);
    }
  }

  /** The round trip for more than two octets, given it for all but the first three. */
  lemma LongRoundTrip(bytes: seq<Byte>)
    requires |bytes| > 2
    requires Decode(Encode(bytes[3..])) == Some(bytes[3..])
    ensures Decode(Encode(bytes)) == Some(bytes)
  {
    var rest := bytes[3..];
    assert Encode(bytes) == EncodeQuantum(bytes[0], bytes[1], bytes[2]) + Encode(rest);
    QuantumStep(bytes[0], bytes[1], bytes[2], rest);
    assert [bytes[0], bytes[1], bytes[2]] + rest == bytes;
  }

  /** One full quantum in front of an encoding decodes to its three octets in front. */
  lemma QuantumStep(a: Byte, b: Byte, c: Byte, rest: seq<Byte>)
    requires Decode(Encode(rest)) == Some(rest)
    ensures Decode(EncodeQuantum(a, b, c) + Encode(rest)) == Some([a, b, c] + rest)
  {
    var q := EncodeQuantum(a, b, c);
    var s := q + Encode(rest);
    assert s[..4] == q && s[4..] == Encode(rest);
    assert s[3] == q[3] && s[3] != Pad;
    QuantumRoundTrip(a, b, c);
  }

  /** No encoding contains a comma, so it survives being placed in a comma-delimited field. */
  lemma EncodeHasNoComma(bytes: seq<Byte>)
    ensures ',' !in Encode(bytes)
  {
    var s := Encode(bytes);
    EncodeIsAlphabet(bytes);
    forall i | 0 <= i < |s| ensures s[i] != ',' {
      assert IsEncodingChar(s[i]);
    }
  }
}
