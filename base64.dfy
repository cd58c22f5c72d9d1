/**
 * Base64 with the standard alphabet and `=` padding, as defined in section 4
 * of RFC 4648: what Python's `base64.b64encode` produces. `Decode` is the
 * strict inverse used to state what an encoding carries.
 */
module Base64 {
  import opened Wrappers
  import opened Codecs

  /** The character for a six-bit value: A-Z, a-z, 0-9, '+', '/'. */
  function Digit(d: nat): (c: char)
    requires d < 64
  {
    if d < 26 then ('A' as int + d) as char
    else if d < 52 then ('a' as int + d - 26) as char
    else if d < 62 then ('0' as int + d - 52) as char
    else if d == 62 then '+'
    else '/'
  }

  /** The six-bit value of an alphabet character, or -1 for any other character. */
  function Value(c: char): (d: int)
    ensures -1 <= d < 64
  {
    if 'A' <= c <= 'Z' then c as int - 'A' as int
    else if 'a' <= c <= 'z' then c as int - 'a' as int + 26
    else if '0' <= c <= '9' then c as int - '0' as int + 52
    else if c == '+' then 62
    else if c == '/' then 63
    else -1
  }

  lemma ValueOfDigit(d: nat)
    requires d < 64
    ensures Value(Digit(d)) == d
  {
  }

  /** Three bytes as four characters. */
  function Quad(b0: Byte, b1: Byte, b2: Byte): string {
    [Digit(b0 / 4), Digit(b0 % 4 * 16 + b1 / 16), Digit(b1 % 16 * 4 + b2 / 64), Digit(b2 % 64)]
  }

  /** The last group: one or two bytes, padded with `=` to four characters. */
  function Final(bs: seq<Byte>): (s: string)
    requires |bs| < 3
    ensures |s| == if |bs| == 0 then 0 else 4
  {
    if |bs| == 0 then ""
    else if |bs| == 1 then Quad(bs[0], 0, 0)[..2] + "=="
    else Quad(bs[0], bs[1], 0)[..3] + "="
  }

  /** `base64.b64encode(bs).decode()` */
  function Encode(bs: seq<Byte>): (s: string)
    ensures |s| % 4 == 0
  {
    if |bs| < 3 then Final(bs) else Quad(bs[0], bs[1], bs[2]) + Encode(bs[3..])
  }

  function Byte0(d0: int, d1: int): Byte
    requires 0 <= d0 < 64 && 0 <= d1 < 64
  {
    d0 * 4 + d1 / 16
  }

  function Byte1(d1: int, d2: int): Byte
    requires 0 <= d1 < 64 && 0 <= d2 < 64
  {
    d1 % 16 * 16 + d2 / 4
  }

  function Byte2(d2: int, d3: int): Byte
    requires 0 <= d2 < 64 && 0 <= d3 < 64
  {
    d2 % 4 * 64 + d3
  }

  /** The bytes a padded Base64 text stands for, or None if it is not one. */
  function Decode(s: string): Option<seq<Byte>>
    decreases |s|
  {
    if |s| == 0 then Some([])
    else if |s| < 4 then None
    else
      var d0, d1, d2, d3 := Value(s[0]), Value(s[1]), Value(s[2]), Value(s[3]);
      if d0 < 0 || d1 < 0 then None
      else if |s| == 4 && s[2] == '=' && s[3] == '=' then Some([Byte0(d0, d1)])
      else if d2 < 0 then None
      else if |s| == 4 && s[3] == '=' then Some([Byte0(d0, d1), Byte1(d1, d2)])
      else if d3 < 0 then None
      else match Decode(s[4..])
        case None => None
        case Some(rest) => Some([Byte0(d0, d1), Byte1(d1, d2), Byte2(d2, d3)] + rest)
  }

  lemma QuadDecodes(b0: Byte, b1: Byte, b2: Byte)
    ensures var q := Quad(b0, b1, b2);
            Value(q[0]) == b0 / 4 && Value(q[1]) == b0 % 4 * 16 + b1 / 16
            && Value(q[2]) == b1 % 16 * 4 + b2 / 64 && Value(q[3]) == b2 % 64
    ensures Byte0(b0 / 4, b0 % 4 * 16 + b1 / 16) == b0
    ensures Byte1(b0 % 4 * 16 + b1 / 16, b1 % 16 * 4 + b2 / 64) == b1
    ensures Byte2(b1 % 16 * 4 + b2 / 64, b2 % 64) == b2
  {
    ValueOfDigit(b0 / 4);
    ValueOfDigit(b0 % 4 * 16 + b1 / 16);
    ValueOfDigit(b1 % 16 * 4 + b2 / 64);
    ValueOfDigit(b2 % 64);
  }

  /** A digit is never the padding character. */
  lemma DigitIsNotPadding(d: nat)
    requires d < 64
    ensures Digit(d) != '='
  {
    ValueOfDigit(d);
  }

  lemma RoundTripOne(b0: Byte)
    ensures Decode(Encode([b0])) == Some([b0])
  {
    QuadDecodes(b0, 0, 0);
  }

  lemma RoundTripTwo(b0: Byte, b1: Byte)
    ensures Decode(Encode([b0, b1])) == Some([b0, b1])
  {
    QuadDecodes(b0, b1, 0);
    DigitIsNotPadding(b1 % 16 * 4);
    var s := Encode([b0, b1]);
    assert s[2] == Digit(b1 % 16 * 4) && s[3] == '=';
  }

  predicate IsFullGroup(q: string) {
    |q| == 4 && Value(q[0]) >= 0 && Value(q[1]) >= 0 && Value(q[2]) >= 0 && Value(q[3]) >= 0
  }

  /** The three bytes a group of four alphabet characters stands for. */
  function GroupBytes(q: string): seq<Byte>
    requires IsFullGroup(q)
  {
    [Byte0(Value(q[0]), Value(q[1])), Byte1(Value(q[1]), Value(q[2])), Byte2(Value(q[2]), Value(q[3]))]
  }

  lemma QuadGroup(b0: Byte, b1: Byte, b2: Byte)
    ensures IsFullGroup(Quad(b0, b1, b2)) && GroupBytes(Quad(b0, b1, b2)) == [b0, b1, b2]
  {
    QuadDecodes(b0, b1, b2);
  }

  /** A full group decodes to its three bytes, followed by the rest. */
  lemma DecodeFullGroup(q: string, rest: string)
    requires IsFullGroup(q) && Decode(rest).Some?
    ensures Decode(q + rest) == Some(GroupBytes(q) + Decode(rest).value)
  {
    var s := q + rest;
    assert Value('=') == -1;
    assert s[0] == q[0] && s[1] == q[1] && s[2] == q[2] && s[3] == q[3];
    assert s[4..] == rest;
  }

  lemma RoundTripStep(b0: Byte, b1: Byte, b2: Byte, tail: seq<Byte>)
    requires Decode(Encode(tail)) == Some(tail)
    ensures Decode(Encode([b0, b1, b2] + tail)) == Some([b0, b1, b2] + tail)
  {
    var bs := [b0, b1, b2] + tail;
    var q := Quad(b0, b1, b2);
    QuadGroup(b0, b1, b2);
    DecodeFullGroup(q, Encode(tail));
    assert bs[3..] == tail;
    assert Encode(bs) == q + Encode(tail);
  }

  /** Decoding undoes encoding, for every byte string. */
  lemma {:induction false} RoundTrip(bs: seq<Byte>)
    ensures Decode(Encode(bs)) == Some(bs)
    decreases |bs|
  {
    if |bs| == 1 {
      assert bs == [bs[0]];
      RoundTripOne(bs[0]);
    } else if |bs| == 2 {
      assert bs == [bs[0], bs[1]];
      RoundTripTwo(bs[0], bs[1]);
    } else if |bs| >= 3 {
      RoundTrip(bs[3..]);
      RoundTripStep(bs[0], bs[1], bs[2], bs[3..]);
      assert [bs[0], bs[1], bs[2]] + bs[3..] == bs;
    }
  }

  /** Encoding only ever uses the alphabet and the padding character. */
  lemma {:induction false} EncodeAlphabet(bs: seq<Byte>)
    ensures forall k :: 0 <= k < |Encode(bs)| ==> Value(Encode(bs)[k]) >= 0 || Encode(bs)[k] == '='
    decreases |bs|
  {
    if |bs| >= 3 {
      EncodeAlphabet(bs[3..]);
      QuadDecodes(bs[0], bs[1], bs[2]);
    } else if |bs| == 2 {
      QuadDecodes(bs[0], bs[1], 0);
    } else if |bs| == 1 {
      QuadDecodes(bs[0], 0, 0);
    }
  }
}
