/** Base64 as in section 4 of RFC 4648 (standard alphabet, `=` padding):
    Python's `base64.b64encode`, used by the image upload endpoint, and
    `base64.b64decode`, used by the chat endpoint on the payload of a data
    URL. Decoding is strict: only alphabet characters, with padding only in
    the last group. */
module Base64 {
  import opened Common

  /** The character for a 6-bit value. */
  function CharOf(v: nat): (c: char)
    requires v < 64
  {
    if v < 26 then ('A' as int + v) as char
    else if v < 52 then ('a' as int + v - 26) as char
    else if v < 62 then ('0' as int + v - 52) as char
    else if v == 62 then '+'
    else '/'
  }

  /** The 6-bit value of an alphabet character. */
  function ValueOf(c: char): (r: Option<nat>)
    ensures r.Some? ==> r.value < 64
  {
    if 'A' <= c <= 'Z' then Some(c as int - 'A' as int)
    else if 'a' <= c <= 'z' then Some(c as int - 'a' as int + 26)
    else if '0' <= c <= '9' then Some(c as int - '0' as int + 52)
    else if c == '+' then Some(62)
    else if c == '/' then Some(63)
    else None
  }

  /** The alphabet is a bijection onto the 6-bit values. */
  lemma ValueOfCharOf(v: nat)
    requires v < 64
    ensures ValueOf(CharOf(v)) == Some(v)
    ensures CharOf(v) != '=' && CharOf(v) != ','
  {
  }

  /** A character of encoded text: alphabet or padding. */
  predicate Encoded(c: char) {
    ValueOf(c).Some? || c == '='
  }

  /** The four 6-bit values of three bytes: the first byte's top six bits,
      its low two bits with the second byte's top four, the second byte's
      low four bits with the third byte's top two, the third byte's low six. */
  function Sextet0(b0: byte): nat { b0 / 4 }
  function Sextet1(b0: byte, b1: byte): nat { b0 % 4 * 16 + b1 / 16 }
  function Sextet2(b1: byte, b2: byte): nat { b1 % 16 * 4 + b2 / 64 }
  function Sextet3(b2: byte): nat { b2 % 64 }

  /** The three bytes of four 6-bit values. */
  function Byte0(v0: nat, v1: nat): byte requires v0 < 64 && v1 < 64 { v0 * 4 + v1 / 16 }
  function Byte1(v1: nat, v2: nat): byte requires v1 < 64 && v2 < 64 { v1 % 16 * 16 + v2 / 4 }
  function Byte2(v2: nat, v3: nat): byte requires v2 < 64 && v3 < 64 { v2 % 4 * 64 + v3 }

  lemma SextetBounds(b0: byte, b1: byte, b2: byte)
    ensures Sextet0(b0) < 64 && Sextet1(b0, b1) < 64 && Sextet2(b1, b2) < 64 && Sextet3(b2) < 64
  {
  }

  lemma Byte0Back(b0: byte, b1: byte)
    ensures Byte0(Sextet0(b0), Sextet1(b0, b1)) == b0
  {
    assert Sextet1(b0, b1) / 16 == b0 % 4;
  }

  lemma Byte1Back(b0: byte, b1: byte, b2: byte)
    ensures Byte1(Sextet1(b0, b1), Sextet2(b1, b2)) == b1
  {
    assert Sextet1(b0, b1) % 16 == b1 / 16;
    assert Sextet2(b1, b2) / 4 == b1 % 16;
  }

  lemma Byte2Back(b1: byte, b2: byte)
    ensures Byte2(Sextet2(b1, b2), Sextet3(b2)) == b2
  {
    assert Sextet2(b1, b2) % 4 == b2 / 64;
  }

  /** Three bytes (two or one at the end, padded) as four characters. */
  function EncodeGroup(b: seq<byte>): (r: string)
    requires 1 <= |b| <= 3
    ensures |r| == 4 && forall k :: 0 <= k < 4 ==> Encoded(r[k])
    ensures r[0] != '=' && r[1] != '='
    ensures (r[2] == '=') == (|b| == 1) && (r[3] == '=') == (|b| < 3)
  {
    var b1 := if |b| > 1 then b[1] else 0;
    var b2 := if |b| > 2 then b[2] else 0;
    SextetBounds(b[0], b1, b2);
    ValueOfCharOf(Sextet0(b[0]));
    ValueOfCharOf(Sextet1(b[0], b1));
    ValueOfCharOf(Sextet2(b1, b2));
    ValueOfCharOf(Sextet3(b2));
    var c2 := if |b| > 1 then CharOf(Sextet2(b1, b2)) else '=';
    var c3 := if |b| > 2 then CharOf(Sextet3(b2)) else '=';
    [CharOf(Sextet0(b[0])), CharOf(Sextet1(b[0], b1)), c2, c3]
  }

  /** `b64encode`: four characters for every three bytes, the last group
      padded; the text never holds a comma. */
  function Encode(b: seq<byte>): (r: string)
    ensures |r| == 4 * ((|b| + 2) / 3)
    ensures forall k :: 0 <= k < |r| ==> Encoded(r[k])
    ensures ',' !in r
  {
    if b == [] then ""
    else if |b| <= 3 then EncodeGroup(b)
    else
      var head := EncodeGroup(b[..3]);
      var tail := Encode(b[3..]);
      assert forall k :: 4 <= k < |head + tail| ==> (head + tail)[k] == tail[k - 4];
      head + tail
  }

  /** The bytes of one group of four characters, the last group when it is
      padded; None when a character is outside the alphabet or padding is
      misplaced. */
  function DecodeGroup(g: string, last: bool): (r: Option<seq<byte>>)
    requires |g| == 4
    ensures r.Some? ==> 1 <= |r.value| <= 3 && (|r.value| < 3 ==> last)
  {
    var v0 := ValueOf(g[0]);
    var v1 := ValueOf(g[1]);
    var v2 := ValueOf(g[2]);
    var v3 := ValueOf(g[3]);
    if v0.None? || v1.None? then None
    else
      var x0 := Byte0(v0.value, v1.value);
      if g[2] == '=' then
        if g[3] == '=' && last then Some([x0]) else None
      else if v2.None? then None
      else
        var x1 := Byte1(v1.value, v2.value);
        if g[3] == '=' then
          if last then Some([x0, x1]) else None
        else if v3.None? then None
        else Some([x0, x1, Byte2(v2.value, v3.value)])
  }

  /** `b64decode` on text of alphabet and padding characters. */
  function Decode(s: string): (r: Option<seq<byte>>)
    decreases |s|
  {
    if s == [] then Some([])
    else if |s| < 4 then None
    else
      match DecodeGroup(s[..4], |s| == 4)
      case None => None
      case Some(head) =>
        match Decode(s[4..])
        case None => None
        case Some(tail) => Some(head + tail)
  }

  /** The characters of the 6-bit values decode to those values. */
  lemma ValuesOfGroup(b: seq<byte>)
    requires 1 <= |b| <= 3
    ensures var g := EncodeGroup(b);
      var b1 := if |b| > 1 then b[1] else 0;
      var b2 := if |b| > 2 then b[2] else 0;
      ValueOf(g[0]) == Some(Sextet0(b[0])) && ValueOf(g[1]) == Some(Sextet1(b[0], b1))
      && (|b| > 1 ==> ValueOf(g[2]) == Some(Sextet2(b1, b2)))
      && (|b| > 2 ==> ValueOf(g[3]) == Some(Sextet3(b2)))
  {
    var b1 := if |b| > 1 then b[1] else 0;
    var b2 := if |b| > 2 then b[2] else 0;
    SextetBounds(b[0], b1, b2);
    ValueOfCharOf(Sextet0(b[0]));
    ValueOfCharOf(Sextet1(b[0], b1));
    ValueOfCharOf(Sextet2(b1, b2));
    ValueOfCharOf(Sextet3(b2));
  }

  lemma DecodeFullGroup(g: string, last: bool, v0: nat, v1: nat, v2: nat, v3: nat)
    requires |g| == 4 && g[2] != '=' && g[3] != '='
    requires ValueOf(g[0]) == Some(v0) && ValueOf(g[1]) == Some(v1)
    requires ValueOf(g[2]) == Some(v2) && ValueOf(g[3]) == Some(v3)
    ensures DecodeGroup(g, last) == Some([Byte0(v0, v1), Byte1(v1, v2), Byte2(v2, v3)])
  {
  }

  lemma DecodeTwoByteGroup(g: string, v0: nat, v1: nat, v2: nat)
    requires |g| == 4 && g[2] != '=' && g[3] == '='
    requires ValueOf(g[0]) == Some(v0) && ValueOf(g[1]) == Some(v1) && ValueOf(g[2]) == Some(v2)
    ensures DecodeGroup(g, true) == Some([Byte0(v0, v1), Byte1(v1, v2)])
  {
  }

  lemma DecodeOneByteGroup(g: string, v0: nat, v1: nat)
    requires |g| == 4 && g[2] == '=' && g[3] == '='
    requires ValueOf(g[0]) == Some(v0) && ValueOf(g[1]) == Some(v1)
    ensures DecodeGroup(g, true) == Some([Byte0(v0, v1)])
  {
  }

  lemma GroupRoundTrip(b: seq<byte>, last: bool)
    requires 1 <= |b| <= 3 && (|b| < 3 ==> last)
    ensures DecodeGroup(EncodeGroup(b), last) == Some(b)
  {
    var b1 := if |b| > 1 then b[1] else 0;
    var b2 := if |b| > 2 then b[2] else 0;
    var v0, v1, v2, v3 := Sextet0(b[0]), Sextet1(b[0], b1), Sextet2(b1, b2), Sextet3(b2);
    ValuesOfGroup(b);
    Byte0Back(b[0], b1);
    var g := EncodeGroup(b);
    if |b| == 1 {
      DecodeOneByteGroup(g, v0, v1);
      assert b == [b[0]];
    } else if |b| == 2 {
      Byte1Back(b[0], b1, b2);
      DecodeTwoByteGroup(g, v0, v1, v2);
      assert b == [b[0], b[1]];
    } else {
      Byte1Back(b[0], b1, b2);
      Byte2Back(b1, b2);
      DecodeFullGroup(g, last, v0, v1, v2, v3);
      assert b == [b[0], b[1], b[2]];
    }
  }

  /** Decoding what was encoded gives the bytes back. */
  lemma {:induction false} DecodeEncode(b: seq<byte>)
    ensures Decode(Encode(b)) == Some(b)
    decreases |b|
  {
    if b == [] {
    } else if |b| <= 3 {
      GroupRoundTrip(b, true);
      var s := Encode(b);
      assert s[..4] == s && s[4..] == [];
      assert b + [] == b;
    } else {
      var head := EncodeGroup(b[..3]);
      var tail := Encode(b[3..]);
      var s := head + tail;
      assert s[..4] == head && s[4..] == tail;
      GroupRoundTrip(b[..3], |s| == 4);
      DecodeEncode(b[3..]);
      assert b[..3] + b[3..] == b;
    }
  }
}
