/**
 * Standard base64 with padding (section 4 of RFC 4648), the encoding the
 * machine reconciler applies to the bootstrap data before it becomes the
 * VM's cloud-init user data. Decode is the reference inverse used to state
 * what the encoding preserves.
 */
module Base64 {
  import opened Errors

  newtype byte = x: int | 0 <= x < 256

  /** A base64 digit's value. */
  type sextet = x: int | 0 <= x < 64

  /** The digit for a value: A-Z, a-z, 0-9, '+', '/'. */
  function CharOf(v: sextet): char {
    if v < 26 then ('A' as int + v) as char
    else if v < 52 then ('a' as int + (v - 26)) as char
    else if v < 62 then ('0' as int + (v - 52)) as char
    else if v == 62 then '+'
    else '/'
  }

  /** The value of a digit; None for any other character, padding included. */
  function ValueOf(c: char): (r: Option<sextet>)
    ensures r.Some? ==> CharOf(r.value) == c
  {
    if 'A' <= c <= 'Z' then Some(c as int - 'A' as int)
    else if 'a' <= c <= 'z' then Some(c as int - 'a' as int + 26)
    else if '0' <= c <= '9' then Some(c as int - '0' as int + 52)
    else if c == '+' then Some(62)
    else if c == '/' then Some(63)
    else None
  }

  lemma ValueOfCharOf(v: sextet)
    ensures ValueOf(CharOf(v)) == Some(v)
  {
  }

  /** A character that can appear in an encoding. */
  predicate IsEncodingChar(c: char) {
    ValueOf(c).Some? || c == '='
  }

  // The three bytes b0 b1 b2 of a block split into four sextets.

  function Sextets(b0: byte, b1: byte, b2: byte): (s: (sextet, sextet, sextet, sextet))
  {
    ((b0 as int / 4) as sextet,
     ((b0 as int % 4) * 16 + b1 as int / 16) as sextet,
     ((b1 as int % 16) * 4 + b2 as int / 64) as sextet,
     (b2 as int % 64) as sextet)
  }

  function Bytes(c0: sextet, c1: sextet, c2: sextet, c3: sextet): (b: (byte, byte, byte))
  {
    ((c0 * 4 + c1 / 16) as byte,
     ((c1 % 16) * 16 + c2 / 4) as byte,
     ((c2 % 4) * 64 + c3) as byte)
  }

  /** Splitting three bytes into sextets and joining them back is the identity. */
  lemma BytesOfSextets(b0: byte, b1: byte, b2: byte)
    ensures var s := Sextets(b0, b1, b2); Bytes(s.0, s.1, s.2, s.3) == (b0, b1, b2)
  {
    var x0, x1, x2 := b0 as int, b1 as int, b2 as int;
    assert (x0 / 4) * 4 + ((x0 % 4) * 16 + x1 / 16) / 16 == x0;
    assert (((x0 % 4) * 16 + x1 / 16) % 16) * 16 + ((x1 % 16) * 4 + x2 / 64) / 4 == x1;
    assert (((x1 % 16) * 4 + x2 / 64) % 4) * 64 + x2 % 64 == x2;
  }

  /** One block of encoding: 1, 2 or 3 bytes give 4 characters, padded with '='. */
  function EncodeBlock(b: seq<byte>): (r: string)
    requires 1 <= |b| <= 3
    ensures |r| == 4
    ensures forall i :: 0 <= i < 4 ==> IsEncodingChar(r[i])
  {
    var s := Sextets(b[0], if |b| > 1 then b[1] else 0, if |b| > 2 then b[2] else 0);
    [CharOf(s.0), CharOf(s.1)] +
    [if |b| > 1 then CharOf(s.2) else '='] +
    [if |b| > 2 then CharOf(s.3) else '=']
  }

  /** `base64.StdEncoding.EncodeToString`. */
  function Encode(b: seq<byte>): (r: string)
    ensures |r| == 4 * ((|b| + 2) / 3)
    ensures forall i :: 0 <= i < |r| ==> IsEncodingChar(r[i])
    decreases |b|
  {
    if |b| == 0 then ""
    else if |b| <= 3 then EncodeBlock(b)
    else
      var h, t := EncodeBlock(b[..3]), Encode(b[3..]);
      assert forall i :: 4 <= i < |h + t| ==> (h + t)[i] == t[i - 4];
      assert (|b| + 2) / 3 == (|b| - 3 + 2) / 3 + 1;
      h + t
  }

  /** One block of decoding: four characters back to 1, 2 or 3 bytes. */
  function DecodeBlock(q: string): Option<seq<byte>>
    requires |q| == 4
  {
    var v0, v1 := ValueOf(q[0]), ValueOf(q[1]);
    if v0.None? || v1.None? then None
    else if q[2] == '=' && q[3] == '=' then
      var b := Bytes(v0.value, v1.value, 0, 0);
      Some([b.0])
    else
      var v2 := ValueOf(q[2]);
      if v2.None? then None
      else if q[3] == '=' then
        var b := Bytes(v0.value, v1.value, v2.value, 0);
        Some([b.0, b.1])
      else
        var v3 := ValueOf(q[3]);
        if v3.None? then None
        else
          var b := Bytes(v0.value, v1.value, v2.value, v3.value);
          Some([b.0, b.1, b.2])
  }

  /** Reference decoder: blocks of four characters, padding only in the last. */
  function Decode(s: string): Option<seq<byte>>
    decreases |s|
  {
    if |s| == 0 then Some([])
    else if |s| < 4 then None
    else
      var head := DecodeBlock(s[..4]);
      if head.None? then None
      else if |s| == 4 then head
      else if |head.value| < 3 then None
      else
        var tail := Decode(s[4..]);
        if tail.None? then None else Some(head.value + tail.value)
  }

  lemma {:induction false} DecodeBlockEncodeBlock(b: seq<byte>)
    requires 1 <= |b| <= 3
    ensures DecodeBlock(EncodeBlock(b)) == Some(b)
  {
    var b1: byte := if |b| > 1 then b[1] else 0;
    var b2: byte := if |b| > 2 then b[2] else 0;
    var s := Sextets(b[0], b1, b2);
    BytesOfSextets(b[0], b1, b2);
    ValueOfCharOf(s.0);
    ValueOfCharOf(s.1);
    ValueOfCharOf(s.2);
    ValueOfCharOf(s.3);
    var q := EncodeBlock(b);
    assert q[0] == CharOf(s.0) && q[1] == CharOf(s.1);
    if |b| == 1 {
      assert q[2] == '=' && q[3] == '=';
      // The dropped sextets do not reach the first byte.
      assert Bytes(s.0, s.1, 0, 0).0 == Bytes(s.0, s.1, s.2, s.3).0;
      assert b == [b[0]];
    } else if |b| == 2 {
      assert q[2] == CharOf(s.2) && q[3] == '=';
      assert Bytes(s.0, s.1, s.2, 0).0 == Bytes(s.0, s.1, s.2, s.3).0;
      assert Bytes(s.0, s.1, s.2, 0).1 == Bytes(s.0, s.1, s.2, s.3).1;
      assert b == [b[0], b[1]];
    } else {
      assert b == [b[0], b[1], b[2]];
      assert q[2] == CharOf(s.2) && q[3] == CharOf(s.3);
    }
  }

  /** Decoding an encoding gives back the bytes: the cloud-init user data
      carries the bootstrap data unchanged. */
  lemma {:induction false} DecodeEncode(b: seq<byte>)
    ensures Decode(Encode(b)) == Some(b)
    decreases |b|
  {
    if |b| == 0 {
    } else if |b| <= 3 {
      DecodeBlockEncodeBlock(b);
    } else {
      var e := Encode(b);
      assert e[..4] == EncodeBlock(b[..3]);
      assert e[4..] == Encode(b[3..]);
      DecodeBlockEncodeBlock(b[..3]);
      DecodeEncode(b[3..]);
      assert b[..3] + b[3..] == b;
    }
  }

  /** Encoding is injective: different bootstrap data never share user data. */
  lemma EncodeInjective(a: seq<byte>, b: seq<byte>)
    requires Encode(a) == Encode(b)
    ensures a == b
  {
    DecodeEncode(a);
    DecodeEncode(b);
  }
}
