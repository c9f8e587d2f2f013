/**
 * Base64 as in section 4 of RFC 4648, decoded strictly the way
 * `Data(base64Encoded:options: [])` is used by the service: the length must
 * be a multiple of 4, every character must be in the alphabet except for
 * one or two '=' that pad the final quantum, and nothing else (no line
 * breaks, no whitespace) is skipped.
 */
module Base64 {
  import opened PhotoStore

  type byte = x: int | 0 <= x < 256

  /** The value of one alphabet character (table 1 of RFC 4648). */
  function SextetOf(c: char): (r: Option<int>)
    ensures r.Some? ==> 0 <= r.value < 64
  {
    if 'A' <= c <= 'Z' then Some(c as int - 'A' as int)
    else if 'a' <= c <= 'z' then Some(c as int - 'a' as int + 26)
    else if '0' <= c <= '9' then Some(c as int - '0' as int + 52)
    else if c == '+' then Some(62)
    else if c == '/' then Some(63)
    else None
  }

  /** The alphabet character of a 6-bit value. */
  function CharOf(v: int): (c: char)
    requires 0 <= v < 64
    ensures SextetOf(c) == Some(v)
    ensures c != '='
  {
    if v < 26 then ('A' as int + v) as char
    else if v < 52 then ('a' as int + v - 26) as char
    else if v < 62 then ('0' as int + v - 52) as char
    else if v == 62 then '+'
    else '/'
  }

  predicate InAlphabet(c: char) {
    SextetOf(c).Some?
  }

  /** Four alphabet characters carry three bytes. */
  function DecodeFull(a: char, b: char, c: char, d: char): (r: Option<seq<byte>>)
    ensures r.Some? ==> |r.value| == 3
  {
    match (SextetOf(a), SextetOf(b), SextetOf(c), SextetOf(d))
    case (Some(i0), Some(i1), Some(i2), Some(i3)) =>
      Some([i0 * 4 + i1 / 16, (i1 % 16) * 16 + i2 / 4, (i2 % 4) * 64 + i3])
    case _ => None
  }

  /** The last quantum: "xx==" carries one byte, "xxx=" two, "xxxx" three. */
  function DecodeFinal(a: char, b: char, c: char, d: char): (r: Option<seq<byte>>)
    ensures r.Some? ==> 1 <= |r.value| <= 3
  {
    if c == '=' && d == '=' then
      match (SextetOf(a), SextetOf(b))
      case (Some(i0), Some(i1)) => Some([i0 * 4 + i1 / 16])
      case _ => None
    else if d == '=' then
      match (SextetOf(a), SextetOf(b), SextetOf(c))
      case (Some(i0), Some(i1), Some(i2)) => Some([i0 * 4 + i1 / 16, (i1 % 16) * 16 + i2 / 4])
      case _ => None
    else DecodeFull(a, b, c, d)
  }

  function DecodeQuanta(s: string): Option<seq<byte>>
    requires |s| % 4 == 0
    decreases |s|
  {
    if s == [] then Some([])
    else if |s| == 4 then DecodeFinal(s[0], s[1], s[2], s[3])
    else
      match DecodeFull(s[0], s[1], s[2], s[3])
      case None => None
      case Some(head) =>
        match DecodeQuanta(s[4..])
        case None => None
        case Some(tail) => Some(head + tail)
  }

  /** Strict decoding; `None` is Foundation's nil result. */
  function Decode(s: string): Option<seq<byte>> {
    if |s| % 4 != 0 then None else DecodeQuanta(s)
  }

  /** One full quantum: three bytes as four characters. */
  function EncodeThree(x: byte, y: byte, z: byte): (q: string)
    ensures |q| == 4 && q[2] != '=' && q[3] != '=' && ';' !in q
    ensures DecodeFull(q[0], q[1], q[2], q[3]) == Some([x, y, z])
  {
    var i1 := (x % 4) * 16 + y / 16;
    var i2 := (y % 16) * 4 + z / 64;
    assert i1 / 16 == x % 4 && i1 % 16 == y / 16;
    assert i2 / 4 == y % 16 && i2 % 4 == z / 64;
    [CharOf(x / 4), CharOf(i1), CharOf(i2), CharOf(z % 64)]
  }

  /** A final quantum holding two bytes, padded with one '='. */
  function EncodeTwo(x: byte, y: byte): (q: string)
    ensures |q| == 4 && ';' !in q
    ensures DecodeFinal(q[0], q[1], q[2], q[3]) == Some([x, y])
  {
    var i1 := (x % 4) * 16 + y / 16;
    var i2 := (y % 16) * 4;
    assert i1 / 16 == x % 4 && i1 % 16 == y / 16;
    assert i2 / 4 == y % 16;
    [CharOf(x / 4), CharOf(i1), CharOf(i2), '=']
  }

  /** A final quantum holding one byte, padded with two '='. */
  function EncodeOne(x: byte): (q: string)
    ensures |q| == 4 && ';' !in q
    ensures DecodeFinal(q[0], q[1], q[2], q[3]) == Some([x])
  {
    var i1 := (x % 4) * 16;
    assert i1 / 16 == x % 4;
    [CharOf(x / 4), CharOf(i1), '=', '=']
  }

  /** The reference encoder, with '=' padding. */
  function Encode(b: seq<byte>): (s: string)
    ensures |s| % 4 == 0
    ensures |s| == 0 <==> |b| == 0
    ensures ';' !in s
    decreases |b|
  {
    if |b| == 0 then ""
    else if |b| == 1 then EncodeOne(b[0])
    else if |b| == 2 then EncodeTwo(b[0], b[1])
    else
      var q, rest := EncodeThree(b[0], b[1], b[2]), Encode(b[3..]);
      QuantumKeepsLength(|rest|);
      assert |q + rest| == |rest| + 4;
      q + rest
  }

  /** One more quantum keeps the length a multiple of four. */
  lemma QuantumKeepsLength(n: nat)
    requires n % 4 == 0
    ensures (n + 4) % 4 == 0
  {
  }

  /** A full quantum in front of a decodable, non-empty rest decodes to its bytes in front of the rest's. */
  lemma DecodeQuantaCons(q: string, rest: string, head: seq<byte>, tail: seq<byte>)
    requires |q| == 4 && |rest| > 0 && |rest| % 4 == 0
    requires DecodeFull(q[0], q[1], q[2], q[3]) == Some(head)
    requires DecodeQuanta(rest) == Some(tail)
    ensures DecodeQuanta(q + rest) == Some(head + tail)
  {
    var s := q + rest;
    assert s[0] == q[0] && s[1] == q[1] && s[2] == q[2] && s[3] == q[3];
    assert s[4..] == rest;
  }

  /** Three or more bytes encode as one full quantum in front of the rest's encoding. */
  lemma EncodeCons(b: seq<byte>)
    requires |b| >= 3
    ensures Encode(b) == EncodeThree(b[0], b[1], b[2]) + Encode(b[3..])
  {
  }

  lemma SplitThree(b: seq<byte>)
    requires |b| >= 3
    ensures [b[0], b[1], b[2]] + b[3..] == b
  {
  }

  /** Decoding undoes encoding: every byte string comes back from its base64 text. */
  lemma {:induction false} DecodeEncode(b: seq<byte>)
    ensures Decode(Encode(b)) == Some(b)
    decreases |b|
  {
    if |b| == 1 {
      assert [b[0]] == b;
    } else if |b| == 2 {
      assert [b[0], b[1]] == b;
    } else if |b| >= 3 {
      var q, rest := EncodeThree(b[0], b[1], b[2]), b[3..];
      EncodeCons(b);
      SplitThree(b);
      if |b| == 3 {
        assert Encode(b) == q && DecodeQuanta(q) == DecodeFinal(q[0], q[1], q[2], q[3]);
        assert DecodeFinal(q[0], q[1], q[2], q[3]) == DecodeFull(q[0], q[1], q[2], q[3]);
        assert rest == [] && [b[0], b[1], b[2]] + rest == [b[0], b[1], b[2]];
      } else {
        DecodeEncode(rest);
        DecodeQuantaCons(q, Encode(rest), [b[0], b[1], b[2]], rest);
      }
    }
  }

  /** What strict decoding accepts: only alphabet characters and '=' appear. */
  lemma {:induction false} DecodedIsAlphabet(s: string)
    requires |s| % 4 == 0 && DecodeQuanta(s).Some?
    ensures forall k :: 0 <= k < |s| ==> InAlphabet(s[k]) || s[k] == '='
    decreases |s|
  {
    if |s| > 4 {
      DecodedIsAlphabet(s[4..]);
      forall k | 4 <= k < |s| ensures InAlphabet(s[k]) || s[k] == '=' {
        assert s[k] == s[4..][k - 4];
      }
    }
  }

  /** A string with a character outside the alphabet that is not the pad never decodes. */
  lemma Rejects(s: string, k: nat)
    requires k < |s| && !InAlphabet(s[k]) && s[k] != '='
    ensures Decode(s) == None
  {
    if |s| % 4 == 0 && DecodeQuanta(s).Some? {
      DecodedIsAlphabet(s);
      assert false;
    }
  }
}
