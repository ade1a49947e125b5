/**
 * The standard Base64 encoding of section 4 of RFC 4648 (alphabet A-Z a-z 0-9 + /,
 * with '=' padding), as used by Go's `base64.StdEncoding.EncodeToString`, and a
 * decoder that inverts it.
 */
module Base64 {
  import opened Wrappers

  /** One octet of a Go `[]byte`. */
  type byte = x: int | 0 <= x < 256

  /** A six-bit group, the value one alphabet character stands for. */
  type sextet = x: int | 0 <= x < 64

  const Padding: char := '='

  /** The character that encodes `v` (Table 1 of RFC 4648). */
  function CharOf(v: sextet): (c: char)
    ensures c != Padding
  {
    if v < 26 then ('A' as int + v) as char
    else if v < 52 then ('a' as int + (v - 26)) as char
    else if v < 62 then ('0' as int + (v - 52)) as char
    else if v == 62 then '+'
    else '/'
  }

  /** The value of an alphabet character; None for any other character. */
  function ValueOf(c: char): (r: Option<sextet>)
    ensures r.Some? ==> CharOf(r.value) == c
  {
    if 'A' <= c <= 'Z' then Some(c as int - 'A' as int)
    else if 'a' <= c <= 'z' then Some(c as int - 'a' as int + 26)
    else if '0' <= c <= '9' then Some(c as int - '0' as int + 52)
    else if c == '+' then Some(62)
    else if c == '/' then Some(63)
    else None
  }

  /** Every alphabet character decodes to the value it encodes. */
  lemma ValueOfCharOf(v: sextet)
    ensures ValueOf(CharOf(v)) == Some(v)
  {
  }

  /** Three octets become four characters. */
  function EncodeGroup(a: byte, b: byte, c: byte): seq<char> {
    [CharOf(a / 4), CharOf((a % 4) * 16 + b / 16), CharOf((b % 16) * 4 + c / 64), CharOf(c % 64)]
  }

  /** A final group of two octets: three characters and one pad. */
  function EncodeTwo(a: byte, b: byte): seq<char> {
    [CharOf(a / 4), CharOf((a % 4) * 16 + b / 16), CharOf((b % 16) * 4), Padding]
  }

  /** A final group of one octet: two characters and two pads. */
  function EncodeOne(a: byte): seq<char> {
    [CharOf(a / 4), CharOf((a % 4) * 16), Padding, Padding]
  }

  /** The padded encoding: four characters for every started group of three octets. */
  function Encode(data: seq<byte>): (s: string)
    ensures |s| == 4 * ((|data| + 2) / 3)
    decreases |data|
  {
    if |data| == 0 then ""
    else if |data| == 1 then EncodeOne(data[0])
    else if |data| == 2 then EncodeTwo(data[0], data[1])
    else EncodeGroup(data[0], data[1], data[2]) + Encode(data[3..])
  }

  /** Four unpadded characters become three octets. */
  function DecodeGroup(q: seq<char>): Option<seq<byte>>
    requires |q| == 4
  {
    match (ValueOf(q[0]), ValueOf(q[1]), ValueOf(q[2]), ValueOf(q[3]))
    case (Some(v0), Some(v1), Some(v2), Some(v3)) =>
      Some([v0 as int * 4 + v1 / 16, (v1 % 16) as int * 16 + v2 / 4, (v2 % 4) as int * 64 + v3])
    case _ => None
  }

  /** The last four characters, which may end in one or two pads. */
  function DecodeLast(q: seq<char>): Option<seq<byte>>
    requires |q| == 4
  {
    if q[2] == Padding && q[3] == Padding then
      match (ValueOf(q[0]), ValueOf(q[1]))
      case (Some(v0), Some(v1)) => Some([v0 as int * 4 + v1 / 16])
      case _ => None
    else if q[3] == Padding then
      match (ValueOf(q[0]), ValueOf(q[1]), ValueOf(q[2]))
      case (Some(v0), Some(v1), Some(v2)) => Some([v0 as int * 4 + v1 / 16, (v1 % 16) as int * 16 + v2 / 4])
      case _ => None
    else DecodeGroup(q)
  }

  /** The inverse of Encode; None for text that is not a padded encoding. */
  function Decode(s: string): Option<seq<byte>>
    decreases |s|
  {
    if |s| == 0 then Some([])
    else if |s| < 4 then None
    else if |s| == 4 then DecodeLast(s)
    else match (DecodeGroup(s[..4]), Decode(s[4..]))
      case (Some(g), Some(rest)) => Some(g + rest)
      case _ => None
  }

  lemma GroupRoundTrip(a: byte, b: byte, c: byte)
    ensures DecodeGroup(EncodeGroup(a, b, c)) == Some([a, b, c])
  {
    var q := EncodeGroup(a, b, c);
    ValueOfCharOf(a / 4);
    ValueOfCharOf((a % 4) * 16 + b / 16);
    ValueOfCharOf((b % 16) * 4 + c / 64);
    ValueOfCharOf(c % 64);
    assert ValueOf(q[0]) == Some(a / 4);
    assert ValueOf(q[1]) == Some((a % 4) * 16 + b / 16);
    assert ValueOf(q[2]) == Some((b % 16) * 4 + c / 64);
    assert ValueOf(q[3]) == Some(c % 64);
    assert ((a % 4) * 16 + b / 16) / 16 == a % 4;
    assert ((a % 4) * 16 + b / 16) % 16 == b / 16;
    assert ((b % 16) * 4 + c / 64) / 4 == b % 16;
    assert ((b % 16) * 4 + c / 64) % 4 == c / 64;
  }

  lemma TwoRoundTrip(a: byte, b: byte)
    ensures DecodeLast(EncodeTwo(a, b)) == Some([a, b])
  {
    var q := EncodeTwo(a, b);
    ValueOfCharOf(a / 4);
    ValueOfCharOf((a % 4) * 16 + b / 16);
    ValueOfCharOf((b % 16) * 4);
    assert ValueOf(q[0]) == Some(a / 4);
    assert ValueOf(q[1]) == Some((a % 4) * 16 + b / 16);
    assert ValueOf(q[2]) == Some((b % 16) * 4);
    assert ((a % 4) * 16 + b / 16) / 16 == a % 4;
    assert ((a % 4) * 16 + b / 16) % 16 == b / 16;
    assert ((b % 16) * 4) / 4 == b % 16;
  }

  lemma OneRoundTrip(a: byte)
    ensures DecodeLast(EncodeOne(a)) == Some([a])
  {
    var q := EncodeOne(a);
    ValueOfCharOf(a / 4);
    ValueOfCharOf((a % 4) * 16);
    assert ValueOf(q[0]) == Some(a / 4);
    assert ValueOf(q[1]) == Some((a % 4) * 16);
    assert ((a % 4) * 16) / 16 == a % 4;
  }

  /** Text made of a decodable group and decodable rest decodes to both, in order. */
  lemma DecodeSplit(g: seq<char>, t: string, x: seq<byte>, y: seq<byte>)
    requires |g| == 4 && |t| > 0
    requires DecodeGroup(g) == Some(x) && Decode(t) == Some(y)
    ensures Decode(g + t) == Some(x + y)
  {
    var s := g + t;
    assert s[..4] == g;
    assert s[4..] == t;
  }

  /** Encoding at least three octets encodes the first three, then the rest. */
  lemma EncodeSplit(data: seq<byte>)
    requires |data| >= 3
    ensures Encode(data) == EncodeGroup(data[0], data[1], data[2]) + Encode(data[3..])
  {
  }

  /** Four characters are the last group. */
  lemma DecodeFour(q: seq<char>)
    requires |q| == 4
    ensures Decode(q) == DecodeLast(q)
  {
  }

  /** An unpadded last group decodes like any other group. */
  lemma DecodeLastFull(a: byte, b: byte, c: byte)
    ensures DecodeLast(EncodeGroup(a, b, c)) == DecodeGroup(EncodeGroup(a, b, c))
  {
  }

  lemma DecodeEncodeOne(data: seq<byte>)
    requires |data| == 1
    ensures Decode(Encode(data)) == Some(data)
  {
    assert Encode(data) == EncodeOne(data[0]);
    DecodeFour(EncodeOne(data[0]));
    OneRoundTrip(data[0]);
    assert [data[0]] == data;
  }

  lemma DecodeEncodeTwo(data: seq<byte>)
    requires |data| == 2
    ensures Decode(Encode(data)) == Some(data)
  {
    assert Encode(data) == EncodeTwo(data[0], data[1]);
    DecodeFour(EncodeTwo(data[0], data[1]));
    TwoRoundTrip(data[0], data[1]);
    assert [data[0], data[1]] == data;
  }

  lemma DecodeEncodeThree(data: seq<byte>)
    requires |data| == 3
    ensures Decode(Encode(data)) == Some(data)
  {
    var g := EncodeGroup(data[0], data[1], data[2]);
    EncodeSplit(data);
    assert Encode(data[3..]) == "";
    assert Encode(data) == g;
    DecodeFour(g);
    DecodeLastFull(data[0], data[1], data[2]);
    GroupRoundTrip(data[0], data[1], data[2]);
    assert [data[0], data[1], data[2]] == data;
  }

  /** Decoding an encoding gives back the octets: the round trip. */
  lemma {:induction false} DecodeEncode(data: seq<byte>)
    ensures Decode(Encode(data)) == Some(data)
    decreases |data|
  {
    if |data| == 0 {
    } else if |data| == 1 {
      DecodeEncodeOne(data);
    } else if |data| == 2 {
      DecodeEncodeTwo(data);
    } else if |data| == 3 {
      DecodeEncodeThree(data);
    } else {
      var g := EncodeGroup(data[0], data[1], data[2]);
      var t := Encode(data[3..]);
      EncodeSplit(data);
      GroupRoundTrip(data[0], data[1], data[2]);
      DecodeEncode(data[3..]);
      DecodeSplit(g, t, [data[0], data[1], data[2]], data[3..]);
      assert [data[0], data[1], data[2]] + data[3..] == data;
    }
  }

  /** Distinct octet strings encode to distinct text. */
  lemma EncodeInjective(x: seq<byte>, y: seq<byte>)
    ensures Encode(x) == Encode(y) ==> x == y
  {
    DecodeEncode(x);
    DecodeEncode(y);
  }

  /** The test vectors of section 10 of RFC 4648 ("", "f", "fo", ..., "foobar" as octets). */
  lemma EncodeTestVectors()
    ensures Encode([]) == ""
    ensures Encode([102]) == "Zg=="
    ensures Encode([102, 111]) == "Zm8="
    ensures Encode([102, 111, 111]) == "Zm9v"
    ensures Encode([102, 111, 111, 98]) == "Zm9vYg=="
    ensures Encode([102, 111, 111, 98, 97]) == "Zm9vYmE="
    ensures Encode([102, 111, 111, 98, 97, 114]) == "Zm9vYmFy"
  {
  }
}
