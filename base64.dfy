/**
 * `stringToBase64`: the UTF-8 bytes of a string, written in the base64
 * alphabet of section 4 of RFC 4648 (`A`-`Z`, `a`-`z`, `0`-`9`, `+`, `/`),
 * three bytes to four characters, with `=` padding at the end.
 */
module Base64 {
  import opened Wrappers

  type byte = x: int | 0 <= x < 256
  /** A six-bit value: one character of the alphabet. */
  type sextet = x: int | 0 <= x < 64

  // ---------------------------------------------------------------------
  // UTF-8 (`TextEncoder.encode`, `Buffer.from`)

  /** The UTF-8 encoding of one Unicode scalar value: one to four bytes. */
  function Utf8Char(c: char): (bs: seq<byte>)
    ensures 1 <= |bs| <= 4
    ensures |bs| == 1 <==> (c as int) < 0x80
    ensures |bs| == 1 ==> bs[0] == c as int
  {
    var n := c as int;
    if n < 0x80 then [n]
    else if n < 0x800 then [0xC0 + n / 0x40, 0x80 + n % 0x40]
    else if n < 0x10000 then [0xE0 + n / 0x1000, 0x80 + (n / 0x40) % 0x40, 0x80 + n % 0x40]
    else [0xF0 + n / 0x40000, 0x80 + (n / 0x1000) % 0x40, 0x80 + (n / 0x40) % 0x40, 0x80 + n % 0x40]
  }

  /** The UTF-8 encoding of a string. */
  function Utf8(s: string): (bs: seq<byte>)
    ensures |s| <= |bs| <= 4 * |s|
  {
    if s == [] then [] else Utf8Char(s[0]) + Utf8(s[1..])
  }

  predicate Ascii(s: string)
  {
    forall i :: 0 <= i < |s| ==> (s[i] as int) < 0x80
  }

  /** ASCII text is its own encoding: one byte per character, equal to its code. */
  lemma {:induction false} Utf8Ascii(s: string)
    requires Ascii(s)
    ensures |Utf8(s)| == |s|
    ensures forall i :: 0 <= i < |s| ==> Utf8(s)[i] == s[i] as int
  {
    if s != [] {
      assert Ascii(s[1..]) by {
        forall i | 0 <= i < |s[1..]| ensures (s[1..][i] as int) < 0x80 {
          assert s[1..][i] == s[i + 1];
        }
      }
      Utf8Ascii(s[1..]);
      assert Utf8(s) == [s[0] as int] + Utf8(s[1..]);
    }
  }

  /** A character outside ASCII takes more than one byte, so the encoding is longer than the text. */
  lemma {:induction false} Utf8Longer(s: string, i: nat)
    requires i < |s| && (s[i] as int) >= 0x80
    ensures |Utf8(s)| > |s|
  {
    if i > 0 {
      assert s[1..][i - 1] == s[i];
      Utf8Longer(s[1..], i - 1);
    }
  }

  // ---------------------------------------------------------------------
  // Base64 (section 4 of RFC 4648)

  /** The character for a six-bit value. */
  function CharOf(v: sextet): (c: char)
    ensures c != '='
  {
    if v < 26 then ('A' as int + v) as char
    else if v < 52 then ('a' as int + (v - 26)) as char
    else if v < 62 then ('0' as int + (v - 52)) as char
    else if v == 62 then '+'
    else '/'
  }

  /** The six-bit value of an alphabet character; `None` outside the alphabet. */
  function ValueOf(c: char): (v: Option<sextet>)
  {
    if 'A' <= c <= 'Z' then Some(c as int - 'A' as int)
    else if 'a' <= c <= 'z' then Some(c as int - 'a' as int + 26)
    else if '0' <= c <= '9' then Some(c as int - '0' as int + 52)
    else if c == '+' then Some(62)
    else if c == '/' then Some(63)
    else None
  }

  /** The alphabet is one-to-one: every character maps back to its value. */
  lemma ValueOfCharOf(v: sextet)
    ensures ValueOf(CharOf(v)) == Some(v)
  {
  }

  /** The four characters of three bytes. */
  function Three(x: byte, y: byte, z: byte): (g: string)
    ensures |g| == 4 && '=' !in g
  {
    [CharOf(x / 4), CharOf((x % 4) * 16 + y / 16), CharOf((y % 16) * 4 + z / 64), CharOf(z % 64)]
  }

  /** The four characters of two final bytes: three of them, then one `=`. */
  function Two(x: byte, y: byte): (g: string)
    ensures |g| == 4 && g[3] == '=' && g[2] != '='
  {
    [CharOf(x / 4), CharOf((x % 4) * 16 + y / 16), CharOf((y % 16) * 4), '=']
  }

  /** The four characters of one final byte: two of them, then `==`. */
  function One(x: byte): (g: string)
    ensures |g| == 4 && g[2] == '=' && g[3] == '='
  {
    [CharOf(x / 4), CharOf((x % 4) * 16), '=', '=']
  }

  /** Four characters for the next three bytes, or for the one or two at the end with `=` padding. */
  function Encode(b: seq<byte>): (s: string)
    ensures |s| == 4 * ((|b| + 2) / 3)
    decreases |b|
  {
    if |b| == 0 then ""
    else if |b| == 1 then One(b[0])
    else if |b| == 2 then Two(b[0], b[1])
    else Three(b[0], b[1], b[2]) + Encode(b[3..])
  }

  /** A string four times a count long splits into whole quadruples. */
  lemma QuadrupleLength(r: string, groups: nat)
    requires |r| == 4 * groups
    ensures |r| % 4 == 0
  {
  }

  /** `stringToBase64`. */
  function StringToBase64(s: string): (r: string)
    ensures |r| % 4 == 0
  {
    var r := Encode(Utf8(s));
    QuadrupleLength(r, (|Utf8(s)| + 2) / 3);
    r
  }

  /** Reads a group of four characters back into its bytes. */
  function DecodeGroup(g: string): (r: Option<seq<byte>>)
    requires |g| == 4
  {
    var a, b := ValueOf(g[0]), ValueOf(g[1]);
    if a.None? || b.None? then None
    else if g[2] == '=' && g[3] == '=' then
      Some([a.value * 4 + b.value / 16])
    else
      var c := ValueOf(g[2]);
      if c.None? then None
      else if g[3] == '=' then
        Some([a.value * 4 + b.value / 16, (b.value % 16) * 16 + c.value / 4])
      else
        var d := ValueOf(g[3]);
        if d.None? then None
        else Some([a.value * 4 + b.value / 16, (b.value % 16) * 16 + c.value / 4, (c.value % 4) * 64 + d.value])
  }

  /** Base64 decoding: the inverse of `Encode`, with `None` for text that is not base64. */
  function Decode(s: string): (r: Option<seq<byte>>)
    decreases |s|
  {
    if |s| == 0 then Some([])
    else if |s| < 4 then None
    else
      match DecodeGroup(s[..4])
      case None => None
      case Some(g) =>
        if |g| < 3 && |s| > 4 then None
        else
          match Decode(s[4..])
          case None => None
          case Some(rest) => Some(g + rest)
  }

  lemma GroupOfThree(x: byte, y: byte, z: byte)
    ensures DecodeGroup(Three(x, y, z)) == Some([x, y, z])
  {
    var a: sextet, b: sextet := x / 4, (x % 4) * 16 + y / 16;
    var c: sextet, d: sextet := (y % 16) * 4 + z / 64, z % 64;
    ValueOfCharOf(a);
    ValueOfCharOf(b);
    ValueOfCharOf(c);
    ValueOfCharOf(d);
    Sixteenths(x % 4, y / 16);
    Quarters(y % 16, z / 64);
    assert a * 4 + b / 16 == x;
    assert (b % 16) * 16 + c / 4 == y;
    assert (c % 4) * 64 + d == z;
  }

  /** Splitting a sextet made of a high part and a low nibble. */
  lemma Sixteenths(q: int, r: int)
    requires 0 <= q && 0 <= r < 16
    ensures (q * 16 + r) / 16 == q && (q * 16 + r) % 16 == r
  {
  }

  /** Splitting a sextet made of a high part and a low pair of bits. */
  lemma Quarters(q: int, r: int)
    requires 0 <= q && 0 <= r < 4
    ensures (q * 4 + r) / 4 == q && (q * 4 + r) % 4 == r
  {
  }

  lemma GroupOfTwo(x: byte, y: byte)
    ensures DecodeGroup(Two(x, y)) == Some([x, y])
  {
    var a: sextet, b: sextet, c: sextet := x / 4, (x % 4) * 16 + y / 16, (y % 16) * 4;
    ValueOfCharOf(a);
    ValueOfCharOf(b);
    ValueOfCharOf(c);
    Sixteenths(x % 4, y / 16);
    Quarters(y % 16, 0);
    assert a * 4 + b / 16 == x;
    assert (b % 16) * 16 + c / 4 == y;
  }

  lemma GroupOfOne(x: byte)
    ensures DecodeGroup(One(x)) == Some([x])
  {
    ValueOfCharOf(x / 4);
    ValueOfCharOf((x % 4) * 16);
  }

  /** A final group is decoded on its own. */
  lemma DecodeLast(g: string, bytes: seq<byte>)
    requires |g| == 4 && DecodeGroup(g) == Some(bytes)
    ensures Decode(g) == Some(bytes)
  {
    assert g[..4] == g && g[4..] == [];
    assert bytes + [] == bytes;
  }

  /** A full group is decoded ahead of the rest. */
  lemma DecodeThree(x: byte, y: byte, z: byte, rest: seq<byte>)
    requires Decode(Encode(rest)) == Some(rest)
    ensures Decode(Encode([x, y, z] + rest)) == Some([x, y, z] + rest)
  {
    var s := Encode([x, y, z] + rest);
    EncodeThree(x, y, z, rest);
    GroupOfThree(x, y, z);
    assert s[..4] == Three(x, y, z) && s[4..] == Encode(rest);
  }

  /** A sequence of at least three bytes is its first three followed by the rest. */
  lemma FirstThree(b: seq<byte>)
    requires |b| >= 3
    ensures b == [b[0], b[1], b[2]] + b[3..]
  {
  }

  /** The round trip carries over to an equal sequence written as a concatenation. */
  lemma DecodeLonger(b: seq<byte>, head: seq<byte>, rest: seq<byte>)
    requires b == head + rest && Decode(Encode(head + rest)) == Some(head + rest)
    ensures Decode(Encode(b)) == Some(b)
  {
  }

  /** Decoding the encoding gives the bytes back. */
  lemma {:induction false} DecodeEncode(b: seq<byte>)
    ensures Decode(Encode(b)) == Some(b)
    decreases |b|
  {
    if |b| == 1 {
      DecodeEncodeOne(b);
    } else if |b| == 2 {
      DecodeEncodeTwo(b);
    } else if |b| >= 3 {
      DecodeEncode(b[3..]);
      DecodeThree(b[0], b[1], b[2], b[3..]);
      FirstThree(b);
      DecodeLonger(b, [b[0], b[1], b[2]], b[3..]);
    }
  }

  lemma DecodeEncodeOne(b: seq<byte>)
    requires |b| == 1
    ensures Decode(Encode(b)) == Some(b)
  {
    assert Encode(b) == One(b[0]);
    GroupOfOne(b[0]);
    DecodeLast(One(b[0]), [b[0]]);
    assert b == [b[0]];
  }

  lemma DecodeEncodeTwo(b: seq<byte>)
    requires |b| == 2
    ensures Decode(Encode(b)) == Some(b)
  {
    assert Encode(b) == Two(b[0], b[1]);
    GroupOfTwo(b[0], b[1]);
    DecodeLast(Two(b[0], b[1]), [b[0], b[1]]);
    assert b == [b[0], b[1]];
  }

  /** Different strings never share an encoding. */
  lemma EncodeInjective(b1: seq<byte>, b2: seq<byte>)
    requires Encode(b1) == Encode(b2)
    ensures b1 == b2
  {
    DecodeEncode(b1);
    DecodeEncode(b2);
  }

  /** Three bytes become four characters ahead of the encoding of the rest. */
  lemma EncodeThree(x: byte, y: byte, z: byte, rest: seq<byte>)
    ensures Encode([x, y, z] + rest) == Three(x, y, z) + Encode(rest)
  {
    assert ([x, y, z] + rest)[3..] == rest;
  }

  /** `stringToBase64('Hello')`. */
  lemma HelloVector()
    ensures StringToBase64("Hello") == "SGVsbG8="
  {
    var b := [72, 101, 108, 108, 111];
    AsciiBytes("Hello", b);
    HelloEncoded(b);
  }

  lemma HelloEncoded(b: seq<byte>)
    requires b == [72, 101, 108, 108, 111]
    ensures Encode(b) == "SGVsbG8="
  {
    EncodeThree(72, 101, 108, [108, 111]);
    assert b == [72, 101, 108] + [108, 111];
    HelloGroups();
  }

  lemma HelloGroups()
    ensures Three(72, 101, 108) == "SGVs" && Encode([108, 111]) == "bG8="
  {
    assert Encode([108, 111]) == Two(108, 111);
  }

  /** `stringToBase64('Hello, World!')`. */
  lemma HelloWorldVector()
    ensures StringToBase64("Hello, World!") == "SGVsbG8sIFdvcmxkIQ=="
  {
    var b := [72, 101, 108, 108, 111, 44, 32, 87, 111, 114, 108, 100, 33];
    AsciiBytes("Hello, World!", b);
    HelloWorldEncoded(b);
  }

  /** The bytes of an ASCII text are its character codes. */
  lemma AsciiBytes(s: string, b: seq<byte>)
    requires |s| == |b| && forall i :: 0 <= i < |s| ==> (s[i] as int) < 0x80 && b[i] == s[i] as int
    ensures Utf8(s) == b
  {
    Utf8Ascii(s);
  }

  lemma HelloWorldEncoded(b: seq<byte>)
    requires b == [72, 101, 108, 108, 111, 44, 32, 87, 111, 114, 108, 100, 33]
    ensures Encode(b) == "SGVsbG8sIFdvcmxkIQ=="
  {
    FourGroupsAndOne(b);
    HelloWorldGroups();
  }

  /** Thirteen bytes are four full groups and a padded one. */
  lemma FourGroupsAndOne(b: seq<byte>)
    requires |b| == 13
    ensures Encode(b) == Three(b[0], b[1], b[2]) + (Three(b[3], b[4], b[5]) + (Three(b[6], b[7], b[8])
      + (Three(b[9], b[10], b[11]) + One(b[12]))))
  {
    var b3, b6, b9 := b[3..], b[6..], b[9..];
    EncodeStep(b);
    EncodeStep(b3);
    assert b3[..3] == b[3..6] && b3[3..] == b6;
    EncodeStep(b6);
    assert b6[..3] == b[6..9] && b6[3..] == b9;
    EncodeStep(b9);
    assert b9[..3] == b[9..12] && b9[3..] == [b[12]];
  }

  /** The first three bytes of a longer sequence are one group. */
  lemma EncodeStep(b: seq<byte>)
    requires |b| >= 3
    ensures Encode(b) == Three(b[0], b[1], b[2]) + Encode(b[3..])
  {
  }

  lemma HelloWorldGroups()
    ensures Three(72, 101, 108) == "SGVs" && Three(108, 111, 44) == "bG8s"
    ensures Three(32, 87, 111) == "IFdv" && Three(114, 108, 100) == "cmxk" && One(33) == "IQ=="
  {
  }

  /** A two-byte character: `é` (U+00E9) is the bytes C3 A9. */
  lemma AccentVector()
    ensures Utf8("é") == [0xC3, 0xA9]
    ensures StringToBase64("é") == "w6k="
  {
  }
}
