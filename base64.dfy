/**
 * The standard Base64 encoding of section 4 of RFC 4648 (alphabet of Table 1,
 * `=` padding), as used by `base64.StdEncoding.EncodeToString` in the
 * thumbnail handler, together with a decoder that inverts it.
 */
module Base64 {
  import opened Wrappers

  newtype byte = x: int | 0 <= x < 256

  /** The 64 characters of the standard alphabet (RFC 4648, Table 1). */
  predicate InAlphabet(c: char) {
    ('A' <= c <= 'Z') || ('a' <= c <= 'z') || ('0' <= c <= '9') || c == '+' || c == '/'
  }

  /** The character that encodes the 6-bit value `v`. */
  function EncodeChar(v: int): (c: char)
    requires 0 <= v < 64
    ensures InAlphabet(c) && DecodeChar(c) == v
  {
    if v < 26 then ('A' as int + v) as char
    else if v < 52 then ('a' as int + (v - 26)) as char
    else if v < 62 then ('0' as int + (v - 52)) as char
    else if v == 62 then '+'
    else '/'
  }

  /** The 6-bit value of an alphabet character, and -1 for any other character. */
  function DecodeChar(c: char): (v: int)
    ensures InAlphabet(c) <==> 0 <= v < 64
    ensures !InAlphabet(c) ==> v == -1
  {
    if 'A' <= c <= 'Z' then c as int - 'A' as int
    else if 'a' <= c <= 'z' then c as int - 'a' as int + 26
    else if '0' <= c <= '9' then c as int - '0' as int + 52
    else if c == '+' then 62
    else if c == '/' then 63
    else -1
  }

  /** Three bytes (24 bits) become four 6-bit characters. */
  function EncodeGroup(b0: byte, b1: byte, b2: byte): (r: string)
  {
    [ EncodeChar(b0 as int / 4),
      EncodeChar(b0 as int % 4 * 16 + b1 as int / 16),
      EncodeChar(b1 as int % 16 * 4 + b2 as int / 64),
      EncodeChar(b2 as int % 64) ]
  }

  /** A final group of two bytes: three characters and one `=`. */
  function EncodeTail2(b0: byte, b1: byte): (r: string)
  {
    [ EncodeChar(b0 as int / 4),
      EncodeChar(b0 as int % 4 * 16 + b1 as int / 16),
      EncodeChar(b1 as int % 16 * 4),
      '=' ]
  }

  /** A final group of one byte: two characters and `==`. */
  function EncodeTail1(b0: byte): (r: string)
  {
    [ EncodeChar(b0 as int / 4), EncodeChar(b0 as int % 4 * 16), '=', '=' ]
  }

  /**
   * The standard encoding of `data`: its length is 4 * ceil(n / 3), every
   * character is in the alphabet except `=` padding, which can only occupy
   * the last two positions.
   */
  function Encode(data: seq<byte>): (r: string)
    ensures |r| == 4 * ((|data| + 2) / 3)
    ensures forall i | 0 <= i < |r| :: InAlphabet(r[i]) || (r[i] == '=' && |r| - 2 <= i)
    decreases |data|
  {
    if |data| == 0 then ""
    else if |data| == 1 then EncodeTail1(data[0])
    else if |data| == 2 then EncodeTail2(data[0], data[1])
    else EncodeGroup(data[0], data[1], data[2]) + Encode(data[3..])
  }

  /** Four alphabet characters without padding become three bytes. */
  function DecodeGroup(c0: char, c1: char, c2: char, c3: char): (r: Option<seq<byte>>)
    ensures r.Some? ==> |r.value| == 3
  {
    var v0, v1, v2, v3 := DecodeChar(c0), DecodeChar(c1), DecodeChar(c2), DecodeChar(c3);
    if v0 < 0 || v1 < 0 || v2 < 0 || v3 < 0 then None
    else Some([ (v0 * 4 + v1 / 16) as byte,
                (v1 % 16 * 16 + v2 / 4) as byte,
                (v2 % 4 * 64 + v3) as byte ])
  }

  /** The last group of an encoding, which may carry one or two `=`. */
  function DecodeLastGroup(c0: char, c1: char, c2: char, c3: char): (r: Option<seq<byte>>)
    ensures r.Some? ==> 1 <= |r.value| <= 3
  {
    if c2 == '=' && c3 == '=' then
      var v0, v1 := DecodeChar(c0), DecodeChar(c1);
      if v0 < 0 || v1 < 0 then None
      else Some([(v0 * 4 + v1 / 16) as byte])
    else if c3 == '=' then
      var v0, v1, v2 := DecodeChar(c0), DecodeChar(c1), DecodeChar(c2);
      if v0 < 0 || v1 < 0 || v2 < 0 then None
      else Some([(v0 * 4 + v1 / 16) as byte, (v1 % 16 * 16 + v2 / 4) as byte])
    else DecodeGroup(c0, c1, c2, c3)
  }

  /** Decoding of a standard Base64 text; None when it is not well formed. */
  function Decode(s: string): (r: Option<seq<byte>>)
    decreases |s|
  {
    if |s| == 0 then Some([])
    else if |s| < 4 then None
    else if |s| == 4 then DecodeLastGroup(s[0], s[1], s[2], s[3])
    else
      match DecodeGroup(s[0], s[1], s[2], s[3])
      case None => None
      case Some(g) =>
        match Decode(s[4..])
        case None => None
        case Some(rest) => Some(g + rest)
  }

  /** Splitting `x * k + y` again by division and remainder, for the two radices used. */
  lemma SplitBy16(x: int, y: int)
    requires 0 <= y < 16
    ensures (x * 16 + y) / 16 == x && (x * 16 + y) % 16 == y
  {
  }

  lemma SplitBy4(x: int, y: int)
    requires 0 <= y < 4
    ensures (x * 4 + y) / 4 == x && (x * 4 + y) % 4 == y
  {
  }

  /** The first decoded byte of a group: the high six bits and the next two. */
  lemma FirstByteBack(b0: byte, b1: int)
    requires 0 <= b1 < 256
    ensures var v1 := b0 as int % 4 * 16 + b1 / 16; (b0 as int / 4) * 4 + v1 / 16 == b0 as int
  {
    SplitBy16(b0 as int % 4, b1 / 16);
  }

  /** The second decoded byte of a group: four bits from each of two characters. */
  lemma SecondByteBack(b0: byte, b1: byte, b2: int)
    requires 0 <= b2 < 256
    ensures var v1 := b0 as int % 4 * 16 + b1 as int / 16;
            var v2 := b1 as int % 16 * 4 + b2 / 64;
            v1 % 16 * 16 + v2 / 4 == b1 as int
  {
    SplitBy16(b0 as int % 4, b1 as int / 16);
    SplitBy4(b1 as int % 16, b2 / 64);
  }

  /** The third decoded byte of a group: two bits and six bits. */
  lemma ThirdByteBack(b1: byte, b2: byte)
    ensures var v2 := b1 as int % 16 * 4 + b2 as int / 64;
            v2 % 4 * 64 + b2 as int % 64 == b2 as int
  {
    SplitBy4(b1 as int % 16, b2 as int / 64);
  }

  lemma GroupRoundTrip(b0: byte, b1: byte, b2: byte)
    ensures var g := EncodeGroup(b0, b1, b2); DecodeGroup(g[0], g[1], g[2], g[3]) == Some([b0, b1, b2])
  {
    FirstByteBack(b0, b1 as int);
    SecondByteBack(b0, b1, b2 as int);
    ThirdByteBack(b1, b2);
  }

  lemma Tail2RoundTrip(b0: byte, b1: byte)
    ensures var g := EncodeTail2(b0, b1); DecodeLastGroup(g[0], g[1], g[2], g[3]) == Some([b0, b1])
  {
    FirstByteBack(b0, b1 as int);
    SecondByteBack(b0, b1, 0);
  }

  lemma Tail1RoundTrip(b0: byte)
    ensures var g := EncodeTail1(b0); DecodeLastGroup(g[0], g[1], g[2], g[3]) == Some([b0])
  {
    FirstByteBack(b0, 0);
  }

  /** Decoding the standard encoding gives back exactly the input bytes. */
  lemma {:induction false} DecodeEncode(data: seq<byte>)
    ensures Decode(Encode(data)) == Some(data)
    decreases |data|
  {
    if |data| == 0 {
    } else if |data| == 1 {
      Tail1RoundTrip(data[0]);
      assert data == [data[0]];
    } else if |data| == 2 {
      Tail2RoundTrip(data[0], data[1]);
      assert data == [data[0], data[1]];
    } else {
      var g := EncodeGroup(data[0], data[1], data[2]);
      var rest := Encode(data[3..]);
      assert Encode(data) == g + rest;
      GroupRoundTrip(data[0], data[1], data[2]);
      assert data == [data[0], data[1], data[2]] + data[3..];
      if |data| == 3 {
        assert rest == "" && Encode(data) == g;
        assert InAlphabet(g[3]);
        assert Decode(g) == DecodeGroup(g[0], g[1], g[2], g[3]);
        assert data == [data[0], data[1], data[2]];
      } else {
        var e := Encode(data);
        assert e[..4] == g && e[4..] == rest;
        DecodeEncode(data[3..]);
      }
    }
  }

  /** Distinct byte strings have distinct encodings. */
  lemma EncodeInjective(a: seq<byte>, b: seq<byte>)
    requires Encode(a) == Encode(b)
    ensures a == b
  {
    DecodeEncode(a);
    DecodeEncode(b);
  }

  /** The groups the test vectors of section 10 of RFC 4648 are made of. */
  lemma GroupVectors()
    ensures EncodeTail1(102) == "Zg==" && EncodeTail2(102, 111) == "Zm8=" && EncodeGroup(102, 111, 111) == "Zm9v"
    ensures EncodeTail1(98) == "Yg==" && EncodeTail2(98, 97) == "YmE=" && EncodeGroup(98, 97, 114) == "YmFy"
  {
  }

  /**
   * The test vectors of section 10 of RFC 4648, on the prefixes of the
   * ASCII bytes of "foobar".
   */
  lemma TestVectors()
    ensures Encode([]) == ""
    ensures Encode([102]) == "Zg=="
    ensures Encode([102, 111]) == "Zm8="
    ensures Encode([102, 111, 111]) == "Zm9v"
    ensures Encode([102, 111, 111, 98]) == "Zm9vYg=="
    ensures Encode([102, 111, 111, 98, 97]) == "Zm9vYmE="
    ensures Encode([102, 111, 111, 98, 97, 114]) == "Zm9vYmFy"
  {
    GroupVectors();
    var foobar: seq<byte> := [102, 111, 111, 98, 97, 114];
    assert foobar[..4][3..] == [98];
    assert foobar[..5][3..] == [98, 97];
    assert foobar[3..] == [98, 97, 114];
    assert Encode(foobar[..4]) == "Zm9v" + "Yg==";
    assert Encode(foobar[..5]) == "Zm9v" + "YmE=";
    assert Encode(foobar) == "Zm9v" + "YmFy";
    assert foobar[..4] == [102, 111, 111, 98] && foobar[..5] == [102, 111, 111, 98, 97];
  }
}
