/** Base64 with padding, as in section 4 of RFC 4648, and the buffer sizes computed around it. */
module Base64 {
  import opened Bytes
  import opened Results

  /** A 6-bit value of the alphabet. */
  type Sextet = v: int | 0 <= v < 64

  function Digit(v: Sextet): (c: char)
    ensures c != '=' && c != '\0'
  {
    if v < 26 then ('A' as int + v) as char
    else if v < 52 then ('a' as int + (v - 26)) as char
    else if v < 62 then ('0' as int + (v - 52)) as char
    else if v == 62 then '+'
    else '/'
  }

  function Value(c: char): Option<Sextet> {
    if 'A' <= c <= 'Z' then Some(c as int - 'A' as int)
    else if 'a' <= c <= 'z' then Some(c as int - 'a' as int + 26)
    else if '0' <= c <= '9' then Some(c as int - '0' as int + 52)
    else if c == '+' then Some(62)
    else if c == '/' then Some(63)
    else None
  }

  lemma DigitValue(v: Sextet)
    ensures Value(Digit(v)) == Some(v)
  {
  }

  lemma ValueDigit(c: char)
    ensures Value(c).Some? ==> Digit(Value(c).value) == c
  {
  }

  // Three bytes are four sextets.

  function First(b: byte): Sextet { b as int / 4 }

  function Second(b: byte, c: byte): Sextet { b as int % 4 * 16 + c as int / 16 }

  function Third(c: byte, d: byte): Sextet { c as int % 16 * 4 + d as int / 64 }

  function Fourth(d: byte): Sextet { d as int % 64 }

  function ByteOne(v: Sextet, w: Sextet): byte { (v * 4 + w / 16) as byte }

  function ByteTwo(w: Sextet, x: Sextet): byte { (w % 16 * 16 + x / 4) as byte }

  function ByteThree(x: Sextet, y: Sextet): byte { (x % 4 * 64 + y) as byte }

  lemma Split(b: byte, c: byte, d: byte)
    ensures ByteOne(First(b), Second(b, c)) == b
    ensures ByteTwo(Second(b, c), Third(c, d)) == c
    ensures ByteThree(Third(c, d), Fourth(d)) == d
    ensures Second(b, 0) % 16 == 0 && Third(c, 0) % 4 == 0
  {
  }

  lemma Join(v: Sextet, w: Sextet, x: Sextet, y: Sextet)
    ensures First(ByteOne(v, w)) == v
    ensures Second(ByteOne(v, w), ByteTwo(w, x)) == w
    ensures Third(ByteTwo(w, x), ByteThree(x, y)) == x
    ensures Fourth(ByteThree(x, y)) == y
    ensures w % 16 == 0 ==> Second(ByteOne(v, w), 0) == w
    ensures x % 4 == 0 ==> Third(ByteTwo(w, x), 0) == x
  {
  }

  function EncodeTriple(b: byte, c: byte, d: byte): (s: string)
    ensures |s| == 4
  {
    [Digit(First(b)), Digit(Second(b, c)), Digit(Third(c, d)), Digit(Fourth(d))]
  }

  /** One or two last bytes, padded to four characters. */
  function EncodeRest(src: seq<byte>): (s: string)
    requires 1 <= |src| <= 2
    ensures |s| == 4 && s[3] == '='
  {
    if |src| == 1 then
      [Digit(First(src[0])), Digit(Second(src[0], 0)), '=', '=']
    else
      [Digit(First(src[0])), Digit(Second(src[0], src[1])), Digit(Third(src[1], 0)), '=']
  }

  function Encode(src: seq<byte>): (dst: string) {
    if src == [] then ""
    else if |src| < 3 then EncodeRest(src)
    else EncodeTriple(src[0], src[1], src[2]) + Encode(src[3..])
  }

  /** The last four characters, padded; bits that encode nothing must be zero. */
  function DecodeRest(s: string): (r: Option<seq<byte>>)
    requires |s| == 4 && s[3] == '='
    ensures r.Some? ==> 1 <= |r.value| <= 2
  {
    match (Value(s[0]), Value(s[1]))
    case (Some(v), Some(w)) =>
      if s[2] == '=' then
        if w % 16 == 0 then Some([ByteOne(v, w)]) else None
      else
        (match Value(s[2])
         case Some(x) => if x % 4 == 0 then Some([ByteOne(v, w), ByteTwo(w, x)]) else None
         case None => None)
    case _ => None
  }

  function DecodeQuad(s: string): (r: Option<seq<byte>>)
    requires |s| == 4
    ensures r.Some? ==> |r.value| == 3
  {
    match (Value(s[0]), Value(s[1]), Value(s[2]), Value(s[3]))
    case (Some(v), Some(w), Some(x), Some(y)) => Some([ByteOne(v, w), ByteTwo(w, x), ByteThree(x, y)])
    case _ => None
  }

  /** The strict decoder: no characters are ignored, padding is required, nothing may follow it. */
  function Decode(s: string): Option<seq<byte>> {
    if s == "" then Some([])
    else if |s| < 4 then None
    else if |s| == 4 && s[3] == '=' then DecodeRest(s)
    else
      match DecodeQuad(s[..4])
      case None => None
      case Some(three) =>
        match Decode(s[4..])
        case None => None
        case Some(more) => Some(three + more)
  }

  lemma QuadOfTriple(b: byte, c: byte, d: byte)
    ensures DecodeQuad(EncodeTriple(b, c, d)) == Some([b, c, d])
    ensures EncodeTriple(b, c, d)[3] != '='
  {
    DigitValue(First(b));
    DigitValue(Second(b, c));
    DigitValue(Third(c, d));
    DigitValue(Fourth(d));
    Split(b, c, d);
  }

  lemma TripleOfQuad(s: string)
    requires |s| == 4 && DecodeQuad(s).Some?
    ensures var t := DecodeQuad(s).value; EncodeTriple(t[0], t[1], t[2]) == s
  {
    hide Digit, Value, First, Second, Third, Fourth, ByteOne, ByteTwo, ByteThree;
    ValueDigit(s[0]);
    ValueDigit(s[1]);
    ValueDigit(s[2]);
    ValueDigit(s[3]);
    Join(Value(s[0]).value, Value(s[1]).value, Value(s[2]).value, Value(s[3]).value);
  }

  lemma OneByteRoundTrip(b: byte)
    ensures DecodeRest(EncodeRest([b])) == Some([b])
  {
    hide Digit, Value, First, Second, Third, Fourth, ByteOne, ByteTwo, ByteThree;
    DigitValue(First(b));
    DigitValue(Second(b, 0));
    Split(b, 0, 0);
    assert EncodeRest([b]) == [Digit(First(b)), Digit(Second(b, 0)), '=', '='];
  }

  lemma TwoBytesRoundTrip(b: byte, c: byte)
    ensures DecodeRest(EncodeRest([b, c])) == Some([b, c])
  {
    hide Digit, Value, First, Second, Third, Fourth, ByteOne, ByteTwo, ByteThree;
    DigitValue(First(b));
    DigitValue(Second(b, c));
    DigitValue(Third(c, 0));
    Split(b, c, 0);
    assert EncodeRest([b, c]) == [Digit(First(b)), Digit(Second(b, c)), Digit(Third(c, 0)), '='];
  }

  lemma RestRoundTrip(src: seq<byte>)
    requires 1 <= |src| <= 2
    ensures DecodeRest(EncodeRest(src)) == Some(src)
  {
    hide DecodeRest, EncodeRest;
    if |src| == 1 {
      OneByteRoundTrip(src[0]);
      assert src == [src[0]];
    } else {
      TwoBytesRoundTrip(src[0], src[1]);
      assert src == [src[0], src[1]];
    }
  }

  lemma RestIsCanonical(s: string)
    requires |s| == 4 && s[3] == '=' && DecodeRest(s).Some?
    ensures EncodeRest(DecodeRest(s).value) == s
  {
    hide Digit, Value, First, Second, Third, Fourth, ByteOne, ByteTwo, ByteThree;
    ValueDigit(s[0]);
    ValueDigit(s[1]);
    ValueDigit(s[2]);
    var v, w := Value(s[0]).value, Value(s[1]).value;
    if s[2] == '=' {
      Join(v, w, 0, 0);
      assert DecodeRest(s).value == [ByteOne(v, w)];
    } else {
      var x := Value(s[2]).value;
      Join(v, w, x, 0);
      assert DecodeRest(s).value == [ByteOne(v, w), ByteTwo(w, x)];
    }
  }

  lemma {:induction false} EncodedLength(src: seq<byte>)
    ensures |Encode(src)| == (|src| + 2) / 3 * 4
  {
    hide EncodeTriple, EncodeRest;
    if |src| >= 3 {
      EncodedLength(src[3..]);
    }
  }

  lemma DecodeStep(four: string, rest: string)
    requires |four| == 4 && four[3] != '=' && DecodeQuad(four).Some? && Decode(rest).Some?
    ensures Decode(four + rest) == Some(DecodeQuad(four).value + Decode(rest).value)
  {
    hide DecodeQuad;
    assert (four + rest)[..4] == four && (four + rest)[4..] == rest;
  }

  /** Decoding what was encoded gives it back, whatever the bytes. */
  lemma {:induction false} DecodeEncode(src: seq<byte>)
    ensures Decode(Encode(src)) == Some(src)
  {
    hide EncodeTriple, EncodeRest, DecodeRest, DecodeQuad;
    if 1 <= |src| < 3 {
      RestRoundTrip(src);
    } else if |src| >= 3 {
      QuadOfTriple(src[0], src[1], src[2]);
      DecodeEncode(src[3..]);
      var four := EncodeTriple(src[0], src[1], src[2]);
      assert Encode(src) == four + Encode(src[3..]);
      hide Encode;
      DecodeStep(four, Encode(src[3..]));
      assert src == [src[0], src[1], src[2]] + src[3..];
    }
  }

  /** Only encodings are accepted: what decodes is the encoding of what it decodes to. */
  lemma {:induction false} EncodeDecode(s: string)
    ensures Decode(s).Some? ==> Encode(Decode(s).value) == s
  {
    hide EncodeTriple, EncodeRest, DecodeRest, DecodeQuad;
    if |s| >= 4 && Decode(s).Some? {
      if |s| == 4 && s[3] == '=' {
        RestIsCanonical(s);
      } else {
        EncodeDecode(s[4..]);
        TripleOfQuad(s[..4]);
        var three, more := DecodeQuad(s[..4]).value, Decode(s[4..]).value;
        assert (three + more)[3..] == more;
        assert s == s[..4] + s[4..];
      }
    }
  }

  function Ascii(text: string): seq<byte>
    requires forall i :: 0 <= i < |text| ==> text[i] < 128 as char
  {
    seq(|text|, i requires 0 <= i < |text| => text[i] as int as byte)
  }

  /** The examples of section 10 of RFC 4648, and one with the last two letters of the alphabet. */
  lemma StandardExamples()
    ensures Encode(Ascii("")) == "" && Encode(Ascii("f")) == "Zg==" && Encode(Ascii("fo")) == "Zm8="
      && Encode(Ascii("foo")) == "Zm9v"
    ensures Encode(Ascii("foob")) == "Zm9vYg==" && Encode(Ascii("fooba")) == "Zm9vYmE="
      && Encode(Ascii("foobar")) == "Zm9vYmFy"
    ensures Encode([0xfb, 0xff]) == "+/8="
  {
    assert Ascii("foo")[3..] == [];
    assert Ascii("foob")[3..] == Ascii("b") && Encode(Ascii("b")) == "Yg==";
    assert Ascii("fooba")[3..] == Ascii("ba") && Encode(Ascii("ba")) == "YmE=";
    assert Ascii("foobar")[3..] == Ascii("bar") && Ascii("bar")[3..] == [] && Encode(Ascii("bar")) == "YmFy";
  }

  /** Table 1 of RFC 4648: capitals, small letters and digits in order, then two signs. */
  lemma AlphabetInOrder(v: Sextet)
    ensures Digit(0) == 'A' && Digit(26) == 'a' && Digit(52) == '0' && Digit(62) == '+' && Digit(63) == '/'
    ensures v !in {25, 51, 61, 62, 63} ==> Digit(v + 1) as int == Digit(v) as int + 1
  {
  }

  function ByteAt(src: seq<byte>, i: nat): byte {
    if i < |src| then src[i] else 0
  }

  function Number(b: byte, c: byte, d: byte): (n: nat)
    ensures n < 0x100_0000
  {
    b as int * 0x1_0000 + c as int * 0x100 + d as int
  }

  /** Group `k` of the input as one number of 24 bits, missing bytes being zero. */
  function Group(src: seq<byte>, k: nat): (n: nat)
    ensures n < 0x100_0000
  {
    Number(ByteAt(src, 3 * k), ByteAt(src, 3 * k + 1), ByteAt(src, 3 * k + 2))
  }

  /** The letters of one group: its bits, six by six, and padding for missing bytes. */
  function Letters(n: nat, given: nat): string
    requires n < 0x100_0000
  {
    [Digit(n / 0x4_0000), Digit(n / 0x1000 % 64),
     if given > 1 then Digit(n / 64 % 64) else '=', if given > 2 then Digit(n % 64) else '=']
  }

  lemma FirstSixBits(b: byte, c: byte, d: byte)
    ensures Number(b, c, d) / 0x4_0000 == First(b) && Number(b, c, d) / 0x1000 % 64 == Second(b, c)
  {
    assert Number(b, c, d) / 0x1000 == b as int * 16 + c as int / 16;
  }

  lemma LastSixBits(b: byte, c: byte, d: byte)
    ensures Number(b, c, d) / 64 % 64 == Third(c, d) && Number(b, c, d) % 64 == Fourth(d)
  {
    assert Number(b, c, d) / 64 == b as int * 1024 + c as int * 4 + d as int / 64;
  }

  lemma FirstGroup(src: seq<byte>)
    requires src != []
    ensures |Encode(src)| >= 4 && Encode(src)[..4] == Letters(Group(src, 0), |src|)
  {
    FirstSixBits(ByteAt(src, 0), ByteAt(src, 1), ByteAt(src, 2));
    LastSixBits(ByteAt(src, 0), ByteAt(src, 1), ByteAt(src, 2));
    hide Number, Digit, First, Second, Third, Fourth;
  }

  /** Every group of three bytes, the last one perhaps short, is encoded as section 4 says. */
  lemma {:induction false} EncodedGroup(src: seq<byte>, k: nat)
    requires 3 * k < |src|
    ensures 4 * k + 4 <= |Encode(src)|
    ensures Encode(src)[4 * k..4 * k + 4] == Letters(Group(src, k), |src| - 3 * k)
  {
    hide EncodeTriple, EncodeRest, Letters;
    if k == 0 {
      FirstGroup(src);
    } else {
      EncodedGroup(src[3..], k - 1);
      assert Group(src[3..], k - 1) == Group(src, k);
      assert Encode(src)[4 * k..4 * k + 4] == Encode(src[3..])[4 * k - 4..4 * k];
    }
  }

  /** The room set aside for decoding is always enough. */
  lemma CapacitySuffices(s: string)
    ensures Decode(s).Some? ==> |Decode(s).value| <= |s| / 4 * 3
  {
    hide Encode, Decode;
    EncodeDecode(s);
    if Decode(s).Some? {
      EncodedLength(Decode(s).value);
    }
  }

  /** `sodium_base64_encoded_len` for the padded alphabet, with room for the terminator. */
  function EncodedLen(n: nat): nat {
    (n + 2) / 3 * 4 + 1
  }

  /** Fills a buffer of exactly the announced size: the encoding and its terminator. */
  method Base64Encode(src: seq<byte>) returns (dst: array<char>)
    ensures fresh(dst) && dst.Length == EncodedLen(|src|)
    ensures dst[..dst.Length - 1] == Encode(src) && dst[dst.Length - 1] == '\0'
  {
    hide Encode;
    var text := Encode(src);
    EncodedLength(src);
    dst := new char[EncodedLen(|src|)](_ => '\0');
    for i := 0 to |text|
      invariant dst[..i] == text[..i] && dst[dst.Length - 1] == '\0'
    {
      dst[i] := text[i];
    }
  }

  /** Succeeds exactly on encodings; the decoded bytes are the first `len` of the buffer. */
  method Base64Decode(src: string) returns (ret: int, dst: array<byte>, len: nat)
    ensures fresh(dst) && dst.Length == |src| / 4 * 3
    ensures ret == 0 || ret == -1
    ensures ret == 0 <==> Decode(src).Some?
    ensures ret == 0 <==> exists bytes :: src == Encode(bytes)
    ensures ret == 0 ==> len <= dst.Length && src == Encode(dst[..len])
  {
    hide Encode, Decode;
    dst := new byte[|src| / 4 * 3];
    len := 0;
    var decoded := Decode(src);
    if decoded.None? {
      forall bytes
        ensures src != Encode(bytes)
      {
        DecodeEncode(bytes);
      }
      return -1, dst, 0;
    }
    CapacitySuffices(src);
    EncodeDecode(src);
    while len < |decoded.value|
      invariant len <= |decoded.value| <= dst.Length && dst[..len] == decoded.value[..len]
    {
      dst[len] := decoded.value[len];
      len := len + 1;
    }
    assert dst[..len] == decoded.value && src == Encode(decoded.value);
    return 0, dst, len;
  }
}
