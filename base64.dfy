/**
 * Byte encodings the authorisers and the context upload rely on: standard
 * Base64 with padding (section 4 of RFC 4648), and the two ways the programs
 * turn text into bytes (`Encoding.ASCII` in C#, UTF-8 in Python).
 */
module Base64 {
  import opened Wrappers

  type Byte = b: int | 0 <= b < 256
  type Sextet = i: int | 0 <= i < 64

  predicate IsAlphabet(c: char)
  {
    'A' <= c <= 'Z' || 'a' <= c <= 'z' || '0' <= c <= '9' || c == '+' || c == '/'
  }

  /** The sextet an alphabet character stands for. */
  function Index(c: char): Sextet
    requires IsAlphabet(c)
  {
    if 'A' <= c <= 'Z' then c as int - 'A' as int
    else if 'a' <= c <= 'z' then c as int - 'a' as int + 26
    else if '0' <= c <= '9' then c as int - '0' as int + 52
    else if c == '+' then 62
    else 63
  }

  /** The alphabet character of a sextet; `Index` undoes it. */
  function Char(i: Sextet): (c: char)
    ensures IsAlphabet(c) && Index(c) == i
  {
    if i < 26 then ('A' as int + i) as char
    else if i < 52 then ('a' as int + i - 26) as char
    else if i < 62 then ('0' as int + i - 52) as char
    else if i == 62 then '+'
    else '/'
  }

  /** Three bytes as four characters. */
  function EncodeBlock(b0: Byte, b1: Byte, b2: Byte): string
  {
    [Char(b0 / 4), Char((b0 % 4) * 16 + b1 / 16), Char((b1 % 16) * 4 + b2 / 64), Char(b2 % 64)]
  }

  /** `Convert.ToBase64String` / `base64.b64encode`. */
  function Encode(bs: seq<Byte>): (s: string)
    ensures |s| == 4 * ((|bs| + 2) / 3)
    decreases |bs|
  {
    if |bs| == 0 then ""
    else if |bs| == 1 then [Char(bs[0] / 4), Char((bs[0] % 4) * 16), '=', '=']
    else if |bs| == 2 then [Char(bs[0] / 4), Char((bs[0] % 4) * 16 + bs[1] / 16), Char((bs[1] % 16) * 4), '=']
    else EncodeBlock(bs[0], bs[1], bs[2]) + Encode(bs[3..])
  }

  /** One block of four characters: three bytes, or one or two before padding. */
  function DecodeBlock(s: string): Option<seq<Byte>>
    requires |s| == 4
  {
    if IsAlphabet(s[0]) && IsAlphabet(s[1]) && IsAlphabet(s[2]) && IsAlphabet(s[3]) then
      var i0, i1, i2, i3 := Index(s[0]), Index(s[1]), Index(s[2]), Index(s[3]);
      Some([i0 * 4 + i1 / 16, (i1 % 16) * 16 + i2 / 4, (i2 % 4) * 64 + i3])
    else if IsAlphabet(s[0]) && IsAlphabet(s[1]) && IsAlphabet(s[2]) && s[3] == '=' then
      var i0, i1, i2 := Index(s[0]), Index(s[1]), Index(s[2]);
      Some([i0 * 4 + i1 / 16, (i1 % 16) * 16 + i2 / 4])
    else if IsAlphabet(s[0]) && IsAlphabet(s[1]) && s[2] == '=' && s[3] == '=' then
      var i0, i1 := Index(s[0]), Index(s[1]);
      Some([i0 * 4 + i1 / 16])
    else None
  }

  /** `base64 -d`: padded blocks of four; padding only in the last block. */
  function Decode(s: string): Option<seq<Byte>>
    decreases |s|
  {
    if |s| == 0 then Some([])
    else if |s| < 4 then None
    else match DecodeBlock(s[..4])
      case None => None
      case Some(block) =>
        if |block| < 3 && |s| > 4 then None
        else match Decode(s[4..])
          case None => None
          case Some(rest) => Some(block + rest)
  }

  /** The four sextets of a block give back its three bytes. */
  lemma DecodeEncodeBlock(b0: Byte, b1: Byte, b2: Byte)
    ensures DecodeBlock(EncodeBlock(b0, b1, b2)) == Some([b0, b1, b2])
  {
    var c0, c1, c2, c3 := b0 / 4, (b0 % 4) * 16 + b1 / 16, (b1 % 16) * 4 + b2 / 64, b2 % 64;
    assert c1 / 16 == b0 % 4 && c1 % 16 == b1 / 16;
    assert c2 / 4 == b1 % 16 && c2 % 4 == b2 / 64;
    assert c0 * 4 + c1 / 16 == b0;
    assert (c1 % 16) * 16 + c2 / 4 == b1;
    assert (c2 % 4) * 64 + c3 == b2;
    assert EncodeBlock(b0, b1, b2) == [Char(c0), Char(c1), Char(c2), Char(c3)];
  }

  /** Decoding undoes encoding, for every byte string. */
  lemma {:induction false} DecodeEncode(bs: seq<Byte>)
    ensures Decode(Encode(bs)) == Some(bs)
    decreases |bs|
  {
    if |bs| >= 3 {
      var s := Encode(bs);
      DecodeEncodeBlock(bs[0], bs[1], bs[2]);
      assert s[..4] == EncodeBlock(bs[0], bs[1], bs[2]);
      assert s[4..] == Encode(bs[3..]);
      DecodeEncode(bs[3..]);
      DecodeFullBlock(s, [bs[0], bs[1], bs[2]], bs[3..]);
      assert bs == [bs[0], bs[1], bs[2]] + bs[3..];
    } else if |bs| == 1 {
      assert bs == [bs[0]];
      DecodeEncodeOne(bs[0]);
    } else if |bs| == 2 {
      assert bs == [bs[0], bs[1]];
      DecodeEncodeTwo(bs[0], bs[1]);
    }
  }

  /** A full first block followed by text that decodes: the bytes of the block, then the rest. */
  lemma DecodeFullBlock(s: string, block: seq<Byte>, rest: seq<Byte>)
    requires |s| >= 4 && DecodeBlock(s[..4]) == Some(block) && |block| == 3 && Decode(s[4..]) == Some(rest)
    ensures Decode(s) == Some(block + rest)
  {
  }

  /** One byte: two sextets and two padding characters. */
  lemma DecodeEncodeOne(b0: Byte)
    ensures Decode(Encode([b0])) == Some([b0])
  {
    var c0, c1 := b0 / 4, (b0 % 4) * 16;
    assert c0 * 4 + c1 / 16 == b0;
    var s := Encode([b0]);
    assert s == [Char(c0), Char(c1), '=', '='];
    assert !IsAlphabet('=');
    assert DecodeBlock(s) == Some([b0]);
    assert s[..4] == s && s[4..] == "";
    assert [b0] + [] == [b0];
  }

  /** Two bytes: three sextets and one padding character. */
  lemma DecodeEncodeTwo(b0: Byte, b1: Byte)
    ensures Decode(Encode([b0, b1])) == Some([b0, b1])
  {
    var c0, c1, c2 := b0 / 4, (b0 % 4) * 16 + b1 / 16, (b1 % 16) * 4;
    assert c1 / 16 == b0 % 4 && c1 % 16 == b1 / 16 && c2 / 4 == b1 % 16;
    assert c0 * 4 + c1 / 16 == b0;
    assert (c1 % 16) * 16 + c2 / 4 == b1;
    var s := Encode([b0, b1]);
    assert s == [Char(c0), Char(c1), Char(c2), '='];
    assert !IsAlphabet('=');
    assert DecodeBlock(s) == Some([b0, b1]);
    assert s[..4] == s && s[4..] == "";
    assert [b0, b1] + [] == [b0, b1];
  }

  /** Encoding is injective: the encoded text determines the bytes. */
  lemma EncodeInjective(a: seq<Byte>, b: seq<Byte>)
    requires Encode(a) == Encode(b)
    ensures a == b
  {
    DecodeEncode(a);
    DecodeEncode(b);
  }

  /** An encoding is one line: it holds no line break. */
  lemma {:induction false} EncodeIsOneLine(bs: seq<Byte>)
    ensures forall i :: 0 <= i < |Encode(bs)| ==> Encode(bs)[i] != '\n'
    decreases |bs|
  {
    if |bs| >= 3 {
      EncodeIsOneLine(bs[3..]);
      var block := EncodeBlock(bs[0], bs[1], bs[2]);
      assert forall i :: 0 <= i < 4 ==> IsAlphabet(block[i]);
      assert Encode(bs) == block + Encode(bs[3..]);
    }
  }

  /** Chunks whose length is a multiple of three encode independently. */
  lemma {:induction false} EncodeAppend(a: seq<Byte>, b: seq<Byte>)
    requires |a| % 3 == 0
    ensures Encode(a + b) == Encode(a) + Encode(b)
    decreases |a|
  {
    if |a| > 0 {
      assert (a + b)[3..] == a[3..] + b;
      assert (a + b)[..3] == a[..3];
      EncodeAppend(a[3..], b);
    } else {
      assert a + b == b;
    }
  }

  predicate IsAscii(s: string)
  {
    forall i :: 0 <= i < |s| ==> s[i] as int < 128
  }

  /**
   * `Encoding.ASCII.GetBytes`: each UTF-16 code unit outside ASCII becomes
   * '?' (a character beyond the basic plane is two code units).
   */
  function AsciiBytes(s: string): (r: seq<Byte>)
    ensures IsAscii(s) ==> |r| == |s| && forall i :: 0 <= i < |s| ==> r[i] == s[i] as int
  {
    if |s| == 0 then []
    else
      var n := s[0] as int;
      (if n < 128 then [n] else if n < 0x1_0000 then ['?' as int] else ['?' as int, '?' as int])
        + AsciiBytes(s[1..])
  }

  /** The UTF-8 bytes of one Unicode scalar value. */
  function Utf8Char(c: char): (r: seq<Byte>)
    ensures 1 <= |r| <= 4
  {
    var n := c as int;
    if n < 0x80 then [n]
    else if n < 0x800 then [0xC0 + n / 64, 0x80 + n % 64]
    else if n < 0x1_0000 then [0xE0 + n / 4096, 0x80 + (n / 64) % 64, 0x80 + n % 64]
    else [0xF0 + n / 262144, 0x80 + (n / 4096) % 64, 0x80 + (n / 64) % 64, 0x80 + n % 64]
  }

  /** `str.encode("utf-8")`. */
  function Utf8Bytes(s: string): seq<Byte>
  {
    if |s| == 0 then [] else Utf8Char(s[0]) + Utf8Bytes(s[1..])
  }

  /** On ASCII text the two encodings agree byte for byte. */
  lemma {:induction false} AsciiAgreesWithUtf8(s: string)
    requires IsAscii(s)
    ensures AsciiBytes(s) == Utf8Bytes(s)
  {
    if |s| > 0 {
      assert IsAscii(s[1..]) by {
        assert forall i :: 0 <= i < |s[1..]| ==> s[1..][i] == s[i + 1];
      }
      AsciiAgreesWithUtf8(s[1..]);
    }
  }

  /** ASCII text is determined by its ASCII bytes. */
  lemma AsciiBytesInjective(s: string, t: string)
    requires IsAscii(s) && IsAscii(t) && AsciiBytes(s) == AsciiBytes(t)
    ensures s == t
  {
    assert |s| == |t|;
    forall i | 0 <= i < |s| ensures s[i] == t[i] {
      assert s[i] as int == AsciiBytes(s)[i];
    }
  }
}
