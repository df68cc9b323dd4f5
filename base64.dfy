/** Base 64 in the standard alphabet with padding, as defined in section 4 of RFC 4648
    (Go's `base64.StdEncoding`). `Encode` is what `EncodeToString` computes; `Decode` is its
    partner, used to show that encoding loses nothing. */
module Base64 {
  import opened Common

  const Pad: char := '='

  /** The characters of the alphabet of section 4 of RFC 4648 (the pad excluded). */
  predicate IsDigit(c: char) {
    ('A' <= c <= 'Z') || ('a' <= c <= 'z') || ('0' <= c <= '9') || c == '+' || c == '/'
  }

  /** The character for a 6-bit value, following the table of section 4 of RFC 4648. */
  function Digit(v: int): (c: char)
    requires 0 <= v < 64
    ensures IsDigit(c)
  {
    if v < 26 then ('A' as int + v) as char
    else if v < 52 then ('a' as int + (v - 26)) as char
    else if v < 62 then ('0' as int + (v - 52)) as char
    else if v == 62 then '+'
    else '/'
  }

  /** The 6-bit value a digit stands for. */
  function ValueOf(c: char): (v: int)
    requires IsDigit(c)
    ensures 0 <= v < 64 && Digit(v) == c
  {
    if 'A' <= c <= 'Z' then c as int - 'A' as int
    else if 'a' <= c <= 'z' then c as int - 'a' as int + 26
    else if '0' <= c <= '9' then c as int - '0' as int + 52
    else if c == '+' then 62
    else 63
  }

  /** Three bytes (24 bits) as four digits. */
  function EncodeGroup(a: Byte, b: Byte, c: Byte): string {
    [Digit(a / 4), Digit((a % 4) * 16 + b / 16), Digit((b % 16) * 4 + c / 64), Digit(c % 64)]
  }

  /** The encoding of `bs`: one group of four characters per three bytes, the last group
      padded with one `=` for two left-over bytes and with two for one. */
  function Encode(bs: seq<Byte>): (s: string)
    ensures |s| == 4 * ((|bs| + 2) / 3)
    decreases |bs|
  {
    if |bs| == 0 then []
    else if |bs| == 1 then [Digit(bs[0] / 4), Digit((bs[0] % 4) * 16), Pad, Pad]
    else if |bs| == 2 then [Digit(bs[0] / 4), Digit((bs[0] % 4) * 16 + bs[1] / 16), Digit((bs[1] % 16) * 4), Pad]
    else EncodeGroup(bs[0], bs[1], bs[2]) + Encode(bs[3..])
  }

  /** Four digits as three bytes. */
  function DecodeGroup(w: int, x: int, y: int, z: int): seq<Byte>
    requires 0 <= w < 64 && 0 <= x < 64 && 0 <= y < 64 && 0 <= z < 64
  {
    [w * 4 + x / 16, (x % 16) * 16 + y / 4, (y % 4) * 64 + z]
  }

  /** Three digits, the fourth being a pad, as two bytes. */
  function DecodeTwo(w: int, x: int, y: int): seq<Byte>
    requires 0 <= w < 64 && 0 <= x < 64 && 0 <= y < 64
  {
    [w * 4 + x / 16, (x % 16) * 16 + y / 4]
  }

  /** Two digits, followed by two pads, as one byte. */
  function DecodeOne(w: int, x: int): seq<Byte>
    requires 0 <= w < 64 && 0 <= x < 64
  {
    [w * 4 + x / 16]
  }

  /** The last group of an encoding, which may carry padding. */
  function DecodeLast(q: string): Option<seq<Byte>>
    requires |q| == 4
  {
    if IsDigit(q[0]) && IsDigit(q[1]) && IsDigit(q[2]) && IsDigit(q[3]) then
      Some(DecodeGroup(ValueOf(q[0]), ValueOf(q[1]), ValueOf(q[2]), ValueOf(q[3])))
    else if IsDigit(q[0]) && IsDigit(q[1]) && IsDigit(q[2]) && q[3] == Pad then
      Some(DecodeTwo(ValueOf(q[0]), ValueOf(q[1]), ValueOf(q[2])))
    else if IsDigit(q[0]) && IsDigit(q[1]) && q[2] == Pad && q[3] == Pad then
      Some(DecodeOne(ValueOf(q[0]), ValueOf(q[1])))
    else None
  }

  /** Decoding of a padded encoding; `None` for text that is not one. */
  function Decode(s: string): Option<seq<Byte>>
    decreases |s|
  {
    if |s| == 0 then Some([])
    else if |s| < 4 then None
    else if |s| == 4 then DecodeLast(s)
    else if IsDigit(s[0]) && IsDigit(s[1]) && IsDigit(s[2]) && IsDigit(s[3]) then
      match Decode(s[4..])
      case None => None
      case Some(rest) => Some(DecodeGroup(ValueOf(s[0]), ValueOf(s[1]), ValueOf(s[2]), ValueOf(s[3])) + rest)
    else None
  }

  lemma ValueOfDigit(v: int)
    requires 0 <= v < 64
    ensures ValueOf(Digit(v)) == v
  {
  }

  lemma GroupRoundTrip(a: Byte, b: Byte, c: Byte)
    ensures DecodeGroup(a / 4, (a % 4) * 16 + b / 16, (b % 16) * 4 + c / 64, c % 64) == [a, b, c]
  {
  }

  lemma OneByteRoundTrip(a: Byte)
    ensures Decode(Encode([a])) == Some([a])
  {
    var w, x := a / 4, (a % 4) * 16;
    ValueOfDigit(w);
    ValueOfDigit(x);
    var q := Encode([a]);
    assert q == [Digit(w), Digit(x), Pad, Pad];
    assert !IsDigit(Pad);
    assert DecodeLast(q) == Some(DecodeOne(w, x));
    assert DecodeOne(w, x) == [a];
  }

  lemma TwoBytesArith(a: Byte, b: Byte)
    ensures DecodeTwo(a / 4, (a % 4) * 16 + b / 16, (b % 16) * 4) == [a, b]
  {
    assert ((a % 4) * 16 + b / 16) / 16 == a % 4;
    assert ((a % 4) * 16 + b / 16) % 16 == b / 16;
    assert ((b % 16) * 4) / 4 == b % 16;
  }

  lemma TwoBytesRoundTrip(a: Byte, b: Byte)
    ensures Decode(Encode([a, b])) == Some([a, b])
  {
    var w, x, y := a / 4, (a % 4) * 16 + b / 16, (b % 16) * 4;
    ValueOfDigit(w);
    ValueOfDigit(x);
    ValueOfDigit(y);
    var q := Encode([a, b]);
    assert q == [Digit(w), Digit(x), Digit(y), Pad];
    assert !IsDigit(Pad);
    assert DecodeLast(q) == Some(DecodeTwo(w, x, y));
    TwoBytesArith(a, b);
  }

  lemma GroupDecodes(a: Byte, b: Byte, c: Byte)
    ensures var q := EncodeGroup(a, b, c);
      IsDigit(q[0]) && IsDigit(q[1]) && IsDigit(q[2]) && IsDigit(q[3]) &&
      DecodeGroup(ValueOf(q[0]), ValueOf(q[1]), ValueOf(q[2]), ValueOf(q[3])) == [a, b, c]
  {
    ValueOfDigit(a / 4);
    ValueOfDigit((a % 4) * 16 + b / 16);
    ValueOfDigit((b % 16) * 4 + c / 64);
    ValueOfDigit(c % 64);
    GroupRoundTrip(a, b, c);
  }

  lemma DecodeFullGroup(g: string, t: string)
    requires |g| == 4 && IsDigit(g[0]) && IsDigit(g[1]) && IsDigit(g[2]) && IsDigit(g[3])
    requires |t| > 0
    ensures Decode(g + t) ==
      match Decode(t)
      case None => None
      case Some(rest) => Some(DecodeGroup(ValueOf(g[0]), ValueOf(g[1]), ValueOf(g[2]), ValueOf(g[3])) + rest)
  {
    var s := g + t;
    assert s[0] == g[0] && s[1] == g[1] && s[2] == g[2] && s[3] == g[3];
    assert s[4..] == t;
  }

  lemma LastGroup(a: Byte, b: Byte, c: Byte)
    ensures Decode(Encode([a, b, c])) == Some([a, b, c])
  {
    var g := EncodeGroup(a, b, c);
    GroupDecodes(a, b, c);
    assert [a, b, c][3..] == [];
    assert Encode([a, b, c]) == g + [];
    assert Decode(g) == DecodeLast(g);
  }

  lemma SplitThree(bs: seq<Byte>)
    requires |bs| >= 3
    ensures [bs[0], bs[1], bs[2]] + bs[3..] == bs
  {
  }

  lemma GroupThenRest(bs: seq<Byte>)
    requires |bs| > 3
    requires Decode(Encode(bs[3..])) == Some(bs[3..])
    ensures Decode(Encode(bs)) == Some(bs)
  {
    var rest := bs[3..];
    var g := EncodeGroup(bs[0], bs[1], bs[2]);
    GroupDecodes(bs[0], bs[1], bs[2]);
    assert Encode(bs) == g + Encode(rest);
    DecodeFullGroup(g, Encode(rest));
    SplitThree(bs);
  }

  /** Decoding undoes encoding: nothing of the image is lost in the data URL. */
  lemma {:induction false} DecodeEncode(bs: seq<Byte>)
    ensures Decode(Encode(bs)) == Some(bs)
    decreases |bs|
  {
    if |bs| == 0 {
    } else if |bs| == 1 {
      assert bs == [bs[0]];
      OneByteRoundTrip(bs[0]);
    } else if |bs| == 2 {
      assert bs == [bs[0], bs[1]];
      TwoBytesRoundTrip(bs[0], bs[1]);
    } else if |bs| == 3 {
      assert bs == [bs[0], bs[1], bs[2]];
      LastGroup(bs[0], bs[1], bs[2]);
    } else {
      DecodeEncode(bs[3..]);
      GroupThenRest(bs);
    }
  }

  /** `s` is alphabet digits followed by exactly `pads` pad characters. */
  ghost predicate Padded(s: string, pads: nat) {
    pads <= |s| &&
    (forall i :: 0 <= i < |s| - pads ==> IsDigit(s[i])) &&
    (forall i :: |s| - pads <= i < |s| ==> s[i] == Pad)
  }

  /** As section 4 of RFC 4648 requires, an encoding is alphabet digits followed by two pads
      when one byte is left over, one when two are, and none otherwise. */
  lemma {:induction false} EncodeAlphabet(bs: seq<Byte>)
    ensures Padded(Encode(bs), (3 - |bs| % 3) % 3)
    decreases |bs|
  {
    if |bs| > 2 {
      var t := Encode(bs[3..]);
      EncodeAlphabet(bs[3..]);
      assert (3 - |bs[3..]| % 3) % 3 == (3 - |bs| % 3) % 3;
      var g := EncodeGroup(bs[0], bs[1], bs[2]);
      var s := g + t;
      assert Encode(bs) == s;
      assert forall i :: 4 <= i < |s| ==> s[i] == t[i - 4];
      assert forall i :: 0 <= i < 4 ==> s[i] == g[i];
    }
  }

  /** The test vectors of section 10 of RFC 4648, which fix the alphabet's order and the bit
      layout: "", "f", "fo", "foo", "foob", "fooba" and "foobar". */
  lemma RfcTestVectors()
    ensures Encode([]) == ""
    ensures Encode([102]) == "Zg=="
    ensures Encode([102, 111]) == "Zm8="
    ensures Encode([102, 111, 111]) == "Zm9v"
    ensures Encode([102, 111, 111, 98]) == "Zm9vYg=="
    ensures Encode([102, 111, 111, 98, 97]) == "Zm9vYmE="
    ensures Encode([102, 111, 111, 98, 97, 114]) == "Zm9vYmFy"
  {
  }

  /** Two images with the same encoding are the same image. */
  lemma EncodeInjective(a: seq<Byte>, b: seq<Byte>)
    requires Encode(a) == Encode(b)
    ensures a == b
  {
    DecodeEncode(a);
    DecodeEncode(b);
  }
}
