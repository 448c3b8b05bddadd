/** The standard base 64 encoding with padding (section 4 of RFC 4648) that BYTES parameters are
    sent in, with a decoder that shows the encoding loses nothing. */
module Base64 {
  import opened Wrappers
  import opened JavaValues

  /** The character for a 6-bit value, following the alphabet of Table 1 of RFC 4648. */
  function CharOf(n: nat): (c: char)
    requires n < 64
    ensures c != '='
  {
    if n < 26 then ('A' as int + n) as char
    else if n < 52 then ('a' as int + (n - 26)) as char
    else if n < 62 then ('0' as int + (n - 52)) as char
    else if n == 62 then '+'
    else '/'
  }

  /** The 6-bit value of an alphabet character; `None` for any other character. */
  function IndexOf(c: char): (r: Option<nat>)
    ensures r.Some? ==> r.value < 64
  {
    if 'A' <= c <= 'Z' then Some((c as int) - ('A' as int))
    else if 'a' <= c <= 'z' then Some((c as int) - ('a' as int) + 26)
    else if '0' <= c <= '9' then Some((c as int) - ('0' as int) + 52)
    else if c == '+' then Some(62)
    else if c == '/' then Some(63)
    else None
  }

  lemma IndexOfCharOf(n: nat)
    requires n < 64
    ensures IndexOf(CharOf(n)) == Some(n)
  {
  }

  /** Three bytes as four characters: their 24 bits split into four 6-bit groups, most
      significant first. */
  function EncodeGroup(b0: byte, b1: byte, b2: byte): string
  {
    var x0, x1, x2 := b0 as int, b1 as int, b2 as int;
    [CharOf(x0 / 4), CharOf((x0 % 4) * 16 + x1 / 16), CharOf((x1 % 16) * 4 + x2 / 64), CharOf(x2 % 64)]
  }

  /** `BaseEncoding.base64().encode(bytes)`: full groups, then one or two trailing bytes, their
      bits filled up with zeros to whole characters and padded with `=` to a group of four. */
  function Encode(bs: seq<byte>): (s: string)
    ensures |s| == 4 * ((|bs| + 2) / 3)
    ensures forall i :: 0 <= i < |s| ==> s[i] == '=' || IndexOf(s[i]).Some?
    decreases |bs|
  {
    if |bs| == 0 then []
    else if |bs| == 1 then
      var x0 := bs[0] as int;
      IndexOfCharOf(x0 / 4);
      IndexOfCharOf((x0 % 4) * 16);
      [CharOf(x0 / 4), CharOf((x0 % 4) * 16), '=', '=']
    else if |bs| == 2 then
      var x0, x1 := bs[0] as int, bs[1] as int;
      IndexOfCharOf(x0 / 4);
      IndexOfCharOf((x0 % 4) * 16 + x1 / 16);
      IndexOfCharOf((x1 % 16) * 4);
      [CharOf(x0 / 4), CharOf((x0 % 4) * 16 + x1 / 16), CharOf((x1 % 16) * 4), '=']
    else
      var head := EncodeGroup(bs[0], bs[1], bs[2]);
      GroupAlphabet(bs[0], bs[1], bs[2]);
      head + Encode(bs[3..])
  }

  lemma GroupAlphabet(b0: byte, b1: byte, b2: byte)
    ensures forall i :: 0 <= i < 4 ==> IndexOf(EncodeGroup(b0, b1, b2)[i]).Some?
  {
    var x0, x1, x2 := b0 as int, b1 as int, b2 as int;
    IndexOfCharOf(x0 / 4);
    IndexOfCharOf((x0 % 4) * 16 + x1 / 16);
    IndexOfCharOf((x1 % 16) * 4 + x2 / 64);
    IndexOfCharOf(x2 % 64);
  }

  /** Four unpadded characters back to three bytes. */
  function DecodeGroup(s: string): Option<seq<byte>>
    requires |s| == 4
  {
    match (IndexOf(s[0]), IndexOf(s[1]), IndexOf(s[2]), IndexOf(s[3]))
    case (Some(i0), Some(i1), Some(i2), Some(i3)) =>
      Some([(i0 * 4 + i1 / 16) as byte, ((i1 % 16) * 16 + i2 / 4) as byte, ((i2 % 4) * 64 + i3) as byte])
    case _ => None
  }

  /** The last group, which may end in one or two `=`. */
  function DecodeLast(s: string): Option<seq<byte>>
    requires |s| == 4
  {
    if s[2] == '=' && s[3] == '=' then
      match (IndexOf(s[0]), IndexOf(s[1]))
      case (Some(i0), Some(i1)) => Some([(i0 * 4 + i1 / 16) as byte])
      case _ => None
    else if s[3] == '=' then
      match (IndexOf(s[0]), IndexOf(s[1]), IndexOf(s[2]))
      case (Some(i0), Some(i1), Some(i2)) =>
        Some([(i0 * 4 + i1 / 16) as byte, ((i1 % 16) * 16 + i2 / 4) as byte])
      case _ => None
    else DecodeGroup(s)
  }

  /** Decoding of padded base 64 text; `None` for text that is not a multiple of four characters
      or holds a character outside the alphabet. */
  function Decode(s: string): Option<seq<byte>>
    decreases |s|
  {
    if s == [] then Some([])
    else if |s| < 4 then None
    else if |s| == 4 then DecodeLast(s)
    else
      match (DecodeGroup(s[..4]), Decode(s[4..]))
      case (Some(head), Some(tail)) => Some(head + tail)
      case _ => None
  }

  /** The bit arithmetic of one group: the 6-bit groups of two adjacent bytes put back together. */
  lemma SplitJoin(x0: int, x1: int, x2: int)
    requires 0 <= x0 < 256 && 0 <= x1 < 256 && 0 <= x2 < 256
    ensures (x0 / 4) * 4 + ((x0 % 4) * 16 + x1 / 16) / 16 == x0
    ensures (((x0 % 4) * 16 + x1 / 16) % 16) * 16 + ((x1 % 16) * 4 + x2 / 64) / 4 == x1
    ensures (((x1 % 16) * 4 + x2 / 64) % 4) * 64 + x2 % 64 == x2
  {
  }

  lemma GroupRoundTrip(b0: byte, b1: byte, b2: byte)
    ensures DecodeGroup(EncodeGroup(b0, b1, b2)) == Some([b0, b1, b2])
  {
    var x0, x1, x2 := b0 as int, b1 as int, b2 as int;
    IndexOfCharOf(x0 / 4);
    IndexOfCharOf((x0 % 4) * 16 + x1 / 16);
    IndexOfCharOf((x1 % 16) * 4 + x2 / 64);
    IndexOfCharOf(x2 % 64);
    SplitJoin(x0, x1, x2);
  }

  lemma OneByteRoundTrip(b0: byte)
    ensures Decode(Encode([b0])) == Some([b0])
  {
    var x0 := b0 as int;
    IndexOfCharOf(x0 / 4);
    IndexOfCharOf((x0 % 4) * 16);
    SplitJoin(x0, 0, 0);
  }

  lemma TwoBytesRoundTrip(b0: byte, b1: byte)
    ensures Decode(Encode([b0, b1])) == Some([b0, b1])
  {
    var x0, x1 := b0 as int, b1 as int;
    var s := Encode([b0, b1]);
    IndexOfCharOf(x0 / 4);
    IndexOfCharOf((x0 % 4) * 16 + x1 / 16);
    IndexOfCharOf((x1 % 16) * 4);
    SplitJoin(x0, x1, 0);
    assert s[2] != '=' && s[3] == '=';
  }

  /** Decoding text made of one unpadded group and at least one more group. */
  lemma DecodeCons(head: string, tail: string, a: seq<byte>, b: seq<byte>)
    requires |head| == 4 && |tail| >= 4
    requires DecodeGroup(head) == Some(a) && Decode(tail) == Some(b)
    ensures Decode(head + tail) == Some(a + b)
  {
    var s := head + tail;
    assert s[..4] == head && s[4..] == tail;
  }

  /** Decoding what `Encode` wrote gives the bytes back. */
  lemma {:induction false} RoundTrip(bs: seq<byte>)
    ensures Decode(Encode(bs)) == Some(bs)
    decreases |bs|
  {
    if |bs| == 1 {
      assert bs == [bs[0]];
      OneByteRoundTrip(bs[0]);
    } else if |bs| == 2 {
      assert bs == [bs[0], bs[1]];
      TwoBytesRoundTrip(bs[0], bs[1]);
    } else if |bs| == 3 {
      assert bs == [bs[0], bs[1], bs[2]];
      GroupRoundTrip(bs[0], bs[1], bs[2]);
    } else if |bs| > 3 {
      var head, rest := bs[..3], bs[3..];
      assert head == [bs[0], bs[1], bs[2]];
      GroupRoundTrip(bs[0], bs[1], bs[2]);
      RoundTrip(rest);
      DecodeCons(EncodeGroup(bs[0], bs[1], bs[2]), Encode(rest), head, rest);
      assert bs == head + rest;
    }
  }

  /** Distinct byte sequences have distinct encodings. */
  lemma EncodeInjective(a: seq<byte>, b: seq<byte>)
    ensures Encode(a) == Encode(b) ==> a == b
  {
    RoundTrip(a);
    RoundTrip(b);
  }

  /** The bytes 0, 1, 2 encode as "AAEC". */
  lemma EncodeExample()
    ensures Encode([0, 1, 2]) == "AAEC"
  {
    var bs: seq<byte> := [0, 1, 2];
    assert bs[3..] == [];
  }
}
