/** Lower-case base16 encoding (section 8 of RFC 4648, with the lower-case
    alphabet that Go's encoding/hex emits) and its inverse. */
module Hex {

  import opened Wrappers
  import opened SeqFacts

  type byte = x: int | 0 <= x < 256

  /** The encoding alphabet: digit value v is written as Alphabet[v]. */
  const Alphabet: string := "0123456789abcdef"

  predicate IsHexDigit(c: char) {
    c in Alphabet
  }

  /** The two digits of one byte, high nibble first. */
  function EncodeByte(b: byte): (s: string)
    ensures |s| == 2 && IsHexDigit(s[0]) && IsHexDigit(s[1])
  {
    [Alphabet[b / 16], Alphabet[b % 16]]
  }

  /** hex.EncodeToString: two digits per byte, in order. */
  function Encode(bs: seq<byte>): (s: string)
    ensures |s| == 2 * |bs|
    ensures forall i | 0 <= i < |s| :: IsHexDigit(s[i])
    decreases |bs|
  {
    if bs == [] then [] else EncodeByte(bs[0]) + Encode(bs[1..])
  }

  /** The value of a digit of the alphabet. */
  function DigitValue(c: char): (v: int)
    requires IsHexDigit(c)
    ensures 0 <= v < 16 && Alphabet[v] == c
  {
    if '0' <= c <= '9' then c as int - '0' as int else c as int - 'a' as int + 10
  }

  /** The byte written as two digits, high nibble first. */
  function DigitPair(hi: char, lo: char): (b: byte)
    requires IsHexDigit(hi) && IsHexDigit(lo)
  {
    DigitValue(hi) * 16 + DigitValue(lo)
  }

  /** Decoding over the lower-case alphabet; None for an odd length or a
      character outside the alphabet. */
  function Decode(s: string): (r: Option<seq<byte>>)
    ensures r.Some? ==> 2 * |r.value| == |s|
    decreases |s|
  {
    if s == [] then Some([])
    else if |s| < 2 || !IsHexDigit(s[0]) || !IsHexDigit(s[1]) then None
    else
      match Decode(s[2..])
      case None => None
      case Some(rest) => Some([DigitPair(s[0], s[1])] + rest)
  }

  /** Each digit of the alphabet reads back as its own value. */
  lemma DigitValueOfAlphabet(v: int)
    requires 0 <= v < 16
    ensures DigitValue(Alphabet[v]) == v
  {
    assert Alphabet[v] == if v < 10 then ('0' as int + v) as char else ('a' as int + v - 10) as char;
  }

  /** The two digits of a byte read back as that byte. */
  lemma DecodeEncodeByte(b: byte)
    ensures DigitPair(EncodeByte(b)[0], EncodeByte(b)[1]) == b
  {
    DigitValueOfAlphabet(b / 16);
    DigitValueOfAlphabet(b % 16);
  }

  /** One step of decoding: two digits, then the rest. */
  lemma DecodeStep(s: string, rest: seq<byte>)
    requires |s| >= 2 && IsHexDigit(s[0]) && IsHexDigit(s[1])
    requires Decode(s[2..]) == Some(rest)
    ensures Decode(s) == Some([DigitPair(s[0], s[1])] + rest)
  {
  }

  /** The encoding of a non-empty sequence starts with its first byte's digits. */
  lemma EncodeCons(bs: seq<byte>)
    requires bs != []
    ensures Encode(bs)[0] == EncodeByte(bs[0])[0] && Encode(bs)[1] == EncodeByte(bs[0])[1]
    ensures Encode(bs)[2..] == Encode(bs[1..])
  {
    assert Encode(bs) == EncodeByte(bs[0]) + Encode(bs[1..]);
  }

  /** Decoding undoes encoding. */
  lemma {:induction false} DecodeEncode(bs: seq<byte>)
    ensures Decode(Encode(bs)) == Some(bs)
    decreases |bs|
  {
    if bs != [] {
      var s := Encode(bs);
      EncodeCons(bs);
      DecodeEncode(bs[1..]);
      DecodeEncodeByte(bs[0]);
      DecodeStep(s, bs[1..]);
      assert [bs[0]] + bs[1..] == bs;
    }
  }

  /** The first 2k digits of an encoding are the encoding of the first k bytes. */
  lemma {:induction false} EncodePrefix(bs: seq<byte>, k: nat)
    requires k <= |bs|
    ensures Encode(bs)[..2 * k] == Encode(bs[..k])
    decreases k
  {
    if k > 0 {
      var rest := bs[1..];
      EncodePrefix(rest, k - 1);
      assert bs[..k] == [bs[0]] + rest[..k - 1];
      assert Encode(bs) == EncodeByte(bs[0]) + Encode(rest);
      assert Encode(bs[..k]) == EncodeByte(bs[0]) + Encode(rest[..k - 1]);
      PrefixOfConcat(EncodeByte(bs[0]), Encode(rest), 2 * (k - 1));
    }
  }
}
