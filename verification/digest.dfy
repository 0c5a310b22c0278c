/**
 * The textual form of a content digest (`hexToDigest`): the raw SHA-256
 * result written as fixed-width lowercase hexadecimal after the `sha256:`
 * algorithm prefix, together with the decoder that inverts it.
 */
module Digests {
  import opened Wrappers
  import opened Streams
  import opened Text

  const Sha256Prefix: string := "sha256:"

  predicate IsLowerHex(c: char)
  {
    '0' <= c <= '9' || 'a' <= c <= 'f'
  }

  /** One hexadecimal digit, lowercase, for a value below 16. */
  function NibbleChar(n: nat): (c: char)
    requires n < 16
    ensures IsLowerHex(c)
  {
    if n < 10 then (48 + n) as char else (87 + n) as char
  }

  function NibbleValue(c: char): (n: nat)
    requires IsLowerHex(c)
    ensures n < 16
  {
    if c <= '9' then c as int - 48 else c as int - 87
  }

  /** `b.toString(16).padStart(2, '0')`: the high nibble, then the low nibble. */
  function ByteHex(b: byte): (s: string)
    ensures |s| == 2 && IsLowerHex(s[0]) && IsLowerHex(s[1])
    ensures NibbleValue(s[0]) * 16 + NibbleValue(s[1]) == b as int
  {
    NibbleRoundTrip(b as int / 16);
    NibbleRoundTrip(b as int % 16);
    [NibbleChar(b as int / 16), NibbleChar(b as int % 16)]
  }

  /** The `map(...).join('')` over the bytes of the hash. */
  function Hex(bytes: seq<byte>): (s: string)
    ensures |s| == 2 * |bytes|
    ensures forall i :: 0 <= i < |s| ==> IsLowerHex(s[i])
  {
    if bytes == [] then "" else ByteHex(bytes[0]) + Hex(bytes[1..])
  }

  /** `hexToDigest`: the digest string reported in `Docker-Content-Digest` and used as a key. */
  function HexToDigest(hash: seq<byte>): (d: string)
    ensures StartsWith(d, Sha256Prefix)
    ensures |d| == |Sha256Prefix| + 2 * |hash|
    ensures forall i :: |Sha256Prefix| <= i < |d| ==> IsLowerHex(d[i])
  {
    Sha256Prefix + Hex(hash)
  }

  /** Byte i is written at offsets 2i and 2i+1 of the hex text, high nibble first. */
  lemma {:induction false} HexAt(bytes: seq<byte>, i: nat)
    requires i < |bytes|
    ensures Hex(bytes)[2 * i] == NibbleChar(bytes[i] as int / 16)
    ensures Hex(bytes)[2 * i + 1] == NibbleChar(bytes[i] as int % 16)
    decreases i
  {
    if i > 0 {
      HexAt(bytes[1..], i - 1);
    }
  }

  /** The same position in the full digest string: after the 7-character prefix. */
  lemma DigestCharAt(hash: seq<byte>, i: nat)
    requires i < |hash|
    ensures HexToDigest(hash)[7 + 2 * i] == NibbleChar(hash[i] as int / 16)
    ensures HexToDigest(hash)[8 + 2 * i] == NibbleChar(hash[i] as int % 16)
  {
    HexAt(hash, i);
  }

  /** An even number of lowercase hex digits: the texts `Hex` can produce. */
  predicate IsHexText(s: string)
  {
    |s| % 2 == 0 && forall i :: 0 <= i < |s| ==> IsLowerHex(s[i])
  }

  /** Reads pairs of lowercase hex digits back into bytes; anything else is rejected. */
  function DecodeHex(s: string): (r: Option<seq<byte>>)
    ensures r.Some? <==> IsHexText(s)
    ensures r.Some? ==> 2 * |r.value| == |s|
    decreases |s|
  {
    if s == [] then Some([])
    else if |s| < 2 || !IsLowerHex(s[0]) || !IsLowerHex(s[1]) then None
    else
      match DecodeHex(s[2..])
      case None => None
      case Some(rest) => Some([PairByte(s[0], s[1])] + rest)
  }

  /** The byte two hex digits spell, high nibble first. */
  function PairByte(hi: char, lo: char): (b: byte)
    requires IsLowerHex(hi) && IsLowerHex(lo)
    ensures b as int == NibbleValue(hi) * 16 + NibbleValue(lo)
  {
    (NibbleValue(hi) * 16 + NibbleValue(lo)) as byte
  }

  lemma NibbleSplit(h: nat, l: nat)
    requires h < 16 && l < 16
    ensures (h * 16 + l) / 16 == h && (h * 16 + l) % 16 == l
  {
  }

  lemma NibbleRoundTrip(n: nat)
    requires n < 16
    ensures NibbleValue(NibbleChar(n)) == n
  {
  }

  lemma NibbleCharOfValue(c: char)
    requires IsLowerHex(c)
    ensures NibbleChar(NibbleValue(c)) == c
  {
  }

  lemma ByteHexRoundTrip(b: byte)
    ensures PairByte(ByteHex(b)[0], ByteHex(b)[1]) == b
  {
    var h := ByteHex(b);
    NibbleRoundTrip(b as int / 16);
    NibbleRoundTrip(b as int % 16);
    var p := PairByte(h[0], h[1]);
    assert p as int == b as int;
  }

  lemma PairByteHex(hi: char, lo: char)
    requires IsLowerHex(hi) && IsLowerHex(lo)
    ensures ByteHex(PairByte(hi, lo)) == [hi, lo]
  {
    NibbleCharOfValue(hi);
    NibbleCharOfValue(lo);
    NibbleSplit(NibbleValue(hi), NibbleValue(lo));
  }

  /** The bytes a `sha256:` digest string names, if it is one written in this form. */
  function DigestBytes(d: string): Option<seq<byte>>
  {
    if StartsWith(d, Sha256Prefix) then DecodeHex(d[|Sha256Prefix|..]) else None
  }

  lemma {:induction false} DecodeHexOfHex(bytes: seq<byte>)
    ensures DecodeHex(Hex(bytes)) == Some(bytes)
    decreases |bytes|
  {
    if bytes != [] {
      var s := Hex(bytes);
      assert s[2..] == Hex(bytes[1..]);
      DecodeHexOfHex(bytes[1..]);
      ByteHexRoundTrip(bytes[0]);
      assert bytes == [bytes[0]] + bytes[1..];
    }
  }

  lemma {:induction false} HexOfDecodeHex(s: string)
    requires DecodeHex(s).Some?
    ensures Hex(DecodeHex(s).value) == s
    decreases |s|
  {
    if s != [] {
      HexOfDecodeHex(s[2..]);
      PairByteHex(s[0], s[1]);
      var bytes := DecodeHex(s).value;
      assert bytes == [PairByte(s[0], s[1])] + DecodeHex(s[2..]).value;
      assert s == [s[0], s[1]] + s[2..];
    }
  }

  /** Reading the digest back recovers the hash: the encoding loses nothing. */
  lemma DigestRoundTrip(hash: seq<byte>)
    ensures DigestBytes(HexToDigest(hash)) == Some(hash)
  {
    var d := HexToDigest(hash);
    assert d[|Sha256Prefix|..] == Hex(hash);
    DecodeHexOfHex(hash);
  }

  /** ...and every string the decoder accepts is exactly the encoding of what it returns. */
  lemma DigestBytesExact(d: string)
    requires DigestBytes(d).Some?
    ensures HexToDigest(DigestBytes(d).value) == d
  {
    HexOfDecodeHex(d[|Sha256Prefix|..]);
    assert d == d[..|Sha256Prefix|] + d[|Sha256Prefix|..];
  }

  /** Distinct hashes give distinct digest strings (and so distinct store keys). */
  lemma HexToDigestInjective(a: seq<byte>, b: seq<byte>)
    requires HexToDigest(a) == HexToDigest(b)
    ensures a == b
  {
    DigestRoundTrip(a);
    DigestRoundTrip(b);
  }
}
