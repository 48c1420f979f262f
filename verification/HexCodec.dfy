/** Hexadecimal transport of audio bytes (section 8 of RFC 4648, lower-case output). */
module HexCodec {
  import opened Messages
  import opened Seqs

  const DIGITS := "0123456789abcdef"
  const UPPER_DIGITS := "0123456789ABCDEF"

  function Nibble(c: char): (n: int)
    ensures -1 <= n < 16
  {
    if '0' <= c <= '9' then (c - '0') as int
    else if 'a' <= c <= 'f' then 10 + (c - 'a') as int
    else if 'A' <= c <= 'F' then 10 + (c - 'A') as int
    else -1
  }

  /** A character stands for a number exactly when it is that digit in lower or upper case. */
  lemma NibbleMeans(c: char, n: int)
    requires 0 <= n < 16
    ensures Nibble(c) == n <==> c == DIGITS[n] || c == UPPER_DIGITS[n]
  {
    DigitNibble(n);
    assert n < 10 ==> UPPER_DIGITS[n] == '0' + n as char;
    assert n >= 10 ==> UPPER_DIGITS[n] == 'A' + (n - 10) as char;
  }

  /** Whole pairs of digits and nothing else. */
  predicate WellFormed(hex: string) {
    hex == "" || (|hex| > 1 && Nibble(hex[0]) >= 0 && Nibble(hex[1]) >= 0 && WellFormed(hex[2..]))
  }

  /** Two digits make a byte, the high one first. */
  function Pairs(hex: string): seq<Byte>
    requires WellFormed(hex)
  {
    if hex == "" then [] else [16 * Nibble(hex[0]) + Nibble(hex[1])] + Pairs(hex[2..])
  }

  /** The bytes a text stands for; anything malformed stands for no bytes at all. */
  function Decoded(hex: string): seq<Byte> {
    if WellFormed(hex) then Pairs(hex) else []
  }

  function Encoded(bytes: seq<Byte>): string {
    if bytes == [] then "" else [DIGITS[bytes[0] / 16], DIGITS[bytes[0] % 16]] + Encoded(bytes[1..])
  }

  lemma {:induction false} WellFormedMeans(hex: string)
    ensures WellFormed(hex) <==> |hex| % 2 == 0 && forall c <- hex :: Nibble(c) >= 0
  {
    if |hex| > 1 {
      WellFormedMeans(hex[2..]);
      assert hex == [hex[0], hex[1]] + hex[2..];
    }
  }

  /** Byte `k` of a well-formed text is its digits 2k and 2k + 1, the high one first. */
  lemma {:induction false} DecodedAt(hex: string, k: nat)
    requires WellFormed(hex) && k < |hex| / 2
    ensures |Decoded(hex)| == |hex| / 2 && Decoded(hex)[k] == 16 * Nibble(hex[2 * k]) + Nibble(hex[2 * k + 1])
  {
    PairsLength(hex);
    if k > 0 { DecodedAt(hex[2..], k - 1); }
  }

  lemma {:induction false} PairsLength(hex: string)
    requires WellFormed(hex)
    ensures |Pairs(hex)| == |hex| / 2
  {
    if hex != "" { PairsLength(hex[2..]); }
  }

  lemma DigitNibble(n: int)
    requires 0 <= n < 16
    ensures Nibble(DIGITS[n]) == n
  {
    assert n < 10 ==> DIGITS[n] == '0' + n as char;
    assert n >= 10 ==> DIGITS[n] == 'a' + (n - 10) as char;
  }

  lemma PairRoundTrip(hi: char, lo: char, b: Byte, rest: string)
    requires Nibble(hi) == b / 16 && Nibble(lo) == b % 16 && WellFormed(rest)
    ensures WellFormed([hi, lo] + rest) && Pairs([hi, lo] + rest) == [b] + Pairs(rest)
  {
    assert ([hi, lo] + rest)[2..] == rest;
  }

  lemma {:induction false} RoundTrip(bytes: seq<Byte>)
    ensures WellFormed(Encoded(bytes)) && Decoded(Encoded(bytes)) == bytes
  {
    if bytes != [] {
      var b := bytes[0];
      DigitNibble(b / 16);
      DigitNibble(b % 16);
      RoundTrip(bytes[1..]);
      PairRoundTrip(DIGITS[b / 16], DIGITS[b % 16], b, Encoded(bytes[1..]));
    }
  }

  /** The result when `out` has been read and `rest` is still to be. */
  function ReadOn(out: seq<Byte>, rest: string): seq<Byte> { if WellFormed(rest) then out + Pairs(rest) else [] }

  lemma NextPair(out: seq<Byte>, rest: string)
    requires |rest| > 1
    ensures ReadOn(out, rest) == if Nibble(rest[0]) < 0 || Nibble(rest[1]) < 0 then []
                                 else ReadOn(out + [16 * Nibble(rest[0]) + Nibble(rest[1])], rest[2..])
  {
    if WellFormed(rest) { Associative(out, [16 * Nibble(rest[0]) + Nibble(rest[1])], Pairs(rest[2..])); }
  }

  method HexDecode(hex: string) returns (out: seq<Byte>)
    ensures out == Decoded(hex)
  {
    if |hex| % 2 != 0 {
      WellFormedMeans(hex);
      return [];
    }
    out := [];
    var i := 0;
    while i < |hex|
      invariant 0 <= i <= |hex| && i % 2 == 0 && Decoded(hex) == ReadOn(out, hex[i..])
    {
      NextPair(out, hex[i..]);
      var hi, lo := Nibble(hex[i]), Nibble(hex[i + 1]);
      if hi < 0 || lo < 0 { return []; }
      assert hex[i..][2..] == hex[i + 2..];
      out := out + [16 * hi + lo];
      i := i + 2;
    }
  }

  lemma {:induction false} EncodedAppend(bytes: seq<Byte>, b: Byte)
    ensures Encoded(bytes + [b]) == Encoded(bytes) + [DIGITS[b / 16], DIGITS[b % 16]]
  {
    if bytes != [] {
      EncodedAppend(bytes[1..], b);
      assert (bytes + [b])[1..] == bytes[1..] + [b];
    }
  }

  method HexEncode(bytes: seq<Byte>) returns (out: string)
    ensures out == Encoded(bytes)
  {
    out := "";
    for k := 0 to |bytes|
      invariant out == Encoded(bytes[..k])
    {
      EncodedAppend(bytes[..k], bytes[k]);
      assert bytes[..k + 1] == bytes[..k] + [bytes[k]];
      out := out + [DIGITS[bytes[k] / 16]] + [DIGITS[bytes[k] % 16]];
    }
    assert bytes[..|bytes|] == bytes;
  }
}
