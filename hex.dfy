/**
 * Object identifiers and their hexadecimal text: libgit2's git.Oid (parsed by
 * git.NewOid, which rejects bad text) and go-git's plumbing.Hash (parsed by
 * plumbing.NewHash, which never fails). Both are 20 bytes.
 */
module Hex {
  import opened Wrappers

  type byte = x: int | 0 <= x < 256

  /** n zero bytes. */
  function Zeros(n: nat): (z: seq<byte>)
    ensures |z| == n && forall i :: 0 <= i < n ==> z[i] == 0
  {
    if n == 0 then [] else [0] + Zeros(n - 1)
  }

  /** A 20-byte object id. */
  type Oid = s: seq<byte> | |s| == 20 witness Zeros(20)

  /** The value of a hexadecimal digit, or -1 for any other character. */
  function HexDigit(c: char): (v: int)
    ensures -1 <= v < 16
  {
    if '0' <= c <= '9' then c as int - '0' as int
    else if 'a' <= c <= 'f' then c as int - 'a' as int + 10
    else if 'A' <= c <= 'F' then c as int - 'A' as int + 10
    else -1
  }

  predicate IsHex(c: char) {
    HexDigit(c) >= 0
  }

  /** The lower-case digit encoding a value below 16. */
  function LowerDigit(v: int): char
    requires 0 <= v < 16
  {
    if v < 10 then ('0' as int + v) as char else ('a' as int + v - 10) as char
  }

  /**
   * The bytes hex.Decode writes before it stops: one per leading pair of
   * hexadecimal digits.
   */
  function DecodePairs(s: string): (b: seq<byte>)
    ensures |b| <= |s| / 2
  {
    if |s| < 2 || !IsHex(s[0]) || !IsHex(s[1]) then []
    else [HexDigit(s[0]) * 16 + HexDigit(s[1])] + DecodePairs(s[2..])
  }

  /** hex.DecodeString succeeds: even length and hexadecimal digits only. */
  predicate DecodesCleanly(s: string) {
    |s| % 2 == 0 && forall i :: 0 <= i < |s| ==> IsHex(s[i])
  }

  /** hex.EncodeToString, which is what Oid.String() and Hash.String() print. */
  function HexString(b: seq<byte>): (s: string)
    ensures |s| == 2 * |b|
  {
    if b == [] then ""
    else [LowerDigit(b[0] / 16), LowerDigit(b[0] % 16)] + HexString(b[1..])
  }

  /** git.NewOid: at most 40 characters, clean hexadecimal, exactly 20 bytes. */
  function NewOid(s: string): Result<Oid> {
    if |s| > 40 then Err(InvalidOid(s))
    else if !DecodesCleanly(s) then Err(InvalidOid(s))
    else if |DecodePairs(s)| != 20 then Err(InvalidOid(s))
    else Ok(DecodePairs(s))
  }

  /** plumbing.NewHash: decode what can be decoded, copy at most 20 bytes, zero the rest. */
  function NewHash(s: string): Oid {
    var b := DecodePairs(s);
    if |b| >= 20 then b[..20] else b + Zeros(20 - |b|)
  }

  /** plumbing.ZeroHash. */
  const ZeroHash: Oid := Zeros(20)

  /** Hash.IsZero. */
  predicate IsZero(h: Oid) {
    h == ZeroHash
  }

  lemma {:induction false} DecodeAllPairs(s: string)
    requires DecodesCleanly(s)
    ensures |DecodePairs(s)| == |s| / 2
  {
    if |s| >= 2 {
      DecodeAllPairs(s[2..]);
    }
  }

  /** git.NewOid accepts exactly the 40-character hexadecimal strings. */
  lemma NewOidAccepts(s: string)
    ensures NewOid(s).Ok? <==> |s| == 40 && forall i :: 0 <= i < |s| ==> IsHex(s[i])
  {
    if |s| == 40 && forall i :: 0 <= i < |s| ==> IsHex(s[i]) {
      DecodeAllPairs(s);
    }
  }

  lemma {:induction false} DecodeEncode(b: seq<byte>)
    ensures DecodesCleanly(HexString(b))
    ensures DecodePairs(HexString(b)) == b
  {
    if b != [] {
      DecodeEncode(b[1..]);
      var s := HexString(b);
      assert s[2..] == HexString(b[1..]);
      assert HexDigit(s[0]) == b[0] / 16 && HexDigit(s[1]) == b[0] % 16;
    }
  }

  /** The text an Oid prints as parses back to the same Oid. */
  lemma NewOidRoundTrip(o: Oid)
    ensures NewOid(HexString(o)) == Ok(o)
  {
    DecodeEncode(o);
  }

  /** The text a Hash prints as parses back to the same Hash. */
  lemma NewHashRoundTrip(h: Oid)
    ensures NewHash(HexString(h)) == h
  {
    DecodeEncode(h);
  }

  /** plumbing.NewHash of text that is not hexadecimal at all is the zero hash. */
  lemma NewHashOfNonHex(s: string)
    requires |s| < 2 || !IsHex(s[0]) || !IsHex(s[1])
    ensures IsZero(NewHash(s))
  {
  }
}
