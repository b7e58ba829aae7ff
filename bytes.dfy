// Bytes as the C library sees them: unsigned char values, the implicit
// truncation C performs when an int is stored into one, and the nibble
// split used for the packed version and date fields.

module Bytes {

  /** An `unsigned char`. */
  type Byte = b: int | 0 <= b < 256

  /** What C stores when an `int` expression is assigned to an
    * `unsigned char`: the value modulo 256 (Dafny's `%` is Euclidean,
    * so negative values wrap the way the C conversion does). */
  function Trunc8(x: int): (b: Byte)
    ensures b % 256 == x % 256
    ensures 0 <= x < 256 ==> b == x
  {
    x % 256
  }

  /** `v >> 4` of an unsigned char. */
  function High(v: Byte): (h: int)
    ensures 0 <= h < 16
  {
    v / 16
  }

  /** `v & 15` of an unsigned char. */
  function Low(v: Byte): (l: int)
    ensures 0 <= l < 16
  {
    v % 16
  }

  /** The nibble split is lossless: the two halves rebuild the byte. */
  lemma NibblesRebuild(v: Byte)
    ensures 16 * High(v) + Low(v) == v
  {
  }

  /** Doubling into a byte then halving gives the value back exactly when
    * the value is below 128; above that the doubled value wraps. */
  lemma DoubleThenHalve(x: Byte)
    ensures x < 128 ==> Trunc8(2 * x) / 2 == x
    ensures x >= 128 ==> Trunc8(2 * x) == 2 * x - 256
  {
  }

  /** Concatenation of a sequence of byte chunks, in order. */
  function Flatten(cs: seq<seq<Byte>>): (s: seq<Byte>)
    ensures |cs| == 0 ==> s == []
  {
    if |cs| == 0 then [] else cs[0] + Flatten(cs[1..])
  }

  /** The first `n` elements of `s`, or all of `s` when it is shorter. */
  function Take<T>(s: seq<T>, n: int): (t: seq<T>)
    ensures |t| == if n < 0 then 0 else if n <= |s| then n else |s|
    ensures forall i :: 0 <= i < |t| ==> t[i] == s[i]
  {
    if n <= 0 then [] else if n <= |s| then s[..n] else s
  }

  /** Taking past a short first part keeps all of it. */
  lemma TakeAppend<T>(a: seq<T>, b: seq<T>, n: int)
    requires |a| < n
    ensures Take(a + b, n) == a + Take(b, n - |a|)
  {
    var l := Take(a + b, n);
    var r := a + Take(b, n - |a|);
    assert |l| == |r|;
    forall i | 0 <= i < |l| ensures l[i] == r[i] {
      if i >= |a| {
        assert r[i] == Take(b, n - |a|)[i - |a|];
      }
    }
  }

  /** Flattening the first k + 1 chunks: the first chunk, then the next k. */
  lemma FlattenFirst(cs: seq<seq<Byte>>, k: nat)
    requires k < |cs|
    ensures Flatten(cs[..k + 1]) == cs[0] + Flatten(cs[1..][..k])
  {
    assert cs[..k + 1][1..] == cs[1..][..k];
  }
}
