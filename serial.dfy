// The serial line as the library drives it.  What the device and the
// kernel will do is given in advance: a script of write outcomes (a
// write fails where the script says false) and the chunks the receive
// calls will return, at most 32 bytes each as the library's temporary
// buffer allows; running out of chunks is the receive timeout.  The pure
// functions here say what a sequence of sends and one reception produce.

module Serial {
  import opened Bytes
  import opened TBanDefs

  /** `sizeof(local_buf)` in tban_readData. */
  const READ_CHUNK: nat := 32

  predicate ChunksFit(rx: seq<seq<Byte>>)
  {
    forall i :: 0 <= i < |rx| ==> |rx[i]| <= READ_CHUNK
  }

  /** Whether the next write succeeds (an exhausted script lets every
    * write through). */
  predicate WriteOk(script: seq<bool>)
  {
    |script| == 0 || script[0]
  }

  /** The script after n write attempts. */
  function DropN(script: seq<bool>, n: nat): (s: seq<bool>)
    ensures n >= |script| ==> s == []
    ensures n < |script| ==> s == script[n..]
  {
    if n >= |script| then [] else script[n..]
  }

  /** How many of n writes in a row succeed before the first failure. */
  function Accepted(script: seq<bool>, n: nat): (k: nat)
    ensures k <= n
    ensures k < n ==> !WriteOk(DropN(script, k))
    ensures forall j :: 0 <= j < k ==> WriteOk(DropN(script, j))
    decreases n
  {
    if n == 0 then 0
    else if !WriteOk(script) then 0
    else
      var k := Accepted(DropN(script, 1), n - 1);
      DropShift(script, k);
      assert forall j :: 1 <= j < k + 1 ==> DropN(script, j) == DropN(DropN(script, 1), j - 1);
      assert DropN(script, 0) == script;
      1 + k
  }

  lemma DropShift(script: seq<bool>, k: nat)
    ensures forall j :: 0 <= j <= k ==> DropN(DropN(script, 1), j) == DropN(script, j + 1)
  {
  }

  /** Gathering `need` bytes: chunks are taken in order until at least
    * `need` bytes have arrived, the last one cut down to fit. */
  function Gather(rx: seq<seq<Byte>>, need: nat): (g: (nat, seq<Byte>))
    requires need > 0
    ensures g.0 <= |rx| && |g.1| <= need
    decreases |rx|
  {
    if |rx| == 0 then (0, [])
    else if |rx[0]| >= need then (1, rx[0][..need])
    else
      var g := Gather(rx[1..], need - |rx[0]|);
      (1 + g.0, rx[0] + g.1)
  }

  /** What a gathering takes and keeps: the start of the chunks it took,
    * all of them when too few bytes arrive, and no chunk more than it
    * needed. */
  lemma {:induction false} GatherMeaning(rx: seq<seq<Byte>>, need: nat)
    requires need > 0
    ensures var g := Gather(rx, need);
      (|rx| > 0 ==> g.0 > 0) &&
      g.1 == Take(Flatten(rx[..g.0]), need) &&
      (|g.1| == need || g.0 == |rx|) &&
      (g.0 > 0 ==> |Flatten(rx[..g.0 - 1])| < need)
    decreases |rx|
  {
    if |rx| == 0 {
    } else if |rx[0]| >= need {
      assert rx[..1][1..] == [];
      FlattenFirst(rx, 0);
      assert rx[..0] == [];
    } else {
      GatherMeaning(rx[1..], need - |rx[0]|);
      var g := Gather(rx[1..], need - |rx[0]|);
      FlattenFirst(rx, g.0);
      TakeAppend(rx[0], Flatten(rx[1..][..g.0]), need);
      FlattenBefore(rx, g.0);
    }
  }

  lemma FlattenBefore(rx: seq<seq<Byte>>, m: nat)
    requires m < |rx|
    ensures m == 0 ==> Flatten(rx[..m]) == []
    ensures m > 0 ==> Flatten(rx[..m]) == rx[0] + Flatten(rx[1..][..m - 1])
  {
    if m > 0 {
      FlattenFirst(rx, m - 1);
    } else {
      assert rx[..m] == [];
    }
  }

  /** The outcome of one reception: status, the bytes stored and how many
    * chunks were taken from the line. */
  datatype Reception = Reception(code: int, data: seq<Byte>, consumed: nat)

  /** tban_readData: nothing arriving is a timeout; asking for zero bytes
    * takes one chunk, stores nothing and waits for the timeout; otherwise
    * the reception succeeds exactly when `expected` bytes arrive before
    * the line falls silent. */
  function ReadSpec(rx: seq<seq<Byte>>, expected: nat): (v: Reception)
    ensures v.code == OK || v.code == ERECEIVE
    ensures v.consumed <= |rx| && |v.data| <= expected
    ensures v.code == OK <==> expected > 0 && |Take(Flatten(rx), expected)| == expected
    ensures v.code == OK ==> v.data == Take(Flatten(rx), expected)
  {
    if |rx| == 0 then Reception(ERECEIVE, [], 0)
    else if expected == 0 then Reception(ERECEIVE, [], 1)
    else
      var g := Gather(rx, expected);
      GatherPrefix(rx, expected);
      Reception(if |g.1| == expected then OK else ERECEIVE, g.1, g.0)
  }

  /** What is gathered is the start of everything the line would deliver. */
  lemma GatherPrefix(rx: seq<seq<Byte>>, need: nat)
    requires need > 0
    ensures Gather(rx, need).1 == Take(Flatten(rx), need)
  {
    var g := Gather(rx, need);
    GatherMeaning(rx, need);
    FlattenSplit(rx, g.0);
    if |g.1| == need {
      var f := Flatten(rx);
      assert f == Flatten(rx[..g.0]) + Flatten(rx[g.0..]);
      assert Take(f, need) == Take(Flatten(rx[..g.0]), need);
    } else {
      assert rx[..g.0] == rx;
    }
  }

  lemma {:induction false} FlattenSplit(cs: seq<seq<Byte>>, k: nat)
    requires k <= |cs|
    ensures Flatten(cs) == Flatten(cs[..k]) + Flatten(cs[k..])
    decreases k
  {
    if k == 0 {
      assert cs[..0] == [] && cs[0..] == cs;
    } else {
      FlattenSplit(cs[1..], k - 1);
      FlattenFirst(cs, k - 1);
      assert cs[1..][k - 1..] == cs[k..];
    }
  }

  /** A destination after a reception: the received bytes at the front,
    * everything after them as it was. */
  predicate Filled(before: seq<Byte>, after: seq<Byte>, data: seq<Byte>)
  {
    |after| == |before| && |data| <= |before| &&
    after[..|data|] == data && after[|data|..] == before[|data|..]
  }
}
