/** The cluster map as the header of a delta file: little-endian 64-bit words. */
module DeltaHeader {
  import opened Bytes

  const MAX_CLUSTERS: nat := 1024 * 1024 * 64
  const HEADER: nat := 8 * MAX_CLUSTERS

  lemma Successor(b: byte)
    requires b != 255
    ensures (b + 1) as int == b as int + 1
  {}

  /** The byte with the value `x`. */
  function ToByte(x: nat): (b: byte)
    requires x < 256
    ensures b as int == x
  {
    if x == 0 then 0
    else
      Successor(ToByte(x - 1));
      ToByte(x - 1) + 1
  }

  /** The low byte of a word. */
  function Low(v: nat): (b: byte)
    ensures b as int == v % 256
  {
    ToByte(v % 256)
  }

  /** Byte `j` of the word `v` in memory. */
  function ByteOf(v: nat, j: nat): byte {
    if j == 0 then Low(v) else ByteOf(v / 256, j - 1)
  }

  /** The word that the `n` bytes from `at` on spell; bytes past the end of the file are not read and stay zero. */
  function Word(s: seq<byte>, at: nat, n: nat): nat
    decreases n
  {
    if n == 0 then 0 else At(s, at) as int + 256 * Word(s, at + 1, n - 1)
  }

  function Pow256(n: nat): nat {
    if n == 0 then 1 else 256 * Pow256(n - 1)
  }

  lemma {:induction false} WordOfBytes(s: seq<byte>, at: nat, n: nat, v: nat)
    requires v < Pow256(n) && forall j: nat :: j < n ==> At(s, at + j) == ByteOf(v, j)
    ensures Word(s, at, n) == v
    decreases n
  {
    if n > 0 {
      assert At(s, at + 0) == ByteOf(v, 0);
      forall j: nat | j < n - 1 ensures At(s, at + 1 + j) == ByteOf(v / 256, j) {
        assert At(s, at + (j + 1)) == ByteOf(v, j + 1);
      }
      WordOfBytes(s, at + 1, n - 1, v / 256);
    }
  }

  /** The bytes that write(2) takes from the map in memory. */
  function Encode(clusters: seq<nat>): (r: seq<byte>)
    ensures |r| == 8 * |clusters|
    ensures forall q :: 0 <= q < |r| ==> r[q] == ByteOf(clusters[q / 8], q % 8)
  {
    seq(8 * |clusters|, q requires 0 <= q < 8 * |clusters| => ByteOf(clusters[q / 8], q % 8))
  }

  /** ubi_read_cluster_map into a zeroed map. */
  function Decode(file: seq<byte>): (r: seq<nat>)
    ensures |r| == MAX_CLUSTERS
    ensures forall k :: 0 <= k < MAX_CLUSTERS ==> r[k] == Word(file, 8 * k, 8)
  {
    seq(MAX_CLUSTERS, k requires 0 <= k => Word(file, 8 * k, 8))
  }

  ghost predicate Words(clusters: seq<nat>) {
    |clusters| == MAX_CLUSTERS && forall k :: 0 <= k < |clusters| ==> clusters[k] < U64
  }

  /** Any file that begins with the header of `clusters` reads back as `clusters`. */
  lemma HeaderRoundTrip(file: seq<byte>, clusters: seq<nat>)
    requires Words(clusters) && forall q: nat :: q < HEADER ==> At(file, q) == Encode(clusters)[q]
    ensures Decode(file) == clusters
  {
    hide Encode, Decode;
    forall k | 0 <= k < MAX_CLUSTERS ensures Decode(file)[k] == clusters[k] {
      EntryRoundTrip(file, clusters, k);
    }
  }

  lemma EntryRoundTrip(file: seq<byte>, clusters: seq<nat>, k: nat)
    requires Words(clusters) && k < MAX_CLUSTERS && forall q: nat :: q < HEADER ==> At(file, q) == Encode(clusters)[q]
    ensures Word(file, 8 * k, 8) == clusters[k]
  {
    hide Encode, Word, ByteOf;
    forall j: nat | j < 8 ensures At(file, 8 * k + j) == ByteOf(clusters[k], j) {
      assert At(file, 8 * k + j) == Encode(clusters)[8 * k + j];
      assert (8 * k + j) / 8 == k && (8 * k + j) % 8 == j;
    }
    assert Pow256(8) == U64;
    WordOfBytes(file, 8 * k, 8, clusters[k]);
  }
}
