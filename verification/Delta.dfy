/**
 * The snapshot delta: a log of whole clusters behind a header that maps each cluster to its place.
 * The writer side (spdk_bs_dev_delta.c) as transitions of a channel, and what its log holds after any history.
 */
module Delta {
  import opened Bytes
  import opened Bits
  import opened DeltaHeader

  const EIO: int := 5
  const U32: nat := 0x1_0000_0000

  datatype Geometry = Geometry(blockLen: nat, clusterSize: nat) {
    predicate Valid() {
      && PowerOfTwo(blockLen) && PowerOfTwo(clusterSize)
      && blockLen <= clusterSize < U32 / 2
    }

    function ClusterBlocks(): nat
      requires blockLen > 0
    {
      clusterSize / blockLen
    }
  }

  /** Powers of two divide each other, so a cluster is a whole number of blocks, itself a power of two. */
  lemma {:induction false} Pow2Quotient(a: nat, b: nat)
    requires Pow2(b) <= Pow2(a)
    ensures b <= a && Pow2(a) == Pow2(a - b) * Pow2(b)
    decreases a
  {
    if b == 0 {
    } else if a == 0 {
      assert false;
    } else {
      Pow2Quotient(a - 1, b - 1);
      assert Pow2(a) == 2 * (Pow2(a - b) * Pow2(b - 1)) == Pow2(a - b) * (2 * Pow2(b - 1));
    }
  }

  lemma GeometryFacts(g: Geometry)
    requires g.Valid()
    ensures g.ClusterBlocks() == Pow2(Log2(g.ClusterBlocks())) && 0 < g.ClusterBlocks() < U32 / 2
    ensures g.ClusterBlocks() * g.blockLen == g.clusterSize
  {
    hide Pow2, Log2;
    var a, b := Log2(g.clusterSize), Log2(g.blockLen);
    Pow2Quotient(a, b);
    ExactQuotient(g.clusterSize, g.blockLen, Pow2(a - b));
    Log2OfPow2(a - b);
  }

  lemma ExactQuotient(size: nat, block: nat, q: nat)
    requires size == q * block + 0 && block > 0
    ensures size / block == q && q <= size
  {
    MulDivMod(q, block, 0);
    AtLeastFactor(q, block);
  }

  // ------------------------------------------------------------------ the writer

  datatype Channel = Channel(clusters: seq<nat>, file: seq<byte>, pos: nat)

  /** One call of bs_dev_delta_write, and whether write(2) succeeds. */
  datatype Request = Request(lba: nat, payload: seq<byte>, ok: bool)

  function NoClusters(): (m: seq<nat>)
    ensures |m| == MAX_CLUSTERS && forall k :: 0 <= k < |m| ==> m[k] == 0
  {
    seq(MAX_CLUSTERS, _ => 0)
  }

  /** The file is opened without truncation; an empty map is written over its first bytes. */
  function Open(file: seq<byte>): Channel {
    Channel(NoClusters(), Store(file, 0, Encode(NoClusters()), 0, HEADER), HEADER)
  }

  function Append(ch: Channel, k: nat, payload: seq<byte>, ok: bool): Channel
    requires k < |ch.clusters|
  {
    var m := ch.clusters[k := ch.pos];
    if ok then Channel(m, Store(ch.file, ch.pos, payload, 0, |payload|), ch.pos + |payload|)
    else ch.(clusters := m)
  }

  predicate Aligned(g: Geometry, r: Request)
    requires g.blockLen > 0 && g.ClusterBlocks() > 0
  {
    r.lba % g.ClusterBlocks() == 0
  }

  function ClusterOf(g: Geometry, lba: nat): nat
    requires g.blockLen > 0 && g.ClusterBlocks() > 0
  {
    lba / g.ClusterBlocks()
  }

  function WriteRc(g: Geometry, r: Request): int
    requires g.blockLen > 0 && g.ClusterBlocks() > 0
  {
    if !Aligned(g, r) then -EINVAL else if !r.ok then -EIO else 0
  }

  function WriteCluster(g: Geometry, ch: Channel, r: Request): Channel
    requires g.blockLen > 0 && g.ClusterBlocks() > 0 && (Aligned(g, r) ==> ClusterOf(g, r.lba) < |ch.clusters|)
  {
    if !Aligned(g, r) then ch else Append(ch, ClusterOf(g, r.lba), r.payload, r.ok)
  }

  /** Closing the channel rewrites the header. */
  function Close(ch: Channel): seq<byte>
    requires |ch.clusters| == MAX_CLUSTERS
  {
    Store(ch.file, 0, Encode(ch.clusters), 0, HEADER)
  }

  /** Aligned requests carry one whole cluster that the map has room for. */
  predicate Whole(g: Geometry, r: Request)
    requires g.blockLen > 0 && g.ClusterBlocks() > 0
  {
    Aligned(g, r) ==> |r.payload| == g.clusterSize && ClusterOf(g, r.lba) < MAX_CLUSTERS
  }

  ghost predicate History(g: Geometry, h: seq<Request>) {
    && g.blockLen > 0 && g.ClusterBlocks() > 0
    && forall t :: 0 <= t < |h| ==> Whole(g, h[t])
  }

  /** The channel after the requests of `h`, on a file that held `f0`. */
  function Written(g: Geometry, f0: seq<byte>, h: seq<Request>): (ch: Channel)
    requires History(g, h)
    ensures |ch.clusters| == MAX_CLUSTERS
  {
    if h == [] then Open(f0)
    else
      var n := |h| - 1;
      assert Whole(g, h[n]);
      WriteCluster(g, Written(g, f0, h[..n]), h[n])
  }

  // ------------------------------------------------------------------ what the log should hold

  /** Where the bytes of a cluster come from: the base image, request `t`, or whatever the file held before. */
  datatype Origin = Image | Log(t: nat) | Stale

  predicate Hits(g: Geometry, r: Request, k: nat)
    requires g.blockLen > 0 && g.ClusterBlocks() > 0
  {
    Aligned(g, r) && ClusterOf(g, r.lba) == k
  }

  /** The promise: the last request for the cluster that reported success, else the image. */
  function Intended(g: Geometry, h: seq<Request>, k: nat): (o: Origin)
    requires g.blockLen > 0 && g.ClusterBlocks() > 0
    ensures o.Image? || (o.Log? && o.t < |h| && Hits(g, h[o.t], k) && WriteRc(g, h[o.t]) == 0)
    ensures forall t :: (if o.Image? then 0 else o.t + 1) <= t < |h| ==> !(Hits(g, h[t], k) && WriteRc(g, h[t]) == 0)
  {
    if h == [] then Image
    else
      var n := |h| - 1;
      if Hits(g, h[n], k) && h[n].ok then Log(n) else Intended(g, h[..n], k)
  }

  /** What the map entry leads to: a failed request leaves it at a place that the next cluster will take. */
  function Actual(g: Geometry, h: seq<Request>, k: nat): (o: Origin)
    requires g.blockLen > 0 && g.ClusterBlocks() > 0
    ensures o.Log? ==> o.t < |h| && Aligned(g, h[o.t]) && h[o.t].ok
  {
    if h == [] then Image
    else
      var n := |h| - 1;
      var p := Actual(g, h[..n], k);
      if !Aligned(g, h[n]) then p
      else if Hits(g, h[n], k) then (if h[n].ok then Log(n) else Stale)
      else if h[n].ok && p == Stale then Log(n)
      else p
  }

  /** The last request for the cluster, if any, did not fail. */
  predicate LastTryOk(g: Geometry, h: seq<Request>, k: nat)
    requires g.blockLen > 0 && g.ClusterBlocks() > 0
  {
    h != [] ==> var n := |h| - 1; if Hits(g, h[n], k) then h[n].ok else LastTryOk(g, h[..n], k)
  }

  ghost predicate Attempted(g: Geometry, h: seq<Request>, k: nat)
    requires g.blockLen > 0 && g.ClusterBlocks() > 0
  {
    exists t :: 0 <= t < |h| && Hits(g, h[t], k)
  }

  /** The map leads to the promised data exactly when the last request for the cluster did not fail. */
  lemma {:induction false} ActualIsIntendedIff(g: Geometry, h: seq<Request>, k: nat)
    requires g.blockLen > 0 && g.ClusterBlocks() > 0
    ensures Actual(g, h, k) == Intended(g, h, k) <==> LastTryOk(g, h, k)
    ensures !LastTryOk(g, h, k) && Actual(g, h, k).Log? && Intended(g, h, k).Log? ==>
              Actual(g, h, k).t > Intended(g, h, k).t
    ensures !LastTryOk(g, h, k) ==> !Actual(g, h, k).Image?
    ensures Actual(g, h, k).Log? && Hits(g, h[Actual(g, h, k).t], k) ==> LastTryOk(g, h, k)
  {
    if h != [] {
      ActualIsIntendedIff(g, h[..|h| - 1], k);
    }
  }

  lemma {:induction false} ImageIffNeverAttempted(g: Geometry, h: seq<Request>, k: nat)
    requires g.blockLen > 0 && g.ClusterBlocks() > 0
    ensures Actual(g, h, k) == Image <==> !Attempted(g, h, k)
  {
    if h != [] {
      var n := |h| - 1;
      ImageIffNeverAttempted(g, h[..n], k);
      if Attempted(g, h[..n], k) {
        var t :| 0 <= t < n && Hits(g, h[..n][t], k);
        assert Hits(g, h[t], k);
      }
      if Attempted(g, h, k) && !Hits(g, h[n], k) {
        var t :| 0 <= t < |h| && Hits(g, h[t], k);
        assert Hits(g, h[..n][t], k);
      }
    }
  }
}
