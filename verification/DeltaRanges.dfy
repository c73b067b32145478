/** Reads of several blocks through one offset, and the zero reports that copy-on-write relies on. */
module DeltaRanges {
  import opened Bytes
  import opened Bits
  import opened DeltaHeader
  import opened Delta
  import opened DeltaLog
  import opened DeltaOverlay

  // ------------------------------------------------------------------ one offset for a whole request

  ghost predicate OneCluster(g: Geometry, lba: nat, count: nat) {
    count > 0 && InReach(g, lba) && InReach(g, lba + count - 1) && ClusterOf(g, lba) == ClusterOf(g, lba + count - 1)
  }

  lemma QuotientBetween(x: nat, y: nat, z: nat, b: nat)
    requires b > 0 && x <= y <= z && x / b == z / b
    ensures y / b == x / b && y % b == x % b + (y - x)
  {
    var q := x / b;
    assert x == q * b + x % b && z == q * b + z % b;
    MulDivMod(q, b, y - q * b);
  }

  /** Inside one cluster the reader's offset grows with the lba, in either file. */
  lemma OffsetsAdvance(g: Geometry, clusters: seq<nat>, lba: nat, count: nat, j: nat)
    requires OneCluster(g, lba, count) && j < count && |clusters| == MAX_CLUSTERS && InReach(g, lba + j)
    ensures var p, q := Locate(g, clusters, lba), Locate(g, clusters, lba + j);
            q.fromDelta == p.fromDelta && q.offset == p.offset + j * g.blockLen
  {
    var b := g.ClusterBlocks();
    QuotientBetween(lba, lba + j, lba + count - 1, b);
    Distribute(lba % b, j, g.blockLen);
    Distribute(lba, j, g.blockLen);
  }

  lemma Reach(g: Geometry, lba: nat, count: nat, j: nat)
    requires OneCluster(g, lba, count) && j < count
    ensures InReach(g, lba + j) && ClusterOf(g, lba + j) == ClusterOf(g, lba)
  {
    QuotientBetween(lba, lba + j, lba + count - 1, g.ClusterBlocks());
    Distribute(lba + j + 1, count - 1 - j, g.blockLen);
  }

  /** Block `j` of a buffer. */
  function Piece(buf: seq<byte>, n: nat, j: nat): (r: seq<byte>)
    requires (j + 1) * n <= |buf|
  {
    Distribute(j, 1, n);
    seq(n, i requires 0 <= i < n => buf[j * n + i])
  }

  lemma FillPiece(buf: seq<byte>, file: seq<byte>, x: nat, total: nat, n: nat, j: nat)
    requires |buf| == total && (j + 1) * n <= total
    ensures Piece(Fill(buf, file, x, total), n, j) == Fill(Piece(buf, n, j), file, x + j * n, n)
  {
    Distribute(j, 1, n);
  }

  lemma PieceFits(count: nat, n: nat, j: nat)
    requires j < count
    ensures (j + 1) * n <= count * n
  {
    Distribute(j + 1, count - 1 - j, n);
  }

  lemma ReadLocates(g: Geometry, image: seq<byte>, hasDelta: bool, delta: seq<byte>, lba: nat, count: nat,
                    buf: seq<byte>)
    requires InReach(g, lba) && lba < |image| / g.blockLen && count * g.blockLen < U32
    requires Create(g, image, hasDelta, delta).clusters[ClusterOf(g, lba)] + g.clusterSize < U64
    ensures var o := Create(g, image, hasDelta, delta);
            var p := Locate(g, o.clusters, lba);
            && ShiftRight(lba, o.toCluster) % U32 < MAX_CLUSTERS
            && Read(o, lba, count, buf) == Fill(buf, if p.fromDelta then delta else image, p.offset, count * g.blockLen)
  {
    hide Decode, NoClusters, ShiftRight, ShiftLeft, Locate, SetIoOpts, Fill, And, Log2, TransferSize;
    SmallTransfer(g.blockLen, count);
    SetIoOptsLocates(g, lba, image, hasDelta, delta);
  }

  /**
   * A request that stays inside one cluster and below the image end reads, through its one offset, exactly what
   * reading each block by itself gives, whatever delta file lies underneath.
   */
  lemma OneOffsetReadSound(g: Geometry, image: seq<byte>, hasDelta: bool, delta: seq<byte>, lba: nat, count: nat,
                           buf: seq<byte>, j: nat)
    requires OneCluster(g, lba, count) && j < count && lba + count <= |image| / g.blockLen
    requires |buf| == count * g.blockLen < U32 && g.blockLen < U32
    requires Create(g, image, hasDelta, delta).clusters[ClusterOf(g, lba)] + g.clusterSize < U64
    ensures var o := Create(g, image, hasDelta, delta);
            && ShiftRight(lba, o.toCluster) % U32 < MAX_CLUSTERS
            && ShiftRight(lba + j, o.toCluster) % U32 < MAX_CLUSTERS
            && (j + 1) * g.blockLen <= |Read(o, lba, count, buf)| == |buf|
            && Piece(Read(o, lba, count, buf), g.blockLen, j) == Read(o, lba + j, 1, Piece(buf, g.blockLen, j))
  {
    hide Decode, NoClusters, ShiftRight, Locate, Fill, Read, Create, Piece;
    var o := Create(g, image, hasDelta, delta);
    Reach(g, lba, count, j);
    PieceFits(count, g.blockLen, j);
    CreatedMap(g, image, hasDelta, delta);
    ReadLocates(g, image, hasDelta, delta, lba, count, buf);
    ReadLocates(g, image, hasDelta, delta, lba + j, 1, Piece(buf, g.blockLen, j));
    OffsetsAdvance(g, o.clusters, lba, count, j);
    var p := Locate(g, o.clusters, lba);
    FillPiece(buf, if p.fromDelta then delta else image, p.offset, count * g.blockLen, g.blockLen, j);
  }

  // ------------------------------------------------------------------ which requests stay inside a cluster

  const SPLIT: nat := 4 * 1024

  lemma DivideTwice(x: nat, a: nat, m: nat)
    requires a > 0 && m > 0
    ensures a * m > 0 && x / (a * m) == x / a / m
  {
    var q, r := x / a / m, x / a % m;
    assert x / a == q * m + r && x == x / a * a + x % a;
    assert x == q * (a * m) + (r * a + x % a);
    LastFits(r, m, a);
    assert r * a + x % a < a * m;
    MulDivMod(q, a * m, r * a + x % a);
  }

  /** The split boundary of ubi_finish_create, in blocks, divides a cluster. */
  lemma BoundaryDividesCluster(g: Geometry) returns (m: nat)
    requires g.Valid() && g.blockLen <= SPLIT <= g.clusterSize
    ensures m > 0 && SPLIT / g.blockLen > 0 && g.ClusterBlocks() == SPLIT / g.blockLen * m
  {
    hide Pow2, Log2;
    var a, b := Log2(g.clusterSize), Log2(g.blockLen);
    SplitIsPow2();
    Pow2Quotient(12, b);
    Pow2Quotient(a, 12);
    ExactQuotient(SPLIT, g.blockLen, Pow2(12 - b));
    m := Pow2(a - 12);
    assert g.clusterSize == m * (Pow2(12 - b) * g.blockLen) == Pow2(12 - b) * m * g.blockLen;
    ExactQuotient(g.clusterSize, g.blockLen, Pow2(12 - b) * m);
  }

  lemma SplitIsPow2()
    ensures Pow2(12) == SPLIT
  {
    assert Pow2(6) == 64;
    assert Pow2(9) == 512;
  }

  /** A request that the bdev layer has split at the 4 KiB boundary stays inside one cluster. */
  lemma SplitStaysInCluster(g: Geometry, lba: nat, count: nat)
    requires g.Valid() && g.blockLen <= SPLIT <= g.clusterSize && count > 0
    requires InReach(g, lba) && (lba + count) * g.blockLen < U64
    requires SPLIT / g.blockLen > 0 && lba / (SPLIT / g.blockLen) == (lba + count - 1) / (SPLIT / g.blockLen)
    ensures OneCluster(g, lba, count)
  {
    var m := BoundaryDividesCluster(g);
    DivideTwice(lba, SPLIT / g.blockLen, m);
    DivideTwice(lba + count - 1, SPLIT / g.blockLen, m);
  }

  /** So does a read of one whole cluster. */
  lemma WholeClusterInCluster(g: Geometry, lba: nat)
    requires InReach(g, lba) && lba % g.ClusterBlocks() == 0 && (lba + g.ClusterBlocks()) * g.blockLen < U64
    ensures OneCluster(g, lba, g.ClusterBlocks())
  {
    var b := g.ClusterBlocks();
    assert lba + b - 1 == lba / b * b + (b - 1);
    MulDivMod(lba / b, b, b - 1);
  }

  /** Block `j` of a read of `count` blocks is the promised one. */
  ghost predicate ReadsPromised(g: Geometry, o: Overlay, image: seq<byte>, h: seq<Request>, lba: nat, count: nat,
                                buf: seq<byte>, j: nat) {
    && History(g, h) && InReach(g, lba + j) && (lba + j + 1) * g.blockLen <= |image|
    && |o.clusters| == MAX_CLUSTERS && ShiftRight(lba, o.toCluster) % U32 < MAX_CLUSTERS
    && (j + 1) * g.blockLen <= |Read(o, lba, count, buf)|
    && Piece(Read(o, lba, count, buf), g.blockLen, j) == Promised(g, image, h, lba + j)
  }

  /**
   * End to end: each block of a split or whole-cluster read of the reopened delta is the last data successfully
   * written to that block, else the image, provided the last write to the cluster did not fail.
   */
  lemma RangeRoundTrip(g: Geometry, image: seq<byte>, f0: seq<byte>, h: seq<Request>, lba: nat, count: nat,
                       buf: seq<byte>, j: nat)
    requires OneCluster(g, lba, count) && j < count && lba + count <= |image| / g.blockLen && Fits(g, f0, h)
    requires |buf| == count * g.blockLen < U32 && LastTryOk(g, h, ClusterOf(g, lba))
    ensures ReadsPromised(g, Reopened(g, image, f0, h), image, h, lba, count, buf, j)
  {
    hide Written, Decode, Close, LastTryOk, ShiftRight, Read, Create, Piece, Promised;
    Reach(g, lba, count, j);
    PieceFits(count, g.blockLen, j);
    ReopenedMap(g, image, f0, h, ClusterOf(g, lba));
    OneOffsetReadSound(g, image, true, Close(Written(g, f0, h)), lba, count, buf, j);
    PieceLength(buf, g.blockLen, j);
    DeltaRoundTrip(g, image, f0, h, lba + j, Piece(buf, g.blockLen, j));
  }

  lemma PieceLength(buf: seq<byte>, n: nat, j: nat)
    requires (j + 1) * n <= |buf|
    ensures |Piece(buf, n, j)| == n
  {}

  // ------------------------------------------------------------------ zero reports

  /** When a range is reported as zeroes, for any image size and any history. */
  lemma ZeroesIff(g: Geometry, image: seq<byte>, f0: seq<byte>, h: seq<Request>, lba: nat, count: nat)
    requires InReach(g, lba) && Fits(g, f0, h) && lba + count < U64
    ensures var o, n := Reopened(g, image, f0, h), |image| / g.blockLen;
            && ShiftRight(lba, o.toCluster) < MAX_CLUSTERS
            && (IsZeroes(o, lba, count) <==>
                  (if lba >= n then !Attempted(g, h, ClusterOf(g, lba)) else lba + count > n))
  {
    hide Decode, Written, Close, ShiftRight, ShiftLeft, Log2, And, Attempted;
    ReopenedMap(g, image, f0, h, ClusterOf(g, lba));
    AddressesAgree(g, lba, image, true, Close(Written(g, f0, h)));
    ZeroIffNeverAttempted(g, f0, h, ClusterOf(g, lba));
  }

  /** A cluster of a cluster-aligned image is wholly inside or wholly past its end. */
  lemma NoStraddle(x: nat, count: nat, b: nat, m: nat)
    requires b > 0 && count > 0 && x / b == (x + count - 1) / b
    ensures x < m * b ==> x + count <= m * b
    ensures x >= m * b <==> x / b >= m
  {
    var q := x / b;
    assert x == q * b + x % b && x + count - 1 == q * b + (x + count - 1) % b;
    if q < m { LastFits(q, m, b); } else { Distribute(m, q - m, b); }
  }

  lemma ImageBlocks(g: Geometry, m: nat)
    requires g.Valid() && g.ClusterBlocks() > 0
    ensures m * g.clusterSize / g.blockLen == m * g.ClusterBlocks()
  {
    GeometryFacts(g);
    var b := g.ClusterBlocks();
    Regroup(m, b, g.blockLen);
    ExactQuotient(m * g.clusterSize, g.blockLen, m * b);
  }

  lemma Regroup(a: nat, b: nat, c: nat)
    ensures a * (b * c) == a * b * c + 0
  {}

  /**
   * With a cluster-aligned image, a range inside one cluster is reported as zeroes exactly when its cluster lies
   * wholly past the image end and no write was ever attempted on it.
   */
  lemma ZeroesExact(g: Geometry, image: seq<byte>, f0: seq<byte>, h: seq<Request>, lba: nat, count: nat, m: nat)
    requires OneCluster(g, lba, count) && Fits(g, f0, h) && |image| == m * g.clusterSize && lba + count < U64
    ensures var o := Reopened(g, image, f0, h);
            && ShiftRight(lba, o.toCluster) < MAX_CLUSTERS
            && (IsZeroes(o, lba, count) <==> ClusterOf(g, lba) >= m && !Attempted(g, h, ClusterOf(g, lba)))
  {
    hide Decode, Written, Close, ShiftRight, Log2, Attempted, IsZeroes, Reopened;
    ImageBlocks(g, m);
    NoStraddle(lba, count, g.ClusterBlocks(), m);
    ZeroesIff(g, image, f0, h, lba, count);
  }

  /** Data written past the image end is reported as present, yet a read of it fills nothing. */
  lemma PastEndIsNotRead(g: Geometry, image: seq<byte>, f0: seq<byte>, h: seq<Request>, lba: nat, count: nat,
                         buf: seq<byte>)
    requires InReach(g, lba) && Fits(g, f0, h) && lba + count < U64
    requires lba >= |image| / g.blockLen && Attempted(g, h, ClusterOf(g, lba))
    ensures var o := Reopened(g, image, f0, h);
            && ShiftRight(lba, o.toCluster) < MAX_CLUSTERS && ShiftRight(lba, o.toCluster) % U32 < MAX_CLUSTERS
            && !IsZeroes(o, lba, count) && Read(o, lba, count, buf) == buf
  {
    hide Decode, Written, Close, ShiftRight, Log2, Attempted, IsZeroes;
    ZeroesIff(g, image, f0, h, lba, count);
  }

  // ------------------------------------------------------------------ an image without a delta

  /** One request of `count` blocks returns exactly those blocks of the image. */
  ghost predicate ReadsImage(g: Geometry, o: Overlay, image: seq<byte>, lba: nat, count: nat, buf: seq<byte>) {
    && |o.clusters| == MAX_CLUSTERS && ShiftRight(lba, o.toCluster) % U32 < MAX_CLUSTERS
    && lba * g.blockLen + count * g.blockLen <= |image|
    && Read(o, lba, count, buf) == image[lba * g.blockLen..][..count * g.blockLen]
  }

  lemma RangeInsideImage(lba: nat, count: nat, n: nat, size: nat)
    requires n > 0 && count > 0 && lba + count <= size / n
    ensures lba * n + count * n <= size
  {
    InsideImage(lba + count - 1, n, size);
    Distribute(lba, count, n);
  }

  /**
   * Without a snapshot path every request below the image end, also one over several clusters, returns the image
   * itself, whatever lies in the file that is not opened.
   */
  lemma ImageOnlyReads(g: Geometry, image: seq<byte>, delta: seq<byte>, lba: nat, count: nat, buf: seq<byte>)
    requires InReach(g, lba) && count > 0 && lba + count <= |image| / g.blockLen
    requires |buf| == count * g.blockLen < U32
    ensures ReadsImage(g, Create(g, image, false, delta), image, lba, count, buf)
  {
    hide Decode, ShiftRight, Read, Fill, Log2, ShiftLeft;
    assert Create(g, image, false, delta).clusters == NoClusters();
    ReadLocates(g, image, false, delta, lba, count, buf);
    RangeInsideImage(lba, count, g.blockLen, |image|);
    WholeFill(buf, image, lba * g.blockLen, count * g.blockLen);
  }

  /** Without a snapshot path a range is reported as zeroes exactly when it does not end inside the image. */
  lemma ImageOnlyZeroes(g: Geometry, image: seq<byte>, delta: seq<byte>, lba: nat, count: nat)
    requires InReach(g, lba) && lba + count < U64
    ensures var o, n := Create(g, image, false, delta), |image| / g.blockLen;
            && ShiftRight(lba, o.toCluster) < MAX_CLUSTERS
            && (IsZeroes(o, lba, count) <==> lba >= n || lba + count > n)
  {
    hide Decode, ShiftRight, ShiftLeft, Log2, And;
    assert Create(g, image, false, delta).clusters == NoClusters();
    AddressesAgree(g, lba, image, false, delta);
  }
}
