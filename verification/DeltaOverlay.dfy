/**
 * The reader side (spdk_bs_dev_uring.c): a base image overlaid with a delta, addressed with shifts and masks,
 * and the round trip from the writer.
 */
module DeltaOverlay {
  import opened Bytes
  import opened Bits
  import opened DeltaHeader
  import opened Delta
  import opened DeltaLog

  /** struct bs_dev_uring, with the contents of the two files it reads. */
  datatype Overlay = Overlay(
    blockCount: nat, blockLen: nat, clusters: seq<nat>, toCluster: nat, toAddress: nat, mask: nat,
    image: seq<byte>, delta: seq<byte>)

  /** bs_dev_uring_create on files that can be opened; without a snapshot path the map stays empty. */
  function Create(g: Geometry, image: seq<byte>, hasDelta: bool, delta: seq<byte>): Overlay
    requires g.blockLen > 0
  {
    var toCluster := Log2(g.ClusterBlocks());
    Overlay(|image| / g.blockLen, g.blockLen, if hasDelta then Decode(delta) else NoClusters(),
            toCluster, Log2(g.blockLen), Max(0, ShiftLeft(1, toCluster) - 1), image, delta)
  }

  datatype Place = Place(fromDelta: bool, offset: nat)

  /** set_io_opts; the cluster number is a uint32_t. */
  function SetIoOpts(o: Overlay, lba: nat): Place
    requires |o.clusters| == MAX_CLUSTERS && ShiftRight(lba, o.toCluster) % U32 < MAX_CLUSTERS
  {
    var id := ShiftRight(lba, o.toCluster) % U32;
    if o.clusters[id] == 0 then Place(false, ShiftLeft(lba, o.toAddress))
    else Place(true, Add64(o.clusters[id], ShiftLeft(And(lba, o.mask), o.toAddress)))
  }

  /** A read of `n` bytes at `offset` into `buf`; it stops at the end of the file. */
  function Fill(buf: seq<byte>, file: seq<byte>, offset: nat, n: nat): (r: seq<byte>)
    ensures |r| == |buf|
    ensures forall j :: 0 <= j < |r| ==> r[j] == if j < n && offset + j < |file| then file[offset + j] else buf[j]
  {
    seq(|buf|, j requires 0 <= j < |buf| => if j < n && offset + j < |file| then file[offset + j] else buf[j])
  }

  /** bs_dev_uring_read and readv: one request, at the place of its first block; nothing past the image end. */
  function Read(o: Overlay, lba: nat, count: nat, buf: seq<byte>): seq<byte>
    requires |o.clusters| == MAX_CLUSTERS && ShiftRight(lba, o.toCluster) % U32 < MAX_CLUSTERS
  {
    if lba >= o.blockCount then buf
    else
      var p := SetIoOpts(o, lba);
      Fill(buf, if p.fromDelta then o.delta else o.image, p.offset, TransferSize(o.blockLen, count))
  }

  /** The length of a request is a uint32_t product. */
  function TransferSize(blockLen: nat, count: nat): nat {
    count * blockLen % U32
  }

  lemma SmallTransfer(blockLen: nat, count: nat)
    requires count * blockLen < U32
    ensures TransferSize(blockLen, count) == count * blockLen
  {}

  /** bs_dev_uring_is_range_valid; here the cluster number is a uint64_t. */
  predicate IsRangeValid(o: Overlay, lba: nat, count: nat)
    requires |o.clusters| == MAX_CLUSTERS && ShiftRight(lba, o.toCluster) < MAX_CLUSTERS
  {
    if lba >= o.blockCount then o.clusters[ShiftRight(lba, o.toCluster)] != 0
    else Add64(lba, count) <= o.blockCount
  }

  predicate IsZeroes(o: Overlay, lba: nat, count: nat)
    requires |o.clusters| == MAX_CLUSTERS && ShiftRight(lba, o.toCluster) < MAX_CLUSTERS
  {
    !IsRangeValid(o, lba, count)
  }

  // ------------------------------------------------------------------ addressing

  /** An lba whose byte address fits a uint64_t and whose cluster the map has room for. */
  ghost predicate InReach(g: Geometry, lba: nat) {
    g.Valid() && g.ClusterBlocks() > 0 && ClusterOf(g, lba) < MAX_CLUSTERS && (lba + 1) * g.blockLen < U64
  }

  /** The byte offset of a block inside its cluster. */
  function Within(g: Geometry, lba: nat): nat
    requires g.blockLen > 0 && g.ClusterBlocks() > 0
  {
    lba % g.ClusterBlocks() * g.blockLen
  }

  lemma WithinCluster(g: Geometry, lba: nat)
    requires g.Valid() && g.ClusterBlocks() > 0
    ensures Within(g, lba) + g.blockLen <= g.clusterSize
  {
    GeometryFacts(g);
    LastFits(lba % g.ClusterBlocks(), g.ClusterBlocks(), g.blockLen);
  }

  lemma LastFits(r: nat, b: nat, n: nat)
    requires r < b
    ensures r * n + n <= b * n
  {
    assert b * n == (r + 1) * n + (b - 1 - r) * n;
    assert (r + 1) * n == r * n + n;
  }

  /**
   * The reader's shifts and masks are the writer's division and remainder, and the 32-bit cluster number loses
   * nothing.
   */
  lemma AddressesAgree(g: Geometry, lba: nat, image: seq<byte>, hasDelta: bool, delta: seq<byte>)
    requires InReach(g, lba)
    ensures var o := Create(g, image, hasDelta, delta);
            && ShiftRight(lba, o.toCluster) % U32 == ShiftRight(lba, o.toCluster) == ClusterOf(g, lba)
            && ShiftLeft(lba, o.toAddress) == lba * g.blockLen
            && ShiftLeft(And(lba, o.mask), o.toAddress) == Within(g, lba)
            && (And(lba, o.mask) == 0 <==> lba % g.ClusterBlocks() == 0)
  {
    hide Create, InReach, PowerOfTwo, Log2, ShiftLeft, ShiftRight, And;
    ReachFacts(g, lba);
    CreatedShifts(g, image, hasDelta, delta);
    ShiftsDivide(lba, g.ClusterBlocks(), g.blockLen);
  }

  lemma ReachFacts(g: Geometry, lba: nat)
    requires InReach(g, lba)
    ensures g.blockLen > 0 && PowerOfTwo(g.blockLen) && PowerOfTwo(g.ClusterBlocks()) && 0 < g.ClusterBlocks() < U32
    ensures lba * g.blockLen < U64 && Within(g, lba) < U64 && ClusterOf(g, lba) < MAX_CLUSTERS
  {
    hide Pow2, Log2;
    GeometryFacts(g);
    WithinCluster(g, lba);
    LastFits(lba, lba + 1, g.blockLen);
  }

  lemma CreatedShifts(g: Geometry, image: seq<byte>, hasDelta: bool, delta: seq<byte>)
    requires g.blockLen > 0
    ensures var o := Create(g, image, hasDelta, delta);
            && o.toCluster == Log2(g.ClusterBlocks()) && o.toAddress == Log2(g.blockLen)
            && o.mask == Max(0, ShiftLeft(1, o.toCluster) - 1)
  {}

  /** For powers of two, shifting and masking is dividing, multiplying and taking the remainder. */
  lemma ShiftsDivide(x: nat, blocks: nat, size: nat)
    requires PowerOfTwo(blocks) && PowerOfTwo(size) && blocks < U32
    requires x * size < U64 && x % blocks * size < U64
    ensures var a, b := Log2(blocks), Log2(size);
            && ShiftRight(x, a) == x / blocks && ShiftLeft(x, b) == x * size
            && ShiftLeft(1, a) == blocks && And(x, ShiftLeft(1, a) - 1) == x % blocks
            && ShiftLeft(x % blocks, b) == x % blocks * size
  {
    hide Pow2, Log2, ShiftLeft, ShiftRight, And;
    var a, b := Log2(blocks), Log2(size);
    ShiftRightDivides(x, a);
    MaskIsRemainder(x, a);
    ShiftLeftOne(a);
    ShiftLeftMultiplies(x, b);
    ShiftLeftMultiplies(x % blocks, b);
  }

  lemma ShiftLeftOne(a: nat)
    requires Pow2(a) < U64
    ensures ShiftLeft(1, a) == Pow2(a)
  {
    hide Pow2, ShiftLeft;
    assert 1 * Pow2(a) == Pow2(a);
    ShiftLeftMultiplies(1, a);
  }

  /** The reader's choice of file and offset, in the writer's terms. */
  function Locate(g: Geometry, clusters: seq<nat>, lba: nat): Place
    requires InReach(g, lba) && |clusters| == MAX_CLUSTERS
  {
    var e := clusters[ClusterOf(g, lba)];
    if e == 0 then Place(false, lba * g.blockLen) else Place(true, e + Within(g, lba))
  }

  lemma CreatedMap(g: Geometry, image: seq<byte>, hasDelta: bool, delta: seq<byte>)
    requires g.blockLen > 0
    ensures var m := Create(g, image, hasDelta, delta).clusters;
            |m| == MAX_CLUSTERS && (!hasDelta ==> forall k :: 0 <= k < MAX_CLUSTERS ==> m[k] == 0)
  {}

  /** Without a snapshot path that is always the image, at the block's own address. */
  lemma SetIoOptsLocates(g: Geometry, lba: nat, image: seq<byte>, hasDelta: bool, delta: seq<byte>)
    requires InReach(g, lba)
    requires Create(g, image, hasDelta, delta).clusters[ClusterOf(g, lba)] + g.clusterSize < U64
    ensures var o := Create(g, image, hasDelta, delta);
            && ShiftRight(lba, o.toCluster) % U32 < MAX_CLUSTERS
            && SetIoOpts(o, lba) == Locate(g, o.clusters, lba)
            && (!hasDelta ==> SetIoOpts(o, lba) == Place(false, lba * g.blockLen))
  {
    hide Create, SetIoOpts, Within, ShiftLeft, ShiftRight, And;
    AddressesAgree(g, lba, image, hasDelta, delta);
    WithinCluster(g, lba);
    CreatedMap(g, image, hasDelta, delta);
    PlacesAgree(g, Create(g, image, hasDelta, delta), lba);
  }

  lemma PlacesAgree(g: Geometry, o: Overlay, lba: nat)
    requires InReach(g, lba) && |o.clusters| == MAX_CLUSTERS
    requires ShiftRight(lba, o.toCluster) % U32 == ClusterOf(g, lba) && ShiftLeft(lba, o.toAddress) == lba * g.blockLen
    requires ShiftLeft(And(lba, o.mask), o.toAddress) == Within(g, lba)
    requires o.clusters[ClusterOf(g, lba)] + Within(g, lba) < U64
    ensures SetIoOpts(o, lba) == Locate(g, o.clusters, lba)
  {
    hide ShiftLeft, ShiftRight, And, Within, ClusterOf;
  }

  // ------------------------------------------------------------------ the round trip

  /** The overlay opened on the delta that a channel leaves behind. */
  function Reopened(g: Geometry, image: seq<byte>, f0: seq<byte>, h: seq<Request>): Overlay
    requires History(g, h)
  {
    Create(g, image, true, Close(Written(g, f0, h)))
  }

  /** The delta can be addressed in 64 bits. */
  ghost predicate Fits(g: Geometry, f0: seq<byte>, h: seq<Request>) {
    History(g, h) && Written(g, f0, h).pos + g.clusterSize < U64
  }

  lemma ReopenedMap(g: Geometry, image: seq<byte>, f0: seq<byte>, h: seq<Request>, k: nat)
    requires Fits(g, f0, h) && k < MAX_CLUSTERS
    ensures var o, ch := Reopened(g, image, f0, h), Written(g, f0, h);
            o.clusters == ch.clusters && o.clusters[k] + g.clusterSize < U64 && o.delta == Close(ch)
  {
    hide Written, Decode, Close, Actual;
    CloseKeepsData(g, f0, h);
    LayoutAlways(g, f0, h);
    assert Placed(g, Written(g, f0, h), h, k);
  }

  /** One block as `origin` says. */
  function Block(g: Geometry, image: seq<byte>, f0: seq<byte>, h: seq<Request>, lba: nat, origin: Origin,
                 buf: seq<byte>): seq<byte>
    requires History(g, h) && (origin.Log? ==> origin.t < |h|)
  {
    match origin
    case Image => Fill(buf, image, lba * g.blockLen, g.blockLen)
    case Log(t) => Fill(buf, h[t].payload, Within(g, lba), g.blockLen)
    case Stale => Fill(buf, f0, Written(g, f0, h).pos + Within(g, lba), g.blockLen)
  }

  ghost predicate SameAt(a: seq<byte>, x: nat, b: seq<byte>, y: nat, j: nat) {
    (x + j < |a| <==> y + j < |b|) && At(a, x + j) == At(b, y + j)
  }

  lemma SameFill(buf: seq<byte>, a: seq<byte>, x: nat, b: seq<byte>, y: nat, n: nat)
    requires forall j: nat :: j < n ==> SameAt(a, x, b, y, j)
    ensures Fill(buf, a, x, n) == Fill(buf, b, y, n)
  {
    var u, v := Fill(buf, a, x, n), Fill(buf, b, y, n);
    forall j: nat | j < |buf| ensures u[j] == v[j] {
      if j < n { assert SameAt(a, x, b, y, j); }
    }
  }

  lemma LoggedRead(g: Geometry, f0: seq<byte>, h: seq<Request>, k: nat, w: nat, buf: seq<byte>)
    requires Fits(g, f0, h) && k < MAX_CLUSTERS && Actual(g, h, k).Log? && w + g.blockLen <= g.clusterSize
    ensures var ch := Written(g, f0, h);
            Fill(buf, Close(ch), ch.clusters[k] + w, g.blockLen) == Fill(buf, h[Actual(g, h, k).t].payload, w,
                g.blockLen)
  {
    hide Written, Close, Actual, Decode, Fill;
    var ch, t := Written(g, f0, h), Actual(g, h, k).t;
    LayoutAlways(g, f0, h);
    CloseKeepsData(g, f0, h);
    assert Placed(g, ch, h, k);
    RegionRead(ch, Close(ch), h[t].payload, ch.clusters[k], w, g.blockLen, buf);
  }

  lemma RegionRead(ch: Channel, closed: seq<byte>, payload: seq<byte>, e: nat, w: nat, n: nat, buf: seq<byte>)
    requires HEADER <= e && w + n <= |payload| && e + |payload| <= ch.pos <= |closed|
    requires forall q: nat :: e <= q < e + |payload| ==> At(ch.file, q) == payload[q - e]
    requires forall q: nat :: q >= HEADER ==> At(closed, q) == At(ch.file, q)
    ensures Fill(buf, closed, e + w, n) == Fill(buf, payload, w, n)
  {
    hide Fill;
    var x := e + w;
    forall j: nat | j < n ensures SameAt(closed, x, payload, w, j) {
      assert At(closed, x + j) == At(ch.file, x + j) == payload[x + j - e];
    }
    SameFill(buf, closed, x, payload, w, n);
  }

  lemma StaleRead(g: Geometry, f0: seq<byte>, h: seq<Request>, w: nat, buf: seq<byte>)
    requires Fits(g, f0, h)
    ensures var ch := Written(g, f0, h);
            Fill(buf, Close(ch), ch.pos + w, g.blockLen) == Fill(buf, f0, ch.pos + w, g.blockLen)
  {
    hide Written, Close, Actual, Decode, Fill;
    var ch := Written(g, f0, h);
    LayoutAlways(g, f0, h);
    CloseKeepsData(g, f0, h);
    var x, closed := ch.pos + w, Close(ch);
    forall j: nat | j < g.blockLen ensures SameAt(closed, x, f0, x, j) {
      assert At(closed, x + j) == At(ch.file, x + j);
    }
    SameFill(buf, closed, x, f0, x, g.blockLen);
  }

  lemma PlacedRead(g: Geometry, f0: seq<byte>, image: seq<byte>, h: seq<Request>, lba: nat, buf: seq<byte>)
    requires InReach(g, lba) && Fits(g, f0, h)
    ensures var ch := Written(g, f0, h);
            var p := Locate(g, ch.clusters, lba);
            Fill(buf, if p.fromDelta then Close(ch) else image, p.offset, g.blockLen)
              == Block(g, image, f0, h, lba, Actual(g, h, ClusterOf(g, lba)), buf)
  {
    hide Written, Decode, Close, Actual, Fill, Within;
    var ch := Written(g, f0, h);
    var k, w := ClusterOf(g, lba), Within(g, lba);
    LayoutAlways(g, f0, h);
    WithinCluster(g, lba);
    assert Placed(g, ch, h, k);
    if Actual(g, h, k).Log? { LoggedRead(g, f0, h, k, w, buf); }
    StaleRead(g, f0, h, w, buf);
  }

  /** What a one-block read returns after any history, failed writes included. */
  lemma OverlayReads(g: Geometry, image: seq<byte>, f0: seq<byte>, h: seq<Request>, lba: nat, buf: seq<byte>)
    requires InReach(g, lba) && Fits(g, f0, h) && |buf| == g.blockLen
    ensures var o := Reopened(g, image, f0, h);
            && ShiftRight(lba, o.toCluster) % U32 < MAX_CLUSTERS
            && Read(o, lba, 1, buf) ==
               if lba >= |image| / g.blockLen then buf
               else Block(g, image, f0, h, lba, Actual(g, h, ClusterOf(g, lba)), buf)
  {
    hide Written, Decode, Close, Actual, ShiftRight, ShiftLeft, And, Log2, Block, Locate, SetIoOpts, Fill, TransferSize;
    SmallTransfer(g.blockLen, 1);
    assert 1 * g.blockLen == g.blockLen;
    ReopenedMap(g, image, f0, h, ClusterOf(g, lba));
    SetIoOptsLocates(g, lba, image, true, Close(Written(g, f0, h)));
    PlacedRead(g, f0, image, h, lba, buf);
  }

  /** The block a reader is promised: the last successful write to it, else the image. */
  function Promised(g: Geometry, image: seq<byte>, h: seq<Request>, lba: nat): seq<byte>
    requires History(g, h) && InReach(g, lba) && (lba + 1) * g.blockLen <= |image|
  {
    match Intended(g, h, ClusterOf(g, lba))
    case Image => image[lba * g.blockLen..][..g.blockLen]
    case Log(t) => WithinCluster(g, lba); h[t].payload[Within(g, lba)..][..g.blockLen]
  }

  lemma InsideImage(lba: nat, n: nat, size: nat)
    requires n > 0 && lba < size / n
    ensures (lba + 1) * n <= size
  {
    assert (size / n - lba - 1) * n >= 0;
  }

  lemma WholeFill(buf: seq<byte>, file: seq<byte>, x: nat, n: nat)
    requires |buf| == n && x + n <= |file|
    ensures Fill(buf, file, x, n) == file[x..][..n]
  {}

  /**
   * The round trip: over any file, after any history, closing and reopening gives every block below the image
   * end its last successfully written data, else the image, provided the last write to its cluster did not fail.
   */
  lemma DeltaRoundTrip(g: Geometry, image: seq<byte>, f0: seq<byte>, h: seq<Request>, lba: nat, buf: seq<byte>)
    requires InReach(g, lba) && Fits(g, f0, h) && |buf| == g.blockLen
    requires lba < |image| / g.blockLen && LastTryOk(g, h, ClusterOf(g, lba))
    ensures var o := Reopened(g, image, f0, h);
            && ShiftRight(lba, o.toCluster) % U32 < MAX_CLUSTERS && (lba + 1) * g.blockLen <= |image|
            && Read(o, lba, 1, buf) == Promised(g, image, h, lba)
  {
    hide Written, Decode, Close, Actual, Intended, LastTryOk, ShiftRight, Read, Reopened, Fill, Within;
    var k := ClusterOf(g, lba);
    OverlayReads(g, image, f0, h, lba, buf);
    ActualIsIntendedIff(g, h, k);
    InsideImage(lba, g.blockLen, |image|);
    WithinCluster(g, lba);
    match Intended(g, h, k) {
      case Image => WholeFill(buf, image, lba * g.blockLen, g.blockLen);
      case Log(t) =>
        assert Whole(g, h[t]);
        WholeFill(buf, h[t].payload, Within(g, lba), g.blockLen);
    }
  }

  /** A one-block read through `o` gives the promised block. */
  ghost predicate ReadsBack(g: Geometry, o: Overlay, image: seq<byte>, h: seq<Request>, lba: nat, buf: seq<byte>) {
    && History(g, h) && InReach(g, lba) && (lba + 1) * g.blockLen <= |image|
    && |o.clusters| == MAX_CLUSTERS && ShiftRight(lba, o.toCluster) % U32 < MAX_CLUSTERS
    && Read(o, lba, 1, buf) == Promised(g, image, h, lba)
  }
}
