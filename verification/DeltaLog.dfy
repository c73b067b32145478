/** The layout of the delta file in every reachable state of the writer. */
module DeltaLog {
  import opened Bytes
  import opened DeltaHeader
  import opened Delta

  /** The entry of cluster `k` agrees with where its bytes come from. */
  ghost predicate Placed(g: Geometry, ch: Channel, h: seq<Request>, k: nat)
    requires History(g, h) && k < |ch.clusters|
  {
    var e := ch.clusters[k];
    match Actual(g, h, k)
    case Image => e == 0
    case Stale => e == ch.pos
    case Log(t) =>
      && HEADER <= e && e + g.clusterSize <= ch.pos && |h[t].payload| == g.clusterSize
      && forall q: nat :: e <= q < e + g.clusterSize ==> At(ch.file, q) == h[t].payload[q - e]
  }

  /** Earlier requests lie at lower addresses, and only equal origins share a region. */
  ghost predicate Ordered(g: Geometry, ch: Channel, h: seq<Request>, k: nat, l: nat)
    requires History(g, h) && k < |ch.clusters| && l < |ch.clusters|
  {
    var a, b := Actual(g, h, k), Actual(g, h, l);
    && (a == b ==> ch.clusters[k] == ch.clusters[l])
    && (a.Log? && b.Log? && a.t < b.t ==> ch.clusters[k] + g.clusterSize <= ch.clusters[l])
  }

  ghost predicate Layout(g: Geometry, f0: seq<byte>, ch: Channel, h: seq<Request>) {
    && History(g, h) && |ch.clusters| == MAX_CLUSTERS && ch.pos >= HEADER
    && |ch.file| == Max(|f0|, ch.pos)
    && (forall q: nat :: q < HEADER ==> At(ch.file, q) == 0)
    && (forall q: nat :: q >= ch.pos ==> At(ch.file, q) == At(f0, q))
    && (forall k: nat :: k < MAX_CLUSTERS ==> Placed(g, ch, h, k))
    && (forall k: nat, l: nat :: k < MAX_CLUSTERS && l < MAX_CLUSTERS ==> Ordered(g, ch, h, k, l))
  }

  lemma {:induction false} ZeroBytes(j: nat)
    ensures ByteOf(0, j) == 0
  {
    if j > 0 { ZeroBytes(j - 1); }
  }

  lemma EmptyHeader(q: nat)
    requires q < HEADER
    ensures Encode(NoClusters())[q] == 0
  {
    ZeroBytes(q % 8);
  }

  lemma OpenLayout(g: Geometry, f0: seq<byte>)
    requires History(g, [])
    ensures Layout(g, f0, Open(f0), [])
  {
    hide Encode;
    forall q: nat | q < HEADER ensures At(Open(f0).file, q) == 0 {
      EmptyHeader(q);
    }
  }

  lemma PrefixHistory(g: Geometry, h: seq<Request>)
    requires History(g, h) && h != []
    ensures History(g, h[..|h| - 1]) && Whole(g, h[|h| - 1])
  {}

  /** One step: the entry of `k` after request `h[n]`. */
  lemma PlacedKept(g: Geometry, f0: seq<byte>, ch: Channel, h: seq<Request>, k: nat)
    requires History(g, h) && h != [] && k < MAX_CLUSTERS
    requires Layout(g, f0, ch, h[..|h| - 1]) && Aligned(g, h[|h| - 1])
    ensures Placed(g, WriteCluster(g, ch, h[|h| - 1]), h, k)
  {
    var n := |h| - 1;
    PrefixHistory(g, h);
    assert Placed(g, ch, h[..n], k);
    var d := WriteCluster(g, ch, h[n]);
    if h[n].ok && Actual(g, h, k) != Log(n) {
      var e := d.clusters[k];
      assert Actual(g, h, k) == Actual(g, h[..n], k);
    }
  }

  lemma OrderedKept(g: Geometry, f0: seq<byte>, ch: Channel, h: seq<Request>, k: nat, l: nat)
    requires History(g, h) && h != [] && k < MAX_CLUSTERS && l < MAX_CLUSTERS
    requires Layout(g, f0, ch, h[..|h| - 1]) && Aligned(g, h[|h| - 1])
    ensures Ordered(g, WriteCluster(g, ch, h[|h| - 1]), h, k, l)
  {
    var n := |h| - 1;
    PrefixHistory(g, h);
    assert Placed(g, ch, h[..n], k) && Placed(g, ch, h[..n], l) && Ordered(g, ch, h[..n], k, l);
  }

  /** Every reachable writer state has this layout, whatever the file held and whichever writes failed. */
  lemma {:induction false} LayoutAlways(g: Geometry, f0: seq<byte>, h: seq<Request>)
    requires History(g, h)
    ensures Layout(g, f0, Written(g, f0, h), h)
  {
    if h == [] {
      OpenLayout(g, f0);
    } else {
      var n := |h| - 1;
      PrefixHistory(g, h);
      LayoutAlways(g, f0, h[..n]);
      LayoutKept(g, f0, Written(g, f0, h[..n]), h);
    }
  }

  lemma LayoutKept(g: Geometry, f0: seq<byte>, ch: Channel, h: seq<Request>)
    requires History(g, h) && h != [] && Layout(g, f0, ch, h[..|h| - 1])
    ensures Layout(g, f0, WriteCluster(g, ch, h[|h| - 1]), h)
  {
    hide Placed, Ordered, Actual;
    var n := |h| - 1;
    PrefixHistory(g, h);
    var d := WriteCluster(g, ch, h[n]);
    forall k: nat | k < MAX_CLUSTERS ensures Placed(g, d, h, k) {
      if Aligned(g, h[n]) { PlacedKept(g, f0, ch, h, k); } else { UnalignedKept(g, ch, h, k, k); }
    }
    forall k: nat, l: nat | k < MAX_CLUSTERS && l < MAX_CLUSTERS ensures Ordered(g, d, h, k, l) {
      if Aligned(g, h[n]) { OrderedKept(g, f0, ch, h, k, l); } else { UnalignedKept(g, ch, h, k, l); }
    }
  }

  lemma UnalignedKept(g: Geometry, ch: Channel, h: seq<Request>, k: nat, l: nat)
    requires History(g, h) && h != [] && k < |ch.clusters| && l < |ch.clusters| && !Aligned(g, h[|h| - 1])
    requires History(g, h[..|h| - 1])
    ensures Placed(g, ch, h[..|h| - 1], k) ==> Placed(g, ch, h, k)
    ensures Ordered(g, ch, h[..|h| - 1], k, l) ==> Ordered(g, ch, h, k, l)
  {}

  // ------------------------------------------------------------------ what the layout means

  /** Zero means "not present" and nothing else. */
  lemma ZeroIffNeverAttempted(g: Geometry, f0: seq<byte>, h: seq<Request>, k: nat)
    requires History(g, h) && k < MAX_CLUSTERS
    ensures Written(g, f0, h).clusters[k] == 0 <==> !Attempted(g, h, k)
    ensures Attempted(g, h, k) ==> Written(g, f0, h).clusters[k] >= HEADER
  {
    hide Written;
    LayoutAlways(g, f0, h);
    assert Placed(g, Written(g, f0, h), h, k);
    ImageIffNeverAttempted(g, h, k);
  }

  /**
   * Two different clusters whose last requests succeeded never overlap; more exactly, two entries share a
   * region exactly when they have the same origin, and are otherwise apart in the order of their requests.
   */
  lemma RegionsDisjoint(g: Geometry, f0: seq<byte>, h: seq<Request>, k: nat, l: nat)
    requires History(g, h) && g.clusterSize > 0 && k < MAX_CLUSTERS && l < MAX_CLUSTERS
    requires Attempted(g, h, k) && Attempted(g, h, l)
    ensures var m := Written(g, f0, h).clusters;
            && (m[k] == m[l] <==> Actual(g, h, k) == Actual(g, h, l))
            && (m[k] != m[l] ==> m[k] + g.clusterSize <= m[l] || m[l] + g.clusterSize <= m[k])
            && (k != l && LastTryOk(g, h, k) && LastTryOk(g, h, l) ==> m[k] != m[l])
  {
    hide Written, LastTryOk, Intended;
    var ch := Written(g, f0, h);
    LayoutAlways(g, f0, h);
    assert Placed(g, ch, h, k) && Placed(g, ch, h, l) && Ordered(g, ch, h, k, l) && Ordered(g, ch, h, l, k);
    ImageIffNeverAttempted(g, h, k);
    ImageIffNeverAttempted(g, h, l);
    ActualIsIntendedIff(g, h, k);
    ActualIsIntendedIff(g, h, l);
  }

  /** Closing rewrites the header and no cluster data, and the header then reads back as the map. */
  lemma CloseKeepsData(g: Geometry, f0: seq<byte>, h: seq<Request>)
    requires History(g, h) && Written(g, f0, h).pos < U64
    ensures var ch := Written(g, f0, h);
            && |Close(ch)| == |ch.file| && Decode(Close(ch)) == ch.clusters
            && forall q: nat :: q >= HEADER ==> At(Close(ch), q) == At(ch.file, q)
  {
    hide Written, Encode, Decode;
    var ch := Written(g, f0, h);
    LayoutAlways(g, f0, h);
    forall k | 0 <= k < MAX_CLUSTERS ensures ch.clusters[k] < U64 {
      assert Placed(g, ch, h, k);
    }
    HeaderRoundTrip(Close(ch), ch.clusters);
  }

  /** What the answer to one more request tells the caller about the file and the map. */
  ghost predicate Answered(g: Geometry, ch: Channel, d: Channel, r: Request, rc: int) {
    && (rc == 0 || rc == -EIO || rc == -EINVAL)
    && (rc == -EINVAL ==> d == ch)
    && (rc != -EINVAL ==>
          && g.blockLen > 0 && g.ClusterBlocks() > 0 && ClusterOf(g, r.lba) < |ch.clusters|
          && d.clusters == ch.clusters[ClusterOf(g, r.lba) := ch.pos])
    && (rc == -EIO ==> d.file == ch.file && d.pos == ch.pos)
    && (rc == 0 ==>
          && d.pos == ch.pos + |r.payload| <= |d.file|
          && d.file[ch.pos..d.pos] == r.payload && d.file[..ch.pos] == ch.file[..Min(ch.pos, |ch.file|)])
  }

  /**
   * The three answers are exact, after any history: -EINVAL exactly for an lba that starts no cluster, and then
   * nothing happens; -EIO when the data does not reach the file, though the map already points at its end;
   * 0 when the cluster stands at the old end of the log, with everything before it as it was.
   */
  lemma AnswersExact(g: Geometry, f0: seq<byte>, h: seq<Request>, r: Request)
    requires History(g, h) && Whole(g, r)
    ensures History(g, h + [r])
    ensures Answered(g, Written(g, f0, h), Written(g, f0, h + [r]), r, WriteRc(g, r))
    ensures WriteRc(g, r) == -EINVAL <==> r.lba % g.ClusterBlocks() != 0
    ensures g.clusterSize > 0 ==>
              (WriteRc(g, r) == 0 <==> Written(g, f0, h + [r]).pos == Written(g, f0, h).pos + g.clusterSize)
  {
    assert (h + [r])[..|h|] == h;
    var ch, d := Written(g, f0, h), Written(g, f0, h + [r]);
    assert d == WriteCluster(g, ch, r);
    LayoutAlways(g, f0, h);
    if WriteRc(g, r) == 0 {
      assert d.file == Store(ch.file, ch.pos, r.payload, 0, |r.payload|);
      StoredTail(ch.file, ch.pos, r.payload);
    }
  }

  lemma StoredTail(file: seq<byte>, pos: nat, payload: seq<byte>)
    requires pos <= |file|
    ensures var f := Store(file, pos, payload, 0, |payload|);
            pos + |payload| <= |f| && f[pos..pos + |payload|] == payload && f[..pos] == file[..pos]
  {
    var f := Store(file, pos, payload, 0, |payload|);
    forall q | 0 <= q < pos ensures f[q] == file[q] {
      assert At(f, q) == At(file, q);
    }
    forall q | 0 <= q < |payload| ensures f[pos + q] == payload[q] {
      assert At(f, pos + q) == payload[q];
    }
  }

  /** A failed write is not harmless: the next cluster's data also appears under the failed one. */
  lemma FailedWriteAliases(g: Geometry, f0: seq<byte>, a: seq<byte>, b: seq<byte>)
    requires g == Geometry(512, 1024) && |a| == |b| == 1024
    ensures var h := [Request(0, a, false), Request(2, b, true)];
            && History(g, h) && WriteRc(g, h[0]) == -EIO && WriteRc(g, h[1]) == 0
            && Intended(g, h, 0) == Image && Actual(g, h, 0) == Log(1)
            && Written(g, f0, h).clusters[0] == Written(g, f0, h).clusters[1] == HEADER
  {
    var r, s := Request(0, a, false), Request(2, b, true);
    var h := [r, s];
    assert h[..1] == [r] && [r][..0] == [];
    assert g.ClusterBlocks() == 2;
    assert Actual(g, [r], 0) == Stale;
    assert Intended(g, [r], 0) == Intended(g, [], 0) == Image;
    assert Written(g, f0, [r]) == Append(Open(f0), 0, a, false);
  }
}
