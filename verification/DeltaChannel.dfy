/** The writer's channel in the program's own form: a map array updated in place and a file with a position. */
module DeltaChannel {
  import opened Bytes
  import opened DeltaHeader
  import opened Delta
  import opened DeltaLog
  import opened DeltaOverlay

  class WriteChannel {
    const g: Geometry
    const clusters: array<nat>
    var file: seq<byte>
    var pos: nat

    ghost predicate Valid()
      reads this, clusters
    {
      clusters.Length == MAX_CLUSTERS && g.blockLen > 0 && g.ClusterBlocks() > 0
    }

    ghost function State(): Channel
      reads this, clusters
    {
      Channel(clusters[..], file, pos)
    }

    /** bs_dev_delta_create_channel_cb for writing. */
    constructor (geometry: Geometry, existing: seq<byte>)
      requires geometry.blockLen > 0 && geometry.ClusterBlocks() > 0
      ensures Valid() && fresh(clusters) && g == geometry && State() == Open(existing)
    {
      g := geometry;
      clusters := new nat[MAX_CLUSTERS](_ => 0);
      file, pos := existing, 0;
      new;
      assert clusters[..] == NoClusters();
      WriteFile(Encode(clusters[..]));
    }

    /** write(2) at the file position. */
    method WriteFile(bytes: seq<byte>)
      modifies this
      ensures file == Store(old(file), old(pos), bytes, 0, |bytes|) && pos == old(pos) + |bytes|
    {
      file := Store(file, pos, bytes, 0, |bytes|);
      pos := pos + |bytes|;
    }

    /** bs_dev_delta_write: the map entry is set before the data is written. */
    method Write(r: Request) returns (rc: int)
      requires Valid() && Whole(g, r)
      modifies this, clusters
      ensures Valid() && State() == WriteCluster(g, old(State()), r) && rc == WriteRc(g, r)
    {
      if r.lba % g.ClusterBlocks() != 0 {
        return -EINVAL;
      }
      clusters[r.lba / g.ClusterBlocks()] := pos;
      if !r.ok {
        return -EIO;
      }
      WriteFile(r.payload);
      return 0;
    }

    /** bs_dev_delta_destroy_channel_cb. */
    method CloseFile()
      requires Valid()
      modifies this
      ensures file == Close(old(State())) && clusters[..] == old(clusters[..])
    {
      pos := 0;
      WriteFile(Encode(clusters[..]));
    }
  }

  lemma ReadsBackAlways(g: Geometry, f0: seq<byte>, h: seq<Request>)
    requires Fits(g, f0, h)
    ensures forall image: seq<byte>, lba: nat, buf: seq<byte> ::
              InReach(g, lba) && |buf| == g.blockLen && lba < |image| / g.blockLen
              && LastTryOk(g, h, ClusterOf(g, lba)) ==>
                ReadsBack(g, Create(g, image, true, Close(Written(g, f0, h))), image, h, lba, buf)
  {
    hide Written, Close, Create, Read, Promised, LastTryOk, InReach;
    forall image: seq<byte>, lba: nat, buf: seq<byte> |
      InReach(g, lba) && |buf| == g.blockLen && lba < |image| / g.blockLen && LastTryOk(g, h, ClusterOf(g, lba))
      ensures ReadsBack(g, Create(g, image, true, Close(Written(g, f0, h))), image, h, lba, buf)
    {
      ReopenedMap(g, image, f0, h, 0);
      DeltaRoundTrip(g, image, f0, h, lba, buf);
    }
  }

  /**
   * A whole life of a channel. The answers are those of the requests, the map in the closed file is the map in
   * memory, and over any image the file gives every block whose cluster's last write did not fail its promised data.
   */
  method WriteDelta(g: Geometry, f0: seq<byte>, h: seq<Request>) returns (file: seq<byte>, answers: seq<int>)
    requires History(g, h)
    ensures file == Close(Written(g, f0, h))
    ensures |answers| == |h| && forall t :: 0 <= t < |h| ==> answers[t] == WriteRc(g, h[t])
    ensures Fits(g, f0, h) ==> Decode(file) == Written(g, f0, h).clusters
    ensures Fits(g, f0, h) ==> forall k :: 0 <= k < MAX_CLUSTERS ==> (Decode(file)[k] == 0 <==> !Attempted(g, h, k))
    ensures Fits(g, f0, h) ==> forall image: seq<byte>, lba: nat, buf: seq<byte> ::
              InReach(g, lba) && |buf| == g.blockLen && lba < |image| / g.blockLen
              && LastTryOk(g, h, ClusterOf(g, lba)) ==>
                ReadsBack(g, Create(g, image, true, file), image, h, lba, buf)
  {
    var ch := new WriteChannel(g, f0);
    answers := [];
    assert h[..0] == [];
    for t := 0 to |h|
      invariant ch.Valid() && ch.g == g && fresh(ch) && fresh(ch.clusters)
      invariant History(g, h[..t]) && ch.State() == Written(g, f0, h[..t])
      invariant |answers| == t && forall u :: 0 <= u < t ==> answers[u] == WriteRc(g, h[u])
    {
      var rc := ch.Write(h[t]);
      answers := answers + [rc];
      assert h[..t + 1][..t] == h[..t];
    }
    assert h[..|h|] == h;
    ch.CloseFile();
    file := ch.file;
    if Fits(g, f0, h) {
      CloseKeepsData(g, f0, h);
      forall k | 0 <= k < MAX_CLUSTERS ensures Decode(file)[k] == 0 <==> !Attempted(g, h, k) {
        ZeroIffNeverAttempted(g, f0, h, k);
      }
      ReadsBackAlways(g, f0, h);
    }
  }
}
