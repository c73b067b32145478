/** The start loop of dd_run: how often it can exit. */
module DdStart {
  import opened Bytes
  import opened DdSpec
  import opened DdInvariant
  import opened DdPrimitives
  import opened DdCalls
  import opened DdRuns
  import opened DdExit

  lemma PopulateNeverLowers(c: Config, s: Job, i: nat, e: Env)
    requires c.outBlock > 0 && i < |s.slots|
    ensures Populate(c, s, i, e).outstanding >= s.outstanding && s.exits <= Populate(c, s, i, e).exits
  {}

  /** No call of dd_target_seek lowers `outstanding`, and exits are only added. */
  lemma SeekNeverLowers(c: Config, s: Job, i: nat, e: Env)
    requires c.outBlock > 0 && c.inBlock > 0 && i < |s.slots|
    ensures Seek(c, s, i, e).outstanding >= s.outstanding && s.exits <= Seek(c, s, i, e).exits
  {
    hide Populate;
    if !c.sparse {
      PopulateNeverLowers(c, s, i, e);
    } else if c.inKind == File {
      var t := Skip(s, NextData(c.isData, s.pos));
      PopulateNeverLowers(c, WithLength(t, i, ChunkLength(c, t.pos, NextHole(c.isData, t.pos))), i, e);
    }
  }

  lemma {:induction false} StartNeverLowers(c: Config, s: Job, k: nat, envs: seq<Env>)
    requires c.outBlock > 0 && c.inBlock > 0 && k <= |envs| && |envs| <= |s.slots|
    ensures StartFrom(c, s, k, envs).outstanding >= s.outstanding && s.exits <= StartFrom(c, s, k, envs).exits
    decreases |envs| - k
  {
    hide Seek;
    if k < |envs| {
      SeekNeverLowers(c, s, k, envs[k]);
      StartNeverLowers(c, Seek(c, s, k, envs[k]), k + 1, envs);
    }
  }

  /** Whether the loop exits is settled by its first call: not at all, or once for every slot. */
  lemma FirstCallDecides(c: Config, o: seq<byte>, h: History)
    requires Starts(c, h) && c.depth >= 1
    ensures var first := Seek(c, Initial(c, o, h.bufs, h.interrupted), 0, h.envs[0]);
            |Started(c, o, h).exits| == if first.outstanding >= 1 then 0 else c.depth
  {
    hide Seek;
    var init := Initial(c, o, h.bufs, h.interrupted);
    InitialInv(c, o, h.bufs, h.interrupted);
    BeginNext(c, o, init, 0, h.envs[0]);
    StartNeverLowers(c, Seek(c, init, 0, h.envs[0]), 1, h.envs);
    StartedBegun(c, o, h);
  }

  /** The answer to the first submission of a dense run. */
  function FirstAnswer(c: Config, o: seq<byte>, e: Env): int
    requires c.outBlock > 0
  {
    var length := Min(c.unit, c.copySize);
    if length % c.outBlock == 0 then SubmitRc(c, c.inKind, |c.input|, c.readStart, length, e.submitRc)
    else SubmitRc(c, c.outKind, |o|, c.writeStart, RoundUp(length, c.outBlock), e.submitRc)
  }

  lemma FirstLaunch(c: Config, o: seq<byte>, bufs: seq<seq<byte>>, interrupted: bool, e: Env)
    requires WellFormed(c) && !c.sparse && |bufs| >= 1
    ensures var t := Seek(c, Initial(c, o, bufs, interrupted), 0, e);
            t.outstanding == if !interrupted && c.copySize > 0 && FirstAnswer(c, o, e) == 0 then 1 else 0
  {
    hide RoundUp;
    var s := Initial(c, o, bufs, interrupted);
    PopulateCut(c, s, 0, e);
    NoWrap(c, s.pos);
  }

  /**
   * The start loop of a dense run exits not at all when its first I/O is accepted; otherwise it exits
   * once for every slot. So it makes at most one exit exactly when that I/O is accepted or there is one slot.
   */
  lemma DenseStartExits(c: Config, o: seq<byte>, h: History)
    requires Starts(c, h) && !c.sparse
    ensures |Started(c, o, h).exits| ==
            if c.depth >= 1 && !h.interrupted && c.copySize > 0 && FirstAnswer(c, o, h.envs[0]) == 0 then 0 else c.depth
  {
    if c.depth >= 1 {
      hide Seek, FirstAnswer, Started;
      FirstCallDecides(c, o, h);
      FirstLaunch(c, o, h.bufs, h.interrupted, h.envs[0]);
    }
  }

  // ------------------------------------------------------------------ sparse starts

  /** The answer to the submission of a chunk of `length` bytes at `p`. */
  function ChunkAnswer(c: Config, o: seq<byte>, p: nat, length: nat, e: Env): int
    requires c.outBlock > 0
  {
    if length % c.outBlock == 0 then SubmitRc(c, c.inKind, |c.input|, p, length, e.submitRc)
    else SubmitRc(c, c.outKind, |o|, Target(c, p), RoundUp(length, c.outBlock), e.submitRc)
  }

  lemma ChunkLaunch(c: Config, s: Job, i: nat, e: Env)
    requires WellFormed(c) && i < |s.slots| && s.Clean() && s.outstanding == 0 && c.readStart <= s.pos < c.End()
    requires s.slots[i].length > 0
    ensures Populate(c, s, i, e).outstanding ==
            if ChunkAnswer(c, s.out, s.pos, Min(s.slots[i].length, c.End() - s.pos), e) == 0 then 1 else 0
  {
    hide RoundUp, Target;
    PopulateCut(c, s, i, e);
  }

  /** What the first call of a sparse file copy needs to start an I/O: data, both seeks, and an accepted request. */
  ghost predicate FileStarts(c: Config, o: seq<byte>, e: Env)
    requires WellFormed(c) && c.sparse
  {
    var d := NextData(c.isData, c.readStart);
    && c.copySize > 0 && e.seekDataErr == 0 && d < |c.isData| && e.seekHoleErr == 0
    && ChunkAnswer(c, o, d, Min(ChunkLength(c, d, NextHole(c.isData, d)), c.End() - d), e) == 0
  }

  lemma FileLaunch(c: Config, o: seq<byte>, bufs: seq<seq<byte>>, interrupted: bool, e: Env)
    requires WellFormed(c) && c.sparse && c.inKind == File && |bufs| >= 1
    ensures var t := Seek(c, Initial(c, o, bufs, interrupted), 0, e);
            t.outstanding == if !interrupted && FileStarts(c, o, e) then 1 else 0
  {
    hide RoundUp, Populate, ChunkAnswer;
    var s := Initial(c, o, bufs, interrupted);
    NoWrap(c, s.pos);
    if !interrupted && c.copySize > 0 && e.seekDataErr == 0 && NextData(c.isData, s.pos) < |c.isData| {
      var t := Skip(s, NextData(c.isData, s.pos));
      ChunkLaunch(c, WithLength(t, 0, ChunkLength(c, t.pos, NextHole(c.isData, t.pos))), 0, e);
    }
  }

  /**
   * The start loop of a sparse file copy exits not at all when its first call finds data and its first I/O is
   * accepted; otherwise, as for a file without data, it exits once for every slot.
   */
  lemma SparseFileStartExits(c: Config, o: seq<byte>, h: History)
    requires Starts(c, h) && c.sparse && c.inKind == File
    ensures |Started(c, o, h).exits| ==
            if c.depth >= 1 && !h.interrupted && FileStarts(c, o, h.envs[0]) then 0 else c.depth
  {
    if c.depth >= 1 {
      hide Seek, FileStarts, Started;
      FirstCallDecides(c, o, h);
      FileLaunch(c, o, h.bufs, h.interrupted, h.envs[0]);
    }
  }

  /**
   * The start loop of a sparse bdev copy exits not at all when its first seek is accepted, else once for every slot.
   */
  lemma SparseBdevStartExits(c: Config, o: seq<byte>, h: History)
    requires Starts(c, h) && c.SparseBdev()
    ensures |Started(c, o, h).exits| ==
            if c.depth >= 1 && !h.interrupted && c.copySize > 0 && h.envs[0].submitRc == 0 then 0 else c.depth
  {
    if c.depth >= 1 {
      hide Started;
      FirstCallDecides(c, o, h);
      NoWrap(c, c.readStart);
    }
  }
}
