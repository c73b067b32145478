/** The code's functions keep the invariant, whatever the environment answers. */
module DdCalls {
  import opened Bytes
  import opened DdSpec
  import opened DdInvariant
  import opened DdPrimitives

  lemma UndoneKeeps(c: Config, o: seq<byte>, s: Job, i: nat, p: Phase, at: nat, size: nat)
    requires Inv(c, o, s) && i < |s.slots| && s.slots[i].phase == Running
    ensures Inv(c, o, Land(Launch(s, i, p, at, size), i))
  {
    var u := Land(Launch(s, i, p, at, size), i);
    assert u.slots == s.slots[i := u.slots[i]];
    assert SlotOk(c, s, s.slots[i]);
    SlotUpdate(c, o, s, u, i, u.slots[i]);
  }

  /** A refused submission: the slot gives up its chunk and the error is recorded. */
  lemma RefusedKeeps(c: Config, o: seq<byte>, s: Job, i: nat, p: Phase, at: nat, size: nat, f: Fate, rc: int)
    requires Inv(c, o, s) && i < |s.slots| && s.slots[i].phase == Running && rc != 0
    requires f == Lost || f == Abandoned
    ensures Inv(c, o, Fail(Drop(Land(Launch(s, i, p, at, size), i), i, f), rc))
  {
    hide Own, Data, QueueOk, Counted;
    var u := Land(Launch(s, i, p, at, size), i);
    UndoneKeeps(c, o, s, i, p, at, size);
    DropKeeps(c, o, u, i, f);
    BookkeepingKeeps(c, o, Drop(u, i, f), Fail(Drop(u, i, f), rc));
  }

  lemma AbandonKeeps(c: Config, o: seq<byte>, s: Job, i: nat, show: bool)
    requires Inv(c, o, s) && i < |s.slots| && s.slots[i].phase == Running
    ensures Inv(c, o, StopIfDrained(Drop(s, i, Abandoned), show))
  {
    hide Own, Data, QueueOk, Counted;
    DropKeeps(c, o, s, i, Abandoned);
    BookkeepingKeeps(c, o, Drop(s, i, Abandoned), StopIfDrained(Drop(s, i, Abandoned), show));
  }

  lemma ReadKeeps(c: Config, o: seq<byte>, s: Job, i: nat, e: Env)
    requires Inv(c, o, s) && i < |s.slots| && s.slots[i].phase == Running
    requires s.Clean() ==> TailReady(c, o, s.out, s.slots[i])
    ensures Inv(c, o, Read(c, s, i, e))
  {
    var sl := s.slots[i];
    if !s.Clean() {
      AbandonKeeps(c, o, s, i, false);
    } else {
      LaunchKeeps(c, o, s, i, Reading, sl.offset, sl.length);
      var rc := SubmitRc(c, c.inKind, |c.input|, sl.offset, sl.length, e.submitRc);
      if rc != 0 { RefusedKeeps(c, o, s, i, Reading, sl.offset, sl.length, Abandoned, rc); }
    }
  }

  /** A running slot in the read region has its exact target, and a bdev accepts only what it can hold. */
  lemma Accepted(c: Config, s: Job, i: nat, rc: int)
    requires WellFormed(c) && Own(c, s) && i < |s.slots| && s.slots[i].Owns()
    ensures Target(c, s.slots[i].offset) == Place(c, s.slots[i].offset)
    ensures var at, size := Place(c, s.slots[i].offset), RoundUp(s.slots[i].length, c.outBlock);
            SubmitRc(c, c.outKind, |s.out|, at, size, rc) == 0 && c.outKind == Bdev ==> at + size <= |s.out|
  {
    assert SlotOk(c, s, s.slots[i]);
    NoWrap(c, s.slots[i].offset);
  }

  lemma IssueKeeps(c: Config, o: seq<byte>, s: Job, i: nat, e: Env)
    requires Inv(c, o, s) && i < |s.slots| && s.slots[i].phase == Running && s.Clean()
    requires TailReady(c, o, s.out, s.slots[i]) && Loaded(c, s.slots[i], s.slots[i].length)
    ensures var at, size := Target(c, s.slots[i].offset), RoundUp(s.slots[i].length, c.outBlock);
            var t := Launch(s, i, Writing, at, size);
            var rc := SubmitRc(c, c.outKind, |s.out|, at, size, e.submitRc);
            Inv(c, o, if rc != 0 then Fail(Drop(Land(t, i), i, Lost), rc) else t)
  {
    Accepted(c, s, i, e.submitRc);
    var at, size := Target(c, s.slots[i].offset), RoundUp(s.slots[i].length, c.outBlock);
    var rc := SubmitRc(c, c.outKind, |s.out|, at, size, e.submitRc);
    if rc != 0 {
      RefusedKeeps(c, o, s, i, Writing, at, size, Lost, rc);
    } else {
      LaunchKeeps(c, o, s, i, Writing, at, size);
    }
  }

  lemma WriteKeeps(c: Config, o: seq<byte>, s: Job, i: nat, e: Env)
    requires Inv(c, o, s) && i < |s.slots| && s.slots[i].phase == Running
    requires s.Clean() ==> TailReady(c, o, s.out, s.slots[i]) && Loaded(c, s.slots[i], s.slots[i].length)
    ensures Inv(c, o, Write(c, s, i, e))
  {
    hide Own, Data, QueueOk, Counted;
    if !s.Clean() {
      AbandonKeeps(c, o, s, i, true);
    } else {
      var u := s.(incrementalBytes := s.incrementalBytes + s.slots[i].length);
      BookkeepingKeeps(c, o, s, u);
      IssueKeeps(c, o, u, i, e);
    }
  }

  /** The length a slot may ask for: whole blocks, or everything that is left. */
  ghost predicate Fits(c: Config, s: Job, length: nat)
    requires c.outBlock > 0 && c.inBlock > 0
  {
    && length <= c.unit
    && (length % c.outBlock == 0 || s.pos + length >= c.End())
    && (!c.sparse ==> length == c.unit || s.pos + length >= c.End())
    && (c.SparseBdev() ==> length % c.inBlock == 0)
    && (c.sparse ==> AllData(c, s.pos, s.pos + length))
  }

  lemma CutKeepsBlocks(c: Config, s: Job, length: nat)
    requires WellFormed(c) && PosOk(c, s) && Fits(c, s, length)
    ensures Fits(c, s, Min(length, c.End() - s.pos))
  {
    if c.SparseBdev() { ModOfSum(c.End(), s.pos, c.inBlock); }
  }

  /** What dd_target_populate_buffer does once the chunk is cut to size. */
  function Claimed(c: Config, t: Job, i: nat, e: Env): Job
    requires i < |t.slots| && c.outBlock > 0
  {
    var u, sl := Claim(t, i), t.slots[i];
    if sl.length % c.outBlock == 0 then Read(c, u, i, e)
    else
      var at, size := Target(c, sl.offset), RoundUp(sl.length, c.outBlock);
      var v := Launch(u, i, Populating, at, size);
      var rc := SubmitRc(c, c.outKind, |t.out|, at, size, e.submitRc);
      if rc != 0 then Fail(Drop(Land(v, i), i, Abandoned), rc) else v
  }

  lemma ClaimedKeeps(c: Config, o: seq<byte>, t: Job, i: nat, e: Env)
    requires Inv(c, o, t) && i < |t.slots| && t.slots[i].phase == Idle && NoSeek(t) && t.Clean()
    requires t.slots[i].offset == t.pos && 0 < t.slots[i].length && t.pos + t.slots[i].length <= c.End()
    requires Fits(c, t, t.slots[i].length)
    ensures Inv(c, o, Claimed(c, t, i, e))
  {
    var u, sl := Claim(t, i), t.slots[i];
    ClaimKeeps(c, o, t, i);
    RoundUpBounds(sl.length, c.outBlock, c.unit);
    if sl.length % c.outBlock == 0 {
      ReadKeeps(c, o, u, i, e);
    } else {
      Accepted(c, u, i, e.submitRc);
      var at, size := Target(c, sl.offset), RoundUp(sl.length, c.outBlock);
      var rc := SubmitRc(c, c.outKind, |t.out|, at, size, e.submitRc);
      if rc != 0 { RefusedKeeps(c, o, u, i, Populating, at, size, Abandoned, rc); }
      else { LaunchKeeps(c, o, u, i, Populating, at, size); }
    }
  }

  /** dd_target_populate_buffer cuts the chunk to what is left and then claims it, or stops. */
  lemma PopulateCut(c: Config, s: Job, i: nat, e: Env)
    requires WellFormed(c) && i < |s.slots| && c.readStart <= s.pos <= c.End()
    ensures var length := Min(s.slots[i].length, c.End() - s.pos);
            var t := s.(slots := s.slots[i := s.slots[i].(offset := s.pos, length := length)]);
            Populate(c, s, i, e) == if length == 0 || !s.Clean() then StopIfDrained(t, true) else Claimed(c, t, i, e)
  {
    NoWrap(c, s.pos);
  }

  lemma CutKeeps(c: Config, o: seq<byte>, s: Job, i: nat)
    requires Inv(c, o, s) && i < |s.slots| && s.slots[i].phase == Idle && Fits(c, s, s.slots[i].length)
    ensures var length := Min(s.slots[i].length, c.End() - s.pos);
            var t := s.(slots := s.slots[i := s.slots[i].(offset := s.pos, length := length)]);
            Inv(c, o, t) && Fits(c, t, length)
  {
    CutKeepsBlocks(c, s, s.slots[i].length);
    ResizeKeeps(c, o, s, i, s.pos, Min(s.slots[i].length, c.End() - s.pos));
  }

  lemma PopulateKeeps(c: Config, o: seq<byte>, s: Job, i: nat, e: Env)
    requires Inv(c, o, s) && i < |s.slots| && s.slots[i].phase == Idle && NoSeek(s)
    requires Fits(c, s, s.slots[i].length)
    ensures Inv(c, o, Populate(c, s, i, e))
  {
    hide Data, QueueOk, Counted, Claimed, Populate;
    CutKeeps(c, o, s, i);
    PopulateCut(c, s, i, e);
    var length := Min(s.slots[i].length, c.End() - s.pos);
    var t := s.(slots := s.slots[i := s.slots[i].(offset := s.pos, length := length)]);
    if length == 0 || !s.Clean() {
      BookkeepingKeeps(c, o, t, StopIfDrained(t, true));
    } else {
      ClaimedKeeps(c, o, t, i, e);
    }
  }

  lemma FinalizeKeeps(c: Config, o: seq<byte>, s: Job, e: Env)
    requires Inv(c, o, s) && c.copySize > 0
    ensures Inv(c, o, Finalize(c, s, e))
  {
    hide Own, Data, QueueOk, Counted;
    if s.outstanding <= 0 {
      if c.outKind == File && e.endErr == 0 && |s.out| < c.copySize + c.writeStart && e.truncErr == 0 {
        ExtendKeeps(c, o, s);
        BookkeepingKeeps(c, o, s.(out := Extend(s.out, c.copySize + c.writeStart)), Finalize(c, s, e));
      } else {
        BookkeepingKeeps(c, o, s, Finalize(c, s, e));
      }
    }
  }

  /** From a data byte to the next hole there are whole blocks, or the rest of the input. */
  lemma HoleFits(c: Config, s: Job, h: nat)
    requires WellFormed(c) && PosOk(c, s) && c.sparse && s.pos < |c.isData| && c.isData[s.pos]
    requires h == NextHole(c.isData, s.pos)
    ensures h > s.pos && Fits(c, s, ChunkLength(c, s.pos, h))
    ensures c.SparseBdev() ==> h % c.inBlock == 0
  {
    if h < |c.isData| {
      assert Boundary(c, h);
      ModOfSum(h - c.readStart, s.pos - c.readStart, c.outBlock);
    }
    if c.SparseBdev() { ModOfSum(h, s.pos, c.inBlock); }
  }

  lemma DataFoundKeeps(c: Config, o: seq<byte>, t: Job, i: nat, e: Env)
    requires Inv(c, o, t) && i < |t.slots| && t.slots[i].phase == Idle && NoSeek(t) && c.sparse
    requires t.pos < |c.isData| && c.isData[t.pos]
    ensures var h := NextHole(c.isData, t.pos); Inv(c, o, Populate(c, WithLength(t, i, ChunkLength(c, t.pos, h)), i, e))
  {
    hide Data, QueueOk, Counted, Populate;
    var h := NextHole(c.isData, t.pos);
    HoleFits(c, t, h);
    ResizeKeeps(c, o, t, i, t.slots[i].offset, ChunkLength(c, t.pos, h));
    PopulateKeeps(c, o, WithLength(t, i, ChunkLength(c, t.pos, h)), i, e);
  }

  lemma SeekFileKeeps(c: Config, o: seq<byte>, s: Job, i: nat, e: Env)
    requires Inv(c, o, s) && i < |s.slots| && s.slots[i].phase == Idle && NoSeek(s) && c.sparse && c.copySize > 0
    ensures Inv(c, o, SeekFile(c, s, i, e))
  {
    hide Data, QueueOk, Counted, Populate, Finalize;
    var d := NextData(c.isData, s.pos);
    if e.seekDataErr != 0 {
      BookkeepingKeeps(c, o, s, SeekFile(c, s, i, e));
    } else if d >= |c.isData| {
      FinalizeKeeps(c, o, s, e);
    } else {
      SkipKeeps(c, o, s, d);
      if e.seekHoleErr != 0 {
        BookkeepingKeeps(c, o, Skip(s, d), SeekFile(c, s, i, e));
      } else {
        DataFoundKeeps(c, o, Skip(s, d), i, e);
      }
    }
  }

  lemma SeekBdevKeeps(c: Config, o: seq<byte>, s: Job, i: nat, e: Env)
    requires Inv(c, o, s) && i < |s.slots| && s.slots[i].phase == Idle && c.SparseBdev() && c.copySize > 0
    ensures Inv(c, o, SeekBdev(c, s, i, e))
  {
    hide Own, Data, Counted;
    var t := WithPhase(s, i, Queued).(queue := s.queue + [i]);
    EnqueueKeeps(c, o, s, i);
    if s.queue == [] {
      assert forall j :: 0 <= j < |s.slots| ==> !Waiting(s.slots[j]);
      LaunchSeekKeeps(c, o, t, i, SeekingData);
      if e.submitRc != 0 {
        var u := LaunchSeek(c, t, i, SeekingData);
        LandSeekKeeps(c, o, u, i);
        BookkeepingKeeps(c, o, LandSeek(u, i), Fail(LandSeek(u, i), e.submitRc));
      }
    }
  }

  lemma NoQueueNoSeek(c: Config, s: Job)
    requires WellFormed(c) && QueueOk(c, s) && !c.SparseBdev()
    ensures NoSeek(s)
  {
    forall i | 0 <= i < |s.slots| ensures !s.slots[i].Seeking() {
      assert Waiting(s.slots[i]) ==> i in s.queue;
    }
  }

  lemma SeekKeeps(c: Config, o: seq<byte>, s: Job, i: nat, e: Env)
    requires Inv(c, o, s) && i < |s.slots| && s.slots[i].phase == Idle
    ensures Inv(c, o, Seek(c, s, i, e))
  {
    if !c.sparse {
      NoQueueNoSeek(c, s);
      assert SlotOk(c, s, s.slots[i]);
      PopulateKeeps(c, o, s, i, e);
    } else if Sub64(c.copySize, Sub64(s.pos, c.readStart)) == 0 || !s.Clean() {
      BookkeepingKeeps(c, o, s, StopIfDrained(s, true));
    } else if c.inKind == File {
      NoQueueNoSeek(c, s);
      SeekFileKeeps(c, o, s, i, e);
    } else {
      SeekBdevKeeps(c, o, s, i, e);
    }
  }

  lemma DataSoughtKeeps(c: Config, o: seq<byte>, s: Job, i: nat, found: bool, d: nat, e: Env)
    requires Inv(c, o, s) && i < |s.slots| && s.slots[i].phase == SeekingData && s.Clean()
    requires found ==> s.pos <= d < |c.isData| && c.isData[d] && forall k :: s.pos <= k < d ==> !c.isData[k]
    ensures Inv(c, o, DataSought(c, s, i, found, d, e))
  {
    hide Own, Data, Counted, Finalize;
    var t := LandSeek(s, i);
    LandSeekKeeps(c, o, s, i);
    if !found {
      DequeueKeeps(c, o, t, i);
      FinalizeKeeps(c, o, Dequeue(t, i), e);
    } else {
      SkipKeeps(c, o, t, d);
      HoleSeekKeeps(c, o, Skip(t, d), i, e);
    }
  }

  /** The seek answers with the first data byte at or after `pos`, exactly on a block. */
  lemma DataAnswer(c: Config, s: Job, at: nat)
    requires WellFormed(c) && PosOk(c, s) && c.SparseBdev() && at * c.inBlock == s.pos
    ensures var d := NextData(c.isData, at * c.inBlock);
            var p := RoundDown(d, c.inBlock);
            && (forall k :: s.pos <= k < d && k < |c.isData| ==> !c.isData[k])
            && (d < |c.isData| ==> p == d && s.pos <= p < |c.isData| && c.isData[p])
  {
    var d := NextData(c.isData, s.pos);
    if d < |c.isData| {
      assert d > s.pos ==> Boundary(c, d);
      WholeBlocks(d, c.inBlock);
    }
  }

  lemma SeekDataDoneKeeps(c: Config, o: seq<byte>, s: Job, i: nat, e: Env)
    requires Inv(c, o, s) && i < |s.slots| && s.slots[i].phase == SeekingData
    ensures Inv(c, o, SeekDataDone(c, s, i, e))
  {
    hide Data, Counted, DataSought;
    SeekerIsHead(c, s, i);
    if !s.Clean() {
      DequeueKeeps(c, o, s, i);
      BookkeepingKeeps(c, o, Dequeue(s, i), StopIfDrained(Dequeue(s, i), true));
    } else {
      SeekDataAnswered(c, o, s, i, e);
    }
  }

  lemma SeekDataAnswered(c: Config, o: seq<byte>, s: Job, i: nat, e: Env)
    requires Inv(c, o, s) && i < |s.slots| && s.slots[i].phase == SeekingData && s.Clean() && c.SparseBdev()
    ensures var d := NextData(c.isData, s.slots[i].at * c.inBlock);
            Inv(c, o, DataSought(c, s, i, d < |c.isData|, RoundDown(d, c.inBlock), e))
  {
    hide Data, Counted, DataSought, RoundDown;
    DataAnswer(c, s, s.slots[i].at);
    var d := NextData(c.isData, s.slots[i].at * c.inBlock);
    DataSoughtKeeps(c, o, s, i, d < |c.isData|, RoundDown(d, c.inBlock), e);
  }

  lemma HoleSeekKeeps(c: Config, o: seq<byte>, t: Job, i: nat, e: Env)
    requires Inv(c, o, t) && i < |t.slots| && t.slots[i].phase == Queued && NoSeek(t)
    requires t.queue != [] && t.queue[0] == i && t.pos < |c.isData| && c.isData[t.pos]
    ensures var u := LaunchSeek(c, t, i, SeekingHole);
            Inv(c, o, if e.submitRc != 0 then Fail(Dequeue(LandSeek(u, i), i), e.submitRc) else u)
  {
    hide Own, Data, Counted;
    var u := LaunchSeek(c, t, i, SeekingHole);
    LaunchSeekKeeps(c, o, t, i, SeekingHole);
    if e.submitRc != 0 {
      LandSeekKeeps(c, o, u, i);
      DequeueKeeps(c, o, LandSeek(u, i), i);
      BookkeepingKeeps(c, o, Dequeue(LandSeek(u, i), i), Fail(Dequeue(LandSeek(u, i), i), e.submitRc));
    }
  }

  lemma NextSeekKeeps(c: Config, o: seq<byte>, s: Job, e: Env)
    requires Inv(c, o, s) && NoSeek(s)
    ensures Inv(c, o, NextSeek(c, s, e))
  {
    if s.queue != [] && s.pos < c.inTotal {
      var j := s.queue[0];
      assert Waiting(s.slots[j]);
      LaunchSeekKeeps(c, o, s, j, SeekingData);
      if e.nextSeekRc != 0 {
        var u := LaunchSeek(c, s, j, SeekingData);
        LandSeekKeeps(c, o, u, j);
        BookkeepingKeeps(c, o, LandSeek(u, j), Fail(LandSeek(u, j), e.nextSeekRc));
      }
    }
  }

  /** No call but the seeks themselves puts a seek in flight. */
  lemma PopulateNoSeek(c: Config, s: Job, i: nat, e: Env)
    requires WellFormed(c) && i < |s.slots| && NoSeek(s)
    ensures NoSeek(Populate(c, s, i, e)) && Populate(c, s, i, e).queue == s.queue
  {}

  /** The hole found is the next one after `pos`, so the length is the one a file seek would give. */
  lemma HoleLengthIs(c: Config, s: Job, i: nat)
    requires WellFormed(c) && PosOk(c, s) && c.SparseBdev() && i < |s.slots| && s.slots[i].at * c.inBlock == s.pos
    requires s.pos < |c.isData| && c.isData[s.pos]
    ensures Fits(c, s, HoleLength(c, s, i))
  {
    var h := NextHole(c.isData, s.pos);
    if h < |c.isData| {
      HoleFits(c, s, h);
      HoleBlocks(c, s, i, h);
    }
  }

  lemma HoleBlocks(c: Config, s: Job, i: nat, h: nat)
    requires c.inBlock > 0 && i < |s.slots| && s.slots[i].at * c.inBlock == s.pos
    requires h == NextHole(c.isData, s.pos) && s.pos < h < |c.isData| < U64 && h % c.inBlock == 0
    ensures HoleLength(c, s, i) == ChunkLength(c, s.pos, h)
  {
    WholeBlocks(h, c.inBlock);
  }

  /** The slot that found its hole leaves the queue with a length that fits. */
  lemma HoleDone(c: Config, o: seq<byte>, s: Job, i: nat)
    requires Inv(c, o, s) && i < |s.slots| && s.slots[i].phase == SeekingHole
    ensures var u := Dequeue(LandSeek(s, i), i);
            Inv(c, o, u) && NoSeek(u) && Fits(c, u, HoleLength(c, s, i)) && c.sparse
  {
    LandSeekKeeps(c, o, s, i);
    DequeueKeeps(c, o, LandSeek(s, i), i);
    HoleLengthIs(c, s, i);
  }

  lemma SeekHoleDoneKeeps(c: Config, o: seq<byte>, s: Job, i: nat, e: Env)
    requires Inv(c, o, s) && i < |s.slots| && s.slots[i].phase == SeekingHole
    ensures Inv(c, o, SeekHoleDone(c, s, i, e))
  {
    hide Data, Counted;
    if !s.Clean() {
      SeekerIsHead(c, s, i);
      DequeueKeeps(c, o, s, i);
      BookkeepingKeeps(c, o, Dequeue(s, i), StopIfDrained(Dequeue(s, i), true));
    } else {
      HoleDone(c, o, s, i);
      HoleFoundKeeps(c, o, Dequeue(LandSeek(s, i), i), i, HoleLength(c, s, i), e);
    }
  }

  lemma HoleFoundKeeps(c: Config, o: seq<byte>, s: Job, i: nat, length: nat, e: Env)
    requires Inv(c, o, s) && i < |s.slots| && s.slots[i].phase == Idle && NoSeek(s) && Fits(c, s, length) && c.sparse
    ensures var p := Populate(c, WithLength(s, i, length), i, e);
            NoSeek(p) && Inv(c, o, p) && Inv(c, o, NextSeek(c, p, e))
  {
    var t := WithLength(s, i, length);
    ResizeKeeps(c, o, s, i, s.slots[i].offset, length);
    PopulateKeeps(c, o, t, i, e);
    PopulateNoSeek(c, t, i, e);
    NextSeekKeeps(c, o, Populate(c, t, i, e), e);
  }
}
