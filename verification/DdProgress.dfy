/** Progress accounting: how many bytes had their write issued, and what the user is shown of it. */
module DdProgress {
  import opened Bytes
  import opened DdSpec
  import opened DdInvariant
  import opened DdCalls
  import opened DdRuns
  import opened DdExit
  import opened DdTheorems

  predicate Settled(f: Fate) {
    f == Written || f == Lost
  }

  function SettledBytes(fate: seq<Fate>): nat {
    if fate == [] then 0
    else SettledBytes(fate[..|fate| - 1]) + if Settled(fate[|fate| - 1]) then 1 else 0
  }

  function WriteWeight(sl: Slot): nat {
    if sl.phase == Writing then sl.length else 0
  }

  /** Bytes of all chunks whose write was issued: finished, failed or still in flight. */
  function IssuedBytes(s: Job): nat {
    SettledBytes(s.fate) + Total(s.slots, WriteWeight)
  }

  /** `extra` bytes are between their completion and their fate. */
  ghost predicate Tallied(s: Job, extra: nat) {
    s.totalBytes + s.incrementalBytes == IssuedBytes(s) + extra
  }

  lemma {:induction false} SettledAppend(fate: seq<Fate>, f: Fate, n: nat)
    requires !Settled(f)
    ensures SettledBytes(fate + Repeat(f, n)) == SettledBytes(fate)
    decreases n
  {
    if n == 0 {
      assert fate + Repeat(f, 0) == fate;
    } else {
      var all := fate + Repeat(f, n);
      assert all[..|all| - 1] == fate + Repeat(f, n - 1);
      SettledAppend(fate, f, n - 1);
    }
  }

  /** Retiring slot i settles exactly the bytes of its chunk. */
  lemma {:induction false} SettledRetire(fate: seq<Fate>, i: nat, f: Fate, lo: nat, hi: nat)
    requires lo <= hi <= |fate|
    requires forall k :: 0 <= k < |fate| ==> (fate[k] == InFlight(i) <==> lo <= k < hi)
    ensures SettledBytes(Retire(fate, i, f)) == SettledBytes(fate) + if Settled(f) then hi - lo else 0
    decreases |fate|
  {
    if fate != [] {
      var n := |fate| - 1;
      assert Retire(fate, i, f)[..n] == Retire(fate[..n], i, f);
      if hi <= n {
        SettledRetire(fate[..n], i, f, lo, hi);
      } else {
        SettledRetire(fate[..n], i, f, Min(lo, n), n);
      }
    }
  }

  lemma {:induction false} SettledAtMost(fate: seq<Fate>)
    ensures SettledBytes(fate) <= |fate|
    ensures (forall k :: 0 <= k < |fate| ==> fate[k] == Written) ==> SettledBytes(fate) == |fate|
  {
    if fate != [] { SettledAtMost(fate[..|fate| - 1]); }
  }

  // ------------------------------------------------------------------ primitives

  lemma TallySlot(s: Job, t: Job, i: nat, v: Slot, before: nat, after: nat)
    requires i < |s.slots| && t.slots == s.slots[i := v] && t.fate == s.fate && Tallied(s, before)
    requires t.totalBytes + t.incrementalBytes - (s.totalBytes + s.incrementalBytes)
             == WriteWeight(v) - WriteWeight(s.slots[i]) + after - before
    ensures Tallied(t, after)
  {
    TotalUpdate(s.slots, i, v, WriteWeight);
  }

  lemma TallyDrop(c: Config, s: Job, i: nat, f: Fate, extra: nat)
    requires WellFormed(c) && Own(c, s) && i < |s.slots| && s.slots[i].phase == Running
    requires Tallied(s, extra) && extra == if Settled(f) then s.slots[i].length else 0
    ensures Tallied(Drop(s, i, f), 0)
  {
    hide RoundUp;
    var sl := s.slots[i];
    assert SlotOk(c, s, sl);
    SettledRetire(s.fate, i, f, sl.offset - c.readStart, sl.offset - c.readStart + sl.length);
    TotalUpdate(s.slots, i, sl.(phase := Idle), WriteWeight);
  }

  lemma TallyClaim(s: Job, i: nat)
    requires i < |s.slots| && s.slots[i].phase == Idle && Tallied(s, 0)
    ensures Tallied(Claim(s, i), 0)
  {
    SettledAppend(s.fate, InFlight(i), s.slots[i].length);
    TotalUpdate(s.slots, i, s.slots[i].(phase := Running), WriteWeight);
  }

  lemma TallySkip(s: Job, p: nat)
    requires Tallied(s, 0)
    ensures Tallied(Skip(s, p), 0)
  {
    SettledAppend(s.fate, Hole, Max(0, p - s.pos));
  }

  lemma LaunchLand(s: Job, i: nat, p: Phase, at: nat, size: nat)
    requires i < |s.slots| && s.slots[i].phase == Running
    ensures Land(Launch(s, i, p, at, size), i)
            == s.(slots := s.slots[i := s.slots[i].(at := at, size := size, served := 0)])
  {}

  lemma TallyRefused(c: Config, s: Job, i: nat, p: Phase, at: nat, size: nat, f: Fate, rc: int, extra: nat)
    requires WellFormed(c) && Own(c, s) && i < |s.slots| && s.slots[i].phase == Running
    requires Tallied(s, extra) && extra == if Settled(f) then s.slots[i].length else 0
    ensures Tallied(Fail(Drop(Land(Launch(s, i, p, at, size), i), i, f), rc), 0)
  {
    hide RoundUp;
    var v := s.slots[i].(at := at, size := size, served := 0);
    var u := s.(slots := s.slots[i := v]);
    LaunchLand(s, i, p, at, size);
    assert SlotOk(c, s, s.slots[i]);
    DdPrimitives.OwnUpdate(c, s, u, i, v);
    TallySlot(s, u, i, v, extra, extra);
    TallyDrop(c, u, i, f, extra);
  }

  // ------------------------------------------------------------------ calls

  lemma TallyRead(c: Config, s: Job, i: nat, e: Env)
    requires WellFormed(c) && Own(c, s) && i < |s.slots| && s.slots[i].phase == Running && Tallied(s, 0)
    ensures Tallied(Read(c, s, i, e), 0)
  {
    var sl := s.slots[i];
    if !s.Clean() {
      TallyDrop(c, s, i, Abandoned, 0);
    } else {
      var t := Launch(s, i, Reading, sl.offset, sl.length);
      TallySlot(s, t, i, t.slots[i], 0, 0);
      var rc := SubmitRc(c, c.inKind, |c.input|, sl.offset, sl.length, e.submitRc);
      TallyRefused(c, s, i, Reading, sl.offset, sl.length, Abandoned, rc, 0);
    }
  }

  lemma TallyIssue(c: Config, u: Job, i: nat, rc: int)
    requires WellFormed(c) && Own(c, u) && i < |u.slots| && u.slots[i].phase == Running && Tallied(u, u.slots[i].length)
    ensures var at, size := Target(c, u.slots[i].offset), RoundUp(u.slots[i].length, c.outBlock);
            var t := Launch(u, i, Writing, at, size);
            Tallied(t, 0) && Tallied(Fail(Drop(Land(t, i), i, Lost), rc), 0)
  {
    hide RoundUp;
    var at, size := Target(c, u.slots[i].offset), RoundUp(u.slots[i].length, c.outBlock);
    var t := Launch(u, i, Writing, at, size);
    TallySlot(u, t, i, t.slots[i], u.slots[i].length, 0);
    TallyRefused(c, u, i, Writing, at, size, Lost, rc, u.slots[i].length);
  }

  lemma TallyWrite(c: Config, s: Job, i: nat, e: Env)
    requires WellFormed(c) && Own(c, s) && i < |s.slots| && s.slots[i].phase == Running && Tallied(s, 0)
    ensures Tallied(Write(c, s, i, e), 0)
  {
    hide RoundUp;
    if !s.Clean() {
      TallyDrop(c, s, i, Abandoned, 0);
    } else {
      var sl := s.slots[i];
      TallyIssue(c, s.(incrementalBytes := s.incrementalBytes + sl.length), i,
                 SubmitRc(c, c.outKind, |s.out|, Target(c, sl.offset), RoundUp(sl.length, c.outBlock), e.submitRc));
    }
  }

  lemma TallyClaimed(c: Config, o: seq<byte>, t: Job, i: nat, e: Env)
    requires Inv(c, o, t) && i < |t.slots| && t.slots[i].phase == Idle && NoSeek(t) && t.Clean()
    requires t.slots[i].offset == t.pos && 0 < t.slots[i].length && t.pos + t.slots[i].length <= c.End()
    requires Fits(c, t, t.slots[i].length) && Tallied(t, 0)
    ensures Tallied(Claimed(c, t, i, e), 0)
  {
    hide RoundUp;
    var u, sl := Claim(t, i), t.slots[i];
    DdPrimitives.ClaimKeeps(c, o, t, i);
    TallyClaim(t, i);
    if sl.length % c.outBlock == 0 {
      TallyRead(c, u, i, e);
    } else {
      var at, size := Target(c, sl.offset), RoundUp(sl.length, c.outBlock);
      var v := Launch(u, i, Populating, at, size);
      TallySlot(u, v, i, v.slots[i], 0, 0);
      var rc := SubmitRc(c, c.outKind, |t.out|, at, size, e.submitRc);
      TallyRefused(c, u, i, Populating, at, size, Abandoned, rc, 0);
    }
  }

  lemma TallyPopulate(c: Config, o: seq<byte>, s: Job, i: nat, e: Env)
    requires Inv(c, o, s) && i < |s.slots| && s.slots[i].phase == Idle && NoSeek(s)
    requires Fits(c, s, s.slots[i].length) && Tallied(s, 0)
    ensures Tallied(Populate(c, s, i, e), 0)
  {
    hide RoundUp, Data, QueueOk, Counted, Claimed, Fits;
    CutKeeps(c, o, s, i);
    PopulateCut(c, s, i, e);
    var length := Min(s.slots[i].length, c.End() - s.pos);
    var t := s.(slots := s.slots[i := s.slots[i].(offset := s.pos, length := length)]);
    TallySlot(s, t, i, t.slots[i], 0, 0);
    if length != 0 && s.Clean() { TallyClaimed(c, o, t, i, e); }
  }

  lemma TallyPhase(s: Job, t: Job, i: nat)
    requires i < |s.slots| == |t.slots| && t.slots == s.slots[i := t.slots[i]] && t.fate == s.fate && Tallied(s, 0)
    requires t.totalBytes + t.incrementalBytes == s.totalBytes + s.incrementalBytes
    requires s.slots[i].phase != Writing && t.slots[i].phase != Writing
    ensures Tallied(t, 0)
  {
    TallySlot(s, t, i, t.slots[i], 0, 0);
  }

  lemma TallyDataFound(c: Config, o: seq<byte>, t: Job, i: nat, e: Env)
    requires Inv(c, o, t) && i < |t.slots| && t.slots[i].phase == Idle && NoSeek(t) && c.sparse && Tallied(t, 0)
    requires t.pos < |c.isData| && c.isData[t.pos]
    ensures var h := NextHole(c.isData, t.pos);
            Tallied(Populate(c, WithLength(t, i, ChunkLength(c, t.pos, h)), i, e), 0)
  {
    var h := NextHole(c.isData, t.pos);
    var u := WithLength(t, i, ChunkLength(c, t.pos, h));
    HoleFits(c, t, h);
    DdPrimitives.ResizeKeeps(c, o, t, i, t.slots[i].offset, ChunkLength(c, t.pos, h));
    TallyPhase(t, u, i);
    TallyPopulate(c, o, u, i, e);
  }

  lemma TallySeekFile(c: Config, o: seq<byte>, s: Job, i: nat, e: Env)
    requires Inv(c, o, s) && i < |s.slots| && s.slots[i].phase == Idle && NoSeek(s) && c.sparse && c.copySize > 0
    requires Tallied(s, 0)
    ensures Tallied(SeekFile(c, s, i, e), 0)
  {
    var d := NextData(c.isData, s.pos);
    if e.seekDataErr == 0 && d < |c.isData| {
      TallySkip(s, d);
      DdPrimitives.SkipKeeps(c, o, s, d);
      if e.seekHoleErr == 0 { TallyDataFound(c, o, Skip(s, d), i, e); }
    }
  }

  lemma TallySeekBdev(c: Config, s: Job, i: nat, e: Env)
    requires c.inBlock > 0 && i < |s.slots| && s.slots[i].phase == Idle && Tallied(s, 0)
    ensures Tallied(SeekBdev(c, s, i, e), 0)
  {
    TallyPhase(s, SeekBdev(c, s, i, e), i);
  }

  lemma TallySeek(c: Config, o: seq<byte>, s: Job, i: nat, e: Env)
    requires Inv(c, o, s) && i < |s.slots| && s.slots[i].phase == Idle && Tallied(s, 0)
    ensures Tallied(Seek(c, s, i, e), 0)
  {
    if !c.sparse {
      NoQueueNoSeek(c, s);
      assert SlotOk(c, s, s.slots[i]);
      TallyPopulate(c, o, s, i, e);
    } else if Sub64(c.copySize, Sub64(s.pos, c.readStart)) == 0 || !s.Clean() {
    } else if c.inKind == File {
      NoQueueNoSeek(c, s);
      TallySeekFile(c, o, s, i, e);
    } else {
      TallySeekBdev(c, s, i, e);
    }
  }

  // ------------------------------------------------------------------ events

  lemma TallyLand(s: Job, i: nat, error: int)
    requires i < |s.slots| && Tallied(s, 0)
    ensures Tallied(Land(s.(error := error), i), WriteWeight(s.slots[i]))
  {
    var t := Land(s.(error := error), i);
    TallySlot(s, t, i, t.slots[i], 0, WriteWeight(s.slots[i]));
  }

  lemma TallyComplete(c: Config, o: seq<byte>, s: Job, i: nat, res: int, e: Env)
    requires Inv(c, o, s) && i < |s.slots| && s.slots[i].Transferring() && Tallied(s, 0)
    ensures Tallied(Complete(c, s, i, res, e), 0)
  {
    var sl := s.slots[i];
    var error := ErrorAfter(c, s.error, sl, res);
    var t := Land(s.(error := error), i);
    TallyLand(s, i, error);
    LandedKeeps(c, o, s, i, res);
    if sl.phase == Populating {
      TallyRead(c, t, i, e);
    } else if sl.phase == Reading {
      TallyWrite(c, t, i, e);
    } else {
      TallyWritten(c, o, s, i, res, e);
    }
  }

  lemma TallyWritten(c: Config, o: seq<byte>, s: Job, i: nat, res: int, e: Env)
    requires Inv(c, o, s) && i < |s.slots| && s.slots[i].phase == Writing && Tallied(s, 0)
    ensures Tallied(Complete(c, s, i, res, e), 0)
  {
    var sl := s.slots[i];
    var error := ErrorAfter(c, s.error, sl, res);
    var t := Land(s.(error := error), i);
    var f := if sl.served == sl.size then Written else Lost;
    TallyLand(s, i, error);
    WrittenDropKeeps(c, o, s, i, res);
    LandedKeeps(c, o, s, i, res);
    TallyDrop(c, t, i, f, sl.length);
    TallySeek(c, o, Drop(t, i, f), i, e);
  }

  lemma TallyDataSought(c: Config, s: Job, i: nat, found: bool, p: nat, e: Env)
    requires c.inBlock > 0 && i < |s.slots| && s.slots[i].phase == SeekingData && Tallied(s, 0)
    ensures Tallied(DataSought(c, s, i, found, p, e), 0)
  {
    var t := LandSeek(s, i);
    TallyPhase(s, t, i);
    if found {
      TallySkip(t, p);
      TallyHoleSeek(c, Skip(t, p), i, e);
    } else {
      TallyPhase(t, Dequeue(t, i), i);
    }
  }

  lemma TallySeekDataDone(c: Config, s: Job, i: nat, e: Env)
    requires c.inBlock > 0 && i < |s.slots| && s.slots[i].phase == SeekingData && Tallied(s, 0)
    ensures Tallied(SeekDataDone(c, s, i, e), 0)
  {
    if !s.Clean() {
      TallyPhase(s, Dequeue(s, i), i);
    } else {
      var d := NextData(c.isData, s.slots[i].at * c.inBlock);
      TallyDataSought(c, s, i, d < |c.isData|, RoundDown(d, c.inBlock), e);
    }
  }

  lemma TallyHoleSeek(c: Config, t: Job, i: nat, e: Env)
    requires c.inBlock > 0 && i < |t.slots| && t.slots[i].phase == Queued && Tallied(t, 0)
    ensures var u := LaunchSeek(c, t, i, SeekingHole);
            Tallied(u, 0) && Tallied(Fail(Dequeue(LandSeek(u, i), i), e.submitRc), 0)
  {
    var u := LaunchSeek(c, t, i, SeekingHole);
    TallyPhase(t, u, i);
    TallyPhase(u, Dequeue(LandSeek(u, i), i), i);
  }

  lemma TallyNextSeek(c: Config, s: Job, e: Env)
    requires c.inBlock > 0
    requires forall k :: 0 <= k < |s.queue| ==> s.queue[k] < |s.slots| && s.slots[s.queue[k]].phase != Writing
    requires Tallied(s, 0)
    ensures Tallied(NextSeek(c, s, e), 0)
  {
    if s.queue != [] && s.pos < c.inTotal { TallyPhase(s, NextSeek(c, s, e), s.queue[0]); }
  }

  lemma TallySeekHoleDone(c: Config, o: seq<byte>, s: Job, i: nat, e: Env)
    requires Inv(c, o, s) && i < |s.slots| && s.slots[i].phase == SeekingHole && Tallied(s, 0)
    ensures Tallied(SeekHoleDone(c, s, i, e), 0)
  {
    hide Own, Data, Counted, Populate, NextSeek, HoleLength, Fits;
    TallyPhase(s, Dequeue(s, i), i);
    if s.Clean() {
      HoleDone(c, o, s, i);
      TallyPhase(s, Dequeue(LandSeek(s, i), i), i);
      TallyHoleFound(c, o, Dequeue(LandSeek(s, i), i), i, HoleLength(c, s, i), e);
    }
  }

  lemma TallyHoleFound(c: Config, o: seq<byte>, s: Job, i: nat, length: nat, e: Env)
    requires Inv(c, o, s) && i < |s.slots| && s.slots[i].phase == Idle && NoSeek(s) && Fits(c, s, length) && c.sparse
    requires Tallied(s, 0)
    ensures var p := Populate(c, WithLength(s, i, length), i, e); Inv(c, o, p) && Tallied(NextSeek(c, p, e), 0)
  {
    var t := WithLength(s, i, length);
    TallyPhase(s, t, i);
    DdPrimitives.ResizeKeeps(c, o, s, i, s.slots[i].offset, length);
    TallyPopulate(c, o, t, i, e);
    HoleFoundKeeps(c, o, s, i, length, e);
    QueuedNotWriting(c, Populate(c, t, i, e));
    TallyNextSeek(c, Populate(c, t, i, e), e);
  }

  lemma QueuedNotWriting(c: Config, s: Job)
    requires WellFormed(c) && QueueOk(c, s)
    ensures forall k :: 0 <= k < |s.queue| ==> s.queue[k] < |s.slots| && s.slots[s.queue[k]].phase != Writing
  {
    forall k | 0 <= k < |s.queue| ensures s.queue[k] < |s.slots| && s.slots[s.queue[k]].phase != Writing {
      assert Waiting(s.slots[s.queue[k]]);
    }
  }

  lemma TallyStep(c: Config, o: seq<byte>, s: Job, v: Event)
    requires Inv(c, o, s) && Enabled(c, s, v) && Tallied(s, 0)
    ensures Tallied(Step(c, s, v), 0)
  {
    match v {
      case Move(i, n) => TallySlot(s, Step(c, s, v), i, Step(c, s, v).slots[i], 0, 0);
      case Done(i, res, e) => TallyComplete(c, o, s, i, res, e);
      case SeekDone(i, e) =>
        if s.slots[i].phase == SeekingData { TallySeekDataDone(c, s, i, e); } else { TallySeekHoleDone(c, o, s, i, e); }
      case Interrupt =>
      case Status =>
    }
  }

  lemma {:induction false} TallyStart(c: Config, o: seq<byte>, s: Job, k: nat, envs: seq<Env>)
    requires Inv(c, o, s) && k <= |envs| && |envs| <= |s.slots| && Tallied(s, 0)
    requires forall j :: k <= j < |envs| ==> s.slots[j].phase == Idle
    ensures Tallied(StartFrom(c, s, k, envs), 0)
    decreases |envs| - k
  {
    if k < |envs| {
      StartOne(c, o, s, k, envs);
      TallySeek(c, o, s, k, envs[k]);
      TallyStart(c, o, Seek(c, s, k, envs[k]), k + 1, envs);
    }
  }

  lemma {:induction false} TallyExecute(c: Config, o: seq<byte>, s: Job, events: seq<Event>)
    requires Inv(c, o, s) && Possible(c, s, events) && Tallied(s, 0)
    ensures Tallied(Execute(c, s, events), 0)
    decreases |events|
  {
    if events != [] {
      StepKeeps(c, o, s, events[0]);
      TallyStep(c, o, s, events[0]);
      TallyExecute(c, o, Step(c, s, events[0]), events[1..]);
    }
  }

  /**
   * Conservation: however the status poller interleaves, the two counters together are the bytes whose
   * write was issued; after a clean dense exit that is the copy size.
   */
  lemma ProgressConserved(c: Config, o: seq<byte>, h: History)
    requires Legal(c, o, h)
    ensures var s := Final(c, o, h); s.totalBytes + s.incrementalBytes == IssuedBytes(s)
    ensures var s := Final(c, o, h); CleanExit(s) ==>
              && s.totalBytes + s.incrementalBytes <= c.copySize
              && (!c.sparse ==> s.totalBytes + s.incrementalBytes == c.copySize)
  {
    var init := Initial(c, o, h.bufs, h.interrupted);
    DdPrimitives.InitialInv(c, o, h.bufs, h.interrupted);
    TotalZero(init.slots, WriteWeight);
    TallyStart(c, o, init, 0, h.envs);
    StartedInv(c, o, h);
    TallyExecute(c, o, Started(c, o, h), h.events);
    if CleanExit(Final(c, o, h)) {
      AlwaysInv(c, o, h);
      AlwaysControl(c, o, h);
      CleanTotals(c, o, Final(c, o, h));
    }
  }

  lemma CleanTotals(c: Config, o: seq<byte>, s: Job)
    requires Inv(c, o, s) && Control(c, s) && CleanExit(s)
    ensures IssuedBytes(s) <= c.copySize && (!c.sparse ==> IssuedBytes(s) == c.copySize)
  {
    AllSettled(c, o, s);
    SettledAtMost(s.fate);
    forall i | 0 <= i < |s.slots| ensures WriteWeight(s.slots[i]) == 0 {
      TotalAtLeast(s.slots, i, IoWeight);
    }
    TotalZero(s.slots, WriteWeight);
    if !c.sparse {
      forall k | 0 <= k < |s.fate| ensures s.fate[k] == Written {
        assert FateOk(c, o, s.out, s.fate[k], k);
      }
    }
  }

  // ------------------------------------------------------------------ what is shown

  /** From `s` to `t` the shown total moves only at an exit, and a clean exit leaves no byte unshown. */
  ghost predicate Shows(s: Job, t: Job) {
    && (t.exits == s.exits ==> t.totalBytes == s.totalBytes)
    && (t.exits != s.exits && t.Clean() ==> t.incrementalBytes == 0)
  }

  lemma PopulateShows(c: Config, s: Job, i: nat, e: Env)
    requires c.outBlock > 0 && i < |s.slots|
    ensures Shows(s, Populate(c, s, i, e)) && |Populate(c, s, i, e).exits| >= |s.exits|
  {
    hide RoundUp;
  }

  lemma SeekShows(c: Config, s: Job, i: nat, e: Env)
    requires c.outBlock > 0 && c.inBlock > 0 && i < |s.slots|
    ensures Shows(s, Seek(c, s, i, e))
  {
    hide Populate;
    if !c.sparse {
      PopulateShows(c, s, i, e);
    } else if c.inKind == File {
      var t := Skip(s, NextData(c.isData, s.pos));
      PopulateShows(c, WithLength(t, i, ChunkLength(c, t.pos, NextHole(c.isData, t.pos))), i, e);
    }
  }

  lemma CompleteShows(c: Config, s: Job, i: nat, res: int, e: Env)
    requires c.outBlock > 0 && c.inBlock > 0 && i < |s.slots|
    ensures Shows(s, Complete(c, s, i, res, e))
  {
    hide RoundUp, Seek;
    var sl := s.slots[i];
    var t := Drop(Land(s.(error := ErrorAfter(c, s.error, sl, res)), i), i,
        if sl.served == sl.size then Written else Lost);
    SeekShows(c, t, i, e);
  }

  lemma SeekHoleDoneShows(c: Config, s: Job, i: nat, e: Env)
    requires c.outBlock > 0 && c.inBlock > 0 && i < |s.slots|
    requires forall k :: 0 <= k < |s.queue| ==> s.queue[k] < |s.slots|
    ensures Shows(s, SeekHoleDone(c, s, i, e))
  {
    hide Populate, HoleLength;
    if s.Clean() {
      PopulateShows(c, WithLength(Dequeue(LandSeek(s, i), i), i, HoleLength(c, s, i)), i, e);
    }
  }

  lemma StepShows(c: Config, s: Job, v: Event)
    requires c.outBlock > 0 && c.inBlock > 0 && Enabled(c, s, v) && v != Status
    ensures Shows(s, Step(c, s, v))
  {
    match v {
      case Done(i, res, e) => CompleteShows(c, s, i, res, e);
      case SeekDone(i, e) => if s.slots[i].phase == SeekingHole { SeekHoleDoneShows(c, s, i, e); }
      case _ =>
    }
  }

  /** A run that is over and clean has shown every byte. */
  ghost predicate AllShown(s: Job) {
    s.exits != [] && s.Clean() ==> s.incrementalBytes == 0
  }

  /** Once a run is cleanly over, no I/O is left whose completion could count more bytes. */
  lemma StepAllShown(c: Config, o: seq<byte>, s: Job, v: Event)
    requires Inv(c, o, s) && Control(c, s) && AllShown(s) && Enabled(c, s, v)
    ensures AllShown(Step(c, s, v))
  {
    hide Own, Data, QueueOk, Complete, SeekDataDone, SeekHoleDone;
    if Step(c, s, v).Clean() && v != Status {
      StepSticky(c, s, v);
      StepShows(c, s, v);
      if s.exits != [] && (v.Done? || v.SeekDone?) {
        InFlightCounted(c, s, v.i);
        assert false;
      }
    }
  }

  lemma {:induction false} StartAllShown(c: Config, o: seq<byte>, s: Job, k: nat, envs: seq<Env>)
    requires Inv(c, o, s) && Begun(c, s, k) && AllShown(s) && k <= |envs| && |envs| <= |s.slots|
    requires forall j :: k <= j < |envs| ==> s.slots[j].phase == Idle
    ensures AllShown(StartFrom(c, s, k, envs))
    decreases |envs| - k
  {
    hide Seek, Own, Data, QueueOk, Counted;
    if k < |envs| {
      SeekShows(c, s, k, envs[k]);
      StartOne(c, o, s, k, envs);
      BeginNext(c, o, s, k, envs[k]);
      StartAllShown(c, o, Seek(c, s, k, envs[k]), k + 1, envs);
    }
  }

  lemma {:induction false} ExecuteAllShown(c: Config, o: seq<byte>, s: Job, events: seq<Event>)
    requires Inv(c, o, s) && Control(c, s) && AllShown(s) && Possible(c, s, events)
    ensures AllShown(Execute(c, s, events))
    decreases |events|
  {
    hide Own, Data, QueueOk, Counted, Control, AllShown, Step;
    if events != [] {
      StepKeeps(c, o, s, events[0]);
      StepControl(c, o, s, events[0]);
      StepAllShown(c, o, s, events[0]);
      ExecuteAllShown(c, o, Step(c, s, events[0]), events[1..]);
    }
  }

  lemma {:induction false} AppendEvent(c: Config, s: Job, events: seq<Event>, v: Event)
    requires c.outBlock > 0 && c.inBlock > 0 && Possible(c, s, events + [v])
    ensures Possible(c, s, events) && Enabled(c, Execute(c, s, events), v)
    ensures Execute(c, s, events + [v]) == Step(c, Execute(c, s, events), v)
    decreases |events|
  {
    if events == [] {
      assert [v][1..] == [] && events + [v] == [v];
    } else {
      assert (events + [v])[1..] == events[1..] + [v];
      AppendEvent(c, Step(c, s, events[0]), events[1..], v);
    }
  }

  /** The history without its last event. */
  function Before(h: History): History
    requires h.events != []
  {
    h.(events := h.events[..|h.events| - 1])
  }

  /**
   * What the user is told: whenever the status poller has just run, and at every clean exit, the shown total is
   * the number of bytes whose write was issued and nothing waits to be shown; a clean dense exit has shown the copy
   * size. An event other than the poller that does not exit leaves the shown total as it was.
   */
  lemma ProgressShown(c: Config, o: seq<byte>, h: History)
    requires Legal(c, o, h)
    ensures var s := Final(c, o, h);
            CleanExit(s) || (h.events != [] && h.events[|h.events| - 1] == Status) ==>
              s.incrementalBytes == 0 && s.totalBytes == IssuedBytes(s)
    ensures CleanExit(Final(c, o, h)) && !c.sparse ==> Final(c, o, h).totalBytes == c.copySize
    ensures h.events != [] && h.events[|h.events| - 1] != Status ==>
              && Legal(c, o, Before(h))
              && (Final(c, o, h).exits == Final(c, o, Before(h)).exits ==>
                    Final(c, o, h).totalBytes == Final(c, o, Before(h)).totalBytes)
  {
    hide Inv, Control, Possible, Execute, StartFrom, Begun, IssuedBytes;
    ProgressConserved(c, o, h);
    var init := Initial(c, o, h.bufs, h.interrupted);
    DdPrimitives.InitialInv(c, o, h.bufs, h.interrupted);
    InitialBegun(c, o, h);
    StartAllShown(c, o, init, 0, h.envs);
    StartedInv(c, o, h);
    StartedBegun(c, o, h);
    ExecuteAllShown(c, o, Started(c, o, h), h.events);
    if h.events != [] {
      var n := |h.events| - 1;
      var s := Started(c, o, h);
      assert h.events == h.events[..n] + [h.events[n]];
      AppendEvent(c, s, h.events[..n], h.events[n]);
      if h.events[n] != Status { StepShows(c, Execute(c, s, h.events[..n]), h.events[n]); }
    }
  }
}
