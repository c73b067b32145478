/**
 * What the unaligned tail of a dense copy needs. The tail is populated with whole blocks of the output, which
 * must already be there; and the libaio poller compares the result of every request with the chunk length,
 * also for the rounded requests of the tail. Every other undisturbed dense copy ends cleanly.
 */
module DdTail {
  import opened Bytes
  import opened DdSpec
  import opened DdInvariant
  import opened DdPrimitives
  import opened DdCalls
  import opened DdRuns
  import opened DdExit
  import opened DdTheorems
  import DdSafety

  /** The whole blocks of the write region are in the output before the copy. */
  ghost predicate Room(c: Config, o: seq<byte>)
    requires c.outBlock > 0
  {
    c.writeStart + RoundUp(c.copySize, c.outBlock) <= |o|
  }

  /** The tail cannot be populated, or libaio would misread its result. */
  ghost predicate BadTail(c: Config, o: seq<byte>) {
    && WellFormed(c) && !c.sparse && c.copySize % c.outBlock != 0
    && ((c.engine == Aio && c.outKind == File) || !Room(c, o))
  }

  /** A populate that moved all its bytes found the whole blocks of the write region in the original output. */
  lemma PopulatedHasRoom(c: Config, o: seq<byte>, s: Job, sl: Slot)
    requires WellFormed(c) && SlotOk(c, s, sl) && BufOk(c, o, s.out, sl) && OutOk(c, o, s.out) && s.pos <= c.End()
    requires sl.phase == Populating && sl.served == sl.size && RoundUp(sl.length, c.outBlock) != sl.length
    ensures Room(c, o)
  {
    hide RoundUp;
    RoundUpAfterBlocks(sl.offset - c.readStart, sl.length, c.outBlock);
  }

  /** While the run is clean, the tail chunk does not get past its populate. */
  ghost predicate Stuck(c: Config, s: Job)
    requires c.outBlock > 0
  {
    s.Clean() ==>
      && (forall i :: 0 <= i < |s.slots| && (s.slots[i].phase == Reading || s.slots[i].phase == Writing) ==>
            RoundUp(s.slots[i].length, c.outBlock) == s.slots[i].length)
      && (|s.fate| == c.copySize > 0 ==> s.fate[c.copySize - 1] != Written)
  }

  lemma ReadStuck(c: Config, s: Job, i: nat, e: Env)
    requires c.outBlock > 0 && i < |s.slots| && Stuck(c, s)
    requires s.Clean() ==> RoundUp(s.slots[i].length, c.outBlock) == s.slots[i].length
    ensures Stuck(c, Read(c, s, i, e))
  {
    hide RoundUp;
  }

  lemma WriteStuck(c: Config, s: Job, i: nat, e: Env)
    requires c.outBlock > 0 && i < |s.slots| && Stuck(c, s)
    requires s.Clean() ==> RoundUp(s.slots[i].length, c.outBlock) == s.slots[i].length
    ensures Stuck(c, Write(c, s, i, e))
  {
    hide RoundUp;
  }

  lemma ClaimedStuck(c: Config, t: Job, i: nat, e: Env)
    requires WellFormed(c) && i < |t.slots| && Stuck(c, t) && 0 < t.slots[i].length <= c.unit
    ensures Stuck(c, Claimed(c, t, i, e))
  {
    hide RoundUp, Read;
    var u := Claim(t, i);
    assert u.fate[|u.fate| - 1] == InFlight(i);
    RoundUpBounds(t.slots[i].length, c.outBlock, c.unit);
    if t.slots[i].length % c.outBlock == 0 { ReadStuck(c, u, i, e); }
  }

  lemma SeekStuck(c: Config, s: Job, i: nat, e: Env)
    requires WellFormed(c) && !c.sparse && i < |s.slots| && Stuck(c, s) && s.slots[i].phase == Idle
    requires c.readStart <= s.pos <= c.End() && s.slots[i].length <= c.unit
    ensures Stuck(c, Seek(c, s, i, e))
  {
    hide RoundUp, Claimed, Populate;
    PopulateCut(c, s, i, e);
    var length := Min(s.slots[i].length, c.End() - s.pos);
    var t := s.(slots := s.slots[i := s.slots[i].(offset := s.pos, length := length)]);
    if length != 0 && s.Clean() { ClaimedStuck(c, t, i, e); }
  }

  /** A whole-block chunk does not contain the last byte of an unaligned copy. */
  lemma WholeChunkEndsEarly(c: Config, s: Job, sl: Slot)
    requires WellFormed(c) && c.copySize % c.outBlock != 0 && SlotOk(c, s, sl) && sl.Owns() && s.pos <= c.End()
    requires RoundUp(sl.length, c.outBlock) == sl.length
    ensures sl.offset + sl.length < c.End()
  {
    var skip := sl.offset - c.readStart;
    RoundUpBounds(sl.length, c.outBlock, DdSafety.RoundUpWitness(sl.length, c.outBlock));
    RoundUpBounds(skip, c.outBlock, DdSafety.RoundUpWitness(skip, c.outBlock));
    ModOfSum(skip, sl.length, c.outBlock);
  }

  lemma DropStuck(c: Config, s: Job, i: nat, f: Fate)
    requires WellFormed(c) && c.copySize % c.outBlock != 0 && Own(c, s) && i < |s.slots| && s.slots[i].Owns()
    requires Stuck(c, s)
    requires s.Clean() ==> RoundUp(s.slots[i].length, c.outBlock) == s.slots[i].length
    ensures Stuck(c, Drop(s, i, f))
  {
    hide RoundUp;
    assert SlotOk(c, s, s.slots[i]);
    if s.Clean() { WholeChunkEndsEarly(c, s, s.slots[i]); }
  }

  lemma CompleteStuck(c: Config, o: seq<byte>, s: Job, i: nat, res: int, e: Env)
    requires BadTail(c, o) && Inv(c, o, s) && Stuck(c, s) && i < |s.slots| && s.slots[i].Transferring()
    requires (res < 0 || res == s.slots[i].served) && !Silent(c, s, i, res)
    requires s.slots[i].phase == Populating ==> RoundUp(s.slots[i].length, c.outBlock) != s.slots[i].length
    ensures Stuck(c, Complete(c, s, i, res, e))
  {
    hide RoundUp, Read, Write, Seek, QueueOk, Counted;
    var sl := s.slots[i];
    var t := Land(s.(error := ErrorAfter(c, s.error, sl, res)), i);
    LandedKeeps(c, o, s, i, res);
    assert SlotOk(c, s, sl) && BufOk(c, o, s.out, sl);
    if sl.phase == Populating {
      if t.Clean() {
        ServedWhenClean(c, s, i, res);
        PopulatedHasRoom(c, o, s, sl);
      }
      ReadStuck(c, t, i, e);
    } else if sl.phase == Reading {
      WriteStuck(c, t, i, e);
    } else {
      var f := if sl.served == sl.size then Written else Lost;
      DropStuck(c, t, i, f);
      SeekStuck(c, Drop(t, i, f), i, e);
    }
  }

  // ------------------------------------------------------------------ only tails are populated

  ghost predicate OnlyTails(c: Config, s: Job)
    requires c.outBlock > 0
  {
    forall i :: 0 <= i < |s.slots| && s.slots[i].phase == Populating ==>
      RoundUp(s.slots[i].length, c.outBlock) != s.slots[i].length
  }

  ghost predicate OnlyTailsBut(c: Config, s: Job, i: nat)
    requires c.outBlock > 0
  {
    forall j :: 0 <= j < |s.slots| && j != i && s.slots[j].phase == Populating ==>
      RoundUp(s.slots[j].length, c.outBlock) != s.slots[j].length
  }

  lemma ReadTails(c: Config, s: Job, i: nat, e: Env)
    requires c.outBlock > 0 && i < |s.slots| && OnlyTailsBut(c, s, i)
    ensures OnlyTails(c, Read(c, s, i, e))
  {
    hide RoundUp;
  }

  lemma WriteTails(c: Config, s: Job, i: nat, e: Env)
    requires c.outBlock > 0 && i < |s.slots| && OnlyTailsBut(c, s, i)
    ensures OnlyTails(c, Write(c, s, i, e))
  {
    hide RoundUp;
  }

  lemma ServeTails(c: Config, s: Job, i: nat, n: nat)
    requires c.outBlock > 0 && OnlyTails(c, s) && i < |s.slots| && CanServe(c, s, i, n)
    ensures OnlyTails(c, Serve(c, s, i, n))
  {
    hide RoundUp;
  }

  lemma PopulateTails(c: Config, s: Job, i: nat, e: Env)
    requires WellFormed(c) && i < |s.slots| && s.slots[i].phase == Idle && OnlyTails(c, s)
    requires c.readStart <= s.pos <= c.End() && s.slots[i].length <= c.unit
    ensures OnlyTails(c, Populate(c, s, i, e))
  {
    hide RoundUp, Read, Populate;
    PopulateCut(c, s, i, e);
    var length := Min(s.slots[i].length, c.End() - s.pos);
    var t := s.(slots := s.slots[i := s.slots[i].(offset := s.pos, length := length)]);
    RoundUpBounds(length, c.outBlock, c.unit);
    ReadTails(c, Claim(t, i), i, e);
  }

  lemma SeekTails(c: Config, s: Job, i: nat, e: Env)
    requires WellFormed(c) && !c.SparseBdev() && i < |s.slots| && s.slots[i].phase == Idle && OnlyTails(c, s)
    requires c.readStart <= s.pos <= c.End() && s.slots[i].length <= c.unit
    ensures OnlyTails(c, Seek(c, s, i, e))
  {
    hide RoundUp, Populate;
    if !c.sparse {
      PopulateTails(c, s, i, e);
    } else {
      var d := NextData(c.isData, s.pos);
      var t := WithLength(Skip(s, d), i, ChunkLength(c, d, NextHole(c.isData, d)));
      if d < |c.isData| { PopulateTails(c, t, i, e); }
    }
  }

  lemma CompleteTails(c: Config, o: seq<byte>, s: Job, i: nat, res: int, e: Env)
    requires Inv(c, o, s) && !c.SparseBdev() && OnlyTails(c, s) && i < |s.slots| && s.slots[i].Transferring()
    ensures OnlyTails(c, Complete(c, s, i, res, e))
  {
    hide RoundUp, Read, Write, Seek, Data, QueueOk, Counted;
    var sl := s.slots[i];
    var t := Land(s.(error := ErrorAfter(c, s.error, sl, res)), i);
    assert SlotOk(c, s, sl);
    if sl.phase == Populating {
      ReadTails(c, t, i, e);
    } else if sl.phase == Reading {
      WriteTails(c, t, i, e);
    } else {
      SeekTails(c, Drop(t, i, if sl.served == sl.size then Written else Lost), i, e);
    }
  }

  // ------------------------------------------------------------------ runs

  lemma StepStuck(c: Config, o: seq<byte>, s: Job, v: Event)
    requires BadTail(c, o) && Inv(c, o, s) && Stuck(c, s) && OnlyTails(c, s) && Enabled(c, s, v)
    requires !SilentEvent(c, s, v)
    ensures Stuck(c, Step(c, s, v)) && OnlyTails(c, Step(c, s, v))
  {
    hide RoundUp, Complete, Own, Data, Counted;
    match v {
      case Move(i, n) =>
      case Done(i, res, e) =>
        CompleteStuck(c, o, s, i, res, e);
        CompleteTails(c, o, s, i, res, e);
      case SeekDone(i, e) => SeekerIsHead(c, s, i);
      case Interrupt =>
      case Status =>
    }
  }

  lemma {:induction false} StartStuck(c: Config, o: seq<byte>, s: Job, k: nat, envs: seq<Env>)
    requires BadTail(c, o) && Inv(c, o, s) && Stuck(c, s) && OnlyTails(c, s) && k <= |envs| && |envs| <= |s.slots|
    requires forall j :: k <= j < |envs| ==> s.slots[j].phase == Idle
    ensures Stuck(c, StartFrom(c, s, k, envs)) && OnlyTails(c, StartFrom(c, s, k, envs))
    decreases |envs| - k
  {
    hide Seek, Data, QueueOk, Counted, RoundUp;
    if k < |envs| {
      assert SlotOk(c, s, s.slots[k]);
      SeekStuck(c, s, k, envs[k]);
      SeekTails(c, s, k, envs[k]);
      StartOne(c, o, s, k, envs);
      StartStuck(c, o, Seek(c, s, k, envs[k]), k + 1, envs);
    }
  }

  lemma {:induction false} ExecuteStuck(c: Config, o: seq<byte>, s: Job, events: seq<Event>)
    requires BadTail(c, o) && Inv(c, o, s) && Stuck(c, s) && OnlyTails(c, s) && Possible(c, s, events)
    ensures Stuck(c, Execute(c, s, events))
    decreases |events|
  {
    hide Step, Inv;
    if events != [] {
      StepKeeps(c, o, s, events[0]);
      StepStuck(c, o, s, events[0]);
      ExecuteStuck(c, o, Step(c, s, events[0]), events[1..]);
    }
  }

  lemma AlwaysStuck(c: Config, o: seq<byte>, h: History)
    requires Legal(c, o, h) && BadTail(c, o)
    ensures Stuck(c, Final(c, o, h))
  {
    hide RoundUp, Inv, StartFrom, Execute, Possible;
    var init := Initial(c, o, h.bufs, h.interrupted);
    InitialInv(c, o, h.bufs, h.interrupted);
    StartStuck(c, o, init, 0, h.envs);
    StartedInv(c, o, h);
    ExecuteStuck(c, o, Started(c, o, h), h.events);
  }

  /**
   * An unaligned dense copy never exits cleanly, as long as no transfer falls short unnoticed, when the output
   * does not already hold the last whole block, or when libaio writes to a file target.
   */
  lemma BadTailNeverClean(c: Config, o: seq<byte>, h: History)
    requires Legal(c, o, h) && BadTail(c, o)
    ensures !CleanExit(Final(c, o, h))
  {
    hide Inv, Control, Final;
    AlwaysStuck(c, o, h);
    AlwaysInv(c, o, h);
    AlwaysControl(c, o, h);
    MulDivMod(0, c.outBlock, 0);
    if CleanExit(Final(c, o, h)) { LastByteOut(c, o, Final(c, o, h)); }
  }

  lemma LastByteOut(c: Config, o: seq<byte>, s: Job)
    requires Inv(c, o, s) && Control(c, s) && CleanExit(s) && !c.sparse && c.copySize > 0
    ensures |s.fate| == c.copySize && s.fate[c.copySize - 1] == Written
  {
    hide RoundUp;
    AllSettled(c, o, s);
    assert FateOk(c, o, s.out, s.fate[c.copySize - 1], c.copySize - 1);
  }

  // ------------------------------------------------------------------ undisturbed runs

  /** Requests inside their devices, and no rounded request that libaio would misread. */
  ghost predicate Smooth(c: Config, o: seq<byte>) {
    && WellFormed(c) && !c.sparse
    && (c.inKind == Bdev ==> c.End() <= |c.input|)
    && (c.outKind == Bdev ==>
          c.writeStart % c.outBlock == 0 && |o| % c.outBlock == 0 && c.writeStart + c.copySize <= |o|)
    && (c.engine == Aio && c.outKind == File ==> c.copySize % c.outBlock == 0)
  }

  /** Nothing fails: every transfer is full, every submission accepted, nobody interrupts. */
  ghost predicate Undisturbed(c: Config, s: Job, events: seq<Event>)
    requires c.outBlock > 0 && c.inBlock > 0 && Possible(c, s, events)
    decreases |events|
  {
    events != [] ==>
      && events[0] != Interrupt
      && (events[0].Done? ==> events[0].env.submitRc == 0 && events[0].res == s.slots[events[0].i].size)
      && Undisturbed(c, Step(c, s, events[0]), events[1..])
  }

  lemma ChunkAccepted(c: Config, o: seq<byte>, out: seq<byte>, offset: nat, length: nat)
    requires Smooth(c, o) && (c.outKind == Bdev ==> |out| == |o|)
    requires c.readStart <= offset && offset + length <= c.End()
    requires RoundUp(offset - c.readStart, c.outBlock) == offset - c.readStart
    ensures SubmitRc(c, c.inKind, |c.input|, offset, length, 0) == 0
    ensures SubmitRc(c, c.outKind, |out|, Target(c, offset), RoundUp(length, c.outBlock), 0) == 0
  {
    hide RoundUp;
    NoWrap(c, offset);
    if c.outKind == Bdev { DdSafety.RoundedInside(c.writeStart, offset - c.readStart, length, |o|, c.outBlock); }
  }

  lemma RunningStaysClean(c: Config, o: seq<byte>, s: Job, i: nat, e: Env)
    requires Smooth(c, o) && (c.outKind == Bdev ==> |s.out| == |o|) && s.Clean() && e.submitRc == 0
    requires i < |s.slots| && SlotOk(c, s, s.slots[i]) && s.slots[i].Owns() && s.pos <= c.End()
    ensures Read(c, s, i, e).Clean() && Write(c, s, i, e).Clean()
  {
    hide RoundUp, Target;
    ChunkAccepted(c, o, s.out, s.slots[i].offset, s.slots[i].length);
  }

  lemma SeekStaysClean(c: Config, o: seq<byte>, s: Job, i: nat, e: Env)
    requires Smooth(c, o) && (c.outKind == Bdev ==> |s.out| == |o|) && s.Clean() && e.submitRc == 0
    requires i < |s.slots| && PosOk(c, s)
    ensures Seek(c, s, i, e).Clean()
  {
    hide RoundUp, Target;
    PopulateCut(c, s, i, e);
    var length := Min(s.slots[i].length, c.End() - s.pos);
    if length > 0 {
      RoundUpBounds(s.pos - c.readStart, c.outBlock, s.pos - c.readStart);
      ChunkAccepted(c, o, s.out, s.pos, length);
    }
  }

  /** When the copy is a whole number of blocks, so is every chunk. */
  lemma WholeChunk(c: Config, s: Job, sl: Slot)
    requires WellFormed(c) && c.copySize % c.outBlock == 0 && SlotOk(c, s, sl) && sl.Owns()
    ensures RoundUp(sl.length, c.outBlock) == sl.length
  {
    if sl.offset + sl.length == c.End() {
      var skip := sl.offset - c.readStart;
      RoundUpBounds(skip, c.outBlock, DdSafety.RoundUpWitness(skip, c.outBlock));
      ModOfSum(c.copySize, skip, c.outBlock);
      RoundUpBounds(sl.length, c.outBlock, sl.length);
    }
  }

  lemma CompleteStaysClean(c: Config, o: seq<byte>, s: Job, i: nat, e: Env)
    requires Smooth(c, o) && Inv(c, o, s) && s.Clean() && e.submitRc == 0 && i < |s.slots| && s.slots[i].Transferring()
    ensures Complete(c, s, i, s.slots[i].size, e).Clean()
  {
    hide RoundUp, Read, Write, Seek, QueueOk, Counted;
    var sl := s.slots[i];
    var t := Land(s.(error := ErrorAfter(c, s.error, sl, sl.size)), i);
    assert SlotOk(c, s, sl);
    if c.engine == Aio && c.outKind == File { WholeChunk(c, s, sl); }
    assert t.Clean();
    if sl.phase == Writing {
      SeekStaysClean(c, o, Drop(t, i, if sl.served == sl.size then Written else Lost), i, e);
    } else {
      RunningStaysClean(c, o, t, i, e);
    }
  }

  lemma {:induction false} ExecuteStaysClean(c: Config, o: seq<byte>, s: Job, events: seq<Event>)
    requires Smooth(c, o) && Inv(c, o, s) && s.Clean() && Possible(c, s, events) && Undisturbed(c, s, events)
    ensures Execute(c, s, events).Clean()
    decreases |events|
  {
    hide Complete, Own, Data, Counted;
    if events != [] {
      var v := events[0];
      StepKeeps(c, o, s, v);
      match v {
        case Done(i, res, e) => CompleteStaysClean(c, o, s, i, e);
        case SeekDone(i, e) => SeekerIsHead(c, s, i);
        case _ =>
      }
      ExecuteStaysClean(c, o, Step(c, s, v), events[1..]);
    }
  }

  lemma {:induction false} StartStaysClean(c: Config, o: seq<byte>, s: Job, k: nat, envs: seq<Env>)
    requires Smooth(c, o) && Inv(c, o, s) && s.Clean() && k <= |envs| && |envs| <= |s.slots|
    requires forall j :: k <= j < |envs| ==> s.slots[j].phase == Idle && envs[j].submitRc == 0
    ensures StartFrom(c, s, k, envs).Clean()
    decreases |envs| - k
  {
    hide Seek, QueueOk, Counted;
    if k < |envs| {
      SeekStaysClean(c, o, s, k, envs[k]);
      StartOne(c, o, s, k, envs);
      StartStaysClean(c, o, Seek(c, s, k, envs[k]), k + 1, envs);
    }
  }

  ghost predicate NothingFails(c: Config, o: seq<byte>, h: History) {
    && Legal(c, o, h) && !h.interrupted
    && (forall k :: 0 <= k < |h.envs| ==> h.envs[k].submitRc == 0)
    && Undisturbed(c, Started(c, o, h), h.events)
  }

  /** A dense run in which nothing fails reports no error. */
  lemma UndisturbedIsClean(c: Config, o: seq<byte>, h: History)
    requires NothingFails(c, o, h) && Smooth(c, o)
    ensures Final(c, o, h).Clean()
  {
    hide RoundUp, Inv, StartFrom, Execute, Possible;
    var init := Initial(c, o, h.bufs, h.interrupted);
    InitialInv(c, o, h.bufs, h.interrupted);
    StartStaysClean(c, o, init, 0, h.envs);
    StartedInv(c, o, h);
    ExecuteStaysClean(c, o, Started(c, o, h), h.events);
  }

  /**
   * The exact condition: with libaio and a file target, an undisturbed dense run that exits does so
   * cleanly if and only if the copy is a whole number of output blocks.
   */
  lemma AioCleanIffWholeBlocks(c: Config, o: seq<byte>, h: History)
    requires NothingFails(c, o, h) && !c.sparse && c.engine == Aio && c.outKind == File
    requires (c.inKind == Bdev ==> c.End() <= |c.input|)
    requires Final(c, o, h).exits != []
    ensures Final(c, o, h).Clean() <==> c.copySize % c.outBlock == 0
  {
    hide Final, Possible, Undisturbed;
    if c.copySize % c.outBlock == 0 { UndisturbedIsClean(c, o, h); } else { BadTailNeverClean(c, o, h); }
  }
}
