/** An undisturbed sparse copy of a file can always be brought to a clean exit. */
module DdSparseLiveness {
  import opened Bytes
  import opened DdSpec
  import opened DdInvariant
  import opened DdPrimitives
  import opened DdCalls
  import opened DdRuns
  import opened DdExit
  import opened DdTheorems
  import opened DdSafety
  import opened DdTermination
  import opened DdTail
  import opened DdLiveness
  import opened DdCalm
  import opened DdControl
  import opened DdBound
  import opened DdStall

  /**
   * The output holds what is written; a data tail finds its last whole block there and does not go through libaio to
   * a file.
   */
  ghost predicate Ready(c: Config, o: seq<byte>) {
    && WellFormed(c) && c.sparse && Holds(c, o)
    && (c.copySize > 0 && IsData(c, c.End() - 1) && c.copySize % c.outBlock != 0 ==>
          Room(c, o) && !(c.engine == Aio && c.outKind == File))
  }

  ghost predicate Moving(c: Config, o: seq<byte>, s: Job) {
    Inv(c, o, s) && s.Clean() && OnlyTails(c, s)
  }

  // ------------------------------------------------------------------ chunks

  /** What a chunk needs from the devices, whether it is whole blocks or the tail. */
  ghost predicate Fit(c: Config, o: seq<byte>, offset: nat, length: nat)
    requires c.outBlock > 0
  {
    && c.readStart <= offset && offset + length <= |c.input|
    && (RoundUp(length, c.outBlock) != length ==>
          Place(c, offset) + RoundUp(length, c.outBlock) <= |o| && !(c.engine == Aio && c.outKind == File))
    && (c.outKind == Bdev ==> Place(c, offset) + RoundUp(length, c.outBlock) <= |o|)
  }

  lemma ChunkFits(c: Config, o: seq<byte>, offset: nat, length: nat)
    requires Ready(c, o) && c.readStart <= offset && 0 < length && offset + length <= c.End()
    requires IsData(c, offset + length - 1)
    requires RoundUp(offset - c.readStart, c.outBlock) == offset - c.readStart
    requires RoundUp(length, c.outBlock) == length || offset + length == c.End()
    ensures Fit(c, o, offset, length)
  {
    hide RoundUp;
    var skip := offset - c.readStart;
    RoundUpAfterBlocks(skip, length, c.outBlock);
    if RoundUp(length, c.outBlock) != length {
      RoundUpBounds(c.copySize, c.outBlock, RoundUpWitness(c.copySize, c.outBlock));
    }
    if c.outKind == Bdev { RoundedInside(c.writeStart, skip, length, |o|, c.outBlock); }
  }

  lemma OwnedFits(c: Config, o: seq<byte>, s: Job, i: nat)
    requires Ready(c, o) && Inv(c, o, s) && i < |s.slots| && s.slots[i].Owns()
    ensures Fit(c, o, s.slots[i].offset, s.slots[i].length)
  {
    hide RoundUp, QueueOk, Counted, BufOk, OutOk, Frame;
    var sl := s.slots[i];
    assert SlotOk(c, s, sl);
    var k := sl.offset + sl.length - 1 - c.readStart;
    assert s.fate[k] == InFlight(i);
    assert FateOk(c, o, s.out, s.fate[k], k);
    ChunkFits(c, o, sl.offset, sl.length);
  }

  lemma FitAccepted(c: Config, o: seq<byte>, out: seq<byte>, offset: nat, length: nat)
    requires WellFormed(c) && Fit(c, o, offset, length) && |o| <= |out| && offset <= c.End()
    ensures SubmitRc(c, c.inKind, |c.input|, offset, length, 0) == 0
    ensures SubmitRc(c, c.outKind, |out|, Target(c, offset), RoundUp(length, c.outBlock), 0) == 0
  {
    hide RoundUp;
    NoWrap(c, offset);
  }

  // ------------------------------------------------------------------ the calls stay clean

  lemma RunningClean(c: Config, o: seq<byte>, s: Job, i: nat)
    requires Ready(c, o) && Inv(c, o, s) && s.Clean() && i < |s.slots| && s.slots[i].phase == Running
    ensures Read(c, s, i, OK).Clean() && Write(c, s, i, OK).Clean()
  {
    hide RoundUp, Target, Fit, QueueOk, Counted;
    assert SlotOk(c, s, s.slots[i]);
    OwnedFits(c, o, s, i);
    FitAccepted(c, o, s.out, s.slots[i].offset, s.slots[i].length);
  }

  lemma PopulateClean(c: Config, o: seq<byte>, s: Job, i: nat)
    requires Ready(c, o) && s.Clean() && i < |s.slots| && PosOk(c, s) && |o| <= |s.out| && s.slots[i].length <= c.unit
    requires s.pos < c.End() && s.slots[i].length > 0 && Fits(c, s, s.slots[i].length)
    ensures Populate(c, s, i, OK).Clean()
  {
    hide RoundUp, Target, Fit;
    PopulateCut(c, s, i, OK);
    var length := Min(s.slots[i].length, c.End() - s.pos);
    CutKeepsBlocks(c, s, s.slots[i].length);
    RoundUpBounds(s.pos - c.readStart, c.outBlock, s.pos - c.readStart);
    RoundUpBounds(length, c.outBlock, RoundUpWitness(length, c.outBlock));
    assert IsData(c, s.pos + length - 1);
    ChunkFits(c, o, s.pos, length);
    FitAccepted(c, o, s.out, s.pos, length);
  }

  /** A slot at a data byte takes its chunk without an error. */
  lemma DataMoves(c: Config, o: seq<byte>, t: Job, i: nat)
    requires Ready(c, o) && PosOk(c, t) && |o| <= |t.out| && t.Clean() && OnlyTails(c, t) && i < |t.slots|
    requires t.slots[i].phase == Idle
    requires t.pos < |c.isData| && c.isData[t.pos]
    ensures var p := Populate(c, WithLength(t, i, ChunkLength(c, t.pos, NextHole(c.isData, t.pos))), i, OK);
            p.Clean() && OnlyTails(c, p)
  {
    hide RoundUp, Populate;
    var h := NextHole(c.isData, t.pos);
    HoleFits(c, t, h);
    var u := WithLength(t, i, ChunkLength(c, t.pos, h));
    PopulateClean(c, o, u, i);
    PopulateTails(c, u, i, OK);
  }

  lemma SeekMoves(c: Config, o: seq<byte>, s: Job, i: nat)
    requires Ready(c, o) && Moving(c, o, s) && i < |s.slots| && s.slots[i].phase == Idle
    ensures Moving(c, o, Seek(c, s, i, OK))
  {
    hide RoundUp, QueueOk, Counted, Populate, BufOk, FateOk, Frame, SlotOk, Partition, PosOk, Ready;
    SeekKeeps(c, o, s, i, OK);
    ReadyMeans(c, o);
    PosBounds(c, s);
    NoWrap(c, s.pos);
    var d := NextData(c.isData, s.pos);
    if s.pos < c.End() && c.inKind == File && d < |c.isData| {
      SkipOwn(c, s, d);
      DataMoves(c, o, Skip(s, d), i);
    }
  }

  lemma ReadyMeans(c: Config, o: seq<byte>)
    requires Ready(c, o)
    ensures WellFormed(c) && c.sparse
  {}

  lemma PosBounds(c: Config, s: Job)
    requires WellFormed(c) && PosOk(c, s)
    ensures c.readStart <= s.pos <= c.End()
  {}

  // ------------------------------------------------------------------ completions

  /** The poller finds nothing wrong with a full transfer. */
  lemma NoError(c: Config, o: seq<byte>, s: Job, i: nat)
    requires Ready(c, o) && Inv(c, o, s) && s.Clean() && i < |s.slots| && s.slots[i].Transferring()
    ensures ErrorAfter(c, s.error, s.slots[i], s.slots[i].size) == 0
  {
    hide RoundUp, QueueOk, Counted, Data;
    assert SlotOk(c, s, s.slots[i]);
    OwnedFits(c, o, s, i);
  }

  lemma CompleteMoves(c: Config, o: seq<byte>, s: Job, i: nat)
    requires Ready(c, o) && Moving(c, o, s) && i < |s.slots| && s.slots[i].Transferring()
    requires s.slots[i].served == s.slots[i].size
    ensures Moving(c, o, Complete(c, s, i, s.slots[i].size, OK))
  {
    hide RoundUp, Read, Write, Seek, Own, Data, QueueOk, Counted;
    var sl := s.slots[i];
    var t := Land(s.(error := ErrorAfter(c, s.error, sl, sl.size)), i);
    NoError(c, o, s, i);
    LandedKeeps(c, o, s, i, sl.size);
    assert OnlyTailsBut(c, t, i);
    StepKeeps(c, o, s, Done(i, sl.size, OK));
    if sl.phase == Populating {
      RunningClean(c, o, t, i);
      ReadTails(c, t, i, OK);
    } else if sl.phase == Reading {
      RunningClean(c, o, t, i);
      WriteTails(c, t, i, OK);
    } else {
      WrittenDropKeeps(c, o, s, i, sl.size);
      SeekMoves(c, o, Drop(t, i, Written), i);
    }
  }

  lemma GentleMoves(c: Config, o: seq<byte>, s: Job, v: Event)
    requires Ready(c, o) && Moving(c, o, s) && Enabled(c, s, v) && !SilentEvent(c, s, v) && Gentle(s, v)
    ensures Moving(c, o, Step(c, s, v))
  {
    hide RoundUp, Own, Data, Counted, Complete, Serve;
    StepKeeps(c, o, s, v);
    match v {
      case Move(i, n) => ServeTails(c, s, i, n); MoveClean(c, s, i, n);
      case Done(i, res, e) => FullWhenHeard(c, o, s, i); CompleteMoves(c, o, s, i);
      case SeekDone(i, e) =>
        if s.slots[i].phase == SeekingData { SeekDataMoves(c, o, s, i); } else { SeekHoleMoves(c, o, s, i); }
      case _ =>
    }
  }

  lemma SeekDataMoves(c: Config, o: seq<byte>, s: Job, i: nat)
    requires Moving(c, o, s) && i < |s.slots| && s.slots[i].phase == SeekingData
    ensures SeekDataDone(c, s, i, OK).Clean() && OnlyTails(c, SeekDataDone(c, s, i, OK))
  {
    hide RoundUp, RoundDown, Own, Data, QueueOk, Counted;
  }

  lemma NextSeekMoves(c: Config, s: Job)
    requires c.inBlock > 0 && c.outBlock > 0 && forall k :: 0 <= k < |s.queue| ==> s.queue[k] < |s.slots|
    requires s.Clean() && OnlyTails(c, s)
    ensures NextSeek(c, s, OK).Clean() && OnlyTails(c, NextSeek(c, s, OK))
  {
    hide RoundUp;
  }

  lemma SeekHoleMoves(c: Config, o: seq<byte>, s: Job, i: nat)
    requires Ready(c, o) && Moving(c, o, s) && i < |s.slots| && s.slots[i].phase == SeekingHole
    ensures (forall k :: 0 <= k < |s.queue| ==> s.queue[k] < |s.slots|)
    ensures SeekHoleDone(c, s, i, OK).Clean() && OnlyTails(c, SeekHoleDone(c, s, i, OK))
  {
    hide RoundUp, Counted, Populate, NextSeek, HoleLength, BufOk, FateOk, Frame, Partition, SlotOk;
    SeekerIsHead(c, s, i);
    HoleDone(c, o, s, i);
    HoleLengthPositive(c, s, i);
    var t := WithLength(Dequeue(LandSeek(s, i), i), i, HoleLength(c, s, i));
    PopulateClean(c, o, t, i);
    PopulateTails(c, t, i, OK);
    PopulateNoSeek(c, t, i, OK);
    NextSeekMoves(c, Populate(c, t, i, OK));
  }

  lemma MoveClean(c: Config, s: Job, i: nat, n: nat)
    requires i < |s.slots| && CanServe(c, s, i, n)
    ensures Serve(c, s, i, n).Clean() == s.Clean()
  {}

  lemma FullWhenHeard(c: Config, o: seq<byte>, s: Job, i: nat)
    requires i < |s.slots| && Enabled(c, s, Done(i, s.slots[i].size, OK))
    ensures s.slots[i].served == s.slots[i].size
  {}

  // ------------------------------------------------------------------ finishing

  lemma FullService(c: Config, o: seq<byte>, s: Job, i: nat)
    requires Ready(c, o) && Moving(c, o, s) && i < |s.slots| && s.slots[i].Transferring()
    ensures s.slots[i].served <= s.slots[i].size && CanServe(c, s, i, s.slots[i].size - s.slots[i].served)
  {
    hide RoundUp, QueueOk, Counted, BufOk, FateOk, Frame;
    assert SlotOk(c, s, s.slots[i]);
    OwnedFits(c, o, s, i);
  }

  /** Serving and completing slot `i` is possible and leaves less work. */
  lemma Delivers(c: Config, o: seq<byte>, s: Job, i: nat)
    requires Ready(c, o) && !c.SparseBdev() && Moving(c, o, s) && Once(s, 1) && i < |s.slots|
    requires s.slots[i].Transferring()
    ensures var n, size := s.slots[i].size - s.slots[i].served, s.slots[i].size;
            && n >= 0 && Enabled(c, s, Move(i, n))
            && var t := Step(c, s, Move(i, n));
               && Enabled(c, t, Done(i, size, OK)) && !SilentEvent(c, t, Done(i, size, OK))
               && Gentle(t, Done(i, size, OK))
               && var u := Step(c, t, Done(i, size, OK));
                  Moving(c, o, u) && Once(u, 1) && Work(c, u) < Work(c, s)
  {
    hide RoundUp, Own, Data, QueueOk, Counted, Complete, OnlyTails, Once, Work;
    FullService(c, o, s, i);
    var size := s.slots[i].size;
    var n := size - s.slots[i].served;
    var t := Serve(c, s, i, n);
    GentleMoves(c, o, s, Move(i, n));
    StepOnce(c, o, s, Move(i, n), 1);
    OtherEventsKeepWork(c, s, Move(i, n));
    GentleMoves(c, o, t, Done(i, size, OK));
    StepOnce(c, o, t, Done(i, size, OK), 1);
    CompletionDecreases(c, o, t, i, size, OK);
  }

  lemma {:induction false} Finishable(c: Config, o: seq<byte>, s: Job) returns (events: seq<Event>, t: Job)
    requires Ready(c, o) && !c.SparseBdev() && Moving(c, o, s) && Once(s, 1)
    ensures Leads(c, s, events, t) && t.exits != [] && t.Clean()
    decreases Max(0, Work(c, s))
  {
    hide Own, Data, QueueOk, Counted, Step, Enabled, Work, Leads, OnlyTails, SilentEvent, Gentle;
    if s.exits != [] {
      events, t := [], s;
      Here(c, s);
    } else {
      var i := SomeTransfer(c, o, s);
      Delivers(c, o, s, i);
      var size := s.slots[i].size;
      var n := size - s.slots[i].served;
      var u := Step(c, s, Move(i, n));
      var w := Step(c, u, Done(i, size, OK));
      WorkPositive(c, o, s);
      WorkPositive(c, o, w);
      var rest: seq<Event>;
      rest, t := Finishable(c, o, w);
      Then(c, u, Done(i, size, OK), rest, t);
      MovesAreHeard(c, s, i, n);
      Then(c, s, Move(i, n), [Done(i, size, OK)] + rest, t);
      events := [Move(i, n)] + ([Done(i, size, OK)] + rest);
    }
  }

  lemma {:induction false} StartMoves(c: Config, o: seq<byte>, s: Job, k: nat, envs: seq<Env>)
    requires Ready(c, o) && Moving(c, o, s) && k <= |envs| && |envs| <= |s.slots|
    requires forall j :: k <= j < |envs| ==> s.slots[j].phase == Idle && envs[j] == OK
    ensures Moving(c, o, StartFrom(c, s, k, envs))
    decreases |envs| - k
  {
    hide Seek, Own, Data, QueueOk, Counted, OnlyTails;
    if k < |envs| {
      SeekMoves(c, o, s, k);
      StartOne(c, o, s, k, envs);
      StartMoves(c, o, Seek(c, s, k, envs[k]), k + 1, envs);
    }
  }

  lemma {:induction false} CalmMoves(c: Config, o: seq<byte>, s: Job, events: seq<Event>)
    requires Ready(c, o) && Moving(c, o, s) && Possible(c, s, events) && Calm(c, s, events)
    ensures Moving(c, o, Execute(c, s, events))
    decreases |events|
  {
    hide Step, Own, Data, QueueOk, Counted, OnlyTails, Enabled, SilentEvent, Gentle;
    if events != [] {
      GentleMoves(c, o, s, events[0]);
      CalmMoves(c, o, Step(c, s, events[0]), events[1..]);
    }
  }

  lemma CalmRunMoves(c: Config, o: seq<byte>, h: History)
    requires Ready(c, o) && CalmRun(c, o, h)
    ensures Moving(c, o, Final(c, o, h))
  {
    hide Inv, StartFrom, Execute, Possible, Calm;
    InitialInv(c, o, h.bufs, h.interrupted);
    StartMoves(c, o, Initial(c, o, h.bufs, h.interrupted), 0, h.envs);
    CalmMoves(c, o, Started(c, o, h), h.events);
  }

  /** From every state that a sparse file copy can reach without a failure, it can still be brought to a clean exit. */
  lemma CanAlwaysFinishSparse(c: Config, o: seq<byte>, h: History) returns (more: seq<Event>)
    requires Ready(c, o) && c.inKind == File && CalmRun(c, o, h) && c.depth >= 1
    ensures CalmRun(c, o, h.(events := h.events + more)) && CleanExit(Final(c, o, h.(events := h.events + more)))
  {
    hide Inv, Possible, Calm, Execute, StartFrom, OnlyTails;
    var s := Final(c, o, h);
    CalmRunMoves(c, o, h);
    ExitCount(c, o, h);
    var t := s;
    more := [];
    if s.exits == [] {
      more, t := Finishable(c, o, s);
    } else {
      Here(c, s);
    }
    DdCalm.Append(c, Started(c, o, h), h.events, s, more, t);
  }

  // ------------------------------------------------------------------ sparse bdev copies that cannot stall

  /** Serving and completing a transfer, or completing a seek, is possible and leaves less to do. */
  lemma DeliversBdev(c: Config, o: seq<byte>, s: Job, i: nat) returns (move: Event, t: Job, done: Event, u: Job)
    requires Ready(c, o) && c.SparseBdev() && Moving(c, o, s) && Awake(c, s) && !StallShape(c) && |s.slots| == c.depth
    requires i < |s.slots| && s.slots[i].Transferring()
    ensures Enabled(c, s, move) && !SilentEvent(c, s, move) && Gentle(s, move) && Step(c, s, move) == t
    ensures Enabled(c, t, done) && !SilentEvent(c, t, done) && Gentle(t, done) && Step(c, t, done) == u
    ensures Moving(c, o, u) && Awake(c, u) && |u.slots| == c.depth && Level(c, u) < Level(c, s)
  {
    hide RoundUp, Own, Data, QueueOk, Counted, Complete, OnlyTails, StallShape, Level, Awake;
    FullService(c, o, s, i);
    var size := s.slots[i].size;
    var n := size - s.slots[i].served;
    move, done := Move(i, n), Done(i, size, OK);
    t := Serve(c, s, i, n);
    assert t == Step(c, s, move);
    GentleMoves(c, o, s, move);
    StepAwake(c, o, s, move);
    StepLevel(c, o, s, move);
    u := Step(c, t, done);
    GentleMoves(c, o, t, done);
    StepAwake(c, o, t, done);
    ExitsGrow(c, t, done);
    StepLevel(c, o, t, done);
  }

  lemma SeeksBdev(c: Config, o: seq<byte>, s: Job, i: nat)
    requires Ready(c, o) && c.SparseBdev() && Moving(c, o, s) && Awake(c, s) && !StallShape(c) && |s.slots| == c.depth
    requires i < |s.slots| && s.slots[i].Seeking()
    ensures var v := SeekDone(i, OK);
            && Enabled(c, s, v) && !SilentEvent(c, s, v) && Gentle(s, v)
            && var u := Step(c, s, v);
               Moving(c, o, u) && Awake(c, u) && |u.slots| == c.depth && Level(c, u) < Level(c, s)
  {
    hide RoundUp, Own, Data, Counted, OnlyTails, StallShape, Level, Awake, Step;
    var v := SeekDone(i, OK);
    GentleMoves(c, o, s, v);
    StepAwake(c, o, s, v);
    ExitsGrow(c, s, v);
    StepLevel(c, o, s, v);
  }

  lemma {:induction false} FinishableBdev(c: Config, o: seq<byte>, s: Job) returns (events: seq<Event>, t: Job)
    requires Ready(c, o) && c.SparseBdev() && Moving(c, o, s) && Awake(c, s) && !StallShape(c) && |s.slots| == c.depth
    ensures Leads(c, s, events, t) && t.exits != [] && t.Clean()
    decreases Max(0, Level(c, s))
  {
    hide Own, Data, QueueOk, Step, Enabled, Level, Leads, OnlyTails, SilentEvent, Gentle, StallShape;
    if s.exits != [] {
      events, t := [], s;
      Here(c, s);
    } else {
      hide HeadSeeks;
      var i := TotalPositive(s.slots, IoWeight);
      LevelIs(c, o, s);
      var rest: seq<Event>;
      if s.slots[i].Seeking() {
        SeeksBdev(c, o, s, i);
        var w := Step(c, s, SeekDone(i, OK));
        LevelIs(c, o, w);
        rest, t := FinishableBdev(c, o, w);
        Then(c, s, SeekDone(i, OK), rest, t);
        events := [SeekDone(i, OK)] + rest;
      } else {
        var move, u, done, w := DeliversBdev(c, o, s, i);
        LevelIs(c, o, w);
        rest, t := FinishableBdev(c, o, w);
        Then(c, u, done, rest, t);
        Then(c, s, move, [done] + rest, t);
        events := [move] + ([done] + rest);
      }
    }
  }

  lemma LevelIs(c: Config, o: seq<byte>, s: Job)
    requires Inv(c, o, s)
    ensures Level(c, s) >= 0
  {
    hide Data, QueueOk, Counted;
  }

  /**
   * From every state that a sparse bdev copy outside the stalling shape can reach without a failure, it can still be
   * brought to a clean exit.
   */
  lemma CanAlwaysFinishBdev(c: Config, o: seq<byte>, h: History) returns (more: seq<Event>)
    requires Ready(c, o) && c.SparseBdev() && CalmRun(c, o, h) && c.depth >= 1 && !StallShape(c)
    ensures CalmRun(c, o, h.(events := h.events + more)) && CleanExit(Final(c, o, h.(events := h.events + more)))
  {
    hide Inv, Possible, Calm, Execute, StartFrom, OnlyTails, StallShape, Awake;
    var s := Final(c, o, h);
    CalmRunMoves(c, o, h);
    FinalAwake(c, o, h);
    var t: Job;
    more, t := FinishableBdev(c, o, s);
    DdCalm.Append(c, Started(c, o, h), h.events, s, more, t);
  }
}
