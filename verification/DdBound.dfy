/** In every mode, sparse bdev copies included, a run makes a bounded number of transfers and seeks. */
module DdBound {
  import opened Bytes
  import opened DdSpec
  import opened DdInvariant
  import opened DdPrimitives
  import opened DdCalls
  import opened DdRuns
  import opened DdExit

  /** A waiting slot may seek twice; a chunk is populated, read and written before its slot may wait again. */
  function Height(sl: Slot): nat {
    match sl.phase
    case SeekingHole => 1
    case SeekingData => 2
    case Queued => 2
    case Writing => 3
    case Reading => 4
    case Populating => 5
    case _ => 0
  }

  function Level(c: Config, s: Job): int {
    5 * (c.End() - s.pos) + Total(s.slots, Height)
  }

  lemma LevelSlot(c: Config, s: Job, t: Job, i: nat)
    requires i < |s.slots| == |t.slots| && t.slots == s.slots[i := t.slots[i]]
    ensures Level(c, t) == Level(c, s) - 5 * (t.pos - s.pos) - Height(s.slots[i]) + Height(t.slots[i])
  {
    TotalUpdate(s.slots, i, t.slots[i], Height);
  }

  lemma ReadLevel(c: Config, s: Job, i: nat, e: Env)
    requires i < |s.slots| && s.slots[i].phase == Running
    ensures Level(c, Read(c, s, i, e)) <= Level(c, s) + 4
  {
    LevelSlot(c, s, Read(c, s, i, e), i);
  }

  lemma WriteLevel(c: Config, s: Job, i: nat, e: Env)
    requires c.outBlock > 0 && i < |s.slots| && s.slots[i].phase == Running
    ensures Level(c, Write(c, s, i, e)) <= Level(c, s) + 3
  {
    LevelSlot(c, s, Write(c, s, i, e), i);
  }

  lemma ClaimedLevel(c: Config, t: Job, i: nat, e: Env)
    requires c.outBlock > 0 && i < |t.slots| && t.slots[i].phase == Idle && t.slots[i].length > 0
    ensures Level(c, Claimed(c, t, i, e)) <= Level(c, t)
  {
    hide Read;
    var u := Claim(t, i);
    LevelSlot(c, t, u, i);
    if t.slots[i].length % c.outBlock == 0 {
      ReadLevel(c, u, i, e);
    } else {
      LevelSlot(c, u, Claimed(c, t, i, e), i);
    }
  }

  lemma PopulateLevel(c: Config, s: Job, i: nat, e: Env)
    requires WellFormed(c) && i < |s.slots| && s.slots[i].phase == Idle && c.readStart <= s.pos <= c.End()
    ensures Level(c, Populate(c, s, i, e)) <= Level(c, s)
  {
    hide Claimed;
    PopulateCut(c, s, i, e);
    var length := Min(s.slots[i].length, c.End() - s.pos);
    var t := s.(slots := s.slots[i := s.slots[i].(offset := s.pos, length := length)]);
    LevelSlot(c, s, t, i);
    if length != 0 && s.Clean() { ClaimedLevel(c, t, i, e); }
  }

  lemma SeekLevel(c: Config, s: Job, i: nat, e: Env)
    requires WellFormed(c) && i < |s.slots| && s.slots[i].phase == Idle && c.readStart <= s.pos <= c.End()
    ensures Level(c, Seek(c, s, i, e)) <= Level(c, s) + 2
  {
    hide Populate;
    if !c.sparse {
      PopulateLevel(c, s, i, e);
    } else if Sub64(c.copySize, Sub64(s.pos, c.readStart)) != 0 && s.Clean() {
      if c.inKind == File {
        var d := NextData(c.isData, s.pos);
        var t := Skip(s, d);
        var u := WithLength(t, i, ChunkLength(c, t.pos, NextHole(c.isData, t.pos)));
        LevelSlot(c, t, u, i);
        if d < |c.isData| { PopulateLevel(c, u, i, e); }
      } else {
        LevelSlot(c, s, SeekBdev(c, s, i, e), i);
      }
    }
  }

  lemma CompleteLevel(c: Config, s: Job, i: nat, res: int, e: Env)
    requires WellFormed(c) && c.readStart <= s.pos <= c.End() && i < |s.slots| && s.slots[i].Transferring()
    ensures Level(c, Complete(c, s, i, res, e)) < Level(c, s)
  {
    hide Read, Write, Seek;
    var sl := s.slots[i];
    var t := Land(s.(error := ErrorAfter(c, s.error, sl, res)), i);
    LevelSlot(c, s, t, i);
    if sl.phase == Populating {
      ReadLevel(c, t, i, e);
    } else if sl.phase == Reading {
      WriteLevel(c, t, i, e);
    } else {
      var f := if sl.served == sl.size then Written else Lost;
      LevelSlot(c, t, Drop(t, i, f), i);
      SeekLevel(c, Drop(t, i, f), i, e);
    }
  }

  lemma SeekDataLevel(c: Config, s: Job, i: nat, e: Env)
    requires WellFormed(c) && PosOk(c, s) && c.SparseBdev() && i < |s.slots| && s.slots[i].phase == SeekingData
    requires s.slots[i].at * c.inBlock == s.pos
    ensures Level(c, SeekDataDone(c, s, i, e)) < Level(c, s)
  {
    hide RoundDown;
    DataAnswer(c, s, s.slots[i].at);
    LevelSlot(c, s, SeekDataDone(c, s, i, e), i);
  }

  lemma NextSeekLevel(c: Config, s: Job, e: Env)
    requires c.inBlock > 0 && forall k :: 0 <= k < |s.queue| ==> s.queue[k] < |s.slots|
    requires s.queue != [] ==> s.slots[s.queue[0]].phase == Queued
    ensures Level(c, NextSeek(c, s, e)) == Level(c, s)
  {
    if s.queue != [] && s.pos < c.inTotal { LevelSlot(c, s, NextSeek(c, s, e), s.queue[0]); }
  }

  lemma SeekHoleLevel(c: Config, o: seq<byte>, s: Job, i: nat, e: Env)
    requires Inv(c, o, s) && i < |s.slots| && s.slots[i].phase == SeekingHole
    ensures Level(c, SeekHoleDone(c, s, i, e)) < Level(c, s)
  {
    hide Own, Data, Counted, Populate, NextSeek, HoleLength, Fits;
    LevelSlot(c, s, Dequeue(s, i), i);
    if s.Clean() {
      HoleDone(c, o, s, i);
      LevelSlot(c, s, Dequeue(LandSeek(s, i), i), i);
      HoleFoundLevel(c, o, Dequeue(LandSeek(s, i), i), i, HoleLength(c, s, i), e);
    }
  }

  lemma HoleFoundLevel(c: Config, o: seq<byte>, s: Job, i: nat, length: nat, e: Env)
    requires Inv(c, o, s) && i < |s.slots| && s.slots[i].phase == Idle && NoSeek(s) && Fits(c, s, length) && c.sparse
    ensures var p := Populate(c, WithLength(s, i, length), i, e);
            && (forall k :: 0 <= k < |p.queue| ==> p.queue[k] < |p.slots|)
            && Level(c, NextSeek(c, p, e)) <= Level(c, s)
  {
    hide Data, Counted, Populate, NextSeek;
    var t := WithLength(s, i, length);
    var p := Populate(c, t, i, e);
    LevelSlot(c, s, t, i);
    PopulateLevel(c, t, i, e);
    HoleFoundKeeps(c, o, s, i, length, e);
    if p.queue != [] { assert Waiting(p.slots[p.queue[0]]); }
    NextSeekLevel(c, p, e);
  }

  /** Every completion, of a transfer or of a seek, lowers the level; nothing else changes it. */
  lemma StepLevel(c: Config, o: seq<byte>, s: Job, v: Event)
    requires Inv(c, o, s) && Enabled(c, s, v)
    ensures Level(c, Step(c, s, v)) <= Level(c, s) - (if v.Done? || v.SeekDone? then 1 else 0)
  {
    hide Complete, SeekDataDone, SeekHoleDone, Data, Counted;
    match v {
      case Move(i, _) => LevelSlot(c, s, Step(c, s, v), i);
      case Done(i, res, e) => CompleteLevel(c, s, i, res, e);
      case SeekDone(i, e) =>
        SeekerIsHead(c, s, i);
        if s.slots[i].phase == SeekingData { SeekDataLevel(c, s, i, e); } else { SeekHoleLevel(c, o, s, i, e); }
      case _ =>
    }
  }

  /** Transfers and seeks that complete. */
  function Operations(events: seq<Event>): nat {
    if events == [] then 0 else (if events[0].Done? || events[0].SeekDone? then 1 else 0) + Operations(events[1..])
  }

  lemma {:induction false} ExecuteLevel(c: Config, o: seq<byte>, s: Job, events: seq<Event>)
    requires Inv(c, o, s) && Possible(c, s, events)
    ensures Operations(events) + Level(c, Execute(c, s, events)) <= Level(c, s)
    decreases |events|
  {
    hide Step, Own, Data, QueueOk, Counted;
    if events != [] {
      StepKeeps(c, o, s, events[0]);
      StepLevel(c, o, s, events[0]);
      ExecuteLevel(c, o, Step(c, s, events[0]), events[1..]);
    }
  }

  lemma {:induction false} StartLevel(c: Config, o: seq<byte>, s: Job, k: nat, envs: seq<Env>)
    requires Inv(c, o, s) && k <= |envs| && |envs| <= |s.slots|
    requires forall j :: k <= j < |envs| ==> s.slots[j].phase == Idle
    ensures Level(c, StartFrom(c, s, k, envs)) <= Level(c, s) + 2 * (|envs| - k)
    decreases |envs| - k
  {
    hide Seek, Data, QueueOk, Counted;
    if k < |envs| {
      StartOne(c, o, s, k, envs);
      SeekLevel(c, s, k, envs[k]);
      StartLevel(c, o, Seek(c, s, k, envs[k]), k + 1, envs);
    }
  }

  /**
   * In every mode, with any errors and any order of events, a run completes at most five operations per byte of the
   * copy and two per slot. A sparse bdev copy may stall, but it cannot go on for ever.
   */
  lemma OperationsAreBounded(c: Config, o: seq<byte>, h: History)
    requires Legal(c, o, h)
    ensures Operations(h.events) <= 5 * c.copySize + 2 * c.depth
  {
    hide Data, QueueOk, Counted, Possible, Execute, StartFrom;
    var init := Initial(c, o, h.bufs, h.interrupted);
    InitialInv(c, o, h.bufs, h.interrupted);
    TotalZero(init.slots, Height);
    StartLevel(c, o, init, 0, h.envs);
    StartedInv(c, o, h);
    ExecuteLevel(c, o, Started(c, o, h), h.events);
    AlwaysInv(c, o, h);
  }
}
