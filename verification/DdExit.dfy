/** Control over whole runs: no slot is left half-way, a clean exit means the work is done, exits are single. */
module DdExit {
  import opened Bytes
  import opened DdSpec
  import opened DdInvariant
  import opened DdPrimitives
  import opened DdCalls
  import opened DdRuns
  import opened DdControl

  // ------------------------------------------------------------------ between events no slot is half-way

  ghost predicate AtRest(s: Job) {
    forall j :: 0 <= j < |s.slots| ==> s.slots[j].phase != Running
  }

  ghost predicate AtRestBut(s: Job, i: nat) {
    forall j :: 0 <= j < |s.slots| && j != i ==> s.slots[j].phase != Running
  }

  lemma ReadRests(c: Config, s: Job, i: nat, e: Env)
    requires i < |s.slots| && AtRestBut(s, i)
    ensures AtRest(Read(c, s, i, e))
  {}

  lemma WriteRests(c: Config, s: Job, i: nat, e: Env)
    requires c.outBlock > 0 && i < |s.slots| && AtRestBut(s, i)
    ensures AtRest(Write(c, s, i, e))
  {}

  lemma PopulateRests(c: Config, s: Job, i: nat, e: Env)
    requires c.outBlock > 0 && i < |s.slots| && AtRest(s)
    ensures AtRest(Populate(c, s, i, e))
  {
    var left := Sub64(c.copySize, Sub64(s.pos, c.readStart));
    var t := s.(slots := s.slots[i := s.slots[i].(offset := s.pos, length := Min(s.slots[i].length, left))]);
    ReadRests(c, Claim(t, i), i, e);
  }

  lemma SeekRests(c: Config, s: Job, i: nat, e: Env)
    requires c.outBlock > 0 && c.inBlock > 0 && i < |s.slots| && AtRest(s)
    ensures AtRest(Seek(c, s, i, e))
  {
    if !c.sparse {
      PopulateRests(c, s, i, e);
    } else if c.inKind == File {
      var t := Skip(s, NextData(c.isData, s.pos));
      PopulateRests(c, WithLength(t, i, ChunkLength(c, t.pos, NextHole(c.isData, t.pos))), i, e);
    }
  }

  lemma CompleteRests(c: Config, s: Job, i: nat, res: int, e: Env)
    requires c.outBlock > 0 && c.inBlock > 0 && i < |s.slots| && AtRest(s)
    ensures AtRest(Complete(c, s, i, res, e))
  {
    var sl := s.slots[i];
    var t := Land(s.(error := ErrorAfter(c, s.error, sl, res)), i);
    if sl.phase == Populating {
      ReadRests(c, t, i, e);
    } else if sl.phase == Reading {
      WriteRests(c, t, i, e);
    } else {
      SeekRests(c, Drop(t, i, if sl.served == sl.size then Written else Lost), i, e);
    }
  }

  lemma SeekDataDoneRests(c: Config, s: Job, i: nat, e: Env)
    requires c.inBlock > 0 && i < |s.slots| && AtRest(s)
    ensures AtRest(SeekDataDone(c, s, i, e))
  {}

  lemma HoleSoughtRests(c: Config, s: Job, i: nat, length: nat, e: Env)
    requires c.outBlock > 0 && c.inBlock > 0 && i < |s.slots| && AtRest(s)
    requires forall k :: 0 <= k < |s.queue| ==> s.queue[k] < |s.slots|
    ensures AtRest(HoleSought(c, s, i, length, e))
  {
    PopulateRests(c, WithLength(Dequeue(LandSeek(s, i), i), i, length), i, e);
  }

  lemma SeekHoleDoneRests(c: Config, s: Job, i: nat, e: Env)
    requires c.outBlock > 0 && c.inBlock > 0 && i < |s.slots| && AtRest(s)
    requires forall k :: 0 <= k < |s.queue| ==> s.queue[k] < |s.slots|
    ensures AtRest(SeekHoleDone(c, s, i, e))
  {
    if s.Clean() { HoleSoughtRests(c, s, i, HoleLength(c, s, i), e); }
  }

  lemma StepRests(c: Config, s: Job, v: Event)
    requires c.outBlock > 0 && c.inBlock > 0 && Enabled(c, s, v) && AtRest(s)
    ensures AtRest(Step(c, s, v))
  {
    match v {
      case Done(i, res, e) => CompleteRests(c, s, i, res, e);
      case SeekDone(i, e) =>
        if s.slots[i].phase == SeekingHole { SeekHoleDoneRests(c, s, i, e); } else { SeekDataDoneRests(c, s, i, e); }
      case _ =>
    }
  }

  // ------------------------------------------------------------------ control invariant of a run

  ghost predicate Control(c: Config, s: Job) {
    && AtRest(s)
    && NoLoss(s)
    && (s.exits != [] && s.Clean() ==> s.outstanding == 0 && Quiet(c, s) && Sized(c, s))
  }

  /** Errors and interrupts stay on record. */
  lemma StepSticky(c: Config, s: Job, v: Event)
    requires WellFormed(c) && Enabled(c, s, v) && Step(c, s, v).Clean()
    ensures s.Clean()
  {}

  /** An event on a slot finds its I/O counted. */
  lemma InFlightCounted(c: Config, s: Job, i: nat)
    requires Counted(c, s) && i < |s.slots| && IoWeight(s.slots[i]) == 1 && (s.Clean() || !c.SparseBdev())
    ensures s.outstanding >= 1
  {
    TotalAtLeast(s.slots, i, IoWeight);
  }

  lemma DoneControl(c: Config, o: seq<byte>, s: Job, i: nat, res: int, e: Env)
    requires Inv(c, o, s) && Control(c, s) && s.Clean() && Enabled(c, s, Done(i, res, e)) && !Silent(c, s, i, res)
    ensures var t := Step(c, s, Done(i, res, e));
            NoLoss(t) && (t.exits != [] && t.Clean() ==> t.outstanding == 0 && Quiet(c, t) && Sized(c, t))
  {
    InFlightCounted(c, s, i);
    assert SlotOk(c, s, s.slots[i]);
    CompleteEnds(c, s, i, res, e);
  }

  lemma SeekDoneControl(c: Config, o: seq<byte>, s: Job, i: nat, e: Env)
    requires Inv(c, o, s) && Control(c, s) && s.Clean() && Enabled(c, s, SeekDone(i, e))
    ensures var t := Step(c, s, SeekDone(i, e));
            NoLoss(t) && (t.exits != [] && t.Clean() ==> t.outstanding == 0 && Quiet(c, t) && Sized(c, t))
  {
    InFlightCounted(c, s, i);
    SeekerIsHead(c, s, i);
    if s.slots[i].phase == SeekingData { SeekDataDoneEnds(c, s, i, e); } else { SeekHoleDoneEnds(c, s, i, e); }
  }

  lemma StepControl(c: Config, o: seq<byte>, s: Job, v: Event)
    requires Inv(c, o, s) && Control(c, s) && Enabled(c, s, v) && !SilentEvent(c, s, v)
    ensures Control(c, Step(c, s, v))
  {
    StepRests(c, s, v);
    if Step(c, s, v).Clean() {
      StepSticky(c, s, v);
      match v {
        case Done(i, res, e) => DoneControl(c, o, s, i, res, e);
        case SeekDone(i, e) => SeekDoneControl(c, o, s, i, e);
        case _ =>
      }
    }
  }

  // ------------------------------------------------------------------ the start loop

  /** After `k` slots the loop has either started an I/O and not exited, or exited once per slot. */
  ghost predicate Begun(c: Config, s: Job, k: nat) {
    && AtRest(s) && NoLoss(s)
    && (k == 0 ==> s.exits == [] && s.outstanding == 0 && s.queue == [])
    && (k > 0 ==>
          || (s.exits == [] && s.outstanding >= 1)
          || (|s.exits| == k && s.outstanding == 0
              && (s.Clean() ==> Quiet(c, s) && Sized(c, s) && (c.SparseBdev() ==> s.pos == c.End()))))
  }

  /** The first I/O of a run starts or is refused; a later slot may also just queue behind it. */
  lemma BeginOne(c: Config, s: Job, k: nat, e: Env)
    requires WellFormed(c) && c.readStart <= s.pos <= c.End() && k < |s.slots| && SlotOk(c, s, s.slots[k])
    requires Begun(c, s, k)
    ensures Begun(c, Seek(c, s, k, e), k + 1)
  {
    SeekRests(c, s, k, e);
    if k > 0 && s.outstanding == 0 {
      SeekStopped(c, s, k, e);
    } else {
      SeekEnds(c, s, k, e);
      if c.SparseBdev() { SeekBdevLaunches(c, s, k, e); }
    }
  }

  lemma SeekBdevLaunches(c: Config, s: Job, k: nat, e: Env)
    requires WellFormed(c) && c.SparseBdev() && k < |s.slots|
    requires (s.outstanding >= 1 || (s.outstanding == 0 && s.queue == []))
    ensures Seek(c, s, k, e).exits == s.exits ==> Seek(c, s, k, e).outstanding >= 1
  {}

  lemma BeginNext(c: Config, o: seq<byte>, s: Job, k: nat, e: Env)
    requires Inv(c, o, s) && Begun(c, s, k) && k < |s.slots|
    ensures Begun(c, Seek(c, s, k, e), k + 1)
  {
    assert SlotOk(c, s, s.slots[k]);
    BeginOne(c, s, k, e);
  }

  lemma StartOne(c: Config, o: seq<byte>, s: Job, k: nat, envs: seq<Env>)
    requires Inv(c, o, s) && k < |envs| && |envs| <= |s.slots|
    requires forall j :: k <= j < |envs| ==> s.slots[j].phase == Idle
    ensures Inv(c, o, Seek(c, s, k, envs[k]))
    ensures forall j :: k + 1 <= j < |envs| ==> Seek(c, s, k, envs[k]).slots[j].phase == Idle
  {
    SeekKeeps(c, o, s, k, envs[k]);
    forall j | k + 1 <= j < |envs| ensures Seek(c, s, k, envs[k]).slots[j].phase == Idle {
      SeekOnlyTouches(c, s, k, envs[k], j);
    }
  }

  lemma {:induction false} StartBegun(c: Config, o: seq<byte>, s: Job, k: nat, envs: seq<Env>)
    requires Inv(c, o, s) && Begun(c, s, k) && k <= |envs| && |envs| <= |s.slots|
    requires forall j :: k <= j < |envs| ==> s.slots[j].phase == Idle
    ensures Begun(c, StartFrom(c, s, k, envs), |envs|)
    decreases |envs| - k
  {
    hide Seek, Own, Data, QueueOk, Counted;
    if k < |envs| {
      BeginNext(c, o, s, k, envs[k]);
      StartOne(c, o, s, k, envs);
      StartBegun(c, o, Seek(c, s, k, envs[k]), k + 1, envs);
    }
  }

  lemma InitialBegun(c: Config, o: seq<byte>, h: History)
    requires Starts(c, h)
    ensures Begun(c, Initial(c, o, h.bufs, h.interrupted), 0)
  {}

  /** The start loop exits either not at all or once for every slot. */
  lemma StartedBegun(c: Config, o: seq<byte>, h: History)
    requires Starts(c, h)
    ensures Begun(c, Started(c, o, h), c.depth) && Control(c, Started(c, o, h))
  {
    InitialInv(c, o, h.bufs, h.interrupted);
    StartBegun(c, o, Initial(c, o, h.bufs, h.interrupted), 0, h.envs);
  }

  lemma {:induction false} ExecuteControl(c: Config, o: seq<byte>, s: Job, events: seq<Event>)
    requires Inv(c, o, s) && Control(c, s) && Possible(c, s, events)
    ensures Control(c, Execute(c, s, events))
    decreases |events|
  {
    if events != [] {
      StepKeeps(c, o, s, events[0]);
      StepControl(c, o, s, events[0]);
      ExecuteControl(c, o, Step(c, s, events[0]), events[1..]);
    }
  }

  lemma AlwaysControl(c: Config, o: seq<byte>, h: History)
    requires Legal(c, o, h)
    ensures Control(c, Final(c, o, h))
  {
    StartedInv(c, o, h);
    StartedBegun(c, o, h);
    ExecuteControl(c, o, Started(c, o, h), h.events);
  }
}
