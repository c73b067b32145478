/** Whole runs: the start loop followed by any events in any order. The invariant holds throughout. */
module DdRuns {
  import opened Bytes
  import opened DdSpec
  import opened DdInvariant
  import opened DdPrimitives
  import opened DdSteps
  import opened DdCalls

  // ------------------------------------------------------------------ completions

  /** When the code sees no error and nothing failed silently, the request is wholly served. */
  lemma ServedWhenClean(c: Config, s: Job, i: nat, res: int)
    requires i < |s.slots| && (res < 0 || res == s.slots[i].served) && !Silent(c, s, i, res)
    requires ErrorAfter(c, s.error, s.slots[i], res) == 0
    ensures s.error == 0 && s.slots[i].served == s.slots[i].size
  {}

  lemma LandedKeeps(c: Config, o: seq<byte>, s: Job, i: nat, res: int)
    requires Inv(c, o, s) && i < |s.slots| && s.slots[i].Transferring()
    ensures Inv(c, o, Land(s.(error := ErrorAfter(c, s.error, s.slots[i], res)), i))
  {
    var t := s.(error := ErrorAfter(c, s.error, s.slots[i], res));
    BookkeepingKeeps(c, o, s, t);
    LandKeeps(c, o, t, i);
  }

  /** What a wholly served request leaves in the buffer and in the output. */
  lemma ServedBuffer(c: Config, o: seq<byte>, s: Job, sl: Slot)
    requires c.outBlock > 0 && SlotOk(c, s, sl) && BufOk(c, o, s.out, sl) && sl.Transferring() && sl.served == sl.size
    ensures TailReady(c, o, s.out, sl)
    ensures sl.phase != Populating ==> Loaded(c, sl, sl.length)
    ensures sl.phase == Writing ==> Stored(c, s.out, sl, sl.length)
  {}

  lemma SameBuffer(c: Config, o: seq<byte>, out: seq<byte>, a: Slot, b: Slot)
    requires c.outBlock > 0 && c.readStart <= a.offset && b == a.(phase := b.phase)
    ensures TailReady(c, o, out, a) == TailReady(c, o, out, b)
    ensures Loaded(c, a, a.length) == Loaded(c, b, b.length)
    ensures Stored(c, out, a, a.length) == Stored(c, out, b, b.length)
  {}

  /** A write that comes back settles its chunk. */
  lemma WrittenDropKeeps(c: Config, o: seq<byte>, s: Job, i: nat, res: int)
    requires Inv(c, o, s) && i < |s.slots| && s.slots[i].phase == Writing
    ensures var sl := s.slots[i]; var t := Land(s.(error := ErrorAfter(c, s.error, sl, res)), i);
            Inv(c, o, Drop(t, i, if sl.served == sl.size then Written else Lost))
  {
    var sl := s.slots[i];
    var t := Land(s.(error := ErrorAfter(c, s.error, sl, res)), i);
    LandedKeeps(c, o, s, i, res);
    assert SlotOk(c, s, sl) && BufOk(c, o, s.out, sl);
    if sl.served == sl.size { ServedBuffer(c, o, s, sl); }
    SameBuffer(c, o, s.out, sl, t.slots[i]);
    DropKeeps(c, o, t, i, if sl.served == sl.size then Written else Lost);
  }

  lemma WrittenKeeps(c: Config, o: seq<byte>, s: Job, i: nat, res: int, e: Env)
    requires Inv(c, o, s) && i < |s.slots| && s.slots[i].phase == Writing
    ensures Inv(c, o, Complete(c, s, i, res, e))
  {
    hide Own, Data, QueueOk, Counted, Seek;
    var sl := s.slots[i];
    var t := Land(s.(error := ErrorAfter(c, s.error, sl, res)), i);
    WrittenDropKeeps(c, o, s, i, res);
    SeekKeeps(c, o, Drop(t, i, if sl.served == sl.size then Written else Lost), i, e);
  }

  lemma FilledKeeps(c: Config, o: seq<byte>, s: Job, i: nat, res: int, e: Env)
    requires Inv(c, o, s) && i < |s.slots| && s.slots[i].Transferring() && s.slots[i].phase != Writing
    requires (res < 0 || res == s.slots[i].served) && !Silent(c, s, i, res)
    ensures Inv(c, o, Complete(c, s, i, res, e))
  {
    var sl := s.slots[i];
    var t := Land(s.(error := ErrorAfter(c, s.error, sl, res)), i);
    LandedKeeps(c, o, s, i, res);
    assert SlotOk(c, s, sl) && BufOk(c, o, s.out, sl);
    if t.Clean() {
      ServedWhenClean(c, s, i, res);
      ServedBuffer(c, o, s, sl);
    }
    SameBuffer(c, o, s.out, sl, t.slots[i]);
    if sl.phase == Populating { ReadKeeps(c, o, t, i, e); } else { WriteKeeps(c, o, t, i, e); }
  }

  lemma StepKeeps(c: Config, o: seq<byte>, s: Job, v: Event)
    requires Inv(c, o, s) && Enabled(c, s, v) && !SilentEvent(c, s, v)
    ensures Inv(c, o, Step(c, s, v))
  {
    match v {
      case Move(i, n) => ServeKeeps(c, o, s, i, n);
      case Done(i, res, e) =>
        if s.slots[i].phase == Writing { WrittenKeeps(c, o, s, i, res, e); } else { FilledKeeps(c, o, s, i, res, e); }
      case SeekDone(i, e) =>
        if s.slots[i].phase == SeekingData {
          SeekDataDoneKeeps(c, o, s, i, e);
        } else {
          SeekHoleDoneKeeps(c, o, s, i, e);
        }
      case Interrupt => BookkeepingKeeps(c, o, s, Step(c, s, v));
      case Status => BookkeepingKeeps(c, o, s, Step(c, s, v));
    }
  }

  // ------------------------------------------------------------------ runs

  lemma PopulateOnlyTouches(c: Config, s: Job, k: nat, e: Env, j: nat)
    requires c.outBlock > 0 && k < |s.slots| && j < |s.slots| && j != k
    ensures Populate(c, s, k, e).slots[j] == s.slots[j]
  {}

  /** A call of dd_target_seek on slot k leaves the other slots alone. */
  lemma SeekOnlyTouches(c: Config, s: Job, k: nat, e: Env, j: nat)
    requires WellFormed(c) && k < |s.slots| && j < |s.slots| && j != k
    ensures Seek(c, s, k, e).slots[j] == s.slots[j]
  {
    if !c.sparse {
      PopulateOnlyTouches(c, s, k, e, j);
    } else if c.inKind == File {
      var t := Skip(s, NextData(c.isData, s.pos));
      PopulateOnlyTouches(c, WithLength(t, k, ChunkLength(c, t.pos, NextHole(c.isData, t.pos))), k, e, j);
    }
  }

  lemma {:induction false} StartKeeps(c: Config, o: seq<byte>, s: Job, k: nat, envs: seq<Env>)
    requires Inv(c, o, s) && k <= |envs| && |envs| <= |s.slots|
    requires forall j :: k <= j < |envs| ==> s.slots[j].phase == Idle
    ensures Inv(c, o, StartFrom(c, s, k, envs))
    decreases |envs| - k
  {
    if k < |envs| {
      SeekKeeps(c, o, s, k, envs[k]);
      forall j | k + 1 <= j < |envs| ensures Seek(c, s, k, envs[k]).slots[j].phase == Idle {
        SeekOnlyTouches(c, s, k, envs[k], j);
      }
      StartKeeps(c, o, Seek(c, s, k, envs[k]), k + 1, envs);
    }
  }

  /** Everything the environment decides in one run. */
  datatype History = History(bufs: seq<seq<byte>>, interrupted: bool, envs: seq<Env>, events: seq<Event>)

  ghost predicate Starts(c: Config, h: History) {
    && WellFormed(c)
    && |h.bufs| == |h.envs| == c.depth
    && forall k :: 0 <= k < |h.bufs| ==> |h.bufs[k]| == c.unit
  }

  function Started(c: Config, o: seq<byte>, h: History): Job
    requires c.outBlock > 0 && c.inBlock > 0 && |h.bufs| == |h.envs|
  {
    StartFrom(c, Initial(c, o, h.bufs, h.interrupted), 0, h.envs)
  }

  /** Each event can happen, and no transfer falls short without the code noticing. */
  predicate Possible(c: Config, s: Job, events: seq<Event>)
    requires c.outBlock > 0 && c.inBlock > 0
    decreases |events|
  {
    events != [] ==>
      && Enabled(c, s, events[0]) && !SilentEvent(c, s, events[0])
      && Possible(c, Step(c, s, events[0]), events[1..])
  }

  function Execute(c: Config, s: Job, events: seq<Event>): Job
    requires c.outBlock > 0 && c.inBlock > 0 && Possible(c, s, events)
    decreases |events|
  {
    if events == [] then s else Execute(c, Step(c, s, events[0]), events[1..])
  }

  ghost predicate Legal(c: Config, o: seq<byte>, h: History) {
    Starts(c, h) && Possible(c, Started(c, o, h), h.events)
  }

  /** The state a run has reached; since events may stop anywhere, every reachable state is one. */
  function Final(c: Config, o: seq<byte>, h: History): Job
    requires Legal(c, o, h)
  {
    Execute(c, Started(c, o, h), h.events)
  }

  lemma StartedInv(c: Config, o: seq<byte>, h: History)
    requires Starts(c, h)
    ensures Inv(c, o, Started(c, o, h))
  {
    InitialInv(c, o, h.bufs, h.interrupted);
    StartKeeps(c, o, Initial(c, o, h.bufs, h.interrupted), 0, h.envs);
  }

  lemma {:induction false} ExecuteKeeps(c: Config, o: seq<byte>, s: Job, events: seq<Event>)
    requires Inv(c, o, s) && Possible(c, s, events)
    ensures Inv(c, o, Execute(c, s, events))
    decreases |events|
  {
    if events != [] {
      StepKeeps(c, o, s, events[0]);
      ExecuteKeeps(c, o, Step(c, s, events[0]), events[1..]);
    }
  }

  /** The invariant holds in every reachable state, for every environment and every order of events. */
  lemma AlwaysInv(c: Config, o: seq<byte>, h: History)
    requires Legal(c, o, h)
    ensures Inv(c, o, Final(c, o, h))
  {
    StartedInv(c, o, h);
    ExecuteKeeps(c, o, Started(c, o, h), h.events);
  }
}
