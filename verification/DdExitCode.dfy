/** The code a run exits with is the error it has on record, and that error was somebody's answer. */
module DdExitCode {
  import opened Bytes
  import opened DdSpec
  import opened DdInvariant
  import opened DdPrimitives
  import opened DdRuns
  import opened DdExit
  import opened DdSafety
  import opened DdTheorems

  /** The last exit, if any, carried the error on record. */
  ghost predicate LastCode(s: Job) {
    s.exits == [] || s.exits[|s.exits| - 1] == s.error
  }

  /** A step from `s` to `t` that exits does so with the error it leaves. */
  ghost predicate Honest(s: Job, t: Job) {
    t.exits == s.exits || LastCode(t)
  }

  lemma PopulateHonest(c: Config, s: Job, i: nat, e: Env)
    requires c.outBlock > 0 && i < |s.slots|
    ensures Honest(s, Populate(c, s, i, e))
  {
    hide RoundUp;
  }

  lemma SeekHonest(c: Config, s: Job, i: nat, e: Env)
    requires c.outBlock > 0 && c.inBlock > 0 && i < |s.slots|
    ensures Honest(s, Seek(c, s, i, e))
  {
    hide Populate;
    if !c.sparse {
      PopulateHonest(c, s, i, e);
    } else if c.inKind == File {
      var t := Skip(s, NextData(c.isData, s.pos));
      PopulateHonest(c, WithLength(t, i, ChunkLength(c, t.pos, NextHole(c.isData, t.pos))), i, e);
    }
  }

  lemma CompleteHonest(c: Config, s: Job, i: nat, res: int, e: Env)
    requires c.outBlock > 0 && c.inBlock > 0 && i < |s.slots|
    ensures Honest(s, Complete(c, s, i, res, e))
  {
    hide RoundUp, Seek;
    var sl := s.slots[i];
    var t := Drop(Land(s.(error := ErrorAfter(c, s.error, sl, res)), i), i,
        if sl.served == sl.size then Written else Lost);
    SeekHonest(c, t, i, e);
  }

  lemma {:induction false} StartCode(c: Config, o: seq<byte>, s: Job, k: nat, envs: seq<Env>)
    requires Inv(c, o, s) && Begun(c, s, k) && LastCode(s) && k <= |envs| && |envs| <= |s.slots|
    requires forall j :: k <= j < |envs| ==> s.slots[j].phase == Idle
    ensures LastCode(StartFrom(c, s, k, envs))
    decreases |envs| - k
  {
    hide Seek, Own, Data, QueueOk, Counted;
    if k < |envs| {
      SeekHonest(c, s, k, envs[k]);
      StartOne(c, o, s, k, envs);
      BeginNext(c, o, s, k, envs[k]);
      StartCode(c, o, Seek(c, s, k, envs[k]), k + 1, envs);
    }
  }

  lemma {:induction false} ExecuteCode(c: Config, o: seq<byte>, s: Job, events: seq<Event>, n: nat)
    requires Inv(c, o, s) && Once(s, n) && LastCode(s) && !c.SparseBdev() && Possible(c, s, events)
    ensures LastCode(Execute(c, s, events))
    decreases |events|
  {
    hide Own, Data, Complete;
    if events != [] {
      var v := events[0];
      StepKeeps(c, o, s, v);
      StepOnce(c, o, s, v, n);
      match v {
        case Done(i, res, e) =>
          InFlightCounted(c, s, i);
          CompleteHonest(c, s, i, res, e);
        case SeekDone(i, e) => SeekerIsHead(c, s, i);
        case _ =>
      }
      ExecuteCode(c, o, Step(c, s, v), events[1..], n);
    }
  }

  /**
   * Whenever a run has exited, its last exit code is the error on record. So a program that ends with code zero,
   * uninterrupted, has made the copy.
   */
  lemma ExitCodeIsError(c: Config, o: seq<byte>, h: History)
    requires Legal(c, o, h) && !c.SparseBdev()
    ensures LastCode(Final(c, o, h))
    ensures var s := Final(c, o, h);
            s.exits != [] && s.exits[|s.exits| - 1] == 0 && !s.interrupt && !c.sparse && c.copySize > 0 ==>
              c.End() <= |c.input| && s.out == Store(o, c.writeStart, c.input, c.readStart, c.copySize)
  {
    hide Inv, Possible, Execute, StartFrom, Begun;
    var init := Initial(c, o, h.bufs, h.interrupted);
    InitialInv(c, o, h.bufs, h.interrupted);
    InitialBegun(c, o, h);
    StartCode(c, o, init, 0, h.envs);
    StartedInv(c, o, h);
    StartedOnce(c, o, h);
    ExecuteCode(c, o, Started(c, o, h), h.events, ExitsOf(c, o, h));
    if !c.sparse && CleanExit(Final(c, o, h)) { DenseCopyCorrect(c, o, h); }
  }

  // ------------------------------------------------------------------ where the error comes from

  /** The errors that the answers in `e` may leave on record, by the kinds of devices in use. */
  function Codes(c: Config, e: Env): set<int> {
    {e.submitRc}
    + (if c.inKind == Bdev || c.outKind == Bdev then {-EINVAL} else {})
    + (if c.sparse && c.inKind == File then {e.seekDataErr, e.seekHoleErr} else {})
    + (if c.sparse && c.outKind == File then {e.endErr, e.truncErr} else {})
    + (if c.SparseBdev() then {e.nextSeekRc} else {})
  }

  /** The errors that an event may leave on record. */
  function Blamed(c: Config, v: Event): set<int> {
    match v
    case Done(_, res, e) =>
      Codes(c, e) + (if c.engine == Aio then {-ENOSPC} else if res < 0 then {res} else {})
    case SeekDone(_, e) => Codes(c, e)
    case _ => {}
  }

  lemma PopulateBlames(c: Config, s: Job, i: nat, e: Env)
    requires c.outBlock > 0 && i < |s.slots|
    ensures Populate(c, s, i, e).error in {s.error} + Codes(c, e)
  {
    hide RoundUp;
  }

  lemma SeekBlames(c: Config, s: Job, i: nat, e: Env)
    requires c.outBlock > 0 && c.inBlock > 0 && i < |s.slots|
    ensures Seek(c, s, i, e).error in {s.error} + Codes(c, e)
  {
    hide Populate;
    if !c.sparse {
      PopulateBlames(c, s, i, e);
    } else if c.inKind == File {
      var t := Skip(s, NextData(c.isData, s.pos));
      PopulateBlames(c, WithLength(t, i, ChunkLength(c, t.pos, NextHole(c.isData, t.pos))), i, e);
    }
  }

  lemma CompleteBlames(c: Config, s: Job, i: nat, res: int, e: Env)
    requires c.outBlock > 0 && c.inBlock > 0 && i < |s.slots|
    ensures Complete(c, s, i, res, e).error in {s.error} + Blamed(c, Done(i, res, e))
  {
    hide RoundUp, Seek;
    var sl := s.slots[i];
    var t := Drop(Land(s.(error := ErrorAfter(c, s.error, sl, res)), i), i,
        if sl.served == sl.size then Written else Lost);
    SeekBlames(c, t, i, e);
  }

  lemma SeekHoleDoneBlames(c: Config, s: Job, i: nat, e: Env)
    requires c.outBlock > 0 && c.SparseBdev() && c.inBlock > 0 && i < |s.slots|
    requires forall k :: 0 <= k < |s.queue| ==> s.queue[k] < |s.slots|
    ensures SeekHoleDone(c, s, i, e).error in {s.error} + Codes(c, e)
  {
    hide Populate, HoleLength;
    if s.Clean() {
      PopulateBlames(c, WithLength(Dequeue(LandSeek(s, i), i), i, HoleLength(c, s, i)), i, e);
    }
  }

  lemma StepBlames(c: Config, o: seq<byte>, s: Job, v: Event)
    requires Inv(c, o, s) && Enabled(c, s, v)
    ensures Step(c, s, v).error in {s.error} + Blamed(c, v)
  {
    hide Complete, SeekHoleDone, Codes;
    match v {
      case Done(i, res, e) => CompleteBlames(c, s, i, res, e);
      case SeekDone(i, e) =>
        SeekerIsHead(c, s, i);
        if s.slots[i].phase == SeekingHole { SeekHoleDoneBlames(c, s, i, e); } else { SeekDataDoneBlames(c, s, i, e); }
      case _ =>
    }
  }

  lemma SeekDataDoneBlames(c: Config, s: Job, i: nat, e: Env)
    requires c.SparseBdev() && c.inBlock > 0 && i < |s.slots|
    ensures SeekDataDone(c, s, i, e).error in {s.error} + Codes(c, e)
  {}

  lemma {:induction false} StartBlames(c: Config, s: Job, k: nat, envs: seq<Env>)
    requires c.outBlock > 0 && c.inBlock > 0 && k <= |envs| && |envs| <= |s.slots|
    ensures var x := StartFrom(c, s, k, envs).error;
            x == s.error || exists j :: k <= j < |envs| && x in Codes(c, envs[j])
    decreases |envs| - k
  {
    hide Seek, Codes;
    if k < |envs| {
      SeekBlames(c, s, k, envs[k]);
      StartBlames(c, Seek(c, s, k, envs[k]), k + 1, envs);
    }
  }

  lemma {:induction false} ExecuteBlames(c: Config, o: seq<byte>, s: Job, events: seq<Event>)
    requires Inv(c, o, s) && Possible(c, s, events)
    ensures var x := Execute(c, s, events).error;
            x == s.error || exists j :: 0 <= j < |events| && x in Blamed(c, events[j])
    decreases |events|
  {
    hide Own, Data, QueueOk, Counted, Step, Blamed;
    if events != [] {
      StepKeeps(c, o, s, events[0]);
      StepBlames(c, o, s, events[0]);
      ExecuteBlames(c, o, Step(c, s, events[0]), events[1..]);
      var x := Execute(c, s, events).error;
      if j :| 0 <= j < |events| - 1 && x in Blamed(c, events[1..][j]) { assert events[j + 1] == events[1..][j]; }
    }
  }

  /**
   * The error on record, and with it every exit code, is never made up: it is the code of a refused submission, a
   * failed completion, or a failed seek or truncation that some step of the run was given.
   */
  lemma ErrorWasAnswered(c: Config, o: seq<byte>, h: History)
    requires Legal(c, o, h)
    ensures var x := Final(c, o, h).error;
            || x == 0
            || (exists j :: 0 <= j < |h.envs| && x in Codes(c, h.envs[j]))
            || exists j :: 0 <= j < |h.events| && x in Blamed(c, h.events[j])
  {
    hide Inv, Possible, Execute, StartFrom, Codes, Blamed;
    StartBlames(c, Initial(c, o, h.bufs, h.interrupted), 0, h.envs);
    StartedInv(c, o, h);
    ExecuteBlames(c, o, Started(c, o, h), h.events);
  }
}
