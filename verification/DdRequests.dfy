/**
 * dd_run checks that the input block size divides the unit but not the output block size. When every request of
 * every dense run fits its buffer, for any sizes.
 */
module DdRequests {
  import opened Bytes
  import opened DdSpec
  import opened DdRuns
  import opened DdStart
  import opened DdDamage

  /** Sizes that dd_run lets through and that stay far from 2^64. */
  ghost predicate Sized(c: Config) {
    && c.unit > 0 && c.outBlock > 0 && c.inBlock > 0 && !c.sparse && c.copySize > 0
    && c.readStart + c.copySize < U64 && c.writeStart < U64
  }

  ghost predicate Launches(c: Config, h: History) {
    && |h.bufs| == |h.envs| == c.depth
    && forall k :: 0 <= k < |h.bufs| ==> |h.bufs[k]| == c.unit
  }

  /** The longest chunk of the copy. */
  function Longest(c: Config): nat {
    Min(c.unit, c.copySize)
  }

  // ------------------------------------------------------------------ how long a request can be

  ghost predicate Small(c: Config, s: Job)
    requires c.outBlock > 0
  {
    && c.readStart <= s.pos <= c.End()
    && forall i :: 0 <= i < |s.slots| ==> SmallSlot(c, s.slots[i])
  }

  ghost predicate SmallSlot(c: Config, sl: Slot)
    requires c.outBlock > 0
  {
    && |sl.buf| == c.unit && sl.length <= c.unit && !sl.Seeking()
    && (sl.Owns() ==> sl.length <= Longest(c))
    && (sl.Transferring() ==> sl.size <= RoundUp(Longest(c), c.outBlock))
  }

  lemma Rounds(length: nat, bound: nat, block: nat)
    requires block > 0 && length <= bound
    ensures length <= RoundUp(length, block) <= RoundUp(bound, block)
  {
    hide RoundUp;
    RoundUpBounds(bound, block, DdSafety.RoundUpWitness(bound, block));
    RoundUpBounds(length, block, RoundUp(bound, block));
  }

  lemma ReadSmall(c: Config, s: Job, i: nat, e: Env)
    requires c.outBlock > 0 && Small(c, s) && i < |s.slots| && s.slots[i].phase == Running
    ensures Small(c, Read(c, s, i, e))
  {
    hide RoundUp;
    Rounds(s.slots[i].length, Longest(c), c.outBlock);
  }

  lemma WriteSmall(c: Config, s: Job, i: nat, e: Env)
    requires c.outBlock > 0 && Small(c, s) && i < |s.slots| && s.slots[i].phase == Running
    ensures Small(c, Write(c, s, i, e))
  {
    hide RoundUp;
    Rounds(s.slots[i].length, Longest(c), c.outBlock);
  }

  /** The first half of dd_target_populate_buffer: the chunk is cut to what is left of the copy. */
  lemma SeekSmall(c: Config, s: Job, i: nat, e: Env)
    requires Sized(c) && Small(c, s) && i < |s.slots| && s.slots[i].phase == Idle
    ensures Small(c, Seek(c, s, i, e))
  {
    hide RoundUp, Read;
    var left := c.End() - s.pos;
    assert Sub64(c.copySize, Sub64(s.pos, c.readStart)) == left;
    var length := Min(s.slots[i].length, left);
    var t := s.(slots := s.slots[i := s.slots[i].(offset := s.pos, length := length)]);
    Rounds(length, Longest(c), c.outBlock) by { assert length <= Longest(c) by { CutIsShort(c, s, i); } }
    if length > 0 && s.Clean() { ReadSmall(c, Claim(t, i), i, e); }
  }

  lemma CutIsShort(c: Config, s: Job, i: nat)
    requires c.outBlock > 0 && Small(c, s) && i < |s.slots|
    ensures Min(s.slots[i].length, c.End() - s.pos) <= Longest(c)
  {
    assert SmallSlot(c, s.slots[i]);
  }

  lemma StepSmall(c: Config, s: Job, v: Event)
    requires Sized(c) && Small(c, s) && Enabled(c, s, v)
    ensures Small(c, Step(c, s, v))
  {
    hide RoundUp, Read, Write, Seek;
    match v {
      case Move(i, n) => MoveSmall(c, s, i, n);
      case Done(i, res, e) =>
        var sl := s.slots[i];
        var t := Land(s.(error := ErrorAfter(c, s.error, sl, res)), i);
        if sl.phase == Populating {
          ReadSmall(c, t, i, e);
        } else if sl.phase == Reading {
          WriteSmall(c, t, i, e);
        } else {
          SeekSmall(c, Drop(t, i, if sl.served == sl.size then Written else Lost), i, e);
        }
      case SeekDone(_, _) => assert false;
      case _ =>
    }
  }

  lemma MoveSmall(c: Config, s: Job, i: nat, n: nat)
    requires c.outBlock > 0 && Small(c, s) && i < |s.slots| && CanServe(c, s, i, n)
    ensures Small(c, Serve(c, s, i, n))
  {
    hide RoundUp;
    assert SmallSlot(c, s.slots[i]);
  }

  lemma {:induction false} StartSmall(c: Config, s: Job, k: nat, envs: seq<Env>)
    requires Sized(c) && Small(c, s) && k <= |envs| && |envs| <= |s.slots|
    requires forall j :: k <= j < |envs| ==> s.slots[j].phase == Idle
    ensures Small(c, StartFrom(c, s, k, envs))
    decreases |envs| - k
  {
    hide Seek, Small;
    if k < |envs| {
      SeekSmall(c, s, k, envs[k]);
      forall j | k + 1 <= j < |envs| ensures Seek(c, s, k, envs[k]).slots[j].phase == Idle {
        PopulateOnlyTouches(c, s, k, envs[k], j);
        DenseSeek(c, s, k, envs[k]);
      }
      StartSmall(c, Seek(c, s, k, envs[k]), k + 1, envs);
    }
  }

  lemma DenseSeek(c: Config, s: Job, i: nat, e: Env)
    requires Sized(c) && i < |s.slots|
    ensures Seek(c, s, i, e) == Populate(c, s, i, e)
  {}

  lemma {:induction false} PerformSmall(c: Config, s: Job, events: seq<Event>)
    requires Sized(c) && Small(c, s) && Feasible(c, s, events)
    ensures Small(c, Perform(c, s, events))
    decreases |events|
  {
    hide Step, Enabled, Small;
    if events != [] {
      StepSmall(c, s, events[0]);
      PerformSmall(c, Step(c, s, events[0]), events[1..]);
    }
  }

  // ------------------------------------------------------------------ a refused start

  /** Nothing is in flight, and an error is on record or there is no slot. */
  ghost predicate Over(s: Job) {
    (s.slots == [] || !s.Clean()) && forall i :: 0 <= i < |s.slots| ==> s.slots[i].phase == Idle
  }

  lemma FirstRefused(c: Config, o: seq<byte>, h: History)
    requires Sized(c) && Launches(c, h) && c.depth >= 1 && FirstAnswer(c, o, OK) != 0
    ensures Over(Seek(c, Initial(c, o, h.bufs, h.interrupted), 0, h.envs[0]))
  {
    hide RoundUp;
    var s := Initial(c, o, h.bufs, h.interrupted);
    assert Sub64(c.copySize, Sub64(s.pos, c.readStart)) == c.copySize && Target(c, s.pos) == c.writeStart;
  }

  lemma {:induction false} StaysOver(c: Config, s: Job, k: nat, envs: seq<Env>)
    requires Sized(c) && Over(s) && k <= |envs| && |envs| <= |s.slots|
    ensures Over(StartFrom(c, s, k, envs))
    decreases |envs| - k
  {
    if k < |envs| { StaysOver(c, Seek(c, s, k, envs[k]), k + 1, envs); }
  }

  lemma {:induction false} OverForGood(c: Config, s: Job, events: seq<Event>)
    requires Sized(c) && Over(s) && Feasible(c, s, events)
    ensures Over(Perform(c, s, events))
    decreases |events|
  {
    if events != [] { OverForGood(c, Step(c, s, events[0]), events[1..]); }
  }

  // ------------------------------------------------------------------ the exact condition

  /** Every request in flight fits the buffer of its slot. */
  ghost predicate Fits(s: Job) {
    forall i :: 0 <= i < |s.slots| && s.slots[i].Transferring() ==> s.slots[i].size <= |s.slots[i].buf|
  }

  /** Every request of every run over `o` fits. */
  ghost predicate AllFit(c: Config, o: seq<byte>)
    requires Sized(c)
  {
    forall h :: Launches(c, h) && Feasible(c, Started(c, o, h), h.events) ==>
      Fits(Perform(c, Started(c, o, h), h.events))
  }

  lemma InitialSmall(c: Config, o: seq<byte>, h: History)
    requires Sized(c) && Launches(c, h)
    ensures Small(c, Initial(c, o, h.bufs, h.interrupted))
  {
    hide RoundUp;
  }

  lemma RunFits(c: Config, o: seq<byte>, h: History)
    requires Sized(c) && Launches(c, h) && Feasible(c, Started(c, o, h), h.events)
    requires c.depth == 0 || FirstAnswer(c, o, OK) != 0 || RoundUp(Longest(c), c.outBlock) <= c.unit
    ensures Fits(Perform(c, Started(c, o, h), h.events))
  {
    hide RoundUp, Seek, Feasible, Perform, Small, FirstAnswer;
    var init := Initial(c, o, h.bufs, h.interrupted);
    InitialSmall(c, o, h);
    StartSmall(c, init, 0, h.envs);
    PerformSmall(c, Started(c, o, h), h.events);
    if c.depth == 0 {
      OverForGood(c, Started(c, o, h), h.events);
    } else if FirstAnswer(c, o, OK) != 0 {
      FirstRefused(c, o, h);
      StaysOver(c, Seek(c, init, 0, h.envs[0]), 1, h.envs);
      OverForGood(c, Started(c, o, h), h.events);
    } else {
      SmallFits(c, Perform(c, Started(c, o, h), h.events));
    }
  }

  lemma SmallFits(c: Config, s: Job)
    requires c.outBlock > 0 && Small(c, s) && RoundUp(Longest(c), c.outBlock) <= c.unit
    ensures Fits(s)
  {
    hide RoundUp;
    forall i | 0 <= i < |s.slots| && s.slots[i].Transferring() ensures s.slots[i].size <= |s.slots[i].buf| {
      assert SmallSlot(c, s.slots[i]);
    }
  }

  /** A run that has just started its first request. */
  lemma FirstOverruns(c: Config, o: seq<byte>, bufs: seq<seq<byte>>)
    requires Sized(c) && |bufs| >= 1 && |bufs[0]| == c.unit
    requires FirstAnswer(c, o, OK) == 0 && RoundUp(Longest(c), c.outBlock) > c.unit
    ensures var t := Seek(c, Initial(c, o, bufs, false), 0, OK);
            t.slots[0].Transferring() && t.slots[0].size > |t.slots[0].buf|
  {
    hide RoundUp;
    RoundUpBounds(Longest(c), c.outBlock, DdSafety.RoundUpWitness(Longest(c), c.outBlock));
    var s := Initial(c, o, bufs, false);
    assert Sub64(c.copySize, Sub64(s.pos, c.readStart)) == c.copySize && Target(c, s.pos) == c.writeStart;
  }

  lemma {:induction false} FirstStays(c: Config, s: Job, k: nat, envs: seq<Env>)
    requires Sized(c) && 1 <= k <= |envs| && |envs| <= |s.slots|
    ensures |StartFrom(c, s, k, envs).slots| == |s.slots| && StartFrom(c, s, k, envs).slots[0] == s.slots[0]
    decreases |envs| - k
  {
    hide Seek;
    if k < |envs| {
      PopulateOnlyTouches(c, s, k, envs[k], 0);
      DenseSeek(c, s, k, envs[k]);
      FirstStays(c, Seek(c, s, k, envs[k]), k + 1, envs);
    }
  }

  lemma Overrun(c: Config, o: seq<byte>) returns (h: History)
    requires Sized(c) && c.depth >= 1 && FirstAnswer(c, o, OK) == 0 && RoundUp(Longest(c), c.outBlock) > c.unit
    ensures Launches(c, h) && Feasible(c, Started(c, o, h), h.events) && !Fits(Perform(c, Started(c, o, h), h.events))
  {
    hide RoundUp, Seek, FirstAnswer;
    h := History(seq(c.depth, _ => Zeros(c.unit)), false, seq(c.depth, _ => OK), []);
    FirstOverruns(c, o, h.bufs);
    var t := Seek(c, Initial(c, o, h.bufs, false), 0, OK);
    FirstStays(c, t, 1, h.envs);
    assert Started(c, o, h) == StartFrom(c, t, 1, h.envs);
  }

  /**
   * The exact condition, for every dense copy of at least one byte, every kind of target and both engines: all requests
   * of all runs fit their buffers if and only if there is no slot, the device refuses the very first request, or the
   * longest chunk rounded up to output blocks fits in a unit.
   */
  lemma RequestsFitIff(c: Config, o: seq<byte>)
    requires Sized(c)
    ensures AllFit(c, o) <==>
            c.depth == 0 || FirstAnswer(c, o, OK) != 0 || RoundUp(Longest(c), c.outBlock) <= c.unit
  {
    hide RoundUp, FirstAnswer, Feasible, Perform, Started, Fits;
    if c.depth == 0 || FirstAnswer(c, o, OK) != 0 || RoundUp(Longest(c), c.outBlock) <= c.unit {
      forall h | Launches(c, h) && Feasible(c, Started(c, o, h), h.events)
        ensures Fits(Perform(c, Started(c, o, h), h.events))
      {
        RunFits(c, o, h);
      }
    } else {
      var h := Overrun(c, o);
    }
  }

  /** For a copy of at least one unit that is exactly that the output block size divides the unit. */
  lemma WholeUnitFitsIff(unit: nat, block: nat)
    requires block > 0
    ensures RoundUp(unit, block) <= unit <==> unit % block == 0
  {
    hide RoundUp;
    RoundUpBounds(unit, block, DdSafety.RoundUpWitness(unit, block));
  }

  /** Units of five and output blocks of three: three bytes fit although three does not divide five, four overrun. */
  lemma FitsWithoutDividing()
    ensures RoundUp(Min(5, 3), 3) <= 5 && RoundUp(Min(5, 4), 3) > 5 && 5 % 3 != 0
  {}
}
