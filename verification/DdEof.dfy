/** Runs in which only a populate that meets the end of its file falls short: when a clean exit is the copy. */
module DdEof {
  import opened Bytes
  import opened DdSpec
  import opened DdInvariant
  import opened DdPrimitives
  import opened DdRuns
  import opened DdTheorems
  import opened DdTail
  import opened DdLiveness
  import opened DdDamage
  import opened DdControl

  /** A populate has moved every byte that the output holds in its range. */
  ghost predicate MeetsEnd(c: Config, s: Job, v: Event)
    requires Enabled(c, s, v)
  {
    v.Done? && s.slots[v.i].phase == Populating && v.res == s.slots[v.i].served
    && v.res == Max(0, Min(s.slots[v.i].size, |s.out| - s.slots[v.i].at))
  }

  /** Nothing falls short unnoticed but populates at the end of the file. */
  ghost predicate ShortAtEndOnly(c: Config, s: Job, events: seq<Event>)
    requires c.outBlock > 0 && c.inBlock > 0
    decreases |events|
  {
    events != [] ==>
      && Enabled(c, s, events[0]) && (SilentEvent(c, s, events[0]) ==> MeetsEnd(c, s, events[0]))
      && ShortAtEndOnly(c, Step(c, s, events[0]), events[1..])
  }

  lemma {:induction false} SpoilsNothing(c: Config, s: Job, events: seq<Event>)
    requires c.outBlock > 0 && c.inBlock > 0 && ShortAtEndOnly(c, s, events)
    ensures Feasible(c, s, events) && Spoiled(c, s, events) == {}
    decreases |events|
  {
    hide Step, Enabled;
    if events != [] { SpoilsNothing(c, Step(c, s, events[0]), events[1..]); }
  }

  /** The last byte is not copied by a rounded request, or its whole block was there. */
  ghost predicate TailHeld(c: Config, o: seq<byte>)
    requires c.outBlock > 0 && c.copySize > 0
  {
    c.copySize % c.outBlock == 0 || Room(c, o) || !Wanted(c, c.copySize - 1)
  }

  /** A slot that populates holds the last byte, and that is data. */
  lemma PopulatesLast(c: Config, o: seq<byte>, s: Job, i: nat)
    requires Inv(c, o, s) && OnlyTails(c, s) && i < |s.slots| && s.slots[i].phase == Populating && c.copySize > 0
    ensures s.slots[i].offset + s.slots[i].length == c.End() && Wanted(c, c.copySize - 1)
  {
    hide RoundUp, QueueOk, Counted, BufOk, OutOk, Frame;
    assert SlotOk(c, s, s.slots[i]);
    assert s.fate[c.copySize - 1] == InFlight(i);
    assert FateOk(c, o, s.out, s.fate[c.copySize - 1], c.copySize - 1);
  }

  /** Where the whole blocks are there, no populate meets the end. */
  lemma FullPopulate(c: Config, o: seq<byte>, s: Job, v: Event)
    requires Inv(c, o, s) && OnlyTails(c, s) && Enabled(c, s, v) && MeetsEnd(c, s, v) && c.copySize > 0
    requires TailHeld(c, o)
    ensures !SilentEvent(c, s, v)
  {
    hide RoundUp, QueueOk, Counted;
    var sl := s.slots[v.i];
    assert SlotOk(c, s, sl);
    PopulatesLast(c, o, s, v.i);
    if c.copySize % c.outBlock == 0 {
      WholeChunk(c, s, sl);
    } else {
      TailLength(c, s, sl);
    }
  }

  lemma {:induction false} EndNeverMet(c: Config, o: seq<byte>, s: Job, events: seq<Event>)
    requires Inv(c, o, s) && !c.SparseBdev() && OnlyTails(c, s) && ShortAtEndOnly(c, s, events)
    requires c.copySize > 0 && TailHeld(c, o)
    ensures Possible(c, s, events) && Feasible(c, s, events) && Execute(c, s, events) == Perform(c, s, events)
    decreases |events|
  {
    hide Step, Own, Data, QueueOk, Counted, Enabled, SilentEvent, MeetsEnd, OnlyTails, TailHeld;
    if events != [] {
      var v := events[0];
      if SilentEvent(c, s, v) { FullPopulate(c, o, s, v); }
      StepKeeps(c, o, s, v);
      StepTails(c, o, s, v);
      EndNeverMet(c, o, Step(c, s, v), events[1..]);
    }
  }

  lemma StartedTails(c: Config, o: seq<byte>, h: History)
    requires Starts(c, h) && !c.SparseBdev()
    ensures OnlyTails(c, Started(c, o, h))
  {
    hide RoundUp, Inv, StartFrom;
    InitialInv(c, o, h.bufs, h.interrupted);
    StartTails(c, o, Initial(c, o, h.bufs, h.interrupted), 0, h.envs);
  }

  /**
   * The exact condition, for every dense configuration and every run in which reads and writes are full but a populate
   * may meet the end of its file: a clean exit is the copy if and only if the copy is a whole number of output blocks
   * or the output held the last whole block. Otherwise the copied bytes are still right, but the output is as long as
   * the rounded write region.
   */
  lemma CleanExitIsCopyIff(c: Config, o: seq<byte>, h: History)
    requires Starts(c, h) && !c.sparse && c.copySize > 0 && ShortAtEndOnly(c, Started(c, o, h), h.events)
    ensures Feasible(c, Started(c, o, h), h.events)
    ensures var s := Perform(c, Started(c, o, h), h.events);
            CleanExit(s) ==>
              && c.End() <= |c.input|
              && (s.out == Store(o, c.writeStart, c.input, c.readStart, c.copySize) <==>
                    c.copySize % c.outBlock == 0 || Room(c, o))
              && (forall k: nat :: k < c.copySize ==> Copied(c, s.out, k))
              && (!(c.copySize % c.outBlock == 0 || Room(c, o)) ==> |s.out| == RoundedEnd(c))
  {
    hide Feasible, Perform, Spoiled, Started, Possible, Execute, RoundUp, ShortAtEndOnly;
    var begun := Started(c, o, h);
    SpoilsNothing(c, begun, h.events);
    DamageContained(c, o, h);
    var s := Perform(c, begun, h.events);
    if CleanExit(s) {
      assert Copied(c, s.out, c.copySize - 1);
      RoundUpBounds(c.copySize, c.outBlock, DdSafety.RoundUpWitness(c.copySize, c.outBlock));
      if c.copySize % c.outBlock == 0 || Room(c, o) {
        StartedInv(c, o, h);
        StartedTails(c, o, h);
        EndNeverMet(c, o, begun, h.events);
        DenseCopyCorrect(c, o, h);
      }
    }
  }

  /** The output holds the data and is otherwise as it was, and it is not longer than it should be. */
  ghost predicate IsSparseCopy(c: Config, o: seq<byte>, out: seq<byte>)
    requires c.End() <= |c.input|
  {
    |out| <= Max(|o|, c.writeStart + c.copySize) && forall q: nat :: At(out, q) == Expected(c, o, q)
  }

  /**
   * The same for sparse copies from a file: a clean exit is right if and only if the copy is a whole number of output
   * blocks, or the output held the last whole block, or the input ends in a hole.
   */
  lemma SparseCleanExitIff(c: Config, o: seq<byte>, h: History)
    requires Starts(c, h) && c.sparse && c.inKind == File && c.copySize > 0
    requires ShortAtEndOnly(c, Started(c, o, h), h.events)
    ensures Feasible(c, Started(c, o, h), h.events) && c.End() <= |c.input|
    ensures var s := Perform(c, Started(c, o, h), h.events);
            CleanExit(s) ==> (IsSparseCopy(c, o, s.out) <==> TailHeld(c, o))
  {
    hide Feasible, Perform, Spoiled, Started, Possible, Execute, RoundUp, ShortAtEndOnly;
    hide Expected, Contained, Quiet, Sized;
    var begun := Started(c, o, h);
    SpoilsNothing(c, begun, h.events);
    DamageContained(c, o, h);
    var s := Perform(c, begun, h.events);
    if CleanExit(s) {
      RoundUpBounds(c.copySize, c.outBlock, DdSafety.RoundUpWitness(c.copySize, c.outBlock));
      if TailHeld(c, o) {
        StartedInv(c, o, h);
        StartedTails(c, o, h);
        EndNeverMet(c, o, begun, h.events);
        SparseCopyCorrect(c, o, h);
        OutBound(c, o, h);
      }
    }
  }

  lemma OutBound(c: Config, o: seq<byte>, h: History)
    requires Legal(c, o, h) && c.copySize > 0
    ensures |Final(c, o, h).out| <= Max(|o|, c.writeStart + c.copySize)
  {
    AlwaysInv(c, o, h);
  }
}
