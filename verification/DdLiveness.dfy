/** An undisturbed dense copy can always be brought to its end, exactly when its tail can be handled. */
module DdLiveness {
  import opened Bytes
  import opened DdSpec
  import opened DdInvariant
  import opened DdPrimitives
  import opened DdCalls
  import opened DdRuns
  import opened DdExit
  import opened DdTheorems
  import opened DdSafety
  import opened DdTermination
  import opened DdTail

  /** The devices hold every byte that the copy reads, populates and writes. */
  ghost predicate Ample(c: Config, o: seq<byte>) {
    Smooth(c, o) && c.End() <= |c.input| && (c.copySize % c.outBlock != 0 ==> Room(c, o))
  }

  /** A reachable state of an undisturbed run that still has I/O in flight. */
  ghost predicate Going(c: Config, o: seq<byte>, s: Job) {
    Inv(c, o, s) && s.Clean() && OnlyTails(c, s) && Once(s, 1)
  }

  // ------------------------------------------------------------------ one completion

  lemma TailEnd(c: Config, o: seq<byte>, s: Job, sl: Slot)
    requires Ample(c, o) && SlotOk(c, s, sl) && sl.Owns() && s.pos <= c.End()
    requires RoundUp(sl.length, c.outBlock) != sl.length
    ensures Place(c, sl.offset) + RoundUp(sl.length, c.outBlock) <= |o|
  {
    hide RoundUp;
    var skip := sl.offset - c.readStart;
    RoundUpAfterBlocks(skip, sl.length, c.outBlock);
    RoundUpBounds(skip + sl.length, c.outBlock, RoundUpWitness(skip + sl.length, c.outBlock));
    RoundUpBounds(sl.length, c.outBlock, RoundUpWitness(sl.length, c.outBlock));
  }

  /** The device can move all that is left of a request. */
  lemma Servable(c: Config, o: seq<byte>, s: Job, i: nat)
    requires Ample(c, o) && Own(c, s) && OutOk(c, o, s.out) && OnlyTails(c, s) && i < |s.slots|
    requires s.slots[i].Transferring()
    ensures s.slots[i].served <= s.slots[i].size && CanServe(c, s, i, s.slots[i].size - s.slots[i].served)
  {
    hide RoundUp;
    assert SlotOk(c, s, s.slots[i]);
    if s.slots[i].phase == Populating { TailEnd(c, o, s, s.slots[i]); }
  }

  /** Serving and completing slot i is possible, undisturbed, and leaves less work. */
  lemma Delivered(c: Config, o: seq<byte>, s: Job, i: nat)
    requires Ample(c, o) && Going(c, o, s) && i < |s.slots| && s.slots[i].Transferring()
    ensures var n := s.slots[i].size - s.slots[i].served;
            && n >= 0 && CanServe(c, s, i, n)
            && var t := Serve(c, s, i, n);
               && Enabled(c, t, Done(i, s.slots[i].size, OK)) && !Silent(c, t, i, s.slots[i].size)
               && t.slots[i].size == s.slots[i].size
               && Going(c, o, Complete(c, t, i, s.slots[i].size, OK))
               && Work(c, Complete(c, t, i, s.slots[i].size, OK)) < Work(c, s)
  {
    hide RoundUp, Own, Data, QueueOk, Counted, Complete, OnlyTails, Once, Work;
    OutStays(c, o, s);
    Servable(c, o, s, i);
    var size := s.slots[i].size;
    var n := size - s.slots[i].served;
    var t := Serve(c, s, i, n);
    StepKeeps(c, o, s, Move(i, n));
    ServeTails(c, s, i, n);
    StepOnce(c, o, s, Move(i, n), 1);
    OtherEventsKeepWork(c, s, Move(i, n));
    StepKeeps(c, o, t, Done(i, size, OK));
    CompleteTails(c, o, t, i, size, OK);
    StepOnce(c, o, t, Done(i, size, OK), 1);
    CompleteStaysClean(c, o, t, i, OK);
    CompletionDecreases(c, o, t, i, size, OK);
  }

  lemma OutStays(c: Config, o: seq<byte>, s: Job)
    requires Inv(c, o, s)
    ensures OutOk(c, o, s.out)
  {}

  /** A state with I/O in flight has a transfer to complete. */
  lemma SomeTransfer(c: Config, o: seq<byte>, s: Job) returns (i: nat)
    requires Inv(c, o, s) && !c.SparseBdev() && s.outstanding >= 1
    ensures i < |s.slots| && s.slots[i].Transferring()
  {
    hide Own, Data;
    NoQueueNoSeek(c, s);
    i := TotalPositive(s.slots, IoWeight);
  }

  // ------------------------------------------------------------------ whole runs

  lemma Prepend(c: Config, s: Job, v: Event, events: seq<Event>)
    requires c.outBlock > 0 && c.inBlock > 0 && Enabled(c, s, v) && !SilentEvent(c, s, v)
    requires Possible(c, Step(c, s, v), events) && Undisturbed(c, Step(c, s, v), events)
    requires v != Interrupt && (v.Done? ==> v.env.submitRc == 0 && v.res == s.slots[v.i].size)
    ensures Possible(c, s, [v] + events) && Undisturbed(c, s, [v] + events)
    ensures Execute(c, s, [v] + events) == Execute(c, Step(c, s, v), events)
  {
    hide Step;
    assert ([v] + events)[1..] == events;
  }

  /** Completing requests in any order of choice ends the run. */
  lemma {:induction false} CanFinish(c: Config, o: seq<byte>, s: Job) returns (events: seq<Event>)
    requires Ample(c, o) && Going(c, o, s)
    ensures Possible(c, s, events) && Undisturbed(c, s, events) && Execute(c, s, events).exits != []
    decreases Max(0, Work(c, s))
  {
    hide Own, Data, QueueOk, Counted, Complete, Serve, Work, Possible, Undisturbed, Execute, OnlyTails;
    events := [];
    if s.exits == [] {
      var i := SomeTransfer(c, o, s);
      Delivered(c, o, s, i);
      var size := s.slots[i].size;
      var n := size - s.slots[i].served;
      var t := Serve(c, s, i, n);
      WorkPositive(c, o, s);
      WorkPositive(c, o, Complete(c, t, i, size, OK));
      var rest := CanFinish(c, o, Complete(c, t, i, size, OK));
      Prepend(c, t, Done(i, size, OK), rest);
      Prepend(c, s, Move(i, n), [Done(i, size, OK)] + rest);
      events := [Move(i, n)] + ([Done(i, size, OK)] + rest);
    } else {
      NothingMore(c, s);
    }
  }

  lemma NothingMore(c: Config, s: Job)
    requires c.outBlock > 0 && c.inBlock > 0
    ensures Possible(c, s, []) && Undisturbed(c, s, []) && Execute(c, s, []) == s
  {}

  lemma WorkPositive(c: Config, o: seq<byte>, s: Job)
    requires Inv(c, o, s)
    ensures Work(c, s) >= 0
  {}

  lemma {:induction false} StartTails(c: Config, o: seq<byte>, s: Job, k: nat, envs: seq<Env>)
    requires Inv(c, o, s) && !c.SparseBdev() && OnlyTails(c, s) && k <= |envs| && |envs| <= |s.slots|
    requires forall j :: k <= j < |envs| ==> s.slots[j].phase == Idle
    ensures OnlyTails(c, StartFrom(c, s, k, envs))
    decreases |envs| - k
  {
    hide Seek, Data, QueueOk, Counted, RoundUp;
    if k < |envs| {
      assert SlotOk(c, s, s.slots[k]);
      SeekTails(c, s, k, envs[k]);
      StartOne(c, o, s, k, envs);
      StartTails(c, o, Seek(c, s, k, envs[k]), k + 1, envs);
    }
  }

  lemma {:induction false} ExecuteTails(c: Config, o: seq<byte>, s: Job, events: seq<Event>)
    requires Inv(c, o, s) && !c.SparseBdev() && OnlyTails(c, s) && Possible(c, s, events)
    ensures OnlyTails(c, Execute(c, s, events))
    decreases |events|
  {
    hide Complete, Own, Data, Counted, RoundUp;
    if events != [] {
      var v := events[0];
      StepKeeps(c, o, s, v);
      StepTails(c, o, s, v);
      ExecuteTails(c, o, Step(c, s, v), events[1..]);
    }
  }

  lemma StepTails(c: Config, o: seq<byte>, s: Job, v: Event)
    requires Inv(c, o, s) && !c.SparseBdev() && OnlyTails(c, s) && Enabled(c, s, v)
    ensures OnlyTails(c, Step(c, s, v))
  {
    hide Complete, Own, Data, Counted, RoundUp;
    match v {
      case Move(i, n) => ServeTails(c, s, i, n);
      case Done(i, res, e) => CompleteTails(c, o, s, i, res, e);
      case SeekDone(i, e) => SeekerIsHead(c, s, i);
      case _ =>
    }
  }

  lemma AlwaysTails(c: Config, o: seq<byte>, h: History)
    requires Legal(c, o, h) && !c.sparse
    ensures OnlyTails(c, Final(c, o, h))
  {
    hide RoundUp, Inv, StartFrom, Execute, Possible;
    var init := Initial(c, o, h.bufs, h.interrupted);
    InitialInv(c, o, h.bufs, h.interrupted);
    StartTails(c, o, init, 0, h.envs);
    StartedInv(c, o, h);
    ExecuteTails(c, o, Started(c, o, h), h.events);
  }

  lemma {:induction false} Append(c: Config, s: Job, a: seq<Event>, b: seq<Event>)
    requires c.outBlock > 0 && c.inBlock > 0 && Possible(c, s, a) && Undisturbed(c, s, a)
    requires Possible(c, Execute(c, s, a), b) && Undisturbed(c, Execute(c, s, a), b)
    ensures Possible(c, s, a + b) && Undisturbed(c, s, a + b) && Execute(c, s, a + b) == Execute(c, Execute(c, s, a), b)
    decreases |a|
  {
    hide Step, Enabled;
    if a == [] {
      assert a + b == b;
    } else {
      Append(c, Step(c, s, a[0]), a[1..], b);
      assert (a + b)[1..] == a[1..] + b;
    }
  }

  /** From every state that an undisturbed dense run can reach, it can still be brought to a clean exit. */
  lemma CanAlwaysFinish(c: Config, o: seq<byte>, h: History) returns (more: seq<Event>)
    requires Ample(c, o) && NothingFails(c, o, h) && c.depth >= 1
    ensures NothingFails(c, o, h.(events := h.events + more)) && CleanExit(Final(c, o, h.(events := h.events + more)))
  {
    hide Inv, Possible, Undisturbed, Execute, StartFrom, OnlyTails;
    var s := Final(c, o, h);
    AlwaysInv(c, o, h);
    AlwaysTails(c, o, h);
    UndisturbedIsClean(c, o, h);
    ExitCount(c, o, h);
    more := [];
    if s.exits == [] {
      more := CanFinish(c, o, s);
    } else {
      NothingMore(c, s);
    }
    Append(c, Started(c, o, h), h.events, more);
    UndisturbedIsClean(c, o, h.(events := h.events + more));
  }

  /**
   * The exact condition under which an undisturbed dense copy between devices that hold its regions can end
   * cleanly: the copy is a whole number of output blocks, or the output already holds the last whole block and
   * the tail does not go through libaio to a file.
   */
  lemma CanEndCleanlyIff(c: Config, o: seq<byte>)
    requires WellFormed(c) && !c.sparse && c.End() <= |c.input|
    requires c.outKind == Bdev ==>
               c.writeStart % c.outBlock == 0 && |o| % c.outBlock == 0 && c.writeStart + c.copySize <= |o|
    ensures (exists h :: NothingFails(c, o, h) && CleanExit(Final(c, o, h))) <==>
            (c.depth >= 1 && (c.copySize % c.outBlock == 0 || (Room(c, o) && !(c.engine == Aio && c.outKind == File))))
  {
    hide Final, Possible, Undisturbed, Started, Room;
    if c.depth == 0 {
      forall h | NothingFails(c, o, h) ensures !CleanExit(Final(c, o, h)) {
        ExitCount(c, o, h);
      }
    } else if c.copySize % c.outBlock == 0 || (Room(c, o) && !(c.engine == Aio && c.outKind == File)) {
      var h := History(seq(c.depth, _ => Zeros(c.unit)), false, seq(c.depth, _ => OK), []);
      NothingMore(c, Started(c, o, h));
      var more := CanAlwaysFinish(c, o, h);
    } else {
      forall h | NothingFails(c, o, h) ensures !CleanExit(Final(c, o, h)) {
        BadTailNeverClean(c, o, h);
      }
    }
  }
}
