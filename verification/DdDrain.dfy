/** An error or an interrupt stops a copy: it is on record from then on, and nothing new is started. */
module DdDrain {
  import opened Bytes
  import opened DdSpec
  import opened DdInvariant
  import opened DdRuns
  import opened DdDamage

  // ------------------------------------------------------------------ an interrupt is recorded

  lemma PopulateInterrupt(c: Config, s: Job, i: nat, e: Env)
    requires c.outBlock > 0 && i < |s.slots|
    ensures Populate(c, s, i, e).interrupt == s.interrupt
  {
    hide RoundUp;
  }

  lemma SeekInterrupt(c: Config, s: Job, i: nat, e: Env)
    requires c.outBlock > 0 && c.inBlock > 0 && i < |s.slots|
    ensures Seek(c, s, i, e).interrupt == s.interrupt
  {
    hide Populate;
    if !c.sparse {
      PopulateInterrupt(c, s, i, e);
    } else if c.inKind == File {
      var t := Skip(s, NextData(c.isData, s.pos));
      PopulateInterrupt(c, WithLength(t, i, ChunkLength(c, t.pos, NextHole(c.isData, t.pos))), i, e);
    }
  }

  lemma CompleteInterrupt(c: Config, s: Job, i: nat, res: int, e: Env)
    requires c.outBlock > 0 && c.inBlock > 0 && i < |s.slots|
    ensures Complete(c, s, i, res, e).interrupt == s.interrupt
  {
    hide RoundUp, Seek;
    var sl := s.slots[i];
    var t := Drop(Land(s.(error := ErrorAfter(c, s.error, sl, res)), i), i,
        if sl.served == sl.size then Written else Lost);
    SeekInterrupt(c, t, i, e);
  }

  lemma SeekHoleDoneInterrupt(c: Config, s: Job, i: nat, e: Env)
    requires c.outBlock > 0 && c.inBlock > 0 && i < |s.slots|
    requires forall k :: 0 <= k < |s.queue| ==> s.queue[k] < |s.slots|
    ensures SeekHoleDone(c, s, i, e).interrupt == s.interrupt
  {
    hide Populate, HoleLength;
    if s.Clean() {
      PopulateInterrupt(c, WithLength(Dequeue(LandSeek(s, i), i), i, HoleLength(c, s, i)), i, e);
    }
  }

  lemma StepInterrupt(c: Config, s: Job, v: Event)
    requires c.outBlock > 0 && c.inBlock > 0 && Enabled(c, s, v)
    ensures Step(c, s, v).interrupt <==> s.interrupt || v == Interrupt
  {
    hide Complete, SeekHoleDone;
    match v {
      case Done(i, res, e) => CompleteInterrupt(c, s, i, res, e);
      case SeekDone(i, e) => if s.slots[i].phase != SeekingData { SeekHoleDoneInterrupt(c, s, i, e); }
      case _ =>
    }
  }

  lemma {:induction false} StartInterrupt(c: Config, s: Job, k: nat, envs: seq<Env>)
    requires c.outBlock > 0 && c.inBlock > 0 && k <= |envs| && |envs| <= |s.slots|
    ensures StartFrom(c, s, k, envs).interrupt == s.interrupt
    decreases |envs| - k
  {
    hide Seek;
    if k < |envs| {
      SeekInterrupt(c, s, k, envs[k]);
      StartInterrupt(c, Seek(c, s, k, envs[k]), k + 1, envs);
    }
  }

  lemma {:induction false} PerformInterrupt(c: Config, s: Job, events: seq<Event>)
    requires c.outBlock > 0 && c.inBlock > 0 && Feasible(c, s, events)
    ensures Perform(c, s, events).interrupt <==> s.interrupt || Interrupt in events
    decreases |events|
  {
    hide Step, Enabled;
    if events != [] {
      StepInterrupt(c, s, events[0]);
      PerformInterrupt(c, Step(c, s, events[0]), events[1..]);
      assert events == [events[0]] + events[1..];
    }
  }

  /** In every run, whatever the devices do, the flag says exactly whether the program has been interrupted. */
  lemma InterruptRecorded(c: Config, o: seq<byte>, h: History)
    requires Starts(c, h) && Feasible(c, Started(c, o, h), h.events)
    ensures Perform(c, Started(c, o, h), h.events).interrupt <==> h.interrupted || Interrupt in h.events
  {
    hide Feasible, Perform, StartFrom;
    StartInterrupt(c, Initial(c, o, h.bufs, h.interrupted), 0, h.envs);
    PerformInterrupt(c, Started(c, o, h), h.events);
  }

  // ------------------------------------------------------------------ after it nothing new starts

  /** The slot has its I/O in flight. */
  predicate Busy(sl: Slot) {
    sl.Transferring() || sl.Seeking()
  }

  /** Both slots have the same request in flight, perhaps served further. */
  predicate SameRequest(a: Slot, b: Slot) {
    a.phase == b.phase && a.offset == b.offset && a.length == b.length && a.at == b.at && a.size == b.size
  }

  /** From `s` to `t` no byte is taken from the input and no I/O is started, and `n` of those in flight come back. */
  ghost predicate Drains(s: Job, t: Job, n: nat) {
    && !t.Clean() && t.pos == s.pos && |t.slots| == |s.slots|
    && (forall i :: 0 <= i < |s.slots| && Busy(t.slots[i]) ==> SameRequest(s.slots[i], t.slots[i]))
    && Total(t.slots, IoWeight) + n == Total(s.slots, IoWeight)
  }

  /** A completion, of a transfer or a seek. */
  function ComesBack(v: Event): nat {
    if v.Done? || v.SeekDone? then 1 else 0
  }

  function ComeBack(events: seq<Event>): nat {
    if events == [] then 0 else ComesBack(events[0]) + ComeBack(events[1..])
  }

  lemma PopulateStops(c: Config, s: Job, i: nat, e: Env)
    requires c.outBlock > 0 && i < |s.slots| && !s.Clean()
    ensures var t := Populate(c, s, i, e);
            && !t.Clean() && t.pos == s.pos && |t.slots| == |s.slots| && t.slots == s.slots[i := t.slots[i]]
            && t.slots[i].phase == s.slots[i].phase
  {}

  lemma CompleteStops(c: Config, s: Job, i: nat, res: int, e: Env)
    requires c.outBlock > 0 && c.inBlock > 0 && i < |s.slots| && !s.Clean()
    ensures var t := Complete(c, s, i, res, e);
            && !t.Clean() && t.pos == s.pos && |t.slots| == |s.slots| && t.slots == s.slots[i := t.slots[i]]
            && t.slots[i].phase == Idle
  {
    hide Populate;
    var sl := s.slots[i];
    var t := Drop(Land(s.(error := ErrorAfter(c, s.error, sl, res)), i), i,
        if sl.served == sl.size then Written else Lost);
    PopulateStops(c, t, i, e);
  }

  lemma StepDrains(c: Config, s: Job, v: Event)
    requires c.outBlock > 0 && c.inBlock > 0 && Enabled(c, s, v) && !s.Clean()
    ensures Drains(s, Step(c, s, v), ComesBack(v))
  {
    hide Complete, Total;
    var t := Step(c, s, v);
    match v {
      case Move(i, n) => TotalUpdate(s.slots, i, t.slots[i], IoWeight);
      case Done(i, res, e) =>
        CompleteStops(c, s, i, res, e);
        TotalUpdate(s.slots, i, t.slots[i], IoWeight);
      case SeekDone(i, e) =>
        assert t.slots == s.slots[i := s.slots[i].(phase := Idle)];
        TotalUpdate(s.slots, i, t.slots[i], IoWeight);
      case _ =>
    }
  }

  lemma {:induction false} PerformDrains(c: Config, s: Job, events: seq<Event>)
    requires c.outBlock > 0 && c.inBlock > 0 && Feasible(c, s, events) && !s.Clean()
    ensures Drains(s, Perform(c, s, events), ComeBack(events))
    decreases |events|
  {
    hide Step, Enabled, Total;
    if events != [] {
      StepDrains(c, s, events[0]);
      PerformDrains(c, Step(c, s, events[0]), events[1..]);
    }
  }

  lemma {:induction false} PerformSplit(c: Config, s: Job, a: seq<Event>, b: seq<Event>)
    requires c.outBlock > 0 && c.inBlock > 0 && Feasible(c, s, a + b)
    ensures Feasible(c, s, a) && Feasible(c, Perform(c, s, a), b)
    ensures Perform(c, s, a + b) == Perform(c, Perform(c, s, a), b)
    decreases |a|
  {
    hide Step, Enabled;
    if a == [] {
      assert a + b == b;
    } else {
      assert (a + b)[1..] == a[1..] + b;
      PerformSplit(c, Step(c, s, a[0]), a[1..], b);
    }
  }

  /**
   * Once a run has been interrupted, or has an error on record, in any mode and whatever the devices do: the input
   * position stands still, every request in flight is one that was in flight at that moment, and each completion
   * leaves one fewer. So at most as many completions follow as requests were in flight.
   */
  lemma AbortDrains(c: Config, o: seq<byte>, h: History, more: seq<Event>)
    requires Starts(c, h) && Feasible(c, Started(c, o, h), h.events + more)
    ensures Feasible(c, Started(c, o, h), h.events)
    ensures var s := Perform(c, Started(c, o, h), h.events);
            h.interrupted || Interrupt in h.events || s.error != 0 ==>
              Drains(s, Perform(c, Started(c, o, h), h.events + more), ComeBack(more))
  {
    hide Feasible, Perform, StartFrom, Drains;
    PerformSplit(c, Started(c, o, h), h.events, more);
    InterruptRecorded(c, o, h);
    var s := Perform(c, Started(c, o, h), h.events);
    if !s.Clean() { PerformDrains(c, s, more); }
  }
}
