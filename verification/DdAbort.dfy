/**
 * Interrupting a sparse copy from a block device. The callbacks of its seeks do not give back their share of
 * `outstanding` once an interrupt or an error is on record, so a run interrupted during a seek never exits.
 */
module DdAbort {
  import opened Bytes
  import opened DdSpec
  import opened DdInvariant
  import opened DdDamage

  function TransferWeight(sl: Slot): nat {
    if sl.Transferring() then 1 else 0
  }

  /** The run is aborted and has not exited. */
  ghost predicate Aborted(c: Config, s: Job) {
    WellFormed(c) && c.SparseBdev() && !s.Clean() && s.exits == []
  }

  // ------------------------------------------------------------------ what an aborted run does

  /** A transfer that comes back gives up its chunk; the last one exits. */
  lemma DoneAborted(c: Config, s: Job, i: nat, res: int, e: Env)
    requires Aborted(c, s) && i < |s.slots| && s.slots[i].Transferring()
    ensures var t := Complete(c, s, i, res, e);
            && !t.Clean() && |t.slots| == |s.slots| && t.outstanding == s.outstanding - 1
            && t.slots == s.slots[i := s.slots[i].(phase := Idle)]
            && (t.exits == [] <==> t.outstanding != 0)
  {}

  /** A seek that comes back leaves the queue and nothing else. */
  lemma SeekDoneAborted(c: Config, s: Job, i: nat, e: Env)
    requires Aborted(c, s) && Enabled(c, s, SeekDone(i, e)) && s.outstanding != 0
    ensures var t := Step(c, s, SeekDone(i, e));
            Aborted(c, t) && t.outstanding == s.outstanding && t.slots == s.slots[i := s.slots[i].(phase := Idle)]
  {}

  // ------------------------------------------------------------------ a seek in flight

  /** More is counted than the transfers in flight will give back. */
  ghost predicate Leaky(c: Config, s: Job) {
    Aborted(c, s) && s.outstanding > Total(s.slots, TransferWeight)
  }

  lemma StepLeaky(c: Config, s: Job, v: Event)
    requires Leaky(c, s) && Enabled(c, s, v)
    ensures Leaky(c, Step(c, s, v))
  {
    hide Complete;
    match v {
      case Move(i, n) => TotalUpdate(s.slots, i, Step(c, s, v).slots[i], TransferWeight);
      case Done(i, res, e) =>
        DoneAborted(c, s, i, res, e);
        TotalUpdate(s.slots, i, s.slots[i].(phase := Idle), TransferWeight);
        TotalAtLeast(s.slots, i, TransferWeight);
      case SeekDone(i, e) =>
        SeekDoneAborted(c, s, i, e);
        TotalUpdate(s.slots, i, s.slots[i].(phase := Idle), TransferWeight);
      case _ =>
    }
  }

  lemma {:induction false} LeakyForGood(c: Config, s: Job, events: seq<Event>)
    requires Leaky(c, s) && Feasible(c, s, events)
    ensures Leaky(c, Perform(c, s, events))
    decreases |events|
  {
    hide Step, Enabled, Total;
    if events != [] {
      StepLeaky(c, s, events[0]);
      LeakyForGood(c, Step(c, s, events[0]), events[1..]);
    }
  }

  // ------------------------------------------------------------------ no seek in flight

  /** Only transfers are in flight, and all that is counted. */
  ghost predicate Draining(c: Config, s: Job) {
    && Aborted(c, s) && s.outstanding == Total(s.slots, TransferWeight)
    && forall i :: 0 <= i < |s.slots| ==> !s.slots[i].Seeking()
  }

  /** Letting the transfers fail one by one drains the run. */
  lemma {:induction false} Drains(c: Config, s: Job) returns (events: seq<Event>)
    requires Draining(c, s) && s.outstanding >= 1
    ensures Feasible(c, s, events) && Perform(c, s, events).exits != []
    decreases s.outstanding
  {
    hide Complete, Aborted;
    assert WellFormed(c) && c.SparseBdev() by { AbortedMeans(c, s); }
    var i := TotalPositive(s.slots, TransferWeight);
    var v := Done(i, -1, OK);
    var t := Step(c, s, v);
    DoneAborted(c, s, i, -1, OK);
    TotalUpdate(s.slots, i, s.slots[i].(phase := Idle), TransferWeight);
    events := [];
    if t.exits == [] {
      assert Aborted(c, t) by { StillAborted(c, s, t); }
      assert forall j :: 0 <= j < |t.slots| ==> !t.slots[j].Seeking();
      events := Drains(c, t);
    }
    Follows(c, s, v, events);
    events := [v] + events;
  }

  lemma AbortedMeans(c: Config, s: Job)
    requires Aborted(c, s)
    ensures WellFormed(c) && c.SparseBdev()
  {}

  lemma StillAborted(c: Config, s: Job, t: Job)
    requires Aborted(c, s) && !t.Clean() && t.exits == []
    ensures Aborted(c, t)
  {}

  lemma Follows(c: Config, s: Job, v: Event, events: seq<Event>)
    requires c.outBlock > 0 && c.inBlock > 0 && Enabled(c, s, v) && Feasible(c, Step(c, s, v), events)
    ensures Feasible(c, s, [v] + events) && Perform(c, s, [v] + events) == Perform(c, Step(c, s, v), events)
  {
    hide Step, Enabled;
    assert ([v] + events)[1..] == events;
  }

  lemma {:induction false} IdleForGood(c: Config, s: Job, events: seq<Event>)
    requires c.outBlock > 0 && c.inBlock > 0 && Feasible(c, s, events) && s.exits == []
    requires forall i :: 0 <= i < |s.slots| ==> !s.slots[i].Transferring() && !s.slots[i].Seeking()
    ensures Perform(c, s, events).exits == []
    decreases |events|
  {
    if events != [] { IdleForGood(c, Step(c, s, events[0]), events[1..]); }
  }

  // ------------------------------------------------------------------ the exact condition

  /** With no seek in flight the two counts agree. */
  lemma {:induction false} SameTotals(slots: seq<Slot>)
    ensures Total(slots, IoWeight) >= Total(slots, TransferWeight)
    ensures (forall i :: 0 <= i < |slots| ==> !slots[i].Seeking()) ==>
              Total(slots, IoWeight) == Total(slots, TransferWeight)
  {
    if slots != [] { SameTotals(slots[..|slots| - 1]); }
  }

  lemma {:induction false} SeekCounts(slots: seq<Slot>, i: nat)
    requires i < |slots| && slots[i].Seeking()
    ensures Total(slots, IoWeight) > Total(slots, TransferWeight)
  {
    var n := |slots| - 1;
    if i < n { SeekCounts(slots[..n], i); } else { SameTotals(slots[..n]); }
  }

  /** Some way of going on after an interrupt ends in an exit. */
  ghost predicate CanExit(c: Config, s: Job)
    requires c.outBlock > 0 && c.inBlock > 0
  {
    exists events :: Feasible(c, s, events) && Perform(c, s, events).exits != []
  }

  /**
   * From any state that a sparse bdev copy reaches without an error, an interrupt can still lead to an exit if and only
   * if a transfer is in flight at that moment and no seek is. Otherwise the program never exits, whatever happens.
   */
  lemma InterruptExitsIff(c: Config, o: seq<byte>, s: Job)
    requires Inv(c, o, s) && c.SparseBdev() && s.Clean() && s.exits == []
    ensures CanExit(c, s.(interrupt := true)) <==> NoSeek(s) && s.outstanding >= 1
  {
    hide Own, Data, QueueOk, Feasible, Perform;
    var t := s.(interrupt := true);
    if !NoSeek(s) {
      var i :| 0 <= i < |s.slots| && s.slots[i].Seeking();
      SeekCounts(s.slots, i);
      forall events | Feasible(c, t, events) ensures Perform(c, t, events).exits == [] {
        LeakyForGood(c, t, events);
      }
    } else {
      SameTotals(s.slots);
      if s.outstanding >= 1 {
        var events := Drains(c, t);
      } else {
        NoneBusy(s.slots);
        forall events | Feasible(c, t, events) ensures Perform(c, t, events).exits == [] {
          IdleForGood(c, t, events);
        }
      }
    }
  }

  lemma NoneBusy(slots: seq<Slot>)
    requires Total(slots, IoWeight) <= 0
    ensures forall i :: 0 <= i < |slots| ==> !slots[i].Transferring() && !slots[i].Seeking()
  {
    forall i | 0 <= i < |slots| ensures !slots[i].Transferring() && !slots[i].Seeking() {
      TotalAtLeast(slots, i, IoWeight);
    }
  }
}
