/** Every completion makes progress, so a run makes a bounded number of I/Os. */
module DdTermination {
  import opened Bytes
  import opened DdSpec
  import opened DdInvariant
  import opened DdPrimitives
  import opened DdCalls
  import opened DdRuns
  import opened DdExit

  function Rank(sl: Slot): nat {
    match sl.phase
    case Populating => 3
    case Reading => 2
    case Writing => 1
    case _ => 0
  }

  /** Four I/O steps for every byte not yet handed out, and those the chunks in flight still need. */
  function Work(c: Config, s: Job): int {
    4 * (c.End() - s.pos) + Total(s.slots, Rank)
  }

  lemma WorkSlot(c: Config, s: Job, t: Job, i: nat)
    requires i < |s.slots| == |t.slots| && t.slots == s.slots[i := t.slots[i]]
    ensures Work(c, t) == Work(c, s) - 4 * (t.pos - s.pos) - Rank(s.slots[i]) + Rank(t.slots[i])
  {
    TotalUpdate(s.slots, i, t.slots[i], Rank);
  }

  lemma ReadWork(c: Config, s: Job, i: nat, e: Env)
    requires i < |s.slots| && s.slots[i].phase == Running
    ensures Work(c, Read(c, s, i, e)) <= Work(c, s) + 2
  {
    WorkSlot(c, s, Read(c, s, i, e), i);
  }

  lemma WriteWork(c: Config, s: Job, i: nat, e: Env)
    requires c.outBlock > 0 && i < |s.slots| && s.slots[i].phase == Running
    ensures Work(c, Write(c, s, i, e)) <= Work(c, s) + 1
  {
    WorkSlot(c, s, Write(c, s, i, e), i);
  }

  /** Claiming a chunk of at least one byte pays for its populate, read and write. */
  lemma ClaimedWork(c: Config, t: Job, i: nat, e: Env)
    requires c.outBlock > 0 && i < |t.slots| && t.slots[i].phase == Idle && t.slots[i].length > 0
    ensures Work(c, Claimed(c, t, i, e)) < Work(c, t)
  {
    var u := Claim(t, i);
    WorkSlot(c, t, u, i);
    if t.slots[i].length % c.outBlock == 0 {
      ReadWork(c, u, i, e);
    } else {
      WorkSlot(c, u, Claimed(c, t, i, e), i);
    }
  }

  lemma PopulateWork(c: Config, s: Job, i: nat, e: Env)
    requires WellFormed(c) && i < |s.slots| && s.slots[i].phase == Idle && c.readStart <= s.pos <= c.End()
    ensures Work(c, Populate(c, s, i, e)) <= Work(c, s)
  {
    hide Claimed;
    PopulateCut(c, s, i, e);
    var length := Min(s.slots[i].length, c.End() - s.pos);
    var t := s.(slots := s.slots[i := s.slots[i].(offset := s.pos, length := length)]);
    WorkSlot(c, s, t, i);
    if length != 0 && s.Clean() { ClaimedWork(c, t, i, e); }
  }

  lemma SeekWork(c: Config, s: Job, i: nat, e: Env)
    requires WellFormed(c) && !c.SparseBdev() && i < |s.slots| && s.slots[i].phase == Idle
    requires c.readStart <= s.pos <= c.End()
    ensures Work(c, Seek(c, s, i, e)) <= Work(c, s)
  {
    hide Populate;
    if !c.sparse {
      PopulateWork(c, s, i, e);
    } else if Sub64(c.copySize, Sub64(s.pos, c.readStart)) != 0 && s.Clean() {
      var d := NextData(c.isData, s.pos);
      var t := Skip(s, d);
      var u := WithLength(t, i, ChunkLength(c, t.pos, NextHole(c.isData, t.pos)));
      WorkSlot(c, t, u, i);
      if d < |c.isData| { PopulateWork(c, u, i, e); }
    }
  }

  /** Each completion strictly decreases the work left. */
  lemma CompletionDecreases(c: Config, o: seq<byte>, s: Job, i: nat, res: int, e: Env)
    requires Inv(c, o, s) && !c.SparseBdev() && i < |s.slots| && s.slots[i].Transferring()
    ensures Work(c, Complete(c, s, i, res, e)) < Work(c, s)
  {
    hide Read, Write, Seek;
    var sl := s.slots[i];
    var t := Land(s.(error := ErrorAfter(c, s.error, sl, res)), i);
    WorkSlot(c, s, t, i);
    if sl.phase == Populating {
      ReadWork(c, t, i, e);
    } else if sl.phase == Reading {
      WriteWork(c, t, i, e);
    } else {
      var f := if sl.served == sl.size then Written else Lost;
      WorkSlot(c, t, Drop(t, i, f), i);
      SeekWork(c, Drop(t, i, f), i, e);
    }
  }

  /** Bytes moving, interrupts and status reports leave it as it is. */
  lemma OtherEventsKeepWork(c: Config, s: Job, v: Event)
    requires c.outBlock > 0 && c.inBlock > 0 && Enabled(c, s, v) && !v.Done? && !v.SeekDone?
    ensures Work(c, Step(c, s, v)) == Work(c, s)
  {
    if v.Move? { WorkSlot(c, s, Step(c, s, v), v.i); }
  }

  function Completions(events: seq<Event>): nat {
    if events == [] then 0 else (if events[0].Done? then 1 else 0) + Completions(events[1..])
  }

  lemma {:induction false} ExecuteWork(c: Config, o: seq<byte>, s: Job, events: seq<Event>)
    requires Inv(c, o, s) && !c.SparseBdev() && Possible(c, s, events)
    ensures Completions(events) + Work(c, Execute(c, s, events)) <= Work(c, s)
    decreases |events|
  {
    if events != [] {
      var v := events[0];
      StepKeeps(c, o, s, v);
      match v {
        case Done(i, res, e) => CompletionDecreases(c, o, s, i, res, e);
        case SeekDone(i, e) => SeekerIsHead(c, s, i);
        case _ => OtherEventsKeepWork(c, s, v);
      }
      ExecuteWork(c, o, Step(c, s, v), events[1..]);
    }
  }

  lemma {:induction false} StartWork(c: Config, o: seq<byte>, s: Job, k: nat, envs: seq<Env>)
    requires Inv(c, o, s) && !c.SparseBdev() && k <= |envs| && |envs| <= |s.slots|
    requires forall j :: k <= j < |envs| ==> s.slots[j].phase == Idle
    ensures Work(c, StartFrom(c, s, k, envs)) <= Work(c, s)
    decreases |envs| - k
  {
    hide Seek;
    if k < |envs| {
      StartOne(c, o, s, k, envs);
      SeekWork(c, s, k, envs[k]);
      StartWork(c, o, Seek(c, s, k, envs[k]), k + 1, envs);
    }
  }

  /** However the events are ordered, a run makes at most four I/O completions per byte of the copy. */
  lemma RunsAreBounded(c: Config, o: seq<byte>, h: History)
    requires Legal(c, o, h) && !c.SparseBdev()
    ensures Completions(h.events) <= 4 * c.copySize
  {
    var init := Initial(c, o, h.bufs, h.interrupted);
    InitialInv(c, o, h.bufs, h.interrupted);
    TotalZero(init.slots, Rank);
    StartWork(c, o, init, 0, h.envs);
    StartedInv(c, o, h);
    ExecuteWork(c, o, Started(c, o, h), h.events);
    AlwaysInv(c, o, h);
  }
}
