/** When a sparse copy from a block device can stop for good without exiting: exactly when, over all its runs. */
module DdStall {
  import opened Bytes
  import opened DdSpec
  import opened DdInvariant
  import opened DdPrimitives
  import opened DdCalls
  import opened DdRuns
  import opened DdControl
  import opened DdExit
  import opened DdStart

  /** No transfer and no seek is in flight. */
  ghost predicate Dead(s: Job) {
    forall i :: 0 <= i < |s.slots| ==> !s.slots[i].Transferring() && !s.slots[i].Seeking()
  }

  /** The read region holds data but ends in a hole, and there are at least three slots. */
  ghost predicate StallShape(c: Config) {
    && c.depth >= 3 && c.copySize > 0 && !IsData(c, c.End() - 1)
    && exists p: nat :: c.readStart <= p < c.End() && IsData(c, p)
  }

  // ------------------------------------------------------------------ other copies never stall

  ghost predicate HeadSeeks(c: Config, s: Job) {
    && (s.queue != [] && s.pos < c.End() ==> s.queue[0] < |s.slots| && s.slots[s.queue[0]].Seeking())
    && forall i :: 0 <= i < |s.slots| && s.slots[i].Seeking() ==> s.pos < c.End()
  }

  /** A run that goes on without error has an I/O in flight, and a queue that still matters has its head seeking. */
  ghost predicate Awake(c: Config, s: Job) {
    s.Clean() && s.exits == [] ==> s.outstanding >= 1 && HeadSeeks(c, s)
  }

  lemma SeekAwake(c: Config, s: Job, i: nat, e: Env)
    requires WellFormed(c) && c.SparseBdev() && PosOk(c, s) && QueueOk(c, s) && Counted(c, s) && HeadSeeks(c, s)
    requires i < |s.slots| && s.slots[i].phase == Idle
    ensures Awake(c, Seek(c, s, i, e))
  {
    NoWrap(c, s.pos);
    if s.Clean() {
      if s.queue != [] && s.pos < c.End() { InFlightCounted(c, s, s.queue[0]); }
    }
  }

  lemma CompleteAwake(c: Config, o: seq<byte>, s: Job, i: nat, res: int, e: Env)
    requires Inv(c, o, s) && c.SparseBdev() && Awake(c, s) && s.exits == [] && Enabled(c, s, Done(i, res, e))
    ensures Awake(c, Complete(c, s, i, res, e))
  {
    hide RoundUp, Seek, Data, Own, QueueOk, Read, Write;
    var sl := s.slots[i];
    var t := Land(s.(error := ErrorAfter(c, s.error, sl, res)), i);
    if t.Clean() {
      LandedHeads(c, o, s, i, res);
      if sl.phase == Writing {
        var f := if sl.served == sl.size then Written else Lost;
        WrittenDropKeeps(c, o, s, i, res);
        DroppedHeads(c, t, i, f);
        PosIs(c, Drop(t, i, f));
        SeekAwake(c, Drop(t, i, f), i, e);
      } else {
        FilledHeads(c, t, i, e);
      }
    } else {
      ErrorStays(c, t, i, e);
    }
  }

  lemma LandedHeads(c: Config, o: seq<byte>, s: Job, i: nat, res: int)
    requires Inv(c, o, s) && HeadSeeks(c, s) && i < |s.slots| && s.slots[i].Transferring()
    ensures var t := Land(s.(error := ErrorAfter(c, s.error, s.slots[i], res)), i); Inv(c, o, t) && HeadSeeks(c, t)
  {
    hide Own, Data, Counted;
    LandedKeeps(c, o, s, i, res);
  }

  lemma DroppedHeads(c: Config, s: Job, i: nat, f: Fate)
    requires HeadSeeks(c, s) && i < |s.slots| && s.slots[i].phase == Running
    ensures HeadSeeks(c, Drop(s, i, f))
  {}

  lemma FilledHeads(c: Config, s: Job, i: nat, e: Env)
    requires c.outBlock > 0 && HeadSeeks(c, s) && s.outstanding >= 0 && i < |s.slots| && s.slots[i].phase == Running
    ensures Awake(c, Read(c, s, i, e)) && Awake(c, Write(c, s, i, e))
  {
    hide RoundUp;
  }

  lemma ErrorStays(c: Config, s: Job, i: nat, e: Env)
    requires WellFormed(c) && i < |s.slots| && !s.Clean()
    ensures !Read(c, s, i, e).Clean() && !Write(c, s, i, e).Clean()
    ensures forall f :: !Seek(c, Drop(s, i, f), i, e).Clean()
  {}

  /** What a transfer carries is data. */
  lemma TransferIsData(c: Config, o: seq<byte>, s: Job, j: nat)
    requires WellFormed(c) && c.sparse && Own(c, s) && Data(c, o, s) && j < |s.slots| && s.slots[j].Transferring()
    ensures c.readStart <= s.slots[j].offset < c.End() && IsData(c, s.slots[j].offset)
  {
    hide RoundUp, BufOk, OutOk, Frame;
    assert SlotOk(c, s, s.slots[j]);
    var k := s.slots[j].offset - c.readStart;
    assert s.fate[k] == InFlight(j);
    assert FateOk(c, o, s.out, s.fate[k], k);
  }

  /** With two slots, one seeking and one transferring, nobody else waits. */
  lemma OnlySeekerWaits(c: Config, s: Job, i: nat, j: nat)
    requires WellFormed(c) && QueueOk(c, s) && |s.slots| <= 2 && i < |s.slots| && j < |s.slots| && i != j
    requires s.slots[i].Seeking() && s.slots[j].Transferring()
    ensures s.queue == [i]
  {
    SeekerIsHead(c, s, i);
    if |s.queue| > 1 {
      SecondWaits(c, s);
      assert false;
    }
  }

  lemma SecondWaits(c: Config, s: Job)
    requires WellFormed(c) && QueueOk(c, s) && |s.queue| > 1
    ensures s.queue[1] < |s.slots| && Waiting(s.slots[s.queue[1]]) && s.queue[1] != s.queue[0]
  {}

  /** Unless the copy has the stalling shape, a miss while a transfer is in flight leaves the queue empty. */
  lemma MissEmptiesQueue(c: Config, o: seq<byte>, s: Job, i: nat)
    requires Inv(c, o, s) && c.SparseBdev() && !StallShape(c) && |s.slots| == c.depth && s.Clean()
    requires i < |s.slots| && s.slots[i].phase == SeekingData && s.pos < c.End()
    requires NextData(c.isData, s.pos) >= |c.isData| && s.outstanding >= 2
    ensures s.queue == [i]
  {
    hide Own, Data, QueueOk;
    SeekerIsHead(c, s, i);
    var j := Other(s.slots, i);
    TransferIsData(c, o, s, j);
    assert !IsData(c, c.End() - 1);
    OnlySeekerWaits(c, s, i, j);
  }

  /** Two I/Os in flight belong to two slots. */
  lemma Other(slots: seq<Slot>, i: nat) returns (j: nat)
    requires i < |slots| && IoWeight(slots[i]) == 1 && Total(slots, IoWeight) >= 2
    ensures j < |slots| && j != i && IoWeight(slots[j]) == 1
  {
    if forall k :: 0 <= k < |slots| && k != i ==> IoWeight(slots[k]) == 0 {
      var idle := slots[i].(phase := Idle);
      TotalUpdate(slots, i, idle, IoWeight);
      TotalZero(slots[i := idle], IoWeight);
      assert false;
    }
    j :| 0 <= j < |slots| && j != i && IoWeight(slots[j]) != 0;
  }

  lemma SeekDataAwake(c: Config, o: seq<byte>, s: Job, i: nat, e: Env)
    requires Inv(c, o, s) && c.SparseBdev() && Awake(c, s) && s.exits == [] && !StallShape(c) && |s.slots| == c.depth
    requires i < |s.slots| && s.slots[i].phase == SeekingData
    ensures Awake(c, SeekDataDone(c, s, i, e))
  {
    hide Own, Data, RoundDown, StallShape;
    SeekerIsHead(c, s, i);
    if s.Clean() {
      DataAnswer(c, s, s.slots[i].at) by { assert PosOk(c, s) by { PosIs(c, s); } }
      var d := NextData(c.isData, s.slots[i].at * c.inBlock);
      if d >= |c.isData| && s.outstanding >= 2 { MissEmptiesQueue(c, o, s, i); }
      SoughtAwake(c, s, i, d < |c.isData|, RoundDown(d, c.inBlock), e);
    }
  }

  lemma PosIs(c: Config, s: Job)
    requires WellFormed(c) && Own(c, s)
    ensures PosOk(c, s)
  {}

  /** The head has its answer: it seeks the hole, or leaves the queue and perhaps ends the run. */
  lemma SoughtAwake(c: Config, s: Job, i: nat, found: bool, p: nat, e: Env)
    requires c.inBlock > 0 && i < |s.slots| && s.Clean() && s.exits == [] && s.outstanding >= 1
    requires s.queue != [] && s.queue[0] == i && forall j :: 0 <= j < |s.slots| && j != i ==> !s.slots[j].Seeking()
    requires found ==> p < c.End()
    requires !found && s.outstanding >= 2 ==> s.queue == [i]
    ensures Awake(c, DataSought(c, s, i, found, p, e))
  {}

  lemma PopulateAwake(c: Config, s: Job, i: nat, e: Env)
    requires WellFormed(c) && i < |s.slots| && s.outstanding >= 0 && c.readStart <= s.pos < c.End()
    requires s.slots[i].length > 0 && s.Clean()
    ensures Populate(c, s, i, e).Clean() ==>
              Populate(c, s, i, e).outstanding >= 1 && Populate(c, s, i, e).exits == s.exits
  {
    PopulateCut(c, s, i, e);
  }

  lemma NextSeekAwake(c: Config, s: Job, e: Env)
    requires WellFormed(c) && c.SparseBdev() && NoSeek(s) && forall k :: 0 <= k < |s.queue| ==> s.queue[k] < |s.slots|
    requires s.Clean() ==> s.outstanding >= 1
    ensures Awake(c, NextSeek(c, s, e))
  {}

  lemma SeekHoleAwake(c: Config, o: seq<byte>, s: Job, i: nat, e: Env)
    requires Inv(c, o, s) && c.SparseBdev() && Awake(c, s) && s.exits == []
    requires i < |s.slots| && s.slots[i].phase == SeekingHole
    ensures Awake(c, SeekHoleDone(c, s, i, e))
  {
    hide Data, Populate, NextSeek, HoleLength, SlotOk, Partition, Counted, Fits;
    if s.Clean() {
      HoleDone(c, o, s, i);
      HoleLengthPositive(c, s, i);
      var t := WithLength(Dequeue(LandSeek(s, i), i), i, HoleLength(c, s, i));
      PopulateNoSeek(c, t, i, e);
      PopulateAwake(c, t, i, e);
      NextSeekAwake(c, Populate(c, t, i, e), e);
    }
  }

  lemma StepAwake(c: Config, o: seq<byte>, s: Job, v: Event)
    requires Inv(c, o, s) && c.SparseBdev() && Awake(c, s) && !StallShape(c) && |s.slots| == c.depth && Enabled(c, s, v)
    ensures Awake(c, Step(c, s, v))
  {
    hide Own, Data, StallShape, Complete, SeekDataDone, SeekHoleDone;
    ExitsGrow(c, s, v);
    if s.exits == [] {
      match v {
        case Done(i, res, e) => CompleteAwake(c, o, s, i, res, e);
        case SeekDone(i, e) =>
          if s.slots[i].phase == SeekingData { SeekDataAwake(c, o, s, i, e); } else { SeekHoleAwake(c, o, s, i, e); }
        case _ =>
      }
    }
  }

  /** Exits are only added, and slots neither come nor go. */
  ghost predicate Grows(s: Job, t: Job) {
    s.exits <= t.exits && |t.slots| == |s.slots|
  }

  lemma ExitsGrow(c: Config, s: Job, v: Event)
    requires c.outBlock > 0 && c.inBlock > 0 && Enabled(c, s, v)
    ensures Grows(s, Step(c, s, v))
  {
    hide Complete, HoleLength, HoleSought, DataSought;
    match v {
      case Done(i, res, e) => CompleteGrows(c, s, i, res, e);
      case SeekDone(i, e) =>
        if s.slots[i].phase == SeekingData {
          var d := NextData(c.isData, s.slots[i].at * c.inBlock);
          DataGrows(c, s, i, d < |c.isData|, RoundDown(d, c.inBlock), e);
        } else {
          HoleGrows(c, s, i, HoleLength(c, s, i), e);
        }
      case _ =>
    }
  }

  lemma CompleteGrows(c: Config, s: Job, i: nat, res: int, e: Env)
    requires c.outBlock > 0 && c.inBlock > 0 && i < |s.slots|
    ensures Grows(s, Complete(c, s, i, res, e))
  {
    hide Seek, RoundUp;
    var sl := s.slots[i];
    var t := Land(s.(error := ErrorAfter(c, s.error, sl, res)), i);
    SeekNeverLowers(c, Drop(t, i, if sl.served == sl.size then Written else Lost), i, e);
  }

  lemma DataGrows(c: Config, s: Job, i: nat, found: bool, p: nat, e: Env)
    requires c.inBlock > 0 && i < |s.slots|
    ensures Grows(s, DataSought(c, s, i, found, p, e))
  {}

  lemma HoleGrows(c: Config, s: Job, i: nat, length: nat, e: Env)
    requires c.outBlock > 0 && c.inBlock > 0 && i < |s.slots|
    requires forall k :: 0 <= k < |s.queue| ==> s.queue[k] < |s.slots|
    ensures Grows(s, HoleSought(c, s, i, length, e))
  {
    var t := WithLength(Dequeue(LandSeek(s, i), i), i, length);
    PopulateNeverLowers(c, t, i, e);
    assert Grows(Populate(c, t, i, e), NextSeek(c, Populate(c, t, i, e), e));
  }

  lemma {:induction false} ExecuteAwake(c: Config, o: seq<byte>, s: Job, events: seq<Event>)
    requires Inv(c, o, s) && c.SparseBdev() && Awake(c, s) && !StallShape(c) && |s.slots| == c.depth
    requires Possible(c, s, events)
    ensures Awake(c, Execute(c, s, events)) && |Execute(c, s, events).slots| == c.depth
    decreases |events|
  {
    hide Own, Data, QueueOk, Counted, Step, StallShape, Enabled, SilentEvent, HeadSeeks;
    if events != [] {
      var v := events[0];
      StepKeeps(c, o, s, v);
      StepAwake(c, o, s, v);
      ExitsGrow(c, s, v);
      ExecuteAwake(c, o, Step(c, s, v), events[1..]);
    }
  }

  /** The start loop: the first slot seeks, the others queue behind it. */
  lemma {:induction false} StartAwake(c: Config, o: seq<byte>, s: Job, k: nat, envs: seq<Env>)
    requires Inv(c, o, s) && c.SparseBdev() && Begun(c, s, k) && (k == 0 || Awake(c, s)) && k <= |envs|
    requires |envs| <= |s.slots|
    requires forall j :: k <= j < |envs| ==> s.slots[j].phase == Idle
    ensures |envs| > 0 ==> Awake(c, StartFrom(c, s, k, envs))
    decreases |envs| - k
  {
    hide Own, Data, Seek;
    if k < |envs| {
      var t := Seek(c, s, k, envs[k]);
      if k == 0 { FirstHeads(c, s); }
      if s.exits == [] && (s.Clean() || k == 0) {
        PosIs(c, s);
        if HeadSeeks(c, s) { SeekAwake(c, s, k, envs[k]); }
      }
      if !s.Clean() { ErrorKept(c, s, k, envs[k]); }
      StartOne(c, o, s, k, envs);
      BeginNext(c, o, s, k, envs[k]);
      SeekNeverLowers(c, s, k, envs[k]);
      StartAwake(c, o, t, k + 1, envs);
    }
  }

  lemma FirstHeads(c: Config, s: Job)
    requires WellFormed(c) && QueueOk(c, s) && s.queue == []
    ensures HeadSeeks(c, s)
  {
    forall i | 0 <= i < |s.slots| ensures !s.slots[i].Seeking() {
      assert Waiting(s.slots[i]) ==> i in s.queue;
    }
  }

  lemma ErrorKept(c: Config, s: Job, i: nat, e: Env)
    requires WellFormed(c) && c.SparseBdev() && i < |s.slots| && !s.Clean()
    ensures !Seek(c, s, i, e).Clean()
  {}

  /** No run of any other sparse bdev copy stops without an error, an interrupt or an exit. */
  lemma NeverStalls(c: Config, o: seq<byte>, h: History)
    requires Legal(c, o, h) && c.SparseBdev() && c.depth >= 1 && !StallShape(c)
    ensures var s := Final(c, o, h); s.Clean() && s.exits == [] ==> !Dead(s)
  {
    hide Own, Data, QueueOk, StallShape, Possible, Execute, StartFrom, HeadSeeks;
    var s := Final(c, o, h);
    FinalAwake(c, o, h);
    AlwaysInv(c, o, h);
    if s.Clean() && s.exits == [] && Dead(s) { TotalZero(s.slots, IoWeight); }
  }

  lemma FinalAwake(c: Config, o: seq<byte>, h: History)
    requires Legal(c, o, h) && c.SparseBdev() && c.depth >= 1 && !StallShape(c)
    ensures Awake(c, Final(c, o, h)) && |Final(c, o, h).slots| == c.depth
  {
    hide Inv, StallShape, Possible, Execute, StartFrom, Awake;
    InitialInv(c, o, h.bufs, h.interrupted);
    InitialBegun(c, o, h);
    StartAwake(c, o, Initial(c, o, h.bufs, h.interrupted), 0, h.envs);
    StartedInv(c, o, h);
    SlotsStay(c, o, h);
    ExecuteAwake(c, o, Started(c, o, h), h.events);
  }

  lemma SlotsStay(c: Config, o: seq<byte>, h: History)
    requires Starts(c, h)
    ensures |Started(c, o, h).slots| == c.depth
  {
    StartSlots(c, Initial(c, o, h.bufs, h.interrupted), 0, h.envs);
  }

  lemma {:induction false} StartSlots(c: Config, s: Job, k: nat, envs: seq<Env>)
    requires c.outBlock > 0 && c.inBlock > 0 && k <= |envs| && |envs| <= |s.slots|
    ensures |StartFrom(c, s, k, envs).slots| == |s.slots|
    decreases |envs| - k
  {
    hide Seek;
    if k < |envs| { StartSlots(c, Seek(c, s, k, envs[k]), k + 1, envs); }
  }
}
