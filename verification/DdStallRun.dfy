/** The runs that stall: built for every sparse bdev copy that has the shape for it. */
module DdStallRun {
  import opened Bytes
  import opened DdSpec
  import opened DdInvariant
  import opened DdPrimitives
  import opened DdCalls
  import opened DdRuns
  import opened DdControl
  import opened DdStall
  import opened DdCalm

  // ------------------------------------------------------------------ everybody waits, the head seeks data

  ghost predicate Line(c: Config, o: seq<byte>, s: Job) {
    && Inv(c, o, s) && c.SparseBdev() && s.Clean() && s.exits == [] && |s.queue| == |s.slots| == c.depth >= 1
    && (forall i :: 0 <= i < |s.slots| ==> Waiting(s.slots[i]))
    && s.queue[0] < |s.slots| && s.slots[s.queue[0]].phase == SeekingData && s.pos < c.End()
  }

  /** Slot `i` has just taken a chunk of whole blocks, and the next in line seeks data behind it. */
  ghost predicate Taken(c: Config, o: seq<byte>, s: Job, i: nat) {
    && Inv(c, o, s) && c.SparseBdev() && s.Clean() && s.exits == [] && |s.queue| == c.depth - 1
    && |s.slots| == c.depth >= 3
    && (forall j :: 0 <= j < |s.slots| && j != i ==> Waiting(s.slots[j]))
    && s.queue[0] < |s.slots| && s.queue[0] != i && s.slots[s.queue[0]].phase == SeekingData && s.pos < c.End()
    && i < |s.slots| && s.slots[i].phase == Reading
  }

  /** The seek for data finds it at `d`. */
  lemma FindsData(c: Config, o: seq<byte>, s: Job, i: nat)
    requires Inv(c, o, s) && c.SparseBdev() && s.Clean() && i < |s.slots| && s.slots[i].phase == SeekingData
    requires NextData(c.isData, s.pos) < |c.isData|
    ensures var d := NextData(c.isData, s.pos);
            && Enabled(c, s, SeekDone(i, OK)) && s.pos <= d < c.End() && c.isData[d]
            && Step(c, s, SeekDone(i, OK)) == LaunchSeek(c, Skip(LandSeek(s, i), d), i, SeekingHole)
  {
    hide Data, Counted, RoundDown;
    DataAnswer(c, s, s.slots[i].at);
  }

  /** The chunk ends at a hole before the end, so it is whole blocks. */
  lemma ChunkEnds(c: Config, s: Job, i: nat)
    requires WellFormed(c) && PosOk(c, s) && c.SparseBdev() && i < |s.slots| && s.slots[i].at * c.inBlock == s.pos
    requires s.pos < |c.isData| && c.isData[s.pos] && !IsData(c, c.End() - 1)
    ensures var n := HoleLength(c, s, i); 0 < n <= c.unit && s.pos + n < c.End() && n % c.outBlock == 0
  {
    hide RoundDown;
    HoleLengthPositive(c, s, i);
    HoleLengthIs(c, s, i);
    var h := NextHole(c.isData, s.pos);
    assert h < |c.isData|;
    HoleFits(c, s, h);
    HoleBlocks(c, s, i, h);
  }

  /** A chunk of whole blocks inside the input is claimed and its read submitted. */
  lemma ReadStarts(c: Config, t: Job, i: nat)
    requires WellFormed(c) && c.SparseBdev() && i < |t.slots| && t.Clean() && c.readStart <= t.pos
    requires 0 < t.slots[i].length && t.pos + t.slots[i].length < c.End() && t.slots[i].length % c.outBlock == 0
    ensures var p, n := Populate(c, t, i, OK), t.slots[i].length;
            && p.slots == t.slots[i := t.slots[i].(offset := t.pos, phase := Reading, at := t.pos, size := n,
                                                   served := 0)]
            && p.queue == t.queue && p.pos == t.pos + n && p.exits == t.exits && p.Clean()
  {
    hide RoundUp;
    PopulateCut(c, t, i, OK);
  }

  lemma TakesChunk(c: Config, o: seq<byte>, s: Job, i: nat)
    requires Inv(c, o, s) && c.SparseBdev() && s.Clean() && i < |s.slots| && s.slots[i].phase == SeekingHole
    requires !IsData(c, c.End() - 1) && |s.queue| >= 2
    ensures Enabled(c, s, SeekDone(i, OK))
    ensures var t, n := Step(c, s, SeekDone(i, OK)), HoleLength(c, s, i);
            && s.queue[0] == i && s.queue[1] < |s.slots| && s.queue[1] != i && 0 < n && s.pos + n < c.End()
            && t.queue == s.queue[1..] && t.pos == s.pos + n && t.exits == s.exits && t.Clean()
            && |t.slots| == |s.slots|
            && t.slots[i].phase == Reading && t.slots[s.queue[1]].phase == SeekingData
            && forall j :: 0 <= j < |s.slots| && j != i && j != s.queue[1] ==> t.slots[j] == s.slots[j]
  {
    hide Data, Counted, HoleLength, Populate;
    SeekerIsHead(c, s, i);
    SecondWaits(c, s);
    ChunkEnds(c, s, i);
    var t := WithLength(Dequeue(LandSeek(s, i), i), i, HoleLength(c, s, i));
    ReadStarts(c, t, i);
  }

  /** From a line with data ahead, the head takes the next chunk. */
  lemma LineTakes(c: Config, o: seq<byte>, s: Job) returns (t: Job)
    requires Line(c, o, s) && c.depth >= 3 && !IsData(c, c.End() - 1) && NextData(c.isData, s.pos) < |c.isData|
    ensures Taken(c, o, t, s.queue[0]) && t.pos > s.pos
    ensures Enabled(c, s, SeekDone(s.queue[0], OK))
    ensures var u := Step(c, s, SeekDone(s.queue[0], OK));
            Enabled(c, u, SeekDone(s.queue[0], OK)) && Step(c, u, SeekDone(s.queue[0], OK)) == t
  {
    hide Own, Data, Counted, Step, RoundUp;
    var i := s.queue[0];
    FindsData(c, o, s, i);
    var u := Step(c, s, SeekDone(i, OK));
    StepKeeps(c, o, s, SeekDone(i, OK));
    SeekerIsHead(c, s, i);
    TakesChunk(c, o, u, i);
    t := Step(c, u, SeekDone(i, OK));
    StepKeeps(c, o, u, SeekDone(i, OK));
    QueuedWaits(c, s, i);
  }

  /** Only the head of a queue seeks. */
  lemma QueuedWaits(c: Config, s: Job, i: nat)
    requires WellFormed(c) && QueueOk(c, s) && i < |s.slots| && s.slots[i].Seeking()
    ensures forall j :: 0 <= j < |s.slots| && j != i && Waiting(s.slots[j]) ==> s.slots[j].phase == Queued
  {
    SeekerIsHead(c, s, i);
  }

  // ------------------------------------------------------------------ a chunk is finished and its slot queues again

  /** Slot `i` stands at the end of the queue; nothing else has moved. */
  ghost predicate Requeued(s: Job, t: Job, i: nat) {
    && i < |s.slots| == |t.slots| && t.queue == s.queue + [i] && t.pos == s.pos && t.exits == s.exits && t.Clean()
    && t.slots[i].phase == Queued && forall j :: 0 <= j < |s.slots| && j != i ==> t.slots[j] == s.slots[j]
  }

  /** Only slot `i` and the output may differ. */
  ghost predicate OnlySlot(s: Job, t: Job, i: nat) {
    && i < |s.slots| == |t.slots| && t.queue == s.queue && t.pos == s.pos && t.exits == s.exits
    && t.Clean() == s.Clean()
    && forall j :: 0 <= j < |s.slots| && j != i ==> t.slots[j] == s.slots[j]
  }

  /** A chunk that ends before the end of the input is whole blocks, inside the input and inside the output device. */
  lemma WholeInside(c: Config, o: seq<byte>, s: Job, i: nat)
    requires Inv(c, o, s) && c.SparseBdev() && Holds(c, o) && s.pos < c.End() && i < |s.slots| && s.slots[i].Owns()
    ensures var sl := s.slots[i];
            && RoundUp(sl.length, c.outBlock) == sl.length && sl.offset + sl.length <= |c.input|
            && sl.length <= c.unit == |sl.buf|
            && c.readStart <= sl.offset && Target(c, sl.offset) == Place(c, sl.offset)
            && SubmitRc(c, c.outKind, |s.out|, Place(c, sl.offset), sl.length, 0) == 0
  {
    hide RoundUp, QueueOk, Counted, BufOk, FateOk, Frame, Target;
    var sl := s.slots[i];
    assert SlotOk(c, s, sl);
    NoWrap(c, sl.offset);
  }

  lemma FullyServed(c: Config, s: Job, i: nat)
    requires i < |s.slots| && s.slots[i].Transferring() && s.slots[i].served <= s.slots[i].size <= |s.slots[i].buf|
    requires s.slots[i].phase == Reading ==> s.slots[i].at + s.slots[i].size <= |c.input|
    requires s.slots[i].phase != Populating
    ensures var n := s.slots[i].size - s.slots[i].served;
            && CanServe(c, s, i, n)
            && var t := Serve(c, s, i, n);
               OnlySlot(s, t, i) && t.slots[i] == s.slots[i].(served := s.slots[i].size, buf := t.slots[i].buf)
  {
    hide Store;
  }

  /** A read that came back full is followed by the write. */
  lemma WriteStarts(c: Config, s: Job, i: nat)
    requires c.outBlock > 0 && c.inBlock > 0 && i < |s.slots| && s.slots[i].phase == Reading && s.Clean()
    requires s.slots[i].served == s.slots[i].size
    requires var sl := s.slots[i]; sl.size == sl.length == RoundUp(sl.length, c.outBlock)
    requires c.readStart <= s.slots[i].offset && Target(c, s.slots[i].offset) == Place(c, s.slots[i].offset)
    requires SubmitRc(c, c.outKind, |s.out|, Place(c, s.slots[i].offset), s.slots[i].length, 0) == 0
    ensures var t := Complete(c, s, i, s.slots[i].size, OK);
            && OnlySlot(s, t, i) && t.slots[i].phase == Writing && t.slots[i].served == 0
            && t.slots[i].size == s.slots[i].length == t.slots[i].length && |t.slots[i].buf| == |s.slots[i].buf|
  {
    hide RoundUp, Target;
  }

  /** A write that came back full ends the chunk; its slot goes to the end of the line. */
  lemma WriteEnds(c: Config, s: Job, i: nat)
    requires WellFormed(c) && c.SparseBdev() && PosOk(c, s) && s.pos < c.End() && s.queue != []
    requires i < |s.slots| && s.slots[i].phase == Writing && s.Clean()
    requires s.slots[i].served == s.slots[i].size == s.slots[i].length
    ensures Requeued(s, Complete(c, s, i, s.slots[i].size, OK), i)
  {
    hide RoundUp;
    NoWrap(c, s.pos);
  }

  lemma ReadPhase(c: Config, o: seq<byte>, s: Job, i: nat) returns (t: Job)
    requires Inv(c, o, s) && c.SparseBdev() && Holds(c, o) && s.Clean() && s.pos < c.End()
    requires i < |s.slots| && s.slots[i].phase == Reading
    ensures Inv(c, o, t) && OnlySlot(s, t, i) && t.slots[i].phase == Writing && t.slots[i].served == 0
    ensures t.slots[i].size == t.slots[i].length <= |t.slots[i].buf|
    ensures var n := s.slots[i].size - s.slots[i].served;
            && n >= 0 && Enabled(c, s, Move(i, n))
            && var u := Step(c, s, Move(i, n));
               && Enabled(c, u, Done(i, s.slots[i].size, OK)) && !SilentEvent(c, u, Done(i, s.slots[i].size, OK))
               && Gentle(u, Done(i, s.slots[i].size, OK)) && Step(c, u, Done(i, s.slots[i].size, OK)) == t
  {
    hide RoundUp, Data, QueueOk, Counted, Serve, Complete, Target, SubmitRc;
    assert SlotOk(c, s, s.slots[i]);
    WholeInside(c, o, s, i);
    FullyServed(c, s, i);
    var size := s.slots[i].size;
    var n := size - s.slots[i].served;
    var u := Serve(c, s, i, n);
    StepKeeps(c, o, s, Move(i, n));
    WholeInside(c, o, u, i);
    WriteStarts(c, u, i);
    t := Complete(c, u, i, size, OK);
    StepKeeps(c, o, u, Done(i, size, OK));
  }

  lemma WritePhase(c: Config, o: seq<byte>, s: Job, i: nat) returns (t: Job)
    requires Inv(c, o, s) && c.SparseBdev() && s.Clean() && s.pos < c.End() && s.queue != []
    requires i < |s.slots| && s.slots[i].phase == Writing && s.slots[i].served == 0
    requires s.slots[i].size == s.slots[i].length <= |s.slots[i].buf|
    ensures Inv(c, o, t) && Requeued(s, t, i)
    ensures var n := s.slots[i].size;
            && Enabled(c, s, Move(i, n))
            && var u := Step(c, s, Move(i, n));
               && Enabled(c, u, Done(i, n, OK)) && !SilentEvent(c, u, Done(i, n, OK))
               && Gentle(u, Done(i, n, OK)) && Step(c, u, Done(i, n, OK)) == t
  {
    hide RoundUp, Own, Data, QueueOk, Counted, Serve, Complete;
    FullyServed(c, s, i);
    var n := s.slots[i].size;
    var u := Serve(c, s, i, n);
    StepKeeps(c, o, s, Move(i, n));
    PosIs(c, u);
    WriteEnds(c, u, i);
    t := Complete(c, u, i, n, OK);
    StepKeeps(c, o, u, Done(i, n, OK));
  }

  /** A calm run reads and writes the chunk of slot `i` and queues it again. */
  lemma Finishes(c: Config, o: seq<byte>, s: Job, i: nat) returns (events: seq<Event>, t: Job)
    requires Inv(c, o, s) && c.SparseBdev() && Holds(c, o) && s.Clean() && s.pos < c.End() && s.queue != []
    requires i < |s.slots| && s.slots[i].phase == Reading
    ensures Inv(c, o, t) && Requeued(s, t, i) && Leads(c, s, events, t)
  {
    hide Own, Data, QueueOk, Counted, Enabled, Step, Leads, SilentEvent;
    var m := s.slots[i].size;
    var u := ReadPhase(c, o, s, i);
    var n := u.slots[i].size;
    t := WritePhase(c, o, u, i);
    Here(c, t);
    var w := Step(c, u, Move(i, n));
    Then(c, w, Done(i, n, OK), [], t);
    MovesAreHeard(c, u, i, n);
    Then(c, u, Move(i, n), [Done(i, n, OK)] + [], t);
    var r := Step(c, s, Move(i, m - s.slots[i].served));
    Then(c, r, Done(i, m, OK), [Move(i, n)] + ([Done(i, n, OK)] + []), t);
    MovesAreHeard(c, s, i, m - s.slots[i].served);
    events := [Move(i, m - s.slots[i].served)] + ([Done(i, m, OK)] + ([Move(i, n)] + ([Done(i, n, OK)] + [])));
    Then(c, s, Move(i, m - s.slots[i].served), [Done(i, m, OK)] + ([Move(i, n)] + ([Done(i, n, OK)] + [])), t);
  }

  // ------------------------------------------------------------------ the seek that finds nothing

  /** A miss with another I/O in flight only takes the slot out of the queue. */
  lemma MissStep(c: Config, s: Job, j: nat)
    requires WellFormed(c) && QueueOk(c, s) && s.Clean() && j < |s.slots| && s.slots[j].phase == SeekingData
    requires s.outstanding >= 2
    requires NextData(c.isData, s.pos) >= |c.isData|
    ensures Enabled(c, s, SeekDone(j, OK)) && Step(c, s, SeekDone(j, OK)) == Dequeue(LandSeek(s, j), j)
  {}

  /** The head finds no more data while slot `i` is busy: it leaves the queue, and nobody seeks for the others. */
  lemma Misses(c: Config, o: seq<byte>, s: Job, i: nat) returns (t: Job)
    requires Taken(c, o, s, i) && NextData(c.isData, s.pos) >= |c.isData|
    ensures Enabled(c, s, SeekDone(s.queue[0], OK)) && t == Step(c, s, SeekDone(s.queue[0], OK)) && Inv(c, o, t)
    ensures t.Clean() && t.exits == [] && t.pos == s.pos && t.queue != [] && |t.slots| == |s.slots|
    ensures t.slots[i] == s.slots[i]
    ensures forall j :: 0 <= j < |t.slots| && j != i ==> !t.slots[j].Transferring() && !t.slots[j].Seeking()
  {
    hide Own, Data, Step, Enabled, QueueOk;
    var j := s.queue[0];
    QueuedWaits(c, s, j);
    TwoInFlight(s.slots, i, j);
    MissStep(c, s, j);
    t := Step(c, s, SeekDone(j, OK));
    assert !SilentEvent(c, s, SeekDone(j, OK));
    StepKeeps(c, o, s, SeekDone(j, OK));
  }

  lemma TwoInFlight(slots: seq<Slot>, i: nat, j: nat)
    requires i < |slots| && j < |slots| && i != j && IoWeight(slots[i]) == 1 && IoWeight(slots[j]) == 1
    ensures Total(slots, IoWeight) >= 2
  {
    var idle := slots[i].(phase := Idle);
    TotalUpdate(slots, i, idle, IoWeight);
    TotalAtLeast(slots[i := idle], j, IoWeight);
  }

  lemma AllQuiet(s: Job, t: Job, i: nat)
    requires Requeued(s, t, i)
    requires forall j :: 0 <= j < |s.slots| && j != i ==> !s.slots[j].Transferring() && !s.slots[j].Seeking()
    ensures Dead(t)
  {}

  lemma InLineAgain(c: Config, o: seq<byte>, s: Job, t: Job, i: nat)
    requires Taken(c, o, s, i) && Requeued(s, t, i) && Inv(c, o, t)
    ensures Line(c, o, t)
  {
    hide Own, Data, QueueOk, Counted;
  }

  lemma HeardSeek(c: Config, s: Job, i: nat)
    requires Enabled(c, s, SeekDone(i, OK))
    ensures !SilentEvent(c, s, SeekDone(i, OK)) && Gentle(s, SeekDone(i, OK))
  {}

  /** From a line with data ahead and a hole at the end, a calm run stops for good without an exit. */
  lemma {:induction false} Stalls(c: Config, o: seq<byte>, s: Job) returns (events: seq<Event>, t: Job)
    requires Line(c, o, s) && Holds(c, o) && c.depth >= 3 && !IsData(c, c.End() - 1)
    requires NextData(c.isData, s.pos) < |c.isData|
    ensures Leads(c, s, events, t) && Dead(t) && t.exits == [] && t.Clean()
    decreases c.End() - s.pos
  {
    hide Own, Data, QueueOk, Counted, Step, Leads, Enabled, SilentEvent, Dead;
    var i := s.queue[0];
    var taken := LineTakes(c, o, s);
    var u := Step(c, s, SeekDone(i, OK));
    HeardSeek(c, s, i);
    HeardSeek(c, u, i);
    var rest: seq<Event>;
    if NextData(c.isData, taken.pos) >= |c.isData| {
      var missed := Misses(c, o, taken, i);
      HeardSeek(c, taken, taken.queue[0]);
      rest, t := Finishes(c, o, missed, i);
      AllQuiet(missed, t, i);
      Then(c, taken, SeekDone(taken.queue[0], OK), rest, t);
      rest := [SeekDone(taken.queue[0], OK)] + rest;
    } else {
      var first, line := Finishes(c, o, taken, i);
      InLineAgain(c, o, taken, line, i);
      rest, t := Stalls(c, o, line);
      Append(c, taken, first, line, rest, t);
      rest := first + rest;
    }
    Then(c, u, SeekDone(i, OK), rest, t);
    Then(c, s, SeekDone(i, OK), [SeekDone(i, OK)] + rest, t);
    events := [SeekDone(i, OK)] + ([SeekDone(i, OK)] + rest);
  }

  // ------------------------------------------------------------------ the start

  /** The first `k` slots stand in line behind slot 0. */
  ghost predicate Lined(c: Config, s: Job, k: nat) {
    && s.Clean() && s.exits == [] && s.pos == c.readStart && |s.queue| == k <= |s.slots|
    && (k > 0 ==> s.queue[0] == 0 && s.slots[0].phase == SeekingData)
    && (forall j :: 0 <= j < k ==> Waiting(s.slots[j])) && forall j :: k <= j < |s.slots| ==> s.slots[j].phase == Idle
  }

  lemma LinesUp(c: Config, s: Job, k: nat)
    requires WellFormed(c) && c.SparseBdev() && c.copySize > 0 && Lined(c, s, k) && k < |s.slots|
    ensures Lined(c, Seek(c, s, k, OK), k + 1) && |Seek(c, s, k, OK).slots| == |s.slots|
  {
    NoWrap(c, s.pos);
  }

  lemma {:induction false} StartLines(c: Config, s: Job, k: nat, envs: seq<Env>)
    requires WellFormed(c) && c.SparseBdev() && c.copySize > 0 && Lined(c, s, k) && k <= |envs| == |s.slots|
    requires forall j :: 0 <= j < |envs| ==> envs[j] == OK
    ensures Lined(c, StartFrom(c, s, k, envs), |envs|) && |StartFrom(c, s, k, envs).slots| == |s.slots|
    decreases |envs| - k
  {
    hide Seek, Lined, WellFormed;
    if k < |envs| {
      assert c.outBlock > 0 && c.inBlock > 0 by { Blocks(c); }
      LinesUp(c, s, k);
      StartLines(c, Seek(c, s, k, envs[k]), k + 1, envs);
    } else {
      Blocks(c);
    }
  }

  lemma Blocks(c: Config)
    requires WellFormed(c)
    ensures c.outBlock > 0 && c.inBlock > 0
  {}

  lemma StartedLine(c: Config, o: seq<byte>)
    requires WellFormed(c) && c.SparseBdev() && c.copySize > 0 && c.depth >= 1
    ensures Starts(c, Quietly(c, [])) && Line(c, o, Started(c, o, Quietly(c, [])))
    ensures Started(c, o, Quietly(c, [])).pos == c.readStart
  {
    hide Inv, StartFrom, WellFormed;
    var h := Quietly(c, []);
    Blocks(c);
    StartLines(c, Initial(c, o, h.bufs, false), 0, h.envs);
    StartedInv(c, o, h);
  }

  /** The run has stopped for good: nothing in flight, no error, no interrupt, and no exit. */
  ghost predicate Stopped(c: Config, o: seq<byte>, h: History)
    requires Legal(c, o, h)
  {
    Dead(Final(c, o, h)) && Final(c, o, h).Clean() && Final(c, o, h).exits == []
  }

  /**
   * The exact condition, over all runs of a sparse bdev copy whose output holds the write region: some run stops
   * without exiting, and indeed one in which nothing fails, if and only if there is no slot at all, or there are at
   * least three slots and the read region holds data but ends in a hole.
   */
  lemma StallsIff(c: Config, o: seq<byte>)
    requires WellFormed(c) && c.SparseBdev() && Holds(c, o)
    ensures (exists h :: CalmRun(c, o, h) && Stopped(c, o, h)) <==> c.depth == 0 || StallShape(c)
    ensures (exists h :: Legal(c, o, h) && Stopped(c, o, h)) <==> c.depth == 0 || StallShape(c)
  {
    hide Legal, Final, StallShape;
    if c.depth == 0 {
      NoSlots(c, o);
    } else if StallShape(c) {
      var h := ShapeStalls(c, o);
    } else {
      forall h | Legal(c, o, h) ensures !Stopped(c, o, h) {
        NeverStalls(c, o, h);
      }
    }
  }

  lemma NoSlots(c: Config, o: seq<byte>)
    requires WellFormed(c) && c.depth == 0
    ensures var h := Quietly(c, []); CalmRun(c, o, h) && Stopped(c, o, h)
  {}

  lemma ShapeStalls(c: Config, o: seq<byte>) returns (h: History)
    requires WellFormed(c) && c.SparseBdev() && Holds(c, o) && StallShape(c)
    ensures CalmRun(c, o, h) && Stopped(c, o, h)
  {
    hide WellFormed, Started, Line, Dead, Holds;
    Blocks(c);
    StartedLine(c, o);
    DataAhead(c);
    var events, t := Stalls(c, o, Started(c, o, Quietly(c, [])));
    h := Quietly(c, events);
    assert Started(c, o, h) == Started(c, o, Quietly(c, [])) by { SameStart(c, o, events); }
  }

  lemma DataAhead(c: Config)
    requires WellFormed(c) && c.SparseBdev() && StallShape(c)
    ensures NextData(c.isData, c.readStart) < |c.isData|
  {
    var p: nat :| c.readStart <= p < c.End() && IsData(c, p);
  }

  lemma SameStart(c: Config, o: seq<byte>, events: seq<Event>)
    requires WellFormed(c)
    ensures Started(c, o, Quietly(c, events)) == Started(c, o, Quietly(c, []))
  {}
}
