/**
 * Wherever a result goes unchecked, a dense copy can exit cleanly without having made the copy: for every other
 * combination of engine and targets a run is built in which each unchecked transfer moves nothing.
 */
module DdTrust {
  import opened Bytes
  import opened DdSpec
  import opened DdInvariant
  import opened DdPrimitives
  import opened DdSteps
  import opened DdCalls
  import opened DdRuns
  import opened DdControl
  import opened DdExit
  import opened DdTheorems
  import opened DdSafety
  import opened DdTail
  import opened DdStart
  import opened DdBound
  import opened DdDamage
  import opened DdAioFiles

  /** The devices hold the regions of the copy, an output of `n` bytes included. */
  ghost predicate Runnable(c: Config, n: nat) {
    && WellFormed(c) && !c.sparse && c.depth >= 1 && c.copySize > 0 && c.End() <= |c.input|
    && (c.outKind == Bdev ==> c.writeStart % c.outBlock == 0 && n % c.outBlock == 0 && c.writeStart + c.copySize <= n)
    && (c.engine == Aio && c.outKind == File && c.copySize % c.outBlock != 0 ==> c.writeStart + c.copySize <= n)
  }

  // ------------------------------------------------------------------ the run

  /** A checked request moves exactly its chunk, an unchecked one nothing. */
  function Amount(c: Config, sl: Slot): nat {
    if c.engine == Aio && PhaseKind(c, sl.phase) == File then sl.length else 0
  }

  /** Writes are not checked. */
  ghost predicate BlindWrites(c: Config) {
    c.outKind == Bdev || c.engine == Uring
  }

  /** Settled bytes are `y`, and so is everything a buffer or the original output holds. */
  ghost predicate AllStale(c: Config, o: seq<byte>, s: Job, y: byte) {
    && (forall i, j :: 0 <= i < |s.slots| && 0 <= j < |s.slots[i].buf| ==> s.slots[i].buf[j] == y)
    && (forall q: nat :: q < |o| ==> At(s.out, q) == y)
    && (forall k :: 0 <= k < |s.fate| ==> StaleByte(c, s.out, s.fate[k], k, y))
  }

  ghost predicate StaleByte(c: Config, out: seq<byte>, f: Fate, k: nat, y: byte) {
    f.InFlight? || ((f == Written || f == Lost) && c.writeStart + k < |out| && At(out, c.writeStart + k) == y)
  }

  ghost predicate Payload(c: Config, o: seq<byte>, s: Job, y: byte) {
    if BlindWrites(c) then s.out == o else c.inKind == Bdev && AllStale(c, o, s, y)
  }

  ghost predicate Rolling(c: Config, o: seq<byte>, s: Job, y: byte, spoiled: set<nat>) {
    && Core(c, s) && Sound(c, o, s, spoiled) && Settled(c, s) && s.Clean() && OnlyTails(c, s) && Payload(c, o, s, y)
    && forall i :: 0 <= i < |s.slots| && s.slots[i].Transferring() ==> s.slots[i].served == 0
  }

  /** Unless it has exited, the run has an I/O in flight. */
  ghost predicate Alive(s: Job) {
    s.exits == [] ==> s.outstanding >= 1
  }

  // ------------------------------------------------------------------ submissions are accepted

  lemma Accepts(c: Config, o: seq<byte>, s: Job, offset: nat, length: nat)
    requires Runnable(c, |o|) && |o| <= |s.out| && c.readStart <= offset && offset + length <= c.End()
    requires Place(c, offset) + RoundUp(length, c.outBlock) <= RoundedEnd(c)
    ensures SubmitRc(c, c.inKind, |c.input|, offset, length, 0) == 0
    ensures SubmitRc(c, c.outKind, |s.out|, Target(c, offset), RoundUp(length, c.outBlock), 0) == 0
  {
    hide RoundUp, Target;
    NoWrap(c, offset);
    if c.outKind == Bdev {
      ZeroRounds(c.outBlock);
      RoundedInside(c.writeStart, 0, c.copySize, |o|, c.outBlock);
    }
  }

  lemma ZeroRounds(block: nat)
    requires block > 0
    ensures RoundUp(0, block) == 0
  {}

  lemma RunningAccepted(c: Config, o: seq<byte>, s: Job, i: nat)
    requires Runnable(c, |o|) && Core(c, s) && |o| <= |s.out| && s.Clean() && i < |s.slots|
    requires s.slots[i].phase == Running
    ensures var r, w := Read(c, s, i, OK), Write(c, s, i, OK);
            r.Clean() && r.slots[i].phase == Reading && w.Clean() && w.slots[i].phase == Writing
    ensures Read(c, s, i, OK).slots[i].served == 0 && Read(c, s, i, OK).slots[i].buf == s.slots[i].buf
    ensures Write(c, s, i, OK).slots[i].buf == s.slots[i].buf
  {
    hide RoundUp, Target;
    assert SlotOk(c, s, s.slots[i]);
    InsideRounded(c, s, s.slots[i]);
    Accepts(c, o, s, s.slots[i].offset, s.slots[i].length);
  }

  lemma SeekAccepted(c: Config, o: seq<byte>, s: Job, i: nat)
    requires Runnable(c, |o|) && Core(c, s) && |o| <= |s.out| && s.Clean() && i < |s.slots| && s.slots[i].phase == Idle
    ensures var t := Seek(c, s, i, OK);
            t.Clean() && t.slots[i].buf == s.slots[i].buf && (t.slots[i].Transferring() ==> t.slots[i].served == 0)
  {
    hide RoundUp, Target;
    PopulateCut(c, s, i, OK);
    var length := Min(s.slots[i].length, c.End() - s.pos);
    if length > 0 {
      RoundUpBounds(s.pos - c.readStart, c.outBlock, RoundUpWitness(s.pos - c.readStart, c.outBlock));
      ChunkInside(c, s.pos - c.readStart, length);
      Accepts(c, o, s, s.pos, length);
    }
  }

  lemma ChunkInside(c: Config, skip: nat, length: nat)
    requires c.outBlock > 0 && length > 0 && skip + length <= c.copySize && RoundUp(skip, c.outBlock) == skip
    ensures skip + RoundUp(length, c.outBlock) <= RoundUp(c.copySize, c.outBlock)
  {
    hide RoundUp;
    RoundUpAfterBlocks(skip, length, c.outBlock);
    Monotone(skip + length, c.copySize, c.outBlock);
  }

  lemma Monotone(a: nat, b: nat, block: nat)
    requires block > 0 && a <= b
    ensures RoundUp(a, block) <= RoundUp(b, block)
  {
    hide RoundUp;
    RoundUpBounds(b, block, RoundUpWitness(b, block));
    RoundUpBounds(a, block, RoundUp(b, block));
  }

  // ------------------------------------------------------------------ one call keeps the payload

  lemma LocalPayload(c: Config, o: seq<byte>, s: Job, t: Job, i: nat, y: byte)
    requires Payload(c, o, s, y) && Local(c, s, t, i) && t.Clean() && t.slots[i].buf == s.slots[i].buf
    ensures Payload(c, o, t, y)
  {
    if !BlindWrites(c) {
      forall a, b | 0 <= a < |t.slots| && 0 <= b < |t.slots[a].buf| ensures t.slots[a].buf[b] == y {
        assert t.slots[a].buf == s.slots[a].buf;
      }
      forall k | 0 <= k < |t.fate| ensures StaleByte(c, t.out, t.fate[k], k, y) {
        if k < |s.fate| { assert StaleByte(c, s.out, s.fate[k], k, y); }
      }
    }
  }

  lemma SeekRolls(c: Config, o: seq<byte>, s: Job, i: nat, y: byte, spoiled: set<nat>)
    requires Runnable(c, |o|) && Rolling(c, o, s, y, spoiled) && s.exits == []
    requires i < |s.slots| && s.slots[i].phase == Idle
    ensures var t := Seek(c, s, i, OK); Rolling(c, o, t, y, spoiled) && Alive(t)
  {
    hide RoundUp, Seek, Payload, Local, Own, OnlyTails, Sound;
    var t := Seek(c, s, i, OK);
    SeekSound(c, o, s, i, OK, spoiled);
    OutGrows(c, o, s, spoiled);
    OwnFits(c, s, i);
    SeekLocal(c, s, i, OK);
    SeekAccepted(c, o, s, i);
    LocalPayload(c, o, s, t, i, y);
    SeekTails(c, s, i, OK);
    SeekRests(c, s, i, OK);
    SeekEnds(c, s, i, OK);
    LocalFresh(c, s, t, i);
  }

  lemma OutGrows(c: Config, o: seq<byte>, s: Job, spoiled: set<nat>)
    requires c.outBlock > 0 && Sound(c, o, s, spoiled)
    ensures |o| <= |s.out|
  {}

  lemma LocalFresh(c: Config, s: Job, t: Job, i: nat)
    requires Local(c, s, t, i) && (t.slots[i].Transferring() ==> t.slots[i].served == 0)
    requires forall j :: 0 <= j < |s.slots| && j != i && s.slots[j].Transferring() ==> s.slots[j].served == 0
    ensures t.out == s.out && forall j :: 0 <= j < |t.slots| && t.slots[j].Transferring() ==> t.slots[j].served == 0
  {}

  lemma OwnFits(c: Config, s: Job, i: nat)
    requires Core(c, s) && !c.sparse && i < |s.slots|
    ensures c.readStart <= s.pos <= c.End() && s.slots[i].length <= c.unit
    ensures s.slots[i].length == c.unit || s.pos + s.slots[i].length >= c.End()
  {
    hide RoundUp;
    assert SlotOk(c, s, s.slots[i]);
  }

  // ------------------------------------------------------------------ one transfer

  /** The device can move the amount, and the code takes the result for success. */
  lemma AmountServable(c: Config, o: seq<byte>, s: Job, i: nat)
    requires Runnable(c, |o|) && Core(c, s) && |o| <= |s.out| && OnlyTails(c, s)
    requires i < |s.slots| && s.slots[i].Transferring() && s.slots[i].served == 0
    ensures Amount(c, s.slots[i]) > 0 ==> CanServe(c, s, i, Amount(c, s.slots[i]))
  {
    hide RoundUp;
    var sl := s.slots[i];
    assert SlotOk(c, s, sl);
    if sl.phase == Populating && c.copySize % c.outBlock == 0 { WholeChunk(c, s, sl); }
  }

  lemma NoErrorSeen(c: Config, sl: Slot, m: nat)
    requires m == Amount(c, sl)
    ensures ErrorAfter(c, 0, sl, m) == 0
  {}

  /** What the move leaves: the slot has its amount, the output and buffers hold what they should. */
  lemma MovePayload(c: Config, o: seq<byte>, s: Job, i: nat, y: byte)
    requires Runnable(c, |o|) && Core(c, s) && |o| <= |s.out| && Payload(c, o, s, y) && OnlyTails(c, s)
    requires i < |s.slots| && s.slots[i].served == 0 && CanServe(c, s, i, Amount(c, s.slots[i]))
    requires Amount(c, s.slots[i]) > 0
    ensures var t := Serve(c, s, i, Amount(c, s.slots[i]));
            && Payload(c, o, t, y)
            && (!BlindWrites(c) && s.slots[i].phase == Writing ==> ChunkStale(c, t, i, y))
  {
    hide RoundUp, Store;
    var sl, m := s.slots[i], Amount(c, s.slots[i]);
    var t := Serve(c, s, i, m);
    assert SlotOk(c, s, sl);
    if !BlindWrites(c) {
      if sl.phase == Writing {
        ServedOut(c, s, i, m);
        forall k | 0 <= k < |t.fate| ensures StaleByte(c, t.out, t.fate[k], k, y) {
          assert StaleByte(c, s.out, s.fate[k], k, y);
        }
      } else {
        MovedBuffer(c, o, s, i, y);
      }
      forall a, b | 0 <= a < |t.slots| && 0 <= b < |t.slots[a].buf| ensures t.slots[a].buf[b] == y {
        if a != i { assert t.slots[a] == s.slots[a]; }
      }
    }
  }

  /** The bytes of the chunk are in the output, and they are `y`. */
  ghost predicate ChunkStale(c: Config, s: Job, i: nat, y: byte)
    requires i < |s.slots|
  {
    && c.readStart <= s.slots[i].offset && Place(c, s.slots[i].offset) + s.slots[i].length <= |s.out|
    && forall k: nat :: Covers(c, s.slots[i], k) ==> At(s.out, c.writeStart + k) == y
  }

  /** With checked writes only a populate can fill a buffer, and what it finds is stale too. */
  lemma MovedBuffer(c: Config, o: seq<byte>, s: Job, i: nat, y: byte)
    requires Runnable(c, |o|) && Core(c, s) && !BlindWrites(c) && c.inKind == Bdev && AllStale(c, o, s, y)
    requires i < |s.slots| && s.slots[i].served == 0 && CanServe(c, s, i, Amount(c, s.slots[i]))
    requires Amount(c, s.slots[i]) > 0
    requires s.slots[i].phase != Writing && |o| <= |s.out| && OnlyTails(c, s)
    ensures var t := Serve(c, s, i, Amount(c, s.slots[i]));
            forall j :: 0 <= j < |t.slots[i].buf| ==> t.slots[i].buf[j] == y
  {
    hide RoundUp, Serve;
    var sl, m := s.slots[i], Amount(c, s.slots[i]);
    assert SlotOk(c, s, sl);
    ServedInto(c, s, i, m);
    var b := Serve(c, s, i, m).slots[i].buf;
    PopulatesOld(c, o, s, i);
    forall j | 0 <= j < |b| ensures b[j] == y {
      if j < m { assert At(s.out, sl.at + j) == y; }
    }
  }

  lemma PopulatesOld(c: Config, o: seq<byte>, s: Job, i: nat)
    requires Runnable(c, |o|) && Core(c, s) && !BlindWrites(c)
    requires i < |s.slots| && s.slots[i].phase == Populating && OnlyTails(c, s)
    ensures s.slots[i].at + s.slots[i].length <= |o|
  {
    hide RoundUp;
    var sl := s.slots[i];
    assert SlotOk(c, s, sl);
    if c.copySize % c.outBlock == 0 { WholeChunk(c, s, sl); }
  }

  /** A transfer of slot `i` has come back with its amount; what the code does next keeps the run rolling. */
  lemma CompleteRolls(c: Config, o: seq<byte>, s: Job, i: nat, y: byte, spoiled: set<nat>)
    requires Runnable(c, |o|) && Core(c, s) && Sound(c, o, s, spoiled) && Settled(c, s) && s.Clean() && OnlyTails(c, s)
    requires Payload(c, o, s, y) && s.exits == []
    requires i < |s.slots| && s.slots[i].Transferring() && s.slots[i].served == Amount(c, s.slots[i])
    requires forall j :: 0 <= j < |s.slots| && j != i && s.slots[j].Transferring() ==> s.slots[j].served == 0
    requires !BlindWrites(c) && s.slots[i].phase == Writing ==> ChunkStale(c, s, i, y)
    ensures var m := Amount(c, s.slots[i]);
            && Enabled(c, s, Done(i, m, OK))
            && var t := Step(c, s, Done(i, m, OK));
               Rolling(c, o, t, y, spoiled + SpoiledBy(c, s, Done(i, m, OK))) && Alive(t) && Level(c, t) < Level(c, s)
  {
    hide RoundUp, Complete, Payload, Own, OnlyTails, Sound, SpoiledBy, Settled;
    var m := Amount(c, s.slots[i]);
    var v := Done(i, m, OK);
    StepSound(c, o, s, v, spoiled);
    StepSettled(c, s, v);
    OwnFits(c, s, i);
    CompleteLevel(c, s, i, m, OK);
    if s.slots[i].phase == Writing {
      WrittenRolls(c, o, s, i, y, spoiled);
    } else {
      FilledRolls(c, o, s, i, y, spoiled);
    }
  }

  /** The parts of `Rolling` that the other lemmas do not give. */
  ghost predicate Carries(c: Config, o: seq<byte>, t: Job, y: byte)
    requires c.outBlock > 0
  {
    && t.Clean() && OnlyTails(c, t) && Payload(c, o, t, y) && Alive(t)
    && forall j :: 0 <= j < |t.slots| && t.slots[j].Transferring() ==> t.slots[j].served == 0
  }

  lemma LandedPayload(c: Config, o: seq<byte>, s: Job, i: nat, y: byte)
    requires Payload(c, o, s, y) && i < |s.slots|
    ensures Payload(c, o, Land(s, i), y)
  {
    if !BlindWrites(c) {
      var t := Land(s, i);
      forall a, b | 0 <= a < |t.slots| && 0 <= b < |t.slots[a].buf| ensures t.slots[a].buf[b] == y {
        assert t.slots[a].buf == s.slots[a].buf;
      }
    }
  }

  lemma FilledRolls(c: Config, o: seq<byte>, s: Job, i: nat, y: byte, spoiled: set<nat>)
    requires Runnable(c, |o|) && Core(c, s) && Sound(c, o, s, spoiled) && s.Clean() && OnlyTails(c, s)
    requires Payload(c, o, s, y)
    requires s.exits == [] && i < |s.slots| && s.slots[i].Transferring() && s.slots[i].phase != Writing
    requires forall j :: 0 <= j < |s.slots| && j != i && s.slots[j].Transferring() ==> s.slots[j].served == 0
    ensures Carries(c, o, Complete(c, s, i, Amount(c, s.slots[i]), OK), y)
  {
    hide RoundUp, Read, Write, Payload, Own, Local;
    var sl, t := s.slots[i], Land(s, i);
    NoErrorSeen(c, sl, Amount(c, sl));
    assert s.(error := 0) == s;
    LandSound(c, o, s, i, 0, spoiled);
    OutGrows(c, o, s, spoiled);
    LandedPayload(c, o, s, i, y);
    RunningAccepted(c, o, t, i);
    assert OnlyTailsBut(c, t, i);
    if sl.phase == Populating {
      ReadLocal(c, t, i, OK);
      ReadTails(c, t, i, OK);
      ReadEnds(c, t, i, OK);
      LocalPayload(c, o, t, Read(c, t, i, OK), i, y);
      LocalFresh(c, t, Read(c, t, i, OK), i);
    } else {
      WriteLocal(c, t, i, OK);
      WriteTails(c, t, i, OK);
      DdControl.WriteEnds(c, t, i, OK);
      WriteStartsFresh(c, t, Write(c, t, i, OK), i);
      LocalPayload(c, o, t, Write(c, t, i, OK), i, y);
      LocalFresh(c, t, Write(c, t, i, OK), i);
    }
  }

  lemma WriteStartsFresh(c: Config, s: Job, t: Job, i: nat)
    requires Local(c, s, t, i) && t.slots[i].phase == Writing
    ensures t.slots[i].served == 0
  {}

  lemma DroppedPayload(c: Config, o: seq<byte>, s: Job, i: nat, f: Fate, y: byte)
    requires Core(c, s) && Payload(c, o, s, y) && i < |s.slots| && s.slots[i].phase == Running
    requires (f == Written || f == Lost)
    requires !BlindWrites(c) ==> ChunkStale(c, s, i, y)
    ensures Payload(c, o, Drop(s, i, f), y)
  {
    hide RoundUp;
    if !BlindWrites(c) {
      var t := Drop(s, i, f);
      forall a, b | 0 <= a < |t.slots| && 0 <= b < |t.slots[a].buf| ensures t.slots[a].buf[b] == y {
        assert t.slots[a].buf == s.slots[a].buf;
      }
      forall k | 0 <= k < |t.fate| ensures StaleByte(c, t.out, t.fate[k], k, y) {
        assert StaleByte(c, s.out, s.fate[k], k, y);
        if s.fate[k] == InFlight(i) { assert Covers(c, s.slots[i], k); }
      }
    }
  }

  lemma WrittenRolls(c: Config, o: seq<byte>, s: Job, i: nat, y: byte, spoiled: set<nat>)
    requires Runnable(c, |o|) && Core(c, s) && Sound(c, o, s, spoiled) && Settled(c, s) && s.Clean() && OnlyTails(c, s)
    requires Payload(c, o, s, y) && s.exits == [] && i < |s.slots| && s.slots[i].phase == Writing
    requires s.slots[i].served == Amount(c, s.slots[i])
    requires forall j :: 0 <= j < |s.slots| && j != i && s.slots[j].Transferring() ==> s.slots[j].served == 0
    requires !BlindWrites(c) ==> ChunkStale(c, s, i, y)
    ensures Carries(c, o, Complete(c, s, i, Amount(c, s.slots[i]), OK), y)
  {
    hide RoundUp, Seek, Payload, Local, Sound, Own, Settled, ChunkStale;
    var sl, t := s.slots[i], Land(s, i);
    var f := if sl.served == sl.size then Written else Lost;
    var d := Drop(t, i, f);
    NoErrorSeen(c, sl, Amount(c, sl));
    assert s.(error := 0) == s;
    OutGrows(c, o, s, spoiled);
    LandSound(c, o, s, i, 0, spoiled);
    LandedPayload(c, o, s, i, y);
    SameStale(c, s, t, i, y);
    DroppedPayload(c, o, t, i, f, y);
    DropCore(c, t, i, f);
    OwnFits(c, d, i);
    SeekAccepted(c, o, d, i);
    SeekLocal(c, d, i, OK);
    LocalPayload(c, o, d, Seek(c, d, i, OK), i, y);
    SeekTails(c, d, i, OK);
    SeekEnds(c, d, i, OK);
    LocalFresh(c, d, Seek(c, d, i, OK), i);
  }

  lemma SameStale(c: Config, s: Job, t: Job, i: nat, y: byte)
    requires i < |s.slots| && t == Land(s, i)
    ensures ChunkStale(c, s, i, y) ==> ChunkStale(c, t, i, y)
  {
    assert forall k: nat :: Covers(c, t.slots[i], k) ==> Covers(c, s.slots[i], k);
  }

  lemma DropCore(c: Config, s: Job, i: nat, f: Fate)
    requires Core(c, s) && i < |s.slots| && s.slots[i].phase == Running && (f == Written || f == Lost)
    ensures Core(c, Drop(s, i, f))
  {
    hide RoundUp, SlotOk, Partition, PosOk;
    DropOwn(c, s, i, f);
    TotalUpdate(s.slots, i, s.slots[i].(phase := Idle), IoWeight);
  }

  // ------------------------------------------------------------------ whole runs

  /** The run from `s` through `events` ends in `t`. */
  ghost predicate Reaches(c: Config, s: Job, events: seq<Event>, t: Job)
    requires c.outBlock > 0 && c.inBlock > 0
  {
    Feasible(c, s, events) && Perform(c, s, events) == t
  }

  lemma AtOnce(c: Config, s: Job)
    requires c.outBlock > 0 && c.inBlock > 0
    ensures Reaches(c, s, [], s)
  {}

  lemma After(c: Config, s: Job, v: Event, events: seq<Event>, t: Job)
    requires c.outBlock > 0 && c.inBlock > 0 && Enabled(c, s, v) && Reaches(c, Step(c, s, v), events, t)
    ensures Reaches(c, s, [v] + events, t)
  {
    hide Step, Enabled;
    assert ([v] + events)[1..] == events;
  }

  /** The move before a completion, when there is something to move. */
  lemma MoveRolls(c: Config, o: seq<byte>, s: Job, i: nat, y: byte, spoiled: set<nat>)
    requires Runnable(c, |o|) && Rolling(c, o, s, y, spoiled) && s.exits == []
    requires i < |s.slots| && s.slots[i].Transferring() && Amount(c, s.slots[i]) > 0
    ensures var m := Amount(c, s.slots[i]);
            && Enabled(c, s, Move(i, m))
            && var t := Step(c, s, Move(i, m));
               && Core(c, t) && Sound(c, o, t, spoiled) && Settled(c, t) && t.Clean() && OnlyTails(c, t)
               && Payload(c, o, t, y) && t.exits == [] && |t.slots| == |s.slots| && Level(c, t) == Level(c, s)
               && t.slots[i].Transferring() && t.slots[i].served == Amount(c, t.slots[i]) == m
               && (forall j :: 0 <= j < |t.slots| && j != i && t.slots[j].Transferring() ==> t.slots[j].served == 0)
               && (!BlindWrites(c) && t.slots[i].phase == Writing ==> ChunkStale(c, t, i, y))
  {
    hide RoundUp, Payload, Own, OnlyTails, Sound, Settled, Store;
    OutGrows(c, o, s, spoiled);
    AmountServable(c, o, s, i);
    var m := Amount(c, s.slots[i]);
    var t := Step(c, s, Move(i, m));
    StepSound(c, o, s, Move(i, m), spoiled);
    assert spoiled + {} == spoiled;
    StepSettled(c, s, Move(i, m));
    ServeTails(c, s, i, m);
    MovePayload(c, o, s, i, y);
    LevelSlot(c, s, t, i);
  }

  lemma {:induction false} RollsOut(c: Config, o: seq<byte>, s: Job, y: byte, spoiled: set<nat>)
    returns (events: seq<Event>, t: Job)
    requires Runnable(c, |o|) && Rolling(c, o, s, y, spoiled) && Alive(s)
    ensures Reaches(c, s, events, t) && Core(c, t) && Settled(c, t) && CleanExit(t) && Payload(c, o, t, y)
    decreases Max(0, Level(c, s))
  {
    hide RoundUp, Payload, Own, OnlyTails, Sound, Level, Step, Enabled, Reaches, Amount, SpoiledBy, Settled;
    if s.exits != [] {
      events, t := [], s;
      AtOnce(c, s);
    } else {
      var i := TotalPositive(s.slots, IoWeight);
      LevelPositive(c, s);
      var m := Amount(c, s.slots[i]);
      var u := s;
      if m > 0 {
        MoveRolls(c, o, s, i, y, spoiled);
        u := Step(c, s, Move(i, m));
      }
      OwnFacts(c, s, i);
      BlindEnough(c, s.slots[i]);
      CompleteRolls(c, o, u, i, y, spoiled);
      var w := Step(c, u, Done(i, m, OK));
      LevelPositive(c, w);
      var rest: seq<Event>;
      rest, t := RollsOut(c, o, w, y, spoiled + SpoiledBy(c, u, Done(i, m, OK)));
      After(c, u, Done(i, m, OK), rest, t);
      events := [Done(i, m, OK)] + rest;
      if m > 0 {
        After(c, s, Move(i, m), events, t);
        events := [Move(i, m)] + events;
      }
    }
  }

  /** A write that moves nothing is one that nobody checks. */
  lemma BlindEnough(c: Config, sl: Slot)
    ensures sl.phase == Writing && Amount(c, sl) == 0 && sl.length > 0 ==> BlindWrites(c)
  {}

  lemma LevelPositive(c: Config, s: Job)
    requires Core(c, s)
    ensures Level(c, s) >= 0
  {
    hide RoundUp;
  }

  // ------------------------------------------------------------------ the start

  /** An output and buffers full of `y`, and every call succeeds. */
  function StaleOutput(n: nat, y: byte): (o: seq<byte>)
    ensures |o| == n && forall q :: 0 <= q < n ==> o[q] == y
  {
    seq(n, _ => y)
  }

  function StaleHistory(c: Config, y: byte, events: seq<Event>): History {
    History(seq(c.depth, _ => StaleOutput(c.unit, y)), false, seq(c.depth, _ => OK), events)
  }

  lemma {:induction false} StartRolls(c: Config, o: seq<byte>, s: Job, k: nat, envs: seq<Env>, y: byte)
    requires Runnable(c, |o|) && Inv(c, o, s) && Rolling(c, o, s, y, {}) && s.exits == [] && k <= |envs|
    requires |envs| <= |s.slots|
    requires if k == 0 then s.pos == c.readStart && |envs| > 0 else s.outstanding >= 1
    requires forall j :: k <= j < |envs| ==> s.slots[j].phase == Idle && envs[j] == OK
    ensures var t := StartFrom(c, s, k, envs); Rolling(c, o, t, y, {}) && Alive(t)
    decreases |envs| - k
  {
    hide Rolling, Seek, Data, QueueOk, Counted, Runnable;
    RunnableMeans(c, |o|);
    if k < |envs| {
      var t := Seek(c, s, k, OK);
      SeekRolls(c, o, s, k, y, {});
      StillRunning(c, o, s, k, y);
      StartOne(c, o, s, k, envs);
      StartRolls(c, o, t, k + 1, envs, y);
    }
  }

  lemma RunnableMeans(c: Config, n: nat)
    requires Runnable(c, n)
    ensures WellFormed(c) && !c.sparse && c.depth >= 1 && c.copySize > 0
  {}

  /** While something is in flight, or nothing was handed out yet, a call of the start loop does not exit. */
  lemma StillRunning(c: Config, o: seq<byte>, s: Job, i: nat, y: byte)
    requires Runnable(c, |o|) && Rolling(c, o, s, y, {}) && s.exits == [] && i < |s.slots| && s.slots[i].phase == Idle
    requires s.pos == c.readStart || s.outstanding >= 1
    ensures Seek(c, s, i, OK).exits == [] && Seek(c, s, i, OK).outstanding >= 1
  {
    hide RoundUp, Populate, Payload, Sound;
    OwnFits(c, s, i);
    OutGrows(c, o, s, {});
    SeekAccepted(c, o, s, i);
    SeekEnds(c, s, i, OK);
    if s.outstanding >= 1 { PopulateNeverLowers(c, s, i, OK); } else { PopulateBusy(c, s, i, OK); }
  }

  lemma InitialRolls(c: Config, n: nat, y: byte)
    requires Runnable(c, n) && (BlindWrites(c) || c.inKind == Bdev)
    ensures var o := StaleOutput(n, y);
            Rolling(c, o, Initial(c, o, StaleHistory(c, y, []).bufs, false), y, {})
  {
    hide RoundUp;
    var o, h := StaleOutput(n, y), StaleHistory(c, y, []);
    InitialInv(c, o, h.bufs, false);
    InitialSound(c, o, h);
    CoreOf(c, o, Initial(c, o, h.bufs, false));
  }

  lemma StartedRolls(c: Config, n: nat, y: byte)
    requires Runnable(c, n) && (BlindWrites(c) || c.inKind == Bdev)
    ensures var o, h := StaleOutput(n, y), StaleHistory(c, y, []);
            Starts(c, h) && Rolling(c, o, Started(c, o, h), y, {}) && Alive(Started(c, o, h))
  {
    hide Rolling, Runnable, StartFrom, Inv;
    var o, h := StaleOutput(n, y), StaleHistory(c, y, []);
    RunnableMeans(c, n);
    InitialRolls(c, n, y);
    InitialInv(c, o, h.bufs, false);
    StartRolls(c, o, Initial(c, o, h.bufs, false), 0, h.envs, y);
  }

  // ------------------------------------------------------------------ the exact condition

  /** If the run exits cleanly, it has made the copy. */
  ghost predicate Faithful(c: Config, o: seq<byte>, h: History) {
    Starts(c, h) && Feasible(c, Started(c, o, h), h.events) ==>
      var s := Perform(c, Started(c, o, h), h.events); CleanExit(s) ==> IsCopy(c, o, s.out)
  }

  lemma StaleIsNoCopy(c: Config, n: nat, s: Job, y: byte)
    requires Runnable(c, n) && Core(c, s) && Settled(c, s) && CleanExit(s) && Payload(c, StaleOutput(n, y), s, y)
    requires y != c.input[c.readStart]
    ensures !IsCopy(c, StaleOutput(n, y), s.out)
  {
    hide RoundUp, Store;
    var o := StaleOutput(n, y);
    NothingOwned(c, s);
    if !BlindWrites(c) { assert StaleByte(c, s.out, s.fate[0], 0, y); }
    CopyFirst(c, o, s.out);
  }

  lemma CopyFirst(c: Config, o: seq<byte>, out: seq<byte>)
    requires c.copySize > 0 && c.End() <= |c.input|
    ensures IsCopy(c, o, out) ==> c.writeStart < |out| && At(out, c.writeStart) == c.input[c.readStart]
  {}

  /** A run that exits cleanly and has not made the copy, for every combination but libaio between files. */
  lemma CorruptRun(c: Config, n: nat) returns (o: seq<byte>, h: History)
    requires Runnable(c, n) && !AioFiles(c)
    ensures |o| == n && !Faithful(c, o, h)
  {
    hide Rolling, Started, Payload, Core, Settled, IsCopy;
    var y: byte := if c.input[c.readStart] == 0 then 1 else 0;
    o := StaleOutput(n, y);
    StartedRolls(c, n, y);
    var events, t := RollsOut(c, o, Started(c, o, StaleHistory(c, y, [])), y, {});
    h := StaleHistory(c, y, events);
    assert Started(c, o, h) == Started(c, o, StaleHistory(c, y, [])) by { SameStart(c, o, y, events); }
    StaleIsNoCopy(c, n, t, y);
  }

  lemma SameStart(c: Config, o: seq<byte>, y: byte, events: seq<Event>)
    requires WellFormed(c)
    ensures Started(c, o, StaleHistory(c, y, events)) == Started(c, o, StaleHistory(c, y, []))
  {}

  /**
   * The exact condition: for a dense copy whose devices hold its regions, every clean exit of every run over every
   * output of that size is the copy, whatever the devices do, if and only if libaio copies between files. Everywhere
   * else a short io_uring result, or a failed bdev transfer, can pass for success.
   */
  lemma EveryCleanExitIsCopyIff(c: Config, n: nat)
    requires Runnable(c, n)
    ensures (forall o: seq<byte>, h: History :: |o| == n ==> Faithful(c, o, h)) <==> AioFiles(c)
  {
    hide Runnable, Feasible, Perform, Started;
    RunnableMeans(c, n);
    if AioFiles(c) {
      forall o: seq<byte>, h: History | |o| == n ensures Faithful(c, o, h) {
        if Starts(c, h) && Feasible(c, Started(c, o, h), h.events) { AioFilesNeverCorrupt(c, o, h); }
      }
    } else {
      var o, h := CorruptRun(c, n);
    }
  }
}
