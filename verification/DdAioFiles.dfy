/**
 * With libaio and a file on both sides nothing falls short unnoticed that matters: the poller compares every result
 * with the chunk length, so whatever the devices do, a clean exit of a dense run is the copy.
 */
module DdAioFiles {
  import opened Bytes
  import opened DdSpec
  import opened DdInvariant
  import opened DdPrimitives
  import opened DdRuns
  import opened DdExit
  import opened DdTheorems
  import opened DdDamage

  ghost predicate AioFiles(c: Config) {
    !c.sparse && c.engine == Aio && c.inKind == File && c.outKind == File
  }

  /** No write has moved bytes past its chunk. */
  ghost predicate NoOverrun(s: Job) {
    forall i :: 0 <= i < |s.slots| && s.slots[i].phase == Writing ==> s.slots[i].served <= s.slots[i].length
  }

  /** The output past the write region is as it was. */
  ghost predicate Clear(c: Config, o: seq<byte>, out: seq<byte>) {
    && |out| <= Max(|o|, c.writeStart + c.copySize)
    && forall q: nat :: q >= c.writeStart + c.copySize ==> At(out, q) == At(o, q)
  }

  /** In flight, or copied whether or not its whole blocks were written. */
  ghost predicate ByteKept(c: Config, out: seq<byte>, f: Fate, k: nat) {
    f.InFlight? || ((f == Written || f == Lost) && Copied(c, out, k))
  }

  ghost predicate Kept(c: Config, o: seq<byte>, s: Job, spoiled: set<nat>) {
    && (forall i :: 0 <= i < |s.slots| && s.slots[i].Owns() ==> Unspoiled(c, s.slots[i], spoiled))
    && (s.Clean() ==> forall k :: 0 <= k < |s.fate| ==> ByteKept(c, s.out, s.fate[k], k))
    && (s.Clean() && NoOverrun(s) ==> Clear(c, o, s.out))
  }

  // ------------------------------------------------------------------ what one call changes

  /** A call on slot `i` leaves the output and the other slots; while clean it only hands out more bytes to `i`. */
  ghost predicate Local(c: Config, s: Job, t: Job, i: nat) {
    && i < |s.slots| == |t.slots| && t.out == s.out && (t.Clean() ==> s.Clean())
    && (forall j :: 0 <= j < |s.slots| && j != i ==> t.slots[j] == s.slots[j])
    && (t.slots[i].phase == Writing ==> t.slots[i].served == 0)
    && (t.Clean() ==> |s.fate| <= |t.fate| && (forall k :: 0 <= k < |s.fate| ==> t.fate[k] == s.fate[k])
                      && forall k :: |s.fate| <= k < |t.fate| ==> t.fate[k] == InFlight(i))
  }

  lemma ReadLocal(c: Config, s: Job, i: nat, e: Env)
    requires i < |s.slots| && s.slots[i].phase == Running
    ensures var t := Read(c, s, i, e);
            && Local(c, s, t, i)
            && (t.slots[i].Owns() ==> t.slots[i].offset == s.slots[i].offset && t.slots[i].length == s.slots[i].length)
  {}

  lemma WriteLocal(c: Config, s: Job, i: nat, e: Env)
    requires c.outBlock > 0 && i < |s.slots| && s.slots[i].phase == Running
    ensures var t := Write(c, s, i, e);
            && Local(c, s, t, i)
            && (t.slots[i].Owns() ==> t.slots[i].offset == s.slots[i].offset && t.slots[i].length == s.slots[i].length)
  {
    hide RoundUp;
  }

  lemma SeekLocal(c: Config, s: Job, i: nat, e: Env)
    requires c.outBlock > 0 && c.inBlock > 0 && !c.sparse && i < |s.slots| && s.slots[i].phase == Idle
    ensures var t := Seek(c, s, i, e); Local(c, s, t, i) && (t.slots[i].Owns() ==> t.slots[i].offset == s.pos)
  {
    hide RoundUp, Target, Sub64;
  }

  /** Such a call keeps everything, once its own slot is seen to hold unspoiled bytes. */
  lemma LocalKept(c: Config, o: seq<byte>, s: Job, t: Job, i: nat, spoiled: set<nat>)
    requires Kept(c, o, s, spoiled) && Local(c, s, t, i) && s.slots[i].phase != Writing
    requires t.slots[i].Owns() ==> Unspoiled(c, t.slots[i], spoiled)
    ensures Kept(c, o, t, spoiled)
  {
    hide Clear, Unspoiled;
    if t.Clean() {
      forall k | 0 <= k < |t.fate| ensures ByteKept(c, t.out, t.fate[k], k) {
        if k < |s.fate| { assert ByteKept(c, s.out, s.fate[k], k); }
      }
      if NoOverrun(t) { assert NoOverrun(s); }
    }
  }

  // ------------------------------------------------------------------ the device moves bytes

  lemma MoveClear(c: Config, o: seq<byte>, s: Job, i: nat, n: nat)
    requires WellFormed(c) && Own(c, s) && i < |s.slots| && CanServe(c, s, i, n) && s.slots[i].phase == Writing
    requires NoOverrun(s) ==> Clear(c, o, s.out)
    ensures NoOverrun(Serve(c, s, i, n)) ==> Clear(c, o, Serve(c, s, i, n).out)
  {
    hide RoundUp, Store;
    var sl, t := s.slots[i], Serve(c, s, i, n);
    assert SlotOk(c, s, sl);
    if NoOverrun(t) {
      assert t.slots[i].served <= sl.length;
      assert NoOverrun(s) by {
        forall j | 0 <= j < |s.slots| && s.slots[j].phase == Writing ensures s.slots[j].served <= s.slots[j].length {
          assert j != i ==> t.slots[j] == s.slots[j];
        }
      }
    }
  }

  lemma MoveKept(c: Config, o: seq<byte>, s: Job, i: nat, n: nat, spoiled: set<nat>)
    requires Core(c, s) && Kept(c, o, s, spoiled) && i < |s.slots| && CanServe(c, s, i, n)
    ensures Kept(c, o, Serve(c, s, i, n), spoiled)
  {
    hide RoundUp, Store, Clear, Unspoiled;
    var sl, t := s.slots[i], Serve(c, s, i, n);
    SameChunk0(c, sl, t.slots[i], spoiled);
    if sl.phase == Writing {
      if s.Clean() {
        MoveClear(c, o, s, i, n);
        forall k | 0 <= k < |t.fate| ensures ByteKept(c, t.out, t.fate[k], k) {
          assert ByteKept(c, s.out, s.fate[k], k);
          if !s.fate[k].InFlight? { OthersUntouched(c, s, i, n, k); }
        }
      }
    } else if s.Clean() && NoOverrun(t) {
      assert forall j :: 0 <= j < |s.slots| && s.slots[j].phase == Writing ==> t.slots[j] == s.slots[j];
      assert NoOverrun(s);
    }
  }

  lemma SameChunk0(c: Config, sl: Slot, v: Slot, spoiled: set<nat>)
    requires v.offset == sl.offset && v.length == sl.length
    ensures Unspoiled(c, v, spoiled) == Unspoiled(c, sl, spoiled)
  {
    assert ChunkBytes(c, v) == ChunkBytes(c, sl);
  }

  // ------------------------------------------------------------------ completions

  /** A clean result says that exactly the chunk was moved; only a rounded request can differ from that unnoticed. */
  lemma ResultIsLength(c: Config, s: Job, i: nat, res: int, e: Env)
    requires AioFiles(c) && c.outBlock > 0 && Enabled(c, s, Done(i, res, e)) && SlotOk(c, s, s.slots[i])
    requires ErrorAfter(c, s.error, s.slots[i], res) == 0
    ensures s.error == 0 || res == s.slots[i].length
    ensures res == s.slots[i].served == s.slots[i].length
    ensures s.slots[i].phase == Reading ==> !Silent(c, s, i, res)
  {}

  lemma ReadNeverSpoils(c: Config, s: Job, i: nat, res: int, e: Env)
    requires AioFiles(c) && c.outBlock > 0 && Enabled(c, s, Done(i, res, e)) && SlotOk(c, s, s.slots[i])
    requires s.slots[i].phase == Reading
    ensures SpoiledBy(c, s, Done(i, res, e)) == {}
  {}

  lemma LandedKept(c: Config, o: seq<byte>, s: Job, i: nat, error: int, spoiled: set<nat>)
    requires Kept(c, o, s, spoiled) && i < |s.slots| && s.slots[i].Transferring() && (s.error != 0 ==> error != 0)
    requires s.slots[i].phase == Writing && error == 0 ==> s.slots[i].served <= s.slots[i].length
    ensures Kept(c, o, Land(s.(error := error), i), spoiled)
  {
    hide Clear, Unspoiled, Copied;
    var t := Land(s.(error := error), i);
    SameChunk0(c, s.slots[i], t.slots[i], spoiled);
    if t.Clean() && NoOverrun(t) {
      forall j | 0 <= j < |s.slots| && s.slots[j].phase == Writing ensures s.slots[j].served <= s.slots[j].length {
        assert j != i ==> t.slots[j] == s.slots[j];
      }
    }
  }

  /** A write that moved exactly its chunk has copied it, and its slot lets go of it. */
  lemma DropKept(c: Config, o: seq<byte>, s: Job, i: nat, f: Fate, spoiled: set<nat>)
    requires WellFormed(c) && Own(c, s) && Kept(c, o, s, spoiled) && i < |s.slots| && s.slots[i].phase == Running
    requires f == Written || f == Lost
    requires s.Clean() ==> c.readStart <= s.slots[i].offset && Loaded(c, s.slots[i], s.slots[i].length)
                           && Stored(c, s.out, s.slots[i], s.slots[i].length)
    ensures Kept(c, o, Drop(s, i, f), spoiled + ChunkBytes(c, s.slots[i])) && Kept(c, o, Drop(s, i, f), spoiled)
  {
    hide RoundUp, Clear;
    var t, sl := Drop(s, i, f), s.slots[i];
    assert SlotOk(c, s, sl);
    forall j | 0 <= j < |t.slots| && t.slots[j].Owns()
      ensures Unspoiled(c, t.slots[j], spoiled) && Unspoiled(c, t.slots[j], spoiled + ChunkBytes(c, sl))
    {
      assert t.slots[j] == s.slots[j];
      ChunksApart(c, s, i, j, spoiled);
    }
    if s.Clean() {
      forall k | 0 <= k < |t.fate| ensures ByteKept(c, t.out, t.fate[k], k) {
        assert ByteKept(c, s.out, s.fate[k], k);
        if s.fate[k] == InFlight(i) {
          var q := c.writeStart + k;
          assert At(s.out, q) == sl.buf[q - Place(c, sl.offset)];
        }
      }
      if NoOverrun(t) {
        assert forall j :: 0 <= j < |s.slots| && s.slots[j].phase == Writing ==> t.slots[j] == s.slots[j];
      }
    }
  }

  lemma FilledKept(c: Config, o: seq<byte>, s: Job, i: nat, res: int, e: Env, spoiled: set<nat>)
    requires AioFiles(c) && Core(c, s) && Kept(c, o, s, spoiled) && Enabled(c, s, Done(i, res, e))
    requires s.slots[i].phase != Writing
    ensures Kept(c, o, Complete(c, s, i, res, e), spoiled + SpoiledBy(c, s, Done(i, res, e)))
  {
    hide RoundUp, Read, Write, Kept, Local, Unspoiled;
    var sl := s.slots[i];
    var t := Land(s.(error := ErrorAfter(c, s.error, sl, res)), i);
    assert SlotOk(c, s, sl);
    if sl.phase == Reading { ReadNeverSpoils(c, s, i, res, e); }
    assert spoiled + SpoiledBy(c, s, Done(i, res, e)) == spoiled;
    LandedKept(c, o, s, i, ErrorAfter(c, s.error, sl, res), spoiled);
    assert Unspoiled(c, t.slots[i], spoiled) by { OwnerUnspoiled(c, o, t, i, spoiled); }
    var r := if sl.phase == Populating then Read(c, t, i, e) else Write(c, t, i, e);
    if sl.phase == Populating { ReadLocal(c, t, i, e); } else { WriteLocal(c, t, i, e); }
    if r.slots[i].Owns() { SameChunk0(c, t.slots[i], r.slots[i], spoiled); }
    LocalKept(c, o, t, r, i, spoiled);
  }

  lemma OwnerUnspoiled(c: Config, o: seq<byte>, s: Job, i: nat, spoiled: set<nat>)
    requires Kept(c, o, s, spoiled) && i < |s.slots| && s.slots[i].Owns()
    ensures Unspoiled(c, s.slots[i], spoiled)
  {}

  /** The write of slot `i` has come back and its chunk is let go of. */
  lemma LetGo(c: Config, o: seq<byte>, s: Job, i: nat, res: int, e: Env, spoiled: set<nat>)
    requires AioFiles(c) && Core(c, s) && Sound(c, o, s, spoiled) && Kept(c, o, s, spoiled)
    requires Enabled(c, s, Done(i, res, e)) && s.slots[i].phase == Writing
    ensures var sl, more := s.slots[i], spoiled + SpoiledBy(c, s, Done(i, res, e));
            var d := Drop(Land(s.(error := ErrorAfter(c, s.error, sl, res)), i), i,
                          if sl.served == sl.size then Written else Lost);
            Kept(c, o, d, more)
  {
    hide RoundUp, Kept, Unspoiled, Contained, ByteSound, Partition, PosOk;
    var sl, more := s.slots[i], spoiled + SpoiledBy(c, s, Done(i, res, e));
    var t := Land(s.(error := ErrorAfter(c, s.error, sl, res)), i);
    assert SlotOk(c, s, sl) && SlotSound(c, s.out, sl, spoiled);
    OwnerUnspoiled(c, o, s, i, spoiled);
    if t.Clean() { ResultIsLength(c, s, i, res, e); }
    LandedKept(c, o, s, i, ErrorAfter(c, s.error, sl, res), spoiled);
    LandSound(c, o, s, i, ErrorAfter(c, s.error, sl, res), spoiled);
    DropKept(c, o, t, i, if sl.served == sl.size then Written else Lost, spoiled);
    assert ChunkBytes(c, t.slots[i]) == ChunkBytes(c, sl);
    if SpoiledBy(c, s, Done(i, res, e)) == {} { assert more == spoiled; }
  }

  lemma WrittenKept(c: Config, o: seq<byte>, s: Job, i: nat, res: int, e: Env, spoiled: set<nat>)
    requires AioFiles(c) && Core(c, s) && Sound(c, o, s, spoiled) && Kept(c, o, s, spoiled)
    requires Enabled(c, s, Done(i, res, e)) && s.slots[i].phase == Writing
    ensures Kept(c, o, Complete(c, s, i, res, e), spoiled + SpoiledBy(c, s, Done(i, res, e)))
  {
    hide RoundUp, Seek, Kept, Local, Unspoiled, Contained, ByteSound, SlotSound;
    var sl, more := s.slots[i], spoiled + SpoiledBy(c, s, Done(i, res, e));
    assert SlotOk(c, s, sl);
    LetGo(c, o, s, i, res, e, spoiled);
    var d := Drop(Land(s.(error := ErrorAfter(c, s.error, sl, res)), i), i,
                  if sl.served == sl.size then Written else Lost);
    SeekLocal(c, d, i, e);
    FreshUnspoiled(c, o, d, Seek(c, d, i, e), i, more);
    LocalKept(c, o, d, Seek(c, d, i, e), i, more);
  }

  /** A chunk that was just claimed is beyond everything spoiled. */
  lemma FreshUnspoiled(c: Config, o: seq<byte>, s: Job, t: Job, i: nat, spoiled: set<nat>)
    requires c.outBlock > 0 && i < |t.slots| && (t.slots[i].Owns() ==> t.slots[i].offset == s.pos)
    requires c.readStart <= s.pos && |s.fate| == s.pos - c.readStart && forall k :: k in spoiled ==> k < |s.fate|
    ensures t.slots[i].Owns() ==> Unspoiled(c, t.slots[i], spoiled)
  {}

  // ------------------------------------------------------------------ whole runs

  lemma StepKept(c: Config, o: seq<byte>, s: Job, v: Event, spoiled: set<nat>)
    requires AioFiles(c) && Core(c, s) && Sound(c, o, s, spoiled) && Kept(c, o, s, spoiled) && Enabled(c, s, v)
    ensures Kept(c, o, Step(c, s, v), spoiled + SpoiledBy(c, s, v))
  {
    hide RoundUp, Complete, Serve, Own, Sound, Clear, Unspoiled, Copied;
    assert !v.Done? ==> spoiled + SpoiledBy(c, s, v) == spoiled;
    match v {
      case Move(i, n) => MoveKept(c, o, s, i, n, spoiled);
      case Done(i, res, e) =>
        if s.slots[i].phase == Writing {
          WrittenKept(c, o, s, i, res, e, spoiled);
        } else {
          FilledKept(c, o, s, i, res, e, spoiled);
        }
      case SeekDone(_, _) => assert false;
      case _ =>
    }
  }

  lemma {:induction false} PerformKept(c: Config, o: seq<byte>, s: Job, events: seq<Event>, spoiled: set<nat>)
    requires AioFiles(c) && Core(c, s) && Sound(c, o, s, spoiled) && Kept(c, o, s, spoiled) && Feasible(c, s, events)
    ensures Kept(c, o, Perform(c, s, events), spoiled + Spoiled(c, s, events))
    decreases |events|
  {
    hide Kept, Sound, Own, Step, SpoiledBy, Enabled;
    if events == [] {
      assert spoiled + Spoiled(c, s, events) == spoiled;
    } else {
      var v := events[0];
      StepSound(c, o, s, v, spoiled);
      StepKept(c, o, s, v, spoiled);
      PerformKept(c, o, Step(c, s, v), events[1..], spoiled + SpoiledBy(c, s, v));
      assert spoiled + SpoiledBy(c, s, v) + Spoiled(c, Step(c, s, v), events[1..]) == spoiled + Spoiled(c, s, events);
    }
  }

  lemma {:induction false} StartKept(c: Config, o: seq<byte>, s: Job, k: nat, envs: seq<Env>)
    requires Inv(c, o, s) && !c.sparse && Kept(c, o, s, {}) && k <= |envs| && |envs| <= |s.slots|
    requires forall j :: k <= j < |envs| ==> s.slots[j].phase == Idle
    ensures Kept(c, o, StartFrom(c, s, k, envs), {})
    decreases |envs| - k
  {
    hide Kept, Data, QueueOk, Counted, Seek, Local;
    if k < |envs| {
      SeekLocal(c, s, k, envs[k]);
      FreshUnspoiled(c, o, s, Seek(c, s, k, envs[k]), k, {});
      LocalKept(c, o, s, Seek(c, s, k, envs[k]), k, {});
      StartOne(c, o, s, k, envs);
      StartKept(c, o, Seek(c, s, k, envs[k]), k + 1, envs);
    }
  }

  lemma StartedKept(c: Config, o: seq<byte>, h: History)
    requires Starts(c, h) && !c.sparse
    ensures Kept(c, o, Started(c, o, h), {})
  {
    hide StartFrom, Inv;
    InitialInv(c, o, h.bufs, h.interrupted);
    StartKept(c, o, Initial(c, o, h.bufs, h.interrupted), 0, h.envs);
  }

  /** The output is the original output with the read region stored at the write region. */
  ghost predicate IsCopy(c: Config, o: seq<byte>, out: seq<byte>) {
    c.End() <= |c.input| && out == Store(o, c.writeStart, c.input, c.readStart, c.copySize)
  }

  lemma KeptIsCopy(c: Config, o: seq<byte>, s: Job, spoiled: set<nat>)
    requires Core(c, s) && Settled(c, s) && Contained(c, o, s.out) && Kept(c, o, s, spoiled) && CleanExit(s)
    requires c.copySize > 0 && !c.sparse
    ensures IsCopy(c, o, s.out)
  {
    hide RoundUp;
    NothingOwned(c, s);
    forall k: nat | k < c.copySize ensures Copied(c, s.out, k) {
      assert ByteKept(c, s.out, s.fate[k], k);
    }
    AllCopied(c, o, s.out);
  }

  /** After a clean exit no slot holds a chunk. */
  lemma NothingOwned(c: Config, s: Job)
    requires Core(c, s) && Settled(c, s) && CleanExit(s) && !c.sparse
    ensures |s.fate| == c.copySize && NoOverrun(s) && forall k :: 0 <= k < |s.fate| ==> !s.fate[k].InFlight?
  {
    hide RoundUp;
    forall i | 0 <= i < |s.slots| ensures !s.slots[i].Owns() {
      TotalAtLeast(s.slots, i, IoWeight);
    }
  }

  lemma AllCopied(c: Config, o: seq<byte>, out: seq<byte>)
    requires c.outBlock > 0 && c.copySize > 0 && Contained(c, o, out) && Clear(c, o, out)
    requires forall k: nat :: k < c.copySize ==> Copied(c, out, k)
    ensures IsCopy(c, o, out)
  {
    hide RoundUp, Store;
    assert Copied(c, out, c.copySize - 1);
    var r := Store(o, c.writeStart, c.input, c.readStart, c.copySize);
    forall q: nat | q < |out| ensures At(out, q) == At(r, q) {
      if c.writeStart <= q < c.writeStart + c.copySize { assert Copied(c, out, q - c.writeStart); }
    }
    SameBytes(out, r);
  }

  /**
   * With libaio between files, whatever the devices do and whatever the sizes, a dense run that exits cleanly has made
   * the copy. The unaligned tail included: there only a result of exactly the chunk goes unnoticed.
   */
  lemma AioFilesNeverCorrupt(c: Config, o: seq<byte>, h: History)
    requires Starts(c, h) && AioFiles(c) && c.copySize > 0 && Feasible(c, Started(c, o, h), h.events)
    ensures var s := Perform(c, Started(c, o, h), h.events); CleanExit(s) ==> IsCopy(c, o, s.out)
  {
    hide Core, Settled, Kept, Feasible, Perform, Spoiled, Started, RoundUp;
    var s := Perform(c, Started(c, o, h), h.events);
    StartedSound(c, o, h);
    StartedSettled(c, o, h);
    StartedKept(c, o, h);
    PerformSound(c, o, Started(c, o, h), h.events, {});
    PerformKept(c, o, Started(c, o, h), h.events, {});
    if CleanExit(s) { KeptIsCopy(c, o, s, {} + Spoiled(c, Started(c, o, h), h.events)); }
  }
}
