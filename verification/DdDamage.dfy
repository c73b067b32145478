/**
 * Dense runs, and sparse runs from a file, in which transfers may fall short unnoticed. Nothing is assumed about the
 * devices: a completion reports an
 * error or the bytes moved, and the code may take either for success. What such runs spoil, and what they cannot.
 */
module DdDamage {
  import opened Bytes
  import opened DdSpec
  import opened DdInvariant
  import opened DdPrimitives
  import opened DdSteps
  import opened DdCalls
  import opened DdRuns
  import opened DdControl
  import opened DdExit
  import opened DdSafety

  // ------------------------------------------------------------------ runs

  predicate Feasible(c: Config, s: Job, events: seq<Event>)
    requires c.outBlock > 0 && c.inBlock > 0
    decreases |events|
  {
    events != [] ==> Enabled(c, s, events[0]) && Feasible(c, Step(c, s, events[0]), events[1..])
  }

  function Perform(c: Config, s: Job, events: seq<Event>): Job
    requires c.outBlock > 0 && c.inBlock > 0 && Feasible(c, s, events)
    decreases |events|
  {
    if events == [] then s else Perform(c, Step(c, s, events[0]), events[1..])
  }

  /** Byte `k` of the read region lies in the slot's chunk. */
  predicate Covers(c: Config, sl: Slot, k: nat) {
    sl.offset <= c.readStart + k < sl.offset + sl.length
  }

  ghost function ChunkBytes(c: Config, sl: Slot): set<nat> {
    set k: nat | k < sl.offset + sl.length && Covers(c, sl, k)
  }

  /** What an event spoils: the chunk of a read or write that fell short without the code noticing. */
  ghost function SpoiledBy(c: Config, s: Job, v: Event): set<nat>
    requires Enabled(c, s, v)
  {
    if v.Done? && s.slots[v.i].phase != Populating && Silent(c, s, v.i, v.res) then ChunkBytes(c, s.slots[v.i]) else {}
  }

  ghost function Spoiled(c: Config, s: Job, events: seq<Event>): set<nat>
    requires c.outBlock > 0 && c.inBlock > 0 && Feasible(c, s, events)
    decreases |events|
  {
    if events == [] then {} else SpoiledBy(c, s, events[0]) + Spoiled(c, Step(c, s, events[0]), events[1..])
  }

  // ------------------------------------------------------------------ the invariant

  /** The end of the last whole block of the write region. */
  function RoundedEnd(c: Config): nat
    requires c.outBlock > 0
  {
    c.writeStart + RoundUp(c.copySize, c.outBlock)
  }

  ghost predicate Core(c: Config, s: Job) {
    && WellFormed(c) && !c.SparseBdev() && Own(c, s) && s.outstanding == Total(s.slots, IoWeight)
    && forall i :: 0 <= i < |s.slots| ==> !Waiting(s.slots[i])
  }

  /** Only the rounded write region may have changed. */
  ghost predicate Contained(c: Config, o: seq<byte>, out: seq<byte>)
    requires c.outBlock > 0
  {
    && |o| <= |out| <= Max(|o|, RoundedEnd(c))
    && forall q: nat :: q < c.writeStart || q >= RoundedEnd(c) ==> At(out, q) == At(o, q)
  }

  ghost predicate Unspoiled(c: Config, sl: Slot, spoiled: set<nat>) {
    forall k: nat :: k in ChunkBytes(c, sl) ==> k !in spoiled
  }

  /** Spoiled whole, or sound: what is read so far is the input's, what is written so far is the buffer's. */
  ghost predicate SlotSound(c: Config, out: seq<byte>, sl: Slot, spoiled: set<nat>)
    requires c.outBlock > 0
  {
    sl.Owns() ==>
      && c.readStart <= sl.offset
      && (Unspoiled(c, sl, spoiled) || ChunkBytes(c, sl) <= spoiled)
      && (Unspoiled(c, sl, spoiled) && sl.phase == Reading ==> Loaded(c, sl, sl.served))
      && (Unspoiled(c, sl, spoiled) && sl.phase == Writing ==> Loaded(c, sl, sl.length))
      && (sl.phase == Writing ==> Stored(c, out, sl, sl.served))
  }

  /** Byte `k` of the copy is in the output. */
  ghost predicate Copied(c: Config, out: seq<byte>, k: nat) {
    && c.readStart + k < |c.input| && c.writeStart + k < |out|
    && At(out, c.writeStart + k) == c.input[c.readStart + k]
  }

  /** The output is as it was where byte `k` would go. */
  ghost predicate Spared(c: Config, o: seq<byte>, out: seq<byte>, k: nat) {
    At(out, c.writeStart + k) == At(o, c.writeStart + k)
  }

  ghost predicate ByteSound(c: Config, o: seq<byte>, out: seq<byte>, clean: bool, f: Fate, k: nat)
    requires c.outBlock > 0
  {
    && (f == Written ==> Copied(c, out, k) && (k == c.copySize - 1 ==> RoundedEnd(c) <= |out|))
    && (f == Hole ==> c.sparse && !IsData(c, c.readStart + k) && Spared(c, o, out, k))
    && (f != Hole && c.sparse ==> IsData(c, c.readStart + k))
    && (clean ==> f != Lost && f != Abandoned)
  }

  /** What is not handed out yet is untouched. */
  ghost predicate Ahead(c: Config, o: seq<byte>, s: Job) {
    forall k: nat :: |s.fate| <= k < c.copySize ==> Spared(c, o, s.out, k)
  }

  ghost predicate Sound(c: Config, o: seq<byte>, s: Job, spoiled: set<nat>)
    requires c.outBlock > 0
  {
    && Contained(c, o, s.out) && Ahead(c, o, s)
    && (forall k :: k in spoiled ==> k < |s.fate|)
    && (forall i :: 0 <= i < |s.slots| ==> SlotSound(c, s.out, s.slots[i], spoiled))
    && (forall k :: 0 <= k < |s.fate| && k !in spoiled ==> ByteSound(c, o, s.out, s.Clean(), s.fate[k], k))
  }

  // ------------------------------------------------------------------ primitives

  /** One slot changes, its chunk does not. */
  lemma SlotStays(c: Config, o: seq<byte>, s: Job, t: Job, i: nat, v: Slot, spoiled: set<nat>)
    requires Core(c, s) && Sound(c, o, s, spoiled) && i < |s.slots| && !Waiting(v)
    requires t.pos == s.pos && t.fate == s.fate && t.out == s.out && t.slots == s.slots[i := v]
    requires (!s.Clean() ==> !t.Clean())
    requires t.outstanding - s.outstanding == IoWeight(v) - IoWeight(s.slots[i])
    requires SlotOk(c, s, v) && v.Owns() == s.slots[i].Owns() && SlotSound(c, s.out, v, spoiled)
    requires v.Owns() ==> v.offset == s.slots[i].offset && v.length == s.slots[i].length
    ensures Core(c, t) && Sound(c, o, t, spoiled)
  {
    hide RoundUp, SlotSound, Contained, ByteSound;
    OwnUpdate(c, s, t, i, v);
    TotalUpdate(s.slots, i, v, IoWeight);
    forall k | 0 <= k < |t.fate| && k !in spoiled ensures ByteSound(c, o, t.out, t.Clean(), t.fate[k], k) {
      ByteStays(c, o, s.out, s.Clean(), t.Clean(), s.fate[k], k);
    }
  }

  lemma ByteStays(c: Config, o: seq<byte>, out: seq<byte>, before: bool, now: bool, f: Fate, k: nat)
    requires c.outBlock > 0 && ByteSound(c, o, out, before, f, k) && (now ==> before)
    ensures ByteSound(c, o, out, now, f, k)
  {}

  lemma SlotSoundRunning(c: Config, out: seq<byte>, sl: Slot, v: Slot, spoiled: set<nat>)
    requires c.outBlock > 0 && SlotSound(c, out, sl, spoiled) && sl.Owns() && v.Owns()
    requires v.offset == sl.offset && v.length == sl.length && v.buf == sl.buf
    requires v.phase == Running || v.phase == Populating || (v.served == 0 && v.phase == Reading)
             || (v.served == 0 && v.phase == Writing && (Unspoiled(c, sl, spoiled) ==> Loaded(c, sl, sl.length)))
    ensures SlotSound(c, out, v, spoiled)
  {
    assert ChunkBytes(c, v) == ChunkBytes(c, sl);
  }

  lemma LaunchSound(c: Config, o: seq<byte>, s: Job, i: nat, p: Phase, at: nat, size: nat, spoiled: set<nat>)
    requires Core(c, s) && Sound(c, o, s, spoiled) && i < |s.slots| && s.slots[i].phase == Running
    requires p == Populating || p == Reading || p == Writing
    requires size == if p == Reading then s.slots[i].length else RoundUp(s.slots[i].length, c.outBlock)
    requires c.readStart <= s.slots[i].offset
    requires at == if p == Reading then s.slots[i].offset else Place(c, s.slots[i].offset)
    requires p == Writing && Unspoiled(c, s.slots[i], spoiled) ==> Loaded(c, s.slots[i], s.slots[i].length)
    ensures Core(c, Launch(s, i, p, at, size)) && Sound(c, o, Launch(s, i, p, at, size), spoiled)
  {
    hide RoundUp, Contained, ByteSound, SlotSound;
    var v := s.slots[i].(phase := p, at := at, size := size, served := 0);
    assert SlotOk(c, s, s.slots[i]);
    SlotSoundRunning(c, s.out, s.slots[i], v, spoiled);
    SlotStays(c, o, s, Launch(s, i, p, at, size), i, v, spoiled);
  }

  lemma LandSound(c: Config, o: seq<byte>, s: Job, i: nat, error: int, spoiled: set<nat>)
    requires Core(c, s) && Sound(c, o, s, spoiled) && i < |s.slots| && s.slots[i].Transferring()
    requires (s.error != 0 ==> error != 0)
    ensures Core(c, Land(s.(error := error), i)) && Sound(c, o, Land(s.(error := error), i), spoiled)
  {
    hide RoundUp, Contained, ByteSound, SlotSound;
    var v := s.slots[i].(phase := Running);
    assert SlotOk(c, s, s.slots[i]);
    SlotSoundRunning(c, s.out, s.slots[i], v, spoiled);
    SlotStays(c, o, s, Land(s.(error := error), i), i, v, spoiled);
  }

  /** Giving up a chunk that was not written needs an error on record; a chunk that was written is right. */
  lemma DropSound(c: Config, o: seq<byte>, s: Job, i: nat, f: Fate, spoiled: set<nat>)
    requires Core(c, s) && Sound(c, o, s, spoiled) && i < |s.slots| && s.slots[i].phase == Running
    requires f == Written || f == Lost || f == Abandoned
    requires f != Written ==> !s.Clean() || !Unspoiled(c, s.slots[i], spoiled)
    requires f == Written && Unspoiled(c, s.slots[i], spoiled) ==>
               && c.readStart <= s.slots[i].offset && Loaded(c, s.slots[i], s.slots[i].length)
               && Stored(c, s.out, s.slots[i], RoundUp(s.slots[i].length, c.outBlock))
    ensures Core(c, Drop(s, i, f)) && Sound(c, o, Drop(s, i, f), spoiled)
  {
    hide RoundUp, Contained, Loaded, Stored, Unspoiled;
    var t, sl := Drop(s, i, f), s.slots[i];
    assert SlotOk(c, s, sl) && SlotSound(c, s.out, sl, spoiled);
    DropOwn(c, s, i, f);
    TotalUpdate(s.slots, i, sl.(phase := Idle), IoWeight);
    forall j | 0 <= j < |t.slots| ensures SlotSound(c, t.out, t.slots[j], spoiled) {
      assert j != i ==> t.slots[j] == s.slots[j];
    }
    forall k | 0 <= k < |t.fate| && k !in spoiled ensures ByteSound(c, o, t.out, t.Clean(), t.fate[k], k) {
      assert ByteSound(c, o, s.out, s.Clean(), s.fate[k], k);
      if s.fate[k] == InFlight(i) { DroppedByte(c, o, s, i, f, spoiled, k); }
    }
  }

  lemma DroppedByte(c: Config, o: seq<byte>, s: Job, i: nat, f: Fate, spoiled: set<nat>, k: nat)
    requires WellFormed(c) && Own(c, s) && i < |s.slots| && s.slots[i].phase == Running
    requires c.sparse ==> IsData(c, c.readStart + k)
    requires k < |s.fate| && s.fate[k] == InFlight(i) && k !in spoiled && SlotSound(c, s.out, s.slots[i], spoiled)
    requires f == Written || f == Lost || f == Abandoned
    requires f != Written ==> !s.Clean() || !Unspoiled(c, s.slots[i], spoiled)
    requires f == Written && Unspoiled(c, s.slots[i], spoiled) ==>
               && c.readStart <= s.slots[i].offset && Loaded(c, s.slots[i], s.slots[i].length)
               && Stored(c, s.out, s.slots[i], RoundUp(s.slots[i].length, c.outBlock))
    ensures ByteSound(c, o, s.out, s.Clean(), f, k)
  {
    hide RoundUp, Loaded, Stored;
    var sl := s.slots[i];
    assert SlotOk(c, s, sl);
    assert k in ChunkBytes(c, sl);
    if f == Written { WrittenByte(c, o, s, sl, k); }
  }

  lemma WrittenByte(c: Config, o: seq<byte>, s: Job, sl: Slot, k: nat)
    requires WellFormed(c) && SlotOk(c, s, sl) && sl.Owns() && s.pos <= c.End() && k in ChunkBytes(c, sl)
    requires Loaded(c, sl, sl.length) && Stored(c, s.out, sl, RoundUp(sl.length, c.outBlock))
    requires c.sparse ==> IsData(c, c.readStart + k)
    ensures ByteSound(c, o, s.out, s.Clean(), Written, k)
  {
    hide RoundUp;
    var q := c.writeStart + k;
    assert At(s.out, q) == sl.buf[q - Place(c, sl.offset)];
    if k == c.copySize - 1 { TailLength(c, s, sl); }
  }

  /** The chunk with the last byte ends at the rounded end. */
  lemma TailLength(c: Config, s: Job, sl: Slot)
    requires WellFormed(c) && SlotOk(c, s, sl) && sl.Owns() && sl.offset + sl.length == c.End()
    ensures Place(c, sl.offset) + RoundUp(sl.length, c.outBlock) == RoundedEnd(c)
  {
    hide RoundUp;
    RoundUpAfterBlocks(sl.offset - c.readStart, sl.length, c.outBlock);
  }

  lemma BookkeepingSound(c: Config, o: seq<byte>, s: Job, t: Job, spoiled: set<nat>)
    requires Core(c, s) && Sound(c, o, s, spoiled)
    requires t.pos == s.pos && t.outstanding == s.outstanding && t.slots == s.slots && t.out == s.out
    requires t.fate == s.fate
    requires !s.Clean() ==> !t.Clean()
    ensures Core(c, t) && Sound(c, o, t, spoiled)
  {
    hide RoundUp, SlotSound, Contained;
  }

  // ------------------------------------------------------------------ the device moves bytes

  lemma ServeWritingOut(c: Config, o: seq<byte>, s: Job, i: nat, n: nat)
    requires WellFormed(c) && Own(c, s) && i < |s.slots| && CanServe(c, s, i, n) && s.slots[i].phase == Writing
    requires Contained(c, o, s.out)
    ensures Contained(c, o, Serve(c, s, i, n).out)
  {
    hide RoundUp, Serve, Store;
    var sl := s.slots[i];
    assert SlotOk(c, s, sl);
    ServedOut(c, s, i, n);
    InsideRounded(c, s, sl);
  }

  lemma InsideRounded(c: Config, s: Job, sl: Slot)
    requires WellFormed(c) && SlotOk(c, s, sl) && sl.Owns() && c.readStart <= s.pos <= c.End()
    ensures Place(c, sl.offset) + RoundUp(sl.length, c.outBlock) <= RoundedEnd(c)
  {
    hide RoundUp;
    var skip := sl.offset - c.readStart;
    RoundUpBounds(c.copySize, c.outBlock, RoundUpWitness(c.copySize, c.outBlock));
    if sl.offset + sl.length == c.End() { TailLength(c, s, sl); }
  }

  /** The bytes of other chunks, in flight or finished, are not in the range that slot i writes. */
  lemma OthersUntouched(c: Config, s: Job, i: nat, n: nat, k: nat)
    requires WellFormed(c) && Own(c, s) && i < |s.slots| && CanServe(c, s, i, n) && s.slots[i].phase == Writing
    requires k < |s.fate| && s.fate[k] != InFlight(i)
    ensures At(Serve(c, s, i, n).out, c.writeStart + k) == At(s.out, c.writeStart + k)
  {
    hide RoundUp, Serve, Store;
    var sl := s.slots[i];
    assert SlotOk(c, s, sl);
    ServedOut(c, s, i, n);
    assert !(sl.offset <= c.readStart + k < sl.offset + sl.length);
  }

  lemma ServeWritingSlot(c: Config, s: Job, i: nat, n: nat, j: nat, spoiled: set<nat>)
    requires WellFormed(c) && Own(c, s) && i < |s.slots| && CanServe(c, s, i, n) && s.slots[i].phase == Writing
    requires j < |s.slots| && SlotSound(c, s.out, s.slots[j], spoiled)
    ensures SlotSound(c, Serve(c, s, i, n).out, Serve(c, s, i, n).slots[j], spoiled)
  {
    hide SlotSound, Own, Store;
    if j == i { OwnWriteSlot(c, s, i, n, spoiled); } else { OtherWriteSlot(c, s, i, n, j, spoiled); }
  }

  lemma OwnWriteSlot(c: Config, s: Job, i: nat, n: nat, spoiled: set<nat>)
    requires WellFormed(c) && Own(c, s) && i < |s.slots| && CanServe(c, s, i, n) && s.slots[i].phase == Writing
    requires SlotSound(c, s.out, s.slots[i], spoiled)
    ensures SlotSound(c, Serve(c, s, i, n).out, Serve(c, s, i, n).slots[i], spoiled)
  {
    hide RoundUp, Store, Unspoiled, Loaded, Partition, PosOk;
    var sl, v := s.slots[i], Serve(c, s, i, n).slots[i];
    assert SlotOk(c, s, sl);
    assert ChunkBytes(c, v) == ChunkBytes(c, sl);
    SameChunk(c, sl, v, spoiled);
  }

  lemma OtherWriteSlot(c: Config, s: Job, i: nat, n: nat, j: nat, spoiled: set<nat>)
    requires WellFormed(c) && Own(c, s) && i < |s.slots| && CanServe(c, s, i, n) && s.slots[i].phase == Writing
    requires j < |s.slots| && j != i && SlotSound(c, s.out, s.slots[j], spoiled)
    ensures SlotSound(c, Serve(c, s, i, n).out, s.slots[j], spoiled)
  {
    hide RoundUp, Store, Unspoiled, Loaded, Partition, PosOk, Serve;
    var sl, b := s.slots[j], Serve(c, s, i, n).out;
    assert SlotOk(c, s, sl) && SlotOk(c, s, s.slots[i]);
    ServedOut(c, s, i, n);
    if sl.phase == Writing {
      var w := Place(c, sl.offset);
      if sl.offset <= s.slots[i].offset {
        RoundedRangesDisjoint(c, s, j, i);
      } else {
        RoundedRangesDisjoint(c, s, i, j);
      }
      assert forall q: nat :: w <= q < w + sl.served ==> At(b, q) == At(s.out, q);
    }
  }

  lemma SameChunk(c: Config, sl: Slot, v: Slot, spoiled: set<nat>)
    requires v.offset == sl.offset && v.length == sl.length && v.buf == sl.buf
    ensures Unspoiled(c, v, spoiled) == Unspoiled(c, sl, spoiled) && Loaded(c, v, v.length) == Loaded(c, sl, sl.length)
  {
    assert ChunkBytes(c, v) == ChunkBytes(c, sl);
  }

  lemma ServeWritingAhead(c: Config, o: seq<byte>, s: Job, i: nat, n: nat)
    requires WellFormed(c) && Own(c, s) && i < |s.slots| && CanServe(c, s, i, n) && s.slots[i].phase == Writing
    requires Ahead(c, o, s)
    ensures Ahead(c, o, Serve(c, s, i, n))
  {
    hide RoundUp, Serve, Store;
    var sl := s.slots[i];
    assert SlotOk(c, s, sl);
    ServedOut(c, s, i, n);
    assert Serve(c, s, i, n).fate == s.fate by { FateStays(c, s, i, n); }
    forall k: nat | |s.fate| <= k < c.copySize ensures Spared(c, o, Serve(c, s, i, n).out, k) {
      assert Spared(c, o, s.out, k);
    }
  }

  lemma FateStays(c: Config, s: Job, i: nat, n: nat)
    requires i < |s.slots| && CanServe(c, s, i, n)
    ensures Serve(c, s, i, n).fate == s.fate
  {}

  lemma ServeWritingSound(c: Config, o: seq<byte>, s: Job, i: nat, n: nat, spoiled: set<nat>)
    requires Core(c, s) && Sound(c, o, s, spoiled) && i < |s.slots| && CanServe(c, s, i, n)
    requires s.slots[i].phase == Writing
    ensures Sound(c, o, Serve(c, s, i, n), spoiled)
  {
    hide RoundUp, Store, SlotSound, Contained;
    var t := Serve(c, s, i, n);
    ServeWritingOut(c, o, s, i, n);
    ServeWritingAhead(c, o, s, i, n);
    forall j | 0 <= j < |t.slots| ensures SlotSound(c, t.out, t.slots[j], spoiled) {
      ServeWritingSlot(c, s, i, n, j, spoiled);
    }
    forall k | 0 <= k < |t.fate| && k !in spoiled ensures ByteSound(c, o, t.out, t.Clean(), t.fate[k], k) {
      assert ByteSound(c, o, s.out, s.Clean(), s.fate[k], k);
      if s.fate[k] != InFlight(i) { OthersUntouched(c, s, i, n, k); }
    }
  }

  lemma ServeReadingSlot(c: Config, s: Job, i: nat, n: nat, spoiled: set<nat>)
    requires WellFormed(c) && i < |s.slots| && CanServe(c, s, i, n) && s.slots[i].phase != Writing
    requires SlotOk(c, s, s.slots[i]) && SlotSound(c, s.out, s.slots[i], spoiled)
    ensures SlotSound(c, s.out, Serve(c, s, i, n).slots[i], spoiled)
  {
    hide RoundUp, Serve;
    var sl := s.slots[i];
    ServedInto(c, s, i, n);
    var v := Serve(c, s, i, n).slots[i];
    assert ChunkBytes(c, v) == ChunkBytes(c, sl);
    if sl.phase == Reading && Unspoiled(c, sl, spoiled) {
      ChunkGrows(c.input, sl.buf, v.buf, sl.at, sl.served, n);
    }
  }

  lemma ServeSound(c: Config, o: seq<byte>, s: Job, i: nat, n: nat, spoiled: set<nat>)
    requires Core(c, s) && Sound(c, o, s, spoiled) && i < |s.slots| && CanServe(c, s, i, n)
    ensures Core(c, Serve(c, s, i, n)) && Sound(c, o, Serve(c, s, i, n), spoiled)
  {
    hide RoundUp, Store, SlotSound, Contained, ByteSound;
    var t := Serve(c, s, i, n);
    ServeOwn(c, s, i, n);
    TotalUpdate(s.slots, i, t.slots[i], IoWeight);
    assert SlotOk(c, s, s.slots[i]);
    if s.slots[i].phase == Writing {
      ServeWritingSound(c, o, s, i, n, spoiled);
    } else {
      ServeReadingSlot(c, s, i, n, spoiled);
    }
  }

  // ------------------------------------------------------------------ the code's functions

  lemma AbandonSound(c: Config, o: seq<byte>, s: Job, i: nat, show: bool, spoiled: set<nat>)
    requires Core(c, s) && Sound(c, o, s, spoiled) && i < |s.slots| && s.slots[i].phase == Running && !s.Clean()
    ensures var t := StopIfDrained(Drop(s, i, Abandoned), show); Core(c, t) && Sound(c, o, t, spoiled)
  {
    hide Own, Sound, Drop;
    DropSound(c, o, s, i, Abandoned, spoiled);
    BookkeepingSound(c, o, Drop(s, i, Abandoned), StopIfDrained(Drop(s, i, Abandoned), show), spoiled);
  }

  /** A refused request is taken back and its chunk given up. */
  lemma RefusedSound(c: Config, o: seq<byte>, s: Job, i: nat, p: Phase, at: nat, size: nat, f: Fate, rc: int,
                     spoiled: set<nat>)
    requires Core(c, s) && Sound(c, o, s, spoiled) && i < |s.slots| && s.slots[i].phase == Running && rc != 0
    requires p == Populating || p == Reading || p == Writing
    requires f == Lost || f == Abandoned
    ensures var t := Fail(Drop(Land(Launch(s, i, p, at, size), i), i, f), rc); Core(c, t) && Sound(c, o, t, spoiled)
  {
    hide RoundUp, Contained, ByteSound, SlotSound;
    var u := Land(Launch(s, i, p, at, size), i).(error := rc);
    var v := s.slots[i].(phase := Running, at := at, size := size, served := 0);
    assert SlotOk(c, s, s.slots[i]);
    SlotSoundRunning(c, s.out, s.slots[i], v, spoiled);
    SlotStays(c, o, s, u, i, v, spoiled);
    DropSound(c, o, u, i, f, spoiled);
    BookkeepingSound(c, o, Drop(u, i, f), Fail(Drop(Land(Launch(s, i, p, at, size), i), i, f), rc), spoiled);
  }

  lemma ReadSound(c: Config, o: seq<byte>, s: Job, i: nat, e: Env, spoiled: set<nat>)
    requires Core(c, s) && Sound(c, o, s, spoiled) && i < |s.slots| && s.slots[i].phase == Running
    ensures Core(c, Read(c, s, i, e)) && Sound(c, o, Read(c, s, i, e), spoiled)
  {
    hide Sound, Drop, Launch, Land, RoundUp;
    var sl := s.slots[i];
    assert SlotOk(c, s, sl);
    if !s.Clean() {
      AbandonSound(c, o, s, i, false, spoiled);
    } else {
      var rc := SubmitRc(c, c.inKind, |c.input|, sl.offset, sl.length, e.submitRc);
      if rc != 0 { RefusedSound(c, o, s, i, Reading, sl.offset, sl.length, Abandoned, rc, spoiled); }
      else { LaunchSound(c, o, s, i, Reading, sl.offset, sl.length, spoiled); }
    }
  }

  lemma OwnFacts(c: Config, s: Job, i: nat)
    requires Core(c, s) && i < |s.slots| && s.slots[i].Owns()
    ensures c.readStart <= s.slots[i].offset <= c.End() && 0 < s.slots[i].length
  {
    hide RoundUp;
    assert SlotOk(c, s, s.slots[i]);
  }

  lemma WriteSound(c: Config, o: seq<byte>, s: Job, i: nat, e: Env, spoiled: set<nat>)
    requires Core(c, s) && Sound(c, o, s, spoiled) && i < |s.slots| && s.slots[i].phase == Running
    requires s.Clean() && Unspoiled(c, s.slots[i], spoiled) ==> Loaded(c, s.slots[i], s.slots[i].length)
    ensures Core(c, Write(c, s, i, e)) && Sound(c, o, Write(c, s, i, e), spoiled)
  {
    hide Sound, Drop, Land, RoundUp, Target, Own, Launch;
    var sl := s.slots[i];
    OwnFacts(c, s, i);
    if !s.Clean() {
      AbandonSound(c, o, s, i, true, spoiled);
    } else {
      NoWrap(c, sl.offset);
      var at, size := Target(c, sl.offset), RoundUp(sl.length, c.outBlock);
      var u := s.(incrementalBytes := s.incrementalBytes + sl.length);
      BookkeepingSound(c, o, s, u, spoiled);
      var rc := SubmitRc(c, c.outKind, |s.out|, at, size, e.submitRc);
      if rc != 0 { RefusedSound(c, o, u, i, Writing, at, size, Lost, rc, spoiled); }
      else { LaunchSound(c, o, u, i, Writing, at, size, spoiled); }
    }
  }

  lemma ClaimSound(c: Config, o: seq<byte>, s: Job, i: nat, spoiled: set<nat>)
    requires Core(c, s) && Sound(c, o, s, spoiled) && i < |s.slots| && s.slots[i].phase == Idle
    requires s.slots[i].offset == s.pos && 0 < s.slots[i].length <= c.unit && s.pos + s.slots[i].length <= c.End()
    requires s.slots[i].length % c.outBlock == 0 || s.pos + s.slots[i].length == c.End()
    requires c.sparse ==> AllData(c, s.pos, s.pos + s.slots[i].length)
    ensures Core(c, Claim(s, i)) && Sound(c, o, Claim(s, i), spoiled)
  {
    hide RoundUp, Contained, Copied, Spared, AllData, SlotOk, Partition;
    var t := Claim(s, i);
    ClaimOwn(c, s, i);
    TotalUpdate(s.slots, i, t.slots[i], IoWeight);
    assert Unspoiled(c, t.slots[i], spoiled);
    forall k | 0 <= k < |t.fate| && k !in spoiled ensures ByteSound(c, o, t.out, t.Clean(), t.fate[k], k) {
      if k < |s.fate| {
        assert ByteSound(c, o, s.out, s.Clean(), s.fate[k], k);
      } else {
        assert t.fate[k] == InFlight(i);
        ClaimedByte(c, o, s, i, k);
      }
    }
  }

  lemma ClaimedByte(c: Config, o: seq<byte>, s: Job, i: nat, k: nat)
    requires c.outBlock > 0 && i < |s.slots| && c.readStart <= s.pos && |s.fate| == s.pos - c.readStart
    requires |s.fate| <= k < |s.fate| + s.slots[i].length && s.pos + s.slots[i].length <= c.End()
    requires c.sparse ==> AllData(c, s.pos, s.pos + s.slots[i].length)
    ensures ByteSound(c, o, s.out, s.Clean(), InFlight(i), k)
  {}

  lemma ClaimedSound(c: Config, o: seq<byte>, t: Job, i: nat, e: Env, spoiled: set<nat>)
    requires Core(c, t) && Sound(c, o, t, spoiled) && i < |t.slots| && t.slots[i].phase == Idle
    requires t.slots[i].offset == t.pos && 0 < t.slots[i].length <= c.unit && t.pos + t.slots[i].length <= c.End()
    requires t.slots[i].length % c.outBlock == 0 || t.pos + t.slots[i].length == c.End()
    requires c.sparse ==> AllData(c, t.pos, t.pos + t.slots[i].length)
    ensures Core(c, Claimed(c, t, i, e)) && Sound(c, o, Claimed(c, t, i, e), spoiled)
  {
    hide Sound, Drop, Land, RoundUp, Target, Read;
    var u, sl := Claim(t, i), t.slots[i];
    ClaimSound(c, o, t, i, spoiled);
    if sl.length % c.outBlock == 0 {
      ReadSound(c, o, u, i, e, spoiled);
    } else {
      NoWrap(c, sl.offset);
      var at, size := Target(c, sl.offset), RoundUp(sl.length, c.outBlock);
      var rc := SubmitRc(c, c.outKind, |t.out|, at, size, e.submitRc);
      if rc != 0 { RefusedSound(c, o, u, i, Populating, at, size, Abandoned, rc, spoiled); }
      else { LaunchSound(c, o, u, i, Populating, at, size, spoiled); }
    }
  }

  lemma CutSound(c: Config, o: seq<byte>, s: Job, i: nat, spoiled: set<nat>)
    requires Core(c, s) && Sound(c, o, s, spoiled) && i < |s.slots| && s.slots[i].phase == Idle
    requires Fits(c, s, s.slots[i].length)
    ensures var length := Min(s.slots[i].length, c.End() - s.pos);
            var t := s.(slots := s.slots[i := s.slots[i].(offset := s.pos, length := length)]);
            && Core(c, t) && Sound(c, o, t, spoiled) && length <= c.unit
            && (length % c.outBlock == 0 || s.pos + length == c.End())
            && (c.sparse ==> AllData(c, s.pos, s.pos + length))
  {
    hide RoundUp, Contained, ByteSound;
    var v := s.slots[i].(offset := s.pos, length := Min(s.slots[i].length, c.End() - s.pos));
    assert SlotOk(c, s, s.slots[i]);
    SlotStays(c, o, s, s.(slots := s.slots[i := v]), i, v, spoiled);
  }

  lemma PopulateSound(c: Config, o: seq<byte>, s: Job, i: nat, e: Env, spoiled: set<nat>)
    requires Core(c, s) && Sound(c, o, s, spoiled) && i < |s.slots| && s.slots[i].phase == Idle
    requires Fits(c, s, s.slots[i].length)
    ensures Core(c, Populate(c, s, i, e)) && Sound(c, o, Populate(c, s, i, e), spoiled)
  {
    hide Sound, RoundUp, Claimed, Populate, Fits;
    CutSound(c, o, s, i, spoiled);
    PopulateCut(c, s, i, e);
    var length := Min(s.slots[i].length, c.End() - s.pos);
    var t := s.(slots := s.slots[i := s.slots[i].(offset := s.pos, length := length)]);
    if length == 0 || !s.Clean() {
      BookkeepingSound(c, o, t, StopIfDrained(t, true), spoiled);
    } else {
      ClaimedSound(c, o, t, i, e, spoiled);
    }
  }

  lemma SkipSound(c: Config, o: seq<byte>, s: Job, d: nat, spoiled: set<nat>)
    requires Core(c, s) && Sound(c, o, s, spoiled) && c.sparse
    requires s.pos <= d < |c.isData| && c.isData[d] && forall k :: s.pos <= k < d ==> !c.isData[k]
    ensures Core(c, Skip(s, d)) && Sound(c, o, Skip(s, d), spoiled)
  {
    hide RoundUp, Contained, SlotSound;
    var t := Skip(s, d);
    SkipOwn(c, s, d);
    forall k | 0 <= k < |t.fate| && k !in spoiled ensures ByteSound(c, o, t.out, t.Clean(), t.fate[k], k) {
      if k < |s.fate| {
        assert ByteSound(c, o, s.out, s.Clean(), s.fate[k], k);
      } else {
        assert t.fate[k] == Hole && Spared(c, o, s.out, k);
      }
    }
  }

  /** Extending the output over a trailing hole spoils nothing. */
  lemma ExtendSound(c: Config, o: seq<byte>, s: Job, spoiled: set<nat>)
    requires Core(c, s) && Sound(c, o, s, spoiled)
    ensures var t := s.(out := Extend(s.out, c.copySize + c.writeStart)); Core(c, t) && Sound(c, o, t, spoiled)
  {
    hide RoundUp, Extend;
    var t := s.(out := Extend(s.out, c.copySize + c.writeStart));
    RoundUpBounds(c.copySize, c.outBlock, RoundUpWitness(c.copySize, c.outBlock));
    forall k | 0 <= k < |t.fate| && k !in spoiled ensures ByteSound(c, o, t.out, t.Clean(), t.fate[k], k) {
      assert ByteSound(c, o, s.out, s.Clean(), s.fate[k], k);
    }
    forall i | 0 <= i < |t.slots| ensures SlotSound(c, t.out, t.slots[i], spoiled) {
      assert SlotSound(c, s.out, s.slots[i], spoiled);
    }
    forall k: nat | |t.fate| <= k < c.copySize ensures Spared(c, o, t.out, k) {
      assert Spared(c, o, s.out, k);
    }
  }

  lemma FinalizeSound(c: Config, o: seq<byte>, s: Job, e: Env, spoiled: set<nat>)
    requires Core(c, s) && Sound(c, o, s, spoiled) && s.Clean()
    ensures Core(c, Finalize(c, s, e)) && Sound(c, o, Finalize(c, s, e), spoiled)
  {
    hide Sound, Own, Extend;
    if s.outstanding <= 0 && c.outKind == File && e.endErr == 0 && e.truncErr == 0
       && |s.out| < c.copySize + c.writeStart {
      ExtendSound(c, o, s, spoiled);
      BookkeepingSound(c, o, s.(out := Extend(s.out, c.copySize + c.writeStart)), Finalize(c, s, e), spoiled);
    } else {
      BookkeepingSound(c, o, s, Finalize(c, s, e), spoiled);
    }
  }

  lemma DataFoundSound(c: Config, o: seq<byte>, t: Job, i: nat, e: Env, spoiled: set<nat>)
    requires Core(c, t) && Sound(c, o, t, spoiled) && c.sparse && i < |t.slots| && t.slots[i].phase == Idle
    requires t.pos < |c.isData| && c.isData[t.pos]
    ensures var p := Populate(c, WithLength(t, i, ChunkLength(c, t.pos, NextHole(c.isData, t.pos))), i, e);
            Core(c, p) && Sound(c, o, p, spoiled)
  {
    hide RoundUp, Contained, ByteSound, Populate;
    var h := NextHole(c.isData, t.pos);
    HoleFits(c, t, h);
    var v := t.slots[i].(length := ChunkLength(c, t.pos, h));
    assert SlotOk(c, t, t.slots[i]);
    SlotStays(c, o, t, WithLength(t, i, ChunkLength(c, t.pos, h)), i, v, spoiled);
    PopulateSound(c, o, WithLength(t, i, ChunkLength(c, t.pos, h)), i, e, spoiled);
  }

  lemma SeekFileSound(c: Config, o: seq<byte>, s: Job, i: nat, e: Env, spoiled: set<nat>)
    requires Core(c, s) && Sound(c, o, s, spoiled) && c.sparse && i < |s.slots| && s.slots[i].phase == Idle && s.Clean()
    ensures Core(c, SeekFile(c, s, i, e)) && Sound(c, o, SeekFile(c, s, i, e), spoiled)
  {
    hide Sound, Own, Populate, Finalize;
    var d := NextData(c.isData, s.pos);
    if e.seekDataErr != 0 {
      BookkeepingSound(c, o, s, SeekFile(c, s, i, e), spoiled);
    } else if d >= |c.isData| {
      FinalizeSound(c, o, s, e, spoiled);
    } else {
      SkipSound(c, o, s, d, spoiled);
      if e.seekHoleErr != 0 {
        BookkeepingSound(c, o, Skip(s, d), SeekFile(c, s, i, e), spoiled);
      } else {
        DataFoundSound(c, o, Skip(s, d), i, e, spoiled);
      }
    }
  }

  lemma SeekSound(c: Config, o: seq<byte>, s: Job, i: nat, e: Env, spoiled: set<nat>)
    requires Core(c, s) && Sound(c, o, s, spoiled) && i < |s.slots| && s.slots[i].phase == Idle
    ensures Core(c, Seek(c, s, i, e)) && Sound(c, o, Seek(c, s, i, e), spoiled)
  {
    hide Sound, RoundUp, Populate, SeekFile;
    if !c.sparse {
      assert SlotOk(c, s, s.slots[i]);
      PopulateSound(c, o, s, i, e, spoiled);
    } else if Sub64(c.copySize, Sub64(s.pos, c.readStart)) == 0 || !s.Clean() {
      BookkeepingSound(c, o, s, StopIfDrained(s, true), spoiled);
    } else {
      SeekFileSound(c, o, s, i, e, spoiled);
    }
  }

  // ------------------------------------------------------------------ completions

  /** Spoiling the whole chunk of a slot keeps everything else sound. */
  lemma SpoilSound(c: Config, o: seq<byte>, s: Job, i: nat, spoiled: set<nat>)
    requires Core(c, s) && Sound(c, o, s, spoiled) && i < |s.slots| && s.slots[i].Owns()
    ensures Sound(c, o, s, spoiled + ChunkBytes(c, s.slots[i]))
  {
    hide RoundUp, Contained;
    var more := spoiled + ChunkBytes(c, s.slots[i]);
    assert SlotOk(c, s, s.slots[i]);
    forall k | k in more ensures k < |s.fate| {}
    forall j | 0 <= j < |s.slots| ensures SlotSound(c, s.out, s.slots[j], more) {
      assert SlotOk(c, s, s.slots[j]) && SlotSound(c, s.out, s.slots[j], spoiled);
      if s.slots[j].Owns() && j != i { ChunksApart(c, s, i, j, spoiled); }
    }
  }

  lemma ChunksApart(c: Config, s: Job, i: nat, j: nat, spoiled: set<nat>)
    requires WellFormed(c) && Own(c, s) && i < |s.slots| && j < |s.slots| && i != j && s.slots[i].Owns()
    requires s.slots[j].Owns()
    ensures Unspoiled(c, s.slots[j], spoiled) == Unspoiled(c, s.slots[j], spoiled + ChunkBytes(c, s.slots[i]))
  {
    hide RoundUp;
    assert SlotOk(c, s, s.slots[i]) && SlotOk(c, s, s.slots[j]);
    forall k: nat | k in ChunkBytes(c, s.slots[j]) ensures k !in ChunkBytes(c, s.slots[i]) {
      assert Covers(c, s.slots[j], k);
      assert s.fate[k] == InFlight(j);
    }
  }

  /** A transfer that came back, with its chunk spoiled when it fell short unnoticed. */
  lemma LandedSound(c: Config, o: seq<byte>, s: Job, i: nat, res: int, e: Env, spoiled: set<nat>)
    requires Core(c, s) && Sound(c, o, s, spoiled) && Enabled(c, s, Done(i, res, e))
    ensures var more := spoiled + SpoiledBy(c, s, Done(i, res, e));
            var sl, t := s.slots[i], Land(s.(error := ErrorAfter(c, s.error, s.slots[i], res)), i);
            && Core(c, t) && Sound(c, o, t, more) && c.readStart <= sl.offset
            && (sl.phase == Reading && t.Clean() && Unspoiled(c, sl, more) ==> Loaded(c, sl, sl.length))
            && (sl.phase == Writing && Unspoiled(c, sl, more) ==>
                  Loaded(c, sl, sl.length) && Stored(c, s.out, sl, sl.served))
            && (sl.phase == Writing && Unspoiled(c, sl, more) && t.Clean() ==> sl.served == sl.size)
  {
    hide RoundUp, Contained, ByteSound;
    var sl, more := s.slots[i], spoiled + SpoiledBy(c, s, Done(i, res, e));
    assert SlotOk(c, s, sl) && SlotSound(c, s.out, sl, spoiled);
    if SpoiledBy(c, s, Done(i, res, e)) == {} { assert more == spoiled; } else { SpoilSound(c, o, s, i, spoiled); }
    LandSound(c, o, s, i, ErrorAfter(c, s.error, sl, res), more);
    assert SlotSound(c, s.out, sl, more);
    FirstByte(c, s, sl);
    if sl.phase != Populating && Silent(c, s, i, res) {
      assert sl.offset - c.readStart in more;
    } else if ErrorAfter(c, s.error, sl, res) == 0 && sl.phase != Populating {
      ServedWhenClean(c, s, i, res);
    }
  }

  lemma FirstByte(c: Config, s: Job, sl: Slot)
    requires c.outBlock > 0 && SlotOk(c, s, sl) && sl.Owns()
    ensures sl.offset - c.readStart in ChunkBytes(c, sl)
  {
    assert Covers(c, sl, sl.offset - c.readStart);
  }

  lemma CompleteSound(c: Config, o: seq<byte>, s: Job, i: nat, res: int, e: Env, spoiled: set<nat>)
    requires Core(c, s) && Sound(c, o, s, spoiled) && Enabled(c, s, Done(i, res, e))
    ensures var t := Complete(c, s, i, res, e);
            Core(c, t) && Sound(c, o, t, spoiled + SpoiledBy(c, s, Done(i, res, e)))
  {
    hide Sound, RoundUp, Read, Write, Seek, Stored, Loaded;
    var more := spoiled + SpoiledBy(c, s, Done(i, res, e));
    var sl := s.slots[i];
    var t := Land(s.(error := ErrorAfter(c, s.error, sl, res)), i);
    LandedSound(c, o, s, i, res, e, spoiled);
    SameChunk(c, sl, t.slots[i], more);
    if sl.phase == Populating {
      ReadSound(c, o, t, i, e, more);
    } else if sl.phase == Reading {
      WriteSound(c, o, t, i, e, more);
    } else {
      var f := if sl.served == sl.size then Written else Lost;
      assert SlotOk(c, s, sl);
      StoredSame(c, s.out, sl, t.slots[i], sl.served);
      DropSound(c, o, t, i, f, more);
      SeekSound(c, o, Drop(t, i, f), i, e, more);
    }
  }

  lemma StoredSame(c: Config, out: seq<byte>, sl: Slot, v: Slot, n: nat)
    requires c.readStart <= sl.offset && v.offset == sl.offset && v.buf == sl.buf
    ensures Stored(c, out, sl, n) == Stored(c, out, v, n)
  {}

  lemma StepSound(c: Config, o: seq<byte>, s: Job, v: Event, spoiled: set<nat>)
    requires Core(c, s) && Sound(c, o, s, spoiled) && Enabled(c, s, v)
    ensures Core(c, Step(c, s, v)) && Sound(c, o, Step(c, s, v), spoiled + SpoiledBy(c, s, v))
  {
    hide Sound, RoundUp, Serve, Complete, Own;
    assert !v.Done? ==> spoiled + SpoiledBy(c, s, v) == spoiled;
    match v {
      case Move(i, n) => ServeSound(c, o, s, i, n, spoiled);
      case Done(i, res, e) => CompleteSound(c, o, s, i, res, e, spoiled);
      case SeekDone(_, _) => assert false;
      case Interrupt => BookkeepingSound(c, o, s, Step(c, s, v), spoiled);
      case Status => BookkeepingSound(c, o, s, Step(c, s, v), spoiled);
    }
  }

  // ------------------------------------------------------------------ whole runs

  lemma CoreOf(c: Config, o: seq<byte>, s: Job)
    requires Inv(c, o, s) && !c.SparseBdev()
    ensures Core(c, s)
  {
    hide Own, Data;
    forall i | 0 <= i < |s.slots| ensures !Waiting(s.slots[i]) {
      assert Waiting(s.slots[i]) ==> i in s.queue;
    }
  }

  lemma InitialSound(c: Config, o: seq<byte>, h: History)
    requires Starts(c, h)
    ensures Sound(c, o, Initial(c, o, h.bufs, h.interrupted), {})
  {}

  lemma {:induction false} StartSound(c: Config, o: seq<byte>, s: Job, k: nat, envs: seq<Env>)
    requires Inv(c, o, s) && !c.SparseBdev() && Sound(c, o, s, {}) && k <= |envs| && |envs| <= |s.slots|
    requires forall j :: k <= j < |envs| ==> s.slots[j].phase == Idle
    ensures Sound(c, o, StartFrom(c, s, k, envs), {})
    decreases |envs| - k
  {
    hide Sound, Own, Data, QueueOk, Counted, Seek;
    if k < |envs| {
      CoreOf(c, o, s);
      SeekSound(c, o, s, k, envs[k], {});
      StartOne(c, o, s, k, envs);
      StartSound(c, o, Seek(c, s, k, envs[k]), k + 1, envs);
    }
  }

  lemma StartedSound(c: Config, o: seq<byte>, h: History)
    requires Starts(c, h) && !c.SparseBdev()
    ensures Core(c, Started(c, o, h)) && Sound(c, o, Started(c, o, h), {})
  {
    hide Sound, Inv, StartFrom;
    InitialInv(c, o, h.bufs, h.interrupted);
    InitialSound(c, o, h);
    StartSound(c, o, Initial(c, o, h.bufs, h.interrupted), 0, h.envs);
    StartedInv(c, o, h);
    CoreOf(c, o, Started(c, o, h));
  }

  /** A run that has exited with no error on record has nothing in flight and nothing left to read. */
  ghost predicate Settled(c: Config, s: Job) {
    AtRest(s) && (s.exits != [] && s.Clean() ==> s.outstanding == 0 && Quiet(c, s) && Sized(c, s))
  }

  lemma CompleteSettled(c: Config, s: Job, i: nat, res: int, e: Env)
    requires Core(c, s) && Settled(c, s) && i < |s.slots| && s.slots[i].Transferring()
    ensures Settled(c, Complete(c, s, i, res, e))
  {
    hide RoundUp, Read, Write, Seek;
    CompleteRests(c, s, i, res, e);
    TotalAtLeast(s.slots, i, IoWeight);
    assert SlotOk(c, s, s.slots[i]);
    var sl := s.slots[i];
    var t := Land(s.(error := ErrorAfter(c, s.error, sl, res)), i);
    if sl.phase == Populating {
      ReadEnds(c, t, i, e);
    } else if sl.phase == Reading {
      WriteEnds(c, t, i, e);
    } else {
      SeekEnds(c, Drop(t, i, if sl.served == sl.size then Written else Lost), i, e);
    }
  }

  lemma StepSettled(c: Config, s: Job, v: Event)
    requires Core(c, s) && Settled(c, s) && Enabled(c, s, v)
    ensures Settled(c, Step(c, s, v))
  {
    hide RoundUp, Complete, Own;
    StepRests(c, s, v);
    match v {
      case Done(i, res, e) => CompleteSettled(c, s, i, res, e);
      case SeekDone(_, _) => assert false;
      case _ =>
    }
  }

  lemma {:induction false} PerformSound(c: Config, o: seq<byte>, s: Job, events: seq<Event>, spoiled: set<nat>)
    requires Core(c, s) && Sound(c, o, s, spoiled) && Settled(c, s) && Feasible(c, s, events)
    ensures var t := Perform(c, s, events);
            Core(c, t) && Settled(c, t) && Sound(c, o, t, spoiled + Spoiled(c, s, events))
    decreases |events|
  {
    hide Sound, Own, Step, Settled, SpoiledBy, Enabled;
    if events == [] {
      assert spoiled + Spoiled(c, s, events) == spoiled;
    } else {
      var v := events[0];
      StepSound(c, o, s, v, spoiled);
      StepSettled(c, s, v);
      PerformSound(c, o, Step(c, s, v), events[1..], spoiled + SpoiledBy(c, s, v));
      assert spoiled + SpoiledBy(c, s, v) + Spoiled(c, Step(c, s, v), events[1..]) == spoiled + Spoiled(c, s, events);
    }
  }

  /** Byte `k` belongs to the copy: a dense copy has every byte, a sparse one the data. */
  ghost predicate Wanted(c: Config, k: nat) {
    !c.sparse || IsData(c, c.readStart + k)
  }

  lemma SettledBytes(c: Config, o: seq<byte>, s: Job, spoiled: set<nat>, k: nat)
    requires Core(c, s) && Settled(c, s) && Sound(c, o, s, spoiled) && s.exits != [] && s.Clean() && k < c.copySize
    requires k !in spoiled
    ensures Wanted(c, k) ==> Copied(c, s.out, k) && (k == c.copySize - 1 ==> RoundedEnd(c) <= |s.out|)
    ensures !Wanted(c, k) ==> Spared(c, o, s.out, k)
  {
    hide RoundUp, Contained, SlotSound;
    if k < |s.fate| {
      assert ByteSound(c, o, s.out, s.Clean(), s.fate[k], k);
      if s.fate[k].InFlight? {
        var i := s.fate[k].slot;
        assert s.slots[i].Owns();
        TotalAtLeast(s.slots, i, IoWeight);
      }
    } else {
      assert Spared(c, o, s.out, k);
    }
  }

  /**
   * Every dense run and every sparse run from a file, whatever the devices do: in every reachable state only the
   * rounded
   * write region may have changed; and at a clean exit every byte of the copy is in the output, and every hole as it
   * was, except in chunks whose read or write fell short unnoticed.
   */
  lemma DamageContained(c: Config, o: seq<byte>, h: History)
    requires Starts(c, h) && !c.SparseBdev() && Feasible(c, Started(c, o, h), h.events)
    ensures var s := Perform(c, Started(c, o, h), h.events);
            var spoiled := Spoiled(c, Started(c, o, h), h.events);
            && Contained(c, o, s.out)
            && (s.exits != [] && s.Clean() ==>
                  && (forall k: nat :: k < c.copySize && k !in spoiled ==>
                        if Wanted(c, k) then Copied(c, s.out, k) else Spared(c, o, s.out, k))
                  && (c.copySize > 0 && c.copySize - 1 !in spoiled && Wanted(c, c.copySize - 1) ==>
                        RoundedEnd(c) <= |s.out|)
                  && Quiet(c, s) && Sized(c, s))
  {
    hide Core, Feasible, Perform, Spoiled, Started, RoundUp, Quiet, Sized;
    var s := Perform(c, Started(c, o, h), h.events);
    var spoiled := Spoiled(c, Started(c, o, h), h.events);
    StartedSound(c, o, h);
    StartedSettled(c, o, h);
    PerformSound(c, o, Started(c, o, h), h.events, {});
    assert {} + spoiled == spoiled;
    if s.exits != [] && s.Clean() {
      forall k: nat | k < c.copySize && k !in spoiled
        ensures if Wanted(c, k) then Copied(c, s.out, k) else Spared(c, o, s.out, k)
      {
        SettledBytes(c, o, s, spoiled, k);
      }
      if c.copySize > 0 && c.copySize - 1 !in spoiled { SettledBytes(c, o, s, spoiled, c.copySize - 1); }
    }
  }

  lemma StartedSettled(c: Config, o: seq<byte>, h: History)
    requires Starts(c, h) && !c.SparseBdev()
    ensures Settled(c, Started(c, o, h))
  {
    hide StartFrom;
    StartedBegun(c, o, h);
  }
}
