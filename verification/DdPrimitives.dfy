/** Every primitive update of a Job keeps the invariant; one lemma per part of the invariant. */
module DdPrimitives {
  import opened Bytes
  import opened DdSpec
  import opened DdInvariant

  // ------------------------------------------------------------------ one slot changes, its chunk does not

  lemma OwnUpdate(c: Config, s: Job, t: Job, i: nat, v: Slot)
    requires WellFormed(c) && Own(c, s) && i < |s.slots|
    requires t.pos == s.pos && t.fate == s.fate && t.slots == s.slots[i := v]
    requires SlotOk(c, s, v) && v.Owns() == s.slots[i].Owns()
    requires v.Owns() ==> v.offset == s.slots[i].offset && v.length == s.slots[i].length
    ensures Own(c, t)
  {
    hide RoundUp;
  }

  lemma DataUpdate(c: Config, o: seq<byte>, s: Job, t: Job, i: nat, v: Slot)
    requires WellFormed(c) && Data(c, o, s) && i < |s.slots|
    requires t.out == s.out && t.fate == s.fate && t.slots == s.slots[i := v]
    requires BufOk(c, o, s.out, v)
    ensures Data(c, o, t)
  {}

  lemma CountUpdate(c: Config, s: Job, t: Job, i: nat, v: Slot)
    requires Counted(c, s) && i < |s.slots| && t.slots == s.slots[i := v]
    requires !s.Clean() ==> !t.Clean()
    requires t.outstanding - s.outstanding == IoWeight(v) - IoWeight(s.slots[i])
    ensures Counted(c, t)
  {
    TotalUpdate(s.slots, i, v, IoWeight);
  }

  lemma QueueUpdate(c: Config, s: Job, t: Job, i: nat, v: Slot)
    requires WellFormed(c) && QueueOk(c, s) && i < |s.slots|
    requires t.pos == s.pos && t.queue == s.queue && t.slots == s.slots[i := v]
    requires !Waiting(s.slots[i]) && !Waiting(v)
    ensures QueueOk(c, t)
  {}

  lemma SlotUpdate(c: Config, o: seq<byte>, s: Job, t: Job, i: nat, v: Slot)
    requires Inv(c, o, s) && i < |s.slots| && !Waiting(s.slots[i]) && !Waiting(v)
    requires t.pos == s.pos && t.fate == s.fate && t.out == s.out && t.queue == s.queue
    requires t.slots == s.slots[i := v] && (!s.Clean() ==> !t.Clean())
    requires t.outstanding - s.outstanding == IoWeight(v) - IoWeight(s.slots[i])
    requires SlotOk(c, s, v) && v.Owns() == s.slots[i].Owns() && BufOk(c, o, s.out, v)
    requires v.Owns() ==> v.offset == s.slots[i].offset && v.length == s.slots[i].length
    ensures Inv(c, o, t)
  {
    hide RoundUp;
    OwnUpdate(c, s, t, i, v);
    DataUpdate(c, o, s, t, i, v);
    CountUpdate(c, s, t, i, v);
    QueueUpdate(c, s, t, i, v);
  }

  /** Fields outside the invariant, and errors, may change freely; errors never go away. */
  lemma BookkeepingKeeps(c: Config, o: seq<byte>, s: Job, t: Job)
    requires Inv(c, o, s)
    requires t.pos == s.pos && t.outstanding == s.outstanding && t.slots == s.slots && t.queue == s.queue
    requires t.out == s.out && t.fate == s.fate && (!s.Clean() ==> !t.Clean())
    ensures Inv(c, o, t)
  {}

  lemma InitialInv(c: Config, o: seq<byte>, bufs: seq<seq<byte>>, interrupt: bool)
    requires WellFormed(c) && forall k :: 0 <= k < |bufs| ==> |bufs[k]| == c.unit
    ensures Inv(c, o, Initial(c, o, bufs, interrupt))
  {
    TotalZero(Initial(c, o, bufs, interrupt).slots, IoWeight);
    MulDivMod(0, c.outBlock, 0);
  }

  /** The offset and length of a slot that owns nothing are free. */
  lemma ResizeKeeps(c: Config, o: seq<byte>, s: Job, i: nat, offset: nat, length: nat)
    requires Inv(c, o, s) && i < |s.slots| && s.slots[i].phase == Idle && length <= c.unit
    requires !c.sparse ==> length == c.unit || s.pos + length >= c.End()
    ensures Inv(c, o, s.(slots := s.slots[i := s.slots[i].(offset := offset, length := length)]))
  {
    hide RoundUp;
    var v := s.slots[i].(offset := offset, length := length);
    SlotUpdate(c, o, s, s.(slots := s.slots[i := v]), i, v);
  }

  lemma LaunchKeeps(c: Config, o: seq<byte>, s: Job, i: nat, p: Phase, at: nat, size: nat)
    requires Inv(c, o, s) && i < |s.slots| && s.slots[i].phase == Running
    requires p == Populating || p == Reading || p == Writing
    requires size == if p == Reading then s.slots[i].length else RoundUp(s.slots[i].length, c.outBlock)
    requires at == if p == Reading then s.slots[i].offset else Place(c, s.slots[i].offset)
    requires p != Populating ==> TailReady(c, o, s.out, s.slots[i])
    requires p == Writing ==> Loaded(c, s.slots[i], s.slots[i].length)
    requires p == Writing && c.outKind == Bdev ==> at + size <= |s.out|
    ensures Inv(c, o, Launch(s, i, p, at, size))
  {
    hide RoundUp;
    assert SlotOk(c, s, s.slots[i]);
    SlotUpdate(c, o, s, Launch(s, i, p, at, size), i, s.slots[i].(phase := p, at := at, size := size, served := 0));
  }

  lemma LandKeeps(c: Config, o: seq<byte>, s: Job, i: nat)
    requires Inv(c, o, s) && i < |s.slots| && s.slots[i].Transferring()
    ensures Inv(c, o, Land(s, i))
  {
    hide RoundUp;
    assert SlotOk(c, s, s.slots[i]);
    SlotUpdate(c, o, s, Land(s, i), i, s.slots[i].(phase := Running));
  }

  // ------------------------------------------------------------------ a chunk ends

  lemma DropOwn(c: Config, s: Job, i: nat, f: Fate)
    requires WellFormed(c) && Own(c, s) && i < |s.slots| && s.slots[i].phase == Running
    requires f == Lost || f == Abandoned || f == Written
    ensures Own(c, Drop(s, i, f))
  {
    hide RoundUp;
    var t := Drop(s, i, f);
    assert SlotOk(c, t, t.slots[i]);
    assert forall j :: 0 <= j < |t.slots| && j != i ==> t.slots[j] == s.slots[j];
    assert Partition(c, t);
  }

  lemma DropData(c: Config, o: seq<byte>, s: Job, i: nat, f: Fate)
    requires WellFormed(c) && Own(c, s) && Data(c, o, s) && i < |s.slots| && s.slots[i].phase == Running
    requires f == Lost || f == Abandoned || f == Written
    requires f == Written ==>
               Loaded(c, s.slots[i], s.slots[i].length) && Stored(c, s.out, s.slots[i], s.slots[i].length)
    ensures Data(c, o, Drop(s, i, f))
  {
    hide RoundUp;
    var t := Drop(s, i, f);
    var sl := s.slots[i];
    forall k | 0 <= k < |t.fate| ensures FateOk(c, o, t.out, t.fate[k], k) {
      assert FateOk(c, o, s.out, s.fate[k], k);
      if s.fate[k] == InFlight(i) && f == Written {
        assert SlotOk(c, s, sl);
        var j := c.readStart + k - sl.offset;
        assert Place(c, sl.offset) + j == c.writeStart + k;
        assert At(s.out, c.writeStart + k) == sl.buf[j] == c.input[sl.offset + j];
      }
    }
  }

  lemma DropKeeps(c: Config, o: seq<byte>, s: Job, i: nat, f: Fate)
    requires Inv(c, o, s) && i < |s.slots| && s.slots[i].phase == Running
    requires f == Lost || f == Abandoned || f == Written
    requires f == Written ==>
               Loaded(c, s.slots[i], s.slots[i].length) && Stored(c, s.out, s.slots[i], s.slots[i].length)
    ensures Inv(c, o, Drop(s, i, f))
  {
    var t, v := Drop(s, i, f), s.slots[i].(phase := Idle);
    DropOwn(c, s, i, f);
    DropData(c, o, s, i, f);
    CountUpdate(c, s, t, i, v);
    QueueUpdate(c, s, t, i, v);
  }

  // ------------------------------------------------------------------ the input position moves

  lemma PosQueue(c: Config, s: Job, t: Job)
    requires WellFormed(c) && QueueOk(c, s) && NoSeek(s) && t.queue == s.queue && t.slots == s.slots
    ensures QueueOk(c, t)
  {}

  lemma ClaimPartition(c: Config, s: Job, i: nat)
    requires Partition(c, s) && i < |s.slots| && s.slots[i].phase == Idle
    requires c.readStart <= s.pos == s.slots[i].offset && |s.fate| == s.pos - c.readStart
    requires forall j :: 0 <= j < |s.slots| && s.slots[j].Owns() ==> s.slots[j].offset + s.slots[j].length <= s.pos
    ensures Partition(c, Claim(s, i))
  {
    var t := Claim(s, i);
    assert forall j :: 0 <= j < |t.slots| && j != i ==> t.slots[j] == s.slots[j];
    assert forall k :: 0 <= k < |s.fate| ==> t.fate[k] == s.fate[k];
    assert forall k :: |s.fate| <= k < |t.fate| ==> t.fate[k] == InFlight(i);
  }

  lemma ClaimPos(c: Config, s: Job, i: nat)
    requires WellFormed(c) && PosOk(c, s) && i < |s.slots|
    requires 0 < s.slots[i].length && s.pos + s.slots[i].length <= c.End()
    requires s.slots[i].length % c.outBlock == 0 || s.pos + s.slots[i].length == c.End()
    requires c.SparseBdev() ==> s.slots[i].length % c.inBlock == 0
    ensures PosOk(c, Claim(s, i))
  {
    var t := Claim(s, i);
    if t.pos != c.End() { ModOfSum(s.pos - c.readStart, s.slots[i].length, c.outBlock); }
    if c.SparseBdev() { ModOfSum(s.pos, s.slots[i].length, c.inBlock); }
    assert t.fate[|t.fate| - 1] == InFlight(i);
  }

  lemma ClaimOwn(c: Config, s: Job, i: nat)
    requires WellFormed(c) && Own(c, s) && i < |s.slots| && s.slots[i].phase == Idle
    requires s.slots[i].offset == s.pos && 0 < s.slots[i].length <= c.unit && s.pos + s.slots[i].length <= c.End()
    requires s.slots[i].length % c.outBlock == 0 || s.pos + s.slots[i].length == c.End()
    requires c.SparseBdev() ==> s.slots[i].length % c.inBlock == 0
    ensures Own(c, Claim(s, i))
  {
    hide RoundUp;
    var t := Claim(s, i);
    ClaimPos(c, s, i);
    RoundUpBounds(t.slots[i].length, c.outBlock, c.unit);
    RoundUpBounds(s.pos - c.readStart, c.outBlock, s.pos - c.readStart);
    assert forall j :: 0 <= j < |s.slots| ==> SlotOk(c, s, s.slots[j]);
    assert forall j :: 0 <= j < |t.slots| ==> SlotOk(c, t, t.slots[j]);
    ClaimPartition(c, s, i);
  }

  lemma ClaimData(c: Config, o: seq<byte>, s: Job, i: nat)
    requires WellFormed(c) && Data(c, o, s) && PosOk(c, s) && i < |s.slots|
    requires c.readStart <= s.slots[i].offset && s.pos + s.slots[i].length <= c.End()
    requires c.sparse ==> AllData(c, s.pos, s.pos + s.slots[i].length)
    ensures Data(c, o, Claim(s, i))
  {
    var t := Claim(s, i);
    assert forall k :: 0 <= k < |s.fate| ==> t.fate[k] == s.fate[k];
    assert forall k :: |s.fate| <= k < |t.fate| ==> t.fate[k] == InFlight(i);
  }

  lemma ClaimKeeps(c: Config, o: seq<byte>, s: Job, i: nat)
    requires Inv(c, o, s) && i < |s.slots| && s.slots[i].phase == Idle && NoSeek(s)
    requires s.slots[i].offset == s.pos && 0 < s.slots[i].length <= c.unit && s.pos + s.slots[i].length <= c.End()
    requires s.slots[i].length % c.outBlock == 0 || s.pos + s.slots[i].length == c.End()
    requires c.SparseBdev() ==> s.slots[i].length % c.inBlock == 0
    requires c.sparse ==> AllData(c, s.pos, s.pos + s.slots[i].length)
    ensures Inv(c, o, Claim(s, i)) && NoSeek(Claim(s, i))
  {
    var t, v := Claim(s, i), s.slots[i].(phase := Running);
    ClaimOwn(c, s, i);
    ClaimData(c, o, s, i);
    CountUpdate(c, s, t, i, v);
    QueueUpdate(c, s, s.(slots := t.slots), i, v);
    PosQueue(c, s.(slots := t.slots), t);
  }

  lemma SkipOwn(c: Config, s: Job, d: nat)
    requires WellFormed(c) && Own(c, s) && c.sparse
    requires s.pos <= d < |c.isData| && c.isData[d] && forall k :: s.pos <= k < d ==> !c.isData[k]
    ensures Own(c, Skip(s, d))
  {
    hide RoundUp;
    var t := Skip(s, d);
    if d > s.pos { assert Boundary(c, d); }
    assert forall k :: 0 <= k < |s.fate| ==> t.fate[k] == s.fate[k];
    assert forall k :: |s.fate| <= k < |t.fate| ==> t.fate[k] == Hole;
    assert forall i :: 0 <= i < |t.slots| ==> SlotOk(c, t, t.slots[i]);
    assert Partition(c, t);
  }

  lemma SkipData(c: Config, o: seq<byte>, s: Job, d: nat)
    requires WellFormed(c) && PosOk(c, s) && Data(c, o, s) && c.sparse
    requires s.pos <= d < |c.isData| && forall k :: s.pos <= k < d ==> !c.isData[k]
    ensures Data(c, o, Skip(s, d))
  {
    var t := Skip(s, d);
    assert forall k :: 0 <= k < |s.fate| ==> t.fate[k] == s.fate[k];
    assert forall k :: |s.fate| <= k < |t.fate| ==> t.fate[k] == Hole;
    assert forall k :: 0 <= k < |t.fate| ==> FateOk(c, o, t.out, t.fate[k], k);
  }

  lemma SkipKeeps(c: Config, o: seq<byte>, s: Job, d: nat)
    requires Inv(c, o, s) && NoSeek(s) && c.sparse
    requires s.pos <= d < |c.isData| && c.isData[d] && forall k :: s.pos <= k < d ==> !c.isData[k]
    ensures Inv(c, o, Skip(s, d))
  {
    SkipOwn(c, s, d);
    SkipData(c, o, s, d);
    PosQueue(c, s, Skip(s, d));
  }

  // ------------------------------------------------------------------ the output changes

  lemma ExtendData(c: Config, o: seq<byte>, s: Job)
    requires WellFormed(c) && Data(c, o, s) && c.outKind == File && c.copySize > 0
    ensures Data(c, o, s.(out := Extend(s.out, c.copySize + c.writeStart)))
  {
    hide RoundUp;
    var t := s.(out := Extend(s.out, c.copySize + c.writeStart));
    forall i | 0 <= i < |t.slots| ensures BufOk(c, o, t.out, t.slots[i]) {
      assert BufOk(c, o, s.out, s.slots[i]);
    }
    forall k | 0 <= k < |t.fate| ensures FateOk(c, o, t.out, t.fate[k], k) {
      assert FateOk(c, o, s.out, s.fate[k], k);
    }
  }

  lemma ExtendKeeps(c: Config, o: seq<byte>, s: Job)
    requires Inv(c, o, s) && c.outKind == File && c.copySize > 0
    ensures Inv(c, o, s.(out := Extend(s.out, c.copySize + c.writeStart)))
  {
    ExtendData(c, o, s);
  }

  // ------------------------------------------------------------------ the seek queue

  /** Only a seek by the head of the queue can be in flight. */
  lemma SeekerIsHead(c: Config, s: Job, i: nat)
    requires WellFormed(c) && QueueOk(c, s) && i < |s.slots| && s.slots[i].Seeking()
    ensures c.SparseBdev() && c.copySize > 0 && s.queue != [] && s.queue[0] == i
    ensures forall j :: 0 <= j < |s.slots| && j != i ==> !s.slots[j].Seeking()
  {
    forall j | 0 <= j < |s.slots| && s.slots[j].Seeking() ensures s.queue != [] && s.queue[0] == j {
      assert Waiting(s.slots[j]);
      var k :| 0 <= k < |s.queue| && s.queue[k] == j;
    }
  }

  lemma WaiterUpdate(c: Config, o: seq<byte>, s: Job, t: Job, i: nat, v: Slot)
    requires Inv(c, o, s) && i < |s.slots| && !s.slots[i].Owns() && !v.Owns() && !v.Transferring()
    requires t.pos == s.pos && t.fate == s.fate && t.out == s.out && t.slots == s.slots[i := v]
    requires v.buf == s.slots[i].buf && v.length == s.slots[i].length
    requires QueueOk(c, t) && Counted(c, t)
    ensures Inv(c, o, t)
  {
    assert SlotOk(c, s, s.slots[i]);
    OwnUpdate(c, s, t, i, v);
    DataUpdate(c, o, s, t, i, v);
  }

  lemma EnqueueKeeps(c: Config, o: seq<byte>, s: Job, i: nat)
    requires Inv(c, o, s) && i < |s.slots| && s.slots[i].phase == Idle && c.SparseBdev() && c.copySize > 0
    ensures Inv(c, o, WithPhase(s, i, Queued).(queue := s.queue + [i]))
  {
    var t, v := WithPhase(s, i, Queued).(queue := s.queue + [i]), s.slots[i].(phase := Queued);
    CountUpdate(c, s, t, i, v);
    EnqueueQueue(c, s, i);
    WaiterUpdate(c, o, s, t, i, v);
  }

  lemma EnqueueQueue(c: Config, s: Job, i: nat)
    requires WellFormed(c) && QueueOk(c, s) && i < |s.slots| && s.slots[i].phase == Idle && c.SparseBdev()
    requires c.copySize > 0
    ensures QueueOk(c, WithPhase(s, i, Queued).(queue := s.queue + [i]))
  {
    var t := WithPhase(s, i, Queued).(queue := s.queue + [i]);
    assert i !in s.queue;
    assert forall j :: 0 <= j < |t.slots| && j != i ==> t.slots[j] == s.slots[j];
    assert t.queue[|s.queue|] == i;
    forall j | 0 <= j < |t.slots| && Waiting(t.slots[j]) ensures j in t.queue {
      if j != i {
        assert Waiting(s.slots[j]);
        var k :| 0 <= k < |s.queue| && s.queue[k] == j;
        assert t.queue[k] == j;
      }
    }
  }

  lemma LaunchSeekKeeps(c: Config, o: seq<byte>, s: Job, i: nat, p: Phase)
    requires Inv(c, o, s) && i < |s.slots| && s.slots[i].phase == Queued && NoSeek(s)
    requires s.queue != [] && s.queue[0] == i
    requires p == SeekingData || (p == SeekingHole && s.pos < |c.isData| && c.isData[s.pos])
    ensures Inv(c, o, LaunchSeek(c, s, i, p))
  {
    var t := LaunchSeek(c, s, i, p);
    WholeBlocks(s.pos, c.inBlock);
    assert forall j :: 0 <= j < |t.slots| && j != i ==> t.slots[j] == s.slots[j];
    CountUpdate(c, s, t, i, t.slots[i]);
    WaiterUpdate(c, o, s, t, i, t.slots[i]);
  }

  lemma LandSeekKeeps(c: Config, o: seq<byte>, s: Job, i: nat)
    requires Inv(c, o, s) && i < |s.slots| && s.slots[i].Seeking()
    ensures Inv(c, o, LandSeek(s, i)) && NoSeek(LandSeek(s, i))
    ensures c.SparseBdev() && c.copySize > 0 && s.queue != [] && s.queue[0] == i
  {
    var t := LandSeek(s, i);
    SeekerIsHead(c, s, i);
    assert forall j :: 0 <= j < |t.slots| && j != i ==> t.slots[j] == s.slots[j];
    CountUpdate(c, s, t, i, t.slots[i]);
    WaiterUpdate(c, o, s, t, i, t.slots[i]);
  }

  lemma DequeueQueue(c: Config, s: Job, i: nat)
    requires WellFormed(c) && QueueOk(c, s) && i < |s.slots| && s.queue != [] && s.queue[0] == i
    ensures QueueOk(c, Dequeue(s, i)) && NoSeek(Dequeue(s, i))
  {
    var t := Dequeue(s, i);
    assert forall k :: 0 <= k < |t.queue| ==> t.queue[k] == s.queue[k + 1];
    assert forall j :: 0 <= j < |t.slots| && j != i ==> t.slots[j] == s.slots[j];
    forall j | 0 <= j < |t.slots| && Waiting(t.slots[j]) ensures j in t.queue && !t.slots[j].Seeking() {
      assert Waiting(s.slots[j]);
      var k :| 0 <= k < |s.queue| && s.queue[k] == j;
      assert t.queue[k - 1] == j;
    }
  }

  /** Leaving the queue costs no I/O, except in the abort branches, where the count is given up. */
  lemma DequeueKeeps(c: Config, o: seq<byte>, s: Job, i: nat)
    requires Inv(c, o, s) && i < |s.slots| && s.queue != [] && s.queue[0] == i
    requires s.slots[i].phase == Queued || (c.SparseBdev() && !s.Clean())
    ensures Inv(c, o, Dequeue(s, i)) && NoSeek(Dequeue(s, i))
  {
    var t := Dequeue(s, i);
    assert Waiting(s.slots[s.queue[0]]);
    DequeueQueue(c, s, i);
    if s.slots[i].phase == Queued { CountUpdate(c, s, t, i, t.slots[i]); }
    WaiterUpdate(c, o, s, t, i, t.slots[i]);
  }
}
