/** The inductive invariant of the copy engine. */
module DdInvariant {
  import opened Bytes
  import opened DdSpec

  // ------------------------------------------------------------------ configurations

  ghost predicate Boundary(c: Config, p: nat) {
    0 < p < |c.isData| && c.isData[p - 1] != c.isData[p]
  }

  /** A sparse copy runs to the end of the input, whose data/hole boundaries are whole output blocks. */
  ghost predicate SparseLayout(c: Config)
    requires c.outBlock > 0 && c.inBlock > 0
  {
    && c.End() == |c.input| == |c.isData| == c.inTotal
    && (forall p :: 0 <= p < |c.input| && !c.isData[p] ==> c.input[p] == 0)
    && (forall p: nat :: Boundary(c, p) ==> (p - c.readStart) % c.outBlock == 0)
    && (c.inKind == Bdev ==>
          && c.readStart % c.inBlock == 0 && c.inTotal % c.inBlock == 0 && c.unit % c.inBlock == 0
          && forall p: nat :: Boundary(c, p) ==> p % c.inBlock == 0)
  }

  ghost predicate WellFormed(c: Config) {
    && c.unit > 0 && c.outBlock > 0 && c.inBlock > 0 && c.unit % c.outBlock == 0
    && c.readStart + c.copySize < U64 && c.writeStart + c.copySize + c.unit < U64
    && (c.sparse ==> SparseLayout(c))
  }

  function Place(c: Config, p: nat): nat
    requires p >= c.readStart
  {
    c.writeStart + (p - c.readStart)
  }

  /** Neither subtraction wraps while the offset is inside the read region. */
  lemma NoWrap(c: Config, p: nat)
    requires WellFormed(c) && c.readStart <= p <= c.End()
    ensures Target(c, p) == Place(c, p)
    ensures Sub64(c.copySize, Sub64(p, c.readStart)) == c.End() - p
  {}

  // ------------------------------------------------------------------ sums over slots

  function IoWeight(sl: Slot): nat {
    if sl.Transferring() || sl.Seeking() then 1 else 0
  }

  function Total(slots: seq<Slot>, w: Slot -> nat): nat {
    if slots == [] then 0 else Total(slots[..|slots| - 1], w) + w(slots[|slots| - 1])
  }

  lemma {:induction false} TotalUpdate(slots: seq<Slot>, i: nat, v: Slot, w: Slot -> nat)
    requires i < |slots|
    ensures Total(slots[i := v], w) == Total(slots, w) - w(slots[i]) + w(v)
  {
    var n := |slots| - 1;
    if i == n {
      assert slots[i := v][..n] == slots[..n];
    } else {
      assert slots[i := v][..n] == slots[..n][i := v];
      TotalUpdate(slots[..n], i, v, w);
    }
  }

  lemma {:induction false} TotalAtLeast(slots: seq<Slot>, i: nat, w: Slot -> nat)
    requires i < |slots|
    ensures Total(slots, w) >= w(slots[i])
  {
    var n := |slots| - 1;
    if i < n { TotalAtLeast(slots[..n], i, w); }
  }

  lemma {:induction false} TotalZero(slots: seq<Slot>, w: Slot -> nat)
    requires forall i :: 0 <= i < |slots| ==> w(slots[i]) == 0
    ensures Total(slots, w) == 0
  {
    if slots != [] { TotalZero(slots[..|slots| - 1], w); }
  }

  /** Some slot has its share in a positive total. */
  lemma TotalPositive(slots: seq<Slot>, w: Slot -> nat) returns (i: nat)
    requires Total(slots, w) >= 1
    ensures i < |slots| && w(slots[i]) >= 1
  {
    if forall k :: 0 <= k < |slots| ==> w(slots[k]) == 0 {
      TotalZero(slots, w);
      assert false;
    }
    i :| 0 <= i < |slots| && w(slots[i]) != 0;
  }

  // ------------------------------------------------------------------ the invariant

  ghost predicate SlotOk(c: Config, s: Job, sl: Slot)
    requires c.outBlock > 0
  {
    && |sl.buf| == c.unit && sl.length <= c.unit
    && (!c.sparse ==> sl.length == c.unit || s.pos + sl.length >= c.End())
    && (sl.Owns() ==>
          && c.readStart <= sl.offset && 0 < sl.length && sl.offset + sl.length <= s.pos
          && RoundUp(sl.offset - c.readStart, c.outBlock) == sl.offset - c.readStart
          && sl.length <= RoundUp(sl.length, c.outBlock) <= c.unit
          && (RoundUp(sl.length, c.outBlock) == sl.length || sl.offset + sl.length == c.End()))
    && (sl.Transferring() ==>
          && sl.served <= sl.size == (if sl.phase == Reading then sl.length else RoundUp(sl.length, c.outBlock))
          && sl.at == if sl.phase == Reading then sl.offset else Place(c, sl.offset))
  }

  ghost predicate PosOk(c: Config, s: Job)
    requires c.outBlock > 0 && c.inBlock > 0
  {
    && c.readStart <= s.pos <= c.End()
    && |s.fate| == s.pos - c.readStart
    && (s.pos == c.End() || (s.pos - c.readStart) % c.outBlock == 0)
    && (c.SparseBdev() ==> s.pos % c.inBlock == 0)
    && (s.fate != [] && s.fate[|s.fate| - 1] == Hole ==> s.pos < c.End() && s.pos < |c.isData| && c.isData[s.pos])
  }

  /** Byte k of the read region belongs to slot i exactly when i holds a chunk over it. */
  ghost predicate Partition(c: Config, s: Job) {
    forall i, k :: 0 <= i < |s.slots| && 0 <= k < |s.fate| ==>
      (s.fate[k] == InFlight(i) <==>
         s.slots[i].Owns() && s.slots[i].offset <= c.readStart + k < s.slots[i].offset + s.slots[i].length)
  }

  ghost predicate Own(c: Config, s: Job)
    requires c.outBlock > 0 && c.inBlock > 0
  {
    && PosOk(c, s)
    && (forall i :: 0 <= i < |s.slots| ==> SlotOk(c, s, s.slots[i]))
    && Partition(c, s)
    && (forall k :: 0 <= k < |s.fate| && s.fate[k].InFlight? ==> s.fate[k].slot < |s.slots|)
  }

  /** Buffer bytes past the chunk, up to `n`, are the output's original bytes. */
  ghost predicate TailKept(c: Config, o: seq<byte>, sl: Slot, n: nat)
    requires c.readStart <= sl.offset
  {
    var w := Place(c, sl.offset);
    forall q: nat :: w + sl.length <= q < w + n && q < w + |sl.buf| ==> At(o, q) == sl.buf[q - w]
  }

  /** The first `n` buffer bytes are the input's. */
  ghost predicate Loaded(c: Config, sl: Slot, n: nat) {
    && (n > 0 ==> sl.offset + n <= |c.input|)
    && forall j: nat :: j < n && j < |sl.buf| ==> sl.buf[j] == c.input[sl.offset + j]
  }

  /** The first `n` buffer bytes are in the output. */
  ghost predicate Stored(c: Config, out: seq<byte>, sl: Slot, n: nat)
    requires c.readStart <= sl.offset
  {
    var w := Place(c, sl.offset);
    && (n > 0 ==> w + n <= |out|)
    && forall q: nat :: w <= q < w + n && q < w + |sl.buf| ==> At(out, q) == sl.buf[q - w]
  }

  ghost predicate TailReady(c: Config, o: seq<byte>, out: seq<byte>, sl: Slot)
    requires c.readStart <= sl.offset && c.outBlock > 0
  {
    var r := RoundUp(sl.length, c.outBlock);
    TailKept(c, o, sl, r) && (r > sl.length ==> Place(c, sl.offset) + r <= |out|)
  }

  ghost predicate BufOk(c: Config, o: seq<byte>, out: seq<byte>, sl: Slot)
    requires c.outBlock > 0
  {
    && (sl.Owns() ==> c.readStart <= sl.offset)
    && match sl.phase
    case Populating =>
      TailKept(c, o, sl, sl.served) && Place(c, sl.offset) + sl.served <= Max(|out|, Place(c, sl.offset))
    case Reading => TailReady(c, o, out, sl) && Loaded(c, sl, sl.served)
    case Writing =>
      && TailReady(c, o, out, sl) && Loaded(c, sl, sl.length) && Stored(c, out, sl, sl.served)
      && (c.outKind == Bdev ==> Place(c, sl.offset) + RoundUp(sl.length, c.outBlock) <= |out|)
    case _ => true
  }

  ghost predicate IsData(c: Config, p: nat) {
    p < |c.isData| && c.isData[p]
  }

  ghost predicate AllData(c: Config, lo: nat, hi: nat) {
    forall p: nat :: lo <= p < hi && p < c.End() ==> IsData(c, p)
  }

  ghost predicate FateOk(c: Config, o: seq<byte>, out: seq<byte>, f: Fate, k: nat) {
    && (f != Hole && c.sparse ==> IsData(c, c.readStart + k))
    && match f
    case Written =>
      && c.readStart + k < |c.input| && c.writeStart + k < |out|
      && At(out, c.writeStart + k) == c.input[c.readStart + k]
    case Hole => c.sparse && !IsData(c, c.readStart + k) && At(out, c.writeStart + k) == At(o, c.writeStart + k)
    case _ => true
  }

  ghost predicate OutOk(c: Config, o: seq<byte>, out: seq<byte>) {
    && |o| <= |out| <= (if c.copySize == 0 then |o| else Max(|o|, c.writeStart + c.copySize))
    && (c.outKind == Bdev ==> |out| == |o|)
  }

  /** Outside the part of the write region handed out so far, the output is as it was. */
  ghost predicate Frame(c: Config, o: seq<byte>, s: Job) {
    forall q: nat :: q < c.writeStart || q >= c.writeStart + |s.fate| ==> At(s.out, q) == At(o, q)
  }

  ghost predicate Data(c: Config, o: seq<byte>, s: Job)
    requires c.outBlock > 0
  {
    && OutOk(c, o, s.out)
    && Frame(c, o, s)
    && (forall i :: 0 <= i < |s.slots| ==> BufOk(c, o, s.out, s.slots[i]))
    && (forall k :: 0 <= k < |s.fate| ==> FateOk(c, o, s.out, s.fate[k], k))
  }

  /** The abort branches of the bdev seeks do not give back their share of `outstanding`. */
  ghost predicate Counted(c: Config, s: Job) {
    (c.SparseBdev() && !s.Clean()) || s.outstanding == Total(s.slots, IoWeight)
  }

  ghost predicate Waiting(sl: Slot) {
    sl.phase == Queued || sl.Seeking()
  }

  /** At most one seek is in flight, by the head of the queue, and it looks from the current `pos`. */
  ghost predicate QueueOk(c: Config, s: Job)
    requires c.inBlock > 0
  {
    && (!c.SparseBdev() || c.copySize == 0 ==> s.queue == [])
    && (forall k :: 0 <= k < |s.queue| ==> s.queue[k] < |s.slots| && Waiting(s.slots[s.queue[k]]))
    && (forall k :: 0 < k < |s.queue| ==> s.slots[s.queue[k]].phase == Queued)
    && (forall k, l :: 0 <= k < l < |s.queue| ==> s.queue[k] != s.queue[l])
    && (forall i :: 0 <= i < |s.slots| && Waiting(s.slots[i]) ==> i in s.queue)
    && (forall i :: 0 <= i < |s.slots| && s.slots[i].Seeking() ==>
          && s.slots[i].at * c.inBlock == s.pos
          && (s.slots[i].phase == SeekingHole ==> s.pos < |c.isData| && c.isData[s.pos]))
  }

  ghost predicate Inv(c: Config, o: seq<byte>, s: Job) {
    && WellFormed(c)
    && Own(c, s)
    && Data(c, o, s)
    && Counted(c, s)
    && QueueOk(c, s)
  }

  ghost predicate NoSeek(s: Job) {
    forall i :: 0 <= i < |s.slots| ==> !s.slots[i].Seeking()
  }
}
