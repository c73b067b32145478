/** The code's functions and the device's moves keep the invariant. */
module DdSteps {
  import opened Bytes
  import opened DdSpec
  import opened DdInvariant
  import opened DdPrimitives

  // ------------------------------------------------------------------ the device moves bytes

  /** `n` bytes of `src` from `k` on replace those of a buffer from `w` on. */
  ghost predicate Overlaid(b: seq<byte>, buf: seq<byte>, w: nat, src: seq<byte>, k: nat, n: nat) {
    && |b| == |buf| && k + n <= |src|
    && forall j: nat :: j < |b| ==> b[j] == if w <= j < w + n then src[k + (j - w)] else buf[j]
  }

  lemma BufferEffect(buf: seq<byte>, w: nat, src: seq<byte>, k: nat, n: nat)
    requires w + n <= |buf| && k + n <= |src|
    ensures Overlaid(Store(buf, w, src, k, n), buf, w, src, k, n)
  {
    var b := Store(buf, w, src, k, n);
    forall j: nat | j < |b| ensures b[j] == if w <= j < w + n then src[k + (j - w)] else buf[j] {
      assert At(b, j) == b[j] && At(buf, j) == buf[j];
    }
  }

  /** What a serving device leaves in the buffer of a slot that reads or populates. */
  lemma ServedInto(c: Config, s: Job, i: nat, n: nat)
    requires i < |s.slots| && CanServe(c, s, i, n) && s.slots[i].phase != Writing
    ensures |Serve(c, s, i, n).slots| == |s.slots|
    ensures var sl, v := s.slots[i], Serve(c, s, i, n).slots[i];
            && v == sl.(buf := v.buf, served := sl.served + n)
            && Overlaid(v.buf, sl.buf, sl.served, if sl.phase == Reading then c.input else s.out, sl.at + sl.served, n)
  {
    hide Overlaid, Store;
    var sl := s.slots[i];
    BufferEffect(sl.buf, sl.served, if sl.phase == Reading then c.input else s.out, sl.at + sl.served, n);
  }

  lemma TailGrows(o: seq<byte>, out: seq<byte>, buf: seq<byte>, b: seq<byte>, w: nat, length: nat, served: nat, n: nat)
    requires Overlaid(b, buf, served, out, w + served, n)
    requires forall q: nat :: w + length <= q < w + served && q < w + |buf| ==> At(o, q) == buf[q - w]
    requires forall q: nat :: q >= w + length ==> At(out, q) == At(o, q)
    ensures forall q: nat :: w + length <= q < w + served + n && q < w + |b| ==> At(o, q) == b[q - w]
  {
    forall q: nat | w + length <= q < w + served + n && q < w + |b| ensures At(o, q) == b[q - w] {
      assert At(out, q) == At(o, q);
    }
  }

  lemma PopulatesTail(c: Config, o: seq<byte>, s: Job, i: nat, n: nat)
    requires c.outBlock > 0 && i < |s.slots| && CanServe(c, s, i, n) && s.slots[i].phase == Populating
    requires SlotOk(c, s, s.slots[i]) && BufOk(c, o, s.out, s.slots[i])
    requires Frame(c, o, s) && |s.fate| == s.pos - c.readStart && s.pos <= c.End()
    ensures BufOk(c, o, s.out, Serve(c, s, i, n).slots[i])
  {
    hide RoundUp, Serve, Overlaid;
    var sl := s.slots[i];
    ServedInto(c, s, i, n);
    if RoundUp(sl.length, c.outBlock) != sl.length {
      TailGrows(o, s.out, sl.buf, Serve(c, s, i, n).slots[i].buf, sl.at, sl.length, sl.served, n);
    }
  }

  lemma ChunkGrows(input: seq<byte>, buf: seq<byte>, b: seq<byte>, at: nat, served: nat, n: nat)
    requires Overlaid(b, buf, served, input, at + served, n)
    requires forall j: nat :: j < served && j < |buf| ==> at + j < |input| && buf[j] == input[at + j]
    ensures forall j: nat :: j < served + n && j < |b| ==> b[j] == input[at + j]
  {}

  lemma ReadsChunk(c: Config, o: seq<byte>, s: Job, i: nat, n: nat)
    requires c.outBlock > 0 && i < |s.slots| && CanServe(c, s, i, n) && s.slots[i].phase == Reading
    requires SlotOk(c, s, s.slots[i]) && BufOk(c, o, s.out, s.slots[i])
    ensures BufOk(c, o, s.out, Serve(c, s, i, n).slots[i])
  {
    hide RoundUp, Serve, Stored;
    var sl := s.slots[i];
    ServedInto(c, s, i, n);
    ChunkGrows(c.input, sl.buf, Serve(c, s, i, n).slots[i].buf, sl.at, sl.served, n);
    TailUntouched(c, o, s.out, sl, Serve(c, s, i, n).slots[i]);
  }

  /** A read writes only the chunk's part of the buffer. */
  lemma TailUntouched(c: Config, o: seq<byte>, out: seq<byte>, sl: Slot, v: Slot)
    requires c.outBlock > 0 && c.readStart <= sl.offset && TailReady(c, o, out, sl) && |v.buf| == |sl.buf|
    requires v == sl.(buf := v.buf, served := v.served)
    requires forall j: nat :: sl.length <= j < |sl.buf| ==> v.buf[j] == sl.buf[j]
    ensures TailReady(c, o, out, v)
  {
    hide RoundUp;
    var w := Place(c, sl.offset);
    forall q: nat | w + v.length <= q < w + RoundUp(v.length, c.outBlock) && q < w + |v.buf|
      ensures At(o, q) == v.buf[q - w]
    {
      assert v.buf[q - w] == sl.buf[q - w];
    }
  }

  /** Slot `sl` has put its first `n` buffer bytes into `b`, which otherwise agrees with `a`. */
  ghost predicate Puts(c: Config, a: seq<byte>, b: seq<byte>, sl: Slot, n: nat)
    requires c.readStart <= sl.offset
  {
    var w := Place(c, sl.offset);
    && |a| <= |b|
    && (forall q: nat :: q < w || q >= w + sl.length ==> At(b, q) == At(a, q))
    && Stored(c, b, sl, n)
  }

  /** The same on plain bytes: `buf` is a chunk of `length` bytes followed by the output's own bytes. */
  lemma StoreEffect(o: seq<byte>, a: seq<byte>, w: nat, buf: seq<byte>, length: nat, r: nat, served: nat, n: nat)
    requires served + n <= r <= |buf| && length <= r
    requires forall q: nat :: w + length <= q < w + r ==> At(o, q) == buf[q - w]
    requires forall q: nat :: w <= q < w + served ==> At(a, q) == buf[q - w]
    requires r > length ==> forall q: nat :: q >= w + length ==> At(a, q) == At(o, q)
    ensures var b := Store(a, w + served, buf, served, n);
            && (forall q: nat :: q < w || q >= w + length ==> At(b, q) == At(a, q))
            && (forall q: nat :: w <= q < w + served + n ==> At(b, q) == buf[q - w])
  {}

  /** A writing slot's buffer beyond its chunk holds what the output holds there. */
  lemma WriteReady(c: Config, o: seq<byte>, s: Job, sl: Slot)
    requires c.outBlock > 0 && sl.phase == Writing && SlotOk(c, s, sl) && BufOk(c, o, s.out, sl)
    requires Frame(c, o, s) && |s.fate| == s.pos - c.readStart && s.pos <= c.End()
    ensures c.readStart <= sl.offset && sl.at == Place(c, sl.offset) && sl.length <= sl.size <= |sl.buf|
    ensures forall q: nat :: sl.at + sl.length <= q < sl.at + sl.size ==> At(o, q) == sl.buf[q - sl.at]
    ensures forall q: nat :: sl.at <= q < sl.at + sl.served ==> At(s.out, q) == sl.buf[q - sl.at]
    ensures sl.size > sl.length ==> forall q: nat :: q >= sl.at + sl.length ==> At(s.out, q) == At(o, q)
    ensures sl.served > 0 ==> sl.at + sl.served <= |s.out|
  {
    hide RoundUp, Loaded;
  }

  lemma WritesOut(c: Config, o: seq<byte>, s: Job, i: nat, n: nat)
    requires c.outBlock > 0 && i < |s.slots| && CanServe(c, s, i, n) && s.slots[i].phase == Writing
    requires SlotOk(c, s, s.slots[i]) && BufOk(c, o, s.out, s.slots[i])
    requires Frame(c, o, s) && |s.fate| == s.pos - c.readStart && s.pos <= c.End()
    ensures Puts(c, s.out, Serve(c, s, i, n).out, s.slots[i], s.slots[i].served + n)
  {
    hide RoundUp, SlotOk, BufOk, Frame, Serve;
    var sl := s.slots[i];
    WriteReady(c, o, s, sl);
    ServedOut(c, s, i, n);
    StoreEffect(o, s.out, sl.at, sl.buf, sl.length, sl.size, sl.served, n);
  }

  lemma ServedOut(c: Config, s: Job, i: nat, n: nat)
    requires i < |s.slots| && CanServe(c, s, i, n) && s.slots[i].phase == Writing
    ensures var sl := s.slots[i]; Serve(c, s, i, n).out == Store(s.out, sl.at + sl.served, sl.buf, sl.served, n)
  {}

  lemma WritesInside(c: Config, o: seq<byte>, s: Job, i: nat, n: nat)
    requires c.outBlock > 0 && i < |s.slots| && CanServe(c, s, i, n) && s.slots[i].phase == Writing
    requires SlotOk(c, s, s.slots[i]) && BufOk(c, o, s.out, s.slots[i]) && OutOk(c, o, s.out)
    requires c.readStart <= s.pos <= c.End()
    ensures OutOk(c, o, Serve(c, s, i, n).out)
  {}

  lemma WriteFates(c: Config, o: seq<byte>, s: Job, i: nat, b: seq<byte>, n: nat)
    requires WellFormed(c) && Own(c, s) && Data(c, o, s) && i < |s.slots| && s.slots[i].phase == Writing
    requires c.readStart <= s.slots[i].offset && Puts(c, s.out, b, s.slots[i], n)
    ensures forall k :: 0 <= k < |s.fate| ==> FateOk(c, o, b, s.fate[k], k)
  {
    hide RoundUp;
    forall k | 0 <= k < |s.fate| ensures FateOk(c, o, b, s.fate[k], k) {
      assert FateOk(c, o, s.out, s.fate[k], k);
      if s.fate[k] != InFlight(i) { OthersKept(c, s, i, b, n, k); }
    }
  }

  /** A byte of the region that is not slot i's is not changed by slot i's write. */
  lemma OthersKept(c: Config, s: Job, i: nat, b: seq<byte>, n: nat, k: nat)
    requires i < |s.slots| && s.slots[i].Owns() && c.readStart <= s.slots[i].offset && Partition(c, s)
    requires Puts(c, s.out, b, s.slots[i], n) && k < |s.fate| && s.fate[k] != InFlight(i)
    ensures At(b, c.writeStart + k) == At(s.out, c.writeStart + k)
  {
    assert !(s.slots[i].offset <= c.readStart + k < s.slots[i].offset + s.slots[i].length);
  }

  lemma OtherSlotKept(c: Config, o: seq<byte>, s: Job, i: nat, b: seq<byte>, n: nat, h: nat)
    requires WellFormed(c) && Own(c, s) && i < |s.slots| && h < |s.slots| && h != i && s.slots[i].phase == Writing
    requires c.readStart <= s.slots[i].offset && Puts(c, s.out, b, s.slots[i], n)
    requires BufOk(c, o, s.out, s.slots[h])
    ensures BufOk(c, o, b, s.slots[h])
  {
    hide RoundUp;
    var sl := s.slots[h];
    assert SlotOk(c, s, sl) && SlotOk(c, s, s.slots[i]);
    if sl.phase == Writing {
      var w := Place(c, sl.offset);
      forall q: nat | w <= q < w + sl.served && q < w + |sl.buf| ensures At(b, q) == sl.buf[q - w] {
        assert At(s.out, q) == sl.buf[q - w];
        if q < w + sl.length {
          var k := q - c.writeStart;
          assert s.fate[k] == InFlight(h);
          OthersKept(c, s, i, b, n, k);
        }
      }
    }
  }

  lemma WriteFrame(c: Config, o: seq<byte>, s: Job, sl: Slot, b: seq<byte>, n: nat)
    requires Frame(c, o, s) && c.readStart <= sl.offset && sl.offset + sl.length <= s.pos
    requires |s.fate| == s.pos - c.readStart
    requires Puts(c, s.out, b, sl, n)
    ensures Frame(c, o, s.(out := b))
  {
    forall q: nat | q < c.writeStart || q >= c.writeStart + |s.fate| ensures At(b, q) == At(o, q) {
      assert At(s.out, q) == At(o, q);
    }
  }

  lemma WriteSlots(c: Config, o: seq<byte>, s: Job, i: nat, b: seq<byte>, n: nat)
    requires WellFormed(c) && Own(c, s) && Data(c, o, s) && i < |s.slots| && s.slots[i].phase == Writing
    requires c.readStart <= s.slots[i].offset && Puts(c, s.out, b, s.slots[i], n)
    ensures forall h :: 0 <= h < |s.slots| && h != i ==> BufOk(c, o, b, s.slots[h])
    ensures BufOk(c, o, b, s.slots[i].(served := n))
  {
    hide RoundUp;
    assert SlotOk(c, s, s.slots[i]) && BufOk(c, o, s.out, s.slots[i]);
    forall h | 0 <= h < |s.slots| && h != i ensures BufOk(c, o, b, s.slots[h]) {
      assert BufOk(c, o, s.out, s.slots[h]);
      OtherSlotKept(c, o, s, i, b, n, h);
    }
  }

  lemma WriteData(c: Config, o: seq<byte>, s: Job, i: nat, n: nat)
    requires WellFormed(c) && Own(c, s) && Data(c, o, s) && i < |s.slots| && CanServe(c, s, i, n)
    requires s.slots[i].phase == Writing
    ensures Data(c, o, Serve(c, s, i, n))
  {
    hide RoundUp;
    var b := Serve(c, s, i, n).out;
    var m := s.slots[i].served + n;
    assert SlotOk(c, s, s.slots[i]) && BufOk(c, o, s.out, s.slots[i]);
    WritesOut(c, o, s, i, n);
    WritesInside(c, o, s, i, n);
    WriteFrame(c, o, s, s.slots[i], b, m);
    WriteFates(c, o, s, i, b, m);
    WriteSlots(c, o, s, i, b, m);
  }

  lemma ServeData(c: Config, o: seq<byte>, s: Job, i: nat, n: nat)
    requires WellFormed(c) && Own(c, s) && Data(c, o, s) && i < |s.slots| && CanServe(c, s, i, n)
    ensures Data(c, o, Serve(c, s, i, n))
  {
    hide RoundUp;
    assert SlotOk(c, s, s.slots[i]) && BufOk(c, o, s.out, s.slots[i]);
    match s.slots[i].phase {
      case Writing => WriteData(c, o, s, i, n);
      case Populating =>
        PopulatesTail(c, o, s, i, n);
        DataUpdate(c, o, s, Serve(c, s, i, n), i, Serve(c, s, i, n).slots[i]);
      case Reading =>
        ReadsChunk(c, o, s, i, n);
        DataUpdate(c, o, s, Serve(c, s, i, n), i, Serve(c, s, i, n).slots[i]);
    }
  }

  lemma ServeOwn(c: Config, s: Job, i: nat, n: nat)
    requires WellFormed(c) && Own(c, s) && i < |s.slots| && CanServe(c, s, i, n)
    ensures Own(c, Serve(c, s, i, n))
  {
    var t := Serve(c, s, i, n);
    assert SlotOk(c, s, s.slots[i]);
    OwnUpdate(c, s, t, i, t.slots[i]);
  }

  lemma ServeRest(c: Config, s: Job, i: nat, n: nat)
    requires WellFormed(c) && Counted(c, s) && QueueOk(c, s) && i < |s.slots| && CanServe(c, s, i, n)
    ensures Counted(c, Serve(c, s, i, n)) && QueueOk(c, Serve(c, s, i, n))
  {
    var t := Serve(c, s, i, n);
    CountUpdate(c, s, t, i, t.slots[i]);
    QueueUpdate(c, s, t, i, t.slots[i]);
  }

  lemma ServeKeeps(c: Config, o: seq<byte>, s: Job, i: nat, n: nat)
    requires Inv(c, o, s) && i < |s.slots| && CanServe(c, s, i, n)
    ensures Inv(c, o, Serve(c, s, i, n))
  {
    ServeOwn(c, s, i, n);
    ServeData(c, o, s, i, n);
    ServeRest(c, s, i, n);
  }
}
