/** What holds in every reachable state: the partition, seek exclusion, accounting, addresses. */
module DdSafety {
  import opened Bytes
  import opened DdSpec
  import opened DdInvariant
  import opened DdPrimitives
  import opened DdRuns
  import opened DdControl
  import opened DdExit

  // ------------------------------------------------------------------ partition

  /**
   * The bytes from the start of the read region to `pos` are split without gap or overlap: byte k belongs
   * to slot i exactly when i holds a chunk over it, and otherwise it is finished, lost or a hole.
   */
  lemma PartitionAlways(c: Config, o: seq<byte>, h: History)
    requires Legal(c, o, h)
    ensures var s := Final(c, o, h);
            c.readStart <= s.pos <= c.End() && |s.fate| == s.pos - c.readStart && Partition(c, s)
    ensures var s := Final(c, o, h); forall k :: 0 <= k < |s.fate| && s.fate[k].InFlight? ==> s.fate[k].slot < |s.slots|
    ensures var s := Final(c, o, h); forall k :: 0 <= k < |s.fate| ==>
              && (s.fate[k] == Hole ==> c.sparse && !IsData(c, c.readStart + k))
              && (s.fate[k] != Hole && c.sparse ==> IsData(c, c.readStart + k))
  {
    AlwaysInv(c, o, h);
    var s := Final(c, o, h);
    forall k | 0 <= k < |s.fate|
      ensures (s.fate[k] == Hole ==> c.sparse && !IsData(c, c.readStart + k))
      ensures (s.fate[k] != Hole && c.sparse ==> IsData(c, c.readStart + k))
    {
      assert FateOk(c, o, s.out, s.fate[k], k);
    }
  }

  /** Output ranges of two chunks, rounded up to whole blocks, never overlap. */
  lemma RoundedRangesDisjoint(c: Config, s: Job, i: nat, j: nat)
    requires c.outBlock > 0 && c.inBlock > 0 && Own(c, s) && i < |s.slots| && j < |s.slots| && i != j
    requires s.slots[i].Owns() && s.slots[j].Owns() && s.slots[i].offset <= s.slots[j].offset
    ensures Place(c, s.slots[i].offset) + RoundUp(s.slots[i].length, c.outBlock) <= Place(c, s.slots[j].offset)
  {
    var a, b := s.slots[i], s.slots[j];
    assert SlotOk(c, s, a) && SlotOk(c, s, b);
    var k := b.offset - c.readStart;
    assert s.fate[k] == InFlight(j);
    assert b.offset >= a.offset + a.length;
  }

  lemma RoundedDisjointAlways(c: Config, o: seq<byte>, h: History, i: nat, j: nat)
    requires Legal(c, o, h) && i < |Final(c, o, h).slots| && j < |Final(c, o, h).slots| && i != j
    requires Final(c, o, h).slots[i].Owns() && Final(c, o, h).slots[j].Owns()
    ensures var a, b := Final(c, o, h).slots[i], Final(c, o, h).slots[j];
            && c.readStart <= a.offset && c.readStart <= b.offset
            && (Place(c, a.offset) + RoundUp(a.length, c.outBlock) <= Place(c, b.offset)
                || Place(c, b.offset) + RoundUp(b.length, c.outBlock) <= Place(c, a.offset))
  {
    AlwaysInv(c, o, h);
    var s := Final(c, o, h);
    assert SlotOk(c, s, s.slots[i]) && SlotOk(c, s, s.slots[j]);
    if s.slots[i].offset <= s.slots[j].offset {
      RoundedRangesDisjoint(c, s, i, j);
    } else {
      RoundedRangesDisjoint(c, s, j, i);
    }
  }

  // ------------------------------------------------------------------ seek exclusion

  /** At most one seek is in flight; it belongs to the head of the queue and looks from the current position. */
  lemma SeekExclusive(c: Config, o: seq<byte>, h: History, i: nat)
    requires Legal(c, o, h) && i < |Final(c, o, h).slots| && Final(c, o, h).slots[i].Seeking()
    ensures var s := Final(c, o, h);
            && c.SparseBdev() && s.queue != [] && s.queue[0] == i && s.slots[i].at * c.inBlock == s.pos
            && (forall j :: 0 <= j < |s.slots| && j != i ==> !s.slots[j].Seeking())
            && (forall k :: 0 <= k < |s.queue| ==> s.queue[k] < |s.slots| && !s.slots[s.queue[k]].Owns())
  {
    AlwaysInv(c, o, h);
    var s := Final(c, o, h);
    SeekerIsHead(c, s, i);
    forall k | 0 <= k < |s.queue| ensures s.queue[k] < |s.slots| && !s.slots[s.queue[k]].Owns() {
      assert Waiting(s.slots[s.queue[k]]);
    }
  }

  lemma CompleteHoldsPos(c: Config, s: Job, i: nat, res: int, e: Env)
    requires c.outBlock > 0 && c.inBlock > 0 && c.SparseBdev() && i < |s.slots|
    ensures Complete(c, s, i, res, e).pos == s.pos
  {}

  /** While a slot's seek is in flight, no event of another slot moves the input position. */
  lemma SeekHoldsPos(c: Config, o: seq<byte>, h: History, i: nat, v: Event)
    requires Legal(c, o, h) && i < |Final(c, o, h).slots| && Final(c, o, h).slots[i].Seeking()
    requires Enabled(c, Final(c, o, h), v) && !(v.SeekDone? && v.i == i)
    ensures Step(c, Final(c, o, h), v).pos == Final(c, o, h).pos
  {
    hide Legal, Final, Complete;
    SeekExclusive(c, o, h, i);
    var s := Final(c, o, h);
    assert WellFormed(c) by { AlwaysInv(c, o, h); }
    match v {
      case Done(j, res, e) => CompleteHoldsPos(c, s, j, res, e);
      case SeekDone(j, e) => assert false;
      case _ =>
    }
  }

  // ------------------------------------------------------------------ addresses

  /**
   * No reachable state wraps: the two uint64_t subtractions are exact, a request fits its buffer, and when
   * the write region is inside a block device the rounded request is too, so no write is refused for range.
   */
  lemma AddressesExact(c: Config, o: seq<byte>, h: History)
    requires Legal(c, o, h)
    ensures var s := Final(c, o, h); Sub64(c.copySize, Sub64(s.pos, c.readStart)) == c.copySize - (s.pos - c.readStart)
    ensures var s := Final(c, o, h); forall i :: 0 <= i < |s.slots| && s.slots[i].Owns() ==>
              && Target(c, s.slots[i].offset) == c.writeStart + s.slots[i].offset - c.readStart
              && RoundUp(s.slots[i].length, c.outBlock) <= c.unit == |s.slots[i].buf|
              && (c.writeStart % c.outBlock == 0 && |o| % c.outBlock == 0 && c.writeStart + c.copySize <= |o| ==>
                    Target(c, s.slots[i].offset) + RoundUp(s.slots[i].length, c.outBlock) <= |o|)
  {
    AlwaysInv(c, o, h);
    var s := Final(c, o, h);
    NoWrap(c, s.pos);
    forall i | 0 <= i < |s.slots| && s.slots[i].Owns()
      ensures Target(c, s.slots[i].offset) == c.writeStart + s.slots[i].offset - c.readStart
      ensures RoundUp(s.slots[i].length, c.outBlock) <= c.unit == |s.slots[i].buf|
      ensures c.writeStart % c.outBlock == 0 && |o| % c.outBlock == 0 && c.writeStart + c.copySize <= |o| ==>
                Target(c, s.slots[i].offset) + RoundUp(s.slots[i].length, c.outBlock) <= |o|
    {
      assert SlotOk(c, s, s.slots[i]);
      NoWrap(c, s.slots[i].offset);
      if c.writeStart % c.outBlock == 0 && |o| % c.outBlock == 0 && c.writeStart + c.copySize <= |o| {
        RoundedInside(c.writeStart, s.slots[i].offset - c.readStart, s.slots[i].length, |o|, c.outBlock);
      }
    }
  }

  lemma RoundedInside(base: nat, skip: nat, length: nat, size: nat, block: nat)
    requires block > 0 && base % block == 0 && RoundUp(skip, block) == skip && size % block == 0
    requires base + skip + length <= size
    ensures base + skip + RoundUp(length, block) <= size
  {
    RoundUpBounds(skip, block, RoundUpWitness(skip, block));
    ModOfSum(base, skip, block);
    ModOfSum(size, base + skip, block);
    RoundUpBounds(length, block, size - base - skip);
  }

  /** Some whole number of blocks at or above `x`. */
  function RoundUpWitness(x: nat, block: nat): (r: nat)
    requires block > 0
    ensures r >= x && r % block == 0
  {
    MulDivMod(x, block, 0);
    x * block
  }

  // ------------------------------------------------------------------ exits

  /** I/O is in flight and nothing has exited, or nothing is and `n` exits were made. */
  ghost predicate Once(s: Job, n: nat) {
    (s.exits == [] && s.outstanding >= 1 && n == 1) || (|s.exits| == n && s.outstanding == 0)
  }

  lemma StepOnce(c: Config, o: seq<byte>, s: Job, v: Event, n: nat)
    requires Inv(c, o, s) && Once(s, n) && !c.SparseBdev() && Enabled(c, s, v) && !SilentEvent(c, s, v)
    ensures Once(Step(c, s, v), n)
  {
    match v {
      case Done(i, res, e) =>
        InFlightCounted(c, s, i);
        assert SlotOk(c, s, s.slots[i]);
        CompleteEnds(c, s, i, res, e);
      case SeekDone(i, e) => SeekerIsHead(c, s, i);
      case _ =>
    }
  }

  lemma {:induction false} ExecuteOnce(c: Config, o: seq<byte>, s: Job, events: seq<Event>, n: nat)
    requires Inv(c, o, s) && Once(s, n) && !c.SparseBdev() && Possible(c, s, events)
    ensures Once(Execute(c, s, events), n)
    decreases |events|
  {
    hide Own, Data, QueueOk, Counted, Once, Step;
    if events != [] {
      StepKeeps(c, o, s, events[0]);
      StepOnce(c, o, s, events[0], n);
      ExecuteOnce(c, o, Step(c, s, events[0]), events[1..], n);
    }
  }

  /**
   * Quiescent exit: a run has exited exactly when no I/O is in flight, and `outstanding` counts those I/Os.
   * It exits once, unless its start loop drained already: then it has exited once for every slot, and without
   * slots not at all.
   */
  lemma ExitCount(c: Config, o: seq<byte>, h: History)
    requires Legal(c, o, h) && !c.SparseBdev()
    ensures var s := Final(c, o, h);
            && s.outstanding == Total(s.slots, IoWeight)
            && |s.exits| ==
               (if s.outstanding > 0 then 0 else if Started(c, o, h).exits == [] && c.depth >= 1 then 1 else c.depth)
  {
    hide Own, Data, QueueOk, Possible, Execute;
    StartedInv(c, o, h);
    StartedOnce(c, o, h);
    ExecuteOnce(c, o, Started(c, o, h), h.events, ExitsOf(c, o, h));
    AlwaysInv(c, o, h);
  }

  /** How often a drained run has exited. */
  function ExitsOf(c: Config, o: seq<byte>, h: History): nat
    requires Starts(c, h)
  {
    if Started(c, o, h).exits == [] && c.depth >= 1 then 1 else c.depth
  }

  lemma StartedOnce(c: Config, o: seq<byte>, h: History)
    requires Starts(c, h)
    ensures Once(Started(c, o, h), ExitsOf(c, o, h))
  {
    hide StartFrom;
    StartedBegun(c, o, h);
  }
}
