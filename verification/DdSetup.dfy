/** dd_run up to its start loop: sizes, range checks and the queue-depth clamp, in uint64_t arithmetic. */
module DdSetup {
  import opened Bytes
  import opened DdSpec
  import opened DdInvariant
  import opened DdRuns
  import opened DdStart
  import opened DdSafety

  datatype Options = Options(
    inKind: Kind, outKind: Kind, engine: Engine, sparse: bool,
    inputOffset: nat, outputOffset: nat, unit: nat, count: nat, depth: nat)

  /** What opening a target reports: its size in bytes and its block size. */
  datatype Device = Device(size: nat, block: nat)

  datatype Setup = Refused(rc: int) | Ready(c: Config)

  /** A file of size zero, such as a character device, is taken to hold the counted units. */
  function TotalSize(p: Options, k: Kind, d: Device): nat {
    if k == File && d.size == 0 then Mul64(p.unit, p.count) else d.size
  }

  /** One unit more than the target holds past the skipped ones, so that an empty range still gets a slot. */
  function Clamp(p: Options, depth: nat, ranged: bool, total: nat, skip: nat): nat
    requires p.unit > 0
  {
    var d := if ranged then Min(depth, Add64(Sub64(total / p.unit, skip), 1)) else depth;
    if p.count != 0 then Min(d, p.count) else d
  }

  /** The whole of dd_run before its start loop; allocation and ring failures are not modelled. */
  function Prepare(p: Options, i: Device, o: Device, input: seq<byte>, isData: seq<bool>): Setup
    requires p.unit > 0 && i.block > 0 && o.block > 0
  {
    var inTotal := TotalSize(p, p.inKind, i);
    var inDepth := Clamp(p, p.depth, true, inTotal, p.inputOffset);
    var writeSize := Mul64(p.count, p.unit);
    var readStart := Mul64(p.inputOffset, p.unit);
    if p.inKind == Bdev && readStart > inTotal then Refused(-ENOSPC)
    else if p.count != 0 && p.inKind == Bdev && Add64(writeSize, readStart) > inTotal then Refused(-ENOSPC)
    else
      var copySize := if p.count != 0 then writeSize else Sub64(inTotal, readStart);
      var writeStart := Mul64(p.outputOffset, p.unit);
      var outTotal := TotalSize(p, p.outKind, o);
      var depth := Clamp(p, inDepth, p.outKind == Bdev, outTotal, p.outputOffset);
      if p.outKind == Bdev && writeStart > outTotal then Refused(-ENOSPC)
      else if p.outKind == Bdev && p.count != 0 && Add64(writeSize, writeStart) > outTotal then Refused(-ENOSPC)
      else if o.block > p.unit || i.block > p.unit then Refused(-EINVAL)
      else if p.inKind == Bdev && p.unit % i.block != 0 then Refused(-EINVAL)
      else Ready(Config(p.inKind, p.outKind, p.engine, p.sparse, p.unit, i.block, o.block,
                        readStart, writeStart, inTotal, copySize, depth, input, isData))
  }

  /** Offsets and sizes that stay far from 2^64. */
  ghost predicate Sane(p: Options, i: Device, o: Device) {
    && p.unit > 0 && i.block > 0 && o.block > 0
    && p.inputOffset * p.unit < U64 / 4 && p.outputOffset * p.unit < U64 / 4 && p.count * p.unit < U64 / 4
    && i.size < U64 / 4 && o.size < U64 / 4 && p.unit < U64 / 4
    && p.inputOffset < U64 / 4 && p.outputOffset < U64 / 4
  }

  lemma Products(p: Options, i: Device, o: Device)
    requires Sane(p, i, o)
    ensures Mul64(p.inputOffset, p.unit) == p.inputOffset * p.unit
    ensures Mul64(p.outputOffset, p.unit) == p.outputOffset * p.unit
    ensures Mul64(p.count, p.unit) == Mul64(p.unit, p.count) == p.count * p.unit
    ensures p.count != 0 ==> p.count * p.unit > 0
  {
    hide Mul64;
    Mul64Exact(p.inputOffset, p.unit);
    Mul64Exact(p.outputOffset, p.unit);
    Mul64Exact(p.count, p.unit);
  }

  lemma Mul64Exact(a: nat, b: nat)
    requires a * b < U64
    ensures Mul64(a, b) == Mul64(b, a) == a * b
    ensures a > 0 && b > 0 ==> a * b > 0
  {
    assert a * b == b * a;
  }

  /**
   * The checks of dd_run: the copy size is the counted bytes or the rest of the input, and the read region lies
   * inside an input bdev.
   */
  lemma AcceptedInput(p: Options, i: Device, o: Device, input: seq<byte>, isData: seq<bool>)
    requires Sane(p, i, o) && Prepare(p, i, o, input, isData).Ready?
    ensures var c := Prepare(p, i, o, input, isData).c;
            && c.readStart == p.inputOffset * p.unit
            && (p.inKind == Bdev ==> c.readStart + c.copySize <= i.size)
            && (p.count != 0 ==> c.copySize == p.count * p.unit)
            && (p.count == 0 && c.readStart <= c.inTotal ==> c.copySize == c.inTotal - c.readStart)
  {
    hide Clamp, Mul64;
    Products(p, i, o);
  }

  /**
   * The write region starts behind the seeked units; on an output bdev that is inside it, and with a count the region
   * ends inside it.
   */
  lemma AcceptedOutput(p: Options, i: Device, o: Device, input: seq<byte>, isData: seq<bool>)
    requires Sane(p, i, o) && Prepare(p, i, o, input, isData).Ready?
    ensures var c := Prepare(p, i, o, input, isData).c;
            && c.writeStart == p.outputOffset * p.unit
            && (p.outKind == Bdev ==>
                  c.writeStart <= o.size && (p.count != 0 ==> c.writeStart + c.copySize <= o.size))
  {
    hide Clamp, Mul64;
    Products(p, i, o);
  }

  /** The clamps only ever lower the queue depth. */
  lemma DepthOnlyLowered(p: Options, i: Device, o: Device, input: seq<byte>, isData: seq<bool>)
    requires p.unit > 0 && i.block > 0 && o.block > 0 && Prepare(p, i, o, input, isData).Ready?
    ensures var c := Prepare(p, i, o, input, isData).c; c.depth <= p.depth && (p.count != 0 ==> c.depth <= p.count)
  {
    hide Prepare, Add64, Sub64;
    PreparedDepth(p, i, o, input, isData);
  }

  /** Skipping past the end is refused for a bdev but not for a file, where the copy size then wraps. */
  lemma FileSkipExactIff(p: Options, i: Device, o: Device, input: seq<byte>, isData: seq<bool>)
    requires Sane(p, i, o) && p.inKind == File && p.count == 0 && Prepare(p, i, o, input, isData).Ready?
    ensures var c := Prepare(p, i, o, input, isData).c;
            && (c.copySize == c.inTotal - c.readStart <==> c.readStart <= c.inTotal)
            && (c.readStart > c.inTotal ==> c.copySize == U64 - (c.readStart - c.inTotal))
  {
    Products(p, i, o);
  }

  lemma UnitCount(total: nat, unit: nat, skip: nat)
    requires unit > 0 && total == skip * unit
    ensures total / unit == skip
  {
    MulDivMod(skip, unit, 0);
  }

  lemma EmptyInput(p: Options, i: Device, o: Device, input: seq<byte>, isData: seq<bool>)
    requires Sane(p, i, o) && Prepare(p, i, o, input, isData).Ready? && Prepare(p, i, o, input, isData).c.copySize == 0
    ensures Prepare(p, i, o, input, isData).c.inTotal == p.inputOffset * p.unit
  {
    hide Clamp;
    Products(p, i, o);
  }

  lemma PreparedDepth(p: Options, i: Device, o: Device, input: seq<byte>, isData: seq<bool>)
    requires p.unit > 0 && i.block > 0 && o.block > 0 && Prepare(p, i, o, input, isData).Ready?
    ensures exists ranged: bool, t: nat, s: nat ::
              var c := Prepare(p, i, o, input, isData).c;
              c.depth == Clamp(p, Clamp(p, p.depth, true, c.inTotal, p.inputOffset), ranged, t, s)
  {
    hide Clamp, Mul64, Add64, Sub64;
  }

  /** The clamp leaves at most one slot when there is nothing to copy. */
  lemma EmptyCopyHasOneSlot(p: Options, i: Device, o: Device, input: seq<byte>, isData: seq<bool>)
    requires Sane(p, i, o) && Prepare(p, i, o, input, isData).Ready?
    ensures var c := Prepare(p, i, o, input, isData).c; c.copySize == 0 ==> c.depth <= 1
  {
    hide Prepare, Clamp;
    var c := Prepare(p, i, o, input, isData).c;
    if c.copySize == 0 {
      EmptyInput(p, i, o, input, isData);
      UnitCount(c.inTotal, p.unit, p.inputOffset);
      ClampToOne(p, c.inTotal);
      PreparedDepth(p, i, o, input, isData);
    }
  }

  lemma ClampToOne(p: Options, total: nat)
    requires p.unit > 0 && total / p.unit == p.inputOffset < U64
    ensures forall d: nat, ranged: bool, t: nat, s: nat ::
              Clamp(p, Clamp(p, d, true, total, p.inputOffset), ranged, t, s) <= 1
  {
    forall d: nat, ranged: bool, t: nat, s: nat
      ensures Clamp(p, Clamp(p, d, true, total, p.inputOffset), ranged, t, s) <= 1
    {
      assert Sub64(total / p.unit, p.inputOffset) == 0;
      assert Clamp(p, d, true, total, p.inputOffset) <= 1;
    }
  }

  /**
   * The clamp and the start loop together: a dense run whose first I/O is not refused, and which was not
   * interrupted before it began, makes at most one exit in its start loop.
   */
  lemma CleanStartExitsAtMostOnce(p: Options, i: Device, d: Device, input: seq<byte>, isData: seq<bool>, o: seq<byte>,
                                  h: History)
    requires Sane(p, i, d) && Prepare(p, i, d, input, isData).Ready? && !p.sparse
    requires var c := Prepare(p, i, d, input, isData).c;
             Starts(c, h) && (c.depth >= 1 && c.copySize > 0 ==> FirstAnswer(c, o, h.envs[0]) == 0)
    requires !h.interrupted
    ensures |Started(Prepare(p, i, d, input, isData).c, o, h).exits| <= 1
  {
    hide Prepare, Started, FirstAnswer;
    var c := Prepare(p, i, d, input, isData).c;
    assert !c.sparse by { PreparedMode(p, i, d, input, isData); }
    DenseStartExits(c, o, h);
    EmptyCopyHasOneSlot(p, i, d, input, isData);
  }

  lemma PreparedMode(p: Options, i: Device, o: Device, input: seq<byte>, isData: seq<bool>)
    requires p.unit > 0 && i.block > 0 && o.block > 0 && Prepare(p, i, o, input, isData).Ready?
    ensures Prepare(p, i, o, input, isData).c.sparse == p.sparse
  {}

  /** A dense configuration that passes the checks is well formed once the output blocks divide the unit. */
  lemma AcceptedIsWellFormed(p: Options, i: Device, o: Device, input: seq<byte>, isData: seq<bool>)
    requires Sane(p, i, o) && Prepare(p, i, o, input, isData).Ready? && !p.sparse
    requires p.count == 0 ==> Prepare(p, i, o, input, isData).c.readStart <= Prepare(p, i, o, input, isData).c.inTotal
    ensures WellFormed(Prepare(p, i, o, input, isData).c) <==> p.unit % o.block == 0
  {
    hide Clamp, Mul64;
    Products(p, i, o);
  }

  lemma MultipleOfBlock(k: nat, unit: nat, block: nat)
    requires block > 0 && unit % block == 0
    ensures k * unit % block == 0
  {
    var q := unit / block;
    assert k * unit == k * q * block + 0;
    MulDivMod(k * q, block, 0);
  }

  lemma WriteStartAligned(p: Options, i: Device, d: Device, input: seq<byte>, isData: seq<bool>)
    requires Sane(p, i, d) && Prepare(p, i, d, input, isData).Ready? && p.unit % d.block == 0
    ensures var c := Prepare(p, i, d, input, isData).c; c.outBlock == d.block && c.writeStart % d.block == 0
  {
    hide Clamp, Mul64, Add64, Sub64;
    Products(p, i, d);
    MultipleOfBlock(p.outputOffset, p.unit, d.block);
  }

  /** A counted copy that passes the checks never addresses a block past the end of its output bdev, in any run. */
  lemma AcceptedWritesInside(p: Options, i: Device, d: Device, input: seq<byte>, isData: seq<bool>, o: seq<byte>,
                             h: History)
    requires Sane(p, i, d) && Prepare(p, i, d, input, isData).Ready? && p.count != 0 && p.outKind == Bdev
    requires p.unit % d.block == 0 && |o| == d.size && d.size % d.block == 0
    requires Legal(Prepare(p, i, d, input, isData).c, o, h)
    ensures var c := Prepare(p, i, d, input, isData).c;
            var s := Final(c, o, h);
            c.outBlock > 0 && forall k :: 0 <= k < |s.slots| && s.slots[k].Owns() ==>
              Target(c, s.slots[k].offset) + RoundUp(s.slots[k].length, c.outBlock) <= d.size
  {
    hide Prepare, Final, Legal, RoundUp;
    AcceptedOutput(p, i, d, input, isData);
    WriteStartAligned(p, i, d, input, isData);
    AddressesExact(Prepare(p, i, d, input, isData).c, o, h);
  }

  // ------------------------------------------------------------------ when the clamp leaves no slot

  /** The clamp of one target is zero exactly when the skip is one unit more than the target holds. */
  lemma ClampZeroIff(p: Options, depth: nat, ranged: bool, total: nat, skip: nat)
    requires p.unit > 0 && total < U64 / 2 && skip < U64 / 2
    ensures Clamp(p, depth, ranged, total, skip) >= 1 <==> depth >= 1 && !(ranged && skip == total / p.unit + 1)
  {
    hide Add64, Sub64;
    QuotientSmall(total, p.unit);
    WrapsToZero(total / p.unit, skip);
  }

  lemma WrapsToZero(a: nat, b: nat)
    requires a < U64 / 2 && b < U64 / 2
    ensures Add64(Sub64(a, b), 1) == 0 <==> b == a + 1
  {}

  lemma QuotientSmall(x: nat, d: nat)
    requires d > 0
    ensures x / d <= x
  {
    assert x == x / d * d + x % d;
    AtLeastFactor(x / d, d);
  }

  /** A bdev skip of one unit too many is past the end and refused. */
  lemma OneTooMany(total: nat, unit: nat, skip: nat)
    requires unit > 0 && skip == total / unit + 1
    ensures skip * unit > total
  {
    assert total == total / unit * unit + total % unit;
    assert skip * unit == total / unit * unit + unit;
  }

  /** The accepted depth, and the skips that the checks let through. */
  lemma PreparedClamps(p: Options, i: Device, o: Device, input: seq<byte>, isData: seq<bool>)
    requires Sane(p, i, o) && Prepare(p, i, o, input, isData).Ready?
    ensures var c := Prepare(p, i, o, input, isData).c;
            && c.inTotal == TotalSize(p, p.inKind, i)
            && c.depth == Clamp(p, Clamp(p, p.depth, true, c.inTotal, p.inputOffset), p.outKind == Bdev,
                                TotalSize(p, p.outKind, o), p.outputOffset)
            && (p.inKind == Bdev ==> p.inputOffset * p.unit <= c.inTotal)
            && (p.outKind == Bdev ==> p.outputOffset * p.unit <= TotalSize(p, p.outKind, o))
  {
    hide Clamp, Add64, Sub64, Mul64;
    Products(p, i, o);
  }

  lemma TotalSmall(p: Options, k: Kind, i: Device, o: Device)
    requires Sane(p, i, o)
    ensures TotalSize(p, k, i) < U64 / 2 && TotalSize(p, k, o) < U64 / 2
  {
    hide Mul64;
    Products(p, i, o);
  }

  /**
   * An accepted copy has a slot if and only if some depth was asked for and a file is not skipped to exactly one unit
   * past the units it holds: there the clamp wraps to zero.
   */
  lemma HasSlotIff(p: Options, i: Device, o: Device, input: seq<byte>, isData: seq<bool>)
    requires Sane(p, i, o) && Prepare(p, i, o, input, isData).Ready?
    ensures Prepare(p, i, o, input, isData).c.depth >= 1 <==>
            p.depth >= 1 && !(p.inKind == File && p.inputOffset == TotalSize(p, File, i) / p.unit + 1)
  {
    hide Prepare, Clamp, TotalSize;
    var c := Prepare(p, i, o, input, isData).c;
    var outTotal := TotalSize(p, p.outKind, o);
    PreparedClamps(p, i, o, input, isData);
    TotalSmall(p, p.inKind, i, o);
    TotalSmall(p, p.outKind, i, o);
    ClampZeroIff(p, p.depth, true, c.inTotal, p.inputOffset);
    ClampZeroIff(p, Clamp(p, p.depth, true, c.inTotal, p.inputOffset), p.outKind == Bdev, outTotal, p.outputOffset);
    if p.inputOffset == c.inTotal / p.unit + 1 { OneTooMany(c.inTotal, p.unit, p.inputOffset); }
    if p.outputOffset == outTotal / p.unit + 1 { OneTooMany(outTotal, p.unit, p.outputOffset); }
  }

  /** Without a slot, no run ever exits. */
  lemma NoSlotNeverExits(c: Config, o: seq<byte>, h: History)
    requires Legal(c, o, h) && c.depth == 0
    ensures Final(c, o, h).exits == []
  {
    StartedInv(c, o, h);
    NothingHappens(c, Started(c, o, h), h.events);
  }

  lemma {:induction false} NothingHappens(c: Config, s: Job, events: seq<Event>)
    requires c.outBlock > 0 && c.inBlock > 0 && Possible(c, s, events) && s.slots == [] && s.exits == []
    ensures Execute(c, s, events).exits == []
    decreases |events|
  {
    if events != [] { NothingHappens(c, Step(c, s, events[0]), events[1..]); }
  }

  /**
   * One unit of a four-byte file in units of four, after a skip of two: accepted, without a slot, and it never exits.
   */
  lemma SkippedFileHasNoSlot(input: seq<byte>, isData: seq<bool>, o: seq<byte>)
    ensures var p := Options(File, File, Aio, false, 2, 0, 4, 1, 2);
            var setup := Prepare(p, Device(4, 1), Device(0, 1), input, isData);
            && Sane(p, Device(4, 1), Device(0, 1)) && setup.Ready? && setup.c.depth == 0
            && Legal(setup.c, o, History([], false, [], []))
            && forall h :: Legal(setup.c, o, h) ==> Final(setup.c, o, h).exits == []
  {
    hide Prepare, Sane, Legal, Final;
    SkippedSetup(input, isData, o);
    var c := Prepare(Options(File, File, Aio, false, 2, 0, 4, 1, 2), Device(4, 1), Device(0, 1), input, isData).c;
    forall h | Legal(c, o, h) ensures Final(c, o, h).exits == [] {
      NoSlotNeverExits(c, o, h);
    }
  }

  lemma SkippedSetup(input: seq<byte>, isData: seq<bool>, o: seq<byte>)
    ensures var p := Options(File, File, Aio, false, 2, 0, 4, 1, 2);
            var setup := Prepare(p, Device(4, 1), Device(0, 1), input, isData);
            && Sane(p, Device(4, 1), Device(0, 1)) && setup.Ready? && setup.c.depth == 0
            && Legal(setup.c, o, History([], false, [], []))
  {}
}
