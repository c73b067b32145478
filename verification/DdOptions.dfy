/** What the options of spdk_dd mean: which copies are accepted, what they copy and where to, in plain arithmetic. */
module DdOptions {
  import opened Bytes
  import opened DdSpec
  import opened DdRuns
  import opened DdTheorems
  import opened DdSetup

  // ------------------------------------------------------------------ the reference

  /** The bytes a target is taken to hold. */
  function Held(p: Options, k: Kind, d: Device): nat {
    if k == File && d.size == 0 then p.count * p.unit else d.size
  }

  /** A bdev must hold the skipped units and the counted ones. */
  predicate RegionsFit(p: Options, i: Device, o: Device) {
    && (p.inKind == Bdev ==> (p.inputOffset + p.count) * p.unit <= i.size)
    && (p.outKind == Bdev ==> (p.outputOffset + p.count) * p.unit <= o.size)
  }

  predicate BlocksFit(p: Options, i: Device, o: Device)
    requires i.block > 0
  {
    i.block <= p.unit && o.block <= p.unit && (p.inKind == Bdev ==> p.unit % i.block == 0)
  }

  /** The bytes asked for: the counted units, or what is left behind the skipped ones. */
  function Asked(p: Options, i: Device): int {
    if p.count != 0 then p.count * p.unit else Held(p, p.inKind, i) - p.inputOffset * p.unit
  }

  /** The slots that `units` units behind `skip` skipped ones allow; a skip past the end wraps around. */
  function Slots(units: nat, skip: nat): int {
    if skip <= units + 1 then units - skip + 1 else U64 - (skip - units - 1)
  }

  /** The queue depth asked for, cut by the input, by an output bdev, and by the count. */
  function Depth(p: Options, i: Device, o: Device): int
    requires p.unit > 0
  {
    var a := Min(p.depth, Slots(Held(p, p.inKind, i) / p.unit, p.inputOffset));
    var b := if p.outKind == Bdev then Min(a, Slots(o.size / p.unit, p.outputOffset)) else a;
    if p.count != 0 then Min(b, p.count) else b
  }

  // ------------------------------------------------------------------ dd_run agrees with it

  lemma HeldIsTotal(p: Options, i: Device, o: Device)
    requires Sane(p, i, o)
    ensures TotalSize(p, p.inKind, i) == Held(p, p.inKind, i) < U64 / 4
    ensures TotalSize(p, p.outKind, o) == Held(p, p.outKind, o) < U64 / 4
  {
    hide Mul64;
    Products(p, i, o);
  }

  lemma SumExact(a: nat, b: nat)
    requires a < U64 / 2 && b < U64 / 2
    ensures Add64(a, b) == a + b && (a >= b ==> Sub64(a, b) == a - b)
  {}

  /** Which options are accepted, and the code of those that are not. */
  lemma AcceptedExactlyWhen(p: Options, i: Device, o: Device, input: seq<byte>, isData: seq<bool>)
    requires Sane(p, i, o)
    ensures var r := Prepare(p, i, o, input, isData);
            && (r.Ready? <==> RegionsFit(p, i, o) && BlocksFit(p, i, o))
            && (r == Refused(-ENOSPC) <==> !RegionsFit(p, i, o))
            && (r == Refused(-EINVAL) <==> RegionsFit(p, i, o) && !BlocksFit(p, i, o))
  {
    hide Mul64, Clamp, TotalSize, Add64, Sub64, Held;
    Products(p, i, o);
    HeldIsTotal(p, i, o);
    HeldByBdev(p, i, o);
    SumExact(p.count * p.unit, p.inputOffset * p.unit);
    SumExact(p.count * p.unit, p.outputOffset * p.unit);
    Distribute(p.inputOffset, p.count, p.unit);
    Distribute(p.outputOffset, p.count, p.unit);
  }

  lemma HeldByBdev(p: Options, i: Device, o: Device)
    ensures (p.inKind == Bdev ==> Held(p, p.inKind, i) == i.size)
    ensures (p.outKind == Bdev ==> Held(p, p.outKind, o) == o.size)
  {}

  /** An accepted copy reads and writes where the options say, in their units, between their targets. */
  lemma RegionsAsAsked(p: Options, i: Device, o: Device, input: seq<byte>, isData: seq<bool>)
    requires Sane(p, i, o) && Prepare(p, i, o, input, isData).Ready?
    ensures var c := Prepare(p, i, o, input, isData).c;
            && c.readStart == p.inputOffset * p.unit && c.writeStart == p.outputOffset * p.unit
            && (Asked(p, i) >= 0 ==> c.copySize == Asked(p, i)) && c.inTotal == Held(p, p.inKind, i)
            && c.unit == p.unit && c.inKind == p.inKind && c.outKind == p.outKind && c.engine == p.engine
            && c.sparse == p.sparse && c.inBlock == i.block && c.outBlock == o.block
            && c.input == input && c.isData == isData
  {
    hide Mul64, Clamp, TotalSize, Add64, Sub64, Held;
    Products(p, i, o);
    HeldIsTotal(p, i, o);
    SumExact(Held(p, p.inKind, i), p.inputOffset * p.unit);
  }

  lemma SlotsExact(units: nat, skip: nat)
    requires units < U64 / 2 && skip < U64 / 2
    ensures Add64(Sub64(units, skip), 1) == Slots(units, skip)
  {}

  /** One clamp, in plain arithmetic. */
  function Cut(p: Options, depth: int, ranged: bool, units: nat, skip: nat): int {
    var d := if ranged then Min(depth, Slots(units, skip)) else depth;
    if p.count != 0 then Min(d, p.count) else d
  }

  lemma ClampIsCut(p: Options, depth: nat, ranged: bool, total: nat, skip: nat)
    requires p.unit > 0 && total < U64 / 2 && skip < U64 / 2
    ensures Clamp(p, depth, ranged, total, skip) == Cut(p, depth, ranged, total / p.unit, skip)
  {
    hide Add64, Sub64, Slots;
    QuotientSmall(total, p.unit);
    SlotsExact(total / p.unit, skip);
  }

  lemma CutTwice(p: Options, depth: nat, u: nat, skip: nat, ranged: bool, v: nat, seek: nat)
    ensures var a := Min(depth, Slots(u, skip));
            var b := if ranged then Min(a, Slots(v, seek)) else a;
            Cut(p, Cut(p, depth, true, u, skip), ranged, v, seek) == if p.count != 0 then Min(b, p.count) else b
  {
    hide Slots;
  }

  lemma SaneMeans(p: Options, i: Device, o: Device)
    requires Sane(p, i, o)
    ensures p.unit > 0 && i.block > 0 && o.block > 0 && p.inputOffset < U64 / 2 && p.outputOffset < U64 / 2
  {}

  /** The queue depth of an accepted copy. */
  lemma DepthAsAsked(p: Options, i: Device, o: Device, input: seq<byte>, isData: seq<bool>)
    requires Sane(p, i, o) && Prepare(p, i, o, input, isData).Ready?
    ensures Prepare(p, i, o, input, isData).c.depth == Depth(p, i, o)
  {
    hide Prepare, Held, TotalSize, Slots, Clamp, Cut, Sane;
    SaneMeans(p, i, o);
    PreparedClamps(p, i, o, input, isData);
    HeldIsTotal(p, i, o);
    HeldByBdev(p, i, o);
    var a, b := Held(p, p.inKind, i), Held(p, p.outKind, o);
    ClampIsCut(p, p.depth, true, a, p.inputOffset);
    ClampIsCut(p, Clamp(p, p.depth, true, a, p.inputOffset), p.outKind == Bdev, b, p.outputOffset);
    CutTwice(p, p.depth, a / p.unit, p.inputOffset, p.outKind == Bdev, b / p.unit, p.outputOffset);
  }

  /** `n` bytes of the input, from the skipped units on, are stored behind the seeked units of the output. */
  ghost predicate IsAskedCopy(p: Options, n: int, input: seq<byte>, o: seq<byte>, out: seq<byte>) {
    && 0 <= n && p.inputOffset * p.unit + n <= |input|
    && out == Store(o, p.outputOffset * p.unit, input, p.inputOffset * p.unit, n)
  }

  /**
   * From the options to the output: a dense copy that is accepted and exits cleanly has stored the asked bytes of the
   * input, from the skipped units on, behind the seeked units of the output.
   */
  lemma CopiesAsAsked(p: Options, i: Device, d: Device, input: seq<byte>, isData: seq<bool>, c: Config,
                      o: seq<byte>, h: History)
    requires Sane(p, i, d) && Prepare(p, i, d, input, isData) == Ready(c) && !p.sparse && Asked(p, i) > 0
    requires Legal(c, o, h) && CleanExit(Final(c, o, h))
    ensures IsAskedCopy(p, Asked(p, i), input, o, Final(c, o, h).out)
  {
    hide Prepare, Legal, Final, CleanExit, Store, Asked, Held;
    RegionsAsAsked(p, i, d, input, isData);
    DenseCopyCorrect(c, o, h);
  }

  /** Two units skipped on the output: the copy lands at byte eight. */
  lemma SeekIsHonoured(input: seq<byte>, isData: seq<bool>)
    ensures var r := Prepare(Options(File, File, Uring, false, 0, 2, 4, 1, 1), Device(4, 1), Device(0, 1), input,
        isData);
            r.Ready? && r.c.writeStart == 8 && r.c.readStart == 0 && r.c.copySize == 4 && r.c.depth == 1
  {}
}
