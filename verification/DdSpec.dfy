/**
 * The copy engine of spdk_dd as a transition system.
 *
 * A Job holds the program's own variables, the output device, and one history variable, `fate`,
 * which says what became of each input byte between the start of the read region and `pos`.
 * The code's functions (Seek, Populate, Read, Write and the completion callbacks) are built from
 * a few primitive updates, so that each invariant is proved once per primitive.
 */
module DdSpec {
  import opened Bytes

  datatype Kind = File | Bdev
  datatype Engine = Uring | Aio

  const ENOSPC: int := 28

  /** What dd_run fixes before the first I/O. `isData` is the data/hole map of the input. */
  datatype Config = Config(
    inKind: Kind, outKind: Kind, engine: Engine, sparse: bool,
    unit: nat, inBlock: nat, outBlock: nat,
    readStart: nat, writeStart: nat, inTotal: nat, copySize: nat, depth: nat,
    input: seq<byte>, isData: seq<bool>)
  {
    function End(): nat {
      readStart + copySize
    }

    predicate SparseBdev() {
      sparse && inKind == Bdev
    }
  }

  /** Running: the slot owns a chunk and is between two I/Os, inside one callback. */
  datatype Phase = Idle | Queued | SeekingData | SeekingHole | Running | Populating | Reading | Writing

  /**
   * A struct dd_io and the request it has in flight: a seek from block `at`, or a transfer of `size`
   * bytes at device offset `at` of which `served` are moved already.
   */
  datatype Slot = Slot(offset: nat, length: nat, buf: seq<byte>, phase: Phase, at: nat, size: nat, served: nat)
  {
    predicate Owns() {
      phase == Running || phase == Populating || phase == Reading || phase == Writing
    }

    predicate Seeking() {
      phase == SeekingData || phase == SeekingHole
    }

    predicate Transferring() {
      phase == Populating || phase == Reading || phase == Writing
    }
  }

  /** Lost: the write was attempted and failed. Abandoned: the chunk never reached its write. */
  datatype Fate = Hole | InFlight(slot: nat) | Written | Lost | Abandoned

  datatype Job = Job(
    pos: nat, outstanding: int, slots: seq<Slot>, queue: seq<nat>, out: seq<byte>,
    error: int, interrupt: bool, totalBytes: nat, incrementalBytes: nat, exits: seq<int>,
    fate: seq<Fate>)
  {
    predicate Clean() {
      error == 0 && !interrupt
    }
  }

  /** What the kernel, the bdev layer and lseek/ftruncate answer to the calls made in one step. */
  datatype Env = Env(submitRc: int, nextSeekRc: int, seekDataErr: int, seekHoleErr: int, endErr: int, truncErr: int)

  /** Every call succeeds. */
  const OK: Env := Env(0, 0, 0, 0, 0, 0)

  // ------------------------------------------------------------------ primitives

  function Repeat<T>(x: T, n: nat): (r: seq<T>)
    ensures |r| == n && forall k :: 0 <= k < n ==> r[k] == x
  {
    seq(n, _ => x)
  }

  function Retire(fate: seq<Fate>, i: nat, f: Fate): (r: seq<Fate>)
    ensures |r| == |fate|
    ensures forall k :: 0 <= k < |fate| ==> r[k] == if fate[k] == InFlight(i) then f else fate[k]
  {
    seq(|fate|, k requires 0 <= k < |fate| => if fate[k] == InFlight(i) then f else fate[k])
  }

  function WithPhase(s: Job, i: nat, p: Phase): Job
    requires i < |s.slots|
  {
    s.(slots := s.slots[i := s.slots[i].(phase := p)])
  }

  function WithLength(s: Job, i: nat, length: nat): Job
    requires i < |s.slots|
  {
    s.(slots := s.slots[i := s.slots[i].(length := length)])
  }

  /** The bytes between `pos` and the next data offset are holes. */
  function Skip(s: Job, p: nat): Job {
    s.(pos := p, fate := s.fate + Repeat(Hole, Max(0, p - s.pos)))
  }

  /** The slot takes its `length` bytes at `pos`. */
  function Claim(s: Job, i: nat): Job
    requires i < |s.slots|
  {
    WithPhase(s, i, Running).(pos := s.pos + s.slots[i].length,
                              fate := s.fate + Repeat(InFlight(i), s.slots[i].length))
  }

  /** A transfer enters the device. */
  function Launch(s: Job, i: nat, p: Phase, at: nat, size: nat): Job
    requires i < |s.slots|
  {
    s.(outstanding := s.outstanding + 1,
       slots := s.slots[i := s.slots[i].(phase := p, at := at, size := size, served := 0)])
  }

  /** A transfer leaves the device. */
  function Land(s: Job, i: nat): Job
    requires i < |s.slots|
  {
    WithPhase(s, i, Running).(outstanding := s.outstanding - 1)
  }

  /** The slot gives up its chunk. */
  function Drop(s: Job, i: nat, f: Fate): Job
    requires i < |s.slots|
  {
    WithPhase(s, i, Idle).(fate := Retire(s.fate, i, f))
  }

  function Exit(s: Job, rc: int): Job {
    s.(exits := s.exits + [rc])
  }

  /** The two assignments of dd_show_progress. */
  function ShowProgress(s: Job): Job {
    s.(incrementalBytes := 0, totalBytes := s.totalBytes + s.incrementalBytes)
  }

  /** The common way out of an aborted or finished slot. */
  function StopIfDrained(s: Job, show: bool): Job {
    if s.outstanding == 0
    then Exit(if show && s.error == 0 then ShowProgress(s) else s, s.error)
    else s
  }

  /** Error recorded after a refused submission. */
  function Fail(s: Job, rc: int): Job {
    var t := s.(error := rc);
    if t.outstanding == 0 then Exit(t, rc) else t
  }

  // ------------------------------------------------------------------ addresses and answers

  /** write_region_start + (offset - read_region_start). */
  function Target(c: Config, offset: nat): nat {
    Add64(c.writeStart, Sub64(offset, c.readStart))
  }

  /** The io_uring path cannot refuse a request; a bdev refuses one that ends past its size. */
  function SubmitRc(c: Config, k: Kind, size: nat, offset: nat, length: nat, rc: int): int {
    if k == File then (if c.engine == Uring then 0 else rc)
    else if rc == 0 && offset + length > size then -EINVAL
    else rc
  }

  function PhaseKind(c: Config, p: Phase): Kind {
    if p == Reading then c.inKind else c.outKind
  }

  /** g_error as the poller leaves it when the request of `sl` completes with `res`. */
  function ErrorAfter(c: Config, error: int, sl: Slot, res: int): int {
    if PhaseKind(c, sl.phase) == Bdev then error
    else if c.engine == Uring then (if res < 0 then res else error)
    else if res != sl.length then -ENOSPC
    else error
  }

  /** The request did not move all its bytes and the code does not record an error. */
  predicate Silent(c: Config, s: Job, i: nat, res: int)
    requires i < |s.slots|
  {
    res != s.slots[i].size && ErrorAfter(c, 0, s.slots[i], res) == 0
  }

  /** SEEK_DATA: the first data byte at or after `p`; nothing found when the result is >= |d|. */
  function NextData(d: seq<bool>, p: nat): (q: nat)
    ensures p <= q <= Max(p, |d|)
    ensures q < |d| ==> d[q]
    ensures forall k :: p <= k < q && k < |d| ==> !d[k]
    decreases |d| - p
  {
    if p >= |d| || d[p] then p else NextData(d, p + 1)
  }

  /** SEEK_HOLE: the first hole byte at or after `p`, or the end. */
  function NextHole(d: seq<bool>, p: nat): (q: nat)
    ensures p <= q <= Max(p, |d|)
    ensures q < |d| ==> !d[q]
    ensures forall k :: p <= k < q ==> k < |d| && d[k]
    decreases |d| - p
  {
    if p >= |d| || !d[p] then p else NextHole(d, p + 1)
  }

  // ------------------------------------------------------------------ the code's functions

  /** dd_target_write on a slot whose buffer is ready. */
  function Write(c: Config, s: Job, i: nat, e: Env): (r: Job)
    requires i < |s.slots| && c.outBlock > 0
    ensures |r.slots| == |s.slots|
  {
    if !s.Clean() then StopIfDrained(Drop(s, i, Abandoned), true)
    else
      var sl := s.slots[i];
      var at, size := Target(c, sl.offset), RoundUp(sl.length, c.outBlock);
      var t := Launch(s.(incrementalBytes := s.incrementalBytes + sl.length), i, Writing, at, size);
      var rc := SubmitRc(c, c.outKind, |s.out|, at, size, e.submitRc);
      if rc != 0 then Fail(Drop(Land(t, i), i, Lost), rc) else t
  }

  /** dd_target_read. */
  function Read(c: Config, s: Job, i: nat, e: Env): (r: Job)
    requires i < |s.slots|
    ensures |r.slots| == |s.slots|
  {
    if !s.Clean() then StopIfDrained(Drop(s, i, Abandoned), false)
    else
      var sl := s.slots[i];
      var t := Launch(s, i, Reading, sl.offset, sl.length);
      var rc := SubmitRc(c, c.inKind, |c.input|, sl.offset, sl.length, e.submitRc);
      if rc != 0 then Fail(Drop(Land(t, i), i, Abandoned), rc) else t
  }

  /** dd_target_populate_buffer. */
  function Populate(c: Config, s: Job, i: nat, e: Env): (r: Job)
    requires i < |s.slots| && c.outBlock > 0
    ensures |r.slots| == |s.slots|
  {
    var left := Sub64(c.copySize, Sub64(s.pos, c.readStart));
    var sl := s.slots[i].(offset := s.pos, length := Min(s.slots[i].length, left));
    var t := s.(slots := s.slots[i := sl]);
    if sl.length == 0 || !s.Clean() then StopIfDrained(t, true)
    else
      var u := Claim(t, i);
      if sl.length % c.outBlock == 0 then Read(c, u, i, e)
      else
        var at, size := Target(c, sl.offset), RoundUp(sl.length, c.outBlock);
        var v := Launch(u, i, Populating, at, size);
        var rc := SubmitRc(c, c.outKind, |s.out|, at, size, e.submitRc);
        if rc != 0 then Fail(Drop(Land(v, i), i, Abandoned), rc) else v
  }

  /** dd_finalize_output: a trailing hole becomes part of the output file's length. */
  function Finalize(c: Config, s: Job, e: Env): Job {
    if s.outstanding > 0 then s
    else
      var size := c.copySize + c.writeStart;
      var t :=
        if c.outKind == Bdev then s
        else if e.endErr != 0 then s.(error := e.endErr)
        else if |s.out| >= size then s
        else if e.truncErr != 0 then s.(error := e.truncErr)
        else s.(out := Extend(s.out, size));
      Exit(if t.error == 0 then ShowProgress(t) else t, t.error)
  }

  /** The length of a chunk that starts at `pos` when the next hole was found at `h`. */
  function ChunkLength(c: Config, pos: nat, h: nat): nat {
    if h > pos then Min(c.unit, h - pos) else c.unit
  }

  /** The file branch of dd_target_seek with dd_file_seek_data and dd_file_seek_hole. */
  function SeekFile(c: Config, s: Job, i: nat, e: Env): (r: Job)
    requires i < |s.slots| && c.outBlock > 0
    ensures |r.slots| == |s.slots|
  {
    if e.seekDataErr != 0 then (if s.outstanding == 0 then Fail(s, e.seekDataErr) else s)
    else
      var d := NextData(c.isData, s.pos);
      if d >= |c.isData| then Finalize(c, s, e)
      else
        var t := Skip(s, d);
        if e.seekHoleErr != 0 then (if t.outstanding == 0 then Fail(t, e.seekHoleErr) else t)
        else
          var h := NextHole(c.isData, t.pos);
          Populate(c, WithLength(t, i, ChunkLength(c, t.pos, h)), i, e)
  }

  /** A bdev seek enters the device for a queued slot. */
  function LaunchSeek(c: Config, s: Job, i: nat, p: Phase): Job
    requires i < |s.slots| && c.inBlock > 0
  {
    s.(outstanding := s.outstanding + 1,
       slots := s.slots[i := s.slots[i].(phase := p, at := s.pos / c.inBlock)])
  }

  function LandSeek(s: Job, i: nat): Job
    requires i < |s.slots|
  {
    WithPhase(s, i, Queued).(outstanding := s.outstanding - 1)
  }

  /** STAILQ_REMOVE_HEAD by the callback of slot `i`. */
  function Dequeue(s: Job, i: nat): Job
    requires i < |s.slots|
  {
    WithPhase(s, i, Idle).(queue := if s.queue == [] then [] else s.queue[1..])
  }

  /** The bdev branch of dd_target_seek. */
  function SeekBdev(c: Config, s: Job, i: nat, e: Env): (r: Job)
    requires i < |s.slots| && c.inBlock > 0
    ensures |r.slots| == |s.slots|
  {
    var t := WithPhase(s, i, Queued).(queue := s.queue + [i]);
    if s.queue != [] then t
    else if e.submitRc != 0 then Fail(LandSeek(LaunchSeek(c, t, i, SeekingData), i), e.submitRc)
    else LaunchSeek(c, t, i, SeekingData)
  }

  /** dd_target_seek: what a free slot does next. */
  function Seek(c: Config, s: Job, i: nat, e: Env): (r: Job)
    requires i < |s.slots| && c.outBlock > 0 && c.inBlock > 0
    ensures |r.slots| == |s.slots|
  {
    if !c.sparse then Populate(c, s, i, e)
    else if Sub64(c.copySize, Sub64(s.pos, c.readStart)) == 0 || !s.Clean() then StopIfDrained(s, true)
    else if c.inKind == File then SeekFile(c, s, i, e)
    else SeekBdev(c, s, i, e)
  }

  /** _dd_bdev_seek_data_done after its abort test: data was found at `p`, or there is none. */
  function DataSought(c: Config, s: Job, i: nat, found: bool, p: nat, e: Env): Job
    requires i < |s.slots| && c.inBlock > 0
  {
    var t := LandSeek(s, i);
    if !found then Finalize(c, Dequeue(t, i), e)
    else
      var u := LaunchSeek(c, Skip(t, p), i, SeekingHole);
      if e.submitRc != 0 then Fail(Dequeue(LandSeek(u, i), i), e.submitRc) else u
  }

  /** _dd_bdev_seek_data_done. The abort branch leaves `outstanding` as it is. */
  function SeekDataDone(c: Config, s: Job, i: nat, e: Env): Job
    requires i < |s.slots| && c.inBlock > 0
  {
    if !s.Clean() then StopIfDrained(Dequeue(s, i), true)
    else
      var d := NextData(c.isData, s.slots[i].at * c.inBlock);
      DataSought(c, s, i, d < |c.isData|, RoundDown(d, c.inBlock), e)
  }

  /** The tail of _dd_bdev_seek_hole_done: the next queued slot starts its seek. */
  function NextSeek(c: Config, s: Job, e: Env): Job
    requires c.inBlock > 0 && forall k :: 0 <= k < |s.queue| ==> s.queue[k] < |s.slots|
  {
    if s.queue == [] || s.pos >= c.inTotal then s
    else
      var t := LaunchSeek(c, s, s.queue[0], SeekingData);
      if e.nextSeekRc != 0 then Fail(LandSeek(t, s.queue[0]), e.nextSeekRc) else t
  }

  /** The length the found hole leaves for the chunk. */
  function HoleLength(c: Config, s: Job, i: nat): nat
    requires i < |s.slots| && c.inBlock > 0
  {
    var h := NextHole(c.isData, s.slots[i].at * c.inBlock);
    if h >= |c.isData| then c.unit else Min(c.unit, Sub64(RoundDown(h, c.inBlock), s.pos))
  }

  /** _dd_bdev_seek_hole_done after its abort test: the chunk may be `length` bytes long. */
  function HoleSought(c: Config, s: Job, i: nat, length: nat, e: Env): Job
    requires i < |s.slots| && c.inBlock > 0 && c.outBlock > 0
    requires forall k :: 0 <= k < |s.queue| ==> s.queue[k] < |s.slots|
  {
    NextSeek(c, Populate(c, WithLength(Dequeue(LandSeek(s, i), i), i, length), i, e), e)
  }

  /** _dd_bdev_seek_hole_done. */
  function SeekHoleDone(c: Config, s: Job, i: nat, e: Env): Job
    requires i < |s.slots| && c.inBlock > 0 && c.outBlock > 0
    requires forall k :: 0 <= k < |s.queue| ==> s.queue[k] < |s.slots|
  {
    if !s.Clean() then StopIfDrained(Dequeue(s, i), true)
    else HoleSought(c, s, i, HoleLength(c, s, i), e)
  }

  /** dd_complete_poll, or the bdev callback, for a transfer that ends with `res`. */
  function Complete(c: Config, s: Job, i: nat, res: int, e: Env): Job
    requires i < |s.slots| && c.outBlock > 0 && c.inBlock > 0
  {
    var sl := s.slots[i];
    var t := Land(s.(error := ErrorAfter(c, s.error, sl, res)), i);
    if sl.phase == Populating then Read(c, t, i, e)
    else if sl.phase == Reading then Write(c, t, i, e)
    else Seek(c, Drop(t, i, if sl.served == sl.size then Written else Lost), i, e)
  }

  predicate CanServe(c: Config, s: Job, i: nat, n: nat)
    requires i < |s.slots|
  {
    var sl := s.slots[i];
    var m := sl.served + n;
    && sl.Transferring() && m <= sl.size && m <= |sl.buf|
    && (sl.phase == Reading ==> sl.at + m <= |c.input|)
    && (sl.phase == Populating ==> sl.at + m <= |s.out|)
  }

  /** The device moves the next `n` bytes of the request of slot `i`. */
  function Serve(c: Config, s: Job, i: nat, n: nat): Job
    requires i < |s.slots| && CanServe(c, s, i, n)
  {
    var sl := s.slots[i];
    var buf :=
      if sl.phase == Writing then sl.buf
      else if sl.phase == Reading then Store(sl.buf, sl.served, c.input, sl.at + sl.served, n)
      else Store(sl.buf, sl.served, s.out, sl.at + sl.served, n);
    s.(out := if sl.phase == Writing then Store(s.out, sl.at + sl.served, sl.buf, sl.served, n) else s.out,
       slots := s.slots[i := sl.(served := sl.served + n, buf := buf)])
  }

  // ------------------------------------------------------------------ runs

  datatype Event =
    | Move(i: nat, n: nat)
    | Done(i: nat, res: int, env: Env)
    | SeekDone(i: nat, env: Env)
    | Interrupt
    | Status

  /** A completion reports an error or the number of bytes that were moved. */
  predicate Enabled(c: Config, s: Job, v: Event) {
    match v
    case Move(i, n) => i < |s.slots| && CanServe(c, s, i, n)
    case Done(i, res, _) => i < |s.slots| && s.slots[i].Transferring() && (res < 0 || res == s.slots[i].served)
    case SeekDone(i, _) =>
      i < |s.slots| && s.slots[i].Seeking() && forall k :: 0 <= k < |s.queue| ==> s.queue[k] < |s.slots|
    case Interrupt => true
    case Status => true
  }

  function Step(c: Config, s: Job, v: Event): Job
    requires c.outBlock > 0 && c.inBlock > 0 && Enabled(c, s, v)
  {
    match v
    case Move(i, n) => Serve(c, s, i, n)
    case Done(i, res, e) => Complete(c, s, i, res, e)
    case SeekDone(i, e) =>
      if s.slots[i].phase == SeekingData then SeekDataDone(c, s, i, e) else SeekHoleDone(c, s, i, e)
    case Interrupt => s.(interrupt := true)
    case Status => ShowProgress(s)
  }

  predicate SilentEvent(c: Config, s: Job, v: Event)
    requires Enabled(c, s, v)
  {
    v.Done? && Silent(c, s, v.i, v.res)
  }

  /** The start loop of dd_run from slot `k` on; `envs[k]` answers slot `k`. */
  function StartFrom(c: Config, s: Job, k: nat, envs: seq<Env>): Job
    requires c.outBlock > 0 && c.inBlock > 0 && k <= |envs| && |envs| <= |s.slots|
    decreases |envs| - k
  {
    if k == |envs| then s
    else StartFrom(c, Seek(c, s, k, envs[k]), k + 1, envs)
  }

  /** The state when dd_run enters its start loop. */
  function Initial(c: Config, out: seq<byte>, bufs: seq<seq<byte>>, interrupt: bool): Job {
    Job(c.readStart, 0, seq(|bufs|, k requires 0 <= k < |bufs| => Slot(0, c.unit, bufs[k], Idle, 0, 0, 0)),
        [], out, 0, interrupt, 0, 0, [], [])
  }
}
