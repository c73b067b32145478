/** Which request follows a completion, where it goes, and what a refused submission leaves behind. */
module DdSubmit {
  import opened Bytes
  import opened DdSpec
  import opened DdInvariant
  import opened DdPrimitives
  import opened DdCalls
  import opened DdRuns

  /** A request, or the failure to submit one: io_uring takes every request, libaio and a bdev may refuse one. */
  datatype Request = Request(kind: Kind, phase: Phase, at: nat, size: nat)

  /** The code that the submission fails with: the one it was given, or -EINVAL past the end of a bdev. */
  function Refusal(c: Config, q: Request, held: nat, rc: int): int {
    if q.kind == File && c.engine == Uring then 0
    else if rc != 0 then rc
    else if q.kind == Bdev && q.at + q.size > held then -EINVAL
    else 0
  }

  /**
   * After the submission of `q` for slot `i`, with `n` other I/Os in flight: the request is in flight and nothing else
   * has changed, or its code is on record, the slot is free and, if it was the last, the run has exited with that code.
   */
  ghost predicate Submitted(t: Job, i: nat, q: Request, code: int, n: int, exits: seq<int>) {
    && i < |t.slots|
    && if code == 0 then
         && t.error == 0 && t.outstanding == n + 1 && t.exits == exits
         && t.slots[i].phase == q.phase && t.slots[i].at == q.at && t.slots[i].size == q.size && t.slots[i].served == 0
       else
         && t.error == code && t.outstanding == n && t.slots[i].phase == Idle
         && t.exits == if n == 0 then exits + [code] else exits
  }

  /** The bytes of the input or the output that a request may reach. */
  function HeldFor(c: Config, s: Job, q: Request): nat {
    if q.phase == Reading then |c.input| else |s.out|
  }

  function ReadOf(c: Config, offset: nat, length: nat): Request {
    Request(c.inKind, Reading, offset, length)
  }

  /** Whole blocks at the chunk's place in the write region. */
  function OutputOf(c: Config, p: Phase, offset: nat, length: nat): Request
    requires c.outBlock > 0 && c.readStart <= offset
  {
    Request(c.outKind, p, c.writeStart + (offset - c.readStart), RoundUp(length, c.outBlock))
  }

  /** A chunk of whole blocks is read at once; any other is first populated from the output. */
  function FirstOf(c: Config, offset: nat, length: nat): Request
    requires c.outBlock > 0 && c.readStart <= offset
  {
    if length % c.outBlock == 0 then ReadOf(c, offset, length) else OutputOf(c, Populating, offset, length)
  }

  lemma ReadSubmits(c: Config, s: Job, i: nat, e: Env)
    requires i < |s.slots| && s.Clean()
    ensures var q := ReadOf(c, s.slots[i].offset, s.slots[i].length);
            Submitted(Read(c, s, i, e), i, q, Refusal(c, q, |c.input|, e.submitRc), s.outstanding, s.exits)
  {}

  lemma WriteSubmits(c: Config, s: Job, i: nat, e: Env)
    requires WellFormed(c) && i < |s.slots| && s.Clean() && c.readStart <= s.slots[i].offset <= c.End()
    ensures var q := OutputOf(c, Writing, s.slots[i].offset, s.slots[i].length);
            Submitted(Write(c, s, i, e), i, q, Refusal(c, q, |s.out|, e.submitRc), s.outstanding, s.exits)
  {
    hide RoundUp;
    NoWrap(c, s.slots[i].offset);
  }

  /** The next chunk, of at most `length` bytes, is taken at the position and its first request submitted. */
  lemma PopulateSubmits(c: Config, s: Job, i: nat, e: Env)
    requires WellFormed(c) && i < |s.slots| && s.Clean() && c.readStart <= s.pos < c.End() && s.slots[i].length > 0
    ensures var t, length := Populate(c, s, i, e), Min(s.slots[i].length, c.End() - s.pos);
            var q := FirstOf(c, s.pos, length);
            && t.pos == s.pos + length
            && Submitted(t, i, q, Refusal(c, q, HeldFor(c, s, q), e.submitRc), s.outstanding, s.exits)
  {
    hide RoundUp, Claimed, Submitted, Refusal;
    PopulateCut(c, s, i, e);
    var length := Min(s.slots[i].length, c.End() - s.pos);
    var t := s.(slots := s.slots[i := s.slots[i].(offset := s.pos, length := length)]);
    ClaimedSubmits(c, t, i, e);
  }

  lemma ClaimedSubmits(c: Config, s: Job, i: nat, e: Env)
    requires WellFormed(c) && i < |s.slots| && s.Clean() && c.readStart <= s.slots[i].offset <= c.End()
    ensures var t, q := Claimed(c, s, i, e), FirstOf(c, s.slots[i].offset, s.slots[i].length);
            && t.pos == s.pos + s.slots[i].length
            && Submitted(t, i, q, Refusal(c, q, HeldFor(c, s, q), e.submitRc), s.outstanding, s.exits)
  {
    hide RoundUp;
    NoWrap(c, s.slots[i].offset);
  }

  /** What the completion of a transfer leaves to do: the read after a populate, the write after a read. */
  function AfterOf(c: Config, sl: Slot): Request
    requires c.outBlock > 0 && c.readStart <= sl.offset
  {
    if sl.phase == Populating then ReadOf(c, sl.offset, sl.length) else OutputOf(c, Writing, sl.offset, sl.length)
  }

  /**
   * In every run: when a populate or a read comes back and nothing is wrong, the same chunk's read or write follows,
   * at its place and rounded to whole blocks; a submission that fails is noticed, its code recorded, and when nothing
   * else is in flight the run exits with it.
   */
  lemma NextRequest(c: Config, o: seq<byte>, h: History, i: nat, res: int, e: Env)
    requires Legal(c, o, h) && Enabled(c, Final(c, o, h), Done(i, res, e)) && Final(c, o, h).Clean()
    requires Final(c, o, h).slots[i].phase != Writing && ErrorAfter(c, 0, Final(c, o, h).slots[i], res) == 0
    ensures c.readStart <= Final(c, o, h).slots[i].offset && c.outBlock > 0
    ensures var s := Final(c, o, h);
            var q := AfterOf(c, s.slots[i]);
            Submitted(Step(c, s, Done(i, res, e)), i, q, Refusal(c, q, HeldFor(c, s, q), e.submitRc),
                      s.outstanding - 1, s.exits)
  {
    hide Legal, Final, Submitted, Refusal, Read, Write, RoundUp;
    var s := Final(c, o, h);
    AlwaysInv(c, o, h);
    assert SlotOk(c, s, s.slots[i]);
    var t := Land(s, i);
    if s.slots[i].phase == Populating { ReadSubmits(c, t, i, e); } else { WriteSubmits(c, t, i, e); }
  }

  /**
   * In every dense run: when a write comes back, nothing is wrong and bytes are left, the slot takes the next chunk
   * at the position, a whole unit or what is left, and its first request follows.
   */
  lemma NextChunk(c: Config, o: seq<byte>, h: History, i: nat, res: int, e: Env)
    requires Legal(c, o, h) && !c.sparse && Enabled(c, Final(c, o, h), Done(i, res, e)) && Final(c, o, h).Clean()
    requires Final(c, o, h).slots[i].phase == Writing && ErrorAfter(c, 0, Final(c, o, h).slots[i], res) == 0
    requires Final(c, o, h).pos < c.End()
    ensures c.readStart <= Final(c, o, h).pos && c.outBlock > 0
    ensures var s := Final(c, o, h);
            var length := Min(c.unit, c.End() - s.pos);
            var t, q := Step(c, s, Done(i, res, e)), FirstOf(c, s.pos, length);
            && t.pos == s.pos + length
            && Submitted(t, i, q, Refusal(c, q, HeldFor(c, s, q), e.submitRc), s.outstanding - 1, s.exits)
  {
    hide Legal, Final, Submitted, Refusal, Populate, FirstOf, RoundUp, Data, Counted, QueueOk;
    var s := Final(c, o, h);
    AlwaysInv(c, o, h);
    assert SlotOk(c, s, s.slots[i]);
    var sl := s.slots[i];
    PopulateSubmits(c, Drop(Land(s, i), i, if sl.served == sl.size then Written else Lost), i, e);
  }

  /** The chunk of a sparse copy at `p`: it ends at the next hole, after a unit, or at the end of the copy. */
  function ChunkAt(c: Config, p: nat): int {
    Min(Min(c.unit, NextHole(c.isData, p) - p), c.End() - p)
  }

  /**
   * The same for a sparse copy from a file: the chunk starts at the next data and ends at the hole behind it, after
   * a unit, or at the end of the copy.
   */
  lemma NextSparseChunk(c: Config, o: seq<byte>, h: History, i: nat, res: int, e: Env)
    requires Legal(c, o, h) && c.sparse && c.inKind == File
    requires Enabled(c, Final(c, o, h), Done(i, res, e)) && Final(c, o, h).Clean()
    requires Final(c, o, h).slots[i].phase == Writing && ErrorAfter(c, 0, Final(c, o, h).slots[i], res) == 0
    requires NextData(c.isData, Final(c, o, h).pos) < |c.isData| && e.seekDataErr == 0 && e.seekHoleErr == 0
    ensures var d := NextData(c.isData, Final(c, o, h).pos);
            c.readStart <= d < c.End() && c.outBlock > 0 && ChunkAt(c, d) > 0
    ensures var s := Final(c, o, h);
            var d := NextData(c.isData, s.pos);
            var t, q := Step(c, s, Done(i, res, e)), FirstOf(c, d, ChunkAt(c, d));
            && t.pos == d + ChunkAt(c, d)
            && Submitted(t, i, q, Refusal(c, q, HeldFor(c, s, q), e.submitRc), s.outstanding - 1, s.exits)
  {
    hide Legal, Final, Submitted, Refusal, Populate, FirstOf, RoundUp, Data, Counted, QueueOk;
    var s := Final(c, o, h);
    AlwaysInv(c, o, h);
    assert SlotOk(c, s, s.slots[i]);
    NoWrap(c, s.pos);
    var sl := s.slots[i];
    var u := Drop(Land(s, i), i, if sl.served == sl.size then Written else Lost);
    var d := NextData(c.isData, s.pos);
    var t := Skip(u, d);
    PopulateSubmits(c, WithLength(t, i, ChunkLength(c, d, NextHole(c.isData, d))), i, e);
  }

  /**
   * A failed seek of a sparse copy from a file is noticed only when nothing else is in flight: then its code is
   * recorded and the run exits with it. Otherwise the slot just goes idle and no error is recorded.
   */
  lemma SeekErrorNoticedIff(c: Config, o: seq<byte>, h: History, i: nat, res: int, e: Env)
    requires Legal(c, o, h) && c.sparse && c.inKind == File
    requires Enabled(c, Final(c, o, h), Done(i, res, e)) && Final(c, o, h).Clean() && Final(c, o, h).pos < c.End()
    requires Final(c, o, h).slots[i].phase == Writing && ErrorAfter(c, 0, Final(c, o, h).slots[i], res) == 0
    requires e.seekDataErr != 0 || (NextData(c.isData, Final(c, o, h).pos) < |c.isData| && e.seekHoleErr != 0)
    ensures c.outBlock > 0 && c.inBlock > 0
    ensures var s, code := Final(c, o, h), if e.seekDataErr != 0 then e.seekDataErr else e.seekHoleErr;
            var t := Step(c, s, Done(i, res, e));
            && t.slots[i].phase == Idle && t.outstanding == s.outstanding - 1
            && t.error == (if s.outstanding == 1 then code else 0)
            && t.exits == if s.outstanding == 1 then s.exits + [code] else s.exits
  {
    hide Legal, Final, Populate, RoundUp, Data, Counted, QueueOk;
    AlwaysInv(c, o, h);
    NoWrap(c, Final(c, o, h).pos);
  }

  // ------------------------------------------------------------------ seeks of a block device

  /**
   * After the submission of a seek from byte `p` for slot `j`, with `n` other I/Os in flight: the seek is in flight, or
   * its code is on record and, if nothing else is in flight, the run has exited with it.
   */
  ghost predicate Sought(c: Config, t: Job, j: nat, phase: Phase, p: nat, code: int, n: int, exits: seq<int>) {
    && j < |t.slots|
    && if code == 0 then
         && t.error == 0 && t.outstanding == n + 1 && t.exits == exits
         && t.slots[j].phase == phase && t.slots[j].at * c.inBlock == p
       else
         && t.error == code && t.outstanding == n && !t.slots[j].Seeking()
         && t.exits == if n == 0 then exits + [code] else exits
  }

  /** In every sparse run from a bdev a slot whose write came back seeks at once, or queues behind the others. */
  lemma SeekAfterWrite(c: Config, o: seq<byte>, h: History, i: nat, res: int, e: Env)
    requires Legal(c, o, h) && c.SparseBdev()
    requires Enabled(c, Final(c, o, h), Done(i, res, e)) && Final(c, o, h).Clean() && Final(c, o, h).pos < c.End()
    requires Final(c, o, h).slots[i].phase == Writing && ErrorAfter(c, 0, Final(c, o, h).slots[i], res) == 0
    ensures c.outBlock > 0 && c.inBlock > 0
    ensures var s := Final(c, o, h);
            var t := Step(c, s, Done(i, res, e));
            && t.queue == s.queue + [i] && t.pos == s.pos
            && (s.queue == [] ==> Sought(c, t, i, SeekingData, s.pos, e.submitRc, s.outstanding - 1, s.exits))
            && (s.queue != [] ==>
                  && t.error == 0 && t.outstanding == s.outstanding - 1 && t.exits == s.exits
                  && t.slots[i].phase == Queued)
  {
    hide Legal, Final, Populate, RoundUp, Data, Counted, QueueOk;
    AlwaysInv(c, o, h);
    NoWrap(c, Final(c, o, h).pos);
    WholeBlocks(Final(c, o, h).pos, c.inBlock);
  }

  /** The position has moved to the data found at `d`, and the seek for its end follows. */
  ghost predicate HoleSought(c: Config, s: Job, t: Job, i: nat, d: nat, rc: int) {
    && t.pos == d && Sought(c, t, i, SeekingHole, d, rc, s.outstanding - 1, s.exits)
    && (rc != 0 ==> s.queue != [] && t.slots[i].phase == Idle && t.queue == s.queue[1..])
  }

  /** In every run: when the seek for data has found some, the position moves there and the next seek follows. */
  lemma HoleSeekAfterData(c: Config, o: seq<byte>, h: History, s: Job, i: nat, e: Env)
    requires Legal(c, o, h) && s == Final(c, o, h) && Enabled(c, s, SeekDone(i, e)) && s.Clean()
    requires s.slots[i].phase == SeekingData && NextData(c.isData, s.pos) < |c.isData|
    ensures HoleSought(c, s, Step(c, s, SeekDone(i, e)), i, NextData(c.isData, s.pos), e.submitRc)
  {
    hide Legal, Final;
    AlwaysInv(c, o, h);
    DataSeekAnswered(c, o, s, i, e);
  }

  lemma DataSeekAnswered(c: Config, o: seq<byte>, s: Job, i: nat, e: Env)
    requires Inv(c, o, s) && Enabled(c, s, SeekDone(i, e)) && s.Clean()
    requires s.slots[i].phase == SeekingData && NextData(c.isData, s.pos) < |c.isData|
    ensures HoleSought(c, s, Step(c, s, SeekDone(i, e)), i, NextData(c.isData, s.pos), e.submitRc)
  {
    hide Data, Counted, Own, QueueOk, RoundDown;
    SeekerAt(c, o, s, i);
    OwnPos(c, o, s);
    DataAnswer(c, s, s.slots[i].at);
    BlockAddress(NextData(c.isData, s.pos), c.inBlock);
  }

  /** The seek in flight is the head of the queue and looks from the current position. */
  lemma SeekerAt(c: Config, o: seq<byte>, s: Job, i: nat)
    requires Inv(c, o, s) && i < |s.slots| && s.slots[i].Seeking()
    ensures c.SparseBdev() && s.queue != [] && s.queue[0] == i && s.slots[i].at * c.inBlock == s.pos
    ensures i !in s.queue[1..]
  {
    hide Data, Counted, Own;
    SeekerIsHead(c, s, i);
  }

  lemma BlockAddress(x: nat, block: nat)
    requires block > 0 && RoundDown(x, block) == x
    ensures x / block * block == x
  {}

  lemma OwnPos(c: Config, o: seq<byte>, s: Job)
    requires Inv(c, o, s)
    ensures PosOk(c, s) && c.readStart <= s.pos <= c.End()
  {
    hide Data, Counted, QueueOk;
  }

  /** Slot `i` has its first request in flight, and the head of the queue, if bytes are left, starts its seek. */
  ghost predicate ChunkStarted(c: Config, s: Job, t: Job, i: nat, q: Request, rc: int) {
    && i < |t.slots| && t.slots[i].phase == q.phase && t.slots[i].at == q.at && t.slots[i].size == q.size
    && s.queue != [] && t.queue == s.queue[1..]
    && if t.queue != [] && t.pos < c.End()
       then Sought(c, t, t.queue[0], SeekingData, t.pos, rc, s.outstanding, s.exits)
       else t.error == 0 && t.outstanding == s.outstanding && t.exits == s.exits
  }

  /**
   * In every run: when the end of the data is known the slot takes its chunk, and if that is accepted and bytes are
   * left the next queued slot starts its seek from where the chunk ends.
   */
  lemma ChunkAfterHole(c: Config, o: seq<byte>, h: History, s: Job, i: nat, e: Env)
    requires Legal(c, o, h) && s == Final(c, o, h) && Enabled(c, s, SeekDone(i, e)) && s.Clean()
    requires s.slots[i].phase == SeekingHole
    ensures c.readStart <= s.pos && ChunkAt(c, s.pos) > 0
    ensures var t, q := Step(c, s, SeekDone(i, e)), FirstOf(c, s.pos, ChunkAt(c, s.pos));
            && t.pos == s.pos + ChunkAt(c, s.pos)
            && (Refusal(c, q, HeldFor(c, s, q), e.submitRc) == 0 ==> ChunkStarted(c, s, t, i, q, e.nextSeekRc))
  {
    hide Legal, Final, ChunkAt, ChunkStarted, Refusal, SeekHoleDone;
    AlwaysInv(c, o, h);
    HoleChunk(c, o, s, i);
    HoleSeekAnswered(c, o, s, i, e);
  }

  lemma HoleSeekAnswered(c: Config, o: seq<byte>, s: Job, i: nat, e: Env)
    requires Inv(c, o, s) && Enabled(c, s, SeekDone(i, e)) && s.Clean()
    requires s.slots[i].phase == SeekingHole && c.readStart <= s.pos && ChunkAt(c, s.pos) > 0
    ensures var t, q := Step(c, s, SeekDone(i, e)), FirstOf(c, s.pos, ChunkAt(c, s.pos));
            && t.pos == s.pos + ChunkAt(c, s.pos)
            && (Refusal(c, q, HeldFor(c, s, q), e.submitRc) == 0 ==> ChunkStarted(c, s, t, i, q, e.nextSeekRc))
  {
    hide Submitted, Refusal, FirstOf, NextSeek, Data, Counted, Own, QueueOk, Sought, ChunkAt, SeekHoleDone;
    SeekerAt(c, o, s, i);
    var q := FirstOf(c, s.pos, ChunkAt(c, s.pos));
    var p := HolePopulated(c, o, s, i, e);
    NextSeekMoves(c, o, p, i, e);
    if Refusal(c, q, HeldFor(c, s, q), e.submitRc) == 0 { SubmittedMeans(p, i, q, s.outstanding - 1, s.exits); }
  }

  /** The callback up to the call that starts the next seek. */
  lemma HolePopulated(c: Config, o: seq<byte>, s: Job, i: nat, e: Env) returns (p: Job)
    requires Inv(c, o, s) && Enabled(c, s, SeekDone(i, e)) && s.Clean()
    requires s.slots[i].phase == SeekingHole && c.readStart <= s.pos && ChunkAt(c, s.pos) > 0 && s.queue != []
    ensures Inv(c, o, p) && NoSeek(p) && c.SparseBdev() && p.queue == s.queue[1..] && i < |p.slots| && i !in p.queue
    ensures SeekHoleDone(c, s, i, e) == NextSeek(c, p, e)
    ensures var q := FirstOf(c, s.pos, ChunkAt(c, s.pos));
            && p.pos == s.pos + ChunkAt(c, s.pos)
            && Submitted(p, i, q, Refusal(c, q, HeldFor(c, s, q), e.submitRc), s.outstanding - 1, s.exits)
  {
    hide Submitted, Refusal, Populate, FirstOf, NextSeek, Data, Counted, Own, QueueOk, HoleLength, ChunkAt, Fits;
    SeekerAt(c, o, s, i);
    HoleChunk(c, o, s, i);
    HoleDone(c, o, s, i);
    var length := HoleLength(c, s, i);
    var v := Dequeue(LandSeek(s, i), i);
    var u := WithLength(v, i, length);
    p := Populate(c, u, i, e);
    PopulateSubmits(c, u, i, e);
    PopulateNoSeek(c, u, i, e);
    HoleFoundKeeps(c, o, v, i, length, e);
  }

  lemma SubmittedMeans(t: Job, i: nat, q: Request, n: int, exits: seq<int>)
    requires Submitted(t, i, q, 0, n, exits)
    ensures i < |t.slots| && t.slots[i].phase == q.phase && t.slots[i].at == q.at && t.slots[i].size == q.size
    ensures t.error == 0 && t.outstanding == n + 1 && t.exits == exits
  {}

  /** The head of the queue is the seeking slot, and the hole behind the position bounds its chunk. */
  lemma HoleChunk(c: Config, o: seq<byte>, s: Job, i: nat)
    requires Inv(c, o, s) && i < |s.slots| && s.slots[i].phase == SeekingHole
    ensures c.SparseBdev() && s.queue != [] && s.queue[0] == i && c.readStart <= s.pos < c.End()
    ensures HoleLength(c, s, i) > 0 && Min(HoleLength(c, s, i), c.End() - s.pos) == ChunkAt(c, s.pos) > 0
  {
    hide Data, Counted;
    SeekerIsHead(c, s, i);
    OwnPos(c, o, s);
    var f := NextHole(c.isData, s.pos);
    HoleFits(c, s, f);
    if f < |c.isData| { HoleBlocks(c, s, i, f); }
  }

  /** The next queued seek, in a state where none is in flight. */
  lemma NextSeekMoves(c: Config, o: seq<byte>, s: Job, i: nat, e: Env)
    requires Inv(c, o, s) && NoSeek(s) && c.SparseBdev() && i < |s.slots| && i !in s.queue
    ensures var t := NextSeek(c, s, e);
            && t.pos == s.pos && t.queue == s.queue && |t.slots| == |s.slots| && t.slots[i] == s.slots[i]
            && (s.queue == [] || s.pos >= c.End() ==> t == s)
            && (s.queue != [] && s.pos < c.End() && s.error == 0 ==>
                  Sought(c, t, s.queue[0], SeekingData, s.pos, e.nextSeekRc, s.outstanding, s.exits))
  {
    hide Data, Counted;
    OwnPos(c, o, s);
    WholeBlocks(s.pos, c.inBlock);
  }

  // ------------------------------------------------------------------ no more data

  /**
   * The error of finalizing an output of `n` bytes: its size cannot be found, or it is short and cannot be extended.
   */
  function FinalError(c: Config, n: nat, e: Env): int {
    if c.outKind == Bdev then 0
    else if e.endErr != 0 then e.endErr
    else if n < c.writeStart + c.copySize then e.truncErr
    else 0
  }

  /**
   * A sparse copy has run out of data: while other I/Os are in flight nothing happens, else the run exits, with the
   * error of the finalization on record or with an output file of at least the full size.
   */
  ghost predicate Finalized(c: Config, s: Job, t: Job, e: Env) {
    && t.outstanding == s.outstanding - 1 && t.pos == s.pos
    && if t.outstanding > 0 then t.error == 0 && t.exits == s.exits && t.out == s.out
       else
         && t.error == FinalError(c, |s.out|, e) && t.exits == s.exits + [t.error]
         && t.out == if t.error == 0 && c.outKind == File && |s.out| < c.writeStart + c.copySize
                     then Extend(s.out, c.writeStart + c.copySize) else s.out
  }

  /** In every sparse run from a file: a write has come back and no data is left. */
  lemma FileRunsOut(c: Config, o: seq<byte>, h: History, s: Job, i: nat, res: int, e: Env)
    requires Legal(c, o, h) && s == Final(c, o, h) && c.sparse && c.inKind == File
    requires Enabled(c, s, Done(i, res, e)) && s.Clean() && s.pos < c.End()
    requires s.slots[i].phase == Writing && ErrorAfter(c, 0, s.slots[i], res) == 0
    requires NextData(c.isData, s.pos) >= |c.isData| && e.seekDataErr == 0
    ensures Finalized(c, s, Step(c, s, Done(i, res, e)), e)
  {
    hide Legal, Final, Populate, RoundUp, Data, Counted, QueueOk, Extend;
    AlwaysInv(c, o, h);
    NoWrap(c, s.pos);
  }

  /** In every sparse run from a bdev: the seek of the head of the queue has found no more data. */
  lemma BdevRunsOut(c: Config, o: seq<byte>, h: History, s: Job, i: nat, e: Env)
    requires Legal(c, o, h) && s == Final(c, o, h) && Enabled(c, s, SeekDone(i, e)) && s.Clean()
    requires s.slots[i].phase == SeekingData && NextData(c.isData, s.pos) >= |c.isData|
    ensures var t := Step(c, s, SeekDone(i, e));
            Finalized(c, s, t, e) && s.queue != [] && t.queue == s.queue[1..] && t.slots[i].phase == Idle
  {
    hide Legal, Final, Data, Counted, QueueOk, Own, Extend;
    AlwaysInv(c, o, h);
    SeekerAt(c, o, s, i);
  }
}
