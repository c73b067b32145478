/** Concrete runs that show where the guarantees end. */
module DdLimits {
  import opened Bytes
  import opened DdSpec
  import opened DdInvariant
  import opened DdRuns
  import opened DdCalm
  import opened DdStall
  import opened DdStallRun
  import opened DdTrust

  // ------------------------------------------------------------------ a sparse bdev copy can stall

  const STALL: Config := Config(Bdev, Bdev, Uring, true, 1, 1, 1, 0, 0, 2, 2, 3, [1, 0], [true, false])

  lemma StallHoles(p: nat)
    requires p < |STALL.input| && !STALL.isData[p]
    ensures STALL.input[p] == 0
  {
    assert p == 1;
  }

  lemma StallBoundaries(p: nat)
    requires Boundary(STALL, p)
    ensures p == 1
  {}

  lemma StallWellFormed()
    ensures WellFormed(STALL)
  {
    forall p | 0 <= p < |STALL.input| && !STALL.isData[p] ensures STALL.input[p] == 0 {
      StallHoles(p);
    }
    forall p: nat | Boundary(STALL, p) ensures (p - STALL.readStart) % STALL.outBlock == 0 && p % STALL.inBlock == 0 {
      StallBoundaries(p);
    }
  }

  lemma StallHasShape()
    ensures StallShape(STALL) && Holds(STALL, [0, 0]) && STALL.SparseBdev()
  {
    assert IsData(STALL, 0) && !IsData(STALL, STALL.End() - 1);
  }

  /**
   * A sparse copy from a block device can stop for good without exiting: the slots queued behind a seek
   * that found no more data are never restarted. Here three slots copy one data byte before a hole.
   */
  lemma SparseBdevCanStall() returns (h: History)
    ensures CalmRun(STALL, [0, 0], h) && Stopped(STALL, [0, 0], h)
  {
    hide WellFormed, StallShape, Holds, CalmRun, Stopped;
    StallWellFormed();
    StallHasShape();
    h := ShapeStalls(STALL, [0, 0]);
  }

  // ------------------------------------------------------------------ a short populate

  /** One byte to a fresh file with blocks of two, through io_uring; the slot's buffer held 5 and 9. */
  const SHORT: Config := Config(File, File, Uring, false, 2, 1, 2, 0, 0, 1, 1, 1, [7], [true])

  function ShortState(phase: Phase, size: nat, served: nat, buf: seq<byte>, out: seq<byte>): Job {
    Job(1, 1, [Slot(0, 1, buf, phase, 0, size, served)], [], out, 0, false, 0, if phase == Writing then 1 else 0, [],
        [InFlight(0)])
  }

  lemma ShortStart()
    ensures Started(SHORT, [], History([[5, 9]], false, [OK], [])) == ShortState(Populating, 2, 0, [5, 9], [])
  {
    var s := Initial(SHORT, [], [[5, 9]], false);
    assert s.slots == [Slot(0, 2, [5, 9], Idle, 0, 0, 0)];
    var t := Seek(SHORT, s, 0, OK);
    assert t.fate == [InFlight(0)];
    assert StartFrom(SHORT, s, 0, [OK]) == StartFrom(SHORT, t, 1, [OK]) == t;
  }

  /** The populate meets the end of the file and moves nothing; the code takes the result 0 for success. */
  lemma ShortPopulate()
    ensures var s, v := ShortState(Populating, 2, 0, [5, 9], []), Done(0, 0, OK);
            && Enabled(SHORT, s, v) && SilentEvent(SHORT, s, v)
            && Step(SHORT, s, v) == ShortState(Reading, 1, 0, [5, 9], [])
  {}

  lemma ShortRead()
    ensures var s, v := ShortState(Reading, 1, 0, [5, 9], []), Move(0, 1);
            Enabled(SHORT, s, v) && Step(SHORT, s, v) == ShortState(Reading, 1, 1, [7, 9], [])
    ensures var s, v := ShortState(Reading, 1, 1, [7, 9], []), Done(0, 1, OK);
            Enabled(SHORT, s, v) && Step(SHORT, s, v) == ShortState(Writing, 2, 0, [7, 9], [])
  {
    var b := Step(SHORT, ShortState(Reading, 1, 0, [5, 9], []), Move(0, 1)).slots[0].buf;
    assert At(b, 0) == 7 && At(b, 1) == 9;
    assert b == [7, 9];
  }

  lemma ShortWrite()
    ensures var s, v := ShortState(Writing, 2, 0, [7, 9], []), Move(0, 2);
            Enabled(SHORT, s, v) && Step(SHORT, s, v) == ShortState(Writing, 2, 2, [7, 9], [7, 9])
    ensures var s, v := ShortState(Writing, 2, 2, [7, 9], [7, 9]), Done(0, 2, OK);
            && Enabled(SHORT, s, v)
            && var t := Step(SHORT, s, v); t.exits == [0] && t.Clean() && t.out == [7, 9]
  {
    var b := Step(SHORT, ShortState(Writing, 2, 0, [7, 9], []), Move(0, 2)).out;
    assert At(b, 0) == 7 && At(b, 1) == 9;
    assert b == [7, 9];
  }

  /**
   * Short transfers are not harmless. An unaligned tail into a file that ends before its last block reads short,
   * io_uring's positive result counts as success, and the rounded write leaves a stale buffer byte behind the copy:
   * the run exits cleanly with two bytes where the copy has one.
   */
  lemma ShortPopulateCorrupts() returns (t: Job)
    ensures Reaches(SHORT, Started(SHORT, [], History([[5, 9]], false, [OK], [])),
                  [Done(0, 0, OK)] + ([Move(0, 1)] + ([Done(0, 1, OK)] + ([Move(0, 2)] + ([Done(0, 2, OK)] + [])))), t)
    ensures t.exits == [0] && t.Clean() && t.out == [7, 9] && t.out != Store([], 0, SHORT.input, 0, 1)
  {
    hide Step, Enabled, Reaches, StartFrom;
    ShortStart();
    ShortPopulate();
    ShortRead();
    ShortWrite();
    t := Step(SHORT, ShortState(Writing, 2, 2, [7, 9], [7, 9]), Done(0, 2, OK));
    AtOnce(SHORT, t);
    var written := [Done(0, 2, OK)] + [];
    After(SHORT, ShortState(Writing, 2, 2, [7, 9], [7, 9]), Done(0, 2, OK), [], t);
    var writing := [Move(0, 2)] + written;
    After(SHORT, ShortState(Writing, 2, 0, [7, 9], []), Move(0, 2), written, t);
    var read := [Done(0, 1, OK)] + writing;
    After(SHORT, ShortState(Reading, 1, 1, [7, 9], []), Done(0, 1, OK), writing, t);
    After(SHORT, ShortState(Reading, 1, 0, [5, 9], []), Move(0, 1), read, t);
    After(SHORT, ShortState(Populating, 2, 0, [5, 9], []), Done(0, 0, OK), [Move(0, 1)] + read, t);
  }
}
