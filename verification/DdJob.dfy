/**
 * The copy engine in the program's own form: one job whose fields and slots are updated in place.
 * Every method does what the C function of the same purpose does, statement by statement, and is
 * proved to be the transition that the theorems are about.
 */
module DdJob {
  import opened Bytes
  import opened DdSpec
  import opened DdRuns
  import opened DdTheorems
  import Spec = DdSpec

  class CopyJob {
    const c: Config
    const slots: array<Slot>
    var pos: nat
    var outstanding: int
    var queue: seq<nat>
    var out: seq<byte>
    var error: int
    var interrupt: bool
    var totalBytes: nat
    var incrementalBytes: nat
    var exits: seq<int>
    ghost var fate: seq<Fate>

    ghost function State(): Job
      reads this, slots
    {
      Job(pos, outstanding, slots[..], queue, out, error, interrupt, totalBytes, incrementalBytes, exits, fate)
    }

    /** dd_run after its checks: buffers are given, the slots are idle, the start loop has not begun. */
    constructor (config: Config, output: seq<byte>, bufs: seq<seq<byte>>, interrupted: bool)
      ensures c == config && fresh(slots) && slots.Length == |bufs|
      ensures State() == Initial(config, output, bufs, interrupted)
    {
      c := config;
      slots := new Slot[|bufs|](k requires 0 <= k < |bufs| => Slot(0, config.unit, bufs[k], Idle, 0, 0, 0));
      pos, outstanding, queue, out := config.readStart, 0, [], output;
      error, interrupt := 0, interrupted;
      totalBytes, incrementalBytes, exits, fate := 0, 0, [], [];
      new;
      assert slots[..] == Initial(config, output, bufs, interrupted).slots;
    }

    method Exit(rc: int)
      modifies this
      ensures State() == Spec.Exit(old(State()), rc)
    {
      exits := exits + [rc];
    }

    method ShowProgress()
      modifies this
      ensures State() == Spec.ShowProgress(old(State()))
    {
      var size := incrementalBytes;
      incrementalBytes := 0;
      totalBytes := totalBytes + size;
    }

    method StopIfDrained(show: bool)
      modifies this
      ensures State() == Spec.StopIfDrained(old(State()), show)
    {
      if outstanding == 0 {
        if show && error == 0 {
          ShowProgress();
        }
        Exit(error);
      }
    }

    /** The tail of every submission: a refused request is taken back. */
    method Refused(rc: int)
      modifies this
      ensures State() == Fail(old(State()).(outstanding := old(outstanding) - 1), rc)
    {
      outstanding := outstanding - 1;
      error := rc;
      if outstanding == 0 {
        Exit(rc);
      }
    }

    /** The slot is free; the history records what became of its chunk. */
    method Release(i: nat, f: Fate)
      requires i < slots.Length
      modifies this`fate, slots
      ensures State() == Drop(old(State()), i, f)
    {
      slots[i] := slots[i].(phase := Idle);
      fate := Retire(fate, i, f);
    }

    /** io_uring_submit, io_submit or the bdev layer takes the request, or refuses it. */
    method Submit(k: Kind, size: nat, offset: nat, length: nat, answer: int) returns (rc: int)
      ensures rc == SubmitRc(c, k, size, offset, length, answer)
    {
      rc := 0;
      if k == File {
        if c.engine == Aio {
          rc := answer;
        }
      } else {
        rc := if answer == 0 && offset + length > size then -EINVAL else answer;
      }
    }

    /** Counts and submits a transfer, and takes it back when it is refused. */
    method Transfer(i: nat, p: Phase, at: nat, size: nat, e: Env, f: Fate)
      requires i < slots.Length
      modifies this, slots
      ensures var t := Launch(old(State()), i, p, at, size);
              var rc := SubmitRc(c, PhaseKind(c, p), if p == Reading then |c.input| else |t.out|, at, size, e.submitRc);
              State() == if rc != 0 then Fail(Drop(Land(t, i), i, f), rc) else t
    {
      outstanding := outstanding + 1;
      slots[i] := slots[i].(phase := p, at := at, size := size, served := 0);
      var rc := Submit(PhaseKind(c, p), if p == Reading then |c.input| else |out|, at, size, e.submitRc);
      if rc != 0 {
        Release(i, f);
        Refused(rc);
      }
    }

    method Write(i: nat, e: Env)
      requires i < slots.Length && c.outBlock > 0
      modifies this, slots
      ensures State() == Spec.Write(c, old(State()), i, e)
    {
      hide RoundUp, Sub64, Add64;
      var length := (slots[i].length + c.outBlock - 1) / c.outBlock * c.outBlock;
      RoundUpIsCeilDiv(slots[i].length, c.outBlock);
      var readOffset := Sub64(slots[i].offset, c.readStart);
      var writeOffset := Add64(c.writeStart, readOffset);
      if error != 0 || interrupt {
        Release(i, Abandoned);
        StopIfDrained(true);
        return;
      }
      incrementalBytes := incrementalBytes + slots[i].length;
      Transfer(i, Writing, writeOffset, length, e, Lost);
    }

    method Read(i: nat, e: Env)
      requires i < slots.Length
      modifies this, slots
      ensures State() == Spec.Read(c, old(State()), i, e) && queue == old(queue)
    {
      if error != 0 || interrupt {
        Release(i, Abandoned);
        StopIfDrained(false);
        return;
      }
      Transfer(i, Reading, slots[i].offset, slots[i].length, e, Abandoned);
    }

    method Populate(i: nat, e: Env)
      requires i < slots.Length && c.outBlock > 0
      modifies this, slots
      ensures State() == Spec.Populate(c, old(State()), i, e) && queue == old(queue)
    {
      hide RoundUp, Spec.Read, Sub64, Add64;
      var readOffset := Sub64(pos, c.readStart);
      var writeOffset := Add64(c.writeStart, readOffset);
      slots[i] := slots[i].(offset := pos);
      slots[i] := slots[i].(length := Min(slots[i].length, Sub64(c.copySize, readOffset)));
      if slots[i].length == 0 || error != 0 || interrupt {
        StopIfDrained(true);
        return;
      }
      pos := pos + slots[i].length;
      slots[i] := slots[i].(phase := Running);
      fate := fate + Repeat(InFlight(i), slots[i].length);
      ghost var sl := old(slots[i]).(offset := old(pos), length := slots[i].length);
      assert State() == Claim(old(State()).(slots := old(slots[..])[i := sl]), i);
      if slots[i].length % c.outBlock == 0 {
        Read(i, e);
        return;
      }
      var length := (slots[i].length + c.outBlock - 1) / c.outBlock * c.outBlock;
      RoundUpIsCeilDiv(slots[i].length, c.outBlock);
      Transfer(i, Populating, writeOffset, length, e, Abandoned);
    }

    method Finalize(e: Env)
      modifies this
      ensures State() == Spec.Finalize(c, old(State()), e)
    {
      if outstanding > 0 {
        return;
      }
      if c.outKind == File {
        if e.endErr != 0 {
          error := e.endErr;
        } else if |out| < c.copySize + c.writeStart {
          if e.truncErr != 0 {
            error := e.truncErr;
          } else {
            out := Extend(out, c.copySize + c.writeStart);
          }
        }
      }
      if error == 0 {
        ShowProgress();
      }
      Exit(error);
    }

    /** dd_file_seek_data: no result when the call ends here. */
    method FileSeekData(e: Env) returns (found: bool, d: nat)
      modifies this
      ensures found <==> e.seekDataErr == 0 && NextData(c.isData, old(pos)) < |c.isData|
      ensures found ==> State() == old(State()) && d == NextData(c.isData, old(pos))
      ensures !found && e.seekDataErr == 0 ==> State() == Spec.Finalize(c, old(State()), e)
      ensures e.seekDataErr != 0 ==>
                State() == if old(outstanding) == 0 then Fail(old(State()), e.seekDataErr) else old(State())
    {
      d := NextData(c.isData, pos);
      found := e.seekDataErr == 0 && d < |c.isData|;
      if !found {
        if e.seekDataErr == 0 {
          Finalize(e);
        } else if outstanding == 0 {
          error := e.seekDataErr;
          Exit(error);
        }
      }
    }

    /** dd_file_seek_hole. */
    method FileSeekHole(e: Env) returns (found: bool, h: nat)
      modifies this
      ensures found <==> e.seekHoleErr == 0
      ensures found ==> State() == old(State()) && h == NextHole(c.isData, old(pos))
      ensures !found ==> State() == if old(outstanding) == 0 then Fail(old(State()), e.seekHoleErr) else old(State())
    {
      h := NextHole(c.isData, pos);
      found := e.seekHoleErr == 0;
      if !found && outstanding == 0 {
        error := e.seekHoleErr;
        Exit(error);
      }
    }

    method SeekFile(i: nat, e: Env)
      requires i < slots.Length && c.outBlock > 0
      modifies this, slots
      ensures State() == Spec.SeekFile(c, old(State()), i, e)
    {
      hide Spec.Finalize, Spec.Populate;
      var found, d := FileSeekData(e);
      if !found {
        return;
      } else if d > pos {
        fate := fate + Repeat(Hole, d - pos);
        pos := d;
      }
      assert State() == Skip(old(State()), d);
      var more, h := FileSeekHole(e);
      if !more {
        return;
      }
      slots[i] := slots[i].(length := if h > pos then Min(c.unit, h - pos) else c.unit);
      Populate(i, e);
    }

    /** A bdev seek from the current position is counted and handed to the device. */
    method SubmitSeek(i: nat, p: Phase)
      requires i < slots.Length && c.inBlock > 0
      modifies this, slots
      ensures State() == LaunchSeek(c, old(State()), i, p)
    {
      outstanding := outstanding + 1;
      slots[i] := slots[i].(phase := p, at := pos / c.inBlock);
    }

    method SeekBdev(i: nat, e: Env)
      requires i < slots.Length && c.inBlock > 0
      modifies this, slots
      ensures State() == Spec.SeekBdev(c, old(State()), i, e)
    {
      var rc := 0;
      slots[i] := slots[i].(phase := Queued);
      if queue == [] {
        SubmitSeek(i, SeekingData);
        rc := e.submitRc;
      }
      queue := queue + [i];
      if rc != 0 {
        slots[i] := slots[i].(phase := Queued);
        Refused(rc);
      }
    }

    method Seek(i: nat, e: Env)
      requires i < slots.Length && c.outBlock > 0 && c.inBlock > 0
      modifies this, slots
      ensures State() == Spec.Seek(c, old(State()), i, e)
    {
      var readOffset := Sub64(pos, c.readStart);
      if !c.sparse {
        Populate(i, e);
        return;
      }
      if Sub64(c.copySize, readOffset) == 0 || error != 0 || interrupt {
        StopIfDrained(true);
        return;
      }
      if c.inKind == File {
        SeekFile(i, e);
      } else {
        SeekBdev(i, e);
      }
    }

    /** STAILQ_REMOVE_HEAD. */
    method RemoveHead(i: nat)
      requires i < slots.Length
      modifies this`queue, slots
      ensures State() == Dequeue(old(State()), i)
    {
      queue := if queue == [] then [] else queue[1..];
      slots[i] := slots[i].(phase := Idle);
    }

    method SeekDataDone(i: nat, e: Env)
      requires i < slots.Length && c.inBlock > 0
      modifies this, slots
      ensures State() == Spec.SeekDataDone(c, old(State()), i, e)
    {
      hide Spec.DataSought;
      if error != 0 || interrupt {
        RemoveHead(i);
        StopIfDrained(true);
        return;
      }
      var d := NextData(c.isData, slots[i].at * c.inBlock);
      DataSought(i, d < |c.isData|, d / c.inBlock * c.inBlock, e);
    }

    /** The rest of _dd_bdev_seek_data_done, given the answer of the device. */
    method DataSought(i: nat, found: bool, p: nat, e: Env)
      requires i < slots.Length && c.inBlock > 0
      modifies this, slots
      ensures State() == Spec.DataSought(c, old(State()), i, found, p, e)
    {
      hide Spec.Finalize;
      outstanding := outstanding - 1;
      slots[i] := slots[i].(phase := Queued);
      if !found {
        RemoveHead(i);
        Finalize(e);
        return;
      }
      fate := fate + Repeat(Hole, Max(0, p - pos));
      pos := p;
      assert State() == Skip(LandSeek(old(State()), i), p);
      SeekHole(i, e);
    }

    /** spdk_bdev_seek_hole for the head of the queue, taken back when it is refused. */
    method SeekHole(i: nat, e: Env)
      requires i < slots.Length && c.inBlock > 0
      modifies this, slots
      ensures var u := LaunchSeek(c, old(State()), i, SeekingHole);
              State() == if e.submitRc != 0 then Fail(Dequeue(LandSeek(u, i), i), e.submitRc) else u
    {
      SubmitSeek(i, SeekingHole);
      if e.submitRc != 0 {
        RemoveHead(i);
        Refused(e.submitRc);
      }
    }

    method SeekHoleDone(i: nat, e: Env)
      requires i < slots.Length && c.inBlock > 0 && c.outBlock > 0
      requires forall k :: 0 <= k < |queue| ==> queue[k] < slots.Length
      modifies this, slots
      ensures State() == Spec.SeekHoleDone(c, old(State()), i, e)
    {
      hide Spec.Populate, NextSeek, Sub64;
      var at := slots[i].at;
      RemoveHead(i);
      if error != 0 || interrupt {
        StopIfDrained(true);
        return;
      }
      outstanding := outstanding - 1;
      var h := NextHole(c.isData, at * c.inBlock);
      if h >= |c.isData| {
        slots[i] := slots[i].(length := c.unit);
      } else {
        slots[i] := slots[i].(length := Min(c.unit, Sub64(h / c.inBlock * c.inBlock, pos)));
      }
      assert State().slots == WithLength(Dequeue(LandSeek(old(State()), i), i), i, slots[i].length).slots;
      Populate(i, e);
      StartNextSeek(e);
    }

    method StartNextSeek(e: Env)
      requires c.inBlock > 0 && forall k :: 0 <= k < |queue| ==> queue[k] < slots.Length
      modifies this, slots
      ensures State() == NextSeek(c, old(State()), e)
    {
      if queue != [] && pos < c.inTotal {
        var head := queue[0];
        SubmitSeek(head, SeekingData);
        if e.nextSeekRc != 0 {
          slots[head] := slots[head].(phase := Queued);
          Refused(e.nextSeekRc);
        }
      }
    }

    /** The poller or bdev callback of a transfer, then dd_complete_poll. */
    method Complete(i: nat, res: int, e: Env)
      requires i < slots.Length && c.outBlock > 0 && c.inBlock > 0
      modifies this, slots
      ensures State() == Spec.Complete(c, old(State()), i, res, e)
    {
      hide Spec.Read, Spec.Write, Spec.Seek, ErrorAfter;
      var sl := slots[i];
      error := ErrorAfter(c, error, sl, res);
      outstanding := outstanding - 1;
      slots[i] := slots[i].(phase := Running);
      if sl.phase == Populating {
        Read(i, e);
      } else if sl.phase == Reading {
        Write(i, e);
      } else {
        Release(i, if sl.served == sl.size then Written else Lost);
        Seek(i, e);
      }
    }

    /** The device moves `n` bytes between the slot's buffer and the output, or out of the input. */
    method Serve(i: nat, n: nat)
      requires i < slots.Length && CanServe(c, State(), i, n)
      modifies this, slots
      ensures State() == Spec.Serve(c, old(State()), i, n)
    {
      var sl := slots[i];
      if sl.phase == Writing {
        out := Store(out, sl.at + sl.served, sl.buf, sl.served, n);
      } else if sl.phase == Reading {
        slots[i] := slots[i].(buf := Store(sl.buf, sl.served, c.input, sl.at + sl.served, n));
      } else {
        slots[i] := slots[i].(buf := Store(sl.buf, sl.served, out, sl.at + sl.served, n));
      }
      slots[i] := slots[i].(served := sl.served + n);
    }

    method React(v: Event)
      requires c.outBlock > 0 && c.inBlock > 0 && Enabled(c, State(), v)
      modifies this, slots
      ensures State() == Step(c, old(State()), v)
    {
      match v
      case Move(i, n) => Serve(i, n);
      case Done(i, res, e) => Complete(i, res, e);
      case SeekDone(i, e) =>
        if slots[i].phase == SeekingData {
          SeekDataDone(i, e);
        } else {
          SeekHoleDone(i, e);
        }
      case Interrupt => interrupt := true;
      case Status => ShowProgress();
    }

    /** The start loop of dd_run. */
    method Start(envs: seq<Env>)
      requires c.outBlock > 0 && c.inBlock > 0 && |envs| == slots.Length
      modifies this, slots
      ensures State() == StartFrom(c, old(State()), 0, envs)
    {
      var k := 0;
      while k < slots.Length
        invariant 0 <= k <= slots.Length
        invariant StartFrom(c, State(), k, envs) == StartFrom(c, old(State()), 0, envs)
      {
        Seek(k, envs[k]);
        k := k + 1;
      }
    }

    /** The application's event loop. */
    method Loop(events: seq<Event>)
      requires c.outBlock > 0 && c.inBlock > 0 && Possible(c, State(), events)
      modifies this, slots
      ensures State() == Execute(c, old(State()), events)
    {
      var k := 0;
      while k < |events|
        invariant 0 <= k <= |events|
        invariant Possible(c, State(), events[k..])
        invariant Execute(c, State(), events[k..]) == Execute(c, old(State()), events)
      {
        React(events[k]);
        assert events[k..][1..] == events[k + 1..];
        k := k + 1;
      }
    }
  }

  /**
   * A whole run of the program. The exit codes are those of the transition system, and a clean exit of a
   * dense run leaves exactly the copy.
   */
  method Copy(c: Config, o: seq<byte>, h: History) returns (output: seq<byte>, exits: seq<int>, clean: bool)
    requires Legal(c, o, h)
    ensures output == Final(c, o, h).out && exits == Final(c, o, h).exits && clean == Final(c, o, h).Clean()
    ensures exits != [] && clean && !c.sparse && c.copySize > 0 ==>
              c.End() <= |c.input| && output == Store(o, c.writeStart, c.input, c.readStart, c.copySize)
    ensures exits != [] && clean && c.sparse ==> forall q: nat :: At(output, q) == Expected(c, o, q)
    ensures forall q: nat :: q < c.writeStart || q >= c.writeStart + c.copySize ==> At(output, q) == At(o, q)
  {
    var job := new CopyJob(c, o, h.bufs, h.interrupted);
    job.Start(h.envs);
    job.Loop(h.events);
    output, exits, clean := job.out, job.exits, job.error == 0 && !job.interrupt;
    if CleanExit(Final(c, o, h)) {
      if c.sparse { SparseCopyCorrect(c, o, h); } else { DenseCopyCorrect(c, o, h); }
    }
    forall q: nat | q < c.writeStart || q >= c.writeStart + c.copySize ensures At(output, q) == At(o, q) {
      OutsideUntouched(c, o, h, q);
    }
  }
}
