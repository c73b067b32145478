/** What a copy guarantees, for every environment, every queue depth and every order of completions. */
module DdTheorems {
  import opened Bytes
  import opened DdSpec
  import opened DdInvariant
  import opened DdRuns
  import opened DdExit

  /** The run has called dd_exit with no error and was not interrupted. */
  ghost predicate CleanExit(s: Job) {
    s.exits != [] && s.Clean()
  }

  /** At a clean exit every byte handed out is either in the output or a hole. */
  lemma AllSettled(c: Config, o: seq<byte>, s: Job)
    requires Inv(c, o, s) && Control(c, s) && CleanExit(s)
    ensures forall k :: 0 <= k < |s.fate| ==> s.fate[k] == Written || s.fate[k] == Hole
  {
    forall k | 0 <= k < |s.fate| ensures s.fate[k] == Written || s.fate[k] == Hole {
      if s.fate[k].InFlight? {
        var i := s.fate[k].slot;
        assert s.slots[i].Owns();
        TotalAtLeast(s.slots, i, IoWeight);
      }
    }
  }

  /** Every byte of the output after a clean exit, in terms of the input and the original output. */
  ghost function Expected(c: Config, o: seq<byte>, q: nat): byte
    requires c.End() <= |c.input|
  {
    if c.writeStart <= q < c.writeStart + c.copySize && (c.sparse ==> IsData(c, c.readStart + (q - c.writeStart)))
    then c.input[c.readStart + (q - c.writeStart)]
    else At(o, q)
  }

  lemma SettledByte(c: Config, o: seq<byte>, s: Job, k: nat)
    requires Inv(c, o, s) && Control(c, s) && CleanExit(s) && k < c.copySize
    ensures s.pos < c.End() ==> c.sparse
    ensures !c.sparse || IsData(c, c.readStart + k) ==>
              && c.readStart + k < |c.input| && c.writeStart + k < |s.out|
              && At(s.out, c.writeStart + k) == c.input[c.readStart + k]
    ensures c.sparse && !IsData(c, c.readStart + k) ==> At(s.out, c.writeStart + k) == At(o, c.writeStart + k)
  {
    AllSettled(c, o, s);
    if k < |s.fate| {
      assert FateOk(c, o, s.out, s.fate[k], k);
    } else {
      assert At(s.out, c.writeStart + k) == At(o, c.writeStart + k);
    }
  }

  /** The output after a clean exit, byte for byte, with its length. */
  lemma CleanExitOutput(c: Config, o: seq<byte>, s: Job)
    requires Inv(c, o, s) && Control(c, s) && CleanExit(s)
    ensures c.End() <= |c.input| || c.copySize == 0
    ensures c.copySize > 0 ==> forall q: nat :: At(s.out, q) == Expected(c, o, q)
    ensures c.copySize == 0 ==> s.out == o
    ensures c.copySize > 0 && (!c.sparse || c.outKind == File) ==> |s.out| == Max(|o|, c.writeStart + c.copySize)
  {
    if c.copySize > 0 {
      SettledByte(c, o, s, c.copySize - 1);
      forall q: nat ensures At(s.out, q) == Expected(c, o, q) {
        if c.writeStart <= q < c.writeStart + c.copySize {
          SettledByte(c, o, s, q - c.writeStart);
        } else {
          assert At(s.out, q) == At(o, q);
        }
      }
      LastByteWritten(c, o, s);
    } else {
      forall q: nat | q < |o| ensures At(s.out, q) == At(o, q) {}
      SameBytes(s.out, o);
    }
  }

  /** The input position never rests right after a hole, so a finished copy ended with a write. */
  lemma LastByteWritten(c: Config, o: seq<byte>, s: Job)
    requires Inv(c, o, s) && Control(c, s) && CleanExit(s) && c.copySize > 0
    ensures !c.sparse || c.outKind == File ==> |s.out| >= c.writeStart + c.copySize
  {
    if s.pos == c.End() {
      AllSettled(c, o, s);
      assert FateOk(c, o, s.out, s.fate[c.copySize - 1], c.copySize - 1);
    }
  }

  // ------------------------------------------------------------------ the copy is correct

  /**
   * Dense copy: at a clean exit the output is the original output with the read region written at
   * the write region, in bytes and in length; nothing else has changed.
   */
  lemma DenseCopyCorrect(c: Config, o: seq<byte>, h: History)
    requires Legal(c, o, h) && !c.sparse && CleanExit(Final(c, o, h))
    ensures c.copySize == 0 ==> Final(c, o, h).out == o
    ensures c.copySize > 0 ==>
              c.End() <= |c.input| && Final(c, o, h).out == Store(o, c.writeStart, c.input, c.readStart, c.copySize)
  {
    hide Inv, Control, Possible, Execute, Started;
    var s := Final(c, o, h);
    AlwaysInv(c, o, h);
    AlwaysControl(c, o, h);
    CleanExitOutput(c, o, s);
    if c.copySize > 0 {
      var r := Store(o, c.writeStart, c.input, c.readStart, c.copySize);
      forall q: nat | q < |r| ensures At(s.out, q) == At(r, q) {
        assert At(s.out, q) == Expected(c, o, q);
      }
      SameBytes(s.out, r);
    }
  }

  /**
   * Sparse copy to any output: at a clean exit data bytes are copied and every other byte of the
   * output, holes included, is as it was (zero where the output had no byte).
   */
  lemma SparseCopyCorrect(c: Config, o: seq<byte>, h: History)
    requires Legal(c, o, h) && c.sparse && CleanExit(Final(c, o, h))
    ensures forall q: nat :: At(Final(c, o, h).out, q) == Expected(c, o, q)
    ensures c.copySize > 0 && c.outKind == File ==> |Final(c, o, h).out| == Max(|o|, c.writeStart + c.copySize)
  {
    AlwaysInv(c, o, h);
    AlwaysControl(c, o, h);
    CleanExitOutput(c, o, Final(c, o, h));
  }

  /** In a fresh file a skipped hole reads as the zeros it stands for. */
  lemma HolesReadAsZero(c: Config, a: seq<byte>)
    requires WellFormed(c) && c.sparse && c.copySize > 0 && |a| == c.writeStart + c.copySize
    requires forall q: nat :: At(a, q) == Expected(c, [], q)
    ensures a == Store([], c.writeStart, c.input, c.readStart, c.copySize)
  {
    var b := Store([], c.writeStart, c.input, c.readStart, c.copySize);
    forall q: nat | q < |a| ensures At(a, q) == At(b, q) {
      assert At(a, q) == Expected(c, [], q);
    }
    SameBytes(a, b);
  }

  /** A sparse copy into a fresh file leaves the very file that a dense copy leaves, holes and tail included. */
  lemma SparseRefinesDense(c: Config, hs: History, hd: History)
    requires c.sparse && c.outKind == File
    requires Legal(c, [], hs) && CleanExit(Final(c, [], hs))
    requires Legal(c.(sparse := false), [], hd) && CleanExit(Final(c.(sparse := false), [], hd))
    ensures Final(c, [], hs).out == Final(c.(sparse := false), [], hd).out
  {
    hide Inv, Control, Possible, Execute, Started;
    var d := c.(sparse := false);
    AlwaysInv(c, [], hs);
    AlwaysControl(c, [], hs);
    CleanExitOutput(c, [], Final(c, [], hs));
    DenseCopyCorrect(d, [], hd);
    if c.copySize > 0 {
      HolesReadAsZero(c, Final(c, [], hs).out);
    }
  }

  // ------------------------------------------------------------------ in every reachable state

  /**
   * In every reachable state, failed and interrupted runs included, all bytes outside the write
   * region are unchanged, although whole blocks are written; a block device keeps its size.
   */
  lemma OutsideUntouched(c: Config, o: seq<byte>, h: History, q: nat)
    requires Legal(c, o, h) && (q < c.writeStart || q >= c.writeStart + c.copySize)
    ensures At(Final(c, o, h).out, q) == At(o, q)
    ensures c.outKind == Bdev ==> |Final(c, o, h).out| == |o|
  {
    AlwaysInv(c, o, h);
  }
}
