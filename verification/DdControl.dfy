/** When the copy exits, how often, and what a clean exit implies. */
module DdControl {
  import opened Bytes
  import opened DdSpec
  import opened DdInvariant
  import opened DdCalls
  import opened DdRuns

  /** Nothing is left to read. */
  ghost predicate Quiet(c: Config, s: Job) {
    s.pos == c.End() || (c.sparse && forall p :: s.pos <= p < |c.isData| ==> !c.isData[p])
  }

  /** A chunk is given up only when an error or an interrupt is on record. */
  ghost predicate NoLoss(s: Job) {
    s.Clean() ==> forall k :: 0 <= k < |s.fate| ==> s.fate[k] != Lost && s.fate[k] != Abandoned
  }

  /** A trailing hole is part of the output file once the copy is over. */
  ghost predicate Sized(c: Config, s: Job) {
    s.pos < c.End() && c.outKind == File ==> |s.out| >= c.writeStart + c.copySize
  }

  /** How one call ends: it leaves I/O in flight, or it exits once with nothing outstanding. */
  ghost predicate Ends(c: Config, s: Job, t: Job) {
    && (t.Clean() ==> s.Clean())
    && (NoLoss(s) ==> NoLoss(t))
    && (t.exits == s.exits || (|t.exits| == |s.exits| + 1 && t.outstanding == 0))
    && (t.exits != s.exits && t.Clean() ==> Quiet(c, t) && Sized(c, t))
    && (!c.SparseBdev() && t.exits == s.exits ==> t.outstanding >= 1)
  }

  lemma DropEnds(s: Job, i: nat, f: Fate)
    requires i < |s.slots| && NoLoss(s) && (f == Written || !s.Clean())
    ensures NoLoss(Drop(s, i, f))
  {}

  lemma WriteEnds(c: Config, s: Job, i: nat, e: Env)
    requires c.outBlock > 0 && i < |s.slots| && s.outstanding >= 0
    ensures Ends(c, s, Write(c, s, i, e))
  {}

  lemma ReadEnds(c: Config, s: Job, i: nat, e: Env)
    requires i < |s.slots| && s.outstanding >= 0
    ensures Ends(c, s, Read(c, s, i, e))
  {}

  lemma ClaimEnds(c: Config, s: Job, i: nat, e: Env)
    requires c.outBlock > 0 && i < |s.slots| && s.outstanding >= 0 && s.Clean()
    ensures Ends(c, s, Claimed(c, s, i, e))
  {
    var u := Claim(s, i);
    assert NoLoss(s) ==> NoLoss(u);
    if s.slots[i].length % c.outBlock == 0 { ReadEnds(c, u, i, e); }
  }

  lemma PopulateEnds(c: Config, s: Job, i: nat, e: Env)
    requires WellFormed(c) && i < |s.slots| && s.outstanding >= 0 && c.readStart <= s.pos <= c.End()
    requires s.slots[i].length > 0 || s.pos == c.End()
    ensures Ends(c, s, Populate(c, s, i, e))
  {
    PopulateCut(c, s, i, e);
    var length := Min(s.slots[i].length, c.End() - s.pos);
    var t := s.(slots := s.slots[i := s.slots[i].(offset := s.pos, length := length)]);
    if length != 0 && s.Clean() { ClaimEnds(c, t, i, e); }
  }

  lemma FinalizeEnds(c: Config, s: Job, e: Env)
    requires s.outstanding >= 0 && Quiet(c, s)
    ensures Ends(c, s, Finalize(c, s, e))
  {}

  lemma SeekFileEnds(c: Config, s: Job, i: nat, e: Env)
    requires WellFormed(c) && i < |s.slots| && s.outstanding >= 0 && c.readStart <= s.pos <= c.End() && c.sparse
    requires s.Clean()
    ensures Ends(c, s, SeekFile(c, s, i, e))
  {
    var d := NextData(c.isData, s.pos);
    if e.seekDataErr == 0 && d >= |c.isData| {
      FinalizeEnds(c, s, e);
    } else if e.seekDataErr == 0 {
      var t := Skip(s, d);
      assert NoLoss(s) ==> NoLoss(t);
      if e.seekHoleErr == 0 {
        var h := NextHole(c.isData, t.pos);
        PopulateEnds(c, WithLength(t, i, ChunkLength(c, t.pos, h)), i, e);
      }
    }
  }

  lemma SeekEnds(c: Config, s: Job, i: nat, e: Env)
    requires WellFormed(c) && i < |s.slots| && s.outstanding >= 0 && c.readStart <= s.pos <= c.End()
    requires !c.sparse ==> s.slots[i].length == c.unit || s.pos + s.slots[i].length >= c.End()
    ensures Ends(c, s, Seek(c, s, i, e))
    ensures c.SparseBdev() && Seek(c, s, i, e).exits != s.exits && Seek(c, s, i, e).Clean() ==> s.pos == c.End()
  {
    NoWrap(c, s.pos);
    if !c.sparse {
      PopulateEnds(c, s, i, e);
    } else if s.pos == c.End() || !s.Clean() {
    } else if c.inKind == File {
      SeekFileEnds(c, s, i, e);
    }
  }

  /** Called again after it stopped, dd_target_seek only exits again. */
  lemma SeekStopped(c: Config, s: Job, i: nat, e: Env)
    requires WellFormed(c) && i < |s.slots| && s.outstanding == 0 && c.readStart <= s.pos <= c.End()
    requires !s.Clean() || (Quiet(c, s) && Sized(c, s) && (c.SparseBdev() ==> s.pos == c.End()))
    ensures var t := Seek(c, s, i, e);
            && |t.exits| == |s.exits| + 1 && t.outstanding == 0 && t.pos == s.pos
            && (t.Clean() ==> s.Clean() && Quiet(c, t) && Sized(c, t)) && (NoLoss(s) ==> NoLoss(t))
  {
    NoWrap(c, s.pos);
    if !c.sparse { PopulateCut(c, s, i, e); }
  }

  // ------------------------------------------------------------------ callbacks

  lemma CompleteEnds(c: Config, s: Job, i: nat, res: int, e: Env)
    requires WellFormed(c) && c.readStart <= s.pos <= c.End() && i < |s.slots| && SlotOk(c, s, s.slots[i])
    requires s.slots[i].Transferring() && s.outstanding >= 1
    requires (res < 0 || res == s.slots[i].served) && !Silent(c, s, i, res)
    ensures Ends(c, s, Complete(c, s, i, res, e))
  {
    hide RoundUp;
    var sl := s.slots[i];
    var t := Land(s.(error := ErrorAfter(c, s.error, sl, res)), i);
    if sl.phase == Populating {
      ReadEnds(c, t, i, e);
    } else if sl.phase == Reading {
      WriteEnds(c, t, i, e);
    } else {
      var f := if sl.served == sl.size then Written else Lost;
      if t.Clean() { ServedWhenClean(c, s, i, res); }
      if NoLoss(s) { DropEnds(t, i, f); }
      SeekEnds(c, Drop(t, i, f), i, e);
    }
  }

  lemma DataSoughtEnds(c: Config, s: Job, i: nat, found: bool, p: nat, e: Env)
    requires c.SparseBdev() && c.inBlock > 0 && i < |s.slots| && s.Clean() && s.outstanding >= 1
    requires !found ==> Quiet(c, s)
    ensures Ends(c, s, DataSought(c, s, i, found, p, e))
  {
    var t := LandSeek(s, i);
    if found {
      assert NoLoss(s) ==> NoLoss(Skip(t, p));
    } else {
      FinalizeEnds(c, Dequeue(t, i), e);
    }
  }

  lemma SeekDataDoneEnds(c: Config, s: Job, i: nat, e: Env)
    requires c.SparseBdev() && c.inBlock > 0 && i < |s.slots| && s.slots[i].at * c.inBlock == s.pos
    requires s.outstanding >= 1
    ensures Ends(c, s, SeekDataDone(c, s, i, e))
  {
    if s.Clean() {
      var d := NextData(c.isData, s.pos);
      DataSoughtEnds(c, s, i, d < |c.isData|, RoundDown(d, c.inBlock), e);
    }
  }

  lemma HoleSoughtEnds(c: Config, s: Job, i: nat, length: nat, e: Env)
    requires WellFormed(c) && c.readStart <= s.pos < c.End() && i < |s.slots| && length > 0 && s.Clean()
    requires s.outstanding >= 1
    requires forall k :: 0 <= k < |s.queue| ==> s.queue[k] < |s.slots|
    ensures var t := HoleSought(c, s, i, length, e); (t.Clean() ==> t.exits == s.exits) && (NoLoss(s) ==> NoLoss(t))
  {
    var t := WithLength(Dequeue(LandSeek(s, i), i), i, length);
    PopulateEnds(c, t, i, e);
    PopulateBusy(c, t, i, e);
    NextSeekEnds(c, Populate(c, t, i, e), e);
  }

  /** A call that answers the hole seek never exits cleanly: there is data to copy. */
  lemma SeekHoleDoneEnds(c: Config, s: Job, i: nat, e: Env)
    requires WellFormed(c) && PosOk(c, s) && c.SparseBdev() && i < |s.slots| && s.slots[i].at * c.inBlock == s.pos
    requires s.pos < |c.isData| && c.isData[s.pos] && s.outstanding >= 1
    requires forall k :: 0 <= k < |s.queue| ==> s.queue[k] < |s.slots|
    ensures var t := SeekHoleDone(c, s, i, e);
            && (t.Clean() ==> s.Clean() && t.exits == s.exits) && (NoLoss(s) ==> NoLoss(t))
  {
    if s.Clean() {
      HoleLengthPositive(c, s, i);
      HoleSoughtEnds(c, s, i, HoleLength(c, s, i), e);
    }
  }

  lemma NextSeekEnds(c: Config, s: Job, e: Env)
    requires c.inBlock > 0 && forall k :: 0 <= k < |s.queue| ==> s.queue[k] < |s.slots|
    ensures var t := NextSeek(c, s, e); (t.Clean() ==> s.Clean() && t.exits == s.exits) && t.fate == s.fate
  {}

  lemma HoleLengthPositive(c: Config, s: Job, i: nat)
    requires WellFormed(c) && PosOk(c, s) && c.SparseBdev() && i < |s.slots| && s.slots[i].at * c.inBlock == s.pos
    requires s.pos < |c.isData| && c.isData[s.pos]
    ensures HoleLength(c, s, i) > 0
  {
    var h := NextHole(c.isData, s.pos);
    if h < |c.isData| {
      HoleFits(c, s, h);
      HoleBlocks(c, s, i, h);
    }
  }

  /** With bytes left and no error, the call starts an I/O and does not exit. */
  lemma PopulateBusy(c: Config, s: Job, i: nat, e: Env)
    requires WellFormed(c) && i < |s.slots| && s.outstanding >= 0 && c.readStart <= s.pos < c.End()
    requires s.slots[i].length > 0 && s.Clean()
    ensures Populate(c, s, i, e).Clean() ==> Populate(c, s, i, e).exits == s.exits
  {
    PopulateCut(c, s, i, e);
  }
}
