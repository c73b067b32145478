/** A sparse copy with a count: a seek may jump past the end of the copy, where the bytes left wrap around. */
module DdCounted {
  import opened Bytes
  import opened DdSpec

  /** A sparse file copy that need not reach the end of the input; nothing is near 2^64. */
  ghost predicate Counted(c: Config) {
    && c.sparse && c.inKind == File && c.unit > 0 && c.outBlock > 0 && c.inBlock > 0
    && c.End() < U64 / 2 && |c.isData| < U64 / 2 && c.unit < U64 / 4
  }

  /** `copy_size - read_offset` is what is left of the copy exactly as long as the position is not past its end. */
  lemma LeftExactIff(c: Config, p: nat)
    requires Counted(c) && c.readStart <= p < U64 / 2
    ensures Sub64(c.copySize, Sub64(p, c.readStart)) == c.End() - p <==> p <= c.End()
    ensures p > c.End() ==> Sub64(c.copySize, Sub64(p, c.readStart)) == U64 - (p - c.End())
  {}

  /**
   * One call of dd_target_seek from inside the copy. It stays inside if and only if the next data does not lie past the
   * end of the copy; otherwise the slot takes a whole chunk there, as if the copy had no end.
   */
  lemma CountedSeekStaysIff(c: Config, s: Job, i: nat, e: Env)
    requires Counted(c) && i < |s.slots| && s.Clean() && c.readStart <= s.pos < c.End()
    requires e.seekDataErr == 0 && e.seekHoleErr == 0 && NextData(c.isData, s.pos) < |c.isData|
    ensures var d, t := NextData(c.isData, s.pos), Seek(c, s, i, e);
            && (t.pos <= c.End() <==> d <= c.End())
            && (d > c.End() ==> t.pos == d + ChunkLength(c, d, NextHole(c.isData, d)) > d)
  {
    hide RoundUp, Sub64, Populate;
    var d := NextData(c.isData, s.pos);
    var h := NextHole(c.isData, d);
    LeftExactIff(c, s.pos);
    LeftExactIff(c, d);
    var u := WithLength(Skip(s, d), i, ChunkLength(c, d, h));
    ChunkIsSmall(c, d, h);
    TakesWhatIsLeft(c, u, i, e);
  }

  lemma ChunkIsSmall(c: Config, d: nat, h: nat)
    requires Counted(c)
    ensures 0 < ChunkLength(c, d, h) <= c.unit
  {}

  /** The populate moves the position by the chunk, cut to what the subtraction says is left. */
  lemma TakesWhatIsLeft(c: Config, s: Job, i: nat, e: Env)
    requires c.outBlock > 0 && i < |s.slots| && s.Clean()
    ensures Populate(c, s, i, e).pos == s.pos + Min(s.slots[i].length, Sub64(c.copySize, Sub64(s.pos, c.readStart)))
  {
    hide RoundUp, Sub64, Target;
  }
}
