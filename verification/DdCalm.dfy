/** Runs in which nothing fails, step by step. */
module DdCalm {
  import opened Bytes
  import opened DdSpec
  import opened DdRuns

  /** Nobody interrupts, every transfer is full, every call succeeds. */
  ghost predicate Gentle(s: Job, v: Event) {
    && v != Interrupt
    && (v.Done? ==> v.env == OK && v.i < |s.slots| && v.res == s.slots[v.i].size)
    && (v.SeekDone? ==> v.env == OK)
  }

  ghost predicate Calm(c: Config, s: Job, events: seq<Event>)
    requires c.outBlock > 0 && c.inBlock > 0
    decreases |events|
  {
    events != [] ==>
      && Enabled(c, s, events[0]) && !SilentEvent(c, s, events[0]) && Gentle(s, events[0])
      && Calm(c, Step(c, s, events[0]), events[1..])
  }

  ghost predicate CalmRun(c: Config, o: seq<byte>, h: History) {
    && Legal(c, o, h) && !h.interrupted && (forall k :: 0 <= k < |h.envs| ==> h.envs[k] == OK)
    && Calm(c, Started(c, o, h), h.events)
  }

  /** A calm run from `s` through `events` ends in `t`. */
  ghost predicate Leads(c: Config, s: Job, events: seq<Event>, t: Job)
    requires c.outBlock > 0 && c.inBlock > 0
  {
    Calm(c, s, events) && Possible(c, s, events) && Execute(c, s, events) == t
  }

  lemma Here(c: Config, s: Job)
    requires c.outBlock > 0 && c.inBlock > 0
    ensures Leads(c, s, [], s)
  {}

  lemma Then(c: Config, s: Job, v: Event, events: seq<Event>, t: Job)
    requires c.outBlock > 0 && c.inBlock > 0 && Enabled(c, s, v) && !SilentEvent(c, s, v) && Gentle(s, v)
    requires Leads(c, Step(c, s, v), events, t)
    ensures Leads(c, s, [v] + events, t)
  {
    hide Step, Enabled, Gentle;
    assert ([v] + events)[1..] == events;
  }

  lemma {:induction false} Append(c: Config, s: Job, a: seq<Event>, t: Job, b: seq<Event>, u: Job)
    requires c.outBlock > 0 && c.inBlock > 0 && Leads(c, s, a, t) && Leads(c, t, b, u)
    ensures Leads(c, s, a + b, u)
    decreases |a|
  {
    hide Step, Enabled, Gentle, SilentEvent;
    if a == [] {
      assert a + b == b;
    } else {
      Append(c, Step(c, s, a[0]), a[1..], t, b, u);
      assert (a + b)[1..] == a[1..] + b;
    }
  }

  lemma MovesAreHeard(c: Config, s: Job, i: nat, n: nat)
    requires Enabled(c, s, Move(i, n))
    ensures !SilentEvent(c, s, Move(i, n)) && Gentle(s, Move(i, n))
  {}

  /** The output device holds the write region. */
  ghost predicate Holds(c: Config, o: seq<byte>) {
    c.outKind == Bdev ==>
      && c.outBlock > 0 && c.writeStart % c.outBlock == 0 && |o| % c.outBlock == 0
      && c.writeStart + c.copySize <= |o|
  }

  /** A history that hands out zeroed buffers and lets every call succeed. */
  function Quietly(c: Config, events: seq<Event>): History {
    History(seq(c.depth, _ => Zeros(c.unit)), false, seq(c.depth, _ => OK), events)
  }
}
