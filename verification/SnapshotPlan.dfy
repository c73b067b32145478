/**
 * What a snapshot request goes through and how it ends, told from outside: from what was asked and what the blobstore
 * answered, without looking at the contexts or the history of the world.
 */
module SnapshotPlan {
  import opened Snapshot

  /** An operation that has come back. */
  datatype Taken = Taken(stage: Stage, answer: Answer) {
    /** The chain goes on after it. */
    predicate Goes() {
      && answer.rc == 0 && (stage == OpenClone ==> answer.readOnlyRc == 0)
      && (stage == Decouple ==> answer.copyRc == 0)
    }
  }

  /** The requests; request number `id` is the one at index `id`. */
  function Requests(past: seq<Event>): seq<Event> {
    if past == [] then []
    else
      var n := |past| - 1;
      Requests(past[..n]) + (if past[n].Request? then [past[n]] else [])
  }

  /** The operations of request `id` that have come back, in order. */
  function Trail(past: seq<Event>, id: nat): seq<Taken> {
    if past == [] then []
    else
      var n := |past| - 1;
      Trail(past[..n], id) + TakenBy(past[n], id)
  }

  function TakenBy(v: Event, id: nat): seq<Taken> {
    if v.Callback? && v.op.id == id then [Taken(v.op.stage, v.answer)] else []
  }

  /** Without a path the blobstore snapshot is all; with one its clone is copied into a delta file. */
  function Plan(hasPath: bool): seq<Stage> {
    if hasPath then [CreateSnapshot, CreateClone, OpenClone, CloseClone, Decouple, Copy] else [CreateSnapshot]
  }

  /** The steps came in the order of the plan, each after the success of the one before. */
  predicate Follows(plan: seq<Stage>, t: seq<Taken>) {
    |t| <= |plan| && forall j :: 0 <= j < |t| ==> t[j].stage == plan[j] && (j < |t| - 1 ==> t[j].Goes())
  }

  /** The operation in flight, if any. */
  function Next(plan: seq<Stage>, t: seq<Taken>): seq<Stage> {
    if |t| < |plan| && (t == [] || t[|t| - 1].Goes()) then [plan[|t|]] else []
  }

  /** How the request was settled, if it is, when `k` was the last to come back. */
  function EndBy(hasPath: bool, k: Taken): seq<End> {
    if k.stage == Copy then [Accepted]
    else if k.answer.rc != 0 then [Failed(k.answer.rc, StepFailed(k.stage))]
    else if k.stage == OpenClone && k.answer.readOnlyRc != 0 then [Failed(k.answer.readOnlyRc, NotReadOnly)]
    else if k.stage == CreateSnapshot && !hasPath then [Plain]
    else if k.stage == Decouple then [if k.answer.copyRc == 0 then Accepted else Refused(k.answer.copyRc)]
    else []
  }

  function Told(hasPath: bool, t: seq<Taken>): seq<End> {
    if t == [] then [] else EndBy(hasPath, t[|t| - 1])
  }

  /** The context that the answers so far make. */
  function ContextOf(r: Event, t: seq<Taken>): Context
    requires r.Request?
  {
    Context(r.dev, r.hasPath, if |t| > 0 then t[0].answer.blob else 0, if |t| > 1 then t[1].answer.blob else 0,
            |t| > 0, |t| > 4)
  }

  /** The settled end of request `id` is the one in `told`. */
  ghost predicate EndsAs(w: World, id: nat, told: seq<End>) {
    (id in w.ends <==> told != []) && (id in w.ends ==> told == [w.ends[id]])
  }

  ghost predicate InFlight(w: World, id: nat, next: seq<Stage>) {
    if next == [] then Quiet(w, id) else Waits(w, id, next[0])
  }

  /** The world agrees with the request and its trail about request `id`. */
  ghost predicate Agrees(w: World, id: nat, r: Event, t: seq<Taken>)
    requires r.Request?
  {
    && EndsAs(w, id, Told(r.hasPath, t)) && InFlight(w, id, Next(Plan(r.hasPath), t))
    && (id in w.contexts <==> Next(Plan(r.hasPath), t) != [] || (id in w.ends && w.ends[id].Refused?))
    && (id in w.contexts ==> w.contexts[id] == ContextOf(r, t))
  }

  /** What the world holds of request `id`, on one of the devices `known`, is what the events say. */
  ghost predicate Followed(known: set<nat>, w: World, past: seq<Event>, id: nat) {
    && id < |Requests(past)| && Requests(past)[id].Request?
    && var r, t := Requests(past)[id], Trail(past, id);
       if r.dev !in known then t == [] && EndsAs(w, id, [Absent]) && Quiet(w, id) && id !in w.contexts
       else
         Follows(Plan(r.hasPath), t) && Agrees(w, id, r, t)
  }

  ghost predicate AllFollowed(known: set<nat>, w: World, past: seq<Event>) {
    && w.devices.Keys == known && |Requests(past)| == w.asked
    && (forall id: nat :: id < w.asked ==> Followed(known, w, past, id))
    && (forall id: nat :: id >= w.asked ==> Trail(past, id) == [])
  }

  lemma LogsAppend(past: seq<Event>, v: Event, id: nat)
    ensures Requests(past + [v]) == Requests(past) + (if v.Request? then [v] else [])
    ensures Trail(past + [v], id) == Trail(past, id) + TakenBy(v, id)
  {
    assert (past + [v])[..|past|] == past;
  }

  // ------------------------------------------------------------------ one step

  /** Nothing that the plan of request `x` speaks of differs. */
  ghost predicate Kept(w: World, v: World, x: nat) {
    && (x in w.contexts <==> x in v.contexts) && (x in w.contexts ==> w.contexts[x] == v.contexts[x])
    && (x in w.ends <==> x in v.ends) && (x in w.ends ==> w.ends[x] == v.ends[x])
    && forall s: Stage :: w.pending[Op(x, s)] == v.pending[Op(x, s)]
  }

  lemma KeptFollowed(known: set<nat>, w: World, v: World, past: seq<Event>, e: Event, x: nat)
    requires Followed(known, w, past, x) && Kept(w, v, x) && TakenBy(e, x) == []
    ensures Followed(known, v, past + [e], x)
  {
    hide Requests, Trail, Plan, Told, Next, Follows, ContextOf;
    LogsAppend(past, e, x);
    assert Requests(past + [e])[x] == Requests(past)[x];
    assert Trail(past + [e], x) == Trail(past, x);
  }

  lemma AskFollowed(known: set<nat>, w: World, past: seq<Event>, e: Event)
    requires AllFollowed(known, w, past) && Unknown(w, w.asked) && e.Request?
    ensures Followed(known, Ask(w, e.dev, e.hasPath), past + [e], w.asked)
  {
    hide Requests, Trail, Answers, Frees;
    var id, v := w.asked, Ask(w, e.dev, e.hasPath);
    LogsAppend(past, e, id);
    assert Requests(past + [e])[id] == e && Trail(past + [e], id) == [];
    if e.dev in known { assert Waits(v, id, CreateSnapshot); }
  }

  lemma AbortEffect(w: World, id: nat, rc: int, why: Why)
    requires id in w.contexts && w.contexts[id].dev in w.devices
    ensures var v := Abort(w, id, rc, why);
            && v.ends == w.ends[id := Failed(rc, why)] && v.contexts == w.contexts - {id} && v.pending == w.pending
            && v.asked == w.asked && v.devices.Keys == w.devices.Keys
  {}

  lemma StartCopyEffect(w: World, id: nat, a: Answer)
    requires id in w.contexts && w.contexts[id].dev in w.devices
    ensures var v := StartCopy(w, id, a);
            && v.ends == w.ends[id := if a.copyRc == 0 then Accepted else Refused(a.copyRc)]
            && v.contexts == w.contexts[id := w.contexts[id].(delta := true)]
            && v.pending == (if a.copyRc == 0 then w.pending + multiset{Op(id, Copy)} else w.pending)
            && v.asked == w.asked && v.devices.Keys == w.devices.Keys
  {}

  lemma CopyEndedEffect(w: World, id: nat, rc: int)
    requires id in w.contexts && w.contexts[id].dev in w.devices
    ensures var v := CopyEnded(w, id, rc);
            && v.ends == w.ends && v.contexts == w.contexts && v.pending == w.pending
            && v.asked == w.asked && v.devices.Keys == w.devices.Keys
  {}

  /** What a callback leaves of its request, and that it touches no other. */
  ghost predicate Effect(w: World, v: World, id: nat, ends: map<nat, End>, contexts: map<nat, Context>,
                         next: multiset<Op>) {
    && v.ends == ends && v.contexts == contexts && v.pending == w.pending + next
    && v.asked == w.asked && v.devices.Keys == w.devices.Keys
  }

  lemma ReactFails(w: World, op: Op, a: Answer)
    requires op.id in w.contexts && w.contexts[op.id].dev in w.devices && op.stage != Copy
    requires a.rc != 0 || (op.stage == OpenClone && a.readOnlyRc != 0)
    ensures var end := if a.rc != 0 then Failed(a.rc, StepFailed(op.stage)) else Failed(a.readOnlyRc, NotReadOnly);
            Effect(w, React(w, op, a), op.id, w.ends[op.id := end], w.contexts - {op.id}, multiset{})
  {
    hide Abort;
    AbortEffect(w, op.id, a.rc, StepFailed(op.stage));
    AbortEffect(w.(clones := w.clones + {op.id}), op.id, a.readOnlyRc, NotReadOnly);
  }

  lemma ReactGoes(w: World, op: Op, a: Answer)
    requires op.id in w.contexts && w.contexts[op.id].dev in w.devices && a.rc == 0
    requires op.stage != Copy && op.stage != Decouple && (op.stage == OpenClone ==> a.readOnlyRc == 0)
    requires op.stage == CreateSnapshot ==> w.contexts[op.id].hasPath
    ensures var id, c := op.id, w.contexts[op.id];
            var d := match op.stage
              case CreateSnapshot => c.(snapshotBlob := a.blob, channel := true)
              case CreateClone => c.(cloneBlob := a.blob)
              case _ => c;
            var next := match op.stage
              case CreateSnapshot => CreateClone case CreateClone => OpenClone
              case OpenClone => CloseClone case _ => Decouple;
            Effect(w, React(w, op, a), id, w.ends, w.contexts[id := d], multiset{Op(id, next)})
  {
    hide Abort, StartCopy, CopyEnded, Cleanup, Respond;
    assert w.contexts[op.id := w.contexts[op.id]] == w.contexts;
  }

  lemma ReactCopies(w: World, op: Op, a: Answer)
    requires op.id in w.contexts && w.contexts[op.id].dev in w.devices && a.rc == 0 && op.stage == Decouple
    ensures Effect(w, React(w, op, a), op.id,
                   w.ends[op.id := if a.copyRc == 0 then Accepted else Refused(a.copyRc)],
                   w.contexts[op.id := w.contexts[op.id].(delta := true)],
                   if a.copyRc == 0 then multiset{Op(op.id, Copy)} else multiset{})
  {
    hide Abort, StartCopy, CopyEnded, Cleanup, Respond;
    StartCopyEffect(w, op.id, a);
  }

  lemma ReactReleases(w: World, op: Op, a: Answer)
    requires op.id in w.contexts && w.contexts[op.id].dev in w.devices
    requires op.stage == Copy || (op.stage == CreateSnapshot && a.rc == 0 && !w.contexts[op.id].hasPath)
    ensures Effect(w, React(w, op, a), op.id, if op.stage == Copy then w.ends else w.ends[op.id := Plain],
                   w.contexts - {op.id}, multiset{})
  {
    hide Abort, StartCopy, CopyEnded;
    CopyEndedEffect(w, op.id, a.rc);
  }

  /** What the plan says after one more answer. */
  lemma PlanMoves(hasPath: bool, t: seq<Taken>, k: Taken)
    requires Follows(Plan(hasPath), t) && Next(Plan(hasPath), t) == [k.stage]
    ensures var plan, u := Plan(hasPath), t + [k];
            && |t| < |plan| && plan[|t|] == k.stage && Follows(plan, u)
            && Told(hasPath, t) == (if k.stage == Copy then [Accepted] else [])
            && Next(plan, u) == if k.Goes() && |u| < |plan| then [plan[|u|]] else []
  {}

  /** One operation has left the flight, and perhaps another has entered it. */
  lemma FlightMoves(w: World, v: World, op: Op, next: seq<Stage>)
    requires Waits(w, op.id, op.stage) && |next| <= 1
    requires v.pending == w.pending - multiset{op} + if next == [] then multiset{} else multiset{Op(op.id, next[0])}
    ensures InFlight(v, op.id, next)
  {}

  /** The operation in flight for request `id` is the one that the plan has next. */
  ghost predicate Ready(w: World, op: Op, r: Event, t: seq<Taken>) {
    && r.Request? && Next(Plan(r.hasPath), t) == [op.stage] && Waits(w, op.id, op.stage)
    && Follows(Plan(r.hasPath), t) && EndsAs(w, op.id, Told(r.hasPath, t))
    && op.id in w.contexts && w.contexts[op.id] == ContextOf(r, t) && r.dev in w.devices
  }

  lemma ReleasesAgrees(w: World, op: Op, a: Answer, r: Event, t: seq<Taken>)
    requires Ready(w, op, r, t) && (op.stage == Copy || (op.stage == CreateSnapshot && a.rc == 0 && !r.hasPath))
    ensures Agrees(React(w.(pending := w.pending - multiset{op}), op, a), op.id, r, t + [Taken(op.stage, a)])
  {
    hide React, Follows, Waits, InFlight;
    PlanMoves(r.hasPath, t, Taken(op.stage, a));
    ReactReleases(w.(pending := w.pending - multiset{op}), op, a);
    FlightMoves(w, React(w.(pending := w.pending - multiset{op}), op, a), op, []);
  }

  lemma FailsAgrees(w: World, op: Op, a: Answer, r: Event, t: seq<Taken>)
    requires Ready(w, op, r, t) && op.stage != Copy && (a.rc != 0 || (op.stage == OpenClone && a.readOnlyRc != 0))
    ensures Agrees(React(w.(pending := w.pending - multiset{op}), op, a), op.id, r, t + [Taken(op.stage, a)])
  {
    hide React, Follows, Waits, InFlight, Plan;
    PlanMoves(r.hasPath, t, Taken(op.stage, a));
    ReactFails(w.(pending := w.pending - multiset{op}), op, a);
    FlightMoves(w, React(w.(pending := w.pending - multiset{op}), op, a), op, []);
  }

  lemma CopiesAgrees(w: World, op: Op, a: Answer, r: Event, t: seq<Taken>)
    requires Ready(w, op, r, t) && op.stage == Decouple && a.rc == 0
    ensures Agrees(React(w.(pending := w.pending - multiset{op}), op, a), op.id, r, t + [Taken(op.stage, a)])
  {
    hide React, Follows, Waits, InFlight;
    PlanMoves(r.hasPath, t, Taken(op.stage, a));
    ReactCopies(w.(pending := w.pending - multiset{op}), op, a);
    FlightMoves(w, React(w.(pending := w.pending - multiset{op}), op, a), op, if a.copyRc == 0 then [Copy] else []);
  }

  lemma GoesAgrees(w: World, op: Op, a: Answer, r: Event, t: seq<Taken>)
    requires Ready(w, op, r, t) && Taken(op.stage, a).Goes() && op.stage != Decouple && op.stage != Copy
    requires op.stage == CreateSnapshot ==> r.hasPath
    ensures Agrees(React(w.(pending := w.pending - multiset{op}), op, a), op.id, r, t + [Taken(op.stage, a)])
  {
    hide React, Follows, Waits, InFlight;
    var u := w.(pending := w.pending - multiset{op});
    PlanMoves(r.hasPath, t, Taken(op.stage, a));
    ReactGoes(u, op, a);
    FlightMoves(w, React(u, op, a), op, [Plan(r.hasPath)[|t| + 1]]);
  }

  /** The callback of the operation that the plan has next leads to what the plan says after its answer. */
  lemma ReactAgrees(w: World, op: Op, a: Answer, r: Event, t: seq<Taken>)
    requires Ready(w, op, r, t)
    ensures Follows(Plan(r.hasPath), t + [Taken(op.stage, a)])
    ensures Agrees(React(w.(pending := w.pending - multiset{op}), op, a), op.id, r, t + [Taken(op.stage, a)])
  {
    hide React, Agrees;
    PlanMoves(r.hasPath, t, Taken(op.stage, a));
    if op.stage == Copy || (op.stage == CreateSnapshot && a.rc == 0 && !r.hasPath) {
      ReleasesAgrees(w, op, a, r, t);
    } else if a.rc != 0 || (op.stage == OpenClone && a.readOnlyRc != 0) {
      FailsAgrees(w, op, a, r, t);
    } else if op.stage == Decouple {
      CopiesAgrees(w, op, a, r, t);
    } else {
      GoesAgrees(w, op, a, r, t);
    }
  }

  lemma ReactFollowed(known: set<nat>, w: World, past: seq<Event>, op: Op, a: Answer)
    requires Followed(known, w, past, op.id) && op in w.pending && w.devices.Keys == known
    requires op.id in w.contexts && w.contexts[op.id].dev in w.devices
    ensures Followed(known, React(w.(pending := w.pending - multiset{op}), op, a), past + [Callback(op, a)], op.id)
  {
    hide Requests, Trail, Plan, Told, Follows, React;
    var id, e := op.id, Callback(op, a);
    var r, t := Requests(past)[id], Trail(past, id);
    LogsAppend(past, e, id);
    assert w.pending[op] > 0;
    assert Requests(past + [e])[id] == r && Trail(past + [e], id) == t + [Taken(op.stage, a)];
    ReactAgrees(w, op, a, r, t);
  }

  /** A callback touches no other request, no other device and no number not asked yet. */
  lemma ReactElsewhere(w: World, op: Op, a: Answer, x: nat)
    requires op.id in w.contexts && w.contexts[op.id].dev in w.devices && x != op.id
    ensures var v := React(w.(pending := w.pending - multiset{op}), op, a);
            Kept(w, v, x) && v.asked == w.asked && v.devices.Keys == w.devices.Keys
  {
    hide React;
    var u := w.(pending := w.pending - multiset{op});
    if op.stage == Copy || (op.stage == CreateSnapshot && a.rc == 0 && !w.contexts[op.id].hasPath) {
      ReactReleases(u, op, a);
    } else if a.rc != 0 || (op.stage == OpenClone && a.readOnlyRc != 0) {
      ReactFails(u, op, a);
    } else if op.stage == Decouple {
      ReactCopies(u, op, a);
    } else {
      ReactGoes(u, op, a);
    }
  }

  lemma OtherEventsElsewhere(w: World, e: Event, x: nat)
    requires Enabled(w, e) && Safe(w, e) && !e.Callback? && (e.Request? ==> x != w.asked)
    ensures Kept(w, Step(w, e), x)
  {}

  lemma StepFrame(w: World, e: Event)
    requires Enabled(w, e) && Safe(w, e)
    ensures Step(w, e).asked == w.asked + (if e.Request? then 1 else 0)
    ensures Step(w, e).devices.Keys == w.devices.Keys
  {
    hide React, Kept;
    if e.Callback? { ReactElsewhere(w, e.op, e.answer, e.op.id + 1); }
  }

  lemma StepFollowed(known: set<nat>, w: World, past: seq<Event>, e: Event, x: nat)
    requires Inv(w) && AllFollowed(known, w, past) && Enabled(w, e) && Safe(w, e) && x < Step(w, e).asked
    ensures Followed(known, Step(w, e), past + [e], x)
  {
    hide Followed, React, Kept, Requests, Trail, Answers, Frees;
    StepFrame(w, e);
    assert Fine(w, w.asked);
    if x == w.asked {
      AskFollowed(known, w, past, e);
    } else if e.Callback? && e.op.id == x {
      ReactFollowed(known, w, past, e.op, e.answer);
    } else {
      if e.Callback? { ReactElsewhere(w, e.op, e.answer, x); } else { OtherEventsElsewhere(w, e, x); }
      KeptFollowed(known, w, Step(w, e), past, e, x);
    }
  }

  lemma StepAllFollowed(known: set<nat>, w: World, past: seq<Event>, e: Event)
    requires Inv(w) && AllFollowed(known, w, past) && Enabled(w, e) && Safe(w, e)
    ensures AllFollowed(known, Step(w, e), past + [e])
  {
    hide Followed, Step, Inv, Requests, Trail;
    StepFrame(w, e);
    LogsAppend(past, e, 0);
    forall x: nat | x < Step(w, e).asked ensures Followed(known, Step(w, e), past + [e], x) {
      StepFollowed(known, w, past, e, x);
    }
    forall x: nat | x >= Step(w, e).asked ensures Trail(past + [e], x) == [] {
      LogsAppend(past, e, x);
      if e.Callback? { Asked(w, e.op); }
    }
  }

  /** What is in flight was asked for. */
  lemma Asked(w: World, op: Op)
    requires Inv(w) && op in w.pending
    ensures op.id < w.asked
  {
    hide Answers, Frees;
    assert Fine(w, op.id) && w.pending[Op(op.id, op.stage)] > 0;
  }

  lemma {:induction false} RunFollowed(known: set<nat>, w: World, past: seq<Event>, events: seq<Event>)
    requires Inv(w) && AllFollowed(known, w, past) && Run(w, events)
    ensures AllFollowed(known, Execute(w, events), past + events)
    decreases |events|
  {
    hide Inv, AllFollowed, Step, Enabled, Safe;
    if events == [] {
      assert past + events == past;
    } else {
      StepKeeps(w, events[0]);
      StepAllFollowed(known, w, past, events[0]);
      RunFollowed(known, Step(w, events[0]), past + [events[0]], events[1..]);
      assert past + [events[0]] + events[1..] == past + events;
    }
  }

  // ------------------------------------------------------------------ theorems

  /**
   * In every run every request follows its plan: what it waits for, how it ended and what its context holds is what
   * the trail of its answers says.
   */
  lemma SnapshotFollowsPlan(devices: map<nat, Status>, events: seq<Event>, id: nat)
    requires Idle(devices) && Run(Initial(devices), events)
    ensures var w := Execute(Initial(devices), events);
            && |Requests(events)| == w.asked
            && (id < w.asked ==> Followed(devices.Keys, w, events, id))
            && (id >= w.asked ==> Trail(events, id) == [])
  {
    hide Execute, Run;
    InitialInv(devices);
    assert [] + events == events;
    RunFollowed(devices.Keys, Initial(devices), [], events);
  }

  /** The answers that request `r` with trail `t` has been given. */
  function RepliesTo(known: set<nat>, r: Event, t: seq<Taken>): seq<int>
    requires r.Request?
  {
    if r.dev !in known then [-ENOENT]
    else if |t| == 6 then [0]
    else if t == [] then []
    else
      var k := t[|t| - 1];
      if k.answer.rc != 0 then [k.answer.rc]
      else
        match k.stage
        case OpenClone => if k.answer.readOnlyRc != 0 then [k.answer.readOnlyRc] else []
        case CreateSnapshot => if r.hasPath then [] else [0]
        case Decouple => [k.answer.copyRc]
        case _ => []
  }

  /** The context of the request has come and gone: nothing is in flight for it and its copy was not refused. */
  predicate Over(known: set<nat>, r: Event, t: seq<Taken>)
    requires r.Request?
  {
    && r.dev in known && Next(Plan(r.hasPath), t) == []
    && (t != [] ==> t[|t| - 1].stage != Decouple || t[|t| - 1].answer.rc != 0)
  }

  /** Whether and with what a request was answered, and whether its context was freed, is decided by the answers. */
  lemma OutcomeExact(devices: map<nat, Status>, events: seq<Event>, id: nat)
    requires Idle(devices) && Run(Initial(devices), events) && id < |Requests(events)|
    ensures Requests(events)[id].Request?
    ensures var w, r, t := Execute(Initial(devices), events), Requests(events)[id], Trail(events, id);
            && Answers(w.replies, id) == RepliesTo(devices.Keys, r, t)
            && Frees(w.freed, id) == if Over(devices.Keys, r, t) then 1 else 0
  {
    hide Execute, Run, Requests, Trail, Answers, Frees;
    SnapshotFollowsPlan(devices, events, id);
    InitialInv(devices);
    RunKeeps(Initial(devices), events);
    OutcomeOf(devices.Keys, Execute(Initial(devices), events), events, id);
  }

  lemma OutcomeOf(known: set<nat>, w: World, past: seq<Event>, id: nat)
    requires Inv(w) && Followed(known, w, past, id) && id < w.asked
    ensures var r, t := Requests(past)[id], Trail(past, id);
            && Answers(w.replies, id) == RepliesTo(known, r, t)
            && Frees(w.freed, id) == if Over(known, r, t) then 1 else 0
  {
    hide Requests, Trail, Answers, Frees, Handles, Busy, Clones, Quiet, Waits, InFlight;
    assert Fine(w, id);
  }

  /**
   * A request without a path whose snapshot was created is over: it is answered with 0, its context is freed once,
   * and nothing is in flight for it now or, since this holds of every run, later.
   */
  lemma PlainSnapshotEnds(devices: map<nat, Status>, events: seq<Event>, id: nat)
    requires Idle(devices) && Run(Initial(devices), events) && id < |Requests(events)|
    requires var r, t := Requests(events)[id], Trail(events, id);
             r.Request? && r.dev in devices && !r.hasPath && t != [] && t[0].answer.rc == 0
    ensures var w, t := Execute(Initial(devices), events), Trail(events, id);
            && Answers(w.replies, id) == [0] && Frees(w.freed, id) == 1 && Quiet(w, id) && id !in w.contexts
            && |t| == 1 && t[0].stage == CreateSnapshot
  {
    hide Execute, Run, Requests, Trail, Answers, Frees;
    SnapshotFollowsPlan(devices, events, id);
    OutcomeExact(devices, events, id);
  }

  /** The five steps before the copy have come back, in order and with success. */
  predicate Prepared(t: seq<Taken>) {
    |t| >= 5 && forall j :: 0 <= j < 5 ==>
      t[j].stage == Plan(true)[j] && t[j].answer.rc == 0 && (j == 2 ==> t[j].answer.readOnlyRc == 0)
  }

  /**
   * A copy is asked for, and then accepted or refused by the answer to it, exactly after a request with a path has
   * seen its snapshot created, cloned, the clone opened read-only, closed and decoupled; its delta device exists from
   * then until an accepted copy has come back.
   */
  lemma CopiesIff(devices: map<nat, Status>, events: seq<Event>, id: nat)
    requires Idle(devices) && Run(Initial(devices), events) && id < |Requests(events)|
    ensures Requests(events)[id].Request?
    ensures var w, r, t := Execute(Initial(devices), events), Requests(events)[id], Trail(events, id);
            && (id in w.ends && (w.ends[id].Accepted? || w.ends[id].Refused?) <==>
                  r.dev in devices && r.hasPath && Prepared(t))
            && (Prepared(t) ==>
                  && Answers(w.replies, id) == [t[4].answer.copyRc] && |t| <= 6
                  && (|t| == 6 ==> t[4].answer.copyRc == 0 && t[5].stage == Copy)
                  && (id in w.deltas <==> |t| == 5))
  {
    hide Execute, Run, Requests, Trail, Answers, Frees;
    SnapshotFollowsPlan(devices, events, id);
    OutcomeExact(devices, events, id);
    var w := Execute(Initial(devices), events);
    assert HandleOk(w, id) by {
      InitialInv(devices);
      RunKeeps(Initial(devices), events);
    }
    CopiesOf(devices.Keys, w, events, id);
  }

  lemma CopiesOf(known: set<nat>, w: World, past: seq<Event>, id: nat)
    requires Followed(known, w, past, id) && HandleOk(w, id)
    ensures var r, t := Requests(past)[id], Trail(past, id);
            && (id in w.ends && (w.ends[id].Accepted? || w.ends[id].Refused?) <==>
                  r.dev in known && r.hasPath && Prepared(t))
            && (Prepared(t) ==>
                  && RepliesTo(known, r, t) == [t[4].answer.copyRc]
                  && |t| <= 6 && (|t| == 6 ==> t[4].answer.copyRc == 0 && t[5].stage == Copy)
                  && (id in w.deltas <==> |t| == 5))
  {
    hide Requests, Trail, Quiet, Waits, InFlight;
  }

  // ------------------------------------------------------------------ the status of a device

  /** Whose request the event belongs to. */
  function Subject(v: Event): nat {
    match v case Request(_, _) => 0 case Callback(op, _) => op.id case Report(id, _) => id
  }

  /** The event is a step of a request for device `d`. */
  predicate Concerns(past: seq<Event>, v: Event, d: nat) {
    var n := Subject(v);
    !v.Request? && n < |Requests(past)| && Requests(past)[n].Request? && Requests(past)[n].dev == d
  }

  /** The code of the failure that the event brings, or 0. */
  function FailureIn(v: Event): int {
    if !v.Callback? then 0
    else if v.answer.rc != 0 then v.answer.rc
    else if v.op.stage == OpenClone then v.answer.readOnlyRc
    else 0
  }

  /** The event asks for a copy. */
  predicate AsksCopy(v: Event) {
    v.Callback? && v.op.stage == Decouple && v.answer.rc == 0
  }

  /** One line of an observer's notes: the copy asked for or ended, the failure, the progress, the clusters. */
  function Noted(s: Status, v: Event): Status {
    Status(if v.Callback? && v.op.stage == Copy then false else AsksCopy(v) || s.inProgress,
           if FailureIn(v) != 0 then FailureIn(v) else s.result,
           if v.Report? then v.clusters else s.copied,
           if AsksCopy(v) then v.answer.clusters else s.total)
  }

  /**
   * What an observer of the events would write down for device `d`: the last failure, the clusters of the last copy
   * asked for, the last progress report, and whether a copy was asked for after the last one ended.
   */
  function Observed(first: Status, past: seq<Event>, d: nat): Status {
    if past == [] then first
    else
      var n := |past| - 1;
      var s, v := Observed(first, past[..n], d), past[n];
      if Concerns(past[..n], v, d) then Noted(s, v) else s
  }

  ghost predicate Shown(devices: map<nat, Status>, w: World, past: seq<Event>) {
    w.devices.Keys == devices.Keys && forall d :: d in devices ==> w.devices[d] == Observed(devices[d], past, d)
  }

  lemma ObservedAppend(first: Status, past: seq<Event>, v: Event, d: nat)
    ensures Observed(first, past + [v], d) ==
            var s := Observed(first, past, d);
            if Concerns(past, v, d) then Noted(s, v) else s
  {
    assert (past + [v])[..|past|] == past;
  }

  /** What a callback writes into the status of its own device, and that it leaves the other devices alone. */
  lemma ReactStatus(w: World, op: Op, a: Answer, d: nat)
    requires op.id in w.contexts && w.contexts[op.id].dev in w.devices && d in w.devices
    ensures d in React(w, op, a).devices
    ensures React(w, op, a).devices[d] ==
            if w.contexts[op.id].dev == d then Noted(w.devices[d], Callback(op, a)) else w.devices[d]
  {}

  lemma StepShown(devices: map<nat, Status>, w: World, past: seq<Event>, e: Event)
    requires Inv(w) && AllFollowed(devices.Keys, w, past) && Enabled(w, e) && Safe(w, e) && Shown(devices, w, past)
    ensures Shown(devices, Step(w, e), past + [e])
  {
    hide Inv, Requests, Trail, React, Observed, Follows, Agrees;
    StepFrame(w, e);
    forall d | d in devices ensures Step(w, e).devices[d] == Observed(devices[d], past + [e], d) {
      ObservedAppend(devices[d], past, e, d);
      if !e.Request? { DeviceAgrees(devices.Keys, w, past, Subject(e)); }
      if e.Callback? { ReactStatus(w.(pending := w.pending - multiset{e.op}), e.op, e.answer, d); }
    }
  }

  /** A live context belongs to the device that its request named. */
  lemma DeviceAgrees(known: set<nat>, w: World, past: seq<Event>, id: nat)
    requires Inv(w) && AllFollowed(known, w, past) && id in w.contexts
    ensures id < |Requests(past)| && Requests(past)[id].Request? && Requests(past)[id].dev == w.contexts[id].dev
  {
    hide Requests, Trail, Answers, Frees, Follows;
    assert Fine(w, id);
    assert Followed(known, w, past, id);
  }

  lemma {:induction false} RunShown(devices: map<nat, Status>, w: World, past: seq<Event>, events: seq<Event>)
    requires Inv(w) && AllFollowed(devices.Keys, w, past) && Run(w, events) && Shown(devices, w, past)
    ensures Shown(devices, Execute(w, events), past + events)
    decreases |events|
  {
    hide Inv, AllFollowed, Step, Enabled, Safe, Shown;
    if events == [] {
      assert past + events == past;
    } else {
      StepKeeps(w, events[0]);
      StepAllFollowed(devices.Keys, w, past, events[0]);
      StepShown(devices, w, past, events[0]);
      RunShown(devices, Step(w, events[0]), past + [events[0]], events[1..]);
      assert past + [events[0]] + events[1..] == past + events;
    }
  }

  /** In every run the status of every device is what an observer of the events would have written down. */
  lemma StatusExact(devices: map<nat, Status>, events: seq<Event>, d: nat)
    requires Idle(devices) && Run(Initial(devices), events) && d in devices
    ensures var w := Execute(Initial(devices), events);
            d in w.devices && w.devices[d] == Observed(devices[d], events, d)
  {
    hide Execute, Run;
    InitialInv(devices);
    assert [] + events == events;
    RunShown(devices, Initial(devices), [], events);
  }
}
