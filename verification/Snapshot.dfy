/**
 * The snapshot protocol (bdev_ubi_snapshot.c): any number of requests, each a chain of callbacks over a context
 * that is allocated by the request and released by one of its steps.
 */
module Snapshot {

  const ENOENT: int := 2

  /** The blobstore operation a context waits for. */
  datatype Stage = CreateSnapshot | CreateClone | OpenClone | CloseClone | Decouple | Copy

  /** An operation in flight; its callback will be given context `id`. */
  datatype Op = Op(id: nat, stage: Stage)

  /** struct snapshot_context; `channel` and `delta` say whether those pointers are set. */
  datatype Context = Context(dev: nat, hasPath: bool, snapshotBlob: nat, cloneBlob: nat, channel: bool, delta: bool)

  datatype Status = Status(inProgress: bool, result: int, copied: nat, total: nat)

  datatype Reply = Reply(id: nat, rc: int)

  /** What made a request fail: an operation, or the clone that could not be made read-only. */
  datatype Why = StepFailed(stage: Stage) | NotReadOnly

  /** History: how a request was settled when it was answered. */
  datatype End = Absent | Failed(rc: int, why: Why) | Plain | Accepted | Refused(rc: int) {
    /** The clone was opened and its close failed or was never asked for. */
    predicate LeavesClone() {
      Failed? && (why == NotReadOnly || why == StepFailed(CloseClone))
    }

    function Code(): int {
      match this
      case Absent => -ENOENT
      case Failed(rc, _) => rc
      case Plain => 0
      case Accepted => 0
      case Refused(rc) => rc
    }
  }

  /**
   * Contexts are named by the number of their request. `freed` logs every free of a context; `clones` are the requests
   * whose clone blob is open. `ends` and `copyLog` are history.
   */
  datatype World = World(
    devices: map<nat, Status>, asked: nat, contexts: map<nat, Context>, pending: multiset<Op>,
    replies: seq<Reply>, freed: seq<nat>, channels: set<nat>, deltas: set<nat>, clones: set<nat>, ends: map<nat, End>,
    copyLog: seq<CopyEvent>)

  /** A copy was requested for a device, accepted or not, or a copy of the device has completed. */
  datatype CopyEvent = Began(dev: nat) | Ended(dev: nat)

  /** What the blobstore answers to the calls that one callback makes. */
  datatype Answer = Answer(rc: int, blob: nat, readOnlyRc: int, copyRc: int, clusters: nat)

  // ------------------------------------------------------------------ the steps

  function Wait(w: World, id: nat, stage: Stage): World {
    w.(pending := w.pending + multiset{Op(id, stage)})
  }

  function Respond(w: World, id: nat, end: End): World {
    w.(replies := w.replies + [Reply(id, end.Code())], ends := w.ends[id := end])
  }

  /** cleanup_snapshot_context. */
  function Cleanup(w: World, id: nat): World
    requires id in w.contexts
  {
    w.(deltas := if w.contexts[id].delta then w.deltas - {id} else w.deltas,
       channels := if w.contexts[id].channel then w.channels - {id} else w.channels,
       contexts := w.contexts - {id},
       freed := w.freed + [id])
  }

  function WithStatus(w: World, id: nat, f: Status -> Status): World
    requires id in w.contexts && w.contexts[id].dev in w.devices
  {
    w.(devices := w.devices[w.contexts[id].dev := f(w.devices[w.contexts[id].dev])])
  }

  /** The error exit of every step before the copy. */
  function Abort(w: World, id: nat, rc: int, why: Why): World
    requires id in w.contexts && w.contexts[id].dev in w.devices
  {
    Cleanup(Respond(WithStatus(w, id, (s: Status) => s.(result := rc)), id, Failed(rc, why)), id)
  }

  /** bdev_ubi_snapshot. */
  function Ask(w: World, dev: nat, hasPath: bool): World {
    var id := w.asked;
    var v := w.(asked := id + 1);
    if dev !in w.devices then Respond(v, id, Absent)
    else Wait(v.(contexts := v.contexts[id := Context(dev, hasPath, 0, 0, false, false)]), id, CreateSnapshot)
  }

  /** ubi_start_snapshot: the reply carries the answer of the copy request, accepted or not. */
  function StartCopy(w: World, id: nat, a: Answer): World
    requires id in w.contexts && w.contexts[id].dev in w.devices
  {
    var v := WithStatus(w, id, (s: Status) => s.(inProgress := true, total := a.clusters));
    var u := v.(contexts := v.contexts[id := v.contexts[id].(delta := true)], deltas := v.deltas + {id},
                copyLog := v.copyLog + [Began(v.contexts[id].dev)]);
    if a.copyRc == 0 then Respond(Wait(u, id, Copy), id, Accepted)
    else Respond(u, id, Refused(a.copyRc))
  }

  /** The status that ubi_shallow_copy_complete_cb leaves. */
  function CopyEnded(w: World, id: nat, rc: int): World
    requires id in w.contexts && w.contexts[id].dev in w.devices
  {
    var v := if rc != 0 then WithStatus(w, id, (s: Status) => s.(result := rc)) else w;
    WithStatus(v.(copyLog := v.copyLog + [Ended(v.contexts[id].dev)]), id, (s: Status) => s.(inProgress := false))
  }

  /** The callback of `op`, once the operation is out of flight. */
  function React(w: World, op: Op, a: Answer): World
    requires op.id in w.contexts && w.contexts[op.id].dev in w.devices
  {
    var id := op.id;
    if op.stage == Copy then
      Cleanup(CopyEnded(w, id, a.rc), id)
    else if a.rc != 0 then Abort(w, id, a.rc, StepFailed(op.stage))
    else
      match op.stage
      case CreateSnapshot =>
        if !w.contexts[id].hasPath then Cleanup(Respond(w, id, Plain), id)
        else Wait(w.(contexts := w.contexts[id := w.contexts[id].(snapshotBlob := a.blob, channel := true)],
                     channels := w.channels + {id}), id, CreateClone)
      case CreateClone =>
        Wait(w.(contexts := w.contexts[id := w.contexts[id].(cloneBlob := a.blob)]), id, OpenClone)
      case OpenClone =>
        var v := w.(clones := w.clones + {id});
        if a.readOnlyRc != 0 then Abort(v, id, a.readOnlyRc, NotReadOnly) else Wait(v, id, CloseClone)
      case CloseClone => Wait(w.(clones := w.clones - {id}), id, Decouple)
      case Decouple => StartCopy(w, id, a)
  }

  /** The status callback of a running copy. */
  function Progress(w: World, id: nat, clusters: nat): World
    requires id in w.contexts && w.contexts[id].dev in w.devices
  {
    WithStatus(w, id, (s: Status) => s.(copied := clusters))
  }

  // ------------------------------------------------------------------ runs

  datatype Event = Request(dev: nat, hasPath: bool) | Callback(op: Op, answer: Answer) | Report(id: nat, clusters: nat)

  /** Only what is in flight calls back; nothing here says that its context still exists. */
  predicate Enabled(w: World, v: Event) {
    match v
    case Request(_, _) => true
    case Callback(op, _) => op in w.pending
    case Report(id, _) => Op(id, Copy) in w.pending
  }

  /** The callback of `v` works on a live context of a known device. */
  predicate Safe(w: World, v: Event) {
    var id := match v case Request(_, _) => 0 case Callback(op, _) => op.id case Report(id, _) => id;
    v.Request? || (id in w.contexts && w.contexts[id].dev in w.devices)
  }

  function Step(w: World, v: Event): World
    requires Enabled(w, v) && Safe(w, v)
  {
    match v
    case Request(dev, hasPath) => Ask(w, dev, hasPath)
    case Callback(op, a) => React(w.(pending := w.pending - multiset{op}), op, a)
    case Report(id, clusters) => Progress(w, id, clusters)
  }

  function Initial(devices: map<nat, Status>): World {
    World(devices, 0, map[], multiset{}, [], [], {}, {}, {}, map[], [])
  }

  /** Events in any order, as long as each can happen; what follows an unsafe one is not constrained. */
  predicate Run(w: World, events: seq<Event>)
    decreases |events|
  {
    events != [] ==>
      Enabled(w, events[0]) && (Safe(w, events[0]) ==> Run(Step(w, events[0]), events[1..]))
  }

  /** Every step of the run works on a live context. */
  predicate AllSafe(w: World, events: seq<Event>)
    requires Run(w, events)
    decreases |events|
  {
    events != [] ==> Safe(w, events[0]) && AllSafe(Step(w, events[0]), events[1..])
  }

  function Execute(w: World, events: seq<Event>): World
    requires Run(w, events)
    decreases |events|
  {
    if events == [] || !Safe(w, events[0]) then w else Execute(Step(w, events[0]), events[1..])
  }

  // ------------------------------------------------------------------ the invariant, request by request

  /** The codes that request `id` has been answered with. */
  function Answers(replies: seq<Reply>, id: nat): seq<int> {
    if replies == [] then []
    else
      var n := |replies| - 1;
      Answers(replies[..n], id) + (if replies[n].id == id then [replies[n].rc] else [])
  }

  /** How often context `id` has been freed. */
  function Frees(freed: seq<nat>, id: nat): nat {
    if freed == [] then 0 else Frees(freed[..|freed| - 1], id) + (if freed[|freed| - 1] == id then 1 else 0)
  }

  lemma AnswersAppend(replies: seq<Reply>, r: Reply, id: nat)
    ensures Answers(replies + [r], id) == Answers(replies, id) + (if r.id == id then [r.rc] else [])
  {
    assert (replies + [r])[..|replies|] == replies;
  }

  lemma FreesAppend(freed: seq<nat>, x: nat, id: nat)
    ensures Frees(freed + [x], id) == Frees(freed, id) + (if x == id then 1 else 0)
  {
    assert (freed + [x])[..|freed|] == freed;
  }

  /** Nothing in flight for the context. */
  ghost predicate Quiet(w: World, id: nat) {
    forall s: Stage :: w.pending[Op(id, s)] == 0
  }

  /** Exactly one operation in flight for the context. */
  ghost predicate Waits(w: World, id: nat, stage: Stage) {
    forall s: Stage :: w.pending[Op(id, s)] == if s == stage then 1 else 0
  }

  ghost predicate Live(w: World, id: nat) {
    id in w.contexts && Frees(w.freed, id) == 0
  }

  ghost predicate Gone(w: World, id: nat) {
    id !in w.contexts && Frees(w.freed, id) == 1
  }

  /** Before it is answered a request waits for one operation; how it was answered says what is left of it. */
  ghost predicate RequestOk(w: World, id: nat) {
    if id !in w.ends then
      && Answers(w.replies, id) == [] && Live(w, id)
      && exists s: Stage :: s != Copy && Waits(w, id, s)
    else
      && Answers(w.replies, id) == [w.ends[id].Code()]
      && match w.ends[id]
         case Absent => Quiet(w, id) && id !in w.contexts && Frees(w.freed, id) == 0
         case Failed(rc, _) => rc != 0 && Quiet(w, id) && Gone(w, id)
         case Plain => Quiet(w, id) && Gone(w, id)
         case Accepted => (Waits(w, id, Copy) && Live(w, id)) || (Quiet(w, id) && Gone(w, id))
         case Refused(rc) => rc != 0 && Quiet(w, id) && Live(w, id)
  }

  /** A number not asked yet is unknown everywhere. */
  ghost predicate Unknown(w: World, id: nat) {
    id !in w.ends && Answers(w.replies, id) == [] && Frees(w.freed, id) == 0 && id !in w.contexts && Quiet(w, id)
  }

  ghost predicate Fine(w: World, id: nat) {
    if id < w.asked then RequestOk(w, id) else Unknown(w, id)
  }

  ghost predicate Protocol(w: World) {
    forall id: nat :: Fine(w, id)
  }

  /** Some context of the device has got as far as its copy. */
  ghost predicate Copying(w: World, d: nat) {
    exists id :: id in w.contexts && w.contexts[id].dev == d && w.contexts[id].delta
  }

  /** A context belongs to a device and owns exactly its open channel and delta device. */
  ghost predicate HandleOk(w: World, id: nat) {
    && (id in w.contexts ==> w.contexts[id].dev in w.devices && (w.contexts[id].delta <==> id in w.ends))
    && (id in w.channels <==> id in w.contexts && w.contexts[id].channel)
    && (id in w.deltas <==> id in w.contexts && w.contexts[id].delta)
  }

  ghost predicate Handles(w: World) {
    forall id: nat :: HandleOk(w, id)
  }

  /** A clone is open while its close is in flight, and for good when the request left it so. */
  ghost predicate CloneOk(w: World, id: nat) {
    id in w.clones <==> Op(id, CloseClone) in w.pending || (id in w.ends && w.ends[id].LeavesClone())
  }

  ghost predicate Clones(w: World) {
    forall id: nat :: CloneOk(w, id)
  }

  ghost predicate Busy(w: World) {
    forall d :: d in w.devices && w.devices[d].inProgress ==> Copying(w, d)
  }

  ghost predicate Owned(w: World) {
    Handles(w) && Busy(w) && Clones(w)
  }

  ghost predicate Inv(w: World) {
    Protocol(w) && Owned(w)
  }

  // ------------------------------------------------------------------ every step keeps it

  /** The two worlds agree on everything about request `x`. */
  ghost predicate Same(w: World, v: World, x: nat) {
    && (x in w.ends <==> x in v.ends) && (x in w.ends ==> w.ends[x] == v.ends[x])
    && Answers(w.replies, x) == Answers(v.replies, x) && Frees(w.freed, x) == Frees(v.freed, x)
    && (x in w.contexts <==> x in v.contexts)
    && forall s: Stage :: w.pending[Op(x, s)] == v.pending[Op(x, s)]
  }

  lemma SameKeeps(w: World, v: World, x: nat)
    requires Same(w, v, x)
    ensures RequestOk(w, x) ==> RequestOk(v, x)
    ensures Unknown(w, x) ==> Unknown(v, x)
  {
    if RequestOk(w, x) && x !in w.ends {
      var s: Stage :| s != Copy && Waits(w, x, s);
      assert Waits(v, x, s);
    }
  }

  /** A step of request `id` that leaves it in order, and the others alone, keeps the protocol. */
  lemma OneRequest(w: World, v: World, id: nat)
    requires Protocol(w) && id < v.asked && (v.asked == w.asked || (id == w.asked && v.asked == w.asked + 1))
    requires RequestOk(v, id) && forall x: nat :: x != id ==> Same(w, v, x)
    ensures Protocol(v)
  {
    forall x: nat ensures Fine(v, x) {
      assert Fine(w, x);
      if x != id { SameKeeps(w, v, x); }
    }
  }

  lemma WaitStays(w: World, id: nat, stage: Stage)
    requires id !in w.ends && Answers(w.replies, id) == [] && Live(w, id) && Quiet(w, id) && stage != Copy
    ensures RequestOk(Wait(w, id, stage), id)
    ensures forall x: nat :: x != id ==> Same(w, Wait(w, id, stage), x)
  {
    assert Waits(Wait(w, id, stage), id, stage);
  }

  lemma RespondEffect(w: World, id: nat, end: End, x: nat)
    ensures Answers(Respond(w, id, end).replies, x) == Answers(w.replies, x) + (if x == id then [end.Code()] else [])
  {
    AnswersAppend(w.replies, Reply(id, end.Code()), x);
  }

  lemma CleanupEffect(w: World, id: nat, x: nat)
    requires id in w.contexts
    ensures Frees(Cleanup(w, id).freed, x) == Frees(w.freed, x) + (if x == id then 1 else 0)
  {
    FreesAppend(w.freed, id, x);
  }

  /** A request is answered and its context released. */
  lemma SettleKeeps(w: World, id: nat, end: End)
    requires Live(w, id) && id !in w.ends && Answers(w.replies, id) == [] && Quiet(w, id)
    requires (end.Failed? && end.rc != 0) || end == Plain
    ensures var v := Cleanup(Respond(w, id, end), id);
            RequestOk(v, id) && forall x: nat :: x != id ==> Same(w, v, x)
  {
    var u := Respond(w, id, end);
    var v := Cleanup(u, id);
    forall x: nat ensures Answers(v.replies, x) == Answers(w.replies, x) + (if x == id then [end.Code()] else []) {
      RespondEffect(w, id, end, x);
    }
    forall x: nat ensures Frees(v.freed, x) == Frees(w.freed, x) + (if x == id then 1 else 0) {
      CleanupEffect(u, id, x);
    }
  }

  /** The one operation of an unanswered request has come back. */
  lemma Landed(w: World, op: Op)
    requires Inv(w) && op in w.pending
    ensures var u := w.(pending := w.pending - multiset{op});
            && op.id < w.asked && Live(u, op.id) && Quiet(u, op.id) && w.contexts[op.id].dev in w.devices
            && (op.stage == Copy <==> op.id in w.ends)
            && (op.stage == Copy ==> w.ends[op.id] == Accepted && Answers(w.replies, op.id) == [0])
            && (op.stage != Copy ==> Answers(w.replies, op.id) == [])
            && forall x: nat :: x != op.id ==> Same(w, u, x)
  {
    var id := op.id;
    assert w.pending[Op(id, op.stage)] > 0;
    assert Fine(w, id) && HandleOk(w, id);
    if id !in w.ends {
      var s: Stage :| s != Copy && Waits(w, id, s);
    }
  }

  lemma SameTwice(w: World, u: World, v: World, id: nat)
    requires (forall x: nat :: x != id ==> Same(w, u, x)) && forall x: nat :: x != id ==> Same(u, v, x)
    ensures forall x: nat :: x != id ==> Same(w, v, x)
  {
    forall x: nat | x != id ensures Same(w, v, x) {
      assert Same(w, u, x) && Same(u, v, x);
    }
  }

  lemma CopyDone(w: World, id: nat, u: World)
    requires Live(w, id) && Quiet(w, id) && id in w.ends && w.ends[id] == Accepted && Answers(w.replies, id) == [0]
    requires u == w.(devices := u.devices, copyLog := u.copyLog)
    ensures RequestOk(Cleanup(u, id), id) && forall x: nat :: x != id ==> Same(w, Cleanup(u, id), x)
  {
    forall x: nat ensures Frees(Cleanup(u, id).freed, x) == Frees(w.freed, x) + (if x == id then 1 else 0) {
      CleanupEffect(u, id, x);
    }
  }

  lemma StartCopyKeeps(w: World, id: nat, a: Answer)
    requires Live(w, id) && Quiet(w, id) && id !in w.ends && Answers(w.replies, id) == []
    requires w.contexts[id].dev in w.devices
    ensures RequestOk(StartCopy(w, id, a), id) && forall x: nat :: x != id ==> Same(w, StartCopy(w, id, a), x)
  {
    hide Answers, Frees;
    var v := StartCopy(w, id, a);
    var end := if a.copyRc == 0 then Accepted else Refused(a.copyRc);
    assert v.replies == w.replies + [Reply(id, end.Code())];
    forall x: nat ensures Answers(v.replies, x) == Answers(w.replies, x) + (if x == id then [end.Code()] else []) {
      AnswersAppend(w.replies, Reply(id, end.Code()), x);
    }
  }

  lemma ReactKeeps(w: World, op: Op, a: Answer)
    requires op.id in w.contexts && w.contexts[op.id].dev in w.devices && Live(w, op.id) && Quiet(w, op.id)
    requires op.stage == Copy ==> op.id in w.ends && w.ends[op.id] == Accepted && Answers(w.replies, op.id) == [0]
    requires op.stage != Copy ==> op.id !in w.ends && Answers(w.replies, op.id) == []
    ensures RequestOk(React(w, op, a), op.id) && forall x: nat :: x != op.id ==> Same(w, React(w, op, a), x)
  {
    hide RequestOk, Same, Live, Quiet;
    var id, v := op.id, React(w, op, a);
    if op.stage == Copy {
      CopyDone(w, id, CopyEnded(w, id, a.rc));
    } else if a.rc != 0 {
      AbortKeeps(w, id, a.rc, StepFailed(op.stage));
    } else if op.stage == CreateSnapshot && !w.contexts[id].hasPath {
      SettleKeeps(w, id, Plain);
    } else if op.stage == OpenClone && a.readOnlyRc != 0 {
      var u := w.(clones := w.clones + {id});
      OpenedClone(w, id);
      AbortKeeps(u, id, a.readOnlyRc, NotReadOnly);
      SameTwice(w, u, v, id);
    } else if op.stage == Decouple {
      StartCopyKeeps(w, id, a);
    } else {
      MovesOnKeeps(w, op, a);
    }
  }

  lemma OpenedClone(w: World, id: nat)
    ensures var u := w.(clones := w.clones + {id});
            (Live(w, id) ==> Live(u, id)) && (Quiet(w, id) ==> Quiet(u, id)) && forall x: nat :: Same(w, u, x)
  {}

  lemma AbortKeeps(w: World, id: nat, rc: int, why: Why)
    requires Live(w, id) && Quiet(w, id) && id !in w.ends && Answers(w.replies, id) == []
    requires w.contexts[id].dev in w.devices
    requires rc != 0
    ensures RequestOk(Abort(w, id, rc, why), id) && forall x: nat :: x != id ==> Same(w, Abort(w, id, rc, why), x)
  {
    hide RequestOk;
    var u := WithStatus(w, id, (s: Status) => s.(result := rc));
    SettleKeeps(u, id, Failed(rc, why));
    SameTwice(w, u, Abort(w, id, rc, why), id);
  }

  /** The steps that store an answer and submit the next operation. */
  lemma MovesOnKeeps(w: World, op: Op, a: Answer)
    requires op.id in w.contexts && w.contexts[op.id].dev in w.devices && Live(w, op.id) && Quiet(w, op.id)
    requires op.id !in w.ends && Answers(w.replies, op.id) == [] && a.rc == 0
    requires op.stage in {CreateSnapshot, CreateClone, OpenClone, CloseClone}
    requires (op.stage == CreateSnapshot ==> w.contexts[op.id].hasPath) && (op.stage == OpenClone ==> a.readOnlyRc == 0)
    ensures RequestOk(React(w, op, a), op.id) && forall x: nat :: x != op.id ==> Same(w, React(w, op, a), x)
  {
    hide RequestOk;
    var id, v := op.id, React(w, op, a);
    var next := match op.stage case CreateSnapshot => CreateClone case CreateClone => OpenClone
                               case OpenClone => CloseClone case _ => Decouple;
    var u := w.(contexts := v.contexts, channels := v.channels, clones := v.clones);
    assert v == Wait(u, id, next);
    WaitStays(u, id, next);
    SameTwice(w, u, v, id);
  }

  // ------------------------------------------------------------------ ownership

  lemma CopyingSame(w: World, v: World, id: nat, d: nat)
    requires Copying(w, d)
    requires forall x :: x in w.contexts && x != id ==> x in v.contexts && v.contexts[x] == w.contexts[x]
    requires (id in w.contexts && w.contexts[id].dev == d ==> !w.contexts[id].delta)
             || (id in v.contexts && v.contexts[id].dev == d && v.contexts[id].delta)
    ensures Copying(v, d)
  {
    var x :| x in w.contexts && w.contexts[x].dev == d && w.contexts[x].delta;
    if x == id {
      assert id in v.contexts && v.contexts[id].delta;
    } else {
      assert v.contexts[x] == w.contexts[x];
    }
  }

  lemma AskHandles(w: World, dev: nat, hasPath: bool)
    requires Handles(w) && Unknown(w, w.asked)
    ensures Handles(Ask(w, dev, hasPath))
  {
    hide Answers, Frees;
    forall x: nat ensures HandleOk(Ask(w, dev, hasPath), x) {
      assert HandleOk(w, x);
    }
  }

  lemma AskBusy(w: World, dev: nat, hasPath: bool)
    requires Busy(w) && Unknown(w, w.asked)
    ensures Busy(Ask(w, dev, hasPath))
  {
    hide Answers, Frees;
    var v := Ask(w, dev, hasPath);
    forall d | d in v.devices && v.devices[d].inProgress ensures Copying(v, d) {
      CopyingSame(w, v, w.asked, d);
    }
  }

  lemma AskClones(w: World, dev: nat, hasPath: bool)
    requires Clones(w) && Unknown(w, w.asked)
    ensures Clones(Ask(w, dev, hasPath))
  {
    hide Answers, Frees;
    assert w.pending[Op(w.asked, CloseClone)] == 0;
    forall x: nat ensures CloneOk(Ask(w, dev, hasPath), x) {
      assert CloneOk(w, x);
    }
  }

  lemma ReactHandles(w: World, op: Op, a: Answer)
    requires Handles(w) && op.id in w.contexts && w.contexts[op.id].dev in w.devices
    requires op.stage == Copy <==> op.id in w.ends
    ensures Handles(React(w, op, a))
  {
    forall x: nat ensures HandleOk(React(w, op, a), x) {
      assert HandleOk(w, x);
      if op.stage == Copy || a.rc != 0 { EndHandles(w, op, a, x); } else { NextHandles(w, op, a, x); }
    }
  }

  lemma EndHandles(w: World, op: Op, a: Answer, x: nat)
    requires HandleOk(w, x) && op.id in w.contexts && w.contexts[op.id].dev in w.devices && HandleOk(w, op.id)
    requires op.stage == Copy || a.rc != 0
    ensures HandleOk(React(w, op, a), x)
  {}

  lemma NextHandles(w: World, op: Op, a: Answer, x: nat)
    requires HandleOk(w, x) && op.id in w.contexts && w.contexts[op.id].dev in w.devices && HandleOk(w, op.id)
    requires op.stage != Copy && op.id !in w.ends && a.rc == 0
    ensures HandleOk(React(w, op, a), x)
  {}

  /** After the operation has landed, the clone is open exactly when it was the close that came back. */
  lemma ReactClones(w: World, op: Op, a: Answer)
    requires op.id in w.contexts && w.contexts[op.id].dev in w.devices && Quiet(w, op.id)
    requires op.id in w.ends ==> w.ends[op.id] == Accepted
    requires forall x: nat :: if x == op.id then (x in w.clones <==> op.stage == CloseClone) else CloneOk(w, x)
    ensures Clones(React(w, op, a))
  {
    hide React;
    forall x: nat ensures CloneOk(React(w, op, a), x) {
      assert if x == op.id then (x in w.clones <==> op.stage == CloseClone) else CloneOk(w, x);
      if op.stage == Copy || a.rc != 0 { EndClones(w, op, a, x); } else { NextClones(w, op, a, x); }
    }
  }

  lemma EndClones(w: World, op: Op, a: Answer, x: nat)
    requires op.id in w.contexts && w.contexts[op.id].dev in w.devices && Quiet(w, op.id)
    requires (op.id in w.ends ==> w.ends[op.id] == Accepted) && (op.stage == Copy || a.rc != 0)
    requires if x == op.id then (x in w.clones <==> op.stage == CloseClone) else CloneOk(w, x)
    ensures CloneOk(React(w, op, a), x)
  {
    assert w.pending[Op(op.id, CloseClone)] == 0;
  }

  lemma NextClones(w: World, op: Op, a: Answer, x: nat)
    requires op.id in w.contexts && w.contexts[op.id].dev in w.devices && Quiet(w, op.id)
    requires (op.id in w.ends ==> w.ends[op.id] == Accepted) && op.stage != Copy && a.rc == 0
    requires if x == op.id then (x in w.clones <==> op.stage == CloseClone) else CloneOk(w, x)
    ensures CloneOk(React(w, op, a), x)
  {
    assert w.pending[Op(op.id, CloseClone)] == 0;
  }

  lemma ReactBusy(w: World, op: Op, a: Answer)
    requires Handles(w) && Busy(w) && op.id in w.contexts && w.contexts[op.id].dev in w.devices
    requires op.stage == Copy <==> op.id in w.ends
    ensures Busy(React(w, op, a))
  {
    var v, e := React(w, op, a), w.contexts[op.id].dev;
    assert HandleOk(w, op.id);
    forall d | d in v.devices && v.devices[d].inProgress ensures Copying(v, d) {
      if op.stage == Decouple && a.rc == 0 && d == e {
        assert op.id in v.contexts && v.contexts[op.id].dev == d && v.contexts[op.id].delta;
      } else {
        ReactFrame(w, op, a);
        CopyingSame(w, v, op.id, d);
      }
    }
  }

  lemma ReactFrame(w: World, op: Op, a: Answer)
    requires op.id in w.contexts && w.contexts[op.id].dev in w.devices
    ensures var v := React(w, op, a);
            && (forall x :: x in w.contexts && x != op.id ==> x in v.contexts && v.contexts[x] == w.contexts[x])
            && (forall d :: d in v.devices ==> d in w.devices)
            && (forall d :: d in v.devices && d != w.contexts[op.id].dev ==> v.devices[d] == w.devices[d])
  {}

  lemma ProgressKeeps(w: World, id: nat, clusters: nat)
    requires Inv(w) && id in w.contexts && w.contexts[id].dev in w.devices
    ensures Inv(Progress(w, id, clusters))
  {
    var v := Progress(w, id, clusters);
    forall x: nat ensures Fine(v, x) && HandleOk(v, x) && CloneOk(v, x) {
      assert Fine(w, x) && HandleOk(w, x) && CloneOk(w, x);
      SameKeeps(w, v, x);
    }
    forall d | d in v.devices && v.devices[d].inProgress ensures Copying(v, d) {
      CopyingSame(w, v, w.asked, d) by { assert Fine(w, w.asked); }
    }
  }

  lemma AskKeeps(w: World, dev: nat, hasPath: bool)
    requires Inv(w)
    ensures Inv(Ask(w, dev, hasPath))
  {
    hide RequestOk, Same, HandleOk, Busy;
    var id, v := w.asked, Ask(w, dev, hasPath);
    assert Fine(w, id);
    AskHandles(w, dev, hasPath);
    AskBusy(w, dev, hasPath);
    AskClones(w, dev, hasPath);
    AskedOk(w, dev, hasPath);
    OneRequest(w, v, id);
  }

  lemma AskedOk(w: World, dev: nat, hasPath: bool)
    requires Unknown(w, w.asked)
    ensures RequestOk(Ask(w, dev, hasPath), w.asked)
    ensures forall x: nat :: x != w.asked ==> Same(w, Ask(w, dev, hasPath), x)
  {
    hide Answers, Frees;
    var id, v := w.asked, Ask(w, dev, hasPath);
    if dev !in w.devices {
      forall x: nat ensures Answers(v.replies, x) == Answers(w.replies, x) + (if x == id then [-ENOENT] else []) {
        RespondEffect(w.(asked := id + 1), id, Absent, x);
      }
    } else {
      var u := w.(asked := id + 1, contexts := v.contexts);
      WaitStays(u, id, CreateSnapshot);
      assert forall x: nat :: x != id ==> Same(w, u, x);
      SameTwice(w, u, v, id);
    }
  }

  lemma CallbackKeeps(w: World, op: Op, a: Answer)
    requires Inv(w) && op in w.pending
    ensures Safe(w, Callback(op, a)) && Inv(Step(w, Callback(op, a)))
  {
    hide RequestOk, Same, Live, Quiet, React, CloneOk, HandleOk;
    var u := w.(pending := w.pending - multiset{op});
    Landed(w, op);
    LiveContext(u, op.id);
    ReactKeeps(u, op, a);
    SameTwice(w, u, React(u, op, a), op.id);
    ReactAsked(u, op, a);
    OneRequest(w, React(u, op, a), op.id);
    OwnedFrame(w, u);
    ReactHandles(u, op, a);
    ReactBusy(u, op, a);
    LandedClones(w, op);
    ReactClones(u, op, a);
  }

  lemma LiveContext(w: World, id: nat)
    ensures Live(w, id) ==> id in w.contexts
  {}

  lemma ReactAsked(w: World, op: Op, a: Answer)
    requires op.id in w.contexts && w.contexts[op.id].dev in w.devices
    ensures React(w, op, a).asked == w.asked
  {}

  lemma LandedClones(w: World, op: Op)
    requires Inv(w) && op in w.pending
    ensures var u := w.(pending := w.pending - multiset{op});
            && (op.id in w.ends ==> w.ends[op.id] == Accepted)
            && forall x: nat :: if x == op.id then (x in u.clones <==> op.stage == CloseClone) else CloneOk(u, x)
  {
    Landed(w, op);
    var u := w.(pending := w.pending - multiset{op});
    assert w.pending[op] > 0 && u.pending[Op(op.id, CloseClone)] == 0;
    forall x: nat ensures if x == op.id then (x in u.clones <==> op.stage == CloseClone) else CloneOk(u, x) {
      assert CloneOk(w, x);
    }
  }

  lemma OwnedFrame(w: World, u: World)
    requires Handles(w) && Busy(w) && u == w.(pending := u.pending)
    ensures Handles(u) && Busy(u)
  {
    forall x: nat ensures HandleOk(u, x) {
      assert HandleOk(w, x);
    }
    forall d | d in u.devices && u.devices[d].inProgress ensures Copying(u, d) {
      assert Copying(w, d);
    }
  }

  /** Whatever is in flight has a live context, and handling it keeps the invariant. */
  lemma StepKeeps(w: World, v: Event)
    requires Inv(w) && Enabled(w, v)
    ensures Safe(w, v) && Inv(Step(w, v))
  {
    hide Inv, React, Ask, Progress;
    match v {
      case Request(dev, hasPath) => AskKeeps(w, dev, hasPath);
      case Callback(op, a) => CallbackKeeps(w, op, a);
      case Report(id, clusters) =>
        CallbackKeeps(w, Op(id, Copy), Answer(0, 0, 0, 0, 0));
        ProgressKeeps(w, id, clusters);
    }
  }

  lemma {:induction false} RunKeeps(w: World, events: seq<Event>)
    requires Inv(w) && Run(w, events)
    ensures AllSafe(w, events) && Inv(Execute(w, events))
    decreases |events|
  {
    hide Inv, Step, Enabled, Safe;
    if events != [] {
      StepKeeps(w, events[0]);
      RunKeeps(Step(w, events[0]), events[1..]);
    }
  }

  // ------------------------------------------------------------------ theorems

  ghost predicate Idle(devices: map<nat, Status>) {
    forall d :: d in devices ==> !devices[d].inProgress
  }

  lemma InitialInv(devices: map<nat, Status>)
    requires Idle(devices)
    ensures Inv(Initial(devices))
  {}

  /** No step of any run, in any interleaving and with any errors, works on a released context. */
  lemma NoStepOnReleasedContext(devices: map<nat, Status>, events: seq<Event>)
    requires Idle(devices) && Run(Initial(devices), events)
    ensures AllSafe(Initial(devices), events)
  {
    InitialInv(devices);
    RunKeeps(Initial(devices), events);
  }

  /** Request `id` still has a step to come before its reply. */
  ghost predicate Undecided(w: World, id: nat) {
    exists s: Stage :: s != Copy && Op(id, s) in w.pending
  }

  /**
   * At every moment of every run a request is unanswered, exactly while it waits for a step before the copy, or
   * answered once.
   */
  lemma AnsweredExactlyOnce(devices: map<nat, Status>, events: seq<Event>, id: nat)
    requires Idle(devices) && Run(Initial(devices), events)
    ensures var w := Execute(Initial(devices), events);
            |Answers(w.replies, id)| == if id < w.asked && !Undecided(w, id) then 1 else 0
  {
    var w := Execute(Initial(devices), events);
    InitialInv(devices);
    RunKeeps(Initial(devices), events);
    assert Fine(w, id);
    if id < w.asked {
      if id !in w.ends {
        var s: Stage :| s != Copy && Waits(w, id, s);
        assert w.pending[Op(id, s)] == 1;
      } else {
        assert forall s: Stage :: Op(id, s) in w.pending ==> w.pending[Op(id, s)] > 0;
      }
    }
  }

  /** How often a settled request's context is freed in the end. */
  function FreedInTheEnd(e: End): nat {
    if e.Absent? || e.Refused? then 0 else 1
  }

  /**
   * When nothing is in flight any more, every request has been settled; its context was freed exactly once, except
   * that a refused copy leaves the context, its channel and its delta device behind and the busy flag may stay set. The
   * clone blob is left open exactly when it could not be made read-only or its close failed.
   */
  lemma ReleasedExactlyOnceIff(devices: map<nat, Status>, events: seq<Event>, id: nat)
    requires Idle(devices) && Run(Initial(devices), events) && Execute(Initial(devices), events).pending == multiset{}
    ensures var w := Execute(Initial(devices), events);
            && (id < w.asked <==> id in w.ends)
            && (id < w.asked ==>
                  && Answers(w.replies, id) == [w.ends[id].Code()] && Frees(w.freed, id) == FreedInTheEnd(w.ends[id])
                  && (id in w.contexts <==> w.ends[id].Refused?) && (id in w.deltas <==> w.ends[id].Refused?))
            && (id in w.channels ==> id < w.asked && w.ends[id].Refused?)
            && (id in w.clones <==> id < w.asked && w.ends[id].LeavesClone())
            && (id in w.devices && w.devices[id].inProgress ==>
                  exists x :: x in w.contexts && w.contexts[x].dev == id && x in w.ends && w.ends[x].Refused?)
  {
    var w := Execute(Initial(devices), events);
    InitialInv(devices);
    RunKeeps(Initial(devices), events);
    SettledRequest(w, id);
    if id in w.devices && w.devices[id].inProgress {
      assert Copying(w, id);
      var x :| x in w.contexts && w.contexts[x].dev == id && w.contexts[x].delta;
      SettledRequest(w, x);
    }
  }

  lemma SettledRequest(w: World, id: nat)
    requires Inv(w) && w.pending == multiset{}
    ensures id < w.asked <==> id in w.ends
    ensures id < w.asked ==>
              Answers(w.replies, id) == [w.ends[id].Code()] && Frees(w.freed, id) == FreedInTheEnd(w.ends[id])
    ensures id in w.contexts <==> id < w.asked && w.ends[id].Refused?
    ensures id in w.deltas <==> id in w.contexts
    ensures id in w.channels ==> id in w.contexts
    ensures id in w.clones <==> id < w.asked && w.ends[id].LeavesClone()
  {
    assert Fine(w, id);
    assert HandleOk(w, id) && CloneOk(w, id);
    forall s: Stage ensures !Waits(w, id, s) {
      assert w.pending[Op(id, s)] == 0;
    }
  }

  /** The stage after `stage`, by its place in the chain. */
  function Chain(k: nat): Stage {
    match k case 0 => CreateSnapshot case 1 => CreateClone case 2 => OpenClone case 3 => CloseClone case _ => Decouple
  }

  /** The callbacks from stage `k` on, all successful, up to a copy request that answers `copyRc`. */
  function FromStage(k: nat, copyRc: int): seq<Event>
    decreases 4 - k
  {
    [Callback(Op(0, Chain(k)), Answer(0, 0, 0, copyRc, 0))] + (if k >= 4 then [] else FromStage(k + 1, copyRc))
  }

  /** The world while request 0 waits for stage `k`, all steps so far having succeeded. */
  function Midway(k: nat): World {
    World(map[0 := Status(false, 0, 0, 0)], 1, map[0 := Context(0, true, 0, 0, k > 0, false)], multiset{Op(0,
        Chain(k))}, [], [],
          if k > 0 then {0} else {}, {}, if k == 3 then {0} else {}, map[], [])
  }

  /** Answered, with nothing in flight, yet the context, its handles and the busy flag are still there. */
  ghost predicate Leaked(w: World, rc: int) {
    && w.pending == multiset{} && w.replies == [Reply(0, rc)] && w.freed == []
    && 0 in w.contexts && w.channels == {0} && w.deltas == {0} && 0 in w.devices && w.devices[0].inProgress
  }

  lemma MidwayStep(k: nat, a: Answer)
    requires k < 4 && a.rc == 0 && a.readOnlyRc == 0 && a.blob == 0
    ensures var v := Callback(Op(0, Chain(k)), a);
            Enabled(Midway(k), v) && Safe(Midway(k), v) && Step(Midway(k), v) == Midway(k + 1)
  {
    assert Midway(k).pending - multiset{Op(0, Chain(k))} == multiset{};
    assert Midway(k).contexts[0 := Midway(k + 1).contexts[0]] == Midway(k + 1).contexts;
  }

  lemma FirstStep()
    ensures var w, v := Initial(map[0 := Status(false, 0, 0, 0)]), Request(0, true);
            Enabled(w, v) && Safe(w, v) && Step(w, v) == Midway(0)
  {}

  lemma LastStep(copyRc: int)
    requires copyRc != 0
    ensures var v := Callback(Op(0, Decouple), Answer(0, 0, 0, copyRc, 0));
            Enabled(Midway(4), v) && Safe(Midway(4), v) && Leaked(Step(Midway(4), v), copyRc)
  {}

  lemma RunFirst(w: World, v: Event, rest: seq<Event>)
    requires Enabled(w, v) && Safe(w, v) && Run(Step(w, v), rest)
    ensures Run(w, [v] + rest) && Execute(w, [v] + rest) == Execute(Step(w, v), rest)
  {
    hide Enabled, Safe, Step;
    assert ([v] + rest)[1..] == rest;
  }

  lemma {:induction false} MidwayLeaks(k: nat, copyRc: int)
    requires k <= 4 && copyRc != 0
    ensures Run(Midway(k), FromStage(k, copyRc)) && Leaked(Execute(Midway(k), FromStage(k, copyRc)), copyRc)
    decreases 4 - k
  {
    hide Enabled, Safe, Step, Midway, Leaked;
    var v := Callback(Op(0, Chain(k)), Answer(0, 0, 0, copyRc, 0));
    if k == 4 {
      LastStep(copyRc);
      RunFirst(Midway(k), v, []);
    } else {
      MidwayStep(k, v.answer);
      MidwayLeaks(k + 1, copyRc);
      RunFirst(Midway(k), v, FromStage(k + 1, copyRc));
    }
  }

  /** A copy request that is refused ends the chain with a reply, but nothing releases the context or the busy flag. */
  lemma RefusedCopyLeaks(copyRc: int)
    requires copyRc != 0
    ensures var w, events := Initial(map[0 := Status(false, 0, 0, 0)]), [Request(0, true)] + FromStage(0, copyRc);
            Run(w, events) && Leaked(Execute(w, events), copyRc)
  {
    hide Enabled, Safe, Step, Midway, Leaked, FromStage;
    FirstStep();
    MidwayLeaks(0, copyRc);
    RunFirst(Initial(map[0 := Status(false, 0, 0, 0)]), Request(0, true), FromStage(0, copyRc));
  }

  // ------------------------------------------------------------------ the busy flag

  /** The last thing that happened to copies of the device was a request for one. */
  predicate LastBegan(log: seq<CopyEvent>, d: nat) {
    log != [] &&
    var n := |log| - 1;
    if log[n].dev == d then log[n].Began? else LastBegan(log[..n], d)
  }

  lemma LogAppend(log: seq<CopyEvent>, e: CopyEvent, d: nat)
    ensures LastBegan(log + [e], d) == if e.dev == d then e.Began? else LastBegan(log, d)
  {
    assert (log + [e])[..|log|] == log;
  }

  /** The flag of every device says whether the last event of its copies was a request. */
  ghost predicate Flagged(w: World) {
    forall d :: d in w.devices ==> (w.devices[d].inProgress <==> LastBegan(w.copyLog, d))
  }

  lemma CopyEndedFlags(w: World, id: nat, rc: int)
    requires Flagged(w) && id in w.contexts && w.contexts[id].dev in w.devices
    ensures Flagged(CopyEnded(w, id, rc))
  {
    var e := Ended(w.contexts[id].dev);
    forall d | d in w.devices
      ensures LastBegan(w.copyLog + [e], d) == if e.dev == d then false else LastBegan(w.copyLog, d)
    {
      LogAppend(w.copyLog, e, d);
    }
  }

  lemma StartCopyFlags(w: World, id: nat, a: Answer)
    requires Flagged(w) && id in w.contexts && w.contexts[id].dev in w.devices
    ensures Flagged(StartCopy(w, id, a))
  {
    var e := Began(w.contexts[id].dev);
    forall d | d in w.devices
      ensures LastBegan(w.copyLog + [e], d) == if e.dev == d then true else LastBegan(w.copyLog, d)
    {
      LogAppend(w.copyLog, e, d);
    }
  }

  /** Everything the flags depend on is the same. */
  ghost predicate SameFlags(w: World, t: World) {
    t.copyLog == w.copyLog && t.devices.Keys == w.devices.Keys
    && forall d :: d in w.devices ==> t.devices[d].inProgress == w.devices[d].inProgress
  }

  lemma OtherStages(w: World, op: Op, a: Answer)
    requires op.id in w.contexts && w.contexts[op.id].dev in w.devices
    requires op.stage != Copy && !(op.stage == Decouple && a.rc == 0)
    ensures SameFlags(w, React(w, op, a))
  {
    hide StartCopy, CopyEnded;
  }

  lemma StepFlags(w: World, v: Event)
    requires Flagged(w) && Enabled(w, v) && Safe(w, v)
    ensures Flagged(Step(w, v))
  {
    hide StartCopy, CopyEnded, LastBegan;
    match v {
      case Callback(op, a) =>
        var u := w.(pending := w.pending - multiset{op});
        if op.stage == Copy {
          CopyEndedFlags(u, op.id, a.rc);
        } else if op.stage == Decouple && a.rc == 0 {
          StartCopyFlags(u, op.id, a);
        } else {
          hide React;
          OtherStages(u, op, a);
        }
      case _ =>
    }
  }

  lemma {:induction false} RunFlags(w: World, events: seq<Event>)
    requires Inv(w) && Flagged(w) && Run(w, events)
    ensures Flagged(Execute(w, events))
    decreases |events|
  {
    hide Inv, Flagged, Step, Enabled, Safe;
    if events != [] {
      StepKeeps(w, events[0]);
      StepFlags(w, events[0]);
      RunFlags(Step(w, events[0]), events[1..]);
    }
  }

  /**
   * The busy flag is set exactly when a copy was requested for the device, accepted or refused, and none has completed
   * since; it does not say whether a copy is running.
   */
  lemma BusyFlagExact(devices: map<nat, Status>, events: seq<Event>, d: nat)
    requires Idle(devices) && Run(Initial(devices), events) && d in Execute(Initial(devices), events).devices
    ensures var w := Execute(Initial(devices), events); w.devices[d].inProgress <==> LastBegan(w.copyLog, d)
  {
    InitialInv(devices);
    RunFlags(Initial(devices), events);
  }

  /** Of two copies of one device, the first to complete clears the flag while the other still runs. */
  lemma OverlapClearsFlag(w: World, a: nat, b: nat, answer: Answer)
    requires Inv(w) && a != b && Op(a, Copy) in w.pending && Op(b, Copy) in w.pending
    requires a in w.contexts && b in w.contexts && w.contexts[a].dev == w.contexts[b].dev
    ensures var v := Callback(Op(a, Copy), answer);
            && Enabled(w, v) && Safe(w, v)
            && var t := Step(w, v);
               && Op(b, Copy) in t.pending && b in t.contexts && t.contexts[b].dev in t.devices
               && !t.devices[t.contexts[b].dev].inProgress
  {
    hide Inv;
    StepKeeps(w, Callback(Op(a, Copy), answer));
  }
}
