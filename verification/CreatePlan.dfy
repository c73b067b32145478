/**
 * Which steps a create goes through, told from outside: from what was asked and what the operations answered, without
 * looking at the state of the module.
 */
module CreatePlan {
  import opened Create
  import opened CreateProofs

  /** An operation of a create that has come back. */
  datatype Taken = Taken(stage: Stage, answer: Answer)

  /** The events that a run gets to: all of them, or those before the first step that reads a freed device. */
  function Executed(w: World, events: seq<Event>): seq<Event>
    requires Run(w, events)
    decreases |events|
  {
    if events == [] || !Safe(w, events[0]) then []
    else [events[0]] + Executed(Step(w, events[0]), events[1..])
  }

  lemma {:induction false} ExecutedIsPrefix(w: World, events: seq<Event>)
    requires Run(w, events)
    ensures var past := Executed(w, events); |past| <= |events| && past == events[..|past|]
    ensures Executed(w, events) == events <==> AllSafe(w, events)
    decreases |events|
  {
    hide Step, Safe, Enabled;
    if events != [] && Safe(w, events[0]) {
      ExecutedIsPrefix(Step(w, events[0]), events[1..]);
      var rest := Executed(Step(w, events[0]), events[1..]);
      assert events == [events[0]] + events[1..];
      assert ([events[0]] + rest)[1..] == rest;
    }
  }

  /** The creates asked for; create number `id` is the one at index `id`. */
  function Requests(past: seq<Event>): seq<Event> {
    if past == [] then []
    else
      var n := |past| - 1;
      Requests(past[..n]) + (if past[n].New? then [past[n]] else [])
  }

  /** The operations of create `id` that have come back, in order. */
  function Trail(past: seq<Event>, id: nat): seq<Taken> {
    if past == [] then []
    else
      var n := |past| - 1;
      Trail(past[..n], id) + TakenBy(past[n], id)
  }

  function TakenBy(v: Event, id: nat): seq<Taken> {
    if v.Callback? && v.op.id == id && v.op.stage.Creating() then [Taken(v.op.stage, v.answer)] else []
  }

  /** What a create is meant to do: formatting also creates the blob and its snapshot. */
  function Plan(format: bool): seq<Stage> {
    if format then [InitStore, CreateBlob, TakeSnapshot, OpenBlob] else [InitStore, OpenBlob]
  }

  /** The steps came in the order of the plan, each after the success of the one before. */
  predicate Follows(plan: seq<Stage>, t: seq<Taken>) {
    |t| <= |plan| && forall j :: 0 <= j < |t| ==> t[j].stage == plan[j] && (j < |t| - 1 ==> t[j].answer.rc == 0)
  }

  /** What a create that has come this far has told its caller. */
  function Told(plan: seq<Stage>, t: seq<Taken>): seq<int> {
    if t == [] then []
    else
      var a := t[|t| - 1].answer;
      if a.rc != 0 then [a.rc] else if |t| < |plan| then [] else [a.registerRc]
  }

  /** The first checks of bdev_ubi_create pass. */
  predicate Begins(r: Event) {
    r.New? && r.allocOk && r.nameOk && r.baseRc == 0
  }

  /** What the world holds of create `id` is what the events say. */
  ghost predicate Planned(w: World, past: seq<Event>, id: nat) {
    && id < |Requests(past)| && Requests(past)[id].New?
    && var r, t := Requests(past)[id], Trail(past, id);
       if !Begins(r) then
         && t == [] && id !in w.contexts
         && Statuses(w.done, id) == [if r.allocOk && r.nameOk then r.baseRc else -ENOMEM]
       else
         var plan := Plan(r.format);
         && Follows(plan, t) && Statuses(w.done, id) == Told(plan, t)
         && (id in w.contexts <==> Told(plan, t) == [])
         && (id in w.contexts ==>
               w.contexts[id].format == r.format && |t| < |plan| && Waits(w, id, plan[|t|]))
  }

  ghost predicate AllPlanned(w: World, past: seq<Event>) {
    && |Requests(past)| == w.asked
    && (forall id: nat :: id < w.asked ==> Planned(w, past, id))
    && (forall id: nat :: id >= w.asked ==> Trail(past, id) == [])
  }

  lemma LogsAppend(past: seq<Event>, v: Event, id: nat)
    ensures Requests(past + [v]) == Requests(past) + (if v.New? then [v] else [])
    ensures Trail(past + [v], id) == Trail(past, id) + TakenBy(v, id)
  {
    assert (past + [v])[..|past|] == past;
  }

  // ------------------------------------------------------------------ one step

  /** Nothing that the plan of create `x` speaks of differs. */
  ghost predicate Kept(w: World, v: World, x: nat) {
    && (x in w.contexts <==> x in v.contexts) && (x in w.contexts ==> w.contexts[x] == v.contexts[x])
    && Statuses(w.done, x) == Statuses(v.done, x)
    && (x in w.contexts ==> forall s: Stage :: w.pending[Op(x, s)] == v.pending[Op(x, s)])
  }

  lemma KeptPlanned(w: World, v: World, past: seq<Event>, e: Event, x: nat)
    requires Planned(w, past, x) && Kept(w, v, x) && TakenBy(e, x) == []
    ensures Planned(v, past + [e], x)
  {
    hide Statuses, Requests, Trail, Plan;
    LogsAppend(past, e, x);
    assert Requests(past + [e])[x] == Requests(past)[x];
    assert Trail(past + [e], x) == Trail(past, x);
  }

  /** A step adds at most one report, for its own create. */
  lemma StatusesElsewhere(w: World, v: World, id: nat, status: int, x: nat)
    requires v.done == w.done || v.done == w.done + [Done(id, status)]
    ensures x != id ==> Statuses(v.done, x) == Statuses(w.done, x)
    ensures v.done == w.done + [Done(id, status)] ==> Statuses(v.done, id) == Statuses(w.done, id) + [status]
  {
    StatusesAppend(w.done, Done(id, status), x);
    StatusesAppend(w.done, Done(id, status), id);
  }

  lemma BeginElsewhere(w: World, format: bool, allocOk: bool, nameOk: bool, baseRc: int, x: nat)
    requires x != w.asked
    ensures Kept(w, Begin(w, format, allocOk, nameOk, baseRc), x)
  {
    hide Statuses;
    var v := Begin(w, format, allocOk, nameOk, baseRc);
    StatusesElsewhere(w, v, w.asked, if allocOk && nameOk then baseRc else -ENOMEM, x);
  }

  lemma BeginPlanned(w: World, past: seq<Event>, e: Event)
    requires AllPlanned(w, past) && Fine(w, w.asked) && e.New?
    ensures Planned(Begin(w, e.format, e.allocOk, e.nameOk, e.baseRc), past + [e], w.asked)
  {
    hide Statuses, Requests, Trail;
    var id, v := w.asked, Begin(w, e.format, e.allocOk, e.nameOk, e.baseRc);
    LogsAppend(past, e, id);
    assert Requests(past + [e])[id] == e && Trail(past + [e], id) == [];
    StatusesElsewhere(w, v, id, if e.allocOk && e.nameOk then e.baseRc else -ENOMEM, id);
    if Begins(e) { assert Waits(v, id, InitStore); }
  }

  lemma KeptTwice(w: World, u: World, v: World, x: nat)
    requires Kept(w, u, x) && Kept(u, v, x)
    ensures Kept(w, v, x)
  {}

  lemma FinishElsewhere(w: World, id: nat, status: int, registerRc: int, x: nat)
    requires id in w.contexts && id in w.devices && x != id
    ensures Kept(w, Finish(w, id, status, registerRc), x)
  {
    hide Statuses;
    var v := Finish(w, id, status, registerRc);
    StatusesElsewhere(w, v, id, if status != 0 then status else registerRc, x);
  }

  lemma FinishTells(w: World, id: nat, status: int, registerRc: int)
    requires id in w.contexts && id in w.devices
    ensures var v := Finish(w, id, status, registerRc);
            && id !in v.contexts
            && Statuses(v.done, id) == Statuses(w.done, id) + [if status != 0 then status else registerRc]
  {
    hide Statuses;
    StatusesElsewhere(w, Finish(w, id, status, registerRc), id, if status != 0 then status else registerRc, id);
  }

  lemma CreationElsewhere(w: World, op: Op, a: Answer, x: nat)
    requires op.stage.Creating() && op.id in w.contexts && op.id in w.devices && x != op.id
    ensures Kept(w, React(w, op, a), x)
  {
    hide Statuses, Finish;
    FinishElsewhere(w, op.id, a.rc, 0, x);
    var d := w.devices[op.id].(blob := true);
    var u := w.(devices := w.devices[op.id := d], blobs := w.blobs + {op.id});
    FinishElsewhere(u, op.id, 0, a.registerRc, x);
    KeptTwice(w, u, Finish(u, op.id, 0, a.registerRc), x);
  }

  lemma TornDownElsewhere(w: World, op: Op, rc: int, x: nat)
    requires (op.stage == CloseBlob ==> op.id in w.devices) && (x != op.id || x !in w.contexts)
    ensures Kept(w, TornDown(w, op, rc), x)
  {
    hide Statuses;
  }

  lemma ReactElsewhere(w: World, op: Op, a: Answer, x: nat)
    requires op.stage.Creating() ==> op.id in w.contexts && op.id in w.devices
    requires op.stage == CloseBlob ==> op.id in w.devices
    requires x != op.id || (!op.stage.Creating() && x !in w.contexts)
    ensures Kept(w, React(w.(pending := w.pending - multiset{op}), op, a), x)
  {
    hide Statuses, TornDown, Finish;
    var u := w.(pending := w.pending - multiset{op});
    assert Kept(w, u, x);
    if op.stage.Creating() { CreationElsewhere(u, op, a, x); } else { TornDownElsewhere(u, op, a.rc, x); }
    KeptTwice(w, u, React(u, op, a), x);
  }

  /** The callback of the operation that the plan has next. */
  lemma ReactPlanned(w: World, past: seq<Event>, op: Op, a: Answer)
    requires Planned(w, past, op.id) && op in w.pending && op.stage.Creating()
    requires op.id in w.contexts && op.id in w.devices && Statuses(w.done, op.id) == []
    ensures Planned(React(w.(pending := w.pending - multiset{op}), op, a), past + [Callback(op, a)], op.id)
  {
    hide Statuses, Requests, Trail;
    var id, e := op.id, Callback(op, a);
    var r, t, u := Requests(past)[id], Trail(past, id), Trail(past + [e], id);
    var plan := Plan(r.format);
    LogsAppend(past, e, id);
    assert w.pending[op] > 0 && plan[|t|] == op.stage;
    assert u == t + [Taken(op.stage, a)];
    assert forall j :: 0 <= j < |t| ==> t[j].answer.rc == 0;
    assert Follows(plan, u);
    ReactMoves(w, op, a, plan, |t|);
  }

  /** It reports, or waits for the step after it. */
  lemma ReactMoves(w: World, op: Op, a: Answer, plan: seq<Stage>, k: nat)
    requires op in w.pending && op.id in w.contexts && op.id in w.devices && Statuses(w.done, op.id) == []
    requires plan == Plan(w.contexts[op.id].format) && k < |plan| && plan[k] == op.stage && Waits(w, op.id, op.stage)
    ensures var v := React(w.(pending := w.pending - multiset{op}), op, a);
            && Statuses(v.done, op.id) ==
               (if a.rc != 0 then [a.rc] else if k + 1 < |plan| then [] else [a.registerRc])
            && (op.id in v.contexts <==> a.rc == 0 && k + 1 < |plan|)
            && (op.id in v.contexts ==> v.contexts[op.id] == w.contexts[op.id] && Waits(v, op.id, plan[k + 1]))
  {
    hide Statuses, Finish;
    var id, u := op.id, w.(pending := w.pending - multiset{op});
    FinishTells(u, id, a.rc, 0);
    FinishTells(u.(devices := w.devices[id := w.devices[id].(blob := true)], blobs := w.blobs + {id}), id, 0,
                a.registerRc);
  }

  lemma CallbackPlanned(w: World, past: seq<Event>, op: Op, a: Answer, x: nat)
    requires Inv(w) && AllPlanned(w, past) && Enabled(w, Callback(op, a)) && Safe(w, Callback(op, a)) && x < w.asked
    ensures Planned(Step(w, Callback(op, a)), past + [Callback(op, a)], x)
  {
    hide Statuses, Planned, React, Kept, Alive;
    assert Planned(w, past, x) && Fine(w, op.id);
    if op.stage.Creating() {
      CreationLanded(w, op);
      if x == op.id {
        ReactPlanned(w, past, op, a);
      } else {
        ReactElsewhere(w, op, a, x);
        KeptPlanned(w, Step(w, Callback(op, a)), past, Callback(op, a), x);
      }
    } else {
      TeardownIsRetired(w, op);
      ReactElsewhere(w, op, a, x);
      KeptPlanned(w, Step(w, Callback(op, a)), past, Callback(op, a), x);
    }
  }

  lemma DestructElsewhere(w: World, id: nat, x: nat)
    requires id in w.devices && id !in w.contexts
    ensures Kept(w, Destruct(w, id), x)
  {
    hide Statuses;
  }

  lemma StepPlanned(w: World, past: seq<Event>, e: Event, x: nat)
    requires Inv(w) && AllPlanned(w, past) && Enabled(w, e) && Safe(w, e) && x < Step(w, e).asked
    ensures Planned(Step(w, e), past + [e], x)
  {
    hide Statuses, Planned, React, Begin, Kept, Alive, Destruct, Inv;
    match e {
      case New(format, allocOk, nameOk, baseRc) =>
        if x == w.asked {
          assert Fine(w, x) by { InvFine(w, x); }
          BeginPlanned(w, past, e);
        } else {
          AskedNext(w, e);
          BeginElsewhere(w, format, allocOk, nameOk, baseRc, x);
          KeptPlanned(w, Step(w, e), past, e, x);
        }
      case Callback(op, a) =>
        AskedNext(w, e);
        CallbackPlanned(w, past, op, a, x);
      case Delete(id) =>
        AskedNext(w, e);
        InvFine(w, id);
        DestructElsewhere(w, id, x);
        KeptPlanned(w, Step(w, e), past, e, x);
    }
  }

  lemma InvFine(w: World, id: nat)
    requires Inv(w)
    ensures Fine(w, id) && (id in w.published ==> id !in w.contexts)
  {
    hide Statuses, Alive;
    assert Fine(w, id);
  }

  lemma AskedNext(w: World, e: Event)
    requires Enabled(w, e) && Safe(w, e)
    ensures Step(w, e).asked == w.asked + if e.New? then 1 else 0
  {}

  lemma StepAllPlanned(w: World, past: seq<Event>, e: Event)
    requires Inv(w) && AllPlanned(w, past) && Enabled(w, e) && Safe(w, e)
    ensures AllPlanned(Step(w, e), past + [e])
  {
    hide Planned, Step, Inv, Requests, Trail;
    AskedNext(w, e);
    LogsAppend(past, e, 0);
    forall x: nat | x < Step(w, e).asked ensures Planned(Step(w, e), past + [e], x) {
      StepPlanned(w, past, e, x);
    }
    forall x: nat | x >= Step(w, e).asked ensures Trail(past + [e], x) == [] {
      LogsAppend(past, e, x);
      if e.Callback? && e.op.stage.Creating() {
        InvFine(w, e.op.id);
        CreationLanded(w, e.op);
      }
    }
  }

  lemma {:induction false} RunPlanned(w: World, past: seq<Event>, events: seq<Event>)
    requires Inv(w) && AllPlanned(w, past) && Run(w, events)
    ensures AllPlanned(Execute(w, events), past + Executed(w, events))
    decreases |events|
  {
    hide Inv, AllPlanned, Step, Enabled, Safe;
    if events == [] || !Safe(w, events[0]) {
      assert past + Executed(w, events) == past;
    } else {
      StepKeeps(w, events[0]);
      StepAllPlanned(w, past, events[0]);
      RunPlanned(Step(w, events[0]), past + [events[0]], events[1..]);
      assert past + [events[0]] + Executed(Step(w, events[0]), events[1..]) == past + Executed(w, events);
    }
  }

  // ------------------------------------------------------------------ theorems

  /** In every run every create follows its plan, and what it has reported is what its trail of answers says. */
  lemma CreateFollowsPlan(events: seq<Event>, id: nat)
    requires Run(START, events)
    ensures var w, past := Execute(START, events), Executed(START, events);
            && |Requests(past)| == w.asked
            && (id < w.asked ==> Planned(w, past, id))
            && (id >= w.asked ==> Trail(past, id) == [])
  {
    hide Execute, Executed, Run;
    assert [] + Executed(START, events) == Executed(START, events);
    RunPlanned(START, [], events);
  }

  /** All of the plan, in order, each with a zero. */
  predicate Completed(plan: seq<Stage>, t: seq<Taken>) {
    |t| == |plan| && forall j :: 0 <= j < |t| ==> t[j].stage == plan[j] && t[j].answer.rc == 0
  }

  /**
   * A create reports 0 exactly after the store was set up, when formatting also the blob created and its snapshot
   * taken, and the blob opened, all with success and in that order, and the bdev was registered.
   */
  lemma SucceedsIff(events: seq<Event>, id: nat)
    requires Run(START, events) && id < Execute(START, events).asked
    ensures var w, past := Execute(START, events), Executed(START, events);
            && id < |Requests(past)| && Requests(past)[id].New?
            && var r, t := Requests(past)[id], Trail(past, id);
               Statuses(w.done, id) == [0] <==>
                 Begins(r) && Completed(Plan(r.format), t) && t[|t| - 1].answer.registerRc == 0
  {
    hide Execute, Executed, Run, Statuses, Requests, Trail, Waits;
    CreateFollowsPlan(events, id);
    var past := Executed(START, events);
    var r, t := Requests(past)[id], Trail(past, id);
    if Begins(r) && t != [] {
      var plan, a := Plan(r.format), t[|t| - 1].answer;
      assert Told(plan, t) == [0] <==> |t| == |plan| && a.rc == 0 && a.registerRc == 0 by {
        assert [a.rc][0] == a.rc && [a.registerRc][0] == a.registerRc;
      }
    } else if !Begins(r) {
      assert [if r.allocOk && r.nameOk then r.baseRc else -ENOMEM][0] != 0;
    }
  }

  /** A create without formatting never has a blob created or a snapshot taken. */
  lemma LoadOnlyOpens(events: seq<Event>, id: nat, j: nat)
    requires Run(START, events)
    requires var past := Executed(START, events);
             && id < |Requests(past)| && Requests(past)[id].New? && !Requests(past)[id].format && j < |Trail(past, id)|
    ensures j < 2 && Trail(Executed(START, events), id)[j].stage == if j == 0 then InitStore else OpenBlob
  {
    hide Execute, Executed, Run, Statuses, Requests, Trail, Waits;
    CreateFollowsPlan(events, id);
  }
}
