/** Every step of the create protocol keeps its invariant, and what follows for whole runs. */
module CreateProofs {
  import opened Create

  // ------------------------------------------------------------------ logs

  lemma StatusesAppend(done: seq<Done>, d: Done, id: nat)
    ensures Statuses(done + [d], id) == Statuses(done, id) + (if d.id == id then [d.status] else [])
  {
    assert (done + [d])[..|done|] == done;
  }

  lemma AliveAppend(done: seq<Done>, d: Done, destructed: set<nat>)
    ensures Alive(done + [d], destructed)
            == Alive(done, destructed) + (if d.status == 0 && d.id !in destructed then [d.id] else [])
  {
    assert (done + [d])[..|done|] == done;
  }

  lemma {:induction false} AliveUnrelated(done: seq<Done>, destructed: set<nat>, id: nat)
    requires Statuses(done, id) == []
    ensures Alive(done, destructed + {id}) == Alive(done, destructed)
  {
    if done != [] { AliveUnrelated(done[..|done| - 1], destructed, id); }
  }

  /** Destructing a device takes it, and only it, off the list. */
  lemma {:induction false} AliveRemoves(done: seq<Done>, destructed: set<nat>, id: nat)
    requires Statuses(done, id) == [0] && id !in destructed
    ensures Alive(done, destructed + {id}) == Remove(Alive(done, destructed), id)
  {
    var n := |done| - 1;
    var a := Alive(done[..n], destructed);
    if done[n].id == id {
      assert Statuses(done, id) == Statuses(done[..n], id) + [done[n].status];
      assert |Statuses(done[..n], id)| == 0 && done[n].status == Statuses(done, id)[0];
      AliveUnrelated(done[..n], destructed, id);
      assert (a + [id])[..|a|] == a;
    } else {
      assert Statuses(done[..n], id) == Statuses(done, id);
      AliveRemoves(done[..n], destructed, id);
      if done[n].status == 0 && done[n].id !in destructed {
        assert (a + [done[n].id])[..|a|] == a;
      } else {
        assert Alive(done, destructed) == a;
      }
    }
  }

  lemma {:induction false} AliveMembers(done: seq<Done>, destructed: set<nat>, id: nat)
    requires |Statuses(done, id)| <= 1
    ensures id in Alive(done, destructed) <==> Statuses(done, id) == [0] && id !in destructed
  {
    if done != [] {
      var n := |done| - 1;
      assert done[n].id == id ==> |Statuses(done[..n], id)| == 0 && done[n].status == Statuses(done, id)[0];
      AliveMembers(done[..n], destructed, id);
    }
  }

  // ------------------------------------------------------------------ frames

  ghost predicate Same(w: World, v: World, x: nat) {
    && (x in w.contexts <==> x in v.contexts) && (x in w.contexts ==> w.contexts[x] == v.contexts[x])
    && (x in w.devices <==> x in v.devices) && (x in w.devices ==> w.devices[x] == v.devices[x])
    && Statuses(w.done, x) == Statuses(v.done, x)
    && (x in w.published <==> x in v.published) && (x in w.destructed <==> x in v.destructed)
    && (x in w.ioDevices <==> x in v.ioDevices) && (x in w.stores <==> x in v.stores)
    && (x in w.blobs <==> x in v.blobs)
    && (x in w.made <==> x in v.made) && (forall s: Stage :: Op(x, s) in w.failed <==> Op(x, s) in v.failed)
    && forall s: Stage :: w.pending[Op(x, s)] == v.pending[Op(x, s)]
  }

  ghost predicate Others(w: World, v: World, id: nat) {
    forall x: nat :: x != id ==> Same(w, v, x)
  }

  lemma WaitsSame(w: World, v: World, x: nat, s: Stage)
    requires Same(w, v, x)
    ensures Waits(w, x, s) == Waits(v, x, s) && Quiet(w, x) == Quiet(v, x) && Unfailed(w, x) == Unfailed(v, x)
    ensures Retired(w, x) == Retired(v, x)
  {}

  lemma SameKeeps(w: World, v: World, x: nat)
    requires Same(w, v, x)
    ensures CreateOk(w, x) ==> CreateOk(v, x)
    ensures Unknown(w, x) ==> Unknown(v, x)
  {
    hide Waits, Quiet, Statuses, Unfailed, Retired;
    WaitsSame(w, v, x, InitStore);
    forall s: Stage ensures Waits(w, x, s) == Waits(v, x, s) {
      WaitsSame(w, v, x, s);
    }
  }

  lemma SameTwice(w: World, u: World, v: World, id: nat)
    requires Others(w, u, id) && Others(u, v, id)
    ensures Others(w, v, id)
  {
    forall x: nat | x != id ensures Same(w, v, x) {
      assert Same(w, u, x) && Same(u, v, x);
    }
  }

  lemma OneCreate(w: World, v: World, id: nat)
    requires (forall x: nat :: Fine(w, x)) && id < v.asked
    requires (v.asked == w.asked || (id == w.asked && v.asked == w.asked + 1))
    requires CreateOk(v, id) && Others(w, v, id)
    ensures forall x: nat :: Fine(v, x)
  {
    hide CreateOk, Unknown, Same;
    forall x: nat ensures Fine(v, x) {
      assert Fine(w, x);
      if x != id { SameKeeps(w, v, x); }
    }
  }

  // ------------------------------------------------------------------ pieces of the steps

  lemma ReportEffect(w: World, id: nat, status: int)
    ensures Statuses(Report(w, id, status).done, id) == Statuses(w.done, id) + [status]
    ensures Others(w, Report(w, id, status), id)
  {
    var d := Done(id, status);
    forall x: nat ensures Statuses(w.done + [d], x) == Statuses(w.done, x) + (if x == id then [status] else []) {
      StatusesAppend(w.done, d, x);
    }
  }

  /** A struct in memory whose pointers say what it holds, with nothing in flight. */
  ghost predicate Whole(w: World, id: nat) {
    && id in w.devices && id in w.made && (w.devices[id].blob ==> w.devices[id].blobstore) && Unfailed(w, id)
    && Quiet(w, id)
    && (id in w.stores <==> w.devices[id].blobstore) && (id in w.blobs <==> w.devices[id].blob)
  }

  /** Taking a device apart leads to its retirement. */
  lemma TakeApartRetires(w: World, id: nat)
    requires Whole(w, id) && id !in w.ioDevices && id !in w.destructed
    ensures var v := TakeApart(w, id);
            Retired(v, id) && Others(w, v, id) && v == w.(pending := v.pending)
  {}

  /** A create whose device, if any, may be taken apart now, with nothing in flight. */
  ghost predicate Failable(w: World, id: nat) {
    && Statuses(w.done, id) == [] && id in w.contexts && Quiet(w, id)
    && id !in w.published && id !in w.destructed
    && (id in w.ioDevices <==> w.contexts[id].registered)
    && if w.contexts[id].hasDevice then Whole(w, id)
       else
         && id !in w.stores && id !in w.blobs && !w.contexts[id].registered
         && id !in w.made && id !in w.devices && Unfailed(w, id)
  }

  lemma FailKeeps(w: World, id: nat, status: int)
    requires Failable(w, id) && status != 0
    ensures CreateOk(Fail(w, id, status), id) && Others(w, Fail(w, id, status), id)
    ensures Fail(w, id, status).done == w.done + [Done(id, status)]
    ensures Fail(w, id, status).list == w.list && Fail(w, id, status).destructed == w.destructed
  {
    hide Statuses;
    var u := if w.contexts[id].registered then w.(ioDevices := w.ioDevices - {id}) else w;
    assert Others(w, u, id);
    if w.contexts[id].hasDevice {
      TakeApartRetires(u, id);
      var t := TakeApart(u, id);
      SameTwice(w, u, t, id);
      ReportEffect(t, id, status);
      assert Statuses(Report(t, id, status).done, id) == [status] && [status][0] != 0;
      RetiredFrame(t, Report(t, id, status), id);
      SameTwice(w, t, Report(t, id, status), id);
    } else {
      assert Retired(w, id);
      ReportEffect(w, id, status);
      assert Statuses(Report(w, id, status).done, id) == [status] && [status][0] != 0;
      RetiredFrame(w, Report(w, id, status), id);
    }
  }

  lemma RetiredFrame(w: World, v: World, id: nat)
    requires Retired(w, id) && v == w.(done := v.done, contexts := v.contexts)
    ensures Retired(v, id)
  {}

  lemma PublishKeeps(w: World, id: nat)
    requires Failable(w, id) && w.contexts[id].registered && w.contexts[id].hasDevice
    requires w.devices[id] == Device(true, true)
    ensures CreateOk(Report(Publish(w, id), id, 0), id) && Others(w, Report(Publish(w, id), id, 0), id)
  {
    hide Statuses;
    ReportEffect(Publish(w, id), id, 0);
    SameTwice(w, Publish(w, id), Report(Publish(w, id), id, 0), id);
  }

  /** What a create step owes: its own create in order, the others untouched, the list exact. */
  ghost predicate Good(w: World, v: World, id: nat) {
    && v.asked == w.asked && CreateOk(v, id) && Others(w, v, id)
    && v.list == Alive(v.done, v.destructed)
  }

  lemma FinishKeeps(w: World, id: nat, status: int, registerRc: int)
    requires Failable(w, id) && w.list == Alive(w.done, w.destructed)
    requires status == 0 ==>
               w.contexts[id].registered && w.contexts[id].hasDevice && w.devices[id] == Device(true, true)
    ensures Good(w, Finish(w, id, status, registerRc), id)
  {
    hide Statuses, CreateOk, Same, Others, Alive;
    var end := if status != 0 then status else registerRc;
    AliveAppend(w.done, Done(id, end), w.destructed);
    if end != 0 { FailKeeps(w, id, end); } else { PublishKeeps(w, id); }
  }

  // ------------------------------------------------------------------ the steps

  lemma BeginKeeps(w: World, format: bool, allocOk: bool, nameOk: bool, baseRc: int)
    requires Inv(w)
    ensures Inv(Begin(w, format, allocOk, nameOk, baseRc))
  {
    hide Statuses, CreateOk, Alive;
    var id, v := w.asked, Begin(w, format, allocOk, nameOk, baseRc);
    assert Fine(w, id);
    var u := w.(asked := id + 1, contexts := w.contexts[id := Context(false, false, false)]);
    var t := u.(devices := u.devices[id := Device(false, false)], made := u.made + {id},
                contexts := u.contexts[id := Context(true, false, false)]);
    assert Others(w, u, id) && Others(w, t, id);
    if !allocOk {
      FinishKeeps(u, id, -ENOMEM, 0);
      SameTwice(w, u, v, id);
    } else if !nameOk || baseRc != 0 {
      FinishKeeps(t, id, if !nameOk then -ENOMEM else baseRc, 0);
      SameTwice(w, t, v, id);
    } else {
      BeginsCreation(w, format);
    }
    OneCreate(w, v, id);
  }

  lemma BeginsCreation(w: World, format: bool)
    requires Unknown(w, w.asked)
    ensures var v := Begin(w, format, true, true, 0); CreateOk(v, w.asked) && Others(w, v, w.asked) && v.done == w.done
  {
    var id := w.asked;
    var v := Begin(w, format, true, true, 0);
    assert Waits(v, id, InitStore);
  }

  /** The one operation of a create has come back. */
  lemma CreationLanded(w: World, op: Op)
    requires Fine(w, op.id) && op in w.pending && op.stage.Creating()
    ensures var u := w.(pending := w.pending - multiset{op});
            && op.id < w.asked && InCreation(w, op.id) && Failable(u, op.id) && Others(w, u, op.id)
            && (w.devices[op.id].blobstore <==> op.stage != InitStore)
  {
    hide Statuses;
    var id := op.id;
    assert w.pending[Op(id, op.stage)] > 0;
    if InCreation(w, id) {
      var s: Stage :| s.Creating() && Waits(w, id, s) && (w.devices[id].blobstore <==> s != InitStore);
    }
  }

  lemma MovesOn(w: World, v: World, id: nat, stage: Stage)
    requires Failable(w, id) && w.contexts[id].hasDevice && w.contexts[id].registered && stage.Creating()
    requires stage != InitStore
    requires !w.devices[id].blob
    requires v == Wait(w.(devices := w.devices[id := w.devices[id].(blobstore := true)], stores := w.stores + {id}),
                       id, stage)
    ensures CreateOk(v, id) && Others(w, v, id)
  {
    assert Waits(v, id, stage);
  }

  lemma CreationKeeps(w: World, op: Op, a: Answer)
    requires Failable(w, op.id) && w.contexts[op.id].hasDevice && w.contexts[op.id].registered && op.stage.Creating()
    requires !w.devices[op.id].blob && (w.devices[op.id].blobstore <==> op.stage != InitStore)
    requires w.list == Alive(w.done, w.destructed)
    ensures Good(w, React(w, op, a), op.id)
  {
    hide Statuses, CreateOk, Alive, Finish, Same;
    var id, d := op.id, w.devices[op.id];
    if a.rc != 0 {
      FinishKeeps(w, id, a.rc, 0);
    } else if op.stage == OpenBlob {
      var u := w.(devices := w.devices[id := d.(blob := true)], blobs := w.blobs + {id});
      FinishKeeps(u, id, 0, a.registerRc);
      BlobSame(w, u, id);
      SameTwice(w, u, React(w, op, a), id);
    } else {
      var next := match op.stage case InitStore => if w.contexts[id].format then CreateBlob else OpenBlob
                                 case CreateBlob => TakeSnapshot case _ => OpenBlob;
      assert op.stage != InitStore ==> w.devices[id := d.(blobstore := true)] == w.devices;
      assert op.stage != InitStore ==> w.stores + {id} == w.stores;
      MovesOn(w, React(w, op, a), id, next);
    }
  }

  lemma BlobSame(w: World, u: World, id: nat)
    requires id in w.devices && u == w.(devices := u.devices, blobs := w.blobs + {id})
    requires u.devices == w.devices[id := w.devices[id].(blob := true)]
    ensures Others(w, u, id)
  {}

  lemma CreationCallback(w: World, op: Op, a: Answer)
    requires Inv(w) && op in w.pending && op.stage.Creating()
    ensures Safe(w, Callback(op, a)) && Inv(Step(w, Callback(op, a)))
  {
    hide Statuses, CreateOk, Alive, React, Same;
    var u := w.(pending := w.pending - multiset{op});
    assert Fine(w, op.id);
    CreationLanded(w, op);
    CreationKeeps(u, op, a);
    SameTwice(w, u, React(u, op, a), op.id);
    OneCreate(w, React(u, op, a), op.id);
  }

  /** A teardown operation belongs to a retired device. */
  lemma TeardownIsRetired(w: World, op: Op)
    requires Fine(w, op.id) && op in w.pending && !op.stage.Creating()
    ensures op.id < w.asked && op.id !in w.contexts && op.id !in w.published && Retired(w, op.id)
  {
    hide Statuses;
    assert w.pending[Op(op.id, op.stage)] > 0;
    forall s: Stage | s.Creating() ensures !Waits(w, op.id, s) {
      assert s != op.stage;
    }
  }

  /** Its callback leaves the device retired, and touches nothing else. */
  lemma TeardownKeeps(w: World, op: Op, rc: int)
    requires Retired(w, op.id) && op in w.pending && !op.stage.Creating()
    requires (op.stage == CloseBlob ==> op.id in w.devices)
    ensures var u := TornDown(w.(pending := w.pending - multiset{op}), op, rc);
            && Retired(u, op.id) && Others(w, u, op.id)
            && u == w.(pending := u.pending, stores := u.stores, blobs := u.blobs, failed := u.failed,
                       devices := u.devices)
  {
    hide Retired, TornDown, Same;
    TornDownFrame(w, op, rc);
    match op.stage {
      case CloseBlob => CloseKeeps(w, op, rc);
      case Unload => UnloadKeeps(w, op, rc);
      case FreeDevice => FreeKeeps(w, op, rc);
    }
  }

  lemma TornDownFrame(w: World, op: Op, rc: int)
    requires op.stage == CloseBlob ==> op.id in w.devices
    ensures var u := TornDown(w.(pending := w.pending - multiset{op}), op, rc);
            && Others(w, u, op.id)
            && u == w.(pending := u.pending, stores := u.stores, blobs := u.blobs, failed := u.failed,
                       devices := u.devices)
  {
    hide Statuses, Same;
    var v := w.(pending := w.pending - multiset{op});
    var t := GivenBack(v, op, rc);
    LandedFrame(w, op);
    GivenBackFrame(v, op, rc);
    SameTwice(w, v, t, op.id);
    FreedFrame(v, op.id);
    SameTwice(w, v, v.(devices := v.devices - {op.id}), op.id);
    if op.stage == CloseBlob {
      WaitFrame(t, op.id, Unload);
      SameTwice(w, t, Wait(t, op.id, Unload), op.id);
    }
  }

  lemma LandedFrame(w: World, op: Op)
    ensures Others(w, w.(pending := w.pending - multiset{op}), op.id)
  {}

  lemma WaitFrame(w: World, id: nat, stage: Stage)
    ensures Others(w, Wait(w, id, stage), id)
  {}

  lemma GivenBackFrame(w: World, op: Op, rc: int)
    ensures Others(w, GivenBack(w, op, rc), op.id)
  {}

  lemma FreedFrame(w: World, id: nat)
    ensures Others(w, w.(devices := w.devices - {id}), id)
  {}

  lemma CloseKeeps(w: World, op: Op, rc: int)
    requires Retired(w, op.id) && op in w.pending && op.stage == CloseBlob && op.id in w.devices
    ensures Retired(TornDown(w.(pending := w.pending - multiset{op}), op, rc), op.id)
  {
    assert w.pending[Op(op.id, op.stage)] > 0;
  }

  lemma UnloadKeeps(w: World, op: Op, rc: int)
    requires Retired(w, op.id) && op in w.pending && op.stage == Unload
    ensures Retired(TornDown(w.(pending := w.pending - multiset{op}), op, rc), op.id)
  {
    assert w.pending[Op(op.id, op.stage)] > 0;
  }

  lemma FreeKeeps(w: World, op: Op, rc: int)
    requires Retired(w, op.id) && op in w.pending && op.stage == FreeDevice
    ensures Retired(TornDown(w.(pending := w.pending - multiset{op}), op, rc), op.id)
  {
    assert w.pending[Op(op.id, op.stage)] > 0;
  }

  lemma TeardownCallback(w: World, op: Op, a: Answer)
    requires Inv(w) && op in w.pending && !op.stage.Creating()
    ensures DeviceSafe(w, Callback(op, a)) ==> Inv(Step(w, Callback(op, a)))
  {
    hide Statuses, Alive, TornDown, Same, Retired;
    assert Fine(w, op.id);
    TeardownIsRetired(w, op);
    if DeviceSafe(w, Callback(op, a)) {
      TeardownKeeps(w, op, a.rc);
      OneCreate(w, TornDown(w.(pending := w.pending - multiset{op}), op, a.rc), op.id);
    }
  }

  lemma DestructRetires(w: World, id: nat)
    requires Fine(w, id) && id in w.published
    ensures var v := Destruct(w, id);
            && id < w.asked && id in w.devices && Statuses(w.done, id) == [0] && id !in w.destructed
            && CreateOk(v, id) && Others(w, v, id)
            && v.done == w.done && v.asked == w.asked && v.list == Remove(w.list, id)
            && v.destructed == w.destructed + {id}
  {
    hide Statuses, Remove;
  }

  lemma DestructKeeps(w: World, id: nat)
    requires Inv(w) && id in w.published
    ensures id in w.devices && Inv(Destruct(w, id))
  {
    hide Statuses, CreateOk, Alive, Same, Remove, Destruct;
    assert Fine(w, id);
    DestructRetires(w, id);
    AliveRemoves(w.done, w.destructed, id);
    OneCreate(w, Destruct(w, id), id);
  }

  /** Every event that can happen finds its create context; if it also finds its device, it keeps the invariant. */
  lemma StepKeeps(w: World, v: Event)
    requires Inv(w) && Enabled(w, v)
    ensures ContextSafe(w, v) && (Safe(w, v) ==> Inv(Step(w, v)))
  {
    hide Inv, React, Begin, Destruct;
    match v {
      case New(format, allocOk, nameOk, baseRc) => BeginKeeps(w, format, allocOk, nameOk, baseRc);
      case Callback(op, a) =>
        if op.stage.Creating() { CreationCallback(w, op, a); } else { TeardownCallback(w, op, a); }
      case Delete(id) => DestructKeeps(w, id);
    }
  }

  lemma {:induction false} RunKeeps(w: World, events: seq<Event>)
    requires Inv(w) && Run(w, events)
    ensures AllContextSafe(w, events) && Inv(Execute(w, events))
    decreases |events|
  {
    hide Inv, Step, Enabled, Safe, ContextSafe;
    if events != [] {
      StepKeeps(w, events[0]);
      if Safe(w, events[0]) { RunKeeps(Step(w, events[0]), events[1..]); }
    }
  }

  lemma AlwaysInv(events: seq<Event>)
    requires Run(START, events)
    ensures AllContextSafe(START, events) && Inv(Execute(START, events))
  {
    RunKeeps(START, events);
  }

  // ------------------------------------------------------------------ theorems

  /** No callback of a create runs after its context is released, in any run. */
  lemma NoStepOnReleasedContext(events: seq<Event>)
    requires Run(START, events)
    ensures AllContextSafe(START, events)
  {
    AlwaysInv(events);
  }

  /** A create still has a step to come. */
  ghost predicate UnderWay(w: World, id: nat) {
    exists s: Stage :: s.Creating() && Op(id, s) in w.pending
  }

  /** done_fn is called exactly once per create: not before its last step, and never again. */
  lemma DoneExactlyOnce(events: seq<Event>, id: nat)
    requires Run(START, events)
    ensures var w := Execute(START, events);
            |Statuses(w.done, id)| == if id < w.asked && !UnderWay(w, id) then 1 else 0
  {
    hide Statuses;
    var w := Execute(START, events);
    AlwaysInv(events);
    assert Fine(w, id);
    assert forall s: Stage :: Op(id, s) in w.pending <==> w.pending[Op(id, s)] > 0;
  }

  /** The list is, in order, the devices whose create reported success and which have not been destructed since. */
  lemma ListExact(events: seq<Event>, id: nat)
    requires Run(START, events)
    ensures var w := Execute(START, events);
            && w.list == Alive(w.done, w.destructed)
            && (id in w.list <==> Statuses(w.done, id) == [0] && id !in w.destructed)
            && (id in w.list <==> id in w.published)
  {
    hide Statuses, Alive;
    var w := Execute(START, events);
    AlwaysInv(events);
    assert Fine(w, id);
    AliveMembers(w.done, w.destructed, id);
  }

  /**
   * With nothing in flight, exactly the listed devices have an io_device; a blob is open, or a blobstore loaded, for
   * exactly the listed devices and those whose close, or unload, came back with an error; and the structs in memory are
   * the listed ones and those of the failed creates, which nothing frees.
   */
  lemma LeftoversExact(events: seq<Event>, id: nat)
    requires Run(START, events) && Execute(START, events).pending == multiset{}
    ensures var w := Execute(START, events);
            && id !in w.contexts
            && (id in w.ioDevices <==> id in w.list)
            && (id in w.blobs <==> id in w.list || Op(id, CloseBlob) in w.failed)
            && (id in w.stores <==> id in w.list || Op(id, Unload) in w.failed)
            && (id in w.devices <==> id in w.made && id !in w.destructed)
  {
    hide Statuses, Alive;
    var w := Execute(START, events);
    AlwaysInv(events);
    ListExact(events, id);
    assert Fine(w, id);
    forall s: Stage ensures !Waits(w, id, s) {
      assert w.pending[Op(id, s)] == 0;
    }
  }

  // ------------------------------------------------------------------ devices freed too early

  /** From step `n` on, no step reads a device after the callback that frees it. */
  ghost predicate FreedLastFrom(events: seq<Event>, n: nat) {
    forall j, k :: 0 <= j < k < |events| && k >= n && Frees(events[j]) && Dereferences(events[k]) ==>
      Subject(events[j]) != Subject(events[k])
  }

  ghost predicate FreedLast(events: seq<Event>) {
    FreedLastFrom(events, 0)
  }

  predicate Frees(v: Event) {
    v.Callback? && v.op.stage == FreeDevice
  }

  /** Whose free has happened: exactly the allocated devices that are gone. */
  ghost predicate Gone(w: World, past: seq<Event>) {
    forall id: nat ::
      (exists j :: 0 <= j < |past| && Frees(past[j]) && Subject(past[j]) == id) <==> (id in w.made && id !in w.devices)
  }

  /** Nothing but the free takes a device out of memory, and it never comes back. */
  lemma StepGone(w: World, v: Event, x: nat)
    requires Inv(w) && Enabled(w, v) && Safe(w, v)
    ensures var t := Step(w, v);
            (x in t.made && x !in t.devices) <==> ((x in w.made && x !in w.devices) || (Frees(v) && Subject(v) == x))
  {
    hide Statuses, Alive, Fine, Remove;
    assert Fine(w, w.asked);
    match v {
      case New(format, allocOk, nameOk, baseRc) => BeginGone(w, format, allocOk, nameOk, baseRc, x);
      case Callback(op, a) =>
        if op.stage == FreeDevice { TeardownMade(w, op); }
        ReactGone(w.(pending := w.pending - multiset{op}), op, a, x);
      case Delete(_) =>
    }
  }

  lemma BeginGone(w: World, format: bool, allocOk: bool, nameOk: bool, baseRc: int, x: nat)
    requires Fine(w, w.asked)
    ensures var t := Begin(w, format, allocOk, nameOk, baseRc);
            (x in t.made && x !in t.devices) <==> (x in w.made && x !in w.devices)
  {
    hide Statuses;
  }

  lemma ReactGone(w: World, op: Op, a: Answer, x: nat)
    requires op.stage.Creating() ==> op.id in w.contexts && op.id in w.devices
    requires op.stage == CloseBlob || op.stage == FreeDevice ==> op.id in w.devices
    requires op.stage == FreeDevice ==> op.id in w.made
    ensures var t := React(w, op, a);
            (x in t.made && x !in t.devices) <==>
            ((x in w.made && x !in w.devices) || (op.stage == FreeDevice && op.id == x))
  {}

  lemma GoneGrows(w: World, v: Event, past: seq<Event>)
    requires Inv(w) && Enabled(w, v) && Safe(w, v) && Gone(w, past)
    ensures Gone(Step(w, v), past + [v])
  {
    hide Step, Enabled, Safe, Inv;
    var t, now := Step(w, v), past + [v];
    forall x: nat
      ensures (exists j :: 0 <= j < |now| && Frees(now[j]) && Subject(now[j]) == x) <==>
              (x in t.made && x !in t.devices)
    {
      StepGone(w, v, x);
      if Frees(v) && Subject(v) == x { assert Frees(now[|past|]); }
      if j :| 0 <= j < |past| && Frees(past[j]) && Subject(past[j]) == x { assert now[j] == past[j]; }
      if j :| 0 <= j < |now| && Frees(now[j]) && Subject(now[j]) == x { assert j < |past| ==> now[j] == past[j]; }
    }
  }

  /** A device that the step needs was allocated. */
  lemma DereferencedWasMade(w: World, v: Event)
    requires Inv(w) && Enabled(w, v) && Dereferences(v)
    ensures Subject(v) in w.made
  {
    hide Statuses, Alive;
    assert Fine(w, Subject(v));
    if v.Callback? { TeardownMade(w, v.op); }
  }

  lemma TeardownMade(w: World, op: Op)
    requires Inv(w) && op in w.pending && !op.stage.Creating()
    ensures op.id in w.made
  {
    hide Statuses, Alive;
    assert Fine(w, op.id);
    TeardownIsRetired(w, op);
    assert w.pending[op] > 0;
  }

  /** `events` follow `past`, and no step reads a device after the callback that frees it. */
  ghost predicate LateFree(past: seq<Event>, events: seq<Event>)
    decreases |events|
  {
    events != [] ==>
      && (forall j :: 0 <= j < |past| && Frees(past[j]) && Dereferences(events[0]) ==>
            Subject(past[j]) != Subject(events[0]))
      && LateFree(past + [events[0]], events[1..])
  }

  lemma {:induction false} LateFreeMeans(past: seq<Event>, events: seq<Event>)
    ensures LateFree(past, events) <==> FreedLastFrom(past + events, |past|)
    decreases |events|
  {
    if events != [] {
      var all := past + events;
      assert past + [events[0]] + events[1..] == all;
      LateFreeMeans(past + [events[0]], events[1..]);
      assert all[|past|] == events[0] && forall j :: 0 <= j < |past| ==> all[j] == past[j];
    }
  }

  lemma {:induction false} SafeIffLateFree(w: World, past: seq<Event>, events: seq<Event>)
    requires Inv(w) && Run(w, events) && Gone(w, past)
    ensures AllSafe(w, events) <==> LateFree(past, events)
    decreases |events|
  {
    hide Inv, Step, Enabled, ContextSafe;
    if events != [] {
      var v := events[0];
      StepKeeps(w, v);
      if Dereferences(v) { DereferencedWasMade(w, v); }
      if Safe(w, v) {
        GoneGrows(w, v, past);
        SafeIffLateFree(Step(w, v), past + [v], events[1..]);
      }
    }
  }

  /**
   * ubi_destruct asks for the blob to be closed and for the device to be freed, and does not order the two. In any run
   * all steps find their device in memory if and only if no step that reads a device comes after the callback that
   * frees it.
   */
  lemma DevicesLiveIff(events: seq<Event>)
    requires Run(START, events)
    ensures AllSafe(START, events) <==> FreedLast(events)
  {
    hide Run, AllSafe, LateFree, Inv, Gone, FreedLastFrom;
    StartInv();
    SafeIffLateFree(START, [], events);
    LateFreeMeans([], events);
    assert [] + events == events;
  }

  lemma StartInv()
    ensures Inv(START) && Gone(START, [])
  {}

  /** A destruct, the free, and only then the callback of the close. */
  function EarlyFreeOf(id: nat): seq<Event> {
    [Delete(id), Callback(Op(id, FreeDevice), Answer(0, 0)), Callback(Op(id, CloseBlob), Answer(0, 0))]
  }

  /** Destructing a device in service leaves its close and its free in flight, in no order. */
  lemma DestructSubmits(w: World, id: nat)
    requires InService(w, id)
    ensures var t := Destruct(w, id); Op(id, CloseBlob) in t.pending && Op(id, FreeDevice) in t.pending
  {}

  /** From every reachable world, every listed device can be destructed and freed before its close has come back. */
  lemma EveryDeviceCanBeFreedEarly(past: seq<Event>, id: nat)
    requires Run(START, past) && id in Execute(START, past).list
    ensures Run(Execute(START, past), EarlyFreeOf(id)) && !AllSafe(Execute(START, past), EarlyFreeOf(id))
  {
    hide Statuses, Alive, Remove, Retired;
    var w, events := Execute(START, past), EarlyFreeOf(id);
    AlwaysInv(past);
    ListExact(past, id);
    assert Fine(w, id);
    DestructSubmits(w, id);
    var t := Destruct(w, id);
    assert Step(w, events[0]) == t;
    var f := t.(pending := t.pending - multiset{Op(id, FreeDevice)}, devices := t.devices - {id});
    FreesFirst(t, id);
    assert events[1..][1..] == events[2..];
    RunFirst(t, events[1..]);
    RunFirst(w, events);
  }

  lemma FreesFirst(t: World, id: nat)
    requires Op(id, CloseBlob) in t.pending && Op(id, FreeDevice) in t.pending && id in t.devices
    ensures var free, close := EarlyFreeOf(id)[1], EarlyFreeOf(id)[2];
            && Enabled(t, free) && Safe(t, free)
            && Run(Step(t, free), [close]) && !AllSafe(Step(t, free), [close])
  {
    assert [EarlyFreeOf(id)[2]][1..] == [];
  }

  /** One create, its destruct, and the free before the close has come back. */
  const EARLY: seq<Event> :=
    [New(false, true, true, 0), Callback(Op(0, InitStore), Answer(0, 0)), Callback(Op(0, OpenBlob), Answer(0, 0)),
     Delete(0), Callback(Op(0, FreeDevice), Answer(0, 0)), Callback(Op(0, CloseBlob), Answer(0, 0))]

  function Made(blobstore: bool): World {
    START.(asked := 1, contexts := map[0 := Context(true, true, false)], devices := map[0 := Device(blobstore, false)],
           made := {0}, ioDevices := {0}, stores := if blobstore then {0} else {},
           pending := multiset{Op(0, if blobstore then OpenBlob else InitStore)})
  }

  function Serving(): World {
    Made(true).(contexts := map[], devices := map[0 := Device(true, true)], blobs := {0}, published := {0}, list := [0],
                done := [Done(0, 0)], pending := multiset{})
  }

  function Leaving(freed: bool): World {
    Serving().(published := {}, list := [], ioDevices := {}, destructed := {0},
               devices := if freed then map[] else map[0 := Device(true, true)],
               pending := if freed then multiset{Op(0, CloseBlob)} else multiset{Op(0, CloseBlob), Op(0, FreeDevice)})
  }

  lemma EarlyCreate()
    ensures Enabled(START, EARLY[0]) && Safe(START, EARLY[0]) && Step(START, EARLY[0]) == Made(false)
    ensures Enabled(Made(false), EARLY[1]) && Safe(Made(false), EARLY[1]) && Step(Made(false), EARLY[1]) == Made(true)
  {
    assert Step(START, EARLY[0]).contexts == Made(false).contexts;
    assert Step(Made(false), EARLY[1]).devices == Made(true).devices;
  }

  lemma EarlyService()
    ensures Enabled(Made(true), EARLY[2]) && Safe(Made(true), EARLY[2]) && Step(Made(true), EARLY[2]) == Serving()
  {
    assert Step(Made(true), EARLY[2]).devices == Serving().devices;
  }

  lemma EarlyDestruct()
    ensures Enabled(Serving(), EARLY[3]) && Safe(Serving(), EARLY[3]) && Step(Serving(), EARLY[3]) == Leaving(false)
  {
    assert Remove([0], 0) == [];
  }

  lemma EarlyFree()
    ensures Enabled(Leaving(false), EARLY[4]) && Safe(Leaving(false), EARLY[4])
    ensures Step(Leaving(false), EARLY[4]) == Leaving(true)
    ensures Enabled(Leaving(true), EARLY[5]) && !Safe(Leaving(true), EARLY[5])
  {
    assert Step(Leaving(false), EARLY[4]).devices == map[];
  }

  lemma RunFirst(w: World, events: seq<Event>)
    requires events != [] && Enabled(w, events[0]) && Safe(w, events[0]) && Run(Step(w, events[0]), events[1..])
    ensures Run(w, events) && (AllSafe(w, events) <==> AllSafe(Step(w, events[0]), events[1..]))
  {}

  /** A run in which the close callback of a destructed device reads memory that is freed already. */
  lemma FreedTooEarly()
    ensures Run(START, EARLY) && !AllSafe(START, EARLY)
  {
    hide Step, Enabled, Safe;
    EarlyCreate();
    EarlyService();
    EarlyDestruct();
    EarlyFree();
    assert EARLY[5..] == [EARLY[5]] && EARLY[4..][1..] == EARLY[5..] && EARLY[3..][1..] == EARLY[4..];
    assert EARLY[2..][1..] == EARLY[3..] && EARLY[1..][1..] == EARLY[2..];
    RunFirst(Leaving(false), EARLY[4..]);
    RunFirst(Serving(), EARLY[3..]);
    RunFirst(Made(true), EARLY[2..]);
    RunFirst(Made(false), EARLY[1..]);
    RunFirst(START, EARLY);
  }
}
