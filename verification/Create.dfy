/**
 * Creating and destructing ubi bdevs (bdev_ubi.c): a chain of callbacks per create, an error exit at every step,
 * and the global list of devices.
 */
module Create {

  const ENOMEM: int := 12

  /** The operation in flight: the first four belong to a create, the others take a device apart. */
  datatype Stage = InitStore | CreateBlob | TakeSnapshot | OpenBlob | CloseBlob | Unload | FreeDevice {
    predicate Creating() {
      this != CloseBlob && this != Unload && this != FreeDevice
    }
  }

  datatype Op = Op(id: nat, stage: Stage)

  /** struct ubi_create_context; `hasDevice` says whether its ubi_bdev pointer is set. */
  datatype Context = Context(hasDevice: bool, registered: bool, format: bool)

  /** The two pointers of struct ubi_bdev that decide how it is taken apart. */
  datatype Device = Device(blobstore: bool, blob: bool)

  datatype Done = Done(id: nat, status: int)

  /**
   * `devices` are the ubi_bdev structs in memory, `list` is g_ubi_bdev_head, `published` is what the bdev layer holds;
   * `ioDevices`, `stores` and `blobs` are what is registered, loaded and open. The last three are history: what was
   * destructed, whose struct was ever allocated, and which teardown operations came back with an error.
   */
  datatype World = World(
    asked: nat, contexts: map<nat, Context>, devices: map<nat, Device>, pending: multiset<Op>, done: seq<Done>,
    list: seq<nat>, published: set<nat>, ioDevices: set<nat>, stores: set<nat>, blobs: set<nat>,
    destructed: set<nat>, made: set<nat>, failed: set<Op>)

  datatype Answer = Answer(rc: int, registerRc: int)

  // ------------------------------------------------------------------ the steps

  function Wait(w: World, id: nat, stage: Stage): World {
    w.(pending := w.pending + multiset{Op(id, stage)})
  }

  /** ubi_destruct_blob_close_cb. */
  function BlobClosed(w: World, id: nat): World
    requires id in w.devices
  {
    if w.devices[id].blobstore then Wait(w, id, Unload) else w
  }

  /** Closing the blob, if there is one, then unloading the blobstore. */
  function TakeApart(w: World, id: nat): World
    requires id in w.devices
  {
    if w.devices[id].blob then Wait(w, id, CloseBlob) else BlobClosed(w, id)
  }

  /** The call of done_fn and the release of the context. */
  function Report(w: World, id: nat, status: int): World {
    w.(done := w.done + [Done(id, status)], contexts := w.contexts - {id})
  }

  function Publish(w: World, id: nat): World {
    w.(published := w.published + {id}, list := w.list + [id])
  }

  /** The failure branch of ubi_finish_create. */
  function Fail(w: World, id: nat, status: int): World
    requires id in w.contexts && (w.contexts[id].hasDevice ==> id in w.devices)
  {
    var u := if w.contexts[id].registered then w.(ioDevices := w.ioDevices - {id}) else w;
    Report(if w.contexts[id].hasDevice then TakeApart(u, id) else w, id, status)
  }

  /** ubi_finish_create, whose status may still change when the bdev cannot be registered. */
  function Finish(w: World, id: nat, status: int, registerRc: int): World
    requires id in w.contexts && (w.contexts[id].hasDevice ==> id in w.devices)
  {
    if status != 0 then Fail(w, id, status)
    else if registerRc != 0 then Fail(w, id, registerRc)
    else Report(Publish(w, id), id, 0)
  }

  /** bdev_ubi_create with the answers of calloc, strdup and spdk_bdev_create_bs_dev_ext. */
  function Begin(w: World, format: bool, allocOk: bool, nameOk: bool, baseRc: int): World {
    var id := w.asked;
    var u := w.(asked := id + 1, contexts := w.contexts[id := Context(false, false, false)]);
    if !allocOk then Finish(u, id, -ENOMEM, 0)
    else
      var v := u.(devices := u.devices[id := Device(false, false)], made := u.made + {id},
                  contexts := u.contexts[id := Context(true, false, false)]);
      if !nameOk then Finish(v, id, -ENOMEM, 0)
      else if baseRc != 0 then Finish(v, id, baseRc, 0)
      else
        Wait(v.(ioDevices := v.ioDevices + {id}, contexts := v.contexts[id := Context(true, true, format)]), id,
            InitStore)
  }

  /** What the blobstore did about the close or unload: an error leaves the blob open or the store loaded. */
  function GivenBack(w: World, op: Op, rc: int): World {
    if rc != 0 then w.(failed := w.failed + {op})
    else if op.stage == CloseBlob then w.(blobs := w.blobs - {op.id})
    else w.(stores := w.stores - {op.id})
  }

  /** The teardown callbacks; an error is only logged. */
  function TornDown(w: World, op: Op, rc: int): World
    requires op.stage == CloseBlob ==> op.id in w.devices
  {
    if op.stage == CloseBlob then BlobClosed(GivenBack(w, op, rc), op.id)
    else if op.stage == Unload then GivenBack(w, op, rc)
    else w.(devices := w.devices - {op.id})
  }

  /** The callback of `op`, once the operation is out of flight. */
  function React(w: World, op: Op, a: Answer): World
    requires op.stage.Creating() ==> op.id in w.contexts && op.id in w.devices
    requires op.stage == CloseBlob ==> op.id in w.devices
  {
    var id := op.id;
    match op.stage
    case InitStore =>
      if a.rc != 0 then Finish(w, id, a.rc, 0)
      else
        Wait(w.(devices := w.devices[id := w.devices[id].(blobstore := true)], stores := w.stores + {id}), id,
             if w.contexts[id].format then CreateBlob else OpenBlob)
    case CreateBlob => if a.rc != 0 then Finish(w, id, a.rc, 0) else Wait(w, id, TakeSnapshot)
    case TakeSnapshot => if a.rc != 0 then Finish(w, id, a.rc, 0) else Wait(w, id, OpenBlob)
    case OpenBlob =>
      if a.rc != 0 then Finish(w, id, a.rc, 0)
      else Finish(w.(devices := w.devices[id := w.devices[id].(blob := true)], blobs := w.blobs + {id}), id, 0,
          a.registerRc)
    case _ => TornDown(w, op, a.rc)
  }

  /** TAILQ_REMOVE. */
  function Remove(s: seq<nat>, id: nat): seq<nat> {
    if s == [] then []
    else
      var n := |s| - 1;
      if s[n] == id then s[..n] else Remove(s[..n], id) + [s[n]]
  }

  /** ubi_destruct: the callback of the io_device's unregistration will free the struct. */
  function Destruct(w: World, id: nat): World
    requires id in w.devices
  {
    var u := w.(published := w.published - {id}, destructed := w.destructed + {id}, list := Remove(w.list, id));
    var v := TakeApart(u, id);
    Wait(v.(ioDevices := v.ioDevices - {id}), id, FreeDevice)
  }

  // ------------------------------------------------------------------ runs

  datatype Event =
    | New(format: bool, allocOk: bool, nameOk: bool, baseRc: int)
    | Callback(op: Op, answer: Answer)
    | Delete(id: nat)

  /** Callbacks come from operations in flight; the bdev layer destructs what is registered with it. */
  predicate Enabled(w: World, v: Event) {
    match v
    case New(_, _, _, _) => true
    case Callback(op, _) => op in w.pending
    case Delete(id) => id in w.published
  }

  /** A callback of a create finds its context and its device. */
  predicate ContextSafe(w: World, v: Event) {
    v.Callback? && v.op.stage.Creating() ==> v.op.id in w.contexts && v.op.id in w.devices
  }

  /** The code reads the ubi_bdev: to find its blobstore, or to log an error with its name. */
  predicate Dereferences(v: Event) {
    match v
    case New(_, _, _, _) => false
    case Callback(op, a) => op.stage == CloseBlob || op.stage == FreeDevice || (op.stage == Unload && a.rc != 0)
    case Delete(_) => true
  }

  function Subject(v: Event): nat {
    match v case New(_, _, _, _) => 0 case Callback(op, _) => op.id case Delete(id) => id
  }

  /** The ubi_bdev that the step reads is still in memory. */
  predicate DeviceSafe(w: World, v: Event) {
    Dereferences(v) ==> Subject(v) in w.devices
  }

  predicate Safe(w: World, v: Event) {
    ContextSafe(w, v) && DeviceSafe(w, v)
  }

  function Step(w: World, v: Event): World
    requires Enabled(w, v) && Safe(w, v)
  {
    match v
    case New(format, allocOk, nameOk, baseRc) => Begin(w, format, allocOk, nameOk, baseRc)
    case Callback(op, a) => React(w.(pending := w.pending - multiset{op}), op, a)
    case Delete(id) => Destruct(w, id)
  }

  predicate Run(w: World, events: seq<Event>)
    decreases |events|
  {
    events != [] ==> Enabled(w, events[0]) && (Safe(w, events[0]) ==> Run(Step(w, events[0]), events[1..]))
  }

  predicate AllSafe(w: World, events: seq<Event>)
    requires Run(w, events)
    decreases |events|
  {
    events != [] ==> Safe(w, events[0]) && AllSafe(Step(w, events[0]), events[1..])
  }

  /** Every step that the run gets to finds its create context. */
  predicate AllContextSafe(w: World, events: seq<Event>)
    requires Run(w, events)
    decreases |events|
  {
    events != [] ==>
      ContextSafe(w, events[0]) && (Safe(w, events[0]) ==> AllContextSafe(Step(w, events[0]), events[1..]))
  }

  /** The world at the end, or just before the first step that reads a freed device. */
  function Execute(w: World, events: seq<Event>): World
    requires Run(w, events)
    decreases |events|
  {
    if events == [] || !Safe(w, events[0]) then w else Execute(Step(w, events[0]), events[1..])
  }

  const START: World := World(0, map[], map[], multiset{}, [], [], {}, {}, {}, {}, {}, {}, {})

  // ------------------------------------------------------------------ the invariant

  /** The statuses that create `id` has reported. */
  function Statuses(done: seq<Done>, id: nat): seq<int> {
    if done == [] then []
    else
      var n := |done| - 1;
      Statuses(done[..n], id) + (if done[n].id == id then [done[n].status] else [])
  }

  /** The creates that reported success, in that order, without those destructed since. */
  function Alive(done: seq<Done>, destructed: set<nat>): seq<nat> {
    if done == [] then []
    else
      var n := |done| - 1;
      Alive(done[..n], destructed) + (if done[n].status == 0 && done[n].id !in destructed then [done[n].id] else [])
  }

  ghost predicate Quiet(w: World, id: nat) {
    forall s: Stage :: w.pending[Op(id, s)] == 0
  }

  ghost predicate Waits(w: World, id: nat, stage: Stage) {
    forall s: Stage :: w.pending[Op(id, s)] == if s == stage then 1 else 0
  }

  /** No teardown operation of the device has failed. */
  ghost predicate Unfailed(w: World, id: nat) {
    forall s: Stage :: Op(id, s) !in w.failed
  }

  /** A create under way. */
  ghost predicate InCreation(w: World, id: nat) {
    && Statuses(w.done, id) == []
    && id in w.contexts && w.contexts[id].hasDevice && w.contexts[id].registered
    && id in w.devices && !w.devices[id].blob && id in w.made && Unfailed(w, id)
    && id in w.ioDevices && id !in w.blobs && (id in w.stores <==> w.devices[id].blobstore)
    && exists s: Stage :: s.Creating() && Waits(w, id, s) && (w.devices[id].blobstore <==> s != InitStore)
  }

  /** A device in service. */
  ghost predicate InService(w: World, id: nat) {
    && id in w.devices && w.devices[id] == Device(true, true) && id in w.made
    && id in w.ioDevices && id in w.blobs && id in w.stores && Quiet(w, id) && Unfailed(w, id)
  }

  /** The operations in flight are a close, an unload or neither, and perhaps the free. */
  ghost predicate Tearing(w: World, id: nat, close: bool, unload: bool, free: bool) {
    && w.pending[Op(id, CloseBlob)] == (if close then 1 else 0)
    && w.pending[Op(id, Unload)] == (if unload then 1 else 0)
    && w.pending[Op(id, FreeDevice)] == (if free then 1 else 0)
    && forall s: Stage :: s.Creating() ==> w.pending[Op(id, s)] == 0
  }

  /**
   * A failed or destructed device. Until its close has come back it holds what its struct says; after that a blob or a
   * store is left exactly when giving it back failed or is still in flight. Only a destruct frees the struct.
   */
  ghost predicate Retired(w: World, id: nat) {
    && id !in w.ioDevices
    && (id !in w.destructed ==> w.pending[Op(id, FreeDevice)] == 0)
    && (id in w.destructed || id in w.stores ==> id in w.made)
    && (id in w.devices <==> id in w.made && (id in w.destructed ==> w.pending[Op(id, FreeDevice)] == 1))
    && ((Tearing(w, id, true, false, w.pending[Op(id, FreeDevice)] == 1)
           && id in w.blobs && id in w.stores && Unfailed(w, id)
           && (id in w.devices ==> w.devices[id] == Device(true, true)))
        || (Tearing(w, id, false, true, w.pending[Op(id, FreeDevice)] == 1)
           && (id in w.blobs <==> Op(id, CloseBlob) in w.failed) && id in w.stores && Op(id, Unload) !in w.failed)
        || (Tearing(w, id, false, false, w.pending[Op(id, FreeDevice)] == 1)
           && (id in w.blobs <==> Op(id, CloseBlob) in w.failed) && (id in w.stores <==> Op(id, Unload) in w.failed)))
  }

  ghost predicate CreateOk(w: World, id: nat) {
    if id in w.contexts then InCreation(w, id) && id !in w.published && id !in w.destructed
    else
      && |Statuses(w.done, id)| == 1
      && (id in w.published <==> Statuses(w.done, id) == [0] && id !in w.destructed)
      && (id in w.destructed ==> Statuses(w.done, id) == [0])
      && if id in w.published then InService(w, id) else Retired(w, id)
  }

  ghost predicate Unknown(w: World, id: nat) {
    && Statuses(w.done, id) == [] && id !in w.contexts && id !in w.devices && Quiet(w, id)
    && id !in w.published && id !in w.ioDevices && id !in w.stores && id !in w.blobs && id !in w.destructed
    && id !in w.made && Unfailed(w, id)
  }

  ghost predicate Fine(w: World, id: nat) {
    if id < w.asked then CreateOk(w, id) else Unknown(w, id)
  }

  ghost predicate Inv(w: World) {
    (forall id: nat :: Fine(w, id)) && w.list == Alive(w.done, w.destructed)
  }
}
