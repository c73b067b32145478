/** The create and destruct callbacks in the program's own form, updating contexts, devices and the list in place. */
module CreateService {
  import opened Create
  import opened CreateProofs
  import Spec = Create

  class Module {
    var asked: nat
    var contexts: map<nat, Context>
    var devices: map<nat, Device>
    var pending: multiset<Op>
    var done: seq<Done>
    var list: seq<nat>
    var published: set<nat>
    var ioDevices: set<nat>
    var stores: set<nat>
    var blobs: set<nat>
    ghost var destructed: set<nat>
    ghost var made: set<nat>
    ghost var failed: set<Op>

    ghost function State(): World
      reads this
    {
      World(asked, contexts, devices, pending, done, list, published, ioDevices, stores, blobs, destructed, made,
          failed)
    }

    /** A create context whose device, when set, exists. */
    ghost predicate Usable(id: nat)
      reads this
    {
      id in contexts && (contexts[id].hasDevice ==> id in devices)
    }

    constructor ()
      ensures State() == START
    {
      asked, contexts, devices, pending, done, list := 0, map[], map[], multiset{}, [], [];
      published, ioDevices, stores, blobs, destructed, made, failed := {}, {}, {}, {}, {}, {}, {};
    }

    method Submit(id: nat, stage: Stage)
      modifies this`pending
      ensures State() == Wait(old(State()), id, stage)
    {
      pending := pending + multiset{Op(id, stage)};
    }

    method BlobClosed(id: nat)
      requires id in devices
      modifies this
      ensures State() == Spec.BlobClosed(old(State()), id)
    {
      if devices[id].blobstore {
        Submit(id, Unload);
      }
    }

    /** The blobstore has closed the blob or unloaded, or failed to. */
    method GiveBack(op: Op, rc: int)
      modifies this
      ensures State() == GivenBack(old(State()), op, rc)
    {
      if rc != 0 {
        failed := failed + {op};
      } else if op.stage == CloseBlob {
        blobs := blobs - {op.id};
      } else {
        stores := stores - {op.id};
      }
    }

    /** The teardown callbacks of ubi_destruct and of a failed create, and the free of the struct. */
    method TearDown(op: Op, rc: int)
      requires !op.stage.Creating() && (op.stage == CloseBlob ==> op.id in devices)
      modifies this
      ensures State() == TornDown(old(State()), op, rc)
    {
      if op.stage == CloseBlob {
        GiveBack(op, rc);
        BlobClosed(op.id);
      } else if op.stage == Unload {
        GiveBack(op, rc);
      } else {
        devices := devices - {op.id};
      }
    }

    /** The close of the blob that the failure path and ubi_destruct share. */
    method TakeApart(id: nat)
      requires id in devices
      modifies this
      ensures State() == Spec.TakeApart(old(State()), id)
    {
      if devices[id].blob {
        Submit(id, CloseBlob);
      } else {
        BlobClosed(id);
      }
    }

    /** ubi_finish_create. */
    method Finish(id: nat, code: int, registerRc: int)
      requires Usable(id)
      modifies this
      ensures State() == Spec.Finish(old(State()), id, code, registerRc)
    {
      hide Spec.TakeApart;
      var status := code;
      if status == 0 {
        status := registerRc;
        if status == 0 {
          published := published + {id};
          list := list + [id];
        }
      }
      if status != 0 && contexts[id].hasDevice {
        if contexts[id].registered {
          ioDevices := ioDevices - {id};
        }
        TakeApart(id);
      }
      done := done + [Done(id, status)];
      contexts := contexts - {id};
    }

    /** calloc of the ubi_bdev, saved in the context. */
    method Allocate(id: nat)
      requires id in contexts
      modifies this
      ensures var w := old(State());
              State() == w.(devices := w.devices[id := Device(false, false)], made := w.made + {id},
                            contexts := w.contexts[id := w.contexts[id].(hasDevice := true)])
    {
      devices := devices[id := Device(false, false)];
      made := made + {id};
      contexts := contexts[id := contexts[id].(hasDevice := true)];
    }

    /** Registering the io_device and starting the blobstore. */
    method Register(id: nat, format: bool)
      requires id in contexts
      modifies this
      ensures var w := old(State());
              State() == Wait(w.(ioDevices := w.ioDevices + {id},
                                 contexts := w.contexts[id := w.contexts[id].(registered := true, format := format)]),
                              id, InitStore)
    {
      ioDevices := ioDevices + {id};
      contexts := contexts[id := contexts[id].(registered := true, format := format)];
      Submit(id, InitStore);
    }

    /** bdev_ubi_create. */
    method Begin(format: bool, allocOk: bool, nameOk: bool, baseRc: int)
      modifies this
      ensures State() == Spec.Begin(old(State()), format, allocOk, nameOk, baseRc)
    {
      hide Spec.Finish;
      var id := asked;
      asked := asked + 1;
      contexts := contexts[id := Context(false, false, false)];
      if !allocOk {
        Finish(id, -ENOMEM, 0);
        return;
      }
      Allocate(id);
      if !nameOk {
        Finish(id, -ENOMEM, 0);
        return;
      }
      if baseRc != 0 {
        Finish(id, baseRc, 0);
        return;
      }
      Register(id, format);
    }

    method StoreReady(id: nat, a: Answer)
      requires Usable(id) && id in devices
      modifies this
      ensures State() == React(old(State()), Op(id, InitStore), a)
      ensures a.rc == 0 ==> contexts == old(contexts) && done == old(done)
      ensures a.rc == 0 ==>
                pending == old(pending) + multiset{Op(id, if old(contexts[id].format) then CreateBlob else OpenBlob)}
    {
      if a.rc != 0 {
        Finish(id, a.rc, 0);
        return;
      }
      devices := devices[id := devices[id].(blobstore := true)];
      stores := stores + {id};
      if !contexts[id].format {
        Submit(id, OpenBlob);
        return;
      }
      Submit(id, CreateBlob);
    }

    method BlobCreated(id: nat, a: Answer)
      requires Usable(id) && id in devices
      modifies this
      ensures State() == React(old(State()), Op(id, CreateBlob), a)
    {
      if a.rc != 0 {
        Finish(id, a.rc, 0);
        return;
      }
      Submit(id, TakeSnapshot);
    }

    method SnapshotTaken(id: nat, a: Answer)
      requires Usable(id) && id in devices
      modifies this
      ensures State() == React(old(State()), Op(id, TakeSnapshot), a)
    {
      if a.rc != 0 {
        Finish(id, a.rc, 0);
        return;
      }
      Submit(id, OpenBlob);
    }

    method BlobOpened(id: nat, a: Answer)
      requires Usable(id) && id in devices
      modifies this
      ensures State() == React(old(State()), Op(id, OpenBlob), a)
    {
      if a.rc != 0 {
        Finish(id, a.rc, 0);
        return;
      }
      devices := devices[id := devices[id].(blob := true)];
      blobs := blobs + {id};
      Finish(id, 0, a.registerRc);
    }

    /** ubi_destruct, called by the bdev layer for a registered device. */
    method Destruct(id: nat)
      requires id in devices
      modifies this
      ensures State() == Spec.Destruct(old(State()), id)
    {
      hide Spec.TakeApart, Remove;
      published, destructed := published - {id}, destructed + {id};
      list := Remove(list, id);
      TakeApart(id);
      ioDevices := ioDevices - {id};
      Submit(id, FreeDevice);
    }

    method Handle(v: Event)
      requires Enabled(State(), v) && Safe(State(), v)
      modifies this
      ensures State() == Step(old(State()), v)
    {
      match v
      case New(format, allocOk, nameOk, baseRc) => Begin(format, allocOk, nameOk, baseRc);
      case Callback(op, a) =>
        pending := pending - multiset{op};
        match op.stage {
          case InitStore => StoreReady(op.id, a);
          case CreateBlob => BlobCreated(op.id, a);
          case TakeSnapshot => SnapshotTaken(op.id, a);
          case OpenBlob => BlobOpened(op.id, a);
          case _ => TearDown(op, a.rc);
        }
      case Delete(id) => Destruct(id);
    }

    /** Events in any order, as long as no step reads a device after its free: every step finds what it needs. */
    method Loop(events: seq<Event>)
      requires State() == START && Run(START, events) && FreedLast(events)
      modifies this
      ensures State() == Execute(START, events) && Inv(State())
    {
      DevicesLiveIff(events);
      RunKeeps(State(), events);
      var k := 0;
      while k < |events|
        invariant 0 <= k <= |events| && Inv(State())
        invariant Run(State(), events[k..]) && AllSafe(State(), events[k..])
        invariant Execute(State(), events[k..]) == Execute(START, events)
      {
        StepKeeps(State(), events[k]);
        assert events[k..][1..] == events[k + 1..];
        Handle(events[k]);
        k := k + 1;
      }
    }
  }
}
