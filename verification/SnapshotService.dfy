/** The snapshot callbacks in the program's own form, updating contexts and device status in place. */
module SnapshotService {
  import opened Snapshot
  import Spec = Snapshot

  class Service {
    var devices: map<nat, Status>
    var asked: nat
    var contexts: map<nat, Context>
    var pending: multiset<Op>
    var replies: seq<Reply>
    var freed: seq<nat>
    var channels: set<nat>
    var deltas: set<nat>
    var clones: set<nat>
    ghost var ends: map<nat, End>
    ghost var copyLog: seq<CopyEvent>

    ghost function State(): World
      reads this
    {
      World(devices, asked, contexts, pending, replies, freed, channels, deltas, clones, ends, copyLog)
    }

    /** The context exists and belongs to a device. */
    ghost predicate Usable(id: nat)
      reads this
    {
      id in contexts && contexts[id].dev in devices
    }

    constructor (known: map<nat, Status>)
      ensures State() == Initial(known)
    {
      devices, asked, contexts, pending := known, 0, map[], multiset{};
      replies, freed, channels, deltas, clones, ends, copyLog := [], [], {}, {}, {}, map[], [];
    }

    method Submit(id: nat, stage: Stage)
      modifies this`pending
      ensures State() == Wait(old(State()), id, stage)
    {
      pending := pending + multiset{Op(id, stage)};
    }

    /** ctx->cb_fn. */
    method Respond(id: nat, rc: int, ghost end: End)
      requires rc == end.Code()
      modifies this`replies, this`ends
      ensures State() == Spec.Respond(old(State()), id, end)
    {
      replies := replies + [Reply(id, rc)];
      ends := ends[id := end];
    }

    method CleanupContext(id: nat)
      requires id in contexts
      modifies this
      ensures State() == Cleanup(old(State()), id)
    {
      if contexts[id].delta {
        deltas := deltas - {id};
      }
      if contexts[id].channel {
        channels := channels - {id};
      }
      contexts := contexts - {id};
      freed := freed + [id];
    }

    method SetResult(id: nat, rc: int)
      requires Usable(id)
      modifies this`devices
      ensures State() == WithStatus(old(State()), id, (s: Status) => s.(result := rc))
    {
      var d := contexts[id].dev;
      devices := devices[d := devices[d].(result := rc)];
    }

    method Abort(id: nat, rc: int, ghost why: Why)
      requires Usable(id)
      modifies this
      ensures State() == Spec.Abort(old(State()), id, rc, why)
    {
      SetResult(id, rc);
      Respond(id, rc, Failed(rc, why));
      CleanupContext(id);
    }

    /** bdev_ubi_snapshot. */
    method TakeSnapshot(dev: nat, hasPath: bool)
      modifies this
      ensures State() == Ask(old(State()), dev, hasPath)
    {
      var id := asked;
      asked := asked + 1;
      if dev !in devices {
        Respond(id, -ENOENT, Absent);
        return;
      }
      contexts := contexts[id := Context(dev, hasPath, 0, 0, false, false)];
      Submit(id, CreateSnapshot);
    }

    method SnapshotCreated(id: nat, a: Answer)
      requires Usable(id)
      modifies this
      ensures State() == React(old(State()), Op(id, CreateSnapshot), a)
      ensures a.rc == 0 && !old(contexts[id].hasPath) ==>
                replies == old(replies) + [Reply(id, 0)] && id !in contexts && pending == old(pending)
      ensures a.rc == 0 && old(contexts[id].hasPath) ==>
                replies == old(replies) && id in contexts && pending == old(pending) + multiset{Op(id, CreateClone)}
    {
      if a.rc != 0 {
        Abort(id, a.rc, StepFailed(CreateSnapshot));
        return;
      }
      if !contexts[id].hasPath {
        Respond(id, 0, Plain);
        CleanupContext(id);
        return;
      }
      contexts := contexts[id := contexts[id].(snapshotBlob := a.blob, channel := true)];
      channels := channels + {id};
      Submit(id, CreateClone);
    }

    method CloneCreated(id: nat, a: Answer)
      requires Usable(id)
      modifies this
      ensures State() == React(old(State()), Op(id, CreateClone), a)
    {
      if a.rc != 0 {
        Abort(id, a.rc, StepFailed(CreateClone));
        return;
      }
      contexts := contexts[id := contexts[id].(cloneBlob := a.blob)];
      Submit(id, OpenClone);
    }

    method CloneOpened(id: nat, a: Answer)
      requires Usable(id)
      modifies this
      ensures State() == React(old(State()), Op(id, OpenClone), a)
    {
      if a.rc != 0 {
        Abort(id, a.rc, StepFailed(OpenClone));
        return;
      }
      clones := clones + {id};
      if a.readOnlyRc != 0 {
        Abort(id, a.readOnlyRc, NotReadOnly);
        return;
      }
      Submit(id, CloseClone);
    }

    method CloneClosed(id: nat, a: Answer)
      requires Usable(id)
      modifies this
      ensures State() == React(old(State()), Op(id, CloseClone), a)
    {
      if a.rc != 0 {
        Abort(id, a.rc, StepFailed(CloseClone));
        return;
      }
      clones := clones - {id};
      Submit(id, Decouple);
    }

    method ParentDecoupled(id: nat, a: Answer)
      requires Usable(id)
      modifies this
      ensures State() == React(old(State()), Op(id, Decouple), a)
    {
      if a.rc != 0 {
        Abort(id, a.rc, StepFailed(Decouple));
        return;
      }
      StartSnapshot(id, a);
    }

    method StartSnapshot(id: nat, a: Answer)
      requires Usable(id)
      modifies this
      ensures State() == StartCopy(old(State()), id, a)
    {
      var d := contexts[id].dev;
      devices := devices[d := devices[d].(inProgress := true, total := a.clusters)];
      contexts := contexts[id := contexts[id].(delta := true)];
      deltas := deltas + {id};
      copyLog := copyLog + [Began(d)];
      if a.copyRc == 0 {
        Submit(id, Copy);
      }
      Respond(id, a.copyRc, if a.copyRc == 0 then Accepted else Refused(a.copyRc));
    }

    method CopyComplete(id: nat, a: Answer)
      requires Usable(id)
      modifies this
      ensures State() == React(old(State()), Op(id, Copy), a)
    {
      var d := contexts[id].dev;
      if a.rc != 0 {
        SetResult(id, a.rc);
      }
      CleanupContext(id);
      devices := devices[d := devices[d].(inProgress := false)];
      copyLog := copyLog + [Ended(d)];
    }

    method CopyStatus(id: nat, clusters: nat)
      requires Usable(id)
      modifies this`devices
      ensures State() == Progress(old(State()), id, clusters)
    {
      var d := contexts[id].dev;
      devices := devices[d := devices[d].(copied := clusters)];
    }

    method Handle(v: Event)
      requires Enabled(State(), v) && Safe(State(), v)
      modifies this
      ensures State() == Step(old(State()), v)
    {
      match v
      case Request(dev, hasPath) => TakeSnapshot(dev, hasPath);
      case Callback(op, a) =>
        pending := pending - multiset{op};
        match op.stage {
          case CreateSnapshot => SnapshotCreated(op.id, a);
          case CreateClone => CloneCreated(op.id, a);
          case OpenClone => CloneOpened(op.id, a);
          case CloseClone => CloneClosed(op.id, a);
          case Decouple => ParentDecoupled(op.id, a);
          case Copy => CopyComplete(op.id, a);
        }
      case Report(id, clusters) => CopyStatus(id, clusters);
    }

    /** Any events in any order: every callback finds its context, and the invariant holds at the end. */
    method Loop(events: seq<Event>)
      requires Inv(State()) && Run(State(), events)
      modifies this
      ensures AllSafe(old(State()), events) && State() == Execute(old(State()), events) && Inv(State())
    {
      RunKeeps(State(), events);
      var k := 0;
      while k < |events|
        invariant 0 <= k <= |events| && Inv(State())
        invariant Run(State(), events[k..])
        invariant Execute(State(), events[k..]) == Execute(old(State()), events)
      {
        StepKeeps(State(), events[k]);
        Handle(events[k]);
        assert events[k..][1..] == events[k + 1..];
        k := k + 1;
      }
    }
  }
}
