/**
 * The sink side of the rsync storage transfer: rebuilds a container and its
 * snapshot chain on the destination from the stream the source sends.
 */
module RsyncSink {
  import opened Types
  import opened SnapshotTranslation
  import opened Trace

  /** Indexing a Go map: the value at k, or "" when k is absent. */
  function Lookup(m: map<string, string>, k: string): string {
    if k in m then m[k] else ""
  }

  /**
   * The parent's storage pool: the `pool` property of the root-disk device
   * of its expanded devices, or "" when there is no such device or it has
   * no (or an empty) `pool` property.
   */
  function ParentPool(expanded: Devices, rootDisk: RootDiskFinder): string {
    var key := rootDisk(expanded);
    if key != "" then Lookup(expanded[key], "pool") else ""
  }

  /**
   * The parent's pool is known exactly when the root-disk device exists and
   * carries a non-empty `pool` property, and it is then that property.
   */
  lemma ParentPoolLookup(expanded: Devices, rootDisk: RootDiskFinder)
    ensures var k := rootDisk(expanded);
      ParentPool(expanded, rootDisk) != "" <==> k != "" && "pool" in expanded[k] && expanded[k]["pool"] != ""
    ensures var k := rootDisk(expanded);
      ParentPool(expanded, rootDisk) != "" ==> k in expanded && ParentPool(expanded, rootDisk) == expanded[k]["pool"]
  {
  }

  /** The creation arguments of a received snapshot, placed in the parent's pool. */
  function SnapshotArgs(containerName: string, snap: SnapshotDescriptor, pool: string,
                        rootDisk: RootDiskFinder): ContainerArgs
  {
    var args := Translate(containerName, snap);
    args.(devices := ForcePool(args.devices, rootDisk(args.devices), pool))
  }

  /** Receiving into the container's own filesystem, reported under its name. */
  function ContainerRecv(c: Container): Event {
    RsyncRecv(AddSlash(c.path), Observed(FsProgress, c.name))
  }

  /** The creation arguments of each snapshot of the chain, in order. */
  function ChainArgs(containerName: string, snaps: seq<SnapshotDescriptor>, pool: string,
                     rootDisk: RootDiskFinder): (args: seq<ContainerArgs>)
    ensures |args| == |snaps|
    decreases |snaps|
  {
    if snaps == [] then []
    else [SnapshotArgs(containerName, snaps[0], pool, rootDisk)] + ChainArgs(containerName, snaps[1..], pool, rootDisk)
  }

  /**
   * The three calls that bring one snapshot over, args being its creation
   * arguments. The directory backend creates the empty snapshot first and
   * receives into the snapshot's own path; any other backend receives into
   * the container and then turns the container's state into the snapshot.
   */
  function SnapshotSteps(env: Env, c: Container, snap: SnapshotDescriptor, args: ContainerArgs): (steps: seq<Event>)
    ensures |steps| == 3
  {
    if c.storageType == Dir then
      [ CreateEmptySnapshot(args),
        RsyncRecv(AddSlash(env.entityPath(args.name)), Observed(FsProgress, args.name)),
        ShiftIfNecessary(c.name) ]
    else
      [ RsyncRecv(AddSlash(c.path), Observed(FsProgress, snap.name)),
        ShiftIfNecessary(c.name),
        CreateAsSnapshot(args, c.name) ]
  }

  /** The calls for a whole snapshot chain, snapshot by snapshot. */
  function ChainSteps(env: Env, c: Container, snaps: seq<SnapshotDescriptor>, args: seq<ContainerArgs>): seq<Event>
    requires |args| == |snaps|
    decreases |snaps|
  {
    if snaps == [] then []
    else SnapshotSteps(env, c, snaps[0], args[0]) + ChainSteps(env, c, snaps[1..], args[1..])
  }

  /**
   * Every call the sink makes between resolving the pool and returning,
   * when none of them fails.
   */
  function SinkPlan(env: Env, live: bool, c: Container, snaps: seq<SnapshotDescriptor>, args: seq<ContainerArgs>): seq<Event>
    requires |args| == |snaps|
  {
    ChainSteps(env, c, snaps, args)
    + [ContainerRecv(c)]
    + (if live then [ContainerRecv(c)] else [])
    + [ShiftIfNecessary(c.name)]
  }

  /** The sink's plan for container c, its snapshots placed in the parent's pool. */
  function FullPlan(env: Env, live: bool, c: Container, snaps: seq<SnapshotDescriptor>,
                    rootDisk: RootDiskFinder): seq<Event>
  {
    SinkPlan(env, live, c, snaps, ChainArgs(c.name, snaps, ParentPool(c.expandedDevices, rootDisk), rootDisk))
  }

  /** What the sink does while the container's storage is started, from trace position at. */
  function Received(env: Env, at: nat, live: bool, c: Container, snaps: seq<SnapshotDescriptor>,
                    rootDisk: RootDiskFinder): Session
  {
    if ParentPool(c.expandedDevices, rootDisk) == "" then Session([], Some(MissingRootPool))
    else
      var r := Run(FullPlan(env, live, c, snaps, rootDisk), env.fails, at);
      Session(r.done, ErrorOf(r.failed))
  }

  /**
   * One invocation of the sink from trace position at: start the
   * container's storage, and once it is started, stop it again on the way
   * out whatever happened in between.
   */
  function Sink(env: Env, at: nat, live: bool, c: Container, snaps: seq<SnapshotDescriptor>,
                rootDisk: RootDiskFinder): Session
  {
    if env.fails(at) then Session([StorageStart(c.name)], Some(StepFailed(StorageStart(c.name))))
    else
      var body := Received(env, at + 1, live, c, snaps, rootDisk);
      Session([StorageStart(c.name)] + body.trace + [StorageStop(c.name)], body.err)
  }

  // ---------------------------------------------------------------------
  // The sink itself

  method RsyncMigrationSink(h: Host, live: bool, c: Container, snapshots: seq<SnapshotDescriptor>,
                            rootDisk: RootDiskFinder) returns (err: Option<Error>)
    modifies h
    ensures h.trace == old(h.trace) + Sink(h.env, |old(h.trace)|, live, c, snapshots, rootDisk).trace
    ensures err == Sink(h.env, |old(h.trace)|, live, c, snapshots, rootDisk).err
  {
    ghost var t0 := h.trace;
    var ok := h.Call(StorageStart(c.name));
    if !ok {
      return Some(StepFailed(StorageStart(c.name)));
    }
    ghost var body := Received(h.env, |t0| + 1, live, c, snapshots, rootDisk);
    err := ReceiveWhileStarted(h, live, c, snapshots, rootDisk);
    // the deferred release; its error is dropped
    var _ := h.Call(StorageStop(c.name));
    Bracketed(t0, StorageStart(c.name), body.trace, StorageStop(c.name));
    SinkStarted(h.env, |t0|, live, c, snapshots, rootDisk, body);
  }

  /** The body of the sink between the deferred release and the return. */
  method ReceiveWhileStarted(h: Host, live: bool, c: Container, snapshots: seq<SnapshotDescriptor>,
                             rootDisk: RootDiskFinder) returns (err: Option<Error>)
    modifies h
    ensures h.trace == old(h.trace) + Received(h.env, |old(h.trace)|, live, c, snapshots, rootDisk).trace
    ensures err == Received(h.env, |old(h.trace)|, live, c, snapshots, rootDisk).err
  {
    var parentStoragePool := "";
    var parentKey := rootDisk(c.expandedDevices);
    if parentKey != "" {
      parentStoragePool := Lookup(c.expandedDevices[parentKey], "pool");
    }
    if parentStoragePool == "" {
      return Some(MissingRootPool);
    }

    ghost var t0 := h.trace;
    ghost var chainArgs := ChainArgs(c.name, snapshots, parentStoragePool, rootDisk);
    ghost var plan := SinkPlan(h.env, live, c, snapshots, chainArgs);
    SinkPlanShape(h.env, live, c, snapshots, chainArgs);
    forall i | 0 <= i < |snapshots| {
      ChainArgsAt(c.name, snapshots, parentStoragePool, rootDisk, i);
    }
    assert h.trace == t0 + plan[..0];
    err := ReceiveChain(h, c, snapshots, parentStoragePool, rootDisk, t0, chainArgs, plan);
    if err.None? {
      err := ReceiveFinal(h, live, c, |snapshots|, t0, plan);
    }
  }

  /**
   * The snapshots, one by one in input order, then the container's own
   * filesystem, each in the way the container's backend calls for.
   */
  method ReceiveChain(h: Host, c: Container, snapshots: seq<SnapshotDescriptor>, parentStoragePool: string,
                      rootDisk: RootDiskFinder, ghost t0: seq<Event>, ghost chainArgs: seq<ContainerArgs>,
                      ghost plan: seq<Event>) returns (err: Option<Error>)
    requires |chainArgs| == |snapshots|
    requires forall i :: 0 <= i < |snapshots| ==>
               chainArgs[i] == SnapshotArgs(c.name, snapshots[i], parentStoragePool, rootDisk)
    requires |plan| >= 3 * |snapshots| + 2
    requires forall i, m :: 0 <= i < |snapshots| && 0 <= m < 3 ==>
               plan[3 * i + m] == SnapshotSteps(h.env, c, snapshots[i], chainArgs[i])[m]
    requires plan[3 * |snapshots|] == ContainerRecv(c)
    requires Reached(h.trace, t0, plan, h.env.fails, 0)
    modifies h
    ensures err.None? ==> Reached(h.trace, t0, plan, h.env.fails, 3 * |snapshots| + 1)
    ensures err.Some? ==> h.trace == t0 + Run(plan, h.env.fails, |t0|).done
    ensures err.Some? ==> err == ErrorOf(Run(plan, h.env.fails, |t0|).failed)
  {
    if c.storageType == Dir {
      err := ReceiveSnapshotsDir(h, c, snapshots, parentStoragePool, rootDisk, t0, chainArgs, plan);
    } else {
      err := ReceiveSnapshotsOther(h, c, snapshots, parentStoragePool, rootDisk, t0, chainArgs, plan);
    }
    if err.Some? {
      return;
    }
    var n := |snapshots|;
    var ok := h.Perform(ContainerRecv(c), t0, plan, 3 * n);
    if !ok {
      RunFailsAt(plan, h.env.fails, |t0|, 3 * n);
      return Some(StepFailed(ContainerRecv(c)));
    }
    return None;
  }

  /** The snapshot loop of the directory backend. */
  method ReceiveSnapshotsDir(h: Host, c: Container, snapshots: seq<SnapshotDescriptor>, parentStoragePool: string,
                      rootDisk: RootDiskFinder, ghost t0: seq<Event>, ghost chainArgs: seq<ContainerArgs>,
                      ghost plan: seq<Event>) returns (err: Option<Error>)
    requires c.storageType == Dir
    requires |chainArgs| == |snapshots|
    requires forall i :: 0 <= i < |snapshots| ==>
               chainArgs[i] == SnapshotArgs(c.name, snapshots[i], parentStoragePool, rootDisk)
    requires |plan| >= 3 * |snapshots| + 1
    requires forall i, m :: 0 <= i < |snapshots| && 0 <= m < 3 ==>
               plan[3 * i + m] == SnapshotSteps(h.env, c, snapshots[i], chainArgs[i])[m]
    requires Reached(h.trace, t0, plan, h.env.fails, 0)
    modifies h
    ensures err.None? ==> Reached(h.trace, t0, plan, h.env.fails, 3 * |snapshots|)
    ensures err.Some? ==> h.trace == t0 + Run(plan, h.env.fails, |t0|).done
    ensures err.Some? ==> err == ErrorOf(Run(plan, h.env.fails, |t0|).failed)
  {
    var i := 0;
    while i < |snapshots|
      invariant 0 <= i <= |snapshots|
      invariant Reached(h.trace, t0, plan, h.env.fails, 3 * i)
    {
      var args := SnapshotCreateArgs(c.name, snapshots[i], parentStoragePool, rootDisk);
      err := ReceiveSnapshotDir(h, c, snapshots[i], args, t0, plan, 3 * i);
      if err.Some? {
        return;
      }
      i := i + 1;
    }
    return None;
  }

  /** The snapshot loop of any other backend. */
  method ReceiveSnapshotsOther(h: Host, c: Container, snapshots: seq<SnapshotDescriptor>, parentStoragePool: string,
                      rootDisk: RootDiskFinder, ghost t0: seq<Event>, ghost chainArgs: seq<ContainerArgs>,
                      ghost plan: seq<Event>) returns (err: Option<Error>)
    requires c.storageType != Dir
    requires |chainArgs| == |snapshots|
    requires forall i :: 0 <= i < |snapshots| ==>
               chainArgs[i] == SnapshotArgs(c.name, snapshots[i], parentStoragePool, rootDisk)
    requires |plan| >= 3 * |snapshots| + 1
    requires forall i, m :: 0 <= i < |snapshots| && 0 <= m < 3 ==>
               plan[3 * i + m] == SnapshotSteps(h.env, c, snapshots[i], chainArgs[i])[m]
    requires Reached(h.trace, t0, plan, h.env.fails, 0)
    modifies h
    ensures err.None? ==> Reached(h.trace, t0, plan, h.env.fails, 3 * |snapshots|)
    ensures err.Some? ==> h.trace == t0 + Run(plan, h.env.fails, |t0|).done
    ensures err.Some? ==> err == ErrorOf(Run(plan, h.env.fails, |t0|).failed)
  {
    var i := 0;
    while i < |snapshots|
      invariant 0 <= i <= |snapshots|
      invariant Reached(h.trace, t0, plan, h.env.fails, 3 * i)
    {
      var args := SnapshotCreateArgs(c.name, snapshots[i], parentStoragePool, rootDisk);
      err := ReceiveSnapshotOther(h, c, snapshots[i], args, t0, plan, 3 * i);
      if err.Some? {
        return;
      }
      i := i + 1;
    }
    return None;
  }

  /**
   * The creation arguments of a received snapshot: translated from its
   * descriptor, then, in place, the `pool` property of their root-disk
   * device, when they have one, set to the parent's pool.
   */
  method SnapshotCreateArgs(containerName: string, snap: SnapshotDescriptor, pool: string, rootDisk: RootDiskFinder)
    returns (args: ContainerArgs)
    ensures args == SnapshotArgs(containerName, snap, pool, rootDisk)
  {
    args := Translate(containerName, snap);
    // the devices map is never nil here
    var snapKey := rootDisk(args.devices);
    if snapKey != "" {
      args := args.(devices := args.devices[snapKey := args.devices[snapKey]["pool" := pool]]);
    }
  }

  /**
   * One snapshot on the directory backend: create the empty snapshot,
   * receive into its path, shift its idmap.
   */
  method ReceiveSnapshotDir(h: Host, c: Container, snap: SnapshotDescriptor, args: ContainerArgs,
                            ghost t0: seq<Event>, ghost plan: seq<Event>, k: nat)
    returns (err: Option<Error>)
    requires c.storageType == Dir
    requires k + 3 <= |plan|
    requires forall m :: 0 <= m < 3 ==> plan[k + m] == SnapshotSteps(h.env, c, snap, args)[m]
    requires Reached(h.trace, t0, plan, h.env.fails, k)
    modifies h
    ensures err.None? ==> Reached(h.trace, t0, plan, h.env.fails, k + 3)
    ensures err.Some? ==> h.trace == t0 + Run(plan, h.env.fails, |t0|).done
    ensures err.Some? ==> err == ErrorOf(Run(plan, h.env.fails, |t0|).failed)
  {
    ghost var steps := SnapshotSteps(h.env, c, snap, args);
    assert plan[k + 0] == steps[0] && plan[k + 1] == steps[1] && plan[k + 2] == steps[2];
    assert plan[k] == CreateEmptySnapshot(args) && plan[k + 1] == RsyncRecv(AddSlash(h.env.entityPath(args.name)), Observed(FsProgress, args.name)) && plan[k + 2] == ShiftIfNecessary(c.name);
    var ok := h.Perform(CreateEmptySnapshot(args), t0, plan, k);
    if !ok {
      RunFailsAt(plan, h.env.fails, |t0|, k);
      return Some(StepFailed(CreateEmptySnapshot(args)));
    }
    // the created snapshot is named by args.name
    var recv := RsyncRecv(AddSlash(h.env.entityPath(args.name)), Observed(FsProgress, args.name));
    ok := h.Perform(recv, t0, plan, k + 1);
    if !ok {
      RunFailsAt(plan, h.env.fails, |t0|, k + 1);
      return Some(StepFailed(recv));
    }
    ok := h.Perform(ShiftIfNecessary(c.name), t0, plan, k + 2);
    if !ok {
      RunFailsAt(plan, h.env.fails, |t0|, k + 2);
      return Some(StepFailed(ShiftIfNecessary(c.name)));
    }
    return None;
  }

  /**
   * One snapshot on any other backend: receive into the container, shift
   * its idmap, then create the snapshot as a copy of the container.
   */
  method ReceiveSnapshotOther(h: Host, c: Container, snap: SnapshotDescriptor, args: ContainerArgs,
                            ghost t0: seq<Event>, ghost plan: seq<Event>, k: nat)
    returns (err: Option<Error>)
    requires c.storageType != Dir
    requires k + 3 <= |plan|
    requires forall m :: 0 <= m < 3 ==> plan[k + m] == SnapshotSteps(h.env, c, snap, args)[m]
    requires Reached(h.trace, t0, plan, h.env.fails, k)
    modifies h
    ensures err.None? ==> Reached(h.trace, t0, plan, h.env.fails, k + 3)
    ensures err.Some? ==> h.trace == t0 + Run(plan, h.env.fails, |t0|).done
    ensures err.Some? ==> err == ErrorOf(Run(plan, h.env.fails, |t0|).failed)
  {
    ghost var steps := SnapshotSteps(h.env, c, snap, args);
    assert plan[k + 0] == steps[0] && plan[k + 1] == steps[1] && plan[k + 2] == steps[2];
    assert plan[k] == RsyncRecv(AddSlash(c.path), Observed(FsProgress, snap.name)) && plan[k + 1] == ShiftIfNecessary(c.name) && plan[k + 2] == CreateAsSnapshot(args, c.name);
    var recv := RsyncRecv(AddSlash(c.path), Observed(FsProgress, snap.name));
    var ok := h.Perform(recv, t0, plan, k);
    if !ok {
      RunFailsAt(plan, h.env.fails, |t0|, k);
      return Some(StepFailed(recv));
    }
    ok := h.Perform(ShiftIfNecessary(c.name), t0, plan, k + 1);
    if !ok {
      RunFailsAt(plan, h.env.fails, |t0|, k + 1);
      return Some(StepFailed(ShiftIfNecessary(c.name)));
    }
    ok := h.Perform(CreateAsSnapshot(args, c.name), t0, plan, k + 2);
    if !ok {
      RunFailsAt(plan, h.env.fails, |t0|, k + 2);
      return Some(StepFailed(CreateAsSnapshot(args, c.name)));
    }
    return None;
  }

  /** The live final sync, when live, and the closing shift. */
  method ReceiveFinal(h: Host, live: bool, c: Container, n: nat, ghost t0: seq<Event>, ghost plan: seq<Event>)
    returns (err: Option<Error>)
    requires |plan| == 3 * n + (if live then 3 else 2)
    requires live ==> plan[3 * n + 1] == ContainerRecv(c)
    requires plan[|plan| - 1] == ShiftIfNecessary(c.name)
    requires Reached(h.trace, t0, plan, h.env.fails, 3 * n + 1)
    modifies h
    ensures h.trace == t0 + Run(plan, h.env.fails, |t0|).done
    ensures err == ErrorOf(Run(plan, h.env.fails, |t0|).failed)
  {
    var ok: bool;
    var k := 3 * n + 1;
    if live {
      // the final sync, sent after the source's checkpoint
      ok := h.Perform(ContainerRecv(c), t0, plan, k);
      if !ok {
        RunFailsAt(plan, h.env.fails, |t0|, k);
        return Some(StepFailed(ContainerRecv(c)));
      }
      k := k + 1;
    }
    ok := h.Perform(ShiftIfNecessary(c.name), t0, plan, k);
    if !ok {
      RunFailsAt(plan, h.env.fails, |t0|, k);
      return Some(StepFailed(ShiftIfNecessary(c.name)));
    }
    assert plan[..k + 1] == plan;
    RunSucceeds(plan, h.env.fails, |t0|);
    return None;
  }

  // ---------------------------------------------------------------------
  // Properties

  /** Once the storage has started, the sink is what it receives, bracketed by the start and the stop. */
  lemma SinkStarted(env: Env, at: nat, live: bool, c: Container, snaps: seq<SnapshotDescriptor>,
                    rootDisk: RootDiskFinder, body: Session)
    requires !env.fails(at) && body == Received(env, at + 1, live, c, snaps, rootDisk)
    ensures Sink(env, at, live, c, snaps, rootDisk) ==
              Session([StorageStart(c.name)] + body.trace + [StorageStop(c.name)], body.err)
  {
  }

  /** The sink's trace: what came before, the start, the body, the deferred stop. */
  lemma Bracketed(t: seq<Event>, s: Event, body: seq<Event>, e: Event)
    ensures t + [s] + body + [e] == t + ([s] + body + [e])
  {
  }

  /**
   * The sink's plan, position by position: snapshot i's three calls at
   * 3i, 3i+1 and 3i+2 in input order, then the container's receive, the
   * live final sync only when live, and the closing shift.
   */
  lemma SinkPlanShape(env: Env, live: bool, c: Container, snaps: seq<SnapshotDescriptor>, args: seq<ContainerArgs>)
    requires |args| == |snaps|
    ensures var plan := SinkPlan(env, live, c, snaps, args);
      && |plan| == 3 * |snaps| + (if live then 3 else 2)
      && (forall i, m :: 0 <= i < |snaps| && 0 <= m < 3 ==>
            plan[3 * i + m] == SnapshotSteps(env, c, snaps[i], args[i])[m])
      && plan[3 * |snaps|] == ContainerRecv(c)
      && (live ==> plan[3 * |snaps| + 1] == ContainerRecv(c))
      && plan[|plan| - 1] == ShiftIfNecessary(c.name)
  {
    var chain := ChainSteps(env, c, snaps, args);
    ChainStepsLength(env, c, snaps, args);
    forall i | 0 <= i < |snaps| {
      ChainStepsAt(env, c, snaps, args, i);
    }
  }

  /** The creation arguments of snapshot i are at position i. */
  lemma {:induction false} ChainArgsAt(containerName: string, snaps: seq<SnapshotDescriptor>, pool: string,
                                       rootDisk: RootDiskFinder, i: nat)
    requires i < |snaps|
    ensures ChainArgs(containerName, snaps, pool, rootDisk)[i] == SnapshotArgs(containerName, snaps[i], pool, rootDisk)
    decreases |snaps|
  {
    if i > 0 {
      ChainArgsAt(containerName, snaps[1..], pool, rootDisk, i - 1);
      assert snaps[1..][i - 1] == snaps[i];
    }
  }

  lemma {:induction false} ChainStepsLength(env: Env, c: Container, snaps: seq<SnapshotDescriptor>, args: seq<ContainerArgs>)
    requires |args| == |snaps|
    ensures |ChainSteps(env, c, snaps, args)| == 3 * |snaps|
    decreases |snaps|
  {
    if snaps != [] {
      ChainStepsLength(env, c, snaps[1..], args[1..]);
    }
  }

  /** Snapshot i's three calls come at positions 3i, 3i+1 and 3i+2 of the chain, in input order. */
  lemma {:induction false} ChainStepsAt(env: Env, c: Container, snaps: seq<SnapshotDescriptor>,
                                        args: seq<ContainerArgs>, i: nat)
    requires |args| == |snaps| && i < |snaps|
    ensures |ChainSteps(env, c, snaps, args)| == 3 * |snaps|
    ensures forall m :: 0 <= m < 3 ==>
              ChainSteps(env, c, snaps, args)[3 * i + m] == SnapshotSteps(env, c, snaps[i], args[i])[m]
    decreases |snaps|
  {
    ChainStepsLength(env, c, snaps, args);
    if i > 0 {
      ChainStepsAt(env, c, snaps[1..], args[1..], i - 1);
      assert snaps[1..][i - 1] == snaps[i] && args[1..][i - 1] == args[i];
    }
  }

  // ---------------------------------------------------------------------
  // Outcomes of one invocation

  /** When the storage start fails, that start is the only call made, and nothing is released. */
  lemma SinkStartFails(env: Env, at: nat, live: bool, c: Container, snaps: seq<SnapshotDescriptor>,
                       rootDisk: RootDiskFinder)
    requires env.fails(at)
    ensures Sink(env, at, live, c, snaps, rootDisk) == Session([StorageStart(c.name)], Some(StepFailed(StorageStart(c.name))))
  {
  }

  /**
   * The sink reports the missing pool exactly when the storage started and
   * the parent's root-disk device names no pool; it then receives, shifts
   * and creates nothing, and still stops the storage.
   */
  lemma SinkMissingPool(env: Env, at: nat, live: bool, c: Container, snaps: seq<SnapshotDescriptor>,
                        rootDisk: RootDiskFinder)
    ensures Sink(env, at, live, c, snaps, rootDisk).err == Some(MissingRootPool) <==>
              !env.fails(at) && ParentPool(c.expandedDevices, rootDisk) == ""
    ensures Sink(env, at, live, c, snaps, rootDisk).err == Some(MissingRootPool) ==>
              Sink(env, at, live, c, snaps, rootDisk).trace == [StorageStart(c.name), StorageStop(c.name)]
  {
    if !env.fails(at) && ParentPool(c.expandedDevices, rootDisk) != "" {
      var r := Run(FullPlan(env, live, c, snaps, rootDisk), env.fails, at + 1);
      assert Sink(env, at, live, c, snaps, rootDisk).err == ErrorOf(r.failed);
    }
  }

  /**
   * The sink succeeds exactly when the start succeeds, the pool is known
   * and no call of the plan fails; the trace is then the whole plan,
   * bracketed by the start and the stop of the container's storage.
   */
  lemma SinkSucceeds(env: Env, at: nat, live: bool, c: Container, snaps: seq<SnapshotDescriptor>,
                     rootDisk: RootDiskFinder)
    ensures var plan := FullPlan(env, live, c, snaps, rootDisk);
      Sink(env, at, live, c, snaps, rootDisk).err.None? <==>
        !env.fails(at) && ParentPool(c.expandedDevices, rootDisk) != "" && NoFailure(env.fails, at + 1, at + 1 + |plan|)
    ensures Sink(env, at, live, c, snaps, rootDisk).err.None? ==>
              Sink(env, at, live, c, snaps, rootDisk).trace ==
                [StorageStart(c.name)] + FullPlan(env, live, c, snaps, rootDisk) + [StorageStop(c.name)]
  {
    var plan := FullPlan(env, live, c, snaps, rootDisk);
    if !env.fails(at) && ParentPool(c.expandedDevices, rootDisk) != "" && NoFailure(env.fails, at + 1, at + 1 + |plan|) {
      RunSucceeds(plan, env.fails, at + 1);
    }
  }

  /**
   * When step k of the plan is the first to fail, the sink returns its
   * error at once: the trace is the plan up to and including step k, and
   * then the storage stop.
   */
  lemma SinkAborts(env: Env, at: nat, live: bool, c: Container, snaps: seq<SnapshotDescriptor>,
                   rootDisk: RootDiskFinder, k: nat)
    requires !env.fails(at) && ParentPool(c.expandedDevices, rootDisk) != ""
    requires k < |FullPlan(env, live, c, snaps, rootDisk)|
    requires NoFailure(env.fails, at + 1, at + 1 + k) && env.fails(at + 1 + k)
    ensures var plan := FullPlan(env, live, c, snaps, rootDisk);
      && Sink(env, at, live, c, snaps, rootDisk).trace == [StorageStart(c.name)] + plan[..k + 1] + [StorageStop(c.name)]
      && Sink(env, at, live, c, snaps, rootDisk).err == Some(StepFailed(plan[k]))
  {
    var plan := FullPlan(env, live, c, snaps, rootDisk);
    RunFailsAt(plan, env.fails, at + 1, k);
    ReceivedRuns(env, at + 1, live, c, snaps, rootDisk);
    SinkStarted(env, at, live, c, snaps, rootDisk, Session(plan[..k + 1], Some(StepFailed(plan[k]))));
  }

  /** With a known pool, what the sink receives is the run of its plan. */
  lemma ReceivedRuns(env: Env, at: nat, live: bool, c: Container, snaps: seq<SnapshotDescriptor>,
                     rootDisk: RootDiskFinder)
    requires ParentPool(c.expandedDevices, rootDisk) != ""
    ensures var r := Run(FullPlan(env, live, c, snaps, rootDisk), env.fails, at);
      Received(env, at, live, c, snaps, rootDisk) == Session(r.done, ErrorOf(r.failed))
  {
  }

  /**
   * A successful sink, position by position: the storage start, snapshot
   * i's three calls at 3i+1 to 3i+3, the container's receive, the live
   * final sync only when live, the closing shift and the storage stop.
   */
  lemma SinkTraceShape(env: Env, at: nat, live: bool, c: Container, snaps: seq<SnapshotDescriptor>,
                       rootDisk: RootDiskFinder)
    requires Sink(env, at, live, c, snaps, rootDisk).err.None?
    ensures var t := Sink(env, at, live, c, snaps, rootDisk).trace;
      var n := |snaps|;
      var args := ChainArgs(c.name, snaps, ParentPool(c.expandedDevices, rootDisk), rootDisk);
      && |t| == 3 * n + (if live then 5 else 4)
      && t[0] == StorageStart(c.name)
      && (forall i, m :: 0 <= i < n && 0 <= m < 3 ==> t[3 * i + 1 + m] == SnapshotSteps(env, c, snaps[i], args[i])[m])
      && t[3 * n + 1] == ContainerRecv(c)
      && (live ==> t[3 * n + 2] == ContainerRecv(c))
      && t[|t| - 2] == ShiftIfNecessary(c.name)
      && t[|t| - 1] == StorageStop(c.name)
  {
    SinkSucceeds(env, at, live, c, snaps, rootDisk);
    var args := ChainArgs(c.name, snaps, ParentPool(c.expandedDevices, rootDisk), rootDisk);
    BracketedPlanShape(env, live, c, snaps, args, Sink(env, at, live, c, snaps, rootDisk).trace);
  }

  /** SinkPlanShape, seen through the storage start and stop around the plan. */
  lemma BracketedPlanShape(env: Env, live: bool, c: Container, snaps: seq<SnapshotDescriptor>,
                           args: seq<ContainerArgs>, t: seq<Event>)
    requires |args| == |snaps|
    requires t == [StorageStart(c.name)] + SinkPlan(env, live, c, snaps, args) + [StorageStop(c.name)]
    ensures var n := |snaps|;
      && |t| == 3 * n + (if live then 5 else 4)
      && t[0] == StorageStart(c.name)
      && (forall i, m :: 0 <= i < n && 0 <= m < 3 ==> t[3 * i + 1 + m] == SnapshotSteps(env, c, snaps[i], args[i])[m])
      && t[3 * n + 1] == ContainerRecv(c)
      && (live ==> t[3 * n + 2] == ContainerRecv(c))
      && t[|t| - 2] == ShiftIfNecessary(c.name)
      && t[|t| - 1] == StorageStop(c.name)
  {
    var plan := SinkPlan(env, live, c, snaps, args);
    SinkPlanShape(env, live, c, snaps, args);
    BracketedAt(StorageStart(c.name), plan, StorageStop(c.name));
    forall i, m | 0 <= i < |snaps| && 0 <= m < 3
      ensures t[3 * i + 1 + m] == SnapshotSteps(env, c, snaps[i], args[i])[m]
    {
      assert t[(3 * i + m) + 1] == plan[3 * i + m];
    }
  }

  /** The positions of a sequence bracketed by a first and a last element. */
  lemma BracketedAt(s: Event, body: seq<Event>, e: Event)
    ensures var t := [s] + body + [e];
      && |t| == |body| + 2 && t[0] == s && t[|t| - 1] == e
      && forall j :: 0 <= j < |body| ==> t[j + 1] == body[j]
  {
  }

  /**
   * On the directory backend a successful sink creates each snapshot
   * before receiving into it and then shifts it, snapshot by snapshot in
   * input order: metadata before data.
   */
  lemma DirSinkOrder(env: Env, at: nat, live: bool, c: Container, snaps: seq<SnapshotDescriptor>,
                     rootDisk: RootDiskFinder, i: nat)
    requires c.storageType == Dir && i < |snaps|
    ensures Sink(env, at, live, c, snaps, rootDisk).err.None? ==>
      var t := Sink(env, at, live, c, snaps, rootDisk).trace;
      var args := SnapshotArgs(c.name, snaps[i], ParentPool(c.expandedDevices, rootDisk), rootDisk);
      && 3 * i + 3 < |t|
      && t[3 * i + 1] == CreateEmptySnapshot(args)
      && t[3 * i + 2] == RsyncRecv(AddSlash(env.entityPath(c.name + SnapshotDelimiter + snaps[i].name)),
                                   Observed(FsProgress, c.name + SnapshotDelimiter + snaps[i].name))
      && t[3 * i + 3] == ShiftIfNecessary(c.name)
  {
    if Sink(env, at, live, c, snaps, rootDisk).err.None? {
      SinkTraceShape(env, at, live, c, snaps, rootDisk);
      var t := Sink(env, at, live, c, snaps, rootDisk).trace;
      var args := ChainArgs(c.name, snaps, ParentPool(c.expandedDevices, rootDisk), rootDisk);
      ChainArgsAt(c.name, snaps, ParentPool(c.expandedDevices, rootDisk), rootDisk, i);
      assert t[3 * i + 1 + 0] == SnapshotSteps(env, c, snaps[i], args[i])[0];
      assert t[3 * i + 1 + 1] == SnapshotSteps(env, c, snaps[i], args[i])[1];
      assert t[3 * i + 1 + 2] == SnapshotSteps(env, c, snaps[i], args[i])[2];
    }
  }

  /**
   * On any other backend a successful sink receives each snapshot's data
   * into the container, shifts it, and only then creates the snapshot from
   * the container, snapshot by snapshot in input order: data before metadata.
   */
  lemma OtherSinkOrder(env: Env, at: nat, live: bool, c: Container, snaps: seq<SnapshotDescriptor>,
                       rootDisk: RootDiskFinder, i: nat)
    requires c.storageType != Dir && i < |snaps|
    ensures Sink(env, at, live, c, snaps, rootDisk).err.None? ==>
      var t := Sink(env, at, live, c, snaps, rootDisk).trace;
      var args := SnapshotArgs(c.name, snaps[i], ParentPool(c.expandedDevices, rootDisk), rootDisk);
      && 3 * i + 3 < |t|
      && t[3 * i + 1] == RsyncRecv(AddSlash(c.path), Observed(FsProgress, snaps[i].name))
      && t[3 * i + 2] == ShiftIfNecessary(c.name)
      && t[3 * i + 3] == CreateAsSnapshot(args, c.name)
  {
    if Sink(env, at, live, c, snaps, rootDisk).err.None? {
      SinkTraceShape(env, at, live, c, snaps, rootDisk);
      var t := Sink(env, at, live, c, snaps, rootDisk).trace;
      var args := ChainArgs(c.name, snaps, ParentPool(c.expandedDevices, rootDisk), rootDisk);
      ChainArgsAt(c.name, snaps, ParentPool(c.expandedDevices, rootDisk), rootDisk, i);
      assert t[3 * i + 1 + 0] == SnapshotSteps(env, c, snaps[i], args[i])[0];
      assert t[3 * i + 1 + 1] == SnapshotSteps(env, c, snaps[i], args[i])[1];
      assert t[3 * i + 1 + 2] == SnapshotSteps(env, c, snaps[i], args[i])[2];
    }
  }

  // ---------------------------------------------------------------------
  // Counting receives

  /** The number of receives in a trace. */
  function CountRecvs(t: seq<Event>): nat {
    if t == [] then 0 else (if t[0].RsyncRecv? then 1 else 0) + CountRecvs(t[1..])
  }

  lemma {:induction false} CountRecvsAppend(a: seq<Event>, b: seq<Event>)
    ensures CountRecvs(a + b) == CountRecvs(a) + CountRecvs(b)
    decreases |a|
  {
    if a == [] {
      assert a + b == b;
    } else {
      assert (a + b)[0] == a[0] && (a + b)[1..] == a[1..] + b;
      CountRecvsAppend(a[1..], b);
    }
  }

  /** Each snapshot of the chain is received exactly once. */
  lemma {:induction false} ChainRecvs(env: Env, c: Container, snaps: seq<SnapshotDescriptor>, args: seq<ContainerArgs>)
    requires |args| == |snaps|
    ensures CountRecvs(ChainSteps(env, c, snaps, args)) == |snaps|
    decreases |snaps|
  {
    if snaps != [] {
      var steps := SnapshotSteps(env, c, snaps[0], args[0]);
      assert CountRecvs(steps) == 1 by {
        assert CountRecvs(steps[2..]) == (if steps[2].RsyncRecv? then 1 else 0) by {
          assert steps[2..][1..] == [];
        }
        assert steps[1..][1..] == steps[2..];
        assert CountRecvs(steps[1..]) == (if steps[1].RsyncRecv? then 1 else 0) + CountRecvs(steps[2..]);
      }
      CountRecvsAppend(steps, ChainSteps(env, c, snaps[1..], args[1..]));
      ChainRecvs(env, c, snaps[1..], args[1..]);
    }
  }

  /** The plan receives once per snapshot, once for the container, and once more when live. */
  lemma PlanRecvs(env: Env, live: bool, c: Container, snaps: seq<SnapshotDescriptor>, args: seq<ContainerArgs>)
    requires |args| == |snaps|
    ensures CountRecvs(SinkPlan(env, live, c, snaps, args)) == |snaps| + 1 + (if live then 1 else 0)
  {
    var chain := ChainSteps(env, c, snaps, args);
    var final := (if live then [ContainerRecv(c)] else []) + [ShiftIfNecessary(c.name)];
    assert SinkPlan(env, live, c, snaps, args) == chain + ([ContainerRecv(c)] + final);
    ChainRecvs(env, c, snaps, args);
    CountRecvsAppend(chain, [ContainerRecv(c)] + final);
    CountRecvsAppend([ContainerRecv(c)], final);
    assert CountRecvs(final) == (if live then 1 else 0) by {
      assert CountRecvs([ShiftIfNecessary(c.name)]) == 0 by {
        assert [ShiftIfNecessary(c.name)][1..] == [];
      }
      if live {
        assert final[1..] == [ShiftIfNecessary(c.name)];
      } else {
        assert final == [ShiftIfNecessary(c.name)];
      }
    }
  }

  /**
   * A successful sink receives once per snapshot, once for the container,
   * and once more for the final sync exactly when the migration is live.
   */
  lemma SinkRecvCount(env: Env, at: nat, live: bool, c: Container, snaps: seq<SnapshotDescriptor>,
                      rootDisk: RootDiskFinder)
    requires Sink(env, at, live, c, snaps, rootDisk).err.None?
    ensures CountRecvs(Sink(env, at, live, c, snaps, rootDisk).trace) == |snaps| + 1 + (if live then 1 else 0)
  {
    var plan := FullPlan(env, live, c, snaps, rootDisk);
    SinkSucceeds(env, at, live, c, snaps, rootDisk);
    PlanRecvs(env, live, c, snaps, ChainArgs(c.name, snaps, ParentPool(c.expandedDevices, rootDisk), rootDisk));
    CountRecvsAppend([StorageStart(c.name)] + plan, [StorageStop(c.name)]);
    CountRecvsAppend([StorageStart(c.name)], plan);
  }

  // ---------------------------------------------------------------------
  // Placement of a received snapshot

  /**
   * A received snapshot's creation arguments are its translation, except
   * that the translation's root-disk device, when it has one, gets the
   * parent's pool as its `pool` property; every other device and every
   * other property stays as translated.
   */
  lemma SnapshotArgsPlacement(containerName: string, snap: SnapshotDescriptor, pool: string, rootDisk: RootDiskFinder)
    ensures var a := SnapshotArgs(containerName, snap, pool, rootDisk);
      var t := Translate(containerName, snap);
      var key := rootDisk(t.devices);
      && a.name == containerName + SnapshotDelimiter + snap.name && a.ctype == CTypeSnapshot
      && a.(devices := t.devices) == t
      && a.devices.Keys == t.devices.Keys
      && (forall n :: n in t.devices && n != key ==> a.devices[n] == t.devices[n])
      && (key == "" ==> a.devices == t.devices)
      && (key != "" ==> a.devices[key].Keys == t.devices[key].Keys + {"pool"} && a.devices[key]["pool"] == pool)
      && (key != "" ==> forall p :: p in t.devices[key] && p != "pool" ==> a.devices[key][p] == t.devices[key][p])
  {
  }
}
