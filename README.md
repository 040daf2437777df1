# Rsync storage transfer of container migration

This project models the storage-transfer core of LXD container migration, found in
`lxd/storage_migration.go`. It covers four pieces:

- **`snapshotProtobufToContainerArgs`**: translates the wire form of a snapshot into the
  arguments that create it under its parent container.
- **`rsyncMigrationSink`**: rebuilds a container and its snapshot chain on the destination.
  - It starts the container's storage and, once started, stops it again however it returns.
  - It resolves the parent's storage pool and refuses to go on without one.
  - It receives each snapshot as its backend calls for: the directory backend creates the
    snapshot first, any other backend creates it afterwards from the container.
  - It then receives the container itself, receives a final sync when the migration is live,
    and shifts the idmap one last time.
- **`rsyncStorageSourceDriver`**: the sending side.
  - `Snapshots` returns the snapshots captured when the driver was made.
  - `SendWhileRunning` starts and sends every snapshot in order, then sends the container.
    Each started snapshot's stop is deferred, so the stops run at the return, last started first.
  - `SendAfterCheckpoint` resends the container once, without progress reporting.
  - `Cleanup` does nothing.
- **`rsyncMigrationSource`**: builds the source driver from a container and its snapshot listing.

Every external action becomes an `Event` appended to the trace of a `Host`. The actions are
storage start and stop, rsync send and receive, idmap shift, and snapshot creation. An oracle,
`Env.fails`, decides which call fails, by its position in the trace.

The Go habit `if err := step(); err != nil { return err }` is modelled once, as `Trace.Run`.
`Run` issues the steps of a plan up to and including the first one that fails.

Each imperative method is proved against a specification function of the inputs:

- `RsyncSink.Sink`, for the sink;
- `RsyncSource.SendSession`, for the send while running.

The properties are lemmas about those functions.

Modules and files:

| file | module | contents |
|---|---|---|
| `types.dfy` | `Types` | wire descriptor, creation arguments, containers, events, errors, `AddSlash` |
| `translation.dfy` | `SnapshotTranslation` | last-wins flattening of key/value lists, the translator, pool forcing |
| `trace.dfy` | `Trace` | failure oracle, the abort-on-first-error executor `Run`, the `Host` with its trace |
| `sink.dfy` | `RsyncSink` | the sink: specification, methods, and their properties |
| `source.dfy` | `RsyncSource` | the source driver: specification, methods, and their properties |

## Model

| member | source | states |
|---|---|---|
| SnapshotTranslation.Flatten | lxd/storage_migration.go:80-84 | The keys of the map are exactly the keys of the list. Each key maps to the value of its last occurrence, because later entries overwrite earlier ones. |
| SnapshotTranslation.Translate | lxd/storage_migration.go:79-107 | The name is `containerName + "/" + snap.name` and the type is always snapshot. Profiles, ephemeral, architecture and stateful are copied unchanged. Config has exactly the keys of the local config, last value wins. Devices has one entry per device name, holding the flattened property map of the last entry with that name. |
| SnapshotTranslation.ForcePool | lxd/storage_migration.go:140-145 | With no root-disk key the devices are unchanged. With one, that device's `pool` becomes the given pool and gains `pool` as a key. Every other device keeps its map, and every other property of that device keeps its value. |
| RsyncSink.SnapshotArgsPlacement | lxd/storage_migration.go:133-145 | A received snapshot's creation arguments are its translation, with the root-disk device (if any) placed in the parent's pool. Nothing else differs from the translation. |
| RsyncSink.SnapshotCreateArgs | lxd/storage_migration.go:168-180 | The translation followed by the in-place `pool` assignment gives exactly the placed arguments `SnapshotArgs`. |
| Trace.Run | lxd/storage_migration.go:147-159 | The calls issued are a prefix of the plan. On success the prefix is the whole plan and no call failed. On failure the prefix ends with the failing call, every earlier call succeeded, and that call is the error returned. |
| Trace.RunFailsAt | lxd/storage_migration.go:183-194 | When step k is the first to fail, exactly steps 0..k are issued and step k's error is returned. |
| Trace.RunSucceeds | lxd/storage_migration.go:211-215 | When no step fails, the whole plan is issued and no error is returned. |
| RsyncSink.ParentPoolLookup | lxd/storage_migration.go:118-123 | The parent's pool is non-empty exactly when its expanded devices have a root-disk device with a non-empty `pool` property, and it is then that property's value. |
| RsyncSink.RsyncMigrationSink | lxd/storage_migration.go:109-216 | The trace the sink appends, and the error it returns, are those of the specification `Sink`. |
| RsyncSink.ReceiveWhileStarted | lxd/storage_migration.go:115-215 | Between storage start and stop, the sink appends `Received`. With no pool that is the missing-pool error and no call at all; otherwise it is the run of the sink plan. |
| RsyncSink.ReceiveChain | lxd/storage_migration.go:130-201 | The snapshot calls of the container's backend, then the container receive, each stopping at the first failure. |
| RsyncSink.ReceiveSnapshotsDir | lxd/storage_migration.go:131-160 | The directory-backend snapshot loop issues snapshot i's three calls at plan positions 3i..3i+2, in input order, stopping at the first failure. |
| RsyncSink.ReceiveSnapshotsOther | lxd/storage_migration.go:167-195 | The same for any other backend. |
| RsyncSink.ReceiveSnapshotDir | lxd/storage_migration.go:147-159 | One snapshot on the directory backend: create the empty snapshot, receive into its path, shift. It returns at the first failing call. |
| RsyncSink.ReceiveSnapshotOther | lxd/storage_migration.go:182-194 | One snapshot on another backend: receive into the container, shift, create the snapshot from the container. It returns at the first failing call. |
| RsyncSink.ReceiveFinal | lxd/storage_migration.go:203-215 | The live final sync (only when live) and the closing shift complete the run of the plan. |
| RsyncSink.SinkPlanShape | lxd/storage_migration.go:130-213 | The sink plan, position by position: snapshot i's three calls at 3i..3i+2 in input order, then the container receive, the live receive only when live, and the final shift. |
| RsyncSink.ChainStepsAt | lxd/storage_migration.go:132-160 | Snapshot i's calls sit at positions 3i, 3i+1 and 3i+2 of the chain. |
| RsyncSink.ChainArgsAt | lxd/storage_migration.go:133-145 | The creation arguments used for snapshot i are those of snapshot i, placed in the parent's pool. |
| RsyncSink.SinkStartFails | lxd/storage_migration.go:110-112 | When the storage start fails, it is the only call made. No stop follows, and its error is returned. |
| RsyncSink.SinkMissingPool | lxd/storage_migration.go:110-128 | The missing-pool error is returned exactly when the start succeeded and the root-disk device names no pool. The trace is then just start and stop: no receive, shift or creation. |
| RsyncSink.SinkSucceeds | lxd/storage_migration.go:109-216 | The sink succeeds exactly when the start succeeds, the pool is known and no call of the plan fails. Its trace is then start, the whole plan, stop. |
| RsyncSink.SinkAborts | lxd/storage_migration.go:147-212 | When step k is the first to fail, the trace is start, steps 0..k, stop, and step k's error is returned. No later step appears. |
| RsyncSink.SinkTraceShape | lxd/storage_migration.go:109-216 | A successful trace, position by position: start, the snapshots' calls, container receive, live receive when live, final shift, stop. |
| RsyncSink.DirSinkOrder | lxd/storage_migration.go:131-165 | Directory backend, on success: snapshot i's calls are creating `c/snap_i`, then receiving into that snapshot's path (reported under its name), then shifting. Metadata comes before data. |
| RsyncSink.OtherSinkOrder | lxd/storage_migration.go:166-201 | Other backends, on success: snapshot i's calls are receiving into the container path (reported under `snap_i`'s name), then shifting, then creating the snapshot from the container. Data comes before metadata. |
| RsyncSink.PlanRecvs | lxd/storage_migration.go:131-209 | The plan holds one receive per snapshot, one for the container, and one more exactly when live. |
| RsyncSink.SinkRecvCount | lxd/storage_migration.go:162-209 | A successful sink receives `|snapshots| + 1 + (live ? 1 : 0)` times. |
| RsyncSink.ChainRecvs | lxd/storage_migration.go:153-183 | Each snapshot of the chain is received exactly once, whichever the backend. |
| RsyncSource.Snapshots | lxd/storage_migration.go:39-41 | Returns the snapshots captured when the driver was made. They are exactly the snapshots that `SendWhileRunning` starts and sends, in this order, with snapshot i's start and send as calls 2i and 2i+1 of its plan. |
| RsyncSource.RsyncMigrationSource | lxd/storage_migration.go:70-77 | The driver is built exactly when the snapshot listing succeeds; otherwise the listing's error is returned. The driver holds the container, and `Snapshots` returns the listed snapshots. |
| RsyncSource.SendWhileRunning | lxd/storage_migration.go:43-59 | The trace appended and the error returned are those of `SendSession`: the run of the source plan, then the deferred stops of the held snapshots. |
| RsyncSource.SendAll | lxd/storage_migration.go:44-58 | The calls before the return are the run of the source plan. The deferred stops are the first HeldCount snapshots, in the order they were deferred. |
| RsyncSource.SendSnapshot | lxd/storage_migration.go:45-54 | Start the snapshot's storage, deferring its stop once started, then send it. It returns at the first failure and reports whether the stop was deferred. |
| RsyncSource.SendContainer | lxd/storage_migration.go:57-58 | The container send, with its progress label, closes the run. Every snapshot is then held. |
| RsyncSource.ReleaseHeld | lxd/storage_migration.go:48 | The deferred stops run in reverse order of deferral. |
| RsyncSource.SendAfterCheckpoint | lxd/storage_migration.go:61-64 | Exactly one send, of the container path with a trailing slash and no progress wrapper. It fails exactly when that call fails. |
| RsyncSource.Cleanup | lxd/storage_migration.go:66-68 | No call is made. |
| RsyncSource.SourcePlanShape | lxd/storage_migration.go:43-59 | The source plan, position by position: snapshot i's start at 2i and its send at 2i+1, in list order, then the container send. |
| RsyncSource.SnapshotSendsAt | lxd/storage_migration.go:44-55 | Snapshot i is started at position 2i and sent at position 2i+1. |
| RsyncSource.ReleasesAt | lxd/storage_migration.go:48 | One stop per held snapshot, the last held stopped first. |
| RsyncSource.SourcePlanNoStop | lxd/storage_migration.go:43-59 | The plan itself stops no storage: every stop is a deferred one. |
| RsyncSource.HeldPairing | lxd/storage_migration.go:44-49 | Snapshot i's stop is deferred exactly when its start was issued and succeeded. When a start fails, neither its send nor anything after it is issued. |
| RsyncSource.RunHeld | lxd/storage_migration.go:44-49 | The same pairing for any plan of 2n+1 calls. |
| RsyncSource.SendPairing | lxd/storage_migration.go:43-59 | The trace is the run of the plan, with no stop in it, followed by exactly one stop per held snapshot, last started first. |
| RsyncSource.SendSucceeds | lxd/storage_migration.go:43-59 | The send succeeds exactly when none of its calls fails. Its trace is then every snapshot started and sent in order, the container sent, and every snapshot stopped in reverse order. |

## Left out

- The rsync transfers, the websocket connection and the progress wrappers are not modelled as
  I/O. A transfer is an event carrying its path and, when wrapped, the metric and entity of its
  progress label. Its failure comes from the oracle.
- `ShiftIfNecessary`, `containerCreateEmptySnapshot`, `containerCreateAsSnapshot`,
  `StorageStart` and `StorageStop` are foreign calls whose code is not part of this model. Each is
  an event that may fail. The shift records only the container it applies to, not the idmap. No
  idempotence of shifting is claimed.
- `GetStorageType` returns a value and no error. The model reads it as the `storageType` field of
  `Container`, which cannot fail; only whether it is the directory backend matters.
- The code of `containerGetRootDiskDevice` is not shown. The model uses the `rootDisk` parameter
  of type `RootDiskFinder` in its place: any function that returns "" or a key of the device set
  it is given. Two assumptions follow from that:
  - the device the sink reads the `pool` property from is the one stored under that key in the
    expanded devices;
  - the helper's error result is dropped, as the sink drops it.
- The code of `shared.AddSlash` and `shared.SnapshotDelimiter` is not shown. The model uses its
  own `Types.AddSlash` and `SnapshotTranslation.SnapshotDelimiter` in their place.
  - `AddSlash` appends "/" unless the path already ends in one. Its result on the empty path,
    "/", is the model's own choice; the real helper's behaviour there is not checked.
  - The delimiter is "/".
- The snapshot created by `containerCreateEmptySnapshot` is taken to have the name it was created
  with. Its path is `Env.entityPath` of that name.
- The errors of the deferred `StorageStop` calls are discarded, as in the source. Each stop still
  occupies a trace position that the oracle may mark as failing, but it never changes the result.
- The `args.Devices != nil` guard always holds: the translator always builds a device map, and
  Dafny maps are never nil. The model has no separate nil branch.
- The errors of the foreign calls are reduced to the event that failed (`StepFailed`). The
  message of the missing-pool error becomes the constructor `MissingRootPool`. The failing
  snapshot listing of `rsyncMigrationSource` becomes `SnapshotListingFailed`.
- `srcIdmap`, the operation handle and the daemon handle are not modelled. They only reach the
  foreign calls.
- The `MigrationStorageSourceDriver` interface has one implementation here, so the driver is a
  datatype and its methods are module members taking it.
- Operation lifecycle, cancellation and checkpoint/restore lie outside this file.
