/**
 * Values shared by the storage-transfer engine of container migration:
 * the wire form of a snapshot, the arguments that create one, the
 * containers involved, and the external calls the engine makes (events).
 */
module Types {

  datatype Option<+T> = None | Some(value: T)

  /** The signed 32-bit integer of the wire format (architecture ids). */
  newtype Int32 = x: int | -0x8000_0000 <= x < 0x8000_0000

  /** A device's property map, keyed by property name. */
  type DeviceProps = map<string, string>

  /** A device set: property maps keyed by device name. */
  type Devices = map<string, DeviceProps>

  /**
   * The lookup of a device set's root-disk device: its key, or "" when
   * there is none. Whatever key it reports is a key of the set.
   */
  type RootDiskFinder = f: Devices -> string | forall d :: f(d) == "" || f(d) in d
    witness (d: Devices) => ""

  /** A device of the wire form: its name and its property list. */
  datatype DeviceEntry = DeviceEntry(name: string, config: seq<(string, string)>)

  /** The wire form of one snapshot. */
  datatype SnapshotDescriptor = SnapshotDescriptor(
    name: string,
    localConfig: seq<(string, string)>,
    profiles: seq<string>,
    ephemeral: bool,
    localDevices: seq<DeviceEntry>,
    architecture: Int32,
    stateful: bool)

  datatype ContainerType = CTypeRegular | CTypeSnapshot

  /** The arguments from which a container or snapshot entity is created. */
  datatype ContainerArgs = ContainerArgs(
    name: string,
    ctype: ContainerType,
    config: map<string, string>,
    profiles: seq<string>,
    ephemeral: bool,
    devices: Devices,
    architecture: int,
    stateful: bool)

  /** Only whether a backend is the directory backend matters here. */
  datatype StorageType = Dir | OtherBackend

  /** A container (or snapshot) entity as this core sees it. */
  datatype Container = Container(
    name: string,
    path: string,
    expandedDevices: Devices,
    storageType: StorageType)

  /** The metric name under which transfer progress is reported. */
  const FsProgress := "fs_progress"

  /** Whether a transfer is wrapped for progress reporting, and under which label. */
  datatype Progress = Unobserved | Observed(metric: string, entity: string)

  /** The external calls of the engine, in the order it issues them. */
  datatype Event =
    | StorageStart(entity: string)
    | StorageStop(entity: string)
    | CreateEmptySnapshot(args: ContainerArgs)
    | CreateAsSnapshot(args: ContainerArgs, source: string)
    | RsyncSend(path: string, progress: Progress)
    | RsyncRecv(path: string, progress: Progress)
    | ShiftIfNecessary(entity: string)

  datatype Error =
    | MissingRootPool          // the parent's root-disk device names no pool
    | StepFailed(step: Event)  // the external call `step` returned an error
    | SnapshotListingFailed    // the source container's snapshots could not be listed

  datatype Result<+T> = Ok(value: T) | Err(error: Error)

  /**
   * The directory form of a path: it ends in '/', and is the path itself
   * when that already ends in '/'.
   */
  function AddSlash(path: string): (r: string)
    ensures |r| > 0 && r[|r| - 1] == '/'
    ensures |path| <= |r| <= |path| + 1 && r[..|path|] == path
    ensures |path| > 0 && path[|path| - 1] == '/' ==> r == path
  {
    if |path| > 0 && path[|path| - 1] == '/' then path else path + "/"
  }
}
