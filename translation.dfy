/**
 * The snapshot descriptor translator: from the wire form of a snapshot to
 * the arguments that create it under its parent container, and the
 * storage-pool placement the sink applies to those arguments.
 */
module SnapshotTranslation {
  import opened Types

  /** Separates a parent container's name from its snapshot's name. */
  const SnapshotDelimiter := "/"

  /** Entry j carries the last occurrence of its key in kvs. */
  ghost predicate IsLastOccurrence<V>(kvs: seq<(string, V)>, j: int)
    requires 0 <= j < |kvs|
  {
    forall j' :: j < j' < |kvs| ==> kvs[j'].0 != kvs[j].0
  }

  /**
   * The map that results from storing the entries of kvs one after the
   * other, so that a later entry overwrites an earlier one with the same key.
   */
  function Flatten<V>(kvs: seq<(string, V)>): (m: map<string, V>)
    ensures forall k :: k in m <==> exists j :: 0 <= j < |kvs| && kvs[j].0 == k
    ensures forall j :: 0 <= j < |kvs| && IsLastOccurrence(kvs, j) ==> m[kvs[j].0] == kvs[j].1
    decreases |kvs|
  {
    if kvs == [] then map[]
    else
      var init := kvs[..|kvs| - 1];
      var last := kvs[|kvs| - 1];
      assert forall j :: 0 <= j < |init| ==> init[j] == kvs[j];
      Flatten(init)[last.0 := last.1]
  }

  /** The (name, property map) entries of a wire device list, in order. */
  function DevicePairs(entries: seq<DeviceEntry>): seq<(string, DeviceProps)> {
    seq(|entries|, i requires 0 <= i < |entries| => (entries[i].name, Flatten(entries[i].config)))
  }

  /** The pairs are named as the entries, so the last entry of a name gives the last pair of that key. */
  lemma DevicePairsNames(entries: seq<DeviceEntry>)
    ensures |DevicePairs(entries)| == |entries|
    ensures forall j :: 0 <= j < |entries| ==> DevicePairs(entries)[j].0 == entries[j].name
    ensures forall j :: 0 <= j < |entries| ==> DevicePairs(entries)[j].1 == Flatten(entries[j].config)
    ensures forall j :: 0 <= j < |entries| && IsLastDevice(entries, j) ==> IsLastOccurrence(DevicePairs(entries), j)
  {
  }

  /** Entry j carries the last occurrence of its device name. */
  ghost predicate IsLastDevice(entries: seq<DeviceEntry>, j: int)
    requires 0 <= j < |entries|
  {
    forall j' :: j < j' < |entries| ==> entries[j'].name != entries[j].name
  }

  /**
   * The creation arguments of snapshot snap of the container named
   * containerName.
   */
  function Translate(containerName: string, snap: SnapshotDescriptor): (a: ContainerArgs)
    ensures a.name == containerName + SnapshotDelimiter + snap.name
    ensures a.ctype == CTypeSnapshot
    ensures a.profiles == snap.profiles && a.ephemeral == snap.ephemeral
    ensures a.architecture == snap.architecture as int && a.stateful == snap.stateful
    ensures forall k :: k in a.config <==>
              exists j :: 0 <= j < |snap.localConfig| && snap.localConfig[j].0 == k
    ensures forall j :: 0 <= j < |snap.localConfig| && IsLastOccurrence(snap.localConfig, j) ==>
              a.config[snap.localConfig[j].0] == snap.localConfig[j].1
    ensures forall n :: n in a.devices <==>
              exists j :: 0 <= j < |snap.localDevices| && snap.localDevices[j].name == n
    ensures forall j :: 0 <= j < |snap.localDevices| && IsLastDevice(snap.localDevices, j) ==>
              a.devices[snap.localDevices[j].name] == Flatten(snap.localDevices[j].config)
  {
    var pairs := DevicePairs(snap.localDevices);
    DevicePairsNames(snap.localDevices);
    ContainerArgs(
      name := containerName + SnapshotDelimiter + snap.name,
      ctype := CTypeSnapshot,
      config := Flatten(snap.localConfig),
      profiles := snap.profiles,
      ephemeral := snap.ephemeral,
      devices := Flatten(pairs),
      architecture := snap.architecture as int,
      stateful := snap.stateful)
  }

  /**
   * The device set with the `pool` property of device key set to pool;
   * key "" (no root-disk device) leaves the set as it is.
   */
  function ForcePool(devices: Devices, key: string, pool: string): (r: Devices)
    requires key == "" || key in devices
    ensures key == "" ==> r == devices
    ensures r.Keys == devices.Keys
    ensures forall k :: k in devices && k != key ==> r[k] == devices[k]
    ensures key != "" ==> r[key].Keys == devices[key].Keys + {"pool"} && r[key]["pool"] == pool
    ensures key != "" ==> forall p :: p in devices[key] && p != "pool" ==> r[key][p] == devices[key][p]
  {
    if key != "" then devices[key := devices[key]["pool" := pool]] else devices
  }
}
