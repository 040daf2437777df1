/**
 * The source side of the rsync storage transfer: a driver holding the
 * container and its snapshots, which sends the snapshots' filesystems and
 * then the container's while the container keeps running.
 */
module RsyncSource {
  import opened Types
  import opened Trace

  /** The rsync source driver: the container and the snapshots listed when the driver was made. */
  datatype SourceDriver = RsyncSourceDriver(container: Container, snapshots: seq<Container>)

  /**
   * The snapshots captured when the driver was made: exactly the ones
   * SendWhileRunning starts and sends, in this order, before the container.
   */
  function Snapshots(d: SourceDriver): (r: seq<Container>)
    ensures r == d.snapshots
    ensures |SourcePlan(d)| == 2 * |r| + 1
    ensures forall i :: 0 <= i < |r| ==>
              SourcePlan(d)[2 * i] == StorageStart(r[i].name) && SourcePlan(d)[2 * i + 1] == ObservedSend(r[i])
  {
    SourcePlanShape(d);
    d.snapshots
  }

  /**
   * Makes the driver for container c, listing gives the result of listing
   * c's snapshots (None when the listing fails).
   */
  function RsyncMigrationSource(c: Container, listing: Option<seq<Container>>): (r: Result<SourceDriver>)
    ensures r.Err? <==> listing.None?
    ensures r.Err? ==> r.error == SnapshotListingFailed
    ensures r.Ok? ==> r.value.container == c && Snapshots(r.value) == listing.value
  {
    if listing.None? then Err(SnapshotListingFailed) else Ok(RsyncSourceDriver(c, listing.value))
  }

  /** Sending an entity's filesystem, reported under its name. */
  function ObservedSend(x: Container): Event {
    RsyncSend(AddSlash(x.path), Observed(FsProgress, x.name))
  }

  /** Start each snapshot's storage and send it, snapshot by snapshot. */
  function SnapshotSends(snaps: seq<Container>): seq<Event>
    decreases |snaps|
  {
    if snaps == [] then [] else [StorageStart(snaps[0].name), ObservedSend(snaps[0])] + SnapshotSends(snaps[1..])
  }

  /** Every call of the send while running, the deferred stops aside, when none of them fails. */
  function SourcePlan(d: SourceDriver): seq<Event> {
    SnapshotSends(d.snapshots) + [ObservedSend(d.container)]
  }

  /** The deferred stops of the started snapshots held, run last-deferred first. */
  function Releases(held: seq<Container>): seq<Event>
    decreases |held|
  {
    if held == [] then [] else Releases(held[1..]) + [StorageStop(held[0].name)]
  }

  /**
   * How many snapshots, from the first, had their storage started by run r
   * of a plan for n snapshots: all of them when nothing failed; otherwise
   * the calls before the failing one, two per snapshot (a start, then a
   * send), end just after the last start that succeeded.
   */
  function HeldCount(n: nat, r: Ran): (held: nat)
    ensures held <= n
  {
    if r.failed.None? || n <= |r.done| / 2 then n else |r.done| / 2
  }

  /** One send while running from trace position at: the run of the plan, then the deferred stops. */
  function SendSession(fails: nat -> bool, at: nat, d: SourceDriver): Session {
    var r := Run(SourcePlan(d), fails, at);
    var held := HeldCount(|d.snapshots|, r);
    Session(r.done + Releases(d.snapshots[..held]), ErrorOf(r.failed))
  }

  // ---------------------------------------------------------------------
  // The driver's operations

  /**
   * Sends every snapshot in order, each after starting its storage, then
   * the container. A started snapshot stays started until the return, when
   * the deferred stops run in reverse order; their errors are dropped.
   */
  method SendWhileRunning(d: SourceDriver, h: Host) returns (err: Option<Error>)
    modifies h
    ensures h.trace == old(h.trace) + SendSession(h.env.fails, |old(h.trace)|, d).trace
    ensures err == SendSession(h.env.fails, |old(h.trace)|, d).err
  {
    ghost var t0 := h.trace;
    ghost var plan := SourcePlan(d);
    SourcePlanShape(d);
    assert h.trace == t0 + plan[..0];
    ghost var r := Run(plan, h.env.fails, |t0|);
    var held;
    err, held := SendAll(d, h, t0, plan);
    ReleaseHeld(h, held);
    Appended(t0, r.done, Releases(held));
  }

  /**
   * The sends of SendWhileRunning up to its return; held lists the
   * snapshots whose stop was deferred, in the order they were deferred.
   */
  method SendAll(d: SourceDriver, h: Host, ghost t0: seq<Event>, ghost plan: seq<Event>)
    returns (err: Option<Error>, held: seq<Container>)
    requires |plan| == 2 * |d.snapshots| + 1
    requires forall i :: 0 <= i < |d.snapshots| ==> plan[2 * i] == StorageStart(d.snapshots[i].name)
    requires forall i :: 0 <= i < |d.snapshots| ==> plan[2 * i + 1] == ObservedSend(d.snapshots[i])
    requires plan[2 * |d.snapshots|] == ObservedSend(d.container)
    requires Reached(h.trace, t0, plan, h.env.fails, 0)
    modifies h
    ensures h.trace == t0 + Run(plan, h.env.fails, |t0|).done
    ensures err == ErrorOf(Run(plan, h.env.fails, |t0|).failed)
    ensures held == d.snapshots[..HeldCount(|d.snapshots|, Run(plan, h.env.fails, |t0|))]
  {
    var n := |d.snapshots|;
    held := [];
    var i := 0;
    while i < n
      invariant 0 <= i <= n
      invariant Reached(h.trace, t0, plan, h.env.fails, 2 * i)
      invariant held == d.snapshots[..i]
    {
      var started;
      started, err := SendSnapshot(d, h, i, t0, plan);
      if started {
        assert d.snapshots[..i + 1] == d.snapshots[..i] + [d.snapshots[i]];
        held := held + [d.snapshots[i]];
      }
      if err.Some? {
        assert held == d.snapshots[..if started then i + 1 else i];
        return;
      }
      i := i + 1;
    }
    assert held == d.snapshots;
    err := SendContainer(d, h, t0, plan);
  }

  /** The container's own send, the last call before the return. */
  method SendContainer(d: SourceDriver, h: Host, ghost t0: seq<Event>, ghost plan: seq<Event>)
    returns (err: Option<Error>)
    requires |plan| == 2 * |d.snapshots| + 1
    requires plan[2 * |d.snapshots|] == ObservedSend(d.container)
    requires Reached(h.trace, t0, plan, h.env.fails, 2 * |d.snapshots|)
    modifies h
    ensures h.trace == t0 + Run(plan, h.env.fails, |t0|).done
    ensures err == ErrorOf(Run(plan, h.env.fails, |t0|).failed)
    ensures HeldCount(|d.snapshots|, Run(plan, h.env.fails, |t0|)) == |d.snapshots|
  {
    var n := |d.snapshots|;
    var ok := h.Perform(ObservedSend(d.container), t0, plan, 2 * n);
    if !ok {
      RunFailsAt(plan, h.env.fails, |t0|, 2 * n);
      return Some(StepFailed(ObservedSend(d.container)));
    }
    assert plan[..2 * n + 1] == plan;
    RunSucceeds(plan, h.env.fails, |t0|);
    return None;
  }

  /**
   * One snapshot of SendWhileRunning: start its storage, deferring its
   * stop once started, then send it. started tells whether the stop was deferred.
   */
  method SendSnapshot(d: SourceDriver, h: Host, i: nat, ghost t0: seq<Event>, ghost plan: seq<Event>)
    returns (started: bool, err: Option<Error>)
    requires i < |d.snapshots| && |plan| == 2 * |d.snapshots| + 1
    requires plan[2 * i] == StorageStart(d.snapshots[i].name)
    requires plan[2 * i + 1] == ObservedSend(d.snapshots[i])
    requires Reached(h.trace, t0, plan, h.env.fails, 2 * i)
    modifies h
    ensures err.None? ==> started && Reached(h.trace, t0, plan, h.env.fails, 2 * i + 2)
    ensures err.Some? ==> h.trace == t0 + Run(plan, h.env.fails, |t0|).done
    ensures err.Some? ==> err == ErrorOf(Run(plan, h.env.fails, |t0|).failed)
    ensures err.Some? ==> HeldCount(|d.snapshots|, Run(plan, h.env.fails, |t0|)) == if started then i + 1 else i
  {
    var send := d.snapshots[i];
    var ok := h.Perform(StorageStart(send.name), t0, plan, 2 * i);
    if !ok {
      RunFailsAt(plan, h.env.fails, |t0|, 2 * i);
      return false, Some(StepFailed(StorageStart(send.name)));
    }
    ok := h.Perform(ObservedSend(send), t0, plan, 2 * i + 1);
    if !ok {
      RunFailsAt(plan, h.env.fails, |t0|, 2 * i + 1);
      return true, Some(StepFailed(ObservedSend(send)));
    }
    return true, None;
  }

  /** Runs the deferred stops of held, the last deferred first. */
  method ReleaseHeld(h: Host, held: seq<Container>)
    modifies h
    ensures h.trace == old(h.trace) + Releases(held)
  {
    var j := |held|;
    while j > 0
      invariant 0 <= j <= |held|
      invariant h.trace == old(h.trace) + Releases(held[j..])
    {
      j := j - 1;
      // the error of a deferred call is dropped
      var _ := h.Call(StorageStop(held[j].name));
      assert held[j..][1..] == held[j + 1..];
    }
    assert held[0..] == held;
  }

  /** Resends the container's filesystem, without progress reporting, after the checkpoint. */
  method SendAfterCheckpoint(d: SourceDriver, h: Host) returns (err: Option<Error>)
    modifies h
    ensures h.trace == old(h.trace) + [RsyncSend(AddSlash(d.container.path), Unobserved)]
    ensures err.None? <==> !h.env.fails(|old(h.trace)|)
    ensures err.Some? ==> err == Some(StepFailed(RsyncSend(AddSlash(d.container.path), Unobserved)))
  {
    var ok := h.Call(RsyncSend(AddSlash(d.container.path), Unobserved));
    err := if ok then None else Some(StepFailed(RsyncSend(AddSlash(d.container.path), Unobserved)));
  }

  /** Cleans up after the migration: the rsync driver has nothing to clean up. */
  method Cleanup(d: SourceDriver, h: Host)
    ensures h.trace == old(h.trace)
  {
  }

  // ---------------------------------------------------------------------
  // Properties

  /** The plan, position by position: snapshot i's start at 2i and its send at 2i+1, then the container's send. */
  lemma SourcePlanShape(d: SourceDriver)
    ensures var plan := SourcePlan(d); var n := |d.snapshots|;
      && |plan| == 2 * n + 1
      && (forall i :: 0 <= i < n ==> plan[2 * i] == StorageStart(d.snapshots[i].name))
      && (forall i :: 0 <= i < n ==> plan[2 * i + 1] == ObservedSend(d.snapshots[i]))
      && plan[2 * n] == ObservedSend(d.container)
  {
    SnapshotSendsLength(d.snapshots);
    forall i | 0 <= i < |d.snapshots| {
      SnapshotSendsAt(d.snapshots, i);
    }
  }

  lemma {:induction false} SnapshotSendsLength(snaps: seq<Container>)
    ensures |SnapshotSends(snaps)| == 2 * |snaps|
    decreases |snaps|
  {
    if snaps != [] {
      SnapshotSendsLength(snaps[1..]);
    }
  }

  /** Snapshot i is started at position 2i and sent at 2i+1. */
  lemma {:induction false} SnapshotSendsAt(snaps: seq<Container>, i: nat)
    requires i < |snaps|
    ensures |SnapshotSends(snaps)| == 2 * |snaps|
    ensures SnapshotSends(snaps)[2 * i] == StorageStart(snaps[i].name)
    ensures SnapshotSends(snaps)[2 * i + 1] == ObservedSend(snaps[i])
    decreases |snaps|
  {
    SnapshotSendsLength(snaps);
    var head := [StorageStart(snaps[0].name), ObservedSend(snaps[0])];
    var rest := SnapshotSends(snaps[1..]);
    assert SnapshotSends(snaps) == head + rest;
    if i > 0 {
      SnapshotSendsAt(snaps[1..], i - 1);
      assert snaps[1..][i - 1] == snaps[i];
      assert (head + rest)[2 * i] == rest[2 * (i - 1)];
      assert (head + rest)[2 * i + 1] == rest[2 * (i - 1) + 1];
    }
  }

  /** The deferred stops: one per held snapshot, the last one held stopped first. */
  lemma {:induction false} ReleasesAt(held: seq<Container>)
    ensures |Releases(held)| == |held|
    ensures forall j :: 0 <= j < |held| ==> Releases(held)[j] == StorageStop(held[|held| - 1 - j].name)
    decreases |held|
  {
    if held != [] {
      ReleasesAt(held[1..]);
      forall j | 0 <= j < |held| - 1
        ensures Releases(held)[j] == StorageStop(held[|held| - 1 - j].name)
      {
        assert held[1..][|held[1..]| - 1 - j] == held[|held| - 1 - j];
      }
    }
  }

  /** The plan stops no storage: every stop of a send while running is a deferred one. */
  lemma SourcePlanNoStop(d: SourceDriver)
    ensures forall j :: 0 <= j < |SourcePlan(d)| ==> !SourcePlan(d)[j].StorageStop?
  {
    var plan := SourcePlan(d);
    SourcePlanShape(d);
    forall j | 0 <= j < |plan|
      ensures !plan[j].StorageStop?
    {
      var i := j / 2;
      if i == |d.snapshots| {
        assert j == 2 * |d.snapshots|;
      } else if j == 2 * i {
        assert plan[2 * i] == StorageStart(d.snapshots[i].name);
      } else {
        assert j == 2 * i + 1;
        assert plan[2 * i + 1] == ObservedSend(d.snapshots[i]);
      }
    }
  }

  /**
   * Snapshot i's stop is deferred exactly when its start was issued and
   * succeeded; a snapshot whose start failed is not sent, nor is anything after it.
   */
  lemma HeldPairing(fails: nat -> bool, at: nat, d: SourceDriver)
    ensures var r := Run(SourcePlan(d), fails, at);
      var held := HeldCount(|d.snapshots|, r);
      && (forall i :: 0 <= i < |d.snapshots| ==> (i < held <==> 2 * i < |r.done| && !fails(at + 2 * i)))
      && (forall i :: 0 <= i < |d.snapshots| && 2 * i < |r.done| && fails(at + 2 * i) ==> |r.done| == 2 * i + 1)
  {
    SnapshotSendsLength(d.snapshots);
    RunHeld(SourcePlan(d), fails, at, |d.snapshots|);
  }

  /** HeldPairing for any plan of 2n+1 calls, whatever they are. */
  lemma RunHeld(plan: seq<Event>, fails: nat -> bool, at: nat, n: nat)
    requires |plan| == 2 * n + 1
    ensures var r := Run(plan, fails, at);
      var held := HeldCount(n, r);
      && (forall i :: 0 <= i < n ==> (i < held <==> 2 * i < |r.done| && !fails(at + 2 * i)))
      && (forall i :: 0 <= i < n && 2 * i < |r.done| && fails(at + 2 * i) ==> |r.done| == 2 * i + 1)
  {
    var r := Run(plan, fails, at);
    var held := HeldCount(n, r);
    forall i | 0 <= i < n
      ensures i < held <==> 2 * i < |r.done| && !fails(at + 2 * i)
      ensures 2 * i < |r.done| && fails(at + 2 * i) ==> |r.done| == 2 * i + 1
    {
      if r.failed.Some? {
        assert held == |r.done| / 2;
        if 2 * i < |r.done| - 1 {
          assert !fails(at + 2 * i);
        }
      }
    }
  }

  /**
   * The calls of a send while running: the run of the plan, which stops no
   * storage, then one stop per snapshot whose stop was deferred, the last
   * snapshot started stopped first.
   */
  lemma SendPairing(fails: nat -> bool, at: nat, d: SourceDriver)
    ensures var r := Run(SourcePlan(d), fails, at);
      var held := HeldCount(|d.snapshots|, r);
      var t := SendSession(fails, at, d).trace;
      && (forall j :: 0 <= j < |r.done| ==> !t[j].StorageStop?)
      && |t| == |r.done| + held && t[..|r.done|] == r.done
      && (forall j :: |r.done| <= j < |t| ==> t[j] == StorageStop(d.snapshots[|t| - 1 - j].name))
  {
    var r := Run(SourcePlan(d), fails, at);
    var held := HeldCount(|d.snapshots|, r);
    var t := SendSession(fails, at, d).trace;
    var releases := Releases(d.snapshots[..held]);
    SourcePlanNoStop(d);
    ReleasesAt(d.snapshots[..held]);
    assert t == r.done + releases;
    forall j | 0 <= j < |r.done|
      ensures !t[j].StorageStop?
    {
      assert t[j] == r.done[j] == SourcePlan(d)[j];
    }
    forall j | |r.done| <= j < |t|
      ensures t[j] == StorageStop(d.snapshots[|t| - 1 - j].name)
    {
      assert t[j] == releases[j - |r.done|];
      assert d.snapshots[..held][held - 1 - (j - |r.done|)] == d.snapshots[|t| - 1 - j];
    }
  }

  /**
   * A send while running succeeds exactly when none of its calls fails;
   * it then starts and sends every snapshot in order, sends the container,
   * and stops every snapshot, the last first.
   */
  lemma SendSucceeds(fails: nat -> bool, at: nat, d: SourceDriver)
    ensures SendSession(fails, at, d).err.None? <==> NoFailure(fails, at, at + 2 * |d.snapshots| + 1)
    ensures SendSession(fails, at, d).err.None? ==>
              SendSession(fails, at, d).trace == SourcePlan(d) + Releases(d.snapshots)
  {
    SourcePlanShape(d);
    if NoFailure(fails, at, at + 2 * |d.snapshots| + 1) {
      RunSucceeds(SourcePlan(d), fails, at);
      assert d.snapshots[..|d.snapshots|] == d.snapshots;
    }
  }
}
