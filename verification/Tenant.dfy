/**
 One project's engine: what a project would get from a daemon of its own, with plain images in
 place of the chunk store.  `TenantLaws` shows that the shared engine gives it exactly this.
 */
module Tenant {
  import opened Wrappers
  import opened Chunking
  import opened Engine

  datatype View = View(
    runs: map<Id, Run>, snapshots: map<Id, Snapshot>, instances: map<Id, Instance>,
    live: set<Id>,                  // committed instances that run
    threads: map<Id, Thread>, images: map<Id, Bytes>, usage: Option<Usage>)

  function RunsOf(runs: map<Id, Run>, q: Id): map<Id, Run> {
    map r | r in runs && runs[r].project == q :: runs[r]
  }

  function SnapshotsOf(mine: set<Id>, snapshots: map<Id, Snapshot>): map<Id, Snapshot> {
    map s | s in snapshots && snapshots[s].run in mine :: snapshots[s]
  }

  function InstancesOf(mine: set<Id>, instances: map<Id, Instance>): map<Id, Instance> {
    map i | i in instances && instances[i].run in mine :: instances[i]
  }

  function ThreadsOf(threads: map<Id, Thread>, q: Id): map<Id, Thread> {
    map t | t in threads && threads[t].owner == q :: threads[t]
  }

  function ImagesOf(ids: set<Id>, images: map<Id, Bytes>): map<Id, Bytes> {
    map s | s in images && s in ids :: images[s]
  }

  /** The part of the shared engine that belongs to project `q`. */
  function ViewOf(e: Engine, q: Id): View {
    var runs := RunsOf(e.runs, q);
    var snapshots, instances := SnapshotsOf(runs.Keys, e.snapshots), InstancesOf(runs.Keys, e.instances);
    View(runs, snapshots, instances, e.live * instances.Keys, ThreadsOf(e.threads, q),
         ImagesOf(snapshots.Keys, e.images), if q in e.usage then Some(e.usage[q]) else None)
  }

  // ---------------------------------------------------------------- what a tenant can ask

  /** `list_runs`. */
  function RunList(e: Engine, q: Id): map<Id, Run> {
    RunsOf(e.runs, q)
  }

  /** `timeline`: the two tables read for one run. */
  function TimelineOf(e: Engine, rid: Id): (map<Id, Snapshot>, map<Id, Instance>) {
    (SnapshotsOf({rid}, e.snapshots), InstancesOf({rid}, e.instances))
  }

  ghost function TotalSize(snapshots: map<Id, Snapshot>): nat
    decreases |snapshots|
  {
    if snapshots == map[] then 0 else
      var s :| s in snapshots;
      snapshots[s].size + TotalSize(snapshots - {s})
  }

  /** SUM(size_bytes) over the project's snapshots, joined through their runs. */
  ghost function StoredBytes(e: Engine, q: Id): nat {
    TotalSize(map s | s in e.snapshots && ProjectOfSnapshot(e, s) == Some(q) :: e.snapshots[s])
  }

  const PRICE_VCPU_HR := 0.09
  const PRICE_RAM_GIB_HR := 0.35
  const PRICE_STORE_GB_MO := 0.05

  datatype Bill = Bill(vcpuHours: real, ramGibHours: real, storedBytes: nat, cost: real)

  /** `usage`, before the figures are rounded for display. */
  ghost function BillOf(e: Engine, q: Id): Bill {
    var u, stored := UsageOr0(e.usage, q), StoredBytes(e, q);
    var vcpu, ram := u.vcpu / 3600.0, u.ram / 3600.0;
    Bill(vcpu, ram, stored,
         vcpu * PRICE_VCPU_HR + ram * PRICE_RAM_GIB_HR + stored as real / 1000000000.0 * PRICE_STORE_GB_MO / 730.0)
  }

  // ---------------------------------------------------------------- the tenant's own steps

  predicate ViewEnabled(v: View, step: Step) {
    match step
    case BootVm(tid) => tid in v.threads && v.threads[tid].Booting?
    case ChunkImage(tid, _) => tid in v.threads && v.threads[tid].Snapshotting? && v.threads[tid].raw.None?
    case CommitSnapshot(tid, _, _) => tid in v.threads && v.threads[tid].Snapshotting? && v.threads[tid].raw.Some?
    case ForkChild(tid, _, _, _) => tid in v.threads && v.threads[tid].Forking? && v.threads[tid].left > 0
    case CommitFork(tid) => tid in v.threads && v.threads[tid].Forking? && v.threads[tid].left == 0
    case Abort(tid) => tid in v.threads
    case _ => true
  }

  /** The ids a step issues; a refused request issues none. */
  function Issued(v: View, step: Step): set<Id> {
    match step
    case BeginSnapshot(_, iid, _, _, _) => if iid in v.instances && iid in v.live then IdsOf(step) else {}
    case BeginFork(_, sid, _, _) => if sid in v.snapshots then IdsOf(step) else {}
    case _ => IdsOf(step)
  }

  function ViewBeginSnapshot(q: Id, v: View, iid: Id, tid: Id, sid: Id, tag: string): View {
    if iid !in v.instances || iid !in v.live then v else
      v.(threads := v.threads[tid :=
        Snapshotting(q, v.instances[iid].run, v.instances[iid].snapshot, iid, sid, tag, None)])
  }

  function ViewCommitSnapshot(v: View, tid: Id, vmstate: nat, now: int): View
    requires tid in v.threads && v.threads[tid].Snapshotting? && v.threads[tid].raw.Some?
  {
    var t := v.threads[tid];
    v.(snapshots := v.snapshots[t.sid := Snapshot(t.run, t.parent, t.tag, |t.raw.value| + vmstate, now)],
       instances := if t.iid in v.instances
                    then v.instances[t.iid := v.instances[t.iid].(snapshot := Some(t.sid))] else v.instances,
       images := v.images[t.sid := t.raw.value], threads := v.threads - {tid})
  }

  /** A fork starts from exactly the image the snapshot was taken of. */
  function ViewBeginFork(q: Id, v: View, sid: Id, tid: Id, n: int): View {
    if sid !in v.snapshots || sid !in v.images then v else
      v.(threads := v.threads[tid :=
        Forking(q, sid, v.snapshots[sid].run, v.images[sid], if n < 0 then 0 else n, map[])])
  }

  function ViewForkChild(v: View, tid: Id, iid: Id, branch: string, now: int): View
    requires tid in v.threads && v.threads[tid].Forking? && v.threads[tid].left > 0
  {
    var t := v.threads[tid];
    v.(threads := v.threads[tid := t.(left := t.left - 1,
         children := t.children[iid := Instance(t.run, Some(t.sid), Running, branch, now)])])
  }

  function ViewCommitFork(v: View, tid: Id): View
    requires tid in v.threads && v.threads[tid].Forking?
  {
    v.(instances := v.instances + v.threads[tid].children, live := v.live + v.threads[tid].children.Keys,
       threads := v.threads - {tid})
  }

  function ViewDestroy(v: View, iid: Id): View {
    if iid !in v.instances then v else
      v.(live := v.live - {iid}, instances := v.instances[iid := v.instances[iid].(status := Destroyed)])
  }

  /** A project is billed from its first running instance on. */
  function ViewTick(w: World, v: View, dt: real): View {
    if v.usage.None? && v.live == {} then v else
      v.(usage := Some(Accrued(w, if v.usage.Some? then v.usage.value else Usage(0.0, 0.0), |v.live|, dt)))
  }

  function ViewStep(w: World, q: Id, v: View, step: Step): View
    requires ViewEnabled(v, step)
  {
    match step
    case CreateProject(_, _, _) => v
    case CreateRun(_, rid, iid, tid, tag, now) =>
      v.(runs := v.runs[rid := Run(q, tag, now)],
         instances := v.instances[iid := Instance(rid, None, Running, "genesis", now)],
         threads := v.threads[tid := Booting(q, iid)])
    case BootVm(tid) => v.(live := v.live + {v.threads[tid].iid}, threads := v.threads - {tid})
    case BeginSnapshot(_, iid, tid, sid, tag) => ViewBeginSnapshot(q, v, iid, tid, sid, tag)
    case ChunkImage(tid, image) => v.(threads := v.threads[tid := v.threads[tid].(raw := Some(image))])
    case CommitSnapshot(tid, vmstate, now) => ViewCommitSnapshot(v, tid, vmstate, now)
    case BeginFork(_, sid, tid, n) => ViewBeginFork(q, v, sid, tid, n)
    case ForkChild(tid, iid, branch, now) => ViewForkChild(v, tid, iid, branch, now)
    case CommitFork(tid) => ViewCommitFork(v, tid)
    case Abort(tid) => v.(threads := v.threads - {tid})
    case Destroy(_, iid) => ViewDestroy(v, iid)
    case Tick(dt) => ViewTick(w, v, dt)
    case Restart(_) => v.(live := {}, threads := map[])
  }
}
