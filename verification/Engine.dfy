/**
 The timeline engine as a state machine (spikes/engine/kladosd.py:101-453).  Requests run on
 threads: a snapshot reads its parent long before it commits, a fork boots its children one by
 one before it commits their rows, and the steps of different requests interleave freely.
 */
module Engine {
  import opened Wrappers
  import opened Chunking
  import opened Store
  import opened ColdTier

  type Id = nat    // rows, threads: ids are fresh uuids
  type ApiKey = string
  type KeyHash = string

  datatype Run = Run(project: Id, image: string, created: int)

  datatype Snapshot = Snapshot(run: Id, parent: Option<Id>, tag: string, size: nat, created: int)

  datatype Status = Running | Destroyed

  datatype Instance = Instance(run: Id, snapshot: Option<Id>, status: Status, branch: string, created: int)

  datatype Usage = Usage(vcpu: real, ram: real)

  /** What a request thread carries between its steps; `owner` is the authenticated project. */
  datatype Thread =
    | Booting(owner: Id, iid: Id)
    | Snapshotting(owner: Id, run: Id, parent: Option<Id>, iid: Id, sid: Id, tag: string, raw: Option<Bytes>)
    | Forking(owner: Id, sid: Id, run: Id, image: Bytes, left: nat, children: map<Id, Instance>)

  datatype Engine = Engine(
    projects: seq<(Id, KeyHash)>,
    runs: map<Id, Run>, snapshots: map<Id, Snapshot>, instances: map<Id, Instance>,
    usage: map<Id, Usage>,
    live: set<Id>, threads: map<Id, Thread>,
    store: State, manifests: map<Id, seq<Key>>,
    // history: ids ever issued, snapshots in commit order, the images behind the manifests
    used: set<Id>, order: seq<Id>, images: map<Id, Bytes>)

  datatype Step =
    | CreateProject(key: ApiKey, pid: Id, newKey: ApiKey)
    | CreateRun(key: ApiKey, rid: Id, iid: Id, tid: Id, tag: string, now: int)
    | BootVm(tid: Id)
    | BeginSnapshot(key: ApiKey, iid: Id, tid: Id, sid: Id, tag: string)
    | ChunkImage(tid: Id, image: Bytes)
    | CommitSnapshot(tid: Id, vmstate: nat, now: int)
    | BeginFork(key: ApiKey, sid: Id, tid: Id, n: int)
    | ForkChild(tid: Id, iid: Id, branch: string, now: int)
    | CommitFork(tid: Id)
    | Abort(tid: Id)                    // an exception ends the request
    | Destroy(key: ApiKey, iid: Id)
    | Tick(dt: real)
    | Restart(wiped: bool)              // the daemon dies; its chunk directory may be lost too

  /** Hashing of API keys is a parameter, like the store's hash. */
  datatype World = World(c: Config, keyHash: ApiKey -> KeyHash, memMib: nat)

  ghost predicate Usual(w: World) {
    Sound(w.c) && w.c.root
  }

  // ---------------------------------------------------------------- authorization

  function FirstWithHash(projects: seq<(Id, KeyHash)>, h: KeyHash): Option<Id> {
    if projects == [] then None
    else if projects[0].1 == h then Some(projects[0].0)
    else FirstWithHash(projects[1..], h)
  }

  /** `project_of_key`; an empty key is nobody's. */
  function Auth(w: World, e: Engine, key: ApiKey): Option<Id> {
    if key == "" then None else FirstWithHash(e.projects, w.keyHash(key))
  }

  function ProjectOfRun(e: Engine, rid: Id): Option<Id> {
    if rid in e.runs then Some(e.runs[rid].project) else None
  }

  /** `_project_of("instances", ...)`: the join through the run. */
  function ProjectOfInstance(e: Engine, iid: Id): Option<Id> {
    if iid in e.instances then ProjectOfRun(e, e.instances[iid].run) else None
  }

  function ProjectOfSnapshot(e: Engine, sid: Id): Option<Id> {
    if sid in e.snapshots then ProjectOfRun(e, e.snapshots[sid].run) else None
  }

  // ---------------------------------------------------------------- steps

  function IdsOf(step: Step): set<Id> {
    match step
    case CreateProject(_, pid, _) => {pid}
    case CreateRun(_, rid, iid, tid, _, _) => {rid, iid, tid}
    case BeginSnapshot(_, _, tid, sid, _) => {tid, sid}
    case BeginFork(_, _, tid, _) => {tid}
    case ForkChild(_, iid, _, _) => {iid}
    case _ => {}
  }

  /** The project a step acts for: the key's, or that of the thread taking the step. */
  function ActsFor(w: World, e: Engine, step: Step): Option<Id> {
    match step
    case CreateProject(key, _, _) => Auth(w, e, key)
    case CreateRun(key, _, _, _, _, _) => Auth(w, e, key)
    case BeginSnapshot(key, _, _, _, _) => Auth(w, e, key)
    case BeginFork(key, _, _, _) => Auth(w, e, key)
    case Destroy(key, _) => Auth(w, e, key)
    case Tick(_) => None
    case Restart(_) => None
    case _ => if step.tid in e.threads then Some(e.threads[step.tid].owner) else None
  }

  predicate Enabled(e: Engine, step: Step) {
    && IdsOf(step) !! e.used
    && (step.CreateRun? ==> step.rid != step.iid && step.rid != step.tid && step.iid != step.tid)
    && (step.BeginSnapshot? ==> step.tid != step.sid)
    && match step
       case BootVm(tid) => tid in e.threads && e.threads[tid].Booting?
       case ChunkImage(tid, _) => tid in e.threads && e.threads[tid].Snapshotting? && e.threads[tid].raw.None?
       case CommitSnapshot(tid, _, _) => tid in e.threads && e.threads[tid].Snapshotting? && e.threads[tid].raw.Some?
       case ForkChild(tid, _, _, _) => tid in e.threads && e.threads[tid].Forking? && e.threads[tid].left > 0
       case CommitFork(tid) => tid in e.threads && e.threads[tid].Forking? && e.threads[tid].left == 0
       case Abort(tid) => tid in e.threads
       case _ => true
  }

  /** Live instances whose row and run are committed: those a tick charges, and to whom. */
  function Charged(e: Engine, p: Id): set<Id> {
    set i | i in e.live && ProjectOfInstance(e, i) == Some(p)
  }

  function Payers(e: Engine): set<Id> {
    set i | i in e.live && ProjectOfInstance(e, i).Some? :: ProjectOfInstance(e, i).value
  }

  function UsageOr0(usage: map<Id, Usage>, p: Id): Usage {
    if p in usage then usage[p] else Usage(0.0, 0.0)
  }

  function Gib(w: World): real {
    w.memMib as real / 1024.0
  }

  function Scaled(g: real, x: real): real {
    g * x
  }

  /** `x` added up once per instance. */
  function Times(vms: nat, x: real): real {
    if vms == 0 then 0.0 else Times(vms - 1, x) + x
  }

  /** One vCPU and the image's memory per instance and second. */
  function Accrued(w: World, u: Usage, vms: nat, dt: real): Usage {
    Usage(u.vcpu + Times(vms, dt), u.ram + Times(vms, Scaled(Gib(w), dt)))
  }

  function Metered(w: World, e: Engine, dt: real): map<Id, Usage> {
    map p | p in e.usage.Keys + Payers(e) :: Accrued(w, UsageOr0(e.usage, p), |Charged(e, p)|, dt)
  }

  function StoreImage(w: World, e: Engine, image: Bytes): State
    requires Usable(w.c.mode)
  {
    Flush(w.c, PutBlocks(w.c, e.store, ImageBlocks(w.c, image)), FAULTLESS).0
  }

  function DoCreateProject(w: World, e: Engine, key: ApiKey, pid: Id, newKey: ApiKey): Engine {
    if Auth(w, e, key).None? then e else
      e.(projects := e.projects + [(pid, w.keyHash(newKey))], used := e.used + {pid})
  }

  /** `create_run` commits the rows and then boots. */
  function DoCreateRun(w: World, e: Engine, key: ApiKey, rid: Id, iid: Id, tid: Id, tag: string, now: int): Engine {
    match Auth(w, e, key)
    case None => e
    case Some(pid) =>
      e.(runs := e.runs[rid := Run(pid, tag, now)],
         instances := e.instances[iid := Instance(rid, None, Running, "genesis", now)],
         threads := e.threads[tid := Booting(pid, iid)],
         used := e.used + {rid, iid, tid})
  }

  function DoBootVm(e: Engine, tid: Id): Engine
    requires tid in e.threads && e.threads[tid].Booting?
  {
    e.(live := e.live + {e.threads[tid].iid}, threads := e.threads - {tid})
  }

  /** `snapshot_instance` up to the commit: authorize, find the VM, read run and parent. */
  function DoBeginSnapshot(w: World, e: Engine, key: ApiKey, iid: Id, tid: Id, sid: Id, tag: string): Engine {
    match Auth(w, e, key)
    case None => e
    case Some(pid) =>
      if ProjectOfInstance(e, iid) != Some(pid) || iid !in e.live then e else
        var row := e.instances[iid];
        e.(threads := e.threads[tid := Snapshotting(pid, row.run, row.snapshot, iid, sid, tag, None)],
           used := e.used + {tid, sid})
  }

  /** `_chunk_mem`, under the store lock. */
  function DoChunkImage(w: World, e: Engine, tid: Id, image: Bytes): Engine
    requires Usable(w.c.mode) && tid in e.threads && e.threads[tid].Snapshotting?
  {
    var t := e.threads[tid];
    e.(store := StoreImage(w, e, image),
       manifests := e.manifests[t.sid := Manifest(w.c, ImageBlocks(w.c, image))],
       threads := e.threads[tid := t.(raw := Some(image))])
  }

  /** The size charged is logical: the whole image, however little of it was new to the store. */
  function DoCommitSnapshot(e: Engine, tid: Id, vmstate: nat, now: int): Engine
    requires tid in e.threads && e.threads[tid].Snapshotting? && e.threads[tid].raw.Some?
  {
    var t := e.threads[tid];
    e.(snapshots := e.snapshots[t.sid := Snapshot(t.run, t.parent, t.tag, |t.raw.value| + vmstate, now)],
       instances := if t.iid in e.instances
                    then e.instances[t.iid := e.instances[t.iid].(snapshot := Some(t.sid))] else e.instances,
       images := e.images[t.sid := t.raw.value],
       order := e.order + [t.sid],
       threads := e.threads - {tid})
  }

  /** `fork_snapshot` up to the loop: authorize, find the row, rebuild the image from chunks. */
  function DoBeginFork(w: World, e: Engine, key: ApiKey, sid: Id, tid: Id, n: int): Engine {
    match Auth(w, e, key)
    case None => e
    case Some(pid) =>
      if ProjectOfSnapshot(e, sid) != Some(pid) || sid !in e.manifests then e else
        var (store, r) := ReadAll(w.c, e.store, e.manifests[sid]);
        var e := e.(store := store, used := e.used + {tid});
        match r
        case Err(_) => e
        case Ok(image) =>
          e.(threads := e.threads[tid := Forking(pid, sid, e.snapshots[sid].run, image, if n < 0 then 0 else n, map[])])
  }

  /** One turn of the loop: boot the child; its row is not committed yet. */
  function DoForkChild(e: Engine, tid: Id, iid: Id, branch: string, now: int): Engine
    requires tid in e.threads && e.threads[tid].Forking? && e.threads[tid].left > 0
  {
    var t := e.threads[tid];
    e.(live := e.live + {iid},
       threads := e.threads[tid := t.(left := t.left - 1,
         children := t.children[iid := Instance(t.run, Some(t.sid), Running, branch, now)])],
       used := e.used + {iid})
  }

  function DoCommitFork(e: Engine, tid: Id): Engine
    requires tid in e.threads && e.threads[tid].Forking?
  {
    e.(instances := e.instances + e.threads[tid].children, threads := e.threads - {tid})
  }

  function DoAbort(e: Engine, tid: Id): Engine {
    e.(threads := e.threads - {tid})
  }

  function DoDestroy(w: World, e: Engine, key: ApiKey, iid: Id): Engine {
    match Auth(w, e, key)
    case None => e
    case Some(pid) =>
      if ProjectOfInstance(e, iid) != Some(pid) then e else
        e.(live := e.live - {iid}, instances := e.instances[iid := e.instances[iid].(status := Destroyed)])
  }

  function DoTick(w: World, e: Engine, dt: real): Engine {
    e.(usage := Metered(w, e, dt))
  }

  /** VMs, requests, `index` and the upload queue die with the daemon.  The chunk directory is
      only a cache, and may go with it, when there is a tier behind it. */
  function DoRestart(w: World, e: Engine, wiped: bool): Engine {
    e.(live := {}, threads := map[],
       store := Restarted(if wiped && w.c.s3 then map[] else e.store.hot, e.store.cold))
  }

  function Apply(w: World, e: Engine, step: Step): Engine
    requires Usable(w.c.mode) && Enabled(e, step)
  {
    match step
    case CreateProject(key, pid, newKey) => DoCreateProject(w, e, key, pid, newKey)
    case CreateRun(key, rid, iid, tid, tag, now) => DoCreateRun(w, e, key, rid, iid, tid, tag, now)
    case BootVm(tid) => DoBootVm(e, tid)
    case BeginSnapshot(key, iid, tid, sid, tag) => DoBeginSnapshot(w, e, key, iid, tid, sid, tag)
    case ChunkImage(tid, image) => DoChunkImage(w, e, tid, image)
    case CommitSnapshot(tid, vmstate, now) => DoCommitSnapshot(e, tid, vmstate, now)
    case BeginFork(key, sid, tid, n) => DoBeginFork(w, e, key, sid, tid, n)
    case ForkChild(tid, iid, branch, now) => DoForkChild(e, tid, iid, branch, now)
    case CommitFork(tid) => DoCommitFork(e, tid)
    case Abort(tid) => DoAbort(e, tid)
    case Destroy(key, iid) => DoDestroy(w, e, key, iid)
    case Tick(dt) => DoTick(w, e, dt)
    case Restart(wiped) => DoRestart(w, e, wiped)
  }

  ghost predicate ValidRun(w: World, e: Engine, run: seq<Step>)
    requires Usable(w.c.mode)
    decreases |run|
  {
    run == [] || (Enabled(e, run[0]) && ValidRun(w, Apply(w, e, run[0]), run[1..]))
  }

  ghost function After(w: World, e: Engine, run: seq<Step>): Engine
    requires Usable(w.c.mode) && ValidRun(w, e, run)
    decreases |run|
  {
    if run == [] then e else After(w, Apply(w, e, run[0]), run[1..])
  }

  /** `init_db` on an empty home: one project and nothing else. */
  function Initial(root: Id, rootHash: KeyHash): Engine {
    Engine([(root, rootHash)], map[], map[], map[], map[], {}, map[],
           Restarted(map[], map[]), map[], {root}, [], map[])
  }

  // ---------------------------------------------------------------- what every step keeps

  /** `sid` names a committed snapshot of run `rid`. */
  ghost predicate SnapshotOf(e: Engine, sid: Id, rid: Id) {
    sid in e.snapshots && e.snapshots[sid].run == rid
  }

  ghost predicate LineageOk(e: Engine, snapshot: Option<Id>, rid: Id) {
    snapshot.Some? ==> SnapshotOf(e, snapshot.value, rid)
  }

  ghost predicate ThreadOk(e: Engine, t: Thread) {
    match t
    case Booting(owner, iid) => ProjectOfInstance(e, iid) == Some(owner)
    case Snapshotting(owner, run, parent, iid, sid, _, _) =>
      && ProjectOfRun(e, run) == Some(owner) && LineageOk(e, parent, run)
      && iid in e.instances && e.instances[iid].run == run
      && sid in e.used && sid !in e.snapshots
    case Forking(owner, sid, run, _, _, children) =>
      && ProjectOfRun(e, run) == Some(owner) && SnapshotOf(e, sid, run)
      && children.Keys <= e.live && children.Keys <= e.used && children.Keys !! e.instances.Keys
      && (forall i :: i in children ==> children[i].run == run && children[i].snapshot == Some(sid))
  }

  /** Two threads never work on the same new row. */
  ghost predicate ThreadsApart(t: Thread, u: Thread) {
    && (t.Snapshotting? && u.Snapshotting? ==> t.sid != u.sid)
    && (t.Forking? && u.Forking? ==> t.children.Keys !! u.children.Keys)
  }

  ghost predicate RowsOk(e: Engine) {
    && e.runs.Keys <= e.used && e.snapshots.Keys <= e.used && e.instances.Keys <= e.used && e.threads.Keys <= e.used
    && e.live <= e.used
    && (forall k :: 0 <= k < |e.projects| ==> e.projects[k].0 in e.used)
    && (forall s :: s in e.snapshots ==>
          e.snapshots[s].run in e.runs && LineageOk(e, e.snapshots[s].parent, e.snapshots[s].run))
    && (forall i :: i in e.instances ==>
          e.instances[i].run in e.runs && LineageOk(e, e.instances[i].snapshot, e.instances[i].run))
  }

  ghost predicate ThreadsOk(e: Engine) {
    && (forall t :: t in e.threads ==> ThreadOk(e, e.threads[t]))
    && (forall t, u :: t in e.threads && u in e.threads && t != u ==> ThreadsApart(e.threads[t], e.threads[u]))
  }

  /** `order` lists the snapshots once each, every parent before its children. */
  ghost predicate OrderOk(e: Engine) {
    && (forall s :: s in e.snapshots <==> s in e.order)
    && (forall i, j :: 0 <= i < j < |e.order| ==> e.order[i] != e.order[j])
    && (forall k :: 0 <= k < |e.order| && e.order[k] in e.snapshots && e.snapshots[e.order[k]].parent.Some?
          ==> e.snapshots[e.order[k]].parent.value in e.order[..k])
  }

  ghost predicate ManifestOk(w: World, e: Engine, sid: Id, image: Bytes)
    requires Usable(w.c.mode)
  {
    && sid in e.manifests && e.manifests[sid] == Manifest(w.c, ImageBlocks(w.c, image))
    && AllDurable(w.c, e.store, e.manifests[sid])
  }

  /** The shared chunk store: everything indexed is durable, every stored image is complete. */
  ghost predicate ImagesOk(w: World, e: Engine)
    requires Usable(w.c.mode)
  {
    && GoodStore(w.c, e.store) && e.store.pending == [] && Covered(w.c, e.store, [])
    && e.images.Keys == e.snapshots.Keys
    && (forall s :: s in e.images ==> ManifestOk(w, e, s, e.images[s]))
    && (forall t :: t in e.threads && e.threads[t].Snapshotting? && e.threads[t].raw.Some?
          ==> ManifestOk(w, e, e.threads[t].sid, e.threads[t].raw.value))
  }

  ghost predicate Inv(w: World, e: Engine)
    requires Usable(w.c.mode)
  {
    RowsOk(e) && ThreadsOk(e) && OrderOk(e) && ImagesOk(w, e)
  }
}
