/**
 Tenant non-interference: what a project sees does not depend on the other projects, although
 all share one daemon and one chunk store (spikes/engine/kladosd.py:101-141, 276-453, 483-532).
 */
module NonInterference {
  import opened Wrappers
  import opened Chunking
  import opened Engine
  import opened EngineLaws
  import opened Tenant
  import opened TenantLaws

  /** Steps that concern project `q`: its own requests, and what the daemon does to all. */
  predicate Concerns(w: World, e: Engine, step: Step, q: Id) {
    ActsFor(w, e, step) == Some(q) || step.Tick? || step.Restart?
  }

  /** The trace with all other projects' requests removed. */
  ghost function Kept(w: World, e: Engine, run: seq<Step>, q: Id): seq<Step>
    requires Usable(w.c.mode) && ValidRun(w, e, run)
    decreases |run|
  {
    if run == [] then [] else
      var rest := Kept(w, Apply(w, e, run[0]), run[1..], q);
      if Concerns(w, e, run[0], q) then [run[0]] + rest else rest
  }

  // ---------------------------------------------------------------- one step

  /** The step of a request under way, as opposed to one that presents a key. */
  predicate Continues(step: Step) {
    step.BootVm? || step.ChunkImage? || step.CommitSnapshot? || step.ForkChild? || step.CommitFork? || step.Abort?
  }

  lemma OwnRequestIsEnabled(w: World, e: Engine, step: Step, q: Id)
    requires Enabled(e, step) && ActsFor(w, e, step) == Some(q)
    ensures ViewEnabled(ViewOf(e, q), step)
  {
    if Continues(step) {
      assert step.tid in ThreadsOf(e.threads, q);
    }
  }

  /** What a step for project `p` does to the view of `q`. */
  ghost predicate SeenBy(w: World, e: Engine, e': Engine, step: Step, p: Id, q: Id)
    requires p == q ==> ViewEnabled(ViewOf(e, q), step)
  {
    && e.used <= e'.used
    && ViewOf(e', q) == (if p == q then ViewStep(w, q, ViewOf(e, q), step) else ViewOf(e, q))
    && (p == q ==> e'.used == e.used + Issued(ViewOf(e, q), step))
  }

  lemma BeginOnView(w: World, e: Engine, step: Step, p: Id, q: Id)
    requires Usual(w) && Inv(w, e) && Enabled(e, step) && ActsFor(w, e, step) == Some(p)
    requires step.BeginSnapshot? || step.BeginFork?
    ensures SeenBy(w, e, Apply(w, e, step), step, p, q)
  {
    match step
    case BeginSnapshot(key, iid, tid, sid, tag) => BeginSnapshotOnView(w, e, key, iid, tid, sid, tag, p, q);
    case BeginFork(key, sid, tid, n) =>
      BeginForkLoads(w, e, key, sid, tid, n);
      BeginForkOnView(w, e, key, sid, tid, n, p, q);
  }

  lemma KeyOnView(w: World, e: Engine, step: Step, p: Id, q: Id)
    requires Usable(w.c.mode) && RowsOk(e) && Enabled(e, step) && ActsFor(w, e, step) == Some(p)
    requires step.CreateProject? || step.CreateRun? || step.Destroy?
    ensures SeenBy(w, e, Apply(w, e, step), step, p, q)
  {
    match step
    case CreateProject(key, pid, newKey) =>
    case CreateRun(key, rid, iid, tid, tag, now) => CreateRunOnView(w, e, key, rid, iid, tid, tag, now, p, q);
    case Destroy(key, iid) => DestroyOnView(w, e, key, iid, p, q);
  }

  lemma RunThreadOnView(w: World, e: Engine, step: Step, q: Id)
    requires Usable(w.c.mode) && Enabled(e, step)
    requires step.BootVm? || step.Abort? || step.ForkChild? || step.CommitFork?
    requires RowsOk(e) && ThreadOk(e, e.threads[step.tid])
    requires e.threads[step.tid].owner == q ==> ViewEnabled(ViewOf(e, q), step)
    ensures SeenBy(w, e, Apply(w, e, step), step, e.threads[step.tid].owner, q)
  {
    match step
    case BootVm(tid) => BootVmOnView(e, tid, q);
    case ForkChild(tid, iid, branch, now) => ForkChildOnView(e, tid, iid, branch, now, q);
    case CommitFork(tid) => CommitForkOnView(e, tid, q);
    case Abort(tid) => ThreadsDrop(e.threads, tid, q);
  }

  lemma SnapshotThreadOnView(w: World, e: Engine, step: Step, q: Id)
    requires Usable(w.c.mode) && Enabled(e, step) && (step.ChunkImage? || step.CommitSnapshot?)
    requires ThreadOk(e, e.threads[step.tid]) && e.images.Keys == e.snapshots.Keys
    requires e.threads[step.tid].owner == q ==> ViewEnabled(ViewOf(e, q), step)
    ensures SeenBy(w, e, Apply(w, e, step), step, e.threads[step.tid].owner, q)
  {
    match step
    case ChunkImage(tid, image) => ChunkImageOnView(w, e, tid, image, q);
    case CommitSnapshot(tid, vmstate, now) => CommitSnapshotOnView(e, tid, vmstate, now, q);
  }

  /** A request's step, seen by its own project and by any other. */
  lemma RequestOnView(w: World, e: Engine, step: Step, p: Id, q: Id)
    requires Usual(w) && Inv(w, e) && Enabled(e, step) && ActsFor(w, e, step) == Some(p)
    ensures p == q ==> ViewEnabled(ViewOf(e, q), step)
    ensures SeenBy(w, e, Apply(w, e, step), step, p, q)
  {
    if p == q {
      OwnRequestIsEnabled(w, e, step, q);
    }
    if step.BeginSnapshot? || step.BeginFork? {
      BeginOnView(w, e, step, p, q);
    } else if !Continues(step) {
      KeyOnView(w, e, step, p, q);
    } else {
      assert ThreadOk(e, e.threads[step.tid]);
      if step.ChunkImage? || step.CommitSnapshot? {
        SnapshotThreadOnView(w, e, step, q);
      } else {
        RunThreadOnView(w, e, step, q);
      }
    }
  }

  lemma DaemonStepOnView(w: World, e: Engine, step: Step, q: Id)
    requires Usable(w.c.mode) && Enabled(e, step) && (step.Tick? || step.Restart?)
    ensures ViewEnabled(ViewOf(e, q), step)
    ensures ViewOf(Apply(w, e, step), q) == ViewStep(w, q, ViewOf(e, q), step)
    ensures Apply(w, e, step).used == e.used + Issued(ViewOf(e, q), step)
  {
    var v := ViewOf(e, q);
    assert Issued(v, step) == {};
    if step.Tick? {
      TickOnView(w, e, step.dt, q);
      assert Apply(w, e, step) == DoTick(w, e, step.dt) && ViewStep(w, q, v, step) == ViewTick(w, v, step.dt);
    } else {
      RestartOnView(w, e, step.wiped, q);
      assert Apply(w, e, step) == DoRestart(w, e, step.wiped);
    }
  }

  /** A step that concerns a project does to its view what it would do on a daemon of its own. */
  lemma StepOnView(w: World, e: Engine, step: Step, q: Id)
    requires Usual(w) && Inv(w, e) && Enabled(e, step)
    ensures
      var e', v := Apply(w, e, step), ViewOf(e, q);
      if Concerns(w, e, step, q) then
        && ViewEnabled(v, step) && ViewOf(e', q) == ViewStep(w, q, v, step) && e'.used == e.used + Issued(v, step)
      else
        ViewOf(e', q) == v && e.used <= e'.used
  {
    if step.Tick? || step.Restart? {
      DaemonStepOnView(w, e, step, q);
    } else if ActsFor(w, e, step).Some? {
      RequestOnView(w, e, step, ActsFor(w, e, step).value, q);
    } else {
      StrangersChangeNothing(w, e, step);
    }
  }

  lemma StrangersChangeNothing(w: World, e: Engine, step: Step)
    requires Usable(w.c.mode) && Enabled(e, step) && ActsFor(w, e, step).None? && !step.Tick? && !step.Restart?
    ensures Apply(w, e, step) == e
  {
  }

  // ---------------------------------------------------------------- keys

  /** The same keys open project `q` in both engines. */
  ghost predicate SameKeys(e: Engine, f: Engine, q: Id) {
    forall h :: FirstWithHash(e.projects, h) == Some(q) <==> FirstWithHash(f.projects, h) == Some(q)
  }

  lemma {:induction false} FirstAppend(projects: seq<(Id, KeyHash)>, row: (Id, KeyHash), h: KeyHash)
    ensures FirstWithHash(projects + [row], h)
         == if FirstWithHash(projects, h).Some? then FirstWithHash(projects, h)
            else if row.1 == h then Some(row.0) else None
  {
    if projects != [] {
      assert (projects + [row])[1..] == projects[1..] + [row];
      FirstAppend(projects[1..], row, h);
    } else {
      assert projects + [row] == [row];
    }
  }

  lemma BeginForkKeepsProjects(w: World, e: Engine, key: ApiKey, sid: Id, tid: Id, n: int)
    ensures DoBeginFork(w, e, key, sid, tid, n).projects == e.projects
  {
  }

  lemma StepKeepsProjects(w: World, e: Engine, step: Step)
    requires Usable(w.c.mode) && Enabled(e, step) && !step.CreateProject?
    ensures Apply(w, e, step).projects == e.projects
  {
    if step.BeginFork? {
      BeginForkKeepsProjects(w, e, step.key, step.sid, step.tid, step.n);
    }
  }

  /** Nobody else ever comes to hold one of `q`'s keys, nor loses one. */
  lemma StepKeepsKeys(w: World, e: Engine, step: Step, q: Id)
    requires Usable(w.c.mode) && Enabled(e, step) && q in e.used
    ensures SameKeys(e, Apply(w, e, step), q)
  {
    if step.CreateProject? {
      forall h
        ensures FirstWithHash(e.projects, h) == Some(q) <==> FirstWithHash(Apply(w, e, step).projects, h) == Some(q)
      {
        FirstAppend(e.projects, (step.pid, w.keyHash(step.newKey)), h);
      }
    } else {
      StepKeepsProjects(w, e, step);
    }
  }

  // ---------------------------------------------------------------- whole traces

  /** `full` has served everyone, `own` only project `q`. */
  ghost predicate Alike(w: World, full: Engine, own: Engine, q: Id)
    requires Usable(w.c.mode)
  {
    && Inv(w, full) && Inv(w, own)
    && ViewOf(full, q) == ViewOf(own, q)
    && own.used <= full.used && q in own.used && SameKeys(full, own, q)
  }

  lemma ConcernsBoth(w: World, full: Engine, own: Engine, step: Step, q: Id)
    requires Usable(w.c.mode) && Alike(w, full, own, q) && Enabled(full, step) && Concerns(w, full, step, q)
    ensures Concerns(w, own, step, q) && Enabled(own, step)
  {
    if Continues(step) {
      assert ViewOf(full, q).threads == ViewOf(own, q).threads;
      assert step.tid in ViewOf(full, q).threads;
      assert step.tid in ViewOf(own, q).threads;
    }
  }

  lemma StepKeepsAlike(w: World, full: Engine, own: Engine, step: Step, q: Id)
    requires Usual(w) && Alike(w, full, own, q) && Enabled(full, step)
    ensures if Concerns(w, full, step, q)
            then Enabled(own, step) && Alike(w, Apply(w, full, step), Apply(w, own, step), q)
            else Alike(w, Apply(w, full, step), own, q)
  {
    StepOnView(w, full, step, q);
    StepKeepsInv(w, full, step);
    StepKeepsKeys(w, full, step, q);
    if Concerns(w, full, step, q) {
      ConcernsBoth(w, full, own, step, q);
      StepOnView(w, own, step, q);
      StepKeepsInv(w, own, step);
      StepKeepsKeys(w, own, step, q);
    }
  }

  lemma {:induction false} TracesStayAlike(w: World, full: Engine, own: Engine, run: seq<Step>, q: Id)
    requires Usual(w) && Alike(w, full, own, q) && ValidRun(w, full, run)
    ensures ValidRun(w, own, Kept(w, full, run, q))
    ensures Alike(w, After(w, full, run), After(w, own, Kept(w, full, run, q)), q)
    decreases |run|
  {
    if run != [] {
      var full' := Apply(w, full, run[0]);
      StepKeepsAlike(w, full, own, run[0], q);
      var rest := Kept(w, full', run[1..], q);
      if Concerns(w, full, run[0], q) {
        TracesStayAlike(w, full', Apply(w, own, run[0]), run[1..], q);
        assert ([run[0]] + rest)[1..] == rest;
      } else {
        TracesStayAlike(w, full', own, run[1..], q);
      }
    }
  }

  lemma StoredBytesOfView(e: Engine, q: Id)
    ensures StoredBytes(e, q) == TotalSize(ViewOf(e, q).snapshots)
  {
    assert (map s | s in e.snapshots && ProjectOfSnapshot(e, s) == Some(q) :: e.snapshots[s]) == ViewOf(e, q).snapshots;
  }

  lemma BillOfView(e: Engine, f: Engine, q: Id)
    requires ViewOf(e, q) == ViewOf(f, q)
    ensures BillOf(e, q) == BillOf(f, q)
  {
    StoredBytesOfView(e, q);
    StoredBytesOfView(f, q);
    assert UsageOr0(e.usage, q) == UsageOr0(f.usage, q) by {
      assert ViewOf(e, q).usage == ViewOf(f, q).usage;
    }
  }

  lemma TimelineOfView(e: Engine, q: Id, rid: Id)
    requires ProjectOfRun(e, rid) == Some(q)
    ensures TimelineOf(e, rid)
      == (SnapshotsOf({rid}, ViewOf(e, q).snapshots), InstancesOf({rid}, ViewOf(e, q).instances))
  {
    assert SnapshotsOf({rid}, e.snapshots) == SnapshotsOf({rid}, ViewOf(e, q).snapshots);
    assert InstancesOf({rid}, e.instances) == InstancesOf({rid}, ViewOf(e, q).instances);
  }

  lemma QueriesReadTheView(e: Engine, f: Engine, q: Id)
    requires ViewOf(e, q) == ViewOf(f, q)
    ensures RunList(e, q) == RunList(f, q)
    ensures forall rid :: ProjectOfRun(e, rid) == Some(q) ==> TimelineOf(e, rid) == TimelineOf(f, rid)
    ensures BillOf(e, q) == BillOf(f, q)
  {
    BillOfView(e, f, q);
    forall rid | ProjectOfRun(e, rid) == Some(q) ensures TimelineOf(e, rid) == TimelineOf(f, rid) {
      MineIsOwned(e, q, rid);
      assert ViewOf(e, q).runs == ViewOf(f, q).runs;
      MineIsOwned(f, q, rid);
      TimelineOfView(e, q, rid);
      TimelineOfView(f, q, rid);
    }
  }

  /**
   Remove every request of every other project from any trace: the rest is still a possible
   trace, and the project gets the same run list, the same timelines and the same bill.
   */
  lemma OtherTenantsDoNotInterfere(w: World, e: Engine, run: seq<Step>, q: Id)
    requires Usual(w) && Inv(w, e) && ValidRun(w, e, run) && q in e.used
    ensures ValidRun(w, e, Kept(w, e, run, q))
    ensures
      var full, own := After(w, e, run), After(w, e, Kept(w, e, run, q));
      && RunList(full, q) == RunList(own, q)
      && (forall rid :: ProjectOfRun(full, rid) == Some(q) ==> TimelineOf(full, rid) == TimelineOf(own, rid))
      && BillOf(full, q) == BillOf(own, q)
  {
    TracesStayAlike(w, e, e, run, q);
    QueriesReadTheView(After(w, e, run), After(w, e, Kept(w, e, run, q)), q);
  }

  // ---------------------------------------------------------------- a daemon of one's own

  ghost predicate ViewRun(w: World, q: Id, v: View, run: seq<Step>, v': View)
    decreases |run|
  {
    if run == [] then v' == v else ViewEnabled(v, run[0]) && ViewRun(w, q, ViewStep(w, q, v, run[0]), run[1..], v')
  }

  /** The shared engine, seen by one project, is that project's own engine without chunks. */
  lemma {:induction false} SharedEngineIsEveryonesOwn(w: World, e: Engine, run: seq<Step>, q: Id)
    requires Usual(w) && Inv(w, e) && ValidRun(w, e, run)
    ensures ViewRun(w, q, ViewOf(e, q), Kept(w, e, run, q), ViewOf(After(w, e, run), q))
    decreases |run|
  {
    if run != [] {
      var e' := Apply(w, e, run[0]);
      StepOnView(w, e, run[0], q);
      StepKeepsInv(w, e, run[0]);
      SharedEngineIsEveryonesOwn(w, e', run[1..], q);
      var rest := Kept(w, e', run[1..], q);
      assert ([run[0]] + rest)[1..] == rest;
    }
  }
}
