/** Sharing the daemon and its chunk store changes nothing for a project. */
module TenantLaws {
  import opened Wrappers
  import opened Chunking
  import opened Engine
  import opened EngineLaws
  import opened Tenant

  // ---------------------------------------------------------------- one table at a time

  lemma RunsPut(runs: map<Id, Run>, r: Id, row: Run, q: Id)
    requires r !in runs
    ensures RunsOf(runs[r := row], q) == if row.project == q then RunsOf(runs, q)[r := row] else RunsOf(runs, q)
  {
  }

  lemma SnapshotsPut(mine: set<Id>, snapshots: map<Id, Snapshot>, s: Id, row: Snapshot)
    requires s !in snapshots
    ensures SnapshotsOf(mine, snapshots[s := row])
         == if row.run in mine then SnapshotsOf(mine, snapshots)[s := row] else SnapshotsOf(mine, snapshots)
  {
  }

  lemma SnapshotsOfNewRun(mine: set<Id>, r: Id, snapshots: map<Id, Snapshot>)
    requires forall s :: s in snapshots ==> snapshots[s].run != r
    ensures SnapshotsOf(mine + {r}, snapshots) == SnapshotsOf(mine, snapshots)
  {
  }

  lemma InstancesPut(mine: set<Id>, instances: map<Id, Instance>, i: Id, row: Instance)
    requires i in instances ==> instances[i].run == row.run
    ensures InstancesOf(mine, instances[i := row])
         == if row.run in mine then InstancesOf(mine, instances)[i := row] else InstancesOf(mine, instances)
  {
  }

  lemma InstancesOfNewRun(mine: set<Id>, r: Id, instances: map<Id, Instance>)
    requires forall i :: i in instances ==> instances[i].run != r
    ensures InstancesOf(mine + {r}, instances) == InstancesOf(mine, instances)
  {
  }

  lemma InstancesMerge(mine: set<Id>, instances: map<Id, Instance>, children: map<Id, Instance>, r: Id)
    requires children.Keys !! instances.Keys && forall i :: i in children ==> children[i].run == r
    ensures InstancesOf(mine, instances + children)
         == if r in mine then InstancesOf(mine, instances) + children else InstancesOf(mine, instances)
  {
  }

  lemma ThreadsPut(threads: map<Id, Thread>, t: Id, th: Thread, q: Id)
    requires t in threads ==> threads[t].owner == th.owner
    ensures ThreadsOf(threads[t := th], q)
         == if th.owner == q then ThreadsOf(threads, q)[t := th] else ThreadsOf(threads, q)
  {
  }

  lemma ThreadsDrop(threads: map<Id, Thread>, t: Id, q: Id)
    requires t in threads
    ensures ThreadsOf(threads - {t}, q)
         == if threads[t].owner == q then ThreadsOf(threads, q) - {t} else ThreadsOf(threads, q)
  {
  }

  lemma ImagesPut(ids: set<Id>, images: map<Id, Bytes>, s: Id, image: Bytes)
    requires s !in images
    ensures ImagesOf(ids, images[s := image])
         == if s in ids then ImagesOf(ids, images)[s := image] else ImagesOf(ids, images)
    ensures ImagesOf(ids + {s}, images) == ImagesOf(ids, images)
  {
  }

  lemma MineIsOwned(e: Engine, q: Id, r: Id)
    ensures r in RunsOf(e.runs, q) <==> ProjectOfRun(e, r) == Some(q)
  {
  }

  // ---------------------------------------------------------------- one step, seen by q

  lemma CreateOwnRunOnView(w: World, e: Engine, key: ApiKey, rid: Id, iid: Id, tid: Id, tag: string, now: int, q: Id)
    requires RowsOk(e) && Auth(w, e, key) == Some(q)
    requires rid !in e.used && iid !in e.used && tid !in e.used
    ensures
      var v := ViewOf(e, q);
      ViewOf(DoCreateRun(w, e, key, rid, iid, tid, tag, now), q) ==
        v.(runs := v.runs[rid := Run(q, tag, now)],
           instances := v.instances[iid := Instance(rid, None, Running, "genesis", now)],
           threads := v.threads[tid := Booting(q, iid)])
  {
    var mine := RunsOf(e.runs, q).Keys;
    RunsPut(e.runs, rid, Run(q, tag, now), q);
    ThreadsPut(e.threads, tid, Booting(q, iid), q);
    SnapshotsOfNewRun(mine, rid, e.snapshots);
    InstancesPut(mine + {rid}, e.instances, iid, Instance(rid, None, Running, "genesis", now));
    InstancesOfNewRun(mine, rid, e.instances);
    assert RunsOf(e.runs[rid := Run(q, tag, now)], q).Keys == mine + {rid};
  }

  lemma CreateOthersRunOnView(w: World, e: Engine, key: ApiKey, rid: Id, iid: Id, tid: Id, tag: string, now: int,
                              p: Id, q: Id)
    requires RowsOk(e) && Auth(w, e, key) == Some(p) && p != q
    requires rid !in e.used && iid !in e.used && tid !in e.used
    ensures ViewOf(DoCreateRun(w, e, key, rid, iid, tid, tag, now), q) == ViewOf(e, q)
  {
    RunsPut(e.runs, rid, Run(p, tag, now), q);
    ThreadsPut(e.threads, tid, Booting(p, iid), q);
    InstancesPut(RunsOf(e.runs, q).Keys, e.instances, iid, Instance(rid, None, Running, "genesis", now));
  }

  lemma CreateRunOnView(w: World, e: Engine, key: ApiKey, rid: Id, iid: Id, tid: Id, tag: string, now: int, p: Id,
                        q: Id)
    requires RowsOk(e) && Auth(w, e, key) == Some(p)
    requires rid !in e.used && iid !in e.used && tid !in e.used
    ensures
      var v := ViewOf(e, q);
      ViewOf(DoCreateRun(w, e, key, rid, iid, tid, tag, now), q) ==
        if p != q then v else
          v.(runs := v.runs[rid := Run(q, tag, now)],
             instances := v.instances[iid := Instance(rid, None, Running, "genesis", now)],
             threads := v.threads[tid := Booting(q, iid)])
  {
    if p == q {
      CreateOwnRunOnView(w, e, key, rid, iid, tid, tag, now, q);
    } else {
      CreateOthersRunOnView(w, e, key, rid, iid, tid, tag, now, p, q);
    }
  }

  lemma BootVmOnView(e: Engine, tid: Id, q: Id)
    requires tid in e.threads && e.threads[tid].Booting? && ThreadOk(e, e.threads[tid])
    ensures
      var v := ViewOf(e, q);
      ViewOf(DoBootVm(e, tid), q) ==
        if e.threads[tid].owner != q then v else
          v.(live := v.live + {e.threads[tid].iid}, threads := v.threads - {tid})
  {
    ThreadsDrop(e.threads, tid, q);
  }

  lemma BeginSnapshotOnView(w: World, e: Engine, key: ApiKey, iid: Id, tid: Id, sid: Id, tag: string, p: Id, q: Id)
    requires RowsOk(e) && Auth(w, e, key) == Some(p) && tid !in e.used
    ensures
      var e', v := DoBeginSnapshot(w, e, key, iid, tid, sid, tag), ViewOf(e, q);
      && ViewOf(e', q) == (if p != q then v else ViewBeginSnapshot(q, v, iid, tid, sid, tag))
      && (p == q ==> e'.used == e.used + Issued(v, BeginSnapshot(key, iid, tid, sid, tag)))
  {
    if ProjectOfInstance(e, iid) == Some(p) && iid in e.live {
      var row := e.instances[iid];
      ThreadsPut(e.threads, tid, Snapshotting(p, row.run, row.snapshot, iid, sid, tag, None), q);
    }
  }

  lemma ChunkImageOnView(w: World, e: Engine, tid: Id, image: Bytes, q: Id)
    requires Usable(w.c.mode) && tid in e.threads && e.threads[tid].Snapshotting?
    ensures
      var v := ViewOf(e, q);
      ViewOf(DoChunkImage(w, e, tid, image), q) ==
        if e.threads[tid].owner != q then v else
          v.(threads := v.threads[tid := v.threads[tid].(raw := Some(image))])
  {
    ThreadsPut(e.threads, tid, e.threads[tid].(raw := Some(image)), q);
  }

  /** The snapshot tables after a commit. */
  lemma CommitSnapshotTables(e: Engine, t: Thread, row: Snapshot, image: Bytes, q: Id)
    requires e.images.Keys == e.snapshots.Keys && t.Snapshotting? && t.sid !in e.snapshots && row.run == t.run
    ensures
      var mine := RunsOf(e.runs, q).Keys;
      var before, after := SnapshotsOf(mine, e.snapshots), SnapshotsOf(mine, e.snapshots[t.sid := row]);
      var images, images' := ImagesOf(before.Keys, e.images), ImagesOf(after.Keys, e.images[t.sid := image]);
      if t.run in mine then after == before[t.sid := row] && images' == images[t.sid := image]
      else after == before && images' == images
  {
    var mine := RunsOf(e.runs, q).Keys;
    var before := SnapshotsOf(mine, e.snapshots);
    SnapshotsPut(mine, e.snapshots, t.sid, row);
    ImagesPut(before.Keys, e.images, t.sid, image);
    if t.run in mine {
      assert before[t.sid := row].Keys == before.Keys + {t.sid};
      ImagesPut(before.Keys + {t.sid}, e.images, t.sid, image);
    }
  }

  /** The columns of a view, one query each. */
  lemma ColumnsOf(e: Engine, q: Id)
    ensures
      var v := ViewOf(e, q);
      && v.runs == RunsOf(e.runs, q) && v.usage == (if q in e.usage then Some(e.usage[q]) else None)
      && v.snapshots == SnapshotsOf(v.runs.Keys, e.snapshots) && v.instances == InstancesOf(v.runs.Keys, e.instances)
      && v.live == e.live * v.instances.Keys && v.threads == ThreadsOf(e.threads, q)
      && v.images == ImagesOf(v.snapshots.Keys, e.images)
  {
  }

  lemma CommitSnapshotColumns(e: Engine, tid: Id, row: Snapshot, image: Bytes, e': Engine, q: Id)
    requires e.images.Keys == e.snapshots.Keys
    requires tid in e.threads && e.threads[tid].Snapshotting? && e.threads[tid].sid !in e.snapshots
    requires e.threads[tid].owner == q <==> e.threads[tid].run in RunsOf(e.runs, q)
    requires row.run == e.threads[tid].run
    requires e'.runs == e.runs && e'.usage == e.usage && e'.threads == e.threads - {tid}
    requires e'.snapshots == e.snapshots[e.threads[tid].sid := row]
    requires e'.images == e.images[e.threads[tid].sid := image]
    ensures
      var t, v, v' := e.threads[tid], ViewOf(e, q), ViewOf(e', q);
      && v'.runs == v.runs && v'.usage == v.usage
      && v'.snapshots == (if t.owner == q then v.snapshots[t.sid := row] else v.snapshots)
      && v'.threads == (if t.owner == q then v.threads - {tid} else v.threads)
      && v'.images == (if t.owner == q then v.images[t.sid := image] else v.images)
  {
    CommitSnapshotTables(e, e.threads[tid], row, image, q);
    ThreadsDrop(e.threads, tid, q);
    ColumnsOf(e, q);
    ColumnsOf(e', q);
  }

  /** The instance that was snapshotted keeps its run, and stays or is not among those that run. */
  lemma MovedInstance(mine: set<Id>, instances: map<Id, Instance>, live: set<Id>, i: Id, sid: Id)
    requires i in instances
    ensures
      var moved := instances[i].(snapshot := Some(sid));
      var before, after := InstancesOf(mine, instances), InstancesOf(mine, instances[i := moved]);
      && after == (if instances[i].run in mine then before[i := moved] else before)
      && live * after.Keys == live * before.Keys
  {
    InstancesPut(mine, instances, i, instances[i].(snapshot := Some(sid)));
    assert instances[i].run in mine ==> i in InstancesOf(mine, instances);
  }

  lemma CommitSnapshotOnView(e: Engine, tid: Id, vmstate: nat, now: int, q: Id)
    requires e.images.Keys == e.snapshots.Keys
    requires tid in e.threads && e.threads[tid].Snapshotting? && e.threads[tid].raw.Some? && ThreadOk(e, e.threads[tid])
    ensures
      var v := ViewOf(e, q);
      ViewOf(DoCommitSnapshot(e, tid, vmstate, now), q) ==
        if e.threads[tid].owner != q then v else ViewCommitSnapshot(v, tid, vmstate, now)
  {
    var t := e.threads[tid];
    MineIsOwned(e, q, t.run);
    CommitSnapshotColumns(e, tid, Snapshot(t.run, t.parent, t.tag, |t.raw.value| + vmstate, now), t.raw.value,
      DoCommitSnapshot(e, tid, vmstate, now), q);
    MovedInstance(RunsOf(e.runs, q).Keys, e.instances, e.live, t.iid, t.sid);
  }

  lemma BeginForkOnView(w: World, e: Engine, key: ApiKey, sid: Id, tid: Id, n: int, p: Id, q: Id)
    requires Usual(w) && Inv(w, e) && Auth(w, e, key) == Some(p) && tid !in e.used
    ensures
      var e', v := DoBeginFork(w, e, key, sid, tid, n), ViewOf(e, q);
      && ViewOf(e', q) == (if p != q then v else ViewBeginFork(q, v, sid, tid, n))
      && (p == q ==> e'.used == e.used + Issued(v, BeginFork(key, sid, tid, n)))
  {
    BeginForkLoads(w, e, key, sid, tid, n);
    LoadedOnView(e, DoBeginFork(w, e, key, sid, tid, n), key, sid, tid, n, p, q);
  }

  lemma LoadedOnView(e: Engine, e': Engine, key: ApiKey, sid: Id, tid: Id, n: int, p: Id, q: Id)
    requires tid !in e.threads && e.images.Keys == e.snapshots.Keys
    requires if ProjectOfSnapshot(e, sid) != Some(p) then e' == e else
               && sid in e.images && sid in e.snapshots
               && e' == e.(store := e'.store, used := e.used + {tid}, threads := e.threads[tid :=
                    Forking(p, sid, e.snapshots[sid].run, e.images[sid], if n < 0 then 0 else n, map[])])
    ensures
      var v := ViewOf(e, q);
      && ViewOf(e', q) == (if p != q then v else ViewBeginFork(q, v, sid, tid, n))
      && (p == q ==> e'.used == e.used + Issued(v, BeginFork(key, sid, tid, n)))
  {
    if sid in e.snapshots {
      MineIsOwned(e, q, e.snapshots[sid].run);
      if ProjectOfSnapshot(e, sid) == Some(p) {
        ThreadsPut(e.threads, tid, e'.threads[tid], q);
      }
    }
  }

  lemma ForkChildOnView(e: Engine, tid: Id, iid: Id, branch: string, now: int, q: Id)
    requires RowsOk(e) && iid !in e.used
    requires tid in e.threads && e.threads[tid].Forking? && e.threads[tid].left > 0
    ensures
      var v := ViewOf(e, q);
      ViewOf(DoForkChild(e, tid, iid, branch, now), q) ==
        if e.threads[tid].owner != q then v else ViewForkChild(v, tid, iid, branch, now)
  {
    ThreadsPut(e.threads, tid, DoForkChild(e, tid, iid, branch, now).threads[tid], q);
    assert iid !in e.instances;
  }

  lemma CommitForkOnView(e: Engine, tid: Id, q: Id)
    requires tid in e.threads && e.threads[tid].Forking? && ThreadOk(e, e.threads[tid])
    ensures
      var v := ViewOf(e, q);
      ViewOf(DoCommitFork(e, tid), q) == if e.threads[tid].owner != q then v else ViewCommitFork(v, tid)
  {
    var t := e.threads[tid];
    MineIsOwned(e, q, t.run);
    ThreadsDrop(e.threads, tid, q);
    InstancesMerge(RunsOf(e.runs, q).Keys, e.instances, t.children, t.run);
  }

  lemma DestroyOnView(w: World, e: Engine, key: ApiKey, iid: Id, p: Id, q: Id)
    requires Auth(w, e, key) == Some(p)
    ensures
      var v := ViewOf(e, q);
      ViewOf(DoDestroy(w, e, key, iid), q) == if p != q then v else ViewDestroy(v, iid)
  {
    if ProjectOfInstance(e, iid) == Some(p) {
      MineIsOwned(e, q, e.instances[iid].run);
      InstancesPut(RunsOf(e.runs, q).Keys, e.instances, iid, e.instances[iid].(status := Destroyed));
    }
  }

  lemma ChargedAreOwn(e: Engine, q: Id)
    ensures Charged(e, q) == ViewOf(e, q).live
    ensures q in Payers(e) <==> ViewOf(e, q).live != {}
  {
    forall i ensures i in Charged(e, q) <==> i in ViewOf(e, q).live {
      if i in e.instances {
        MineIsOwned(e, q, e.instances[i].run);
      }
    }
    if i :| i in Charged(e, q) {
      assert ProjectOfInstance(e, i).value in Payers(e);
    }
    if q in Payers(e) {
      var i :| i in e.live && ProjectOfInstance(e, i).Some? && ProjectOfInstance(e, i).value == q;
      assert i in Charged(e, q);
    }
  }

  lemma RestartOnView(w: World, e: Engine, wiped: bool, q: Id)
    ensures ViewOf(DoRestart(w, e, wiped), q) == ViewOf(e, q).(live := {}, threads := map[])
  {
  }

  lemma TickOnView(w: World, e: Engine, dt: real, q: Id)
    ensures ViewOf(DoTick(w, e, dt), q) == ViewTick(w, ViewOf(e, q), dt)
  {
    ChargedAreOwn(e, q);
    var m, v := Metered(w, e, dt), ViewOf(e, q);
    assert q in m <==> q in e.usage || q in Payers(e);
    assert q in m ==> m[q] == Accrued(w, UsageOr0(e.usage, q), |v.live|, dt);
    assert ViewOf(DoTick(w, e, dt), q) == v.(usage := if q in m then Some(m[q]) else None);
  }
}
