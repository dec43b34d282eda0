/**
 What a project's run list, bill and timelines say after any run: the runs made with its keys, the
 seconds its instances ran and the sizes of its committed snapshots
 (spikes/engine/kladosd.py:374-377, 413-424, 438-453).
 */
module Bills {
  import opened Wrappers
  import opened Chunking
  import opened Engine
  import opened EngineLaws
  import opened Metering
  import opened Tenant

  // ---------------------------------------------------------------- sums over a table

  lemma {:induction false} TotalSizePick(snapshots: map<Id, Snapshot>, s: Id)
    requires s in snapshots
    ensures TotalSize(snapshots) == snapshots[s].size + TotalSize(snapshots - {s})
    decreases |snapshots|
  {
    var t :| t in snapshots && TotalSize(snapshots) == snapshots[t].size + TotalSize(snapshots - {t});
    if t != s {
      TotalSizePick(snapshots - {t}, s);
      TotalSizePick(snapshots - {s}, t);
      assert snapshots - {t} - {s} == snapshots - {s} - {t};
    }
  }

  ghost function Own(e: Engine, q: Id): map<Id, Snapshot> {
    map s | s in e.snapshots && ProjectOfSnapshot(e, s) == Some(q) :: e.snapshots[s]
  }

  // ---------------------------------------------------------------- storage

  /** The size a commit adds to project `q`: the whole image and the VM state. */
  function Committed(e: Engine, step: Step, q: Id): nat
    requires Enabled(e, step)
  {
    if step.CommitSnapshot? && ProjectOfRun(e, e.threads[step.tid].run) == Some(q)
    then |e.threads[step.tid].raw.value| + step.vmstate
    else 0
  }

  ghost function AllCommitted(w: World, e: Engine, run: seq<Step>, q: Id): nat
    requires Usable(w.c.mode) && ValidRun(w, e, run)
    decreases |run|
  {
    if run == [] then 0 else Committed(e, run[0], q) + AllCommitted(w, Apply(w, e, run[0]), run[1..], q)
  }

  lemma CommitAddsItsSize(e: Engine, tid: Id, vmstate: nat, now: int, q: Id)
    requires RowsOk(e) && ThreadsOk(e) && Enabled(e, CommitSnapshot(tid, vmstate, now))
    ensures StoredBytes(DoCommitSnapshot(e, tid, vmstate, now), q)
         == StoredBytes(e, q) + Committed(e, CommitSnapshot(tid, vmstate, now), q)
  {
    var t, e' := e.threads[tid], DoCommitSnapshot(e, tid, vmstate, now);
    assert ThreadOk(e, t);
    if ProjectOfRun(e, t.run) == Some(q) {
      assert t.sid in Own(e', q);
      TotalSizePick(Own(e', q), t.sid);
      assert Own(e', q) - {t.sid} == Own(e, q);
    } else {
      assert Own(e', q) == Own(e, q);
    }
  }

  lemma SameRowsStoreTheSame(e: Engine, e': Engine, q: Id)
    requires RowsOk(e) && e'.snapshots == e.snapshots
    requires forall r :: r in e.runs ==> r in e'.runs && e'.runs[r] == e.runs[r]
    ensures StoredBytes(e', q) == StoredBytes(e, q)
  {
    assert Own(e', q) == Own(e, q);
  }

  lemma OtherStepsStoreNothing(w: World, e: Engine, step: Step, q: Id)
    requires Usable(w.c.mode) && RowsOk(e) && Enabled(e, step) && !step.CommitSnapshot?
    ensures StoredBytes(Apply(w, e, step), q) == StoredBytes(e, q)
  {
    RowsStay(w, e, step);
    SameRowsStoreTheSame(e, Apply(w, e, step), q);
  }

  lemma ForkBeginKeepsTables(w: World, e: Engine, key: ApiKey, sid: Id, tid: Id, n: int)
    ensures
      var e' := DoBeginFork(w, e, key, sid, tid, n);
      e'.snapshots == e.snapshots && e'.runs == e.runs
  {
  }

  lemma RowsStay(w: World, e: Engine, step: Step)
    requires Usable(w.c.mode) && e.runs.Keys <= e.used && Enabled(e, step) && !step.CommitSnapshot?
    ensures Apply(w, e, step).snapshots == e.snapshots
    ensures forall r :: r in e.runs ==> r in Apply(w, e, step).runs && Apply(w, e, step).runs[r] == e.runs[r]
  {
    if step.BeginFork? {
      ForkBeginKeepsTables(w, e, step.key, step.sid, step.tid, step.n);
    }
  }

  lemma {:induction false} StoredBytesGrow(w: World, e: Engine, run: seq<Step>, q: Id)
    requires Usual(w) && Inv(w, e) && ValidRun(w, e, run)
    ensures StoredBytes(After(w, e, run), q) == StoredBytes(e, q) + AllCommitted(w, e, run, q)
    decreases |run|
  {
    if run != [] {
      StepKeepsInv(w, e, run[0]);
      if run[0].CommitSnapshot? {
        CommitAddsItsSize(e, run[0].tid, run[0].vmstate, run[0].now, q);
      } else {
        OtherStepsStoreNothing(w, e, run[0], q);
      }
      StoredBytesGrow(w, Apply(w, e, run[0]), run[1..], q);
    }
  }

  // ---------------------------------------------------------------- the bill

  /**
   The bill of any project after any run from an empty home: one vCPU for every second an instance
   of it ran, the image's memory for as long, every byte of every snapshot it committed, at 0.09 and
   0.35 dollars an hour and 0.05 dollars a gigabyte and month of 730 hours.
   */
  lemma BillsAreExact(w: World, root: Id, rootHash: KeyHash, run: seq<Step>, q: Id)
    requires Usual(w) && ValidRun(w, Initial(root, rootHash), run)
    ensures
      var e := Initial(root, rootHash);
      var bill, seconds := BillOf(After(w, e, run), q), InstanceSeconds(w, e, run, q);
      && bill.vcpuHours * 3600.0 == seconds
      && bill.ramGibHours * 3600.0 == w.memMib as real / 1024.0 * seconds
      && bill.storedBytes == AllCommitted(w, e, run, q)
      && bill.cost == bill.vcpuHours * 0.09 + bill.ramGibHours * 0.35
                      + bill.storedBytes as real / 1000000000.0 * 0.05 / 730.0
  {
    var e := Initial(root, rootHash);
    InitialIsSound(w, root, rootHash);
    AccountsAreExact(w, root, rootHash, run, q);
    StoredBytesGrow(w, e, run, q);
    assert Own(e, q) == map[];
  }

  // ---------------------------------------------------------------- run list and timelines

  /** The run a step makes for project `q`. */
  function Made(w: World, e: Engine, step: Step, q: Id): map<Id, Run> {
    if step.CreateRun? && Auth(w, e, step.key) == Some(q) then map[step.rid := Run(q, step.tag, step.now)] else map[]
  }

  ghost function AllMade(w: World, e: Engine, run: seq<Step>, q: Id): map<Id, Run>
    requires Usable(w.c.mode) && ValidRun(w, e, run)
    decreases |run|
  {
    if run == [] then map[] else Made(w, e, run[0], q) + AllMade(w, Apply(w, e, run[0]), run[1..], q)
  }

  lemma RunsAfter(w: World, e: Engine, step: Step)
    requires Usable(w.c.mode) && Enabled(e, step)
    ensures Apply(w, e, step).runs
         == if step.CreateRun? && Auth(w, e, step.key).Some?
            then e.runs[step.rid := Run(Auth(w, e, step.key).value, step.tag, step.now)] else e.runs
  {
    if step.BeginFork? {
      ForkBeginKeepsTables(w, e, step.key, step.sid, step.tid, step.n);
    }
  }

  lemma StepMakes(w: World, e: Engine, step: Step, q: Id)
    requires Usable(w.c.mode) && e.runs.Keys <= e.used && Enabled(e, step)
    ensures RunList(Apply(w, e, step), q) == RunList(e, q) + Made(w, e, step, q)
  {
    RunsAfter(w, e, step);
    Merged(RunList(e, q), map[], map[]);
    if step.CreateRun? && Auth(w, e, step.key).Some? {
      assert step.rid in IdsOf(step);
      OneMoreRun(e.runs, step.rid, Run(Auth(w, e, step.key).value, step.tag, step.now), q);
    }
  }

  lemma OneMoreRun(runs: map<Id, Run>, rid: Id, row: Run, q: Id)
    requires rid !in runs
    ensures RunsOf(runs[rid := row], q) == RunsOf(runs, q) + if row.project == q then map[rid := row] else map[]
  {
  }

  lemma Merged<K, V>(a: map<K, V>, b: map<K, V>, c: map<K, V>)
    ensures a + (b + c) == (a + b) + c
    ensures a + map[] == a
  {
  }

  lemma IssuedIdsAreUsed(w: World, e: Engine)
    requires Usable(w.c.mode) && Inv(w, e)
    ensures e.runs.Keys <= e.used
  {
  }

  /** A project's run list is what it listed before and the runs made with its keys since. */
  lemma {:induction false} RunListsAreExact(w: World, e: Engine, run: seq<Step>, q: Id)
    requires Usual(w) && Inv(w, e) && ValidRun(w, e, run)
    ensures RunList(After(w, e, run), q) == RunList(e, q) + AllMade(w, e, run, q)
    decreases |run|
  {
    if run == [] {
      Merged(RunList(e, q), map[], map[]);
    } else {
      var e1 := Apply(w, e, run[0]);
      IssuedIdsAreUsed(w, e);
      StepMakes(w, e, run[0], q);
      StepKeepsInv(w, e, run[0]);
      RunListsAreExact(w, e1, run[1..], q);
      Merged(RunList(e, q), Made(w, e, run[0], q), AllMade(w, e1, run[1..], q));
    }
  }

  /** A timeline holds the rows of its run, all of them and unchanged, and no others. */
  lemma TimelinesHoldTheirRows(e: Engine, rid: Id, id: Id)
    ensures
      var (snapshots, instances) := TimelineOf(e, rid);
      && (id in snapshots <==> id in e.snapshots && e.snapshots[id].run == rid)
      && (id in snapshots ==> snapshots[id] == e.snapshots[id])
      && (id in instances <==> id in e.instances && e.instances[id].run == rid)
      && (id in instances ==> instances[id] == e.instances[id])
  {
  }
}
