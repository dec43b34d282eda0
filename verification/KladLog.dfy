/**
 `klad log` on any state the engine can reach (spikes/engine/kladosd.py:438-445,
 spikes/engine/klad:37-61).  The daemon reads the snapshots and then the instances in two
 queries, so other requests may commit in between.
 */
module KladLog {
  import opened Wrappers
  import opened Chunking
  import opened Engine
  import opened EngineLaws
  import opened Timeline
  import opened Render
  import opened RenderLaws

  function SnapRowOf(e: Engine, s: Id): SnapRow
    requires s in e.snapshots
  {
    SnapRow(s, e.snapshots[s].parent, e.snapshots[s].tag, e.snapshots[s].size)
  }

  function InstRowOf(e: Engine, i: Id): InstRow
    requires i in e.instances
  {
    InstRow(i, e.instances[i].snapshot, e.instances[i].status, e.instances[i].branch)
  }

  /** The rows of a run, each once, in whatever order the clock readings put them. */
  ghost predicate SnapshotsRead(e: Engine, rid: Id, rows: seq<SnapRow>) {
    && DistinctRows(rows)
    && (forall s :: s in rows ==> SnapshotOf(e, s.id, rid) && s == SnapRowOf(e, s.id))
    && (forall s :: SnapshotOf(e, s, rid) ==> SnapRowOf(e, s) in rows)
  }

  ghost predicate InstanceOf(e: Engine, i: Id, rid: Id) {
    i in e.instances && e.instances[i].run == rid
  }

  ghost predicate InstancesRead(e: Engine, rid: Id, rows: seq<InstRow>) {
    && DistinctInsts(rows)
    && (forall i :: i in rows ==> InstanceOf(e, i.id, rid) && i == InstRowOf(e, i.id))
    && (forall i :: InstanceOf(e, i, rid) ==> InstRowOf(e, i) in rows)
  }

  /** Commit order ranks the rows. */
  ghost function Rank(e: Engine): Id -> nat {
    id => if id in e.order then Position(e, id) else 0
  }

  lemma RowsFormATree(e: Engine, rid: Id, rows: seq<SnapRow>)
    requires RowsOk(e) && OrderOk(e) && SnapshotsRead(e, rid, rows)
    ensures TreeRows(rows, Rank(e), |e.order|) && ParentsPresent(rows)
  {
    forall s | s in rows && s.parent.Some?
      ensures Rank(e)(s.parent.value) < Rank(e)(s.id) && HasRow(rows, s.parent.value)
    {
      ParentsComeFirst(e, s.id);
      assert SnapRowOf(e, s.parent.value) in rows;
    }
  }

  lemma SnapshotRows(e: Engine, rid: Id, rows: seq<SnapRow>, id: Id)
    requires SnapshotsRead(e, rid, rows)
    ensures HasRow(rows, id) <==> SnapshotOf(e, id, rid)
  {
    if SnapshotOf(e, id, rid) {
      assert SnapRowOf(e, id) in rows;
    }
  }

  lemma PointerIs(e: Engine, rid: Id, rows: seq<InstRow>, id: Id)
    requires InstancesRead(e, rid, rows)
    ensures Pointer(rows, id) == if InstanceOf(e, id, rid) then e.instances[id].snapshot else None
  {
    if InstanceOf(e, id, rid) {
      assert InstRowOf(e, id) in rows;
    }
  }

  /**
   The snapshots are read in `e`, the instances in a state reached from it by any further steps.
   Every snapshot of the run is shown once.  An instance is shown once in the tree exactly when
   its pointer names a snapshot that the first query already saw.  The indentation is right.
   */
  lemma LogShowsEverySnapshotOnce(w: World, e: Engine, between: seq<Step>, rid: Id, snaps: seq<SnapRow>,
                                  insts: seq<InstRow>, id: Id)
    requires Usual(w) && Inv(w, e) && ValidRun(w, e, between)
    requires SnapshotsRead(e, rid, snaps) && InstancesRead(After(w, e, between), rid, insts)
    ensures TreeRows(snaps, Rank(e), |e.order|)
    ensures
      var e', tree := After(w, e, between), Tree(snaps, insts, Rank(e), |e.order|);
      && Count(tree, TheSnapshot(id)) == Ones(SnapshotOf(e, id, rid))
      && Count(tree, TheInstance(id))
         == Ones(InstanceOf(e', id, rid) && e'.instances[id].snapshot.Some?
                 && e'.instances[id].snapshot.value in e.snapshots)
      && Faithful(tree, [])
  {
    var e' := After(w, e, between);
    RunKeepsInv(w, e, between);
    HistoryIsNeverRewritten(w, e, between);
    RowsFormATree(e, rid, snaps);
    SnapshotsAreAtHome(insts, id);
    TreeShowsOnce(snaps, insts, Rank(e), |e.order|, TheSnapshot(id), Some(id));
    SnapshotRows(e, rid, snaps, id);
    PointerIs(e', rid, insts, id);
    InstancesAreAtHome(insts, id);
    TreeShowsOnce(snaps, insts, Rank(e), |e.order|, TheInstance(id), Pointer(insts, id));
    if InstanceOf(e', id, rid) && e'.instances[id].snapshot.Some? {
      assert LineageOk(e', e'.instances[id].snapshot, rid);
      SnapshotRows(e, rid, snaps, e'.instances[id].snapshot.value);
    }
    TreeIsFaithful(snaps, insts, Rank(e), |e.order|);
  }

  // ---------------------------------------------------------------- one consistent read

  /** An instance that was never snapshotted and is nobody's fork is its run's first. */
  ghost predicate PointerlessAreGenesis(e: Engine) {
    forall i :: i in e.instances && e.instances[i].snapshot.None? ==> e.instances[i].branch == "genesis"
  }

  lemma OtherStepsKeepGenesis(w: World, e: Engine, step: Step)
    requires Usable(w.c.mode) && Enabled(e, step) && PointerlessAreGenesis(e) && !step.BeginFork?
    requires step.CommitFork? ==> ThreadOk(e, e.threads[step.tid])
    ensures PointerlessAreGenesis(Apply(w, e, step))
  {
  }

  lemma StepKeepsGenesis(w: World, e: Engine, step: Step)
    requires Usual(w) && Inv(w, e) && Enabled(e, step) && PointerlessAreGenesis(e)
    ensures PointerlessAreGenesis(Apply(w, e, step))
  {
    if step.BeginFork? {
      BeginForkLoads(w, e, step.key, step.sid, step.tid, step.n);
    } else {
      OtherStepsKeepGenesis(w, e, step);
    }
  }

  lemma {:induction false} RunKeepsGenesis(w: World, e: Engine, run: seq<Step>)
    requires Usual(w) && Inv(w, e) && ValidRun(w, e, run) && PointerlessAreGenesis(e)
    ensures PointerlessAreGenesis(After(w, e, run))
    decreases |run|
  {
    if run != [] {
      StepKeepsGenesis(w, e, run[0]);
      StepKeepsInv(w, e, run[0]);
      RunKeepsGenesis(w, Apply(w, e, run[0]), run[1..]);
    }
  }

  lemma {:induction false} GenesisListed(insts: seq<InstRow>, i: InstRow)
    ensures Genesis(i) in GenesisLines(insts) <==> i in insts && i.branch == "genesis"
  {
    if insts != [] {
      GenesisListed(insts[1..], i);
    }
  }

  /** When both queries see one state of any run, no instance of the run is missing: it is in the
      tree exactly once if it has a pointer, and a genesis line if it has none. */
  lemma ConsistentLogMissesNothing(w: World, root: Id, rootHash: KeyHash, run: seq<Step>, rid: Id,
                                   snaps: seq<SnapRow>, insts: seq<InstRow>, id: Id)
    requires Usual(w) && ValidRun(w, Initial(root, rootHash), run)
    requires var e := After(w, Initial(root, rootHash), run);
               SnapshotsRead(e, rid, snaps) && InstancesRead(e, rid, insts)
    ensures
      var e := After(w, Initial(root, rootHash), run);
      && TreeRows(snaps, Rank(e), |e.order|)
      && var tree := Tree(snaps, insts, Rank(e), |e.order|);
      && Faithful(tree, [])
      && Count(tree, TheSnapshot(id)) == Ones(SnapshotOf(e, id, rid))
      && Count(tree, TheInstance(id)) == Ones(InstanceOf(e, id, rid) && e.instances[id].snapshot.Some?)
      && (InstanceOf(e, id, rid) && e.instances[id].snapshot.None? ==> Genesis(InstRowOf(e, id)) in GenesisLines(insts))
  {
    var e := After(w, Initial(root, rootHash), run);
    InitialIsSound(w, root, rootHash);
    RunKeepsInv(w, Initial(root, rootHash), run);
    RunKeepsGenesis(w, Initial(root, rootHash), run);
    LogShowsEverySnapshotOnce(w, e, [], rid, snaps, insts, id);
    if InstanceOf(e, id, rid) {
      assert LineageOk(e, e.instances[id].snapshot, rid);
      GenesisListed(insts, InstRowOf(e, id));
    }
  }
}
