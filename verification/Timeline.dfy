/**
 The lineage of a run stays a forest, whatever requests interleave
 (spikes/engine/kladosd.py:289-320, 323-350, 427-435).
 */
module Timeline {
  import opened Wrappers
  import opened Chunking
  import opened Engine
  import opened EngineLaws

  // ---------------------------------------------------------------- forests

  ghost predicate ParentIs(e: Engine, child: Id, parent: Option<Id>) {
    child in e.snapshots && e.snapshots[child].parent == parent
  }

  ghost predicate HangsUnder(e: Engine, child: Id, parent: Id) {
    ParentIs(e, child, Some(parent))
  }

  /** Each snapshot of the path hangs under the next one. */
  ghost predicate IsPath(e: Engine, path: seq<Id>) {
    && |path| > 0
    && (forall k :: 0 <= k < |path| ==> path[k] in e.snapshots)
    && (forall k :: 0 < k < |path| ==> HangsUnder(e, path[k - 1], path[k]))
  }

  ghost predicate Acyclic(e: Engine) {
    forall path :: IsPath(e, path) && |path| > 1 ==> path[0] != path[|path| - 1]
  }

  ghost predicate Rooted(e: Engine, sid: Id) {
    exists path :: IsPath(e, path) && path[0] == sid && e.snapshots[path[|path| - 1]].parent.None?
  }

  /** No pointer dangles or leaves its run, nothing descends from itself, every chain has an end. */
  ghost predicate IsForest(e: Engine) {
    && (forall s :: s in e.snapshots ==> LineageOk(e, e.snapshots[s].parent, e.snapshots[s].run))
    && (forall i :: i in e.instances ==> LineageOk(e, e.instances[i].snapshot, e.instances[i].run))
    && Acyclic(e)
    && (forall s :: s in e.snapshots ==> Rooted(e, s))
  }

  // ---------------------------------------------------------------- ranks

  ghost function Position(e: Engine, sid: Id): (k: nat)
    requires sid in e.order
    ensures k < |e.order| && e.order[k] == sid
  {
    var k: nat :| k < |e.order| && e.order[k] == sid;
    k
  }

  lemma ParentsComeFirst(e: Engine, sid: Id)
    requires RowsOk(e) && OrderOk(e) && sid in e.snapshots && e.snapshots[sid].parent.Some?
    ensures SnapshotOf(e, e.snapshots[sid].parent.value, e.snapshots[sid].run)
    ensures Position(e, e.snapshots[sid].parent.value) < Position(e, sid)
  {
    var k, p := Position(e, sid), e.snapshots[sid].parent.value;
    assert LineageOk(e, e.snapshots[sid].parent, e.snapshots[sid].run);
    var j :| 0 <= j < k && e.order[j] == p;
    assert e.order[..k][j] == p;
  }

  lemma {:induction false} PathsDescend(e: Engine, path: seq<Id>)
    requires RowsOk(e) && OrderOk(e) && IsPath(e, path)
    ensures |path| > 1 ==> Position(e, path[|path| - 1]) < Position(e, path[0])
    decreases |path|
  {
    if |path| > 1 {
      assert HangsUnder(e, path[0], path[1]);
      ParentsComeFirst(e, path[0]);
      assert IsPath(e, path[1..]) by {
        forall k | 0 < k < |path[1..]| ensures HangsUnder(e, path[1..][k - 1], path[1..][k]) {
          assert HangsUnder(e, path[k], path[k + 1]);
        }
      }
      PathsDescend(e, path[1..]);
    }
  }

  /** The chain of parents of a snapshot. */
  ghost function Ancestry(e: Engine, sid: Id): (path: seq<Id>)
    requires RowsOk(e) && OrderOk(e) && sid in e.snapshots
    ensures |path| > 0 && path[0] == sid
    decreases Position(e, sid)
  {
    if e.snapshots[sid].parent.None? then [sid] else
      ParentsComeFirst(e, sid);
      [sid] + Ancestry(e, e.snapshots[sid].parent.value)
  }

  lemma PathExtends(e: Engine, sid: Id, rest: seq<Id>)
    requires IsPath(e, rest) && HangsUnder(e, sid, rest[0])
    ensures IsPath(e, [sid] + rest)
  {
    var path := [sid] + rest;
    forall k | 0 < k < |path| ensures HangsUnder(e, path[k - 1], path[k]) {
      assert k > 1 ==> HangsUnder(e, rest[k - 2], rest[k - 1]);
    }
  }

  lemma AncestryOfChild(e: Engine, sid: Id)
    requires RowsOk(e) && OrderOk(e) && sid in e.snapshots && e.snapshots[sid].parent.Some?
    ensures
      var p := e.snapshots[sid].parent.value;
      p in e.snapshots && Position(e, p) < Position(e, sid) && Ancestry(e, sid) == [sid] + Ancestry(e, p)
  {
    ParentsComeFirst(e, sid);
  }

  lemma {:induction false} ChainsEnd(e: Engine, sid: Id)
    requires RowsOk(e) && OrderOk(e) && sid in e.snapshots
    ensures IsPath(e, Ancestry(e, sid))
    ensures e.snapshots[Ancestry(e, sid)[|Ancestry(e, sid)| - 1]].parent.None?
    decreases Position(e, sid)
  {
    if e.snapshots[sid].parent.Some? {
      var p := e.snapshots[sid].parent.value;
      AncestryOfChild(e, sid);
      ChainsEnd(e, p);
      PathExtends(e, sid, Ancestry(e, p));
    }
  }

  lemma SoundEnginesAreForests(e: Engine)
    requires RowsOk(e) && OrderOk(e)
    ensures IsForest(e)
  {
    forall path | IsPath(e, path) && |path| > 1 ensures path[0] != path[|path| - 1] {
      PathsDescend(e, path);
    }
    forall s | s in e.snapshots ensures Rooted(e, s) {
      ChainsEnd(e, s);
      var path := Ancestry(e, s);
      assert IsPath(e, path) && path[0] == s;
    }
  }

  /** Every engine state that any run of interleaved requests, ticks and restarts can reach. */
  lemma TimelinesAreForests(w: World, root: Id, rootHash: KeyHash, run: seq<Step>)
    requires Usual(w) && ValidRun(w, Initial(root, rootHash), run)
    ensures IsForest(After(w, Initial(root, rootHash), run))
  {
    InitialIsSound(w, root, rootHash);
    RunKeepsInv(w, Initial(root, rootHash), run);
    SoundEnginesAreForests(After(w, Initial(root, rootHash), run));
  }

  // ---------------------------------------------------------------- rows over time

  /** A committed snapshot is never rewritten, and a new one hangs under one committed before it. */
  lemma NewSnapshotsHangUnderOldOnes(w: World, e: Engine, step: Step)
    requires Usual(w) && Inv(w, e) && Enabled(e, step)
    ensures
      var e' := Apply(w, e, step);
      && (forall s :: s in e.snapshots ==> s in e'.snapshots && e'.snapshots[s] == e.snapshots[s])
      && (forall s :: s in e'.snapshots && s !in e.snapshots && e'.snapshots[s].parent.Some?
            ==> SnapshotOf(e, e'.snapshots[s].parent.value, e'.snapshots[s].run))
      && e.order <= e'.order
  {
    if step.CommitSnapshot? {
      CommitHangsUnderOldOnes(e, step.tid, step.vmstate, step.now);
    } else if step.BeginFork? {
      BeginForkLoads(w, e, step.key, step.sid, step.tid, step.n);
    } else {
      OnlyCommitsAddSnapshots(w, e, step);
    }
  }

  lemma OnlyCommitsAddSnapshots(w: World, e: Engine, step: Step)
    requires Usable(w.c.mode) && Enabled(e, step) && !step.CommitSnapshot? && !step.BeginFork?
    ensures Apply(w, e, step).snapshots == e.snapshots && Apply(w, e, step).order == e.order
  {
  }

  lemma CommitHangsUnderOldOnes(e: Engine, tid: Id, vmstate: nat, now: int)
    requires tid in e.threads && e.threads[tid].Snapshotting? && e.threads[tid].raw.Some? && ThreadOk(e, e.threads[tid])
    ensures
      var e', t := DoCommitSnapshot(e, tid, vmstate, now), e.threads[tid];
      && (forall s :: s in e.snapshots ==> s in e'.snapshots && e'.snapshots[s] == e.snapshots[s])
      && (forall s :: s in e'.snapshots && s !in e.snapshots
            ==> e'.snapshots[s].run == t.run && e'.snapshots[s].parent == t.parent)
      && LineageOk(e, t.parent, t.run)
      && e.order <= e'.order
  {
  }

  lemma {:induction false} HistoryIsNeverRewritten(w: World, e: Engine, run: seq<Step>)
    requires Usual(w) && Inv(w, e) && ValidRun(w, e, run)
    ensures
      var e' := After(w, e, run);
      && (forall s :: s in e.snapshots ==> s in e'.snapshots && e'.snapshots[s] == e.snapshots[s])
      && e.order <= e'.order
    decreases |run|
  {
    if run != [] {
      NewSnapshotsHangUnderOldOnes(w, e, run[0]);
      StepKeepsInv(w, e, run[0]);
      HistoryIsNeverRewritten(w, Apply(w, e, run[0]), run[1..]);
    }
  }

  // ---------------------------------------------------------------- racing snapshots

  /** The step commits a snapshot of instance `iid`. */
  predicate Moves(e: Engine, step: Step, iid: Id) {
    step.CommitSnapshot? && step.tid in e.threads && e.threads[step.tid].Snapshotting? && e.threads[step.tid].iid == iid
  }

  ghost predicate EverMoves(w: World, e: Engine, run: seq<Step>, iid: Id)
    requires Usable(w.c.mode) && ValidRun(w, e, run)
    decreases |run|
  {
    run != [] && (Moves(e, run[0], iid) || EverMoves(w, Apply(w, e, run[0]), run[1..], iid))
  }

  lemma CommitMovesItsInstance(e: Engine, tid: Id, vmstate: nat, now: int, iid: Id)
    requires tid in e.threads && e.threads[tid].Snapshotting? && e.threads[tid].raw.Some?
    requires ThreadOk(e, e.threads[tid]) && iid in e.instances
    ensures
      var e' := DoCommitSnapshot(e, tid, vmstate, now);
      && iid in e'.instances
      && if e.threads[tid].iid == iid then
           e'.instances[iid].snapshot.Some? && e'.instances[iid].snapshot.value !in e.snapshots
         else
           e'.instances[iid].snapshot == e.instances[iid].snapshot
  {
  }

  lemma OtherStepsMoveNone(w: World, e: Engine, step: Step, iid: Id)
    requires Usable(w.c.mode) && RowsOk(e) && Enabled(e, step) && iid in e.instances
    requires !step.CommitSnapshot? && !step.BeginFork?
    requires step.CommitFork? ==> ThreadOk(e, e.threads[step.tid])
    ensures iid in Apply(w, e, step).instances
    ensures Apply(w, e, step).instances[iid].snapshot == e.instances[iid].snapshot
  {
  }

  /** A commit points the instance at a snapshot that did not exist before; nothing else moves it. */
  lemma OnlyItsSnapshotsMoveAnInstance(w: World, e: Engine, step: Step, iid: Id)
    requires Usual(w) && Inv(w, e) && Enabled(e, step) && iid in e.instances
    ensures
      var e' := Apply(w, e, step);
      && iid in e'.instances
      && if Moves(e, step, iid) then
           e'.instances[iid].snapshot.Some? && e'.instances[iid].snapshot.value !in e.snapshots
         else
           e'.instances[iid].snapshot == e.instances[iid].snapshot
  {
    if step.BeginFork? {
      BeginForkLoads(w, e, step.key, step.sid, step.tid, step.n);
    } else if step.CommitSnapshot? {
      CommitMovesItsInstance(e, step.tid, step.vmstate, step.now, iid);
    } else {
      OtherStepsMoveNone(w, e, step, iid);
    }
  }

  /** Once moved, an instance never points back at what existed at the start. */
  lemma {:induction false} PointerAfter(w: World, e0: Engine, e: Engine, run: seq<Step>, iid: Id)
    requires Usual(w) && Inv(w, e) && ValidRun(w, e, run) && iid in e.instances
    requires e0.snapshots.Keys <= e.snapshots.Keys
    ensures
      var e' := After(w, e, run);
      && iid in e'.instances
      && if EverMoves(w, e, run, iid) then
           e'.instances[iid].snapshot.Some? && e'.instances[iid].snapshot.value !in e0.snapshots
         else
           e'.instances[iid].snapshot == e.instances[iid].snapshot
    decreases |run|
  {
    if run != [] {
      var e1 := Apply(w, e, run[0]);
      OnlyItsSnapshotsMoveAnInstance(w, e, run[0], iid);
      NewSnapshotsHangUnderOldOnes(w, e, run[0]);
      StepKeepsInv(w, e, run[0]);
      PointerAfter(w, e0, e1, run[1..], iid);
    }
  }

  /** From its begin to its commit a request works on what it read at the beginning. */
  lemma {:induction false} RequestsKeepWhatTheyRead(w: World, e: Engine, run: seq<Step>, tid: Id)
    requires Usual(w) && Inv(w, e) && ValidRun(w, e, run) && tid in e.threads && e.threads[tid].Snapshotting?
    requires var e' := After(w, e, run); tid in e'.threads && e'.threads[tid].Snapshotting?
    ensures After(w, e, run).threads[tid].(raw := None) == e.threads[tid].(raw := None)
    decreases |run|
  {
    if run != [] {
      var e1 := Apply(w, e, run[0]);
      StepKeepsInv(w, e, run[0]);
      StepKeepsUsed(w, e, run[0]);
      if tid in e1.threads {
        StepKeepsRequests(w, e, run[0], tid);
        RequestsKeepWhatTheyRead(w, e1, run[1..], tid);
      } else {
        EndedRequestsStayEnded(w, e1, run[1..], tid);
      }
    }
  }

  lemma BeginForkKeepsUsed(w: World, e: Engine, key: ApiKey, sid: Id, tid: Id, n: int)
    ensures e.used <= DoBeginFork(w, e, key, sid, tid, n).used
  {
  }

  lemma StepKeepsUsed(w: World, e: Engine, step: Step)
    requires Usable(w.c.mode) && Enabled(e, step)
    ensures e.used <= Apply(w, e, step).used
  {
    if step.BeginFork? {
      BeginForkKeepsUsed(w, e, step.key, step.sid, step.tid, step.n);
    }
  }

  lemma StepKeepsRequests(w: World, e: Engine, step: Step, tid: Id)
    requires Usual(w) && Inv(w, e) && Enabled(e, step)
    requires tid in e.threads && e.threads[tid].Snapshotting? && tid in Apply(w, e, step).threads
    ensures Apply(w, e, step).threads[tid].Snapshotting?
    ensures Apply(w, e, step).threads[tid].(raw := None) == e.threads[tid].(raw := None)
  {
    if step.BeginFork? {
      BeginForkLoads(w, e, step.key, step.sid, step.tid, step.n);
    }
  }

  /** Request ids are never issued again. */
  lemma StepReissuesNoRequest(w: World, e: Engine, step: Step, tid: Id)
    requires Usual(w) && Inv(w, e) && Enabled(e, step) && tid in e.used && tid !in e.threads
    ensures tid in Apply(w, e, step).used && tid !in Apply(w, e, step).threads
  {
    if step.BeginFork? {
      BeginForkLoads(w, e, step.key, step.sid, step.tid, step.n);
    }
  }

  lemma {:induction false} EndedRequestsStayEnded(w: World, e: Engine, run: seq<Step>, tid: Id)
    requires Usual(w) && Inv(w, e) && ValidRun(w, e, run) && tid in e.used && tid !in e.threads
    ensures tid !in After(w, e, run).threads
    decreases |run|
  {
    if run != [] {
      StepKeepsInv(w, e, run[0]);
      StepReissuesNoRequest(w, e, run[0], tid);
      EndedRequestsStayEnded(w, Apply(w, e, run[0]), run[1..], tid);
    }
  }

  /**
   A snapshot whose parent was read in `e` and which commits in a later state hangs under the
   snapshot its instance points at when it commits, exactly when no other snapshot of that
   instance committed in between.  Racing snapshots of one instance become siblings.
   */
  lemma CommitsOnTopExactlyWhenNoneRaced(w: World, e: Engine, run: seq<Step>, tid: Id, vmstate: nat, now: int)
    requires Usual(w) && Inv(w, e) && ValidRun(w, e, run)
    requires tid in e.threads && e.threads[tid].Snapshotting?
    requires e.threads[tid].iid in e.instances && e.threads[tid].parent == e.instances[e.threads[tid].iid].snapshot
    requires var e' := After(w, e, run); tid in e'.threads && e'.threads[tid].Snapshotting? && e'.threads[tid].raw.Some?
    ensures
      var iid, sid, e' := e.threads[tid].iid, e.threads[tid].sid, After(w, e, run);
      var e'' := DoCommitSnapshot(e', tid, vmstate, now);
      && iid in e'.instances && sid in e''.snapshots
      && (ParentIs(e'', sid, e'.instances[iid].snapshot) <==> !EverMoves(w, e, run, iid))
  {
    var e', iid := After(w, e, run), e.threads[tid].iid;
    RequestsKeepWhatTheyRead(w, e, run, tid);
    PointerAfter(w, e, e, run, iid);
    assert LineageOk(e, e.instances[iid].snapshot, e.instances[iid].run);
    assert e'.threads[tid].(raw := None).parent == e.threads[tid].parent;
    assert e'.threads[tid].(raw := None).sid == e.threads[tid].sid;
  }
}
