/**
 What destroying an instance amounts to over the rest of any run, and the request it can race with:
 a run's rows are committed before its VM boots (spikes/engine/kladosd.py:276-286, 427-435).
 */
module Lifetimes {
  import opened Chunking
  import opened Engine
  import opened EngineLaws

  /** A request is about to boot the VM of `iid`. */
  ghost predicate BootAhead(e: Engine, iid: Id) {
    exists t :: t in e.threads && e.threads[t].Booting? && e.threads[t].iid == iid
  }

  ghost predicate Ended(e: Engine, iid: Id) {
    iid in e.instances && e.instances[iid].status == Destroyed
  }

  // ---------------------------------------------------------------- one step

  lemma ForkBeginsNothing(w: World, e: Engine, key: ApiKey, sid: Id, tid: Id, n: int)
    requires Usual(w) && Inv(w, e)
    ensures
      var e' := DoBeginFork(w, e, key, sid, tid, n);
      && e'.instances == e.instances && e'.live == e.live
      && forall t :: t in e'.threads && e'.threads[t].Booting? ==> t in e.threads && e'.threads[t] == e.threads[t]
  {
    BeginForkLoads(w, e, key, sid, tid, n);
  }

  lemma StepKeepsEnded(w: World, e: Engine, step: Step, iid: Id)
    requires Usable(w.c.mode) && e.instances.Keys <= e.used && Enabled(e, step) && !step.BeginFork? && Ended(e, iid)
    requires step.CommitFork? ==> e.threads[step.tid].children.Keys !! e.instances.Keys
    ensures Ended(Apply(w, e, step), iid)
  {
  }

  /** Without a boot ahead an instance that does not run will not. */
  lemma StepKeepsStill(w: World, e: Engine, step: Step, iid: Id)
    requires Usable(w.c.mode) && Enabled(e, step) && !step.BeginFork?
    requires iid in e.used && iid !in e.live && !BootAhead(e, iid)
    ensures iid !in Apply(w, e, step).live && !BootAhead(Apply(w, e, step), iid)
  {
    var e' := Apply(w, e, step);
    forall t | t in e'.threads && e'.threads[t].Booting? ensures e'.threads[t].iid != iid {
      if t !in e.threads || e'.threads[t] != e.threads[t] {
        assert step.CreateRun? && step.iid in IdsOf(step);
      }
    }
  }

  // ---------------------------------------------------------------- whole runs

  lemma {:induction false} DestroyedStaysDestroyed(w: World, e: Engine, run: seq<Step>, iid: Id)
    requires Usual(w) && Inv(w, e) && ValidRun(w, e, run) && Ended(e, iid)
    ensures Ended(After(w, e, run), iid)
    decreases |run|
  {
    if run != [] {
      StepKeepsInv(w, e, run[0]);
      if run[0].BeginFork? {
        ForkBeginsNothing(w, e, run[0].key, run[0].sid, run[0].tid, run[0].n);
      } else {
        assert run[0].CommitFork? ==> ThreadOk(e, e.threads[run[0].tid]);
        StepKeepsEnded(w, e, run[0], iid);
      }
      DestroyedStaysDestroyed(w, Apply(w, e, run[0]), run[1..], iid);
    }
  }

  lemma {:induction false} StaysStill(w: World, e: Engine, run: seq<Step>, iid: Id)
    requires Usual(w) && Inv(w, e) && ValidRun(w, e, run)
    requires iid in e.instances && iid !in e.live && !BootAhead(e, iid)
    ensures iid !in After(w, e, run).live
    decreases |run|
  {
    if run != [] {
      StepKeepsInv(w, e, run[0]);
      StepKeepsStillAndRow(w, e, run[0], iid);
      StaysStill(w, Apply(w, e, run[0]), run[1..], iid);
    }
  }

  lemma StepKeepsStillAndRow(w: World, e: Engine, step: Step, iid: Id)
    requires Usual(w) && Inv(w, e) && Enabled(e, step)
    requires iid in e.instances && iid !in e.live && !BootAhead(e, iid)
    ensures
      var e' := Apply(w, e, step);
      iid in e'.instances && iid !in e'.live && !BootAhead(e', iid)
  {
    if step.BeginFork? {
      ForkBeginsNothing(w, e, step.key, step.sid, step.tid, step.n);
    } else {
      StepKeepsStill(w, e, step, iid);
      RowsRemain(w, e, step, iid);
    }
  }

  lemma RowsRemain(w: World, e: Engine, step: Step, iid: Id)
    requires Usable(w.c.mode) && Enabled(e, step) && !step.BeginFork? && iid in e.instances
    ensures iid in Apply(w, e, step).instances
  {
  }

  /** The instance never runs again, whatever happens. */
  ghost predicate NeverRuns(w: World, e: Engine, iid: Id)
    requires Usable(w.c.mode)
  {
    forall run :: ValidRun(w, e, run) ==> iid !in After(w, e, run).live
  }

  lemma ABootAheadRunsIt(w: World, e: Engine, iid: Id)
    requires Usable(w.c.mode) && BootAhead(e, iid)
    ensures !NeverRuns(w, e, iid)
  {
    var t :| t in e.threads && e.threads[t].Booting? && e.threads[t].iid == iid;
    var e1 := Apply(w, e, BootVm(t));
    assert [BootVm(t)][1..] == [] && ValidRun(w, e1, []) && After(w, e1, []) == e1;
    assert ValidRun(w, e, [BootVm(t)]) && After(w, e, [BootVm(t)]) == e1;
  }

  lemma DestroyStops(w: World, e: Engine, key: ApiKey, iid: Id)
    requires Auth(w, e, key).Some? && ProjectOfInstance(e, iid) == Auth(w, e, key)
    ensures
      var e' := DoDestroy(w, e, key, iid);
      Ended(e', iid) && iid !in e'.live && (BootAhead(e', iid) <==> BootAhead(e, iid))
  {
  }

  /**
   An instance that its owner destroyed is marked so for ever; that it never runs again holds if
   and only if the request that creates it was not just about to boot its VM.
   */
  lemma DestroyIsFinalExactlyAfterBoot(w: World, e: Engine, key: ApiKey, iid: Id)
    requires Usual(w) && Inv(w, e) && Auth(w, e, key).Some? && ProjectOfInstance(e, iid) == Auth(w, e, key)
    ensures
      var e' := Apply(w, e, Destroy(key, iid));
      && (forall run :: ValidRun(w, e', run) ==> Ended(After(w, e', run), iid))
      && (NeverRuns(w, e', iid) <==> !BootAhead(e, iid))
  {
    var e' := Apply(w, e, Destroy(key, iid));
    StepKeepsInv(w, e, Destroy(key, iid));
    DestroyStops(w, e, key, iid);
    forall run | ValidRun(w, e', run) ensures Ended(After(w, e', run), iid) {
      DestroyedStaysDestroyed(w, e', run, iid);
    }
    if BootAhead(e, iid) {
      ABootAheadRunsIt(w, e', iid);
    } else {
      forall run | ValidRun(w, e', run) ensures iid !in After(w, e', run).live {
        StaysStill(w, e', run, iid);
      }
    }
  }

  /** A restart of the daemon ends every VM and request and forgets the index, but marks no row: an
      instance stays RUNNING in its row and is never charged again. */
  lemma RestartStopsSilently(w: World, e: Engine, wiped: bool, iid: Id)
    requires Usual(w) && Inv(w, e) && iid in e.instances
    ensures
      var e' := Apply(w, e, Restart(wiped));
      && e'.instances == e.instances && NeverRuns(w, e', iid)
      && e'.threads == map[] && e'.store.index == map[] && e'.store.pending == [] && e'.store.cold == e.store.cold
  {
    var e' := Apply(w, e, Restart(wiped));
    StepKeepsInv(w, e, Restart(wiped));
    forall run | ValidRun(w, e', run) ensures iid !in After(w, e', run).live {
      StaysStill(w, e', run, iid);
    }
  }

  // ---------------------------------------------------------------- a fork that fails half way

  /** A VM that runs without a row, and that no request is going to give one. */
  ghost predicate Orphan(e: Engine, i: Id) {
    && i in e.used && i in e.live && i !in e.instances
    && forall t :: t in e.threads ==> HasNoHold(e.threads[t], i)
  }

  predicate HasNoHold(t: Thread, i: Id) {
    (t.Forking? ==> i !in t.children) && (t.Booting? ==> t.iid != i)
  }

  ghost predicate Restarts(run: seq<Step>) {
    exists k :: 0 <= k < |run| && run[k].Restart?
  }

  /** The same VM after the daemon died: gone, and still without a row. */
  ghost predicate Lost(e: Engine, i: Id) {
    && i in e.used && i !in e.live && i !in e.instances
    && forall t :: t in e.threads ==> HasNoHold(e.threads[t], i)
  }

  lemma StepKeepsHolds(w: World, e: Engine, step: Step, i: Id)
    requires Usable(w.c.mode) && Enabled(e, step) && !step.BeginFork?
    requires i in e.used && forall t :: t in e.threads ==> HasNoHold(e.threads[t], i)
    ensures forall t :: t in Apply(w, e, step).threads ==> HasNoHold(Apply(w, e, step).threads[t], i)
  {
    var e' := Apply(w, e, step);
    forall t | t in e'.threads ensures HasNoHold(e'.threads[t], i) {
      if t in e.threads {
        assert HasNoHold(e.threads[t], i);
      }
    }
  }

  lemma StepKeepsOrphan(w: World, e: Engine, step: Step, i: Id)
    requires Usable(w.c.mode) && Enabled(e, step) && !step.BeginFork?
    requires i in e.used && i !in e.instances
    requires (step.CommitFork? || step.BootVm?) ==> HasNoHold(e.threads[step.tid], i)
    ensures
      var e' := Apply(w, e, step);
      && i in e'.used && i !in e'.instances
      && (i in e'.live <==> i in e.live && !step.Restart?)
  {
  }

  lemma ForkBeginKeepsOrphan(w: World, e: Engine, key: ApiKey, sid: Id, tid: Id, n: int, i: Id)
    requires Usual(w) && Inv(w, e) && i in e.used && i !in e.instances
    requires forall t :: t in e.threads ==> HasNoHold(e.threads[t], i)
    ensures
      var e' := DoBeginFork(w, e, key, sid, tid, n);
      && i in e'.used && i !in e'.instances && (i in e'.live <==> i in e.live)
      && forall t :: t in e'.threads ==> HasNoHold(e'.threads[t], i)
  {
    BeginForkLoads(w, e, key, sid, tid, n);
  }

  lemma {:induction false} OrphansStayOrphans(w: World, e: Engine, run: seq<Step>, i: Id)
    requires Usual(w) && Inv(w, e) && ValidRun(w, e, run) && (Orphan(e, i) || Lost(e, i))
    ensures
      var e' := After(w, e, run);
      i !in e'.instances && (i in e'.live <==> i in e.live && !Restarts(run))
    decreases |run|
  {
    if run != [] {
      var e1 := Apply(w, e, run[0]);
      StepKeepsInv(w, e, run[0]);
      if run[0].BeginFork? {
        ForkBeginKeepsOrphan(w, e, run[0].key, run[0].sid, run[0].tid, run[0].n, i);
      } else {
        StepKeepsHolds(w, e, run[0], i);
        StepKeepsOrphan(w, e, run[0], i);
      }
      OrphansStayOrphans(w, e1, run[1..], i);
      RestartsSplits(run);
    }
  }

  lemma RestartsSplits(run: seq<Step>)
    requires run != []
    ensures Restarts(run) <==> run[0].Restart? || Restarts(run[1..])
  {
    if Restarts(run[1..]) {
      var k :| 0 <= k < |run[1..]| && run[1..][k].Restart?;
      assert run[k + 1].Restart?;
    }
    if Restarts(run) && !run[0].Restart? {
      var k :| 0 <= k < |run| && run[k].Restart?;
      assert run[1..][k - 1].Restart?;
    }
  }

  lemma AbortOrphans(w: World, e: Engine, tid: Id, i: Id)
    requires Usual(w) && Inv(w, e) && tid in e.threads && e.threads[tid].Forking? && i in e.threads[tid].children
    ensures Orphan(DoAbort(e, tid), i)
  {
    assert ThreadOk(e, e.threads[tid]);
    forall t | t in e.threads && t != tid ensures HasNoHold(e.threads[t], i) {
      assert ThreadsApart(e.threads[t], e.threads[tid]) && ThreadOk(e, e.threads[t]);
    }
  }

  /**
   A fork that fails after it booted some children, before their rows are committed, leaves VMs that
   nobody can list, destroy or be charged for: in every continuation such a child has no row, and it
   runs exactly until the daemon restarts.
   */
  lemma AbortedForksLeaveOrphans(w: World, e: Engine, tid: Id, i: Id, run: seq<Step>)
    requires Usual(w) && Inv(w, e) && tid in e.threads && e.threads[tid].Forking? && i in e.threads[tid].children
    requires ValidRun(w, Apply(w, e, Abort(tid)), run)
    ensures
      var e' := After(w, Apply(w, e, Abort(tid)), run);
      && i !in e'.instances && (forall p :: i !in Charged(e', p))
      && (i in e'.live <==> !Restarts(run))
  {
    StepKeepsInv(w, e, Abort(tid));
    AbortOrphans(w, e, tid, i);
    OrphansStayOrphans(w, Apply(w, e, Abort(tid)), run, i);
  }
}
