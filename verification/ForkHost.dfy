/**
 The daemon's side of the protocol: `snapshot_instance` and `fork_snapshot` of
 spikes/engine/kladosd.py as the sequences of protocol steps they send.  A guest is a value here:
 what the daemon sees of it is what a snapshot of it holds.
 */
module ForkHost {
  import opened Wrappers
  import opened Guest
  import opened ForkProtocol
  import opened Labels

  datatype Failure = NoLiveInstance | NoSnapshot

  /** QUIESCE (which may not arrive: the exception is swallowed), then pause and snapshot. */
  function SnapshotSteps(i: Id, s: Id, arrives: bool): seq<Step> {
    (if arrives then [Deliver(i, Quiesce)] else []) + [Take(i, s)]
  }

  function ForkMessage(k: nat, n: nat): Message {
    Forked(k, n, Some(BranchLabel(k, n)))
  }

  /** Child `k` is loaded, and then told that it forked; the first `done` children. */
  function ForkSteps(s: Id, children: seq<Id>, arrives: seq<bool>, done: nat): seq<Step>
    requires done <= |children| == |arrives|
    decreases done
  {
    if done == 0 then [] else
      ForkSteps(s, children, arrives, done - 1) + [Load(s, children[done - 1])] +
      (if arrives[done - 1] then [Deliver(children[done - 1], ForkMessage(done - 1, |children|))] else [])
  }

  lemma {:induction false} Continue(sys: System, first: seq<Step>, second: seq<Step>)
    requires ValidRun(sys, first) && ValidRun(After(sys, first), second)
    ensures ValidRun(sys, first + second)
    ensures After(sys, first + second) == After(After(sys, first), second)
    ensures QuiescedRun(sys, first) && QuiescedRun(After(sys, first), second) ==> QuiescedRun(sys, first + second)
    decreases |first|
  {
    if first == [] {
      assert first + second == second;
    } else {
      assert (first + second)[1..] == first[1..] + second;
      Continue(Apply(sys, first[0]), first[1..], second);
    }
  }

  /** One more step at the end of a run. */
  lemma Extend(sys: System, run: seq<Step>, step: Step)
    requires ValidRun(sys, run) && Enabled(After(sys, run), step)
    requires QuiescedRun(sys, run) && !step.Take?
    ensures ValidRun(sys, run + [step]) && QuiescedRun(sys, run + [step])
    ensures After(sys, run + [step]) == Apply(After(sys, run), step)
  {
    var last := After(sys, run);
    assert [step][1..] == [];
    assert ValidRun(Apply(last, step), []);
    assert ValidRun(last, [step]) && After(last, [step]) == Apply(last, step) && QuiescedRun(last, [step]);
    Continue(sys, run, [step]);
  }

  /** What FORKED makes of the image every child was loaded from. */
  function Child(image: State, k: nat, n: nat, arrives: bool): State {
    if arrives then Handle(image, ForkMessage(k, n)).0 else image
  }

  /** A generation file as `_bump_gen` reads it. */
  function Readable(gen: Option<nat>): nat {
    if gen.Some? then gen.value else 0
  }

  /** A child that was told runs on the next generation and knows which branch of how many it is. */
  predicate Knows(child: State, image: State, k: nat, n: nat) {
    && !child.stopped && child.forkgen == Some(Readable(image.forkgen) + 1)
    && child.branch.Some? && child.branch.value.index == k && child.branch.value.n == n
    && child.branch.value.context == "branch " + Decimal(k) + " of " + Decimal(n)
  }

  /** Whoever asks two children which branch they are gets two answers. */
  predicate Tells(a: State, b: State) {
    a.branch.Some? && b.branch.Some? && a.branch != b.branch && a.branch.value.context != b.branch.value.context
  }

  lemma ToldChildrenKnow(image: State, k: nat, n: nat)
    ensures Knows(Child(image, k, n, true), image, k, n)
  {
  }

  lemma KnowingTells(a: State, b: State, image: State, j: nat, k: nat, n: nat)
    requires j != k && Knows(a, image, j, n) && Knows(b, image, k, n)
    ensures Tells(a, b)
  {
    LabelsDiffer(j, k, n);
  }

  class Host {
    var instances: map<Id, State>
    var snapshots: map<Id, State>
    var next: Nonce
    var log: seq<Word>

    function Sys(): System
      reads this
    {
      System(instances, snapshots, next, log)
    }

    constructor ()
      ensures Sys() == EMPTY
    {
      instances, snapshots, next, log := map[], map[], 0, [];
    }

    method SnapshotInstance(i: Id, s: Id, arrives: bool) returns (r: Result<Id, Failure>)
      requires s !in snapshots  // ids are fresh uuids
      modifies this
      ensures i !in old(instances) ==> r == Err(NoLiveInstance) && Sys() == old(Sys())
      ensures i in old(instances) ==>
                && r == Ok(s)
                && ValidRun(old(Sys()), SnapshotSteps(i, s, arrives))
                && Sys() == After(old(Sys()), SnapshotSteps(i, s, arrives))
      ensures i in old(instances) && arrives ==>
                && QuiescedRun(old(Sys()), SnapshotSteps(i, s, arrives))
                && i in instances && s in snapshots
                && instances[i].stopped && snapshots[s] == instances[i]
      ensures i in old(instances) ==>
                && instances == (if arrives then old(instances)[i := old(instances)[i].(stopped := true)]
                                 else old(instances))
                && snapshots == old(snapshots)[s := instances[i]] && log == old(log) && next == old(next)
      ensures old(Inv(Sys())) && (i in old(instances) && !arrives ==> old(Harmless(instances[i]))) ==> Inv(Sys())
    {
      if i !in instances {
        return Err(NoLiveInstance);
      }
      ghost var start := Sys();
      var steps := SnapshotSteps(i, s, arrives);
      if arrives {
        instances := instances[i := Handle(instances[i], Quiesce).0];
      }
      ghost var mid := Sys();
      snapshots := snapshots[s := instances[i]];
      r := Ok(s);

      assert [Take(i, s)][1..] == [] && ValidRun(Sys(), []);
      assert ValidRun(mid, [Take(i, s)]) && Sys() == After(mid, [Take(i, s)]);
      if arrives {
        assert steps[1..] == [Take(i, s)];
        assert mid == Apply(start, steps[0]);
      } else {
        assert steps == [Take(i, s)];
      }
      if Inv(start) && (!arrives ==> Harmless(start.instances[i])) {
        if arrives {
          StepKeepsInv(start, Deliver(i, Quiesce));
        }
        StepKeepsInv(mid, Take(i, s));
      }
    }

    method ForkSnapshot(s: Id, children: seq<Id>, arrives: seq<bool>) returns (r: Result<(), Failure>)
      requires |children| == |arrives|
      requires Distinct(children) && forall k :: 0 <= k < |children| ==> children[k] !in instances  // fresh uuids
      modifies this
      ensures s !in old(snapshots) ==> r == Err(NoSnapshot) && Sys() == old(Sys())
      ensures s in old(snapshots) ==>
                && r == Ok(())
                && ValidRun(old(Sys()), ForkSteps(s, children, arrives, |children|))
                && QuiescedRun(old(Sys()), ForkSteps(s, children, arrives, |children|))
                && Sys() == After(old(Sys()), ForkSteps(s, children, arrives, |children|))
      ensures s in old(snapshots) ==>
                forall k :: 0 <= k < |children| ==>
                  && children[k] in instances
                  && if arrives[k] then Knows(instances[children[k]], old(snapshots)[s], k, |children|)
                     else instances[children[k]] == old(snapshots)[s]
      ensures s in old(snapshots) ==>
                forall j, k :: 0 <= j < k < |children| && arrives[j] && arrives[k] ==>
                  Tells(instances[children[j]], instances[children[k]])
      ensures snapshots == old(snapshots) && log == old(log) && next == old(next)
      ensures forall i :: i in old(instances) ==> i in instances && instances[i] == old(instances)[i]
      ensures old(Inv(Sys())) ==> Inv(Sys())
    {
      if s !in snapshots {
        return Err(NoSnapshot);
      }
      ghost var image, n, start := snapshots[s], |children|, Sys();
      LoadAndTell(s, children, arrives);
      forall k | 0 <= k < n && arrives[k] ensures Knows(instances[children[k]], image, k, n) {
        ToldChildrenKnow(image, k, n);
      }
      forall j, k | 0 <= j < k < n && arrives[j] && arrives[k]
        ensures Tells(instances[children[j]], instances[children[k]])
      {
        KnowingTells(instances[children[j]], instances[children[k]], image, j, k, n);
      }
      if Inv(start) {
        RunKeepsInv(start, ForkSteps(s, children, arrives, n));
      }
      r := Ok(());
    }

    /** The loop. */
    method LoadAndTell(s: Id, children: seq<Id>, arrives: seq<bool>)
      requires s in snapshots && |children| == |arrives|
      requires Distinct(children) && forall k :: 0 <= k < |children| ==> children[k] !in instances
      modifies `instances
      ensures ValidRun(old(Sys()), ForkSteps(s, children, arrives, |children|))
      ensures QuiescedRun(old(Sys()), ForkSteps(s, children, arrives, |children|))
      ensures Sys() == After(old(Sys()), ForkSteps(s, children, arrives, |children|))
      ensures forall k :: 0 <= k < |children| ==>
                && children[k] in instances
                && instances[children[k]] == Child(snapshots[s], k, |children|, arrives[k])
      ensures forall i :: i in old(instances) ==> i in instances && instances[i] == old(instances)[i]
    {
      ghost var start := Sys();
      var n := |children|;
      for k := 0 to n
        invariant ValidRun(start, ForkSteps(s, children, arrives, k))
        invariant QuiescedRun(start, ForkSteps(s, children, arrives, k))
        invariant Sys() == After(start, ForkSteps(s, children, arrives, k))
        invariant forall i :: i in start.instances ==> i in instances && instances[i] == start.instances[i]
        invariant forall j :: k <= j < n ==> children[j] !in instances
        invariant forall j :: 0 <= j < k ==>
                    && children[j] in instances
                    && instances[children[j]] == Child(start.snapshots[s], j, n, arrives[j])
      {
        ghost var steps := ForkSteps(s, children, arrives, k);
        Extend(start, steps, Load(s, children[k]));
        instances := instances[children[k] := snapshots[s]];
        if arrives[k] {
          Extend(start, steps + [Load(s, children[k])], Deliver(children[k], ForkMessage(k, n)));
          instances := instances[children[k] := Handle(instances[children[k]], ForkMessage(k, n)).0];
        } else {
          assert steps + [Load(s, children[k])] + [] == steps + [Load(s, children[k])];
        }
      }
    }
  }

  /**
   Right after the daemon forks a quiesced snapshot, no child can return a word from the
   captured state: it is still stopped, or its very next wrapped call reseeds both generators
   from entropy drawn by that call.
   */
  lemma NoChildDrawsFromTheCapturedState(image: State, k: nat, n: nat, arrives: bool, next: Nonce, source: Source,
                                         count: nat)
    requires WellFormed(image, next) && image.stopped
    ensures
      var child := Child(image, k, n, arrives);
      child.stopped ||
      (var (g, next', ws) := Call(child, source, count, next);
       && next' == next + 2
       && g.cached == g.forkgen
       && (forall w :: w in ws ==> w.seed.entropy >= next && w.seed != image.Of(source).seed))
  {
    var child := Child(image, k, n, arrives);
    if !child.stopped {
      assert image.Of(source).seed.entropy < next;
      var (g, next', ws) := Call(child, source, count, next);
      assert Check(child, next).0.Of(source).seed.entropy >= next;
    }
  }
}
