/**
 Whole runs of the zero-window fork protocol: any number of guests, snapshots and forks of
 forks, in any order (`snapshot_instance` and `fork_snapshot` in spikes/engine/kladosd.py).

 A wrapped call and a poller tick are one step each here; FineGrained.dfy splits them.
 */
module ForkProtocol {
  import opened Guest

  type Id = nat

  /** `log` is every word any wrapped call has returned so far, in any guest. */
  datatype System = System(
    instances: map<Id, State>, snapshots: map<Id, State>, next: Nonce, log: seq<Word>)

  datatype Step =
    | Boot(i: Id)
    | Wrapped(i: Id, source: Source, count: nat)
    | Poll(i: Id)
    | Deliver(i: Id, m: Message)
    | Take(i: Id, s: Id)
    | Load(s: Id, i: Id)
    | Destroy(i: Id)

  const EMPTY := System(map[], map[], 0, [])

  /** Workload code, the poller included, runs only while the workload is not stopped. */
  predicate Enabled(sys: System, step: Step) {
    match step
    case Boot(i) => i !in sys.instances
    case Wrapped(i, _, _) => i in sys.instances && !sys.instances[i].stopped
    case Poll(i) => i in sys.instances && !sys.instances[i].stopped
    case Deliver(i, _) => i in sys.instances
    case Take(i, s) => i in sys.instances && s !in sys.snapshots
    case Load(s, i) => s in sys.snapshots && i !in sys.instances
    case Destroy(i) => i in sys.instances
  }

  function Apply(sys: System, step: Step): System
    requires Enabled(sys, step)
  {
    match step
    case Boot(i) =>
      sys.(instances := sys.instances[i := Booted(sys.next)], next := sys.next + 2)
    case Wrapped(i, source, count) =>
      var (g, next, ws) := Call(sys.instances[i], source, count, sys.next);
      sys.(instances := sys.instances[i := g], next := next, log := sys.log + ws)
    case Poll(i) =>
      var (g, next) := Check(sys.instances[i], sys.next);
      sys.(instances := sys.instances[i := g], next := next)
    case Deliver(i, m) =>
      sys.(instances := sys.instances[i := Handle(sys.instances[i], m).0])
    case Take(i, s) =>
      sys.(snapshots := sys.snapshots[s := sys.instances[i]])
    case Load(s, i) =>
      sys.(instances := sys.instances[i := sys.snapshots[s]])
    case Destroy(i) =>
      sys.(instances := sys.instances - {i})
  }

  ghost predicate ValidRun(sys: System, run: seq<Step>)
    decreases |run|
  {
    run == [] || (Enabled(sys, run[0]) && ValidRun(Apply(sys, run[0]), run[1..]))
  }

  ghost function After(sys: System, run: seq<Step>): System
    requires ValidRun(sys, run)
    decreases |run|
  {
    if run == [] then sys else After(Apply(sys, run[0]), run[1..])
  }

  /** Every snapshot of the run was taken of a guest whose QUIESCE had succeeded. */
  ghost predicate QuiescedRun(sys: System, run: seq<Step>)
    requires ValidRun(sys, run)
    decreases |run|
  {
    run == [] ||
    ((run[0].Take? ==> sys.instances[run[0].i].stopped) && QuiescedRun(Apply(sys, run[0]), run[1..]))
  }

  ghost predicate Distinct<T>(s: seq<T>) {
    forall i, j :: 0 <= i < j < |s| ==> s[i] != s[j]
  }

  /** Can draw from the state it has now, without reseeding first. */
  predicate Active(g: State) {
    !g.stopped && g.forkgen == g.cached
  }

  /** Loading a copy of this guest cannot hand out the original's words. */
  predicate Harmless(g: State) {
    g.stopped || g.cached != g.forkgen
  }

  ghost predicate WellFormed(g: State, next: Nonce) {
    && g.forkgen.Some? && g.cached.Some? && g.cached.value <= g.forkgen.value
    && (forall source :: g.Of(source).seed.entropy < next)
  }

  ghost predicate Apart(g: State, h: State) {
    forall source :: g.Of(source).seed.entropy != h.Of(source).seed.entropy
  }

  ghost predicate Ahead(g: State, log: seq<Word>) {
    forall k :: 0 <= k < |log| ==>
      var own := g.Of(log[k].source);
      log[k].seed.entropy == own.seed.entropy ==> log[k].position < own.position
  }

  /** What every step keeps: guests that may draw own their seeds and are past every word drawn. */
  ghost predicate Inv(sys: System) {
    && (forall i :: i in sys.instances ==> WellFormed(sys.instances[i], sys.next))
    && (forall s :: s in sys.snapshots ==> WellFormed(sys.snapshots[s], sys.next) && Harmless(sys.snapshots[s]))
    && (forall k :: 0 <= k < |sys.log| ==> sys.log[k].seed.entropy < sys.next)
    && (forall i, j :: i in sys.instances && j in sys.instances && i != j
          && Active(sys.instances[i]) && Active(sys.instances[j])
          ==> Apart(sys.instances[i], sys.instances[j]))
    && (forall i :: i in sys.instances && Active(sys.instances[i]) ==> Ahead(sys.instances[i], sys.log))
    && Distinct(sys.log)
  }

  /** A check leaves a running guest active, on its own state or on entropy nobody has seen. */
  lemma CheckKeepsInv(sys: System, i: Id)
    requires Inv(sys) && i in sys.instances && !sys.instances[i].stopped
    ensures
      var (g, next) := Check(sys.instances[i], sys.next);
      Active(g) && Inv(sys.(instances := sys.instances[i := g], next := next))
  {
  }

  /** A turn of the poller does the same between calls: the guest is up to date, nothing is drawn,
      and if a fork was pending both its generators run on new entropy. */
  lemma PollerCatchesUp(sys: System, i: Id)
    requires Inv(sys) && Enabled(sys, Poll(i))
    ensures
      var g, sys' := sys.instances[i], Apply(sys, Poll(i));
      && i in sys'.instances && Active(sys'.instances[i]) && sys'.log == sys.log
      && (forall source :: if g.cached == g.forkgen then sys'.instances[i].Of(source) == g.Of(source)
                           else sys'.instances[i].Of(source).seed.entropy >= sys.next)
  {
  }

  lemma DrawKeepsInv(sys: System, i: Id, source: Source, count: nat)
    requires Inv(sys) && i in sys.instances && Active(sys.instances[i])
    ensures
      var g := sys.instances[i];
      Inv(sys.(instances := sys.instances[i := Advance(g, source, count)],
               log := sys.log + Words(source, g.Of(source), count)))
  {
    var g := sys.instances[i];
    var ws := Words(source, g.Of(source), count);
    var sys' := sys.(instances := sys.instances[i := Advance(g, source, count)], log := sys.log + ws);
    assert Ahead(g, sys.log);
    var h := Advance(g, source, count);
    assert forall any :: h.Of(any).seed == g.Of(any).seed;
    assert forall k :: 0 <= k < |ws| ==> sys'.log[|sys.log| + k] == ws[k];
    forall a, b | 0 <= a < b < |sys'.log| ensures sys'.log[a] != sys'.log[b] {
      if |sys.log| <= b {
        assert sys'.log[b] == ws[b - |sys.log|];
      }
    }
    forall k | 0 <= k < |sys'.log| ensures sys'.log[k].seed.entropy < sys.next {
      if |sys.log| <= k {
        assert sys'.log[k] == ws[k - |sys.log|];
      }
    }
    forall j | j in sys'.instances && Active(sys'.instances[j]) ensures Ahead(sys'.instances[j], sys'.log) {
      if j != i {
        assert Apart(sys.instances[i], sys.instances[j]);
        assert Ahead(sys.instances[j], sys.log);
        forall k | 0 <= k < |ws| ensures ws[k].seed.entropy != sys.instances[j].Of(source).seed.entropy {
        }
      }
    }
  }

  /** No message makes a guest active: FORKED moves the generation past the cached one. */
  lemma MessageKeepsInv(sys: System, i: Id, m: Message)
    requires Inv(sys) && i in sys.instances
    ensures Inv(Apply(sys, Deliver(i, m)))
  {
    var g := Handle(sys.instances[i], m).0;
    assert forall source :: g.Of(source) == sys.instances[i].Of(source);
    assert Active(g) ==> g == sys.instances[i];
  }

  /** Every step keeps the invariant, provided a snapshot is only taken of a harmless guest. */
  lemma StepKeepsInv(sys: System, step: Step)
    requires Inv(sys) && Enabled(sys, step)
    requires step.Take? ==> Harmless(sys.instances[step.i])
    ensures Inv(Apply(sys, step))
  {
    match step
    case Wrapped(i, source, count) =>
      CheckKeepsInv(sys, i);
      var (g, next) := Check(sys.instances[i], sys.next);
      var mid := sys.(instances := sys.instances[i := g], next := next);
      DrawKeepsInv(mid, i, source, count);
      assert mid.instances[i := Advance(g, source, count)] == sys.instances[i := Advance(g, source, count)];
    case Poll(i) =>
      CheckKeepsInv(sys, i);
    case Deliver(i, m) =>
      MessageKeepsInv(sys, i, m);
    case _ =>
  }

  lemma {:induction false} RunKeepsInv(sys: System, run: seq<Step>)
    requires Inv(sys) && ValidRun(sys, run) && QuiescedRun(sys, run)
    ensures Inv(After(sys, run))
    decreases |run|
  {
    if run != [] {
      StepKeepsInv(sys, run[0]);
      RunKeepsInv(Apply(sys, run[0]), run[1..]);
    }
  }

  /** Global uniqueness: over any fork tree, no wrapped call ever returns a word twice. */
  lemma WordsAreUnique(run: seq<Step>)
    requires ValidRun(EMPTY, run) && QuiescedRun(EMPTY, run)
    ensures Distinct(After(EMPTY, run).log)
  {
    RunKeepsInv(EMPTY, run);
  }

  // ---------------------------------------------------------------- when QUIESCE fails

  /** No continuation that quiesces its own snapshots ever repeats a word. */
  ghost predicate Safe(sys: System) {
    forall run :: ValidRun(sys, run) && QuiescedRun(sys, run) ==> Distinct(After(sys, run).log)
  }

  lemma SomeIdIsUnused(used: set<Id>) returns (unused: Id)
    ensures forall i :: i in used ==> i < unused
  {
    if used == {} {
      unused := 0;
    } else {
      var i :| i in used;
      var rest := SomeIdIsUnused(used - {i});
      unused := if i < rest then rest else i + 1;
      assert forall j :: j in used ==> j == i || j in used - {i};
    }
  }

  /** A copy of a running, up-to-date guest draws the very word the original draws next. */
  lemma CopyRepeatsOriginal(sys: System, i: Id, s: Id)
    requires Inv(sys) && Enabled(sys, Take(i, s)) && !Harmless(sys.instances[i])
    ensures !Safe(Apply(sys, Take(i, s)))
  {
    var start := Apply(sys, Take(i, s));
    var copy := SomeIdIsUnused(sys.instances.Keys);
    var load, first, second := Load(s, copy), Wrapped(copy, Twister, 1), Wrapped(i, Twister, 1);
    var run := [load, first, second];
    var s1 := Apply(start, load);
    var s2 := Apply(s1, first);
    var s3 := Apply(s2, second);
    assert run[1..] == [first, second] && run[1..][1..] == [second] && run[1..][1..][1..] == [];
    assert ValidRun(s3, []) && QuiescedRun(s3, []) && After(s3, []) == s3;
    assert ValidRun(s2, [second]) && QuiescedRun(s2, [second]) && After(s2, [second]) == s3;
    assert ValidRun(s1, run[1..]) && QuiescedRun(s1, run[1..]) && After(s1, run[1..]) == s3;
    assert ValidRun(start, run) && QuiescedRun(start, run) && After(start, run) == s3;
    var n := |sys.log|;
    assert s3.log[n] == s3.log[n + 1];
  }

  /**
   The daemon swallows a failed QUIESCE.  After a snapshot of an arbitrary guest, uniqueness
   survives exactly when the guest was stopped or had not yet caught up with its generation.
   */
  lemma UnquiescedSnapshotIsSafeExactlyWhenHarmless(run: seq<Step>, i: Id, s: Id)
    requires ValidRun(EMPTY, run) && QuiescedRun(EMPTY, run)
    requires Enabled(After(EMPTY, run), Take(i, s))
    ensures
      var sys := After(EMPTY, run);
      Safe(Apply(sys, Take(i, s))) <==> Harmless(sys.instances[i])
  {
    RunKeepsInv(EMPTY, run);
    var sys := After(EMPTY, run);
    var taken := Apply(sys, Take(i, s));
    if Harmless(sys.instances[i]) {
      StepKeepsInv(sys, Take(i, s));
      forall more | ValidRun(taken, more) && QuiescedRun(taken, more) ensures Distinct(After(taken, more).log) {
        RunKeepsInv(taken, more);
      }
    } else {
      CopyRepeatsOriginal(sys, i, s);
    }
  }
}
