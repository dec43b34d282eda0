/**
 The daemon's requests as it runs them, in place (spikes/engine/kladosd.py:276-350, 380-435,
 483-532).  Served alone, each request is a run of the engine's steps; refused, it changes
 nothing.  `threads`, `used`, `order` and `imageOf` are history, kept for the proof.
 */
module Daemon {
  import opened Wrappers
  import opened Chunking
  import opened Store
  import opened ColdTier
  import opened Engine
  import opened EngineLaws
  import opened Labels
  import opened Metering

  datatype Refusal = Unauthorized | Forbidden | Failed  // 401, 403, 500

  lemma {:induction false} OneMoreStep(w: World, e: Engine, run: seq<Step>, step: Step)
    requires Usable(w.c.mode) && ValidRun(w, e, run) && Enabled(After(w, e, run), step)
    ensures ValidRun(w, e, run + [step]) && After(w, e, run + [step]) == Apply(w, After(w, e, run), step)
    decreases |run|
  {
    if run == [] {
      assert run + [step] == [step] && [step][1..] == [];
      assert ValidRun(w, Apply(w, e, step), []);
    } else {
      assert (run + [step])[0] == run[0] && (run + [step])[1..] == run[1..] + [step];
      OneMoreStep(w, Apply(w, e, run[0]), run[1..], step);
    }
  }

  /** `e'` is where `run` leads from `e`. */
  ghost predicate Ran(w: World, e: Engine, run: seq<Step>, e': Engine)
    requires Usable(w.c.mode)
  {
    ValidRun(w, e, run) && After(w, e, run) == e'
  }

  lemma RanOne(w: World, e: Engine, step: Step)
    requires Usable(w.c.mode) && Enabled(e, step)
    ensures Ran(w, e, [step], Apply(w, e, step))
  {
    assert ValidRun(w, e, []);
    assert [] + [step] == [step];
    OneMoreStep(w, e, [], step);
  }

  lemma RanMore(w: World, e: Engine, run: seq<Step>, e1: Engine, step: Step)
    requires Usable(w.c.mode) && Ran(w, e, run, e1) && Enabled(e1, step)
    ensures Ran(w, e, run + [step], Apply(w, e1, step))
  {
    OneMoreStep(w, e, run, step);
  }

  /** A request that takes its steps one after the other. */
  lemma RanTwo(w: World, e: Engine, a: Step, e1: Engine, b: Step, e2: Engine)
    requires Usable(w.c.mode)
    requires Enabled(e, a) && e1 == Apply(w, e, a) && Enabled(e1, b) && e2 == Apply(w, e1, b)
    ensures Ran(w, e, [a, b], e2)
  {
    RanOne(w, e, a);
    RanMore(w, e, [a], e1, b);
    assert [a] + [b] == [a, b];
  }

  lemma RanThree(w: World, e: Engine, a: Step, e1: Engine, b: Step, e2: Engine, c: Step, e3: Engine)
    requires Usable(w.c.mode)
    requires Enabled(e, a) && e1 == Apply(w, e, a) && Enabled(e1, b) && e2 == Apply(w, e1, b)
    requires Enabled(e2, c) && e3 == Apply(w, e2, c)
    ensures Ran(w, e, [a, b, c], e3)
  {
    RanTwo(w, e, a, e1, b, e2);
    RanMore(w, e, [a, b], e2, c);
    assert [a, b] + [c] == [a, b, c];
  }

  lemma RanKeepsInv(w: World, e: Engine, run: seq<Step>, e': Engine)
    requires Usual(w) && Inv(w, e) && Ran(w, e, run, e')
    ensures Inv(w, e')
  {
    RunKeepsInv(w, e, run);
  }

  lemma RunCreated(w: World, e: Engine, key: ApiKey, rid: Id, iid: Id, tid: Id, tag: string, now: int)
    requires Usual(w) && Inv(w, e) && {rid, iid, tid} !! e.used && rid != iid && rid != tid && iid != tid
    requires Auth(w, e, key).Some?
    ensures
      var e' := DoBootVm(DoCreateRun(w, e, key, rid, iid, tid, tag, now), tid);
      Ran(w, e, [Step.CreateRun(key, rid, iid, tid, tag, now), BootVm(tid)], e') && Inv(w, e')
  {
    var begin := Step.CreateRun(key, rid, iid, tid, tag, now);
    var e1 := Apply(w, e, begin);
    RanTwo(w, e, begin, e1, BootVm(tid), Apply(w, e1, BootVm(tid)));
    RanKeepsInv(w, e, [begin, BootVm(tid)], Apply(w, e1, BootVm(tid)));
  }

  function SnapshotSteps(key: ApiKey, iid: Id, tid: Id, sid: Id, tag: string,
                         image: Bytes, vmstate: nat, now: int): seq<Step> {
    [BeginSnapshot(key, iid, tid, sid, tag), ChunkImage(tid, image), CommitSnapshot(tid, vmstate, now)]
  }

  /** The state after a snapshot request that was served alone. */
  function Snapshotted(w: World, e: Engine, key: ApiKey, iid: Id, tid: Id, sid: Id, tag: string,
                       image: Bytes, vmstate: nat, now: int): Engine
    requires Usable(w.c.mode) && Auth(w, e, key).Some? && ProjectOfInstance(e, iid) == Auth(w, e, key) && iid in e.live
  {
    DoCommitSnapshot(DoChunkImage(w, DoBeginSnapshot(w, e, key, iid, tid, sid, tag), tid, image), tid, vmstate, now)
  }

  lemma SnapshotRan(w: World, e: Engine, key: ApiKey, iid: Id, tid: Id, sid: Id, tag: string,
                    image: Bytes, vmstate: nat, now: int)
    requires Usual(w) && Inv(w, e) && tid !in e.used && sid !in e.used && tid != sid
    requires Auth(w, e, key).Some? && ProjectOfInstance(e, iid) == Auth(w, e, key) && iid in e.live
    ensures
      var e' := Snapshotted(w, e, key, iid, tid, sid, tag, image, vmstate, now);
      && Ran(w, e, SnapshotSteps(key, iid, tid, sid, tag, image, vmstate, now), e')
      && Inv(w, e')
  {
    var begin, chunk := BeginSnapshot(key, iid, tid, sid, tag), ChunkImage(tid, image);
    var commit := CommitSnapshot(tid, vmstate, now);
    var e1 := Apply(w, e, begin);
    var e2 := Apply(w, e1, chunk);
    RanThree(w, e, begin, e1, chunk, e2, commit, Apply(w, e2, commit));
    RanKeepsInv(w, e, [begin, chunk, commit], Apply(w, e2, commit));
  }

  /** The tables after a snapshot: its row, its manifest and the instance's pointer are new. */
  ghost predicate RowsSnapshotted(w: World, e: Engine, e': Engine, iid: Id, sid: Id, tag: string,
                                  image: Bytes, vmstate: nat, now: int)
    requires Usable(w.c.mode)
  {
    && iid in e.instances
    && e'.snapshots == e.snapshots[sid :=
         Snapshot(e.instances[iid].run, e.instances[iid].snapshot, tag, |image| + vmstate, now)]
    && e'.instances == e.instances[iid := e.instances[iid].(snapshot := Some(sid))]
    && e'.manifests == e.manifests[sid := Manifest(w.c, ImageBlocks(w.c, image))]
    && e'.live == e.live && e'.runs == e.runs && e'.usage == e.usage && e'.projects == e.projects
  }

  lemma SnapshottedRows(w: World, e: Engine, key: ApiKey, iid: Id, tid: Id, sid: Id, tag: string,
                        image: Bytes, vmstate: nat, now: int)
    requires Usable(w.c.mode) && Auth(w, e, key).Some? && ProjectOfInstance(e, iid) == Auth(w, e, key) && iid in e.live
    ensures RowsSnapshotted(w, e, Snapshotted(w, e, key, iid, tid, sid, tag, image, vmstate, now),
                            iid, sid, tag, image, vmstate, now)
  {
  }

  lemma ForkStartIs(w: World, e: Engine, key: ApiKey, sid: Id, tid: Id, n: int)
    requires Auth(w, e, key).Some? && ProjectOfSnapshot(e, sid) == Auth(w, e, key) && sid in e.manifests
    requires ReadAll(w.c, e.store, e.manifests[sid]).1.Ok?
    ensures
      var (store, r) := ReadAll(w.c, e.store, e.manifests[sid]);
      DoBeginFork(w, e, key, sid, tid, n) == e.(store := store, used := e.used + {tid}, threads := e.threads[tid :=
        Forking(Auth(w, e, key).value, sid, e.snapshots[sid].run, r.value, if n < 0 then 0 else n, map[])])
  {
  }

  /** A fork of an own snapshot starts with its whole image, read back from the chunks. */
  lemma ForkStarts(w: World, e: Engine, key: ApiKey, sid: Id, tid: Id, n: int)
    requires Usual(w) && Inv(w, e) && tid !in e.used
    requires Auth(w, e, key).Some? && ProjectOfSnapshot(e, sid) == Auth(w, e, key)
    ensures sid in e.snapshots && sid in e.manifests
    ensures
      var (store, r) := ReadAll(w.c, e.store, e.manifests[sid]);
      && r.Ok?
      && var e1 := e.(store := store, used := e.used + {tid}, threads := e.threads[tid :=
           Forking(Auth(w, e, key).value, sid, e.snapshots[sid].run, r.value, if n < 0 then 0 else n, map[])]);
      Ran(w, e, [BeginFork(key, sid, tid, n)], e1)
  {
    CommittedImagesReadBack(w, e, sid);
    ForkStartIs(w, e, key, sid, tid, n);
    RanOne(w, e, BeginFork(key, sid, tid, n));
  }

  lemma ForkEnds(w: World, e: Engine, steps: seq<Step>, booted: Engine, tid: Id)
    requires Usual(w) && Inv(w, e) && Ran(w, e, steps, booted)
    requires tid in booted.threads && booted.threads[tid].Forking? && booted.threads[tid].left == 0
    ensures Ran(w, e, steps + [CommitFork(tid)], DoCommitFork(booted, tid)) && Inv(w, DoCommitFork(booted, tid))
  {
    RanMore(w, e, steps, booted, CommitFork(tid));
    RanKeepsInv(w, e, steps + [CommitFork(tid)], DoCommitFork(booted, tid));
  }

  /** The turns of the fork loop: child `k` gets `ids[k]` and answers `branches[k]`. */
  function ChildSteps(tid: Id, ids: seq<Id>, branches: seq<string>, clock: seq<int>, k: nat): seq<Step>
    requires k <= |ids| == |branches| == |clock|
  {
    seq(k, j requires 0 <= j < k => ForkChild(tid, ids[j], branches[j], clock[j]))
  }

  /** What the rows of the children say, given what they answered. */
  function Branches(answers: seq<Option<string>>): seq<string> {
    seq(|answers|, k requires 0 <= k < |answers| => RowBranch(k, |answers|, answers[k]))
  }

  /** The rows the loop has prepared for the first `k` children. */
  function Kids(rid: Id, sid: Id, ids: seq<Id>, answers: seq<Option<string>>, clock: seq<int>, k: nat)
    : map<Id, Instance>
    requires k <= |ids| == |answers| == |clock|
  {
    if k == 0 then map[] else
      Kids(rid, sid, ids, answers, clock, k - 1)
        [ids[k - 1] := Instance(rid, Some(sid), Running, RowBranch(k - 1, |ids|, answers[k - 1]), clock[k - 1])]
  }

  function FirstOf(ids: seq<Id>, k: nat): set<Id>
    requires k <= |ids|
  {
    set i | i in ids[..k]
  }

  lemma FirstOfNext(ids: seq<Id>, k: nat)
    requires k < |ids|
    ensures FirstOf(ids, k + 1) == FirstOf(ids, k) + {ids[k]}
  {
    assert ids[..k + 1] == ids[..k] + [ids[k]];
  }

  /** The row of child `j` of `n`: on the snapshot's run, pointing at it, running, named by its
      number or by what went wrong. */
  predicate IsChildRow(row: Instance, rid: Id, sid: Id, j: nat, n: nat, answer: Option<string>, now: int) {
    && row.run == rid && row.snapshot == Some(sid) && row.status == Running && row.created == now
    && row.branch == match answer
                     case None => "branch " + Decimal(j) + " of " + Decimal(n)
                     case Some(text) => "ERR:" + text
  }

  ghost predicate AreChildren(children: map<Id, Instance>, rid: Id, sid: Id, ids: seq<Id>,
                              answers: seq<Option<string>>, clock: seq<int>)
    requires |ids| == |answers| == |clock|
  {
    && children.Keys == FirstOf(ids, |ids|)
    && forall j :: 0 <= j < |ids| ==>
         ids[j] in children && IsChildRow(children[ids[j]], rid, sid, j, |ids|, answers[j], clock[j])
  }

  /** The tables after a fork: rows for the children, who run, and nothing else. */
  ghost predicate RowsForked(e: Engine, e': Engine, sid: Id, ids: seq<Id>, answers: seq<Option<string>>,
                             clock: seq<int>)
    requires |ids| == |answers| == |clock|
  {
    && sid in e.snapshots
    && (exists children :: AreChildren(children, e.snapshots[sid].run, sid, ids, answers, clock)
          && e'.instances == e.instances + children)
    && e'.live == e.live + FirstOf(ids, |ids|)
    && e'.snapshots == e.snapshots && e'.runs == e.runs && e'.usage == e.usage && e'.projects == e.projects
    && e'.manifests == e.manifests
  }

  lemma {:induction false} KidsHaveTheIds(rid: Id, sid: Id, ids: seq<Id>, answers: seq<Option<string>>,
                                          clock: seq<int>, k: nat)
    requires k <= |ids| == |answers| == |clock|
    ensures Kids(rid, sid, ids, answers, clock, k).Keys == FirstOf(ids, k)
    decreases k
  {
    if k > 0 {
      KidsHaveTheIds(rid, sid, ids, answers, clock, k - 1);
      assert ids[..k] == ids[..k - 1] + [ids[k - 1]];
    }
  }

  lemma {:induction false} KidAt(rid: Id, sid: Id, ids: seq<Id>, answers: seq<Option<string>>, clock: seq<int>,
                                 k: nat, j: nat)
    requires j < k <= |ids| == |answers| == |clock| && AllDistinct(ids)
    ensures
      var kids := Kids(rid, sid, ids, answers, clock, k);
      ids[j] in kids && kids[ids[j]] == Instance(rid, Some(sid), Running, RowBranch(j, |ids|, answers[j]), clock[j])
    decreases k
  {
    if j < k - 1 {
      KidAt(rid, sid, ids, answers, clock, k - 1, j);
    }
  }

  lemma KidsAreChildren(rid: Id, sid: Id, ids: seq<Id>, answers: seq<Option<string>>, clock: seq<int>)
    requires |ids| == |answers| == |clock| && AllDistinct(ids)
    ensures AreChildren(Kids(rid, sid, ids, answers, clock, |ids|), rid, sid, ids, answers, clock)
  {
    KidsHaveTheIds(rid, sid, ids, answers, clock, |ids|);
    var kids := Kids(rid, sid, ids, answers, clock, |ids|);
    forall j | 0 <= j < |ids|
      ensures ids[j] in kids && IsChildRow(kids[ids[j]], rid, sid, j, |ids|, answers[j], clock[j])
    {
      KidAt(rid, sid, ids, answers, clock, |ids|, j);
    }
  }

  lemma ForkedRows(e: Engine, e': Engine, sid: Id, ids: seq<Id>, answers: seq<Option<string>>, clock: seq<int>)
    requires |ids| == |answers| == |clock| && AllDistinct(ids) && sid in e.snapshots
    requires
      var kids := Kids(e.snapshots[sid].run, sid, ids, answers, clock, |ids|);
      e'.instances == e.instances + kids && e'.live == e.live + FirstOf(ids, |ids|)
    requires e'.snapshots == e.snapshots && e'.runs == e.runs && e'.usage == e.usage && e'.projects == e.projects
    requires e'.manifests == e.manifests
    ensures RowsForked(e, e', sid, ids, answers, clock)
  {
    KidsAreChildren(e.snapshots[sid].run, sid, ids, answers, clock);
  }

  lemma RanOneChildMore(w: World, e: Engine, steps: seq<Step>, tid: Id, ids: seq<Id>, branches: seq<string>,
                        clock: seq<int>, k: nat, e1: Engine)
    requires Usable(w.c.mode) && k < |ids| == |branches| == |clock|
    requires Ran(w, e, steps + ChildSteps(tid, ids, branches, clock, k), e1)
    requires tid in e1.threads && e1.threads[tid].Forking? && e1.threads[tid].left > 0 && ids[k] !in e1.used
    ensures Ran(w, e, steps + ChildSteps(tid, ids, branches, clock, k + 1),
                DoForkChild(e1, tid, ids[k], branches[k], clock[k]))
  {
    var step := ForkChild(tid, ids[k], branches[k], clock[k]);
    RanMore(w, e, steps + ChildSteps(tid, ids, branches, clock, k), e1, step);
    assert steps + ChildSteps(tid, ids, branches, clock, k) + [step]
      == steps + ChildSteps(tid, ids, branches, clock, k + 1);
  }

  ghost predicate AllDistinct(ids: seq<Id>) {
    forall i, j :: 0 <= i < j < |ids| ==> ids[i] != ids[j]
  }

  class Daemon {
    const w: World
    const cas: CAS
    var projects: seq<(Id, KeyHash)>
    var runs: map<Id, Run>
    var snapshots: map<Id, Snapshot>
    var instances: map<Id, Instance>
    var usage: map<Id, Usage>
    var live: set<Id>
    var manifests: map<Id, seq<Key>>
    ghost var threads: map<Id, Thread>
    ghost var used: set<Id>
    ghost var order: seq<Id>
    ghost var imageOf: map<Id, Bytes>

    ghost function Now(): Engine
      reads this, cas
    {
      Engine(projects, runs, snapshots, instances, usage, live, threads, cas.Now(), manifests, used, order, imageOf)
    }

    ghost predicate Ready()
      reads this, cas
    {
      cas.c == w.c && Usual(w) && Inv(w, Now())
    }

    /** `init_db` in an empty home. */
    constructor (w: World, cas: CAS, root: Id, rootHash: KeyHash)
      requires Usual(w) && cas.c == w.c && cas.Now() == Restarted(map[], map[])
      ensures Now() == Initial(root, rootHash) && Ready() && this.w == w && this.cas == cas
    {
      this.w, this.cas := w, cas;
      projects := [(root, rootHash)];
      runs, snapshots, instances, usage := map[], map[], map[], map[];
      live, manifests := {}, map[];
      threads, used, order, imageOf := map[], {root}, [], map[];
      new;
      InitialIsSound(w, root, rootHash);
    }

    /** `project_of_key`. */
    method ProjectOfKey(key: ApiKey) returns (pid: Option<Id>)
      ensures pid == Auth(w, Now(), key)
    {
      if key == "" {
        return None;
      }
      var h := w.keyHash(key);
      assert projects[0..] == projects;
      for k := 0 to |projects|
        invariant FirstWithHash(projects[k..], h) == FirstWithHash(projects, h)
      {
        assert projects[k..][0] == projects[k] && projects[k..][1..] == projects[k + 1..];
        if projects[k].1 == h {
          return Some(projects[k].0);
        }
      }
      pid := None;
    }

    /** The key check and `_require_owner`; `owner` is who the row in question belongs to. */
    method Authorize(key: ApiKey, owner: Option<Id>) returns (r: Result<Id, Refusal>)
      ensures
        var pid := Auth(w, Now(), key);
        r == if pid.None? then Err(Unauthorized) else if owner != pid then Err(Forbidden) else Ok(pid.value)
    {
      var pid := ProjectOfKey(key);
      r := if pid.None? then Err(Unauthorized) else if owner != pid then Err(Forbidden) else Ok(pid.value);
    }

    /** `_project_of("instances", ...)`. */
    function OwnerOfInstance(iid: Id): (pid: Option<Id>)
      reads this, cas
      ensures pid == ProjectOfInstance(Now(), iid)
    {
      if iid in instances && instances[iid].run in runs then Some(runs[instances[iid].run].project) else None
    }

    function OwnerOfSnapshot(sid: Id): (pid: Option<Id>)
      reads this, cas
      ensures pid == ProjectOfSnapshot(Now(), sid)
    {
      if sid in snapshots && snapshots[sid].run in runs then Some(runs[snapshots[sid].run].project) else None
    }

    /** Any key may create a project; `newKey` is the random key shown once. */
    method CreateProject(key: ApiKey, pid: Id, newKey: ApiKey) returns (r: Result<Id, Refusal>)
      requires Ready() && pid !in used
      modifies `projects, `used
      ensures Ready() && Ran(w, old(Now()), [Step.CreateProject(key, pid, newKey)], Now())
      ensures r == if Auth(w, old(Now()), key).None? then Err(Unauthorized) else Ok(pid)
      ensures projects == old(projects) + if r.Ok? then [(pid, w.keyHash(newKey))] else []
    {
      ghost var e := Now();
      RanOne(w, e, Step.CreateProject(key, pid, newKey));
      CreateProjectKeepsInv(w, e, key, pid, newKey);
      var caller := ProjectOfKey(key);
      if caller.None? {
        return Err(Unauthorized);
      }
      projects := projects + [(pid, w.keyHash(newKey))];
      used := used + {pid};
      r := Ok(pid);
    }

    method CreateRun(key: ApiKey, rid: Id, iid: Id, ghost tid: Id, tag: string, now: int)
      returns (r: Result<(Id, Id), Refusal>)
      requires Ready() && {rid, iid, tid} !! used && rid != iid && rid != tid && iid != tid
      modifies this
      ensures Ready()
      ensures Auth(w, old(Now()), key).None? ==> r == Err(Unauthorized) && Now() == old(Now())
      ensures Auth(w, old(Now()), key).Some? ==>
                && r == Ok((rid, iid))
                && Ran(w, old(Now()), [Step.CreateRun(key, rid, iid, tid, tag, now), BootVm(tid)], Now())
                && runs == old(runs)[rid := Run(Auth(w, old(Now()), key).value, tag, now)]
                && instances == old(instances)[iid := Instance(rid, None, Running, "genesis", now)]
                && live == old(live) + {iid}
    {
      ghost var e := Now();
      var pid := ProjectOfKey(key);
      if pid.None? {
        return Err(Unauthorized);
      }
      InsertAndBoot(key, pid.value, rid, iid, tid, tag, now);
      RunCreated(w, e, key, rid, iid, tid, tag, now);
      r := Ok((rid, iid));
    }

    /** Rows first, then the VM. */
    method InsertAndBoot(ghost key: ApiKey, pid: Id, rid: Id, iid: Id, ghost tid: Id, tag: string, now: int)
      requires Auth(w, Now(), key) == Some(pid)
      modifies this
      ensures Now() == DoBootVm(DoCreateRun(w, old(Now()), key, rid, iid, tid, tag, now), tid)
    {
      runs := runs[rid := Run(pid, tag, now)];
      instances := instances[iid := Instance(rid, None, Running, "genesis", now)];
      threads := threads[tid := Booting(pid, iid)];
      used := used + {rid, iid, tid};
      live := live + {iid};
      threads := threads - {tid};
    }

    /** `image` and `vmstate` are what pausing and snapshotting the VM leaves on disk. */
    method SnapshotInstance(key: ApiKey, iid: Id, sid: Id, ghost tid: Id, tag: string,
                            image: Bytes, vmstate: nat, now: int)
      returns (r: Result<(Id, nat, Option<Id>), Refusal>)
      requires Ready() && {sid, tid} !! used && sid != tid
      modifies this, cas
      ensures Ready()
      ensures
        var e, pid := old(Now()), Auth(w, old(Now()), key);
        if pid.None? then r == Err(Unauthorized) && Now() == e
        else if ProjectOfInstance(e, iid) != pid then r == Err(Forbidden) && Now() == e
        else if iid !in e.live then r == Err(Failed) && Now() == e
        else
          && r == Ok((sid, |image| + vmstate, e.instances[iid].snapshot))
          && Ran(w, e, SnapshotSteps(key, iid, tid, sid, tag, image, vmstate, now), Now())
          && RowsSnapshotted(w, e, Now(), iid, sid, tag, image, vmstate, now)
    {
      var pid := Authorize(key, OwnerOfInstance(iid));
      if pid.Err? {
        return Err(pid.error);
      }
      if iid !in live {
        return Err(Failed);
      }
      var size, parent := SnapshotOwn(key, pid.value, iid, sid, tid, tag, image, vmstate, now);
      r := Ok((sid, size, parent));
    }

    method SnapshotOwn(ghost key: ApiKey, ghost pid: Id, iid: Id, sid: Id, ghost tid: Id, tag: string,
                       image: Bytes, vmstate: nat, now: int)
      returns (size: nat, parent: Option<Id>)
      requires Ready() && {sid, tid} !! used && sid != tid
      requires Auth(w, Now(), key) == Some(pid) && ProjectOfInstance(Now(), iid) == Some(pid) && iid in live
      modifies this, cas
      ensures Ready() && size == |image| + vmstate && parent == old(instances)[iid].snapshot
      ensures Ran(w, old(Now()), SnapshotSteps(key, iid, tid, sid, tag, image, vmstate, now), Now())
      ensures RowsSnapshotted(w, old(Now()), Now(), iid, sid, tag, image, vmstate, now)
    {
      ghost var e := Now();
      size, parent := TakeSnapshot(key, pid, iid, sid, tid, tag, image, vmstate, now);
      SnapshotRan(w, e, key, iid, tid, sid, tag, image, vmstate, now);
      SnapshottedRows(w, e, key, iid, tid, sid, tag, image, vmstate, now);
    }

    /** From reading run and parent to the commit. */
    method TakeSnapshot(ghost key: ApiKey, ghost pid: Id, iid: Id, sid: Id, ghost tid: Id, tag: string,
                        image: Bytes, vmstate: nat, now: int)
      returns (size: nat, parent: Option<Id>)
      requires cas.c == w.c && Usable(w.c.mode)
      requires Auth(w, Now(), key) == Some(pid) && ProjectOfInstance(Now(), iid) == Some(pid) && iid in live
      modifies this, cas
      ensures size == |image| + vmstate && parent == old(instances)[iid].snapshot
      ensures Now() == Snapshotted(w, old(Now()), key, iid, tid, sid, tag, image, vmstate, now)
    {
      var rid := instances[iid].run;
      parent := instances[iid].snapshot;
      threads := threads[tid := Snapshotting(pid, rid, parent, iid, sid, tag, None)];
      used := used + {tid, sid};
      assert Now() == DoBeginSnapshot(w, old(Now()), key, iid, tid, sid, tag);
      ChunkMem(sid, image, tid);
      size := |image| + vmstate;
      CommitRow(sid, rid, parent, tag, size, iid, image, vmstate, now, tid);
    }

    /** INSERT the snapshot, UPDATE the instance's pointer. */
    method CommitRow(sid: Id, rid: Id, parent: Option<Id>, tag: string, size: nat, iid: Id, ghost image: Bytes,
                     ghost vmstate: nat, now: int, ghost tid: Id)
      requires tid in threads
      requires threads[tid] == Snapshotting(threads[tid].owner, rid, parent, iid, sid, tag, Some(image))
      requires size == |image| + vmstate
      modifies `snapshots, `instances, `imageOf, `order, `threads
      ensures Now() == DoCommitSnapshot(old(Now()), tid, vmstate, now)
    {
      snapshots := snapshots[sid := Snapshot(rid, parent, tag, size, now)];
      if iid in instances {
        instances := instances[iid := instances[iid].(snapshot := Some(sid))];
      }
      imageOf := imageOf[sid := image];
      order := order + [sid];
      threads := threads - {tid};
    }

    /** `_chunk_mem`: chunks, then the manifest. */
    method ChunkMem(sid: Id, image: Bytes, ghost tid: Id)
      requires cas.c == w.c && Usable(w.c.mode)
      requires tid in threads && threads[tid].Snapshotting? && threads[tid].sid == sid
      modifies `manifests, `threads, cas
      ensures Now() == DoChunkImage(w, old(Now()), tid, image)
    {
      var hashes := cas.PutFile(image, BUFFER);
      var flushed := cas.FlushS3(FAULTLESS);
      manifests := manifests[sid := hashes];
      threads := threads[tid := threads[tid].(raw := Some(image))];
    }

    /** `_reconstruct_mem`: the image from its chunks. */
    method ReadImage(hashes: seq<Key>) returns (r: Result<Bytes, Store.Failure>)
      modifies cas`hot
      ensures (cas.Now(), r) == ReadAll(cas.c, old(cas.Now()), hashes)
      ensures cas.c.root && r.Ok? ==>
                (forall h :: h in hashes ==> h in cas.hot) && FromFiles(cas.c, cas.hot, hashes) == r
    {
      if cas.c.root {
        ReadingWarms(cas.c, cas.Now(), hashes);
      }
      var out: Bytes := [];
      ghost var goal := ReadAll(cas.c, cas.Now(), hashes);
      assert hashes[0..] == hashes;
      assert goal.1.Ok? ==> out + goal.1.value == goal.1.value;
      for k := 0 to |hashes|
        invariant Behind(out, ReadAll(cas.c, cas.Now(), hashes[k..])) == goal
      {
        assert hashes[k..][0] == hashes[k] && hashes[k..][1..] == hashes[k + 1..];
        var got := cas.Fetch(hashes[k]);
        if got.Err? {
          return Err(got.error);
        }
        ghost var rest := ReadAll(cas.c, cas.Now(), hashes[k + 1..]);
        assert rest.1.Ok? ==> out + (got.value + rest.1.value) == (out + got.value) + rest.1.value;
        out := out + got.value;
      }
      assert hashes[|hashes|..] == [] && out + [] == out;
      r := Ok(out);
    }

    /** The children's ids, what they answered to FORKED other than READY, and the clock are inputs.
        Such an answer becomes the branch name, so a child that failed is a row like any other. */
    method ForkSnapshot(key: ApiKey, sid: Id, n: int, ids: seq<Id>, answers: seq<Option<string>>, clock: seq<int>,
                        ghost tid: Id)
      returns (r: Result<seq<Id>, Refusal>)
      requires Ready() && tid !in used && |ids| == |answers| == |clock| == (if n < 0 then 0 else n)
      requires AllDistinct(ids) && forall k :: 0 <= k < |ids| ==> ids[k] !in used && ids[k] != tid
      modifies this, cas
      ensures Ready()
      ensures
        var e, pid := old(Now()), Auth(w, old(Now()), key);
        if pid.None? then r == Err(Unauthorized) && Now() == e
        else if ProjectOfSnapshot(e, sid) != pid then r == Err(Forbidden) && Now() == e
        else
          && r == Ok(ids)
          && Ran(w, e, [BeginFork(key, sid, tid, n)] + ChildSteps(tid, ids, Branches(answers), clock, |ids|)
                       + [CommitFork(tid)], Now())
          && RowsForked(e, Now(), sid, ids, answers, clock)
    {
      var pid := Authorize(key, OwnerOfSnapshot(sid));
      if pid.Err? {
        return Err(pid.error);
      }
      ForkOwn(key, pid.value, sid, n, ids, answers, clock, tid);
      r := Ok(ids);
    }

    method ForkOwn(ghost key: ApiKey, ghost pid: Id, sid: Id, ghost n: int, ids: seq<Id>,
                   answers: seq<Option<string>>, clock: seq<int>, ghost tid: Id)
      requires Ready() && tid !in used && |ids| == |answers| == |clock| == (if n < 0 then 0 else n)
      requires AllDistinct(ids) && forall k :: 0 <= k < |ids| ==> ids[k] !in used && ids[k] != tid
      requires Auth(w, Now(), key) == Some(pid) && ProjectOfSnapshot(Now(), sid) == Some(pid)
      modifies this, cas
      ensures Ready() && RowsForked(old(Now()), Now(), sid, ids, answers, clock)
      ensures Ran(w, old(Now()), [BeginFork(key, sid, tid, n)] + ChildSteps(tid, ids, Branches(answers), clock, |ids|)
                                 + [CommitFork(tid)], Now())
    {
      ghost var e, begin := Now(), [BeginFork(key, sid, tid, n)];
      ForkStarts(w, e, key, sid, tid, n);
      ghost var booted := ForkRows(e, begin, pid, sid, ids, answers, clock, tid);
      ForkEnds(w, e, begin + ChildSteps(tid, ids, Branches(answers), clock, |ids|), booted, tid);
    }

    /** From the image to the commit; `booted` is the moment before the commit. */
    method ForkRows(ghost e: Engine, ghost begin: seq<Step>, ghost pid: Id, sid: Id, ids: seq<Id>,
                    answers: seq<Option<string>>, clock: seq<int>, ghost tid: Id)
      returns (ghost booted: Engine)
      requires cas.c == w.c && Usable(w.c.mode) && e == Now() && tid !in used && |ids| == |answers| == |clock|
      requires AllDistinct(ids) && forall k :: 0 <= k < |ids| ==> ids[k] !in used && ids[k] != tid
      requires sid in snapshots && sid in manifests && ReadAll(w.c, cas.Now(), manifests[sid]).1.Ok?
      requires
        var (store, image) := ReadAll(w.c, e.store, e.manifests[sid]);
        Ran(w, e, begin, e.(store := store, used := e.used + {tid}, threads := e.threads[tid :=
          Forking(pid, sid, e.snapshots[sid].run, image.value, |ids|, map[])]))
      modifies this, cas
      ensures Ran(w, e, begin + ChildSteps(tid, ids, Branches(answers), clock, |ids|), booted)
      ensures tid in booted.threads && booted.threads[tid].Forking? && booted.threads[tid].left == 0
      ensures Now() == DoCommitFork(booted, tid) && RowsForked(e, Now(), sid, ids, answers, clock)
    {
      LoadImage(pid, sid, |ids|, tid);
      var children := BootChildren(e, begin, sid, snapshots[sid].run, ids, answers, clock, tid);
      booted := Now();
      CommitRows(children, tid);
      ForkedRows(e, Now(), sid, ids, answers, clock);
    }

    method LoadImage(ghost pid: Id, sid: Id, ghost n: nat, ghost tid: Id)
      requires sid in snapshots && sid in manifests && ReadAll(cas.c, cas.Now(), manifests[sid]).1.Ok?
      modifies cas`hot, `threads, `used
      ensures
        var e, (store, image) := old(Now()), ReadAll(cas.c, old(cas.Now()), manifests[sid]);
        Now() == e.(store := store, used := e.used + {tid}, threads := e.threads[tid :=
          Forking(pid, sid, e.snapshots[sid].run, image.value, n, map[])])
    {
      var image := ReadImage(manifests[sid]);
      threads := threads[tid := Forking(pid, sid, snapshots[sid].run, image.value, n, map[])];
      used := used + {tid};
    }

    method CommitRows(children: map<Id, Instance>, ghost tid: Id)
      requires tid in threads && threads[tid].Forking? && threads[tid].children == children
      modifies `instances, `threads
      ensures Now() == DoCommitFork(old(Now()), tid)
    {
      instances := instances + children;
      threads := threads - {tid};
    }

    method BootChild(children: map<Id, Instance>, iid: Id, sid: Id, rid: Id, branch: string, now: int, ghost tid: Id)
      returns (children': map<Id, Instance>)
      requires tid in threads && threads[tid].Forking? && threads[tid].sid == sid && threads[tid].run == rid
      requires threads[tid].left > 0 && threads[tid].children == children
      modifies `live, `threads, `used
      ensures Now() == DoForkChild(old(Now()), tid, iid, branch, now)
      ensures children' == threads[tid].children
      ensures children' == children[iid := Instance(rid, Some(sid), Running, branch, now)] && live == old(live) + {iid}
    {
      live := live + {iid};
      children' := children[iid := Instance(rid, Some(sid), Running, branch, now)];
      threads := threads[tid := threads[tid].(left := threads[tid].left - 1, children := children')];
      used := used + {iid};
    }

    /** One turn of the loop. */
    method BootNext(ghost e: Engine, ghost steps: seq<Step>, sid: Id, rid: Id, ids: seq<Id>,
                    answers: seq<Option<string>>, clock: seq<int>, k: nat, children: map<Id, Instance>, ghost tid: Id)
      returns (children': map<Id, Instance>)
      requires Usable(w.c.mode) && k < |ids| == |answers| == |clock| && ids[k] !in used
      requires Ran(w, e, steps + ChildSteps(tid, ids, Branches(answers), clock, k), Now())
      requires children == Kids(rid, sid, ids, answers, clock, k)
      requires tid in threads && threads[tid].Forking? && threads[tid].sid == sid && threads[tid].run == rid
      requires threads[tid].left == |ids| - k && threads[tid].children == children
      modifies `live, `threads, `used
      ensures Ran(w, e, steps + ChildSteps(tid, ids, Branches(answers), clock, k + 1), Now())
      ensures children' == Kids(rid, sid, ids, answers, clock, k + 1)
      ensures live == old(live) + {ids[k]} && used == old(used) + {ids[k]}
      ensures tid in threads && threads[tid] == old(threads)[tid].(left := |ids| - k - 1, children := children')
    {
      RanOneChildMore(w, e, steps, tid, ids, Branches(answers), clock, k, Now());
      children' := BootChild(children, ids[k], sid, rid, RowBranch(k, |ids|, answers[k]), clock[k], tid);
    }

    /** The loop: boot a child from the image, tell it that it forked, prepare its row. */
    method BootChildren(ghost e: Engine, ghost steps: seq<Step>, sid: Id, rid: Id, ids: seq<Id>,
                        answers: seq<Option<string>>, clock: seq<int>, ghost tid: Id)
      returns (children: map<Id, Instance>)
      requires Usable(w.c.mode) && Ran(w, e, steps, Now())
      requires |ids| == |answers| == |clock| && AllDistinct(ids) && forall k :: 0 <= k < |ids| ==> ids[k] !in used
      requires tid in threads && threads[tid].Forking? && threads[tid].sid == sid && threads[tid].run == rid
      requires threads[tid].left == |ids| && threads[tid].children == map[]
      modifies `live, `threads, `used
      ensures Ran(w, e, steps + ChildSteps(tid, ids, Branches(answers), clock, |ids|), Now())
      ensures children == Kids(rid, sid, ids, answers, clock, |ids|)
      ensures live == old(live) + FirstOf(ids, |ids|)
      ensures tid in threads && threads[tid] == old(threads)[tid].(left := 0, children := children)
    {
      children := map[];
      assert steps + ChildSteps(tid, ids, Branches(answers), clock, 0) == steps;
      for k := 0 to |ids|
        invariant Ran(w, e, steps + ChildSteps(tid, ids, Branches(answers), clock, k), Now())
        invariant children == Kids(rid, sid, ids, answers, clock, k) && live == old(live) + FirstOf(ids, k)
        invariant tid in threads && threads[tid] == old(threads)[tid].(left := |ids| - k, children := children)
        invariant forall j :: k <= j < |ids| ==> ids[j] !in used
      {
        children := BootNext(e, steps, sid, rid, ids, answers, clock, k, children, tid);
        FirstOfNext(ids, k);
      }
    }

    method Tick(ids: seq<Id>, dt: real)
      requires Ready() && AllDistinct(ids) && forall i :: i in ids <==> i in live  // list(LIVE.keys())
      modifies `usage
      ensures Ready() && Ran(w, old(Now()), [Step.Tick(dt)], Now())
      ensures LedgerTicked(w, old(Now()), dt, usage)
    {
      ghost var e := Now();
      RanOne(w, e, Step.Tick(dt));
      TickKeepsInv(w, e, dt);
      var accr := Accrue(w, runs, instances, ids, dt, e);
      AccrualIsTheTick(w, e, ids, dt, accr);
      usage := UpsertAll(usage, accr);
      TickIsTheLedger(w, e, dt);
    }

    method DestroyInstance(key: ApiKey, iid: Id) returns (r: Result<Id, Refusal>)
      requires Ready()
      modifies this
      ensures Ready()
      ensures Ran(w, old(Now()), [Destroy(key, iid)], Now())
      ensures r == if Auth(w, old(Now()), key).None? then Err(Unauthorized)
                   else if ProjectOfInstance(old(Now()), iid) != Auth(w, old(Now()), key) then Err(Forbidden)
                   else Ok(iid)
      ensures live == if r.Ok? then old(live) - {iid} else old(live)
      ensures instances == if r.Ok? then old(instances)[iid := old(instances)[iid].(status := Destroyed)]
                           else old(instances)
    {
      ghost var e := Now();
      RanOne(w, e, Destroy(key, iid));
      DestroyKeepsInv(w, e, key, iid);
      var pid := Authorize(key, OwnerOfInstance(iid));
      if pid.Err? {
        return Err(pid.error);
      }
      Drop(iid);
      r := Ok(iid);
    }

    method Drop(iid: Id)
      requires iid in instances
      modifies `live, `instances
      ensures live == old(live) - {iid}
      ensures instances == old(instances)[iid := old(instances)[iid].(status := Destroyed)]
    {
      live := live - {iid};
      instances := instances[iid := instances[iid].(status := Destroyed)];
    }
  }
}
