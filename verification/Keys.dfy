/** API keys: whom a key opens, and that the one handed out with a new project opens that project
    (spikes/engine/kladosd.py:102-122). */
module Keys {
  import opened Wrappers
  import opened Chunking
  import opened Engine
  import opened NonInterference
  import opened Timeline

  /** Some project row before position `k` holds this hash. */
  ghost predicate HeldBefore(projects: seq<(Id, KeyHash)>, k: nat, h: KeyHash) {
    exists j :: 0 <= j < k && j < |projects| && projects[j].1 == h
  }

  lemma {:induction false} FirstIsTheEarliest(projects: seq<(Id, KeyHash)>, h: KeyHash)
    ensures FirstWithHash(projects, h).None? <==> !HeldBefore(projects, |projects|, h)
    ensures forall k :: 0 <= k < |projects| && projects[k].1 == h && !HeldBefore(projects, k, h) ==>
              FirstWithHash(projects, h) == Some(projects[k].0)
  {
    if projects != [] {
      FirstIsTheEarliest(projects[1..], h);
      if projects[0].1 == h {
        assert HeldBefore(projects, |projects|, h);
        forall k | 0 <= k < |projects| && projects[k].1 == h && !HeldBefore(projects, k, h) ensures k == 0 {
        }
      } else {
        forall k: nat ensures HeldBefore(projects, k + 1, h) <==> HeldBefore(projects[1..], k, h) {
          HeldBehind(projects, k, h);
        }
        forall k | 0 <= k < |projects| && projects[k].1 == h && !HeldBefore(projects, k, h)
          ensures FirstWithHash(projects, h) == Some(projects[k].0)
        {
          assert projects[1..][k - 1] == projects[k] && !HeldBefore(projects[1..], k - 1, h);
        }
      }
    }
  }

  lemma HeldBehind(projects: seq<(Id, KeyHash)>, k: nat, h: KeyHash)
    requires projects != [] && projects[0].1 != h
    ensures HeldBefore(projects, k + 1, h) <==> HeldBefore(projects[1..], k, h)
  {
    if HeldBefore(projects, k + 1, h) {
      var j :| 0 <= j < k + 1 && j < |projects| && projects[j].1 == h;
      assert projects[1..][j - 1].1 == h;
    }
    if HeldBefore(projects[1..], k, h) {
      var j :| 0 <= j < k && j < |projects[1..]| && projects[1..][j].1 == h;
      assert projects[j + 1].1 == h;
    }
  }

  /** A key opens the project whose row was the first with its hash; an empty key opens nothing. */
  lemma KeyOpensTheEarliestRow(w: World, e: Engine, key: ApiKey, k: nat)
    ensures Auth(w, e, key).None? <==> key == "" || !HeldBefore(e.projects, |e.projects|, w.keyHash(key))
    ensures
      var h := w.keyHash(key);
      var earliest := k < |e.projects| && e.projects[k].1 == h && !HeldBefore(e.projects, k, h);
      key != "" && earliest ==> Auth(w, e, key) == Some(e.projects[k].0)
  {
    FirstIsTheEarliest(e.projects, w.keyHash(key));
  }

  lemma NewRowOpens(w: World, e: Engine, key: ApiKey, pid: Id, newKey: ApiKey)
    requires RowsOk(e) && pid !in e.used && Auth(w, e, key).Some?
    ensures Auth(w, DoCreateProject(w, e, key, pid, newKey), newKey) == Some(pid)
       <==> newKey != "" && !HeldBefore(e.projects, |e.projects|, w.keyHash(newKey))
  {
    var h, projects := w.keyHash(newKey), e.projects + [(pid, w.keyHash(newKey))];
    assert DoCreateProject(w, e, key, pid, newKey).projects == projects;
    FirstIsTheEarliest(projects, h);
    assert HeldBefore(projects, |e.projects|, h) <==> HeldBefore(e.projects, |e.projects|, h) by {
      assert forall j :: 0 <= j < |e.projects| ==> projects[j] == e.projects[j];
    }
    assert projects[|e.projects|] == (pid, h);
    if HeldBefore(e.projects, |e.projects|, h) {
      var j :| 0 <= j < |e.projects| && e.projects[j].1 == h;
      var k := Earliest(e.projects, h, j);
      assert projects[k] == e.projects[k];
      assert !HeldBefore(projects, k, h);
      assert FirstWithHash(projects, h) == Some(e.projects[k].0);
    }
  }

  lemma {:induction false} Earliest(projects: seq<(Id, KeyHash)>, h: KeyHash, k0: nat) returns (k: nat)
    requires k0 < |projects| && projects[k0].1 == h
    ensures k < |projects| && projects[k].1 == h && !HeldBefore(projects, k, h)
    decreases k0
  {
    k := k0;
    if HeldBefore(projects, k0, h) {
      var j :| 0 <= j < k0 && j < |projects| && projects[j].1 == h;
      k := Earliest(projects, h, j);
    }
  }

  lemma {:induction false} RunKeepsKeys(w: World, e: Engine, run: seq<Step>, q: Id)
    requires Usable(w.c.mode) && ValidRun(w, e, run) && q in e.used
    ensures SameKeys(e, After(w, e, run), q)
    decreases |run|
  {
    if run != [] {
      var e1 := Apply(w, e, run[0]);
      StepKeepsKeys(w, e, run[0], q);
      StepKeepsUsed(w, e, run[0]);
      RunKeepsKeys(w, e1, run[1..], q);
      forall h ensures FirstWithHash(e.projects, h) == Some(q) <==>
                       FirstWithHash(After(w, e, run).projects, h) == Some(q) {
        assert FirstWithHash(e.projects, h) == Some(q) <==> FirstWithHash(e1.projects, h) == Some(q);
      }
    }
  }

  /**
   The key handed out with a new project opens that project, then and after whatever else happens,
   if and only if it is not empty and no earlier project's key has the same hash.
   */
  lemma NewKeysOpenTheirProject(w: World, e: Engine, key: ApiKey, pid: Id, newKey: ApiKey, run: seq<Step>)
    requires Usable(w.c.mode) && RowsOk(e) && pid !in e.used && Auth(w, e, key).Some?
    requires ValidRun(w, Apply(w, e, Step.CreateProject(key, pid, newKey)), run)
    ensures Auth(w, After(w, Apply(w, e, Step.CreateProject(key, pid, newKey)), run), newKey) == Some(pid)
       <==> newKey != "" && !HeldBefore(e.projects, |e.projects|, w.keyHash(newKey))
  {
    var e1 := Apply(w, e, Step.CreateProject(key, pid, newKey));
    NewRowOpens(w, e, key, pid, newKey);
    RunKeepsKeys(w, e1, run, pid);
    assert FirstWithHash(e1.projects, w.keyHash(newKey)) == Some(pid)
      <==> FirstWithHash(After(w, e1, run).projects, w.keyHash(newKey)) == Some(pid);
  }
}
