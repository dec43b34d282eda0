/**
 Metering (spikes/engine/kladosd.py:380-401): every tick charges each live instance that has a
 row to its project, and nothing is charged twice or lost.
 */
module Metering {
  import opened Wrappers
  import opened Chunking
  import opened Engine

  // ---------------------------------------------------------------- `_meter_tick`

  lemma {:induction false} TimesIsProduct(n: nat, x: real)
    ensures Times(n, x) == n as real * x
  {
    if n > 0 {
      TimesIsProduct(n - 1, x);
      assert (n - 1) as real == n as real - 1.0;
    }
  }

  lemma {:induction false} TimesAdds(a: nat, b: nat, x: real)
    ensures Times(a + b, x) == Times(a, x) + Times(b, x)
  {
    if b > 0 {
      TimesAdds(a, b - 1, x);
    }
  }

  /** Of the first `k` ids in `ids`, those charged to `p`. */
  function ChargedAmong(e: Engine, ids: seq<Id>, p: Id): set<Id> {
    set i | i in ids && ProjectOfInstance(e, i) == Some(p)
  }

  lemma ChargedNext(e: Engine, ids: seq<Id>, k: nat, p: Id)
    requires k < |ids| && forall i, j :: 0 <= i < j < |ids| ==> ids[i] != ids[j]
    ensures |ChargedAmong(e, ids[..k + 1], p)|
         == |ChargedAmong(e, ids[..k], p)| + (if ProjectOfInstance(e, ids[k]) == Some(p) then 1 else 0)
  {
    var before, after := ChargedAmong(e, ids[..k], p), ChargedAmong(e, ids[..k + 1], p);
    assert ids[..k + 1] == ids[..k] + [ids[k]];
    assert ids[k] !in ids[..k];
    if ProjectOfInstance(e, ids[k]) == Some(p) {
      assert after == before + {ids[k]};
    } else {
      assert after == before;
    }
  }

  /** What `accr` holds for a project with `n` instances seen so far. */
  function Seconds(w: World, n: nat, dt: real): Usage {
    Accrued(w, Usage(0.0, 0.0), n, dt)
  }

  function Plus(u: Usage, a: Usage): Usage {
    Usage(u.vcpu + a.vcpu, u.ram + a.ram)
  }

  lemma SecondsAdd(w: World, u: Usage, n: nat, dt: real)
    ensures Seconds(w, 0, dt) == Usage(0.0, 0.0)
    ensures Seconds(w, n + 1, dt) == Plus(Seconds(w, n, dt), Usage(dt, Scaled(Gib(w), dt)))
    ensures Plus(u, Seconds(w, n, dt)) == Accrued(w, u, n, dt)
  {
  }

  /** Add to the entry, or make it: `accr.setdefault(p, [0, 0])` and two additions, and the
      INSERT ... ON CONFLICT DO UPDATE on the usage table. */
  function Upsert(usage: map<Id, Usage>, p: Id, a: Usage): map<Id, Usage> {
    usage[p := Plus(UsageOr0(usage, p), a)]
  }

  /** What the second loop leaves, whatever order it takes `accr` in. */
  function Added(usage: map<Id, Usage>, accr: map<Id, Usage>, done: set<Id>): map<Id, Usage>
    requires done <= accr.Keys
  {
    map p | p in usage.Keys + done :: if p in done then Plus(UsageOr0(usage, p), accr[p]) else usage[p]
  }

  ghost predicate Accruing(w: World, e: Engine, ids: seq<Id>, dt: real, accr: map<Id, Usage>) {
    && (forall p :: p in accr <==> ChargedAmong(e, ids, p) != {})
    && (forall p :: p in accr ==> accr[p] == Seconds(w, |ChargedAmong(e, ids, p)|, dt))
  }

  lemma AccrueOne(w: World, e: Engine, ids: seq<Id>, k: nat, dt: real, accr: map<Id, Usage>, p: Id)
    requires k < |ids| && forall i, j :: 0 <= i < j < |ids| ==> ids[i] != ids[j]
    requires Accruing(w, e, ids[..k], dt, accr)
    ensures
      var owner := ProjectOfInstance(e, ids[k]);
      var accr' := if owner.Some? then Upsert(accr, owner.value, Usage(dt, Scaled(Gib(w), dt))) else accr;
      && (p in accr' <==> ChargedAmong(e, ids[..k + 1], p) != {})
      && (p in accr' ==> accr'[p] == Seconds(w, |ChargedAmong(e, ids[..k + 1], p)|, dt))
  {
    var before, after := ChargedAmong(e, ids[..k], p), ChargedAmong(e, ids[..k + 1], p);
    ChargedNext(e, ids, k, p);
    SecondsAdd(w, UsageOr0(accr, p), |before|, dt);
    assert after == {} <==> |after| == 0;
    assert p !in accr ==> before == {};
  }

  /** The first loop: one lookup and two additions per live instance. */
  method Accrue(w: World, runs: map<Id, Run>, instances: map<Id, Instance>, ids: seq<Id>, dt: real, ghost e: Engine)
    returns (accr: map<Id, Usage>)
    requires e.runs == runs && e.instances == instances
    requires forall i, j :: 0 <= i < j < |ids| ==> ids[i] != ids[j]
    ensures Accruing(w, e, ids, dt, accr)
  {
    accr := map[];
    for k := 0 to |ids|
      invariant Accruing(w, e, ids[..k], dt, accr)
    {
      ghost var before := accr;
      if ids[k] in instances && instances[ids[k]].run in runs {
        accr := Upsert(accr, runs[instances[ids[k]].run].project, Usage(dt, Scaled(Gib(w), dt)));
      }
      forall p
        ensures p in accr <==> ChargedAmong(e, ids[..k + 1], p) != {}
        ensures p in accr ==> accr[p] == Seconds(w, |ChargedAmong(e, ids[..k + 1], p)|, dt)
      {
        AccrueOne(w, e, ids, k, dt, before, p);
      }
    }
    assert ids[..|ids|] == ids;
  }

  lemma AddedNext(usage: map<Id, Usage>, accr: map<Id, Usage>, done: set<Id>, p: Id)
    requires done <= accr.Keys && p in accr && p !in done
    ensures Upsert(Added(usage, accr, done), p, accr[p]) == Added(usage, accr, done + {p})
  {
    assert UsageOr0(Added(usage, accr, done), p) == UsageOr0(usage, p);
  }

  lemma AddedNone(usage: map<Id, Usage>, accr: map<Id, Usage>)
    ensures Added(usage, accr, {}) == usage
  {
  }

  /** The second loop. */
  method UpsertAll(usage: map<Id, Usage>, accr: map<Id, Usage>) returns (usage': map<Id, Usage>)
    ensures usage' == Added(usage, accr, accr.Keys)
  {
    AddedNone(usage, accr);
    usage' := usage;
    var todo := accr.Keys;
    ghost var done := {};
    while todo != {}
      invariant todo !! done && todo + done == accr.Keys
      invariant usage' == Added(usage, accr, done)
      decreases todo
    {
      var p :| p in todo;
      AddedNext(usage, accr, done, p);
      usage' := Upsert(usage', p, accr[p]);
      todo, done := todo - {p}, done + {p};
    }
    assert done == accr.Keys;
  }

  /** The two loops together charge what the engine's tick charges. */
  lemma AccrualIsTheTick(w: World, e: Engine, ids: seq<Id>, dt: real, accr: map<Id, Usage>)
    requires forall i :: i in ids <==> i in e.live
    requires Accruing(w, e, ids, dt, accr)
    ensures Added(e.usage, accr, accr.Keys) == DoTick(w, e, dt).usage
  {
    forall p ensures ChargedAmong(e, ids, p) == Charged(e, p) && (p in Payers(e) <==> Charged(e, p) != {}) {
      PayersPay(e, p);
    }
    forall p | p in accr
      ensures Plus(UsageOr0(e.usage, p), accr[p]) == Accrued(w, UsageOr0(e.usage, p), |Charged(e, p)|, dt)
    {
      SecondsAdd(w, UsageOr0(e.usage, p), |Charged(e, p)|, dt);
    }
    forall p | p !in accr ensures Accrued(w, UsageOr0(e.usage, p), |Charged(e, p)|, dt) == UsageOr0(e.usage, p) {
      assert Charged(e, p) == {};
    }
    assert (e.usage.Keys + accr.Keys) == DoTick(w, e, dt).usage.Keys;
  }

  lemma PayersPay(e: Engine, p: Id)
    ensures p in Payers(e) <==> Charged(e, p) != {}
  {
    if i :| i in Charged(e, p) {
      assert ProjectOfInstance(e, i).value in Payers(e);
    }
    if p in Payers(e) {
      var i :| i in e.live && ProjectOfInstance(e, i).Some? && ProjectOfInstance(e, i).value == p;
      assert i in Charged(e, p);
    }
  }

  // ---------------------------------------------------------------- each project's account

  lemma OnlyTicksCharge(w: World, e: Engine, step: Step)
    requires Usable(w.c.mode) && Enabled(e, step) && !step.Tick?
    ensures Apply(w, e, step).usage == e.usage
  {
    if step.BeginFork? {
      BeginForkChargesNothing(w, e, step.key, step.sid, step.tid, step.n);
    }
  }

  lemma BeginForkChargesNothing(w: World, e: Engine, key: ApiKey, sid: Id, tid: Id, n: int)
    ensures DoBeginFork(w, e, key, sid, tid, n).usage == e.usage
  {
  }

  /** Instance-seconds of project `p`: the ticks of a run, each weighted by what `p` had running. */
  ghost function InstanceSeconds(w: World, e: Engine, run: seq<Step>, p: Id): real
    requires Usable(w.c.mode) && ValidRun(w, e, run)
    decreases |run|
  {
    if run == [] then 0.0 else
      (if run[0].Tick? then Times(|Charged(e, p)|, run[0].dt) else 0.0)
      + InstanceSeconds(w, Apply(w, e, run[0]), run[1..], p)
  }

  lemma TickAdds(w: World, e: Engine, dt: real, p: Id)
    ensures UsageOr0(DoTick(w, e, dt).usage, p) == Accrued(w, UsageOr0(e.usage, p), |Charged(e, p)|, dt)
  {
    PayersPay(e, p);
  }

  /** The account of `p` after a tick: the time once per instance it has running, and the image's
      GiB as often. */
  ghost predicate TickedInNumbers(w: World, e: Engine, dt: real, usage: map<Id, Usage>, p: Id) {
    var u, n := UsageOr0(e.usage, p), |Charged(e, p)| as real;
    UsageOr0(usage, p) == Usage(u.vcpu + n * dt, u.ram + n * (w.memMib as real / 1024.0 * dt))
  }

  ghost predicate LedgerTicked(w: World, e: Engine, dt: real, usage: map<Id, Usage>) {
    forall p :: TickedInNumbers(w, e, dt, usage, p)
  }

  lemma TickInNumbers(w: World, e: Engine, dt: real, p: Id)
    ensures TickedInNumbers(w, e, dt, DoTick(w, e, dt).usage, p)
  {
    TickAdds(w, e, dt, p);
    TimesIsProduct(|Charged(e, p)|, dt);
    TimesIsProduct(|Charged(e, p)|, Scaled(Gib(w), dt));
  }

  lemma TickIsTheLedger(w: World, e: Engine, dt: real)
    ensures LedgerTicked(w, e, dt, DoTick(w, e, dt).usage)
  {
    forall p ensures TickedInNumbers(w, e, dt, DoTick(w, e, dt).usage, p) {
      TickInNumbers(w, e, dt, p);
    }
  }

  /** The same with every tick stretched by `g`. */
  ghost function Stretched(w: World, e: Engine, run: seq<Step>, p: Id, g: real): real
    requires Usable(w.c.mode) && ValidRun(w, e, run)
    decreases |run|
  {
    if run == [] then 0.0 else
      (if run[0].Tick? then Times(|Charged(e, p)|, Scaled(g, run[0].dt)) else 0.0)
      + Stretched(w, Apply(w, e, run[0]), run[1..], p, g)
  }

  lemma ScaledAdds(g: real, a: real, b: real)
    ensures Scaled(g, a + b) == Scaled(g, a) + Scaled(g, b) && Scaled(g, 0.0) == 0.0
  {
  }

  lemma {:induction false} TimesStretches(n: nat, g: real, x: real)
    ensures Times(n, Scaled(g, x)) == Scaled(g, Times(n, x))
  {
    ScaledAdds(g, if n > 0 then Times(n - 1, x) else 0.0, x);
    if n > 0 {
      TimesStretches(n - 1, g, x);
    }
  }

  lemma {:induction false} StretchedIsProduct(w: World, e: Engine, run: seq<Step>, p: Id, g: real)
    requires Usable(w.c.mode) && ValidRun(w, e, run)
    ensures Stretched(w, e, run, p, g) == Scaled(g, InstanceSeconds(w, e, run, p))
    decreases |run|
  {
    if run == [] {
      ScaledAdds(g, 0.0, 0.0);
    } else {
      var e' := Apply(w, e, run[0]);
      StretchedIsProduct(w, e', run[1..], p, g);
      var n := |Charged(e, p)|;
      ScaledAdds(g, if run[0].Tick? then Times(n, run[0].dt) else 0.0, InstanceSeconds(w, e', run[1..], p));
      if run[0].Tick? {
        TimesStretches(n, g, run[0].dt);
      }
    }
  }

  lemma {:induction false} AccountsGrow(w: World, e: Engine, run: seq<Step>, p: Id)
    requires Usable(w.c.mode) && ValidRun(w, e, run)
    ensures
      var u, u' := UsageOr0(e.usage, p), UsageOr0(After(w, e, run).usage, p);
      u'.vcpu == u.vcpu + InstanceSeconds(w, e, run, p) && u'.ram == u.ram + Stretched(w, e, run, p, Gib(w))
    decreases |run|
  {
    if run != [] {
      AccountsGrow(w, Apply(w, e, run[0]), run[1..], p);
      if run[0].Tick? {
        TickAdds(w, e, run[0].dt, p);
      } else {
        OnlyTicksCharge(w, e, run[0]);
      }
    }
  }

  /** Over any run from an empty ledger, a project's CPU account is its instance-seconds, and its
      memory account is the image's size times that. */
  lemma AccountsAreExact(w: World, root: Id, rootHash: KeyHash, run: seq<Step>, p: Id)
    requires Usable(w.c.mode) && ValidRun(w, Initial(root, rootHash), run)
    ensures
      var e := Initial(root, rootHash);
      var u := UsageOr0(After(w, e, run).usage, p);
      u.vcpu == InstanceSeconds(w, e, run, p) && u.ram == w.memMib as real / 1024.0 * u.vcpu
  {
    var e := Initial(root, rootHash);
    AccountsGrow(w, e, run, p);
    StretchedIsProduct(w, e, run, p, Gib(w));
  }

  // ---------------------------------------------------------------- all accounts together

  ghost function TotalVcpu(usage: map<Id, Usage>): real
    decreases |usage|
  {
    if usage == map[] then 0.0 else
      var p :| p in usage;
      usage[p].vcpu + TotalVcpu(usage - {p})
  }

  lemma {:induction false} TotalPick(usage: map<Id, Usage>, p: Id)
    requires p in usage
    ensures TotalVcpu(usage) == usage[p].vcpu + TotalVcpu(usage - {p})
    decreases |usage|
  {
    var q :| q in usage && TotalVcpu(usage) == usage[q].vcpu + TotalVcpu(usage - {q});
    if q != p {
      TotalPick(usage - {q}, p);
      TotalPick(usage - {p}, q);
      assert usage - {q} - {p} == usage - {p} - {q};
    }
  }

  /** Live instances that some project pays for. */
  function Billable(e: Engine, projects: set<Id>): set<Id> {
    set i | i in e.live && ProjectOfInstance(e, i).Some? && ProjectOfInstance(e, i).value in projects
  }

  /** The accounts of `projects` as they stand, and as a tick leaves them. */
  ghost function Standing(e: Engine, projects: set<Id>): map<Id, Usage> {
    map p | p in projects :: UsageOr0(e.usage, p)
  }

  ghost function Ticked(w: World, e: Engine, dt: real, projects: set<Id>): map<Id, Usage> {
    map p | p in projects :: Accrued(w, UsageOr0(e.usage, p), |Charged(e, p)|, dt)
  }

  lemma BillableSplits(e: Engine, projects: set<Id>, p: Id)
    requires p in projects
    ensures |Billable(e, projects)| == |Billable(e, projects - {p})| + |Charged(e, p)|
  {
    var rest, own := Billable(e, projects - {p}), Charged(e, p);
    assert Billable(e, projects) == rest + own && rest !! own;
  }

  lemma TickedPick(w: World, e: Engine, dt: real, projects: set<Id>, p: Id)
    requires p in projects
    ensures TotalVcpu(Ticked(w, e, dt, projects))
         == UsageOr0(e.usage, p).vcpu + Times(|Charged(e, p)|, dt) + TotalVcpu(Ticked(w, e, dt, projects - {p}))
  {
    TotalPick(Ticked(w, e, dt, projects), p);
    assert Ticked(w, e, dt, projects) - {p} == Ticked(w, e, dt, projects - {p});
  }

  lemma StandingPick(e: Engine, projects: set<Id>, p: Id)
    requires p in projects
    ensures TotalVcpu(Standing(e, projects)) == UsageOr0(e.usage, p).vcpu + TotalVcpu(Standing(e, projects - {p}))
  {
    TotalPick(Standing(e, projects), p);
    assert Standing(e, projects) - {p} == Standing(e, projects - {p});
  }

  lemma {:induction false} TickedTotal(w: World, e: Engine, dt: real, projects: set<Id>)
    ensures TotalVcpu(Ticked(w, e, dt, projects))
         == TotalVcpu(Standing(e, projects)) + Times(|Billable(e, projects)|, dt)
    decreases |projects|
  {
    if projects == {} {
      assert Billable(e, projects) == {};
      assert Ticked(w, e, dt, projects) == map[] && Standing(e, projects) == map[];
    } else {
      var p :| p in projects;
      TickedTotal(w, e, dt, projects - {p});
      TickedGrows(w, e, dt, projects, p);
    }
  }

  lemma TickedGrows(w: World, e: Engine, dt: real, projects: set<Id>, p: Id)
    requires p in projects
    requires TotalVcpu(Ticked(w, e, dt, projects - {p}))
          == TotalVcpu(Standing(e, projects - {p})) + Times(|Billable(e, projects - {p})|, dt)
    ensures TotalVcpu(Ticked(w, e, dt, projects))
         == TotalVcpu(Standing(e, projects)) + Times(|Billable(e, projects)|, dt)
  {
    TickedPick(w, e, dt, projects, p);
    StandingPick(e, projects, p);
    BillableSplits(e, projects, p);
    TimesAdds(|Billable(e, projects - {p})|, |Charged(e, p)|, dt);
  }

  /** Accounts that do not exist yet stand at nothing. */
  lemma {:induction false} EmptyAccounts(e: Engine, projects: set<Id>)
    requires e.usage.Keys <= projects
    ensures TotalVcpu(Standing(e, projects)) == TotalVcpu(e.usage)
    decreases |projects|
  {
    if projects == e.usage.Keys {
      StandingOfAll(e);
    } else {
      var p :| p in projects && p !in e.usage.Keys;
      EmptyAccount(e, projects, p);
      EmptyAccounts(e, projects - {p});
    }
  }

  lemma StandingOfAll(e: Engine)
    ensures Standing(e, e.usage.Keys) == e.usage
  {
  }

  lemma EmptyAccount(e: Engine, projects: set<Id>, p: Id)
    requires p in projects && p !in e.usage
    ensures TotalVcpu(Standing(e, projects)) == TotalVcpu(Standing(e, projects - {p}))
  {
    StandingPick(e, projects, p);
  }

  /** Every live instance with a row: what the machine as a whole is running. */
  function AllBillable(e: Engine): set<Id> {
    set i | i in e.live && ProjectOfInstance(e, i).Some?
  }

  lemma TickConserves(w: World, e: Engine, dt: real)
    ensures TotalVcpu(DoTick(w, e, dt).usage) == TotalVcpu(e.usage) + Times(|AllBillable(e)|, dt)
  {
    var projects := e.usage.Keys + Payers(e);
    TickedTotal(w, e, dt, projects);
    EmptyAccounts(e, projects);
    assert DoTick(w, e, dt).usage == Ticked(w, e, dt, projects);
    assert Billable(e, projects) == AllBillable(e) by {
      forall i | i in AllBillable(e) ensures i in Billable(e, projects) {
        assert ProjectOfInstance(e, i).value in Payers(e);
      }
    }
  }

  ghost function MachineSeconds(w: World, e: Engine, run: seq<Step>): real
    requires Usable(w.c.mode) && ValidRun(w, e, run)
    decreases |run|
  {
    if run == [] then 0.0 else
      (if run[0].Tick? then Times(|AllBillable(e)|, run[0].dt) else 0.0)
      + MachineSeconds(w, Apply(w, e, run[0]), run[1..])
  }

  /** Over any run, all accounts together grow by exactly what the machine ran. */
  lemma {:induction false} NothingIsLost(w: World, e: Engine, run: seq<Step>)
    requires Usable(w.c.mode) && ValidRun(w, e, run)
    ensures TotalVcpu(After(w, e, run).usage) == TotalVcpu(e.usage) + MachineSeconds(w, e, run)
    decreases |run|
  {
    if run != [] {
      NothingIsLost(w, Apply(w, e, run[0]), run[1..]);
      if run[0].Tick? {
        TickConserves(w, e, run[0].dt);
      } else {
        OnlyTicksCharge(w, e, run[0]);
      }
    }
  }
}
