/**
 The same hook with its calls taken apart: a wrapped call is "read the generation, compare,
 fetch entropy, plant it, fetch entropy, mix it into OpenSSL, store the generation, draw", the
 backup poller runs the same check on its own thread, and SIGSTOP may land between any two of
 these (spikes/guest/sitecustomize.py:38-56, 73-76).
 */
module FineGrained {
  import opened Wrappers
  import opened Guest

  /** Where a thread is inside `_maybe_reseed`, with the generation it read.  `mine` says that
      held entropy was fetched since this guest was last captured. */
  datatype Pc =
    | Idle
    | Compare(seen: Option<nat>)
    | Fetch(seen: Option<nat>)
    | Plant(seen: Option<nat>, entropy: Nonce, mine: bool)
    | Stir(seen: Option<nat>)
    | Mix(seen: Option<nat>, entropy: Nonce, mine: bool)
    | Store(seen: Option<nat>)
    | Draw

  /** A guest, its two threads, and what the proof tracks about it since its last capture. */
  datatype Local = Local(
    g: State, work: Pc, source: Source, count: nat, poll: Pc,
    ownTwister: bool,    // this generator runs on entropy fetched by this guest since the capture
    ownOpenssl: bool,
    base: nat,           // the generation at the capture
    since: Nonce,        // the first nonce not yet drawn at the capture
    inFlight: bool,      // the call that was open at the capture has not drawn yet
    stale: nat)          // calls since the capture that drew from a captured state
  {
    predicate Owns(source: Source) {
      match source
      case Twister => ownTwister
      case OpenSsl => ownOpenssl
    }
  }

  datatype Micro = WorkBegin(source: Source, count: nat) | WorkStep | PollBegin | PollStep | Stop | Release

  /** One step of `_maybe_reseed`; a finished check is back at Idle. */
  function CheckStep(l: Local, pc: Pc, next: Nonce): (Local, Pc, Nonce)
    requires !pc.Idle? && !pc.Draw?
  {
    match pc
    case Compare(seen) =>
      if seen.Some? && seen != l.g.cached
      then (l, if l.g.cached.Some? then Fetch(seen) else Store(seen), next)
      else (l, Idle, next)
    case Fetch(seen) => (l, Plant(seen, next, true), next + 1)
    case Plant(seen, entropy, mine) =>
      (l.(g := l.g.(twister := Stream(Planted(entropy), 0)), ownTwister := mine), Stir(seen), next)
    case Stir(seen) => (l, Mix(seen, next, true), next + 1)
    case Mix(seen, entropy, mine) =>
      (l.(g := l.g.(openssl := Stream(Stirred(l.g.openssl, entropy), 0)), ownOpenssl := l.ownOpenssl || mine),
       Store(seen), next)
    case Store(seen) => (l.(g := l.g.(cached := seen)), Idle, next)
  }

  predicate CanStep(l: Local, m: Micro) {
    match m
    case WorkBegin(_, _) => !l.g.stopped && l.work.Idle?
    case WorkStep => !l.g.stopped && !l.work.Idle?
    case PollBegin => !l.g.stopped && l.poll.Idle?
    case PollStep => !l.g.stopped && !l.poll.Idle? && !l.poll.Draw?
    case Stop => true
    case Release => l.g.stopped
  }

  function DrawStep(l: Local): Local {
    l.(g := Advance(l.g, l.source, l.count), work := Idle, inFlight := false,
       stale := if l.Owns(l.source) then l.stale else l.stale + 1)
  }

  /** A micro-step: the guest afterwards, the next nonce, and the words it returned. */
  function MicroStep(l: Local, m: Micro, next: Nonce): (Local, Nonce, seq<Word>)
    requires CanStep(l, m)
  {
    match m
    case WorkBegin(source, count) =>
      (l.(work := Compare(l.g.forkgen), source := source, count := count), next, [])
    case WorkStep =>
      if l.work.Draw?
      then (DrawStep(l), next, Words(l.source, l.g.Of(l.source), l.count))
      else
        var (l', pc, next') := CheckStep(l, l.work, next);
        (l'.(work := if pc.Idle? then Draw else pc), next', [])
    case PollBegin => (l.(poll := Compare(l.g.forkgen)), next, [])
    case PollStep =>
      var (l', pc, next') := CheckStep(l, l.poll, next);
      (l'.(poll := pc), next', [])
    case Stop => (l.(g := Handle(l.g, Quiesce).0), next, [])
    case Release => (l.(g := Handle(l.g, Forked(0, 0, None)).0), next, [])
  }

  /** Entropy a thread holds at a capture is no longer its guest's own. */
  function Captured(pc: Pc): Pc {
    if pc.Plant? || pc.Mix? then pc.(mine := false) else pc
  }

  /** What taking a snapshot does to the bookkeeping, of the guest and of the image alike. */
  function Capture(l: Local, next: Nonce): Local {
    l.(ownTwister := false, ownOpenssl := false, inFlight := !l.work.Idle?, stale := 0,
       base := if l.g.forkgen.Some? then l.g.forkgen.value else 0, since := next,
       work := Captured(l.work), poll := Captured(l.poll))
  }

  function BootedLocal(next: Nonce): Local {
    Local(Booted(next), Idle, Twister, 0, Idle, true, true, 0, next, false, 0)
  }

  /** A thread that has read entropy for `random.seed` and not yet planted it.  Entropy read for
      `RAND_add` does not matter: it is mixed into the state there is, which stays the guest's own
      if it was. */
  predicate HoldsEntropy(l: Local) {
    l.work.Plant? || l.poll.Plant?
  }

  // ---------------------------------------------------------------- one guest

  ghost predicate Seen(pc: Pc, l: Local) {
    l.g.forkgen.Some? && (!pc.Idle? && !pc.Draw? ==> pc.seen.Some? && pc.seen.value <= l.g.forkgen.value)
  }

  ghost predicate Fresh(pc: Pc, l: Local) {
    && (pc.Plant? ==> pc.mine)
    && (pc.Stir? && pc.seen.Some? && pc.seen.value > l.base ==> l.ownTwister)
    && (pc.Mix? && pc.seen.Some? && pc.seen.value > l.base ==> l.ownTwister && pc.mine)
    && (pc.Store? && pc.seen.Some? && pc.seen.value > l.base ==> l.ownTwister && l.ownOpenssl)
  }

  /** Kept by every micro-step: a check that began after the release leaves nothing captured. */
  ghost predicate LocalInv(l: Local) {
    && l.g.forkgen.Some? && l.g.cached.Some? && l.g.cached.value <= l.g.forkgen.value
    && l.base <= l.g.forkgen.value
    && Seen(l.work, l) && Seen(l.poll, l) && Fresh(l.work, l) && Fresh(l.poll, l) && !l.poll.Draw?
    && (!l.g.stopped ==> l.g.forkgen.value > l.base || (l.ownTwister && l.ownOpenssl))
    && (l.g.cached.value > l.base ==> l.ownTwister && l.ownOpenssl)
    && (!l.work.Idle? && !l.work.Draw? && !l.inFlight ==>
          l.work.seen.value > l.base || (l.ownTwister && l.ownOpenssl))
    && (l.work.Draw? ==> l.inFlight || (l.ownTwister && l.ownOpenssl))
    && (l.inFlight ==> !l.work.Idle?)
    && l.stale + (if l.inFlight then 1 else 0) <= 1
  }

  lemma WorkStepKeepsLocalInv(l: Local, next: Nonce)
    requires LocalInv(l) && CanStep(l, WorkStep)
    ensures LocalInv(MicroStep(l, WorkStep, next).0)
  {
    match l.work
    case Compare(_) =>
    case Fetch(_) =>
    case Plant(_, _, _) =>
    case Stir(_) =>
    case Mix(_, _, _) =>
    case Store(_) =>
    case Draw =>
  }

  lemma PollStepKeepsLocalInv(l: Local, next: Nonce)
    requires LocalInv(l) && CanStep(l, PollStep)
    ensures LocalInv(MicroStep(l, PollStep, next).0)
  {
    match l.poll
    case Compare(_) =>
    case Fetch(_) =>
    case Plant(_, _, _) =>
    case Stir(_) =>
    case Mix(_, _, _) =>
    case Store(_) =>
  }

  lemma MicroStepKeepsLocalInv(l: Local, m: Micro, next: Nonce)
    requires LocalInv(l) && CanStep(l, m)
    ensures LocalInv(MicroStep(l, m, next).0)
  {
    match m
    case WorkStep => WorkStepKeepsLocalInv(l, next);
    case PollStep => PollStepKeepsLocalInv(l, next);
    case _ =>
  }

  lemma CaptureKeepsLocalInv(l: Local, next: Nonce)
    requires LocalInv(l) && l.g.stopped && !HoldsEntropy(l)
    ensures LocalInv(Capture(l, next))
  {
  }

  ghost predicate CanRun(l: Local, ms: seq<Micro>, next: Nonce)
    decreases |ms|
  {
    ms == [] || (CanStep(l, ms[0]) && CanRun(MicroStep(l, ms[0], next).0, ms[1..], MicroStep(l, ms[0], next).1))
  }

  ghost function RunLocal(l: Local, ms: seq<Micro>, next: Nonce): (Local, Nonce, seq<Word>)
    requires CanRun(l, ms, next)
    decreases |ms|
  {
    if ms == [] then (l, next, []) else
      var (l1, next1, ws1) := MicroStep(l, ms[0], next);
      var (l2, next2, ws2) := RunLocal(l1, ms[1..], next1);
      (l2, next2, ws1 + ws2)
  }

  lemma {:induction false} RunKeepsLocalInv(l: Local, ms: seq<Micro>, next: Nonce)
    requires LocalInv(l) && CanRun(l, ms, next)
    ensures LocalInv(RunLocal(l, ms, next).0)
    decreases |ms|
  {
    if ms != [] {
      MicroStepKeepsLocalInv(l, ms[0], next);
      RunKeepsLocalInv(MicroStep(l, ms[0], next).0, ms[1..], MicroStep(l, ms[0], next).1);
    }
  }

  // ---------------------------------------------------------------- uninterrupted calls

  lemma Prepend(l: Local, m: Micro, ms: seq<Micro>, next: Nonce)
    requires CanStep(l, m) && CanRun(MicroStep(l, m, next).0, ms, MicroStep(l, m, next).1)
    ensures CanRun(l, [m] + ms, next)
    ensures
      var (l1, next1, ws1) := MicroStep(l, m, next);
      var (l2, next2, ws2) := RunLocal(l1, ms, next1);
      RunLocal(l, [m] + ms, next) == (l2, next2, ws1 + ws2)
  {
    assert ([m] + ms)[1..] == ms;
  }

  function Rank(pc: Pc): nat {
    match pc
    case Idle => 0
    case Draw => 1
    case Store(_) => 2
    case Mix(_, _, _) => 3
    case Stir(_) => 4
    case Plant(_, _, _) => 5
    case Fetch(_) => 6
    case Compare(_) => 7
  }

  /** The workload runs to the end of its call while the poller stays where it is. */
  function FinishWork(l: Local, next: Nonce): (Local, Nonce, seq<Word>)
    requires !l.g.stopped
    decreases Rank(l.work)
  {
    if l.work.Idle? then (l, next, []) else
      var (l1, next1, ws1) := MicroStep(l, WorkStep, next);
      var (l2, next2, ws2) := FinishWork(l1, next1);
      (l2, next2, ws1 + ws2)
  }

  lemma {:induction false} WorkCanFinish(l: Local, next: Nonce) returns (ms: seq<Micro>)
    requires !l.g.stopped
    ensures CanRun(l, ms, next) && RunLocal(l, ms, next) == FinishWork(l, next)
    decreases Rank(l.work)
  {
    if l.work.Idle? {
      ms := [];
    } else {
      var (l1, next1, _) := MicroStep(l, WorkStep, next);
      ms := WorkCanFinish(l1, next1);
      Prepend(l, WorkStep, ms, next);
      ms := [WorkStep] + ms;
    }
  }

  lemma FinishedDraw(l: Local, next: Nonce)
    requires !l.g.stopped && l.work.Draw?
    ensures FinishWork(l, next) == (DrawStep(l), next, Words(l.source, l.g.Of(l.source), l.count))
  {
    var ws := Words(l.source, l.g.Of(l.source), l.count);
    assert FinishWork(DrawStep(l), next) == (DrawStep(l), next, []);
    assert ws + [] == ws;
  }

  /** A check whose comparison asks for a reseed runs through fetch, plant, fetch, mix and store. */
  lemma FinishedFetch(l: Local, next: Nonce)
    requires !l.g.stopped && l.work.Fetch?
    ensures
      var g := Reseed(l.g, next).(cached := l.work.seen);
      var d := l.(g := g, work := Draw, ownTwister := true, ownOpenssl := true);
      FinishWork(l, next) == (DrawStep(d), next + 2, Words(l.source, g.Of(l.source), l.count))
  {
    var seen := l.work.seen;
    var l1 := MicroStep(l, WorkStep, next).0;
    var l2 := MicroStep(l1, WorkStep, next + 1).0;
    var l3 := MicroStep(l2, WorkStep, next + 1).0;
    var l4 := MicroStep(l3, WorkStep, next + 2).0;
    var l5 := MicroStep(l4, WorkStep, next + 2).0;
    var ws := Words(l.source, l5.g.Of(l.source), l.count);
    FinishedDraw(l5, next + 2);
    assert [] + ws == ws;
    assert FinishWork(l4, next + 2) == (DrawStep(l5), next + 2, ws);
    assert FinishWork(l3, next + 2) == (DrawStep(l5), next + 2, ws);
    assert FinishWork(l2, next + 1) == (DrawStep(l5), next + 2, ws);
    assert FinishWork(l1, next + 1) == (DrawStep(l5), next + 2, ws);
  }

  /** A wrapped call nothing interrupts is the one-step call of ForkProtocol. */
  lemma UninterruptedCallIsCall(l: Local, source: Source, count: nat, next: Nonce) returns (ms: seq<Micro>)
    requires !l.g.stopped && l.work.Idle?
    ensures CanRun(l, ms, next)
    ensures
      var (l', next', ws) := RunLocal(l, ms, next);
      (l'.g, next', ws) == Call(l.g, source, count, next) && l'.work.Idle? && l'.poll == l.poll
  {
    var l1 := MicroStep(l, WorkBegin(source, count), next).0;
    var l2 := MicroStep(l1, WorkStep, next).0;
    if l2.work.Fetch? {
      FinishedFetch(l2, next);
    } else {
      if l2.work.Store? {
        FinishedDraw(MicroStep(l2, WorkStep, next).0, next);
      } else {
        FinishedDraw(l2, next);
      }
    }
    var call := Call(l.g, source, count, next);
    assert [] + call.2 == call.2;
    ms := WorkCanFinish(l1, next);
    Prepend(l, WorkBegin(source, count), ms, next);
    ms := [WorkBegin(source, count)] + ms;
  }

  /** A turn of the poller that nothing interrupts is the one-step check. */
  lemma UninterruptedTurnIsCheck(l: Local, next: Nonce) returns (ms: seq<Micro>)
    requires !l.g.stopped && l.poll.Idle?
    ensures CanRun(l, ms, next)
    ensures
      var (l', next', ws) := RunLocal(l, ms, next);
      (l'.g, next') == Check(l.g, next) && ws == [] && l'.poll.Idle? && l'.work == l.work
  {
    var l1 := MicroStep(l, PollBegin, next).0;
    ms := PollCanFinish(l1, next);
    FinishedPoll(l1, next);
    Prepend(l, PollBegin, ms, next);
    ms := [PollBegin] + ms;
  }

  /** The poller runs to the end of its check while the workload stays where it is. */
  function FinishPoll(l: Local, next: Nonce): (Local, Nonce)
    requires !l.g.stopped && !l.poll.Draw?
    decreases Rank(l.poll)
  {
    if l.poll.Idle? then (l, next) else
      var (l1, next1, _) := MicroStep(l, PollStep, next);
      FinishPoll(l1, next1)
  }

  lemma {:induction false} PollCanFinish(l: Local, next: Nonce) returns (ms: seq<Micro>)
    requires !l.g.stopped && !l.poll.Draw?
    ensures CanRun(l, ms, next) && RunLocal(l, ms, next) == (FinishPoll(l, next).0, FinishPoll(l, next).1, [])
    decreases Rank(l.poll)
  {
    ms := [];
    if !l.poll.Idle? {
      var (l1, next1, _) := MicroStep(l, PollStep, next);
      ms := PollCanFinish(l1, next1);
      Prepend(l, PollStep, ms, next);
      var (_, _, ws) := RunLocal(l1, ms, next1);
      assert MicroStep(l, PollStep, next).2 + ws == [];
      ms := [PollStep] + ms;
    }
  }

  lemma FinishedPoll(l: Local, next: Nonce)
    requires !l.g.stopped && l.poll == Compare(l.g.forkgen)
    ensures
      var (l', next') := FinishPoll(l, next);
      (l'.g, next') == Check(l.g, next) && l'.poll.Idle? && l'.work == l.work
  {
    var l1 := MicroStep(l, PollStep, next).0;
    assert FinishPoll(l, next) == FinishPoll(l1, next);
    if l1.poll.Fetch? {
      var l2 := MicroStep(l1, PollStep, next).0;
      var l3 := MicroStep(l2, PollStep, next + 1).0;
      var l4 := MicroStep(l3, PollStep, next + 1).0;
      var l5 := MicroStep(l4, PollStep, next + 2).0;
      var l6 := MicroStep(l5, PollStep, next + 2).0;
      assert FinishPoll(l6, next + 2) == (l6, next + 2);
      assert FinishPoll(l5, next + 2) == (l6, next + 2);
      assert FinishPoll(l4, next + 2) == (l6, next + 2);
      assert FinishPoll(l3, next + 1) == (l6, next + 2);
      assert FinishPoll(l2, next + 1) == (l6, next + 2);
      assert FinishPoll(l1, next) == (l6, next + 2);
    } else if l1.poll.Store? {
      assert FinishPoll(MicroStep(l1, PollStep, next).0, next) == (MicroStep(l1, PollStep, next).0, next);
    }
  }

  // ---------------------------------------------------------------- the in-flight bound, exactly

  /** However the child runs on, at most one of its calls draws from the captured state. */
  ghost predicate InFlightBound(l: Local) {
    forall ms, next :: CanRun(l, ms, next) ==> RunLocal(l, ms, next).0.stale <= 1
  }

  ghost predicate Reaches(l: Local, next: Nonce, l': Local, next': Nonce) {
    exists ms :: CanRun(l, ms, next) && RunLocal(l, ms, next).0 == l' && RunLocal(l, ms, next).1 == next'
  }

  lemma {:induction false} Concatenate(l: Local, a: seq<Micro>, b: seq<Micro>, next: Nonce)
    requires CanRun(l, a, next) && CanRun(RunLocal(l, a, next).0, b, RunLocal(l, a, next).1)
    ensures CanRun(l, a + b, next)
    ensures RunLocal(l, a + b, next).0 == RunLocal(RunLocal(l, a, next).0, b, RunLocal(l, a, next).1).0
    ensures RunLocal(l, a + b, next).1 == RunLocal(RunLocal(l, a, next).0, b, RunLocal(l, a, next).1).1
    decreases |a|
  {
    if a == [] {
      assert a + b == b;
    } else {
      var (l1, next1, _) := MicroStep(l, a[0], next);
      Concatenate(l1, a[1..], b, next1);
      assert (a + b)[1..] == a[1..] + b;
    }
  }

  lemma Chain(l: Local, next: Nonce, l1: Local, next1: Nonce, l2: Local, next2: Nonce)
    requires Reaches(l, next, l1, next1) && Reaches(l1, next1, l2, next2)
    ensures Reaches(l, next, l2, next2)
  {
    var a :| CanRun(l, a, next) && RunLocal(l, a, next).0 == l1 && RunLocal(l, a, next).1 == next1;
    var b :| CanRun(l1, b, next1) && RunLocal(l1, b, next1).0 == l2 && RunLocal(l1, b, next1).1 == next2;
    Concatenate(l, a, b, next);
  }

  lemma One(start: Local, next0: Nonce, l: Local, next: Nonce, m: Micro) returns (l': Local, next': Nonce)
    requires Reaches(start, next0, l, next) && CanStep(l, m)
    ensures (l', next') == (MicroStep(l, m, next).0, MicroStep(l, m, next).1)
    ensures Reaches(start, next0, l', next')
  {
    var step := MicroStep(l, m, next);
    l', next' := step.0, step.1;
    assert CanRun(l', [], next');
    Prepend(l, m, [], next);
    assert [m] + [] == [m];
    Chain(start, next0, l, next, l', next');
  }

  lemma Finish(start: Local, next0: Nonce, l: Local, next: Nonce) returns (l': Local, next': Nonce)
    requires Reaches(start, next0, l, next) && !l.g.stopped
    ensures (l', next') == (FinishWork(l, next).0, FinishWork(l, next).1)
    ensures Reaches(start, next0, l', next')
  {
    var done := FinishWork(l, next);
    l', next' := done.0, done.1;
    var ms := WorkCanFinish(l, next);
    Chain(start, next0, l, next, l', next');
  }

  /** The thread at `pc` holds a generation from before the release. */
  ghost predicate Old(pc: Pc, l: Local) {
    !pc.Idle? && !pc.Draw? ==> pc.seen.Some? && pc.seen.value <= l.base
  }

  ghost predicate Released(l: Local) {
    !l.g.stopped && l.g.forkgen == Some(l.base + 1) && l.g.cached.Some? && l.g.cached.value <= l.base
  }

  lemma {:induction false} FinishingAnOldCall(l: Local, next: Nonce)
    requires Released(l) && Old(l.work, l)
    ensures
      var l' := FinishWork(l, next).0;
      Released(l') && l'.base == l.base && l'.work.Idle? && l'.poll == l.poll
    decreases Rank(l.work)
  {
    if !l.work.Idle? {
      var (l1, next1, _) := MicroStep(l, WorkStep, next);
      FinishingAnOldCall(l1, next1);
    }
  }

  lemma {:induction false} FinishOldPoll(start: Local, next0: Nonce, l: Local, next: Nonce)
    returns (l': Local, next': Nonce)
    requires Reaches(start, next0, l, next) && Released(l) && Old(l.poll, l) && !l.poll.Draw?
    ensures Reaches(start, next0, l', next')
    ensures Released(l') && l'.base == l.base && l'.poll.Idle? && l'.work == l.work
    decreases Rank(l.poll)
  {
    l', next' := l, next;
    if !l.poll.Idle? {
      l', next' := One(start, next0, l, next, PollStep);
      l', next' := FinishOldPoll(start, next0, l', next');
    }
  }

  /** Once the hook believes it has reseeded, two calls on a captured seed break the bound. */
  lemma TwoStaleCalls(start: Local, next0: Nonce, l: Local, next: Nonce)
    requires Reaches(start, next0, l, next)
    requires !l.g.stopped && l.work.Idle? && l.g.cached == l.g.forkgen && !l.ownTwister
    ensures !InFlightBound(start)
  {
    var l1, next1 := One(start, next0, l, next, WorkBegin(Twister, 1));
    l1, next1 := One(start, next0, l1, next1, WorkStep);
    l1, next1 := One(start, next0, l1, next1, WorkStep);
    assert l1.stale == l.stale + 1;
    l1, next1 := One(start, next0, l1, next1, WorkBegin(Twister, 1));
    l1, next1 := One(start, next0, l1, next1, WorkStep);
    l1, next1 := One(start, next0, l1, next1, WorkStep);
    assert l1.stale >= 2;
  }

  lemma PollerHoldingEntropyBreaksTheBound(l: Local, now: Nonce)
    requires LocalInv(l) && l.g.stopped && l.poll.Plant?
    ensures !InFlightBound(Capture(l, now))
  {
    var start := Capture(l, now);
    assert CanRun(start, [], 0) && Reaches(start, 0, start, 0);
    var l1, next1 := One(start, 0, start, 0, Release);
    FinishingAnOldCall(l1, next1);
    l1, next1 := Finish(start, 0, l1, next1);
    l1, next1 := One(start, 0, l1, next1, WorkBegin(Twister, 1));
    l1, next1 := One(start, 0, l1, next1, WorkStep);
    FinishedFetch(l1, next1);
    l1, next1 := Finish(start, 0, l1, next1);
    l1, next1 := One(start, 0, l1, next1, PollStep);
    TwoStaleCalls(start, 0, l1, next1);
  }

  /** The poller reads the new generation and reseeds, up to remembering it. */
  lemma PollUpToStore(start: Local, next0: Nonce, l: Local, next: Nonce) returns (l': Local, next': Nonce)
    requires Reaches(start, next0, l, next) && Released(l) && l.poll.Idle?
    ensures Reaches(start, next0, l', next')
    ensures l'.poll == Store(l.g.forkgen) && l'.work == l.work && !l'.g.stopped && l'.g.forkgen == l.g.forkgen
  {
    l', next' := One(start, next0, l, next, PollBegin);
    l', next' := One(start, next0, l', next', PollStep);
    l', next' := One(start, next0, l', next', PollStep);
    l', next' := One(start, next0, l', next', PollStep);
    l', next' := One(start, next0, l', next', PollStep);
    l', next' := One(start, next0, l', next', PollStep);
  }

  /** The workload plants entropy of the capture and ends its call. */
  lemma PlantAndFinish(start: Local, next0: Nonce, l: Local, next: Nonce) returns (l': Local, next': Nonce)
    requires Reaches(start, next0, l, next) && !l.g.stopped && l.work.Plant? && !l.work.mine
    ensures Reaches(start, next0, l', next')
    ensures l'.work.Idle? && !l'.ownTwister && l'.poll == l.poll && !l'.g.stopped && l'.g.forkgen == l.g.forkgen
  {
    l', next' := One(start, next0, l, next, WorkStep);
    l', next' := One(start, next0, l', next', WorkStep);
    l', next' := One(start, next0, l', next', WorkStep);
    l', next' := One(start, next0, l', next', WorkStep);
    l', next' := One(start, next0, l', next', WorkStep);
  }

  lemma WorkloadHoldingEntropyBreaksTheBound(l: Local, now: Nonce)
    requires LocalInv(l) && l.g.stopped && l.work.Plant? && !l.poll.Plant?
    ensures !InFlightBound(Capture(l, now))
  {
    var start := Capture(l, now);
    assert CanRun(start, [], 0) && Reaches(start, 0, start, 0);
    var l1, next1 := One(start, 0, start, 0, Release);
    l1, next1 := FinishOldPoll(start, 0, l1, next1);
    l1, next1 := PollUpToStore(start, 0, l1, next1);
    l1, next1 := PlantAndFinish(start, 0, l1, next1);
    l1, next1 := One(start, 0, l1, next1, PollStep);
    TwoStaleCalls(start, 0, l1, next1);
  }

  /**
   A child makes at most one call on the captured state, however its threads interleave, exactly
   when no thread was caught between reading kernel entropy and planting it.
   */
  lemma InFlightBoundExactlyWhenNoEntropyIsHeld(l: Local, now: Nonce)
    requires LocalInv(l) && l.g.stopped
    ensures InFlightBound(Capture(l, now)) <==> !HoldsEntropy(l)
  {
    if HoldsEntropy(l) {
      if l.poll.Plant? {
        PollerHoldingEntropyBreaksTheBound(l, now);
      } else {
        WorkloadHoldingEntropyBreaksTheBound(l, now);
      }
    } else {
      CaptureKeepsLocalInv(l, now);
      forall ms, next | CanRun(Capture(l, now), ms, next) ensures RunLocal(Capture(l, now), ms, next).0.stale <= 1 {
        RunKeepsLocalInv(Capture(l, now), ms, next);
      }
    }
  }
}
