/**
 Which captures are safe, at the grain of FineGrained: the one call that was open when SIGSTOP
 landed, and exactly when it makes forks repeat words (spikes/guest/sitecustomize.py:38-76,
 spikes/guest/guest_agent.py:91-117).
 */
module FineCaptures {
  import opened Wrappers
  import opened Guest
  import opened FineGrained
  import opened FineRuns

  // ---------------------------------------------------------------- calls begun later

  /** Instance `i` is neither captured nor destroyed. */
  predicate Undisturbed(run: seq<Step>, i: nat) {
    forall k :: 0 <= k < |run| ==> run[k] != Destroy(i) && !(run[k].Take? && run[k].i == i)
  }

  lemma StepStaysOutOfFlight(sys: System, step: Step, i: nat)
    requires Enabled(sys, step) && step != Destroy(i) && !(step.Take? && step.i == i)
    requires Instance(i) in sys.guests && !sys.guests[Instance(i)].inFlight
    ensures Instance(i) in Apply(sys, step).guests && !Apply(sys, step).guests[Instance(i)].inFlight
  {
  }

  lemma {:induction false} StaysOutOfFlight(sys: System, run: seq<Step>, i: nat)
    requires ValidRun(sys, run) && Undisturbed(run, i)
    requires Instance(i) in sys.guests && !sys.guests[Instance(i)].inFlight
    ensures Instance(i) in After(sys, run).guests && !After(sys, run).guests[Instance(i)].inFlight
    decreases |run|
  {
    if run != [] {
      StepStaysOutOfFlight(sys, run[0], i);
      StaysOutOfFlight(Apply(sys, run[0]), run[1..], i);
    }
  }

  /** A call that begins on a released guest draws from generators the guest owns, whatever all
      other guests and the guest's own poller do until then. */
  lemma CallsBegunLaterDrawOwnWords(run: seq<Step>, i: nat, source: Source, count: nat, more: seq<Step>)
    requires ValidRun(EMPTY, run) && Enabled(After(EMPTY, run), Micro(i, WorkBegin(source, count)))
    requires ValidRun(Apply(After(EMPTY, run), Micro(i, WorkBegin(source, count))), more) && Undisturbed(more, i)
    ensures
      var sys := After(Apply(After(EMPTY, run), Micro(i, WorkBegin(source, count))), more);
      && Instance(i) in sys.guests
      && var l := sys.guests[Instance(i)];
      l.work.Draw? ==> l.ownTwister && l.ownOpenssl
  {
    var before := After(EMPTY, run);
    FineRuns.RunKeepsInv(EMPTY, run);
    assert LocalInv(before.guests[Instance(i)]);
    FineRuns.StepKeepsInv(before, Micro(i, WorkBegin(source, count)));
    FineRuns.RunKeepsInv(Apply(before, Micro(i, WorkBegin(source, count))), more);
    StaysOutOfFlight(Apply(before, Micro(i, WorkBegin(source, count))), more, i);
  }

  // ---------------------------------------------------------------- the call that was open

  /** The poller is about to store the generation `seen` over a captured generator. */
  predicate StoresStale(poll: Pc, seen: Option<nat>, source: Source) {
    match poll
    case Store(s) => s == seen
    case Mix(s, _, _) => s == seen
    case Stir(s) => s == seen && source.Twister?
    case _ => false
  }

  /** Some schedule lets the open call draw words of the captured state: it is past its reseed, or
      will find no reason for one. */
  predicate Risky(l: Local) {
    l.count > 0 &&
    match l.work
    case Idle => false
    case Compare(seen) => seen == l.g.cached || StoresStale(l.poll, seen, l.source)
    case Fetch(_) => false
    case Stir(_) => l.source.Twister?
    case _ => true
  }

  /** What the poller may do to the generator before it stores `seen`. */
  predicate PollerLeavesOwn(l: Local, seen: Option<nat>) {
    match l.poll
    case Store(s) => s == seen ==> l.Owns(l.source)
    case Mix(s, _, mine) => s == seen ==> (if l.source.Twister? then l.ownTwister else l.ownOpenssl || mine)
    case Stir(s) => s == seen && l.source.Twister? ==> l.ownTwister
    case _ => true
  }

  /** However the threads go on, the open call draws words of its guest's own. */
  predicate WillDrawOwn(l: Local) {
    l.inFlight && l.count > 0 ==>
      match l.work
      case Draw => l.Owns(l.source)
      case Store(_) => l.Owns(l.source)
      case Mix(_, _, mine) => if l.source.Twister? then l.ownTwister else l.ownOpenssl || mine
      case Stir(_) => l.source.Twister? ==> l.ownTwister
      case Compare(seen) => (seen == l.g.cached ==> l.Owns(l.source)) && PollerLeavesOwn(l, seen)
      case _ => true
  }

  lemma SafeCaptureWillDrawOwn(l: Local, next: nat)
    requires !HoldsEntropy(l) && !Risky(l)
    ensures WillDrawOwn(Capture(l, next))
  {
  }

  lemma WorkStepKeepsWillDrawOwn(l: Local, next: nat)
    requires LocalInv(l) && WillDrawOwn(l) && CanStep(l, WorkStep)
    ensures WillDrawOwn(MicroStep(l, WorkStep, next).0)
  {
    match l.work
    case Compare(_) =>
    case Fetch(_) =>
    case Plant(_, _, _) =>
    case Stir(_) =>
    case Mix(_, _, _) =>
    case Store(_) =>
    case Draw =>
  }

  lemma PollStepKeepsWillDrawOwn(l: Local, next: nat)
    requires LocalInv(l) && WillDrawOwn(l) && CanStep(l, PollStep)
    ensures WillDrawOwn(MicroStep(l, PollStep, next).0)
  {
    match l.poll
    case Compare(_) =>
    case Fetch(_) =>
    case Plant(_, _, _) =>
    case Stir(_) =>
    case Mix(_, _, _) =>
    case Store(_) =>
  }

  lemma MicroStepKeepsWillDrawOwn(l: Local, m: FineGrained.Micro, next: nat)
    requires LocalInv(l) && WillDrawOwn(l) && CanStep(l, m)
    ensures WillDrawOwn(MicroStep(l, m, next).0)
    ensures MicroStep(l, m, next).2 != [] ==> l.Owns(l.source)
  {
    match m
    case WorkStep => WorkStepKeepsWillDrawOwn(l, next);
    case PollStep => PollStepKeepsWillDrawOwn(l, next);
    case _ =>
  }

  // ---------------------------------------------------------------- safe captures

  /** No capture of the run catches a risky call. */
  ghost predicate SafeCaptures(sys: System, run: seq<Step>)
    requires ValidRun(sys, run)
    decreases |run|
  {
    run == [] ||
    ((run[0].Take? ==> !Risky(sys.guests[Instance(run[0].i)])) && SafeCaptures(Apply(sys, run[0]), run[1..]))
  }

  /** Every word so far came from an owned generator, and so will those of every open call. */
  ghost predicate AllOwn(sys: System) {
    && (forall n :: n in sys.guests ==> WillDrawOwn(sys.guests[n]))
    && (forall k :: 0 <= k < |sys.log| ==> sys.log[k].own)
  }

  lemma StepKeepsAllOwn(sys: System, step: Step)
    requires GuestsInv(sys) && AllOwn(sys) && Enabled(sys, step)
    requires step.Take? ==> !Risky(sys.guests[Instance(step.i)])
    ensures AllOwn(Apply(sys, step))
  {
    match step
    case Micro(i, m) => MicroStepKeepsWillDrawOwn(sys.guests[Instance(i)], m, sys.next);
    case Take(i, s) => SafeCaptureWillDrawOwn(sys.guests[Instance(i)], sys.next);
    case _ =>
  }

  lemma {:induction false} RunKeepsAllOwn(sys: System, run: seq<Step>)
    requires Inv(sys) && AllOwn(sys) && ValidRun(sys, run) && SafeCaptures(sys, run)
    ensures Inv(After(sys, run)) && AllOwn(After(sys, run))
    decreases |run|
  {
    if run != [] {
      FineRuns.StepKeepsInv(sys, run[0]);
      StepKeepsAllOwn(sys, run[0]);
      RunKeepsAllOwn(Apply(sys, run[0]), run[1..]);
    }
  }

  ghost predicate NoWordTwice(sys: System) {
    forall a, b :: 0 <= a < b < |sys.log| ==> sys.log[a].word != sys.log[b].word
  }

  /** Zero window, with every interleaving of hook and poller: no word is ever returned twice if no
      capture caught an open call that may still draw from the captured state. */
  lemma SafeCapturesNeverRepeatAWord(run: seq<Step>)
    requires ValidRun(EMPTY, run) && SafeCaptures(EMPTY, run)
    ensures NoWordTwice(After(EMPTY, run))
  {
    RunKeepsAllOwn(EMPTY, run);
  }

  // ---------------------------------------------------------------- a risky capture, played out

  /** The guest can run on so that it returns exactly these words. */
  ghost predicate Yields(l: Local, next: nat, ws: seq<Word>) {
    exists ms :: CanRun(l, ms, next) && RunLocal(l, ms, next).2 == ws
  }

  lemma StepYields(l: Local, m: FineGrained.Micro, next: nat, ws: seq<Word>)
    requires CanStep(l, m) && MicroStep(l, m, next).2 == []
    requires Yields(MicroStep(l, m, next).0, MicroStep(l, m, next).1, ws)
    ensures Yields(l, next, ws)
  {
    var (l1, next1, ws1) := MicroStep(l, m, next);
    var ms :| CanRun(l1, ms, next1) && RunLocal(l1, ms, next1).2 == ws;
    Prepend(l, m, ms, next);
    assert ws1 + ws == ws;
  }

  lemma DrawYields(l: Local, next: nat)
    requires !l.g.stopped && l.work.Draw?
    ensures Yields(l, next, Words(l.source, l.g.Of(l.source), l.count))
  {
    var ms := WorkCanFinish(l, next);
    FinishedDraw(l, next);
  }

  /** The stream the open call draws from when the poller does no more than it must. */
  function StaleStream(l: Local): Stream {
    match l.source
    case Twister => l.g.twister
    case OpenSsl =>
      if l.work.Mix? then Stream(Stirred(l.g.openssl, l.work.entropy), 0)
      else if l.work.Compare? && l.work.seen != l.g.cached && l.poll.Mix?
      then Stream(Stirred(l.g.openssl, l.poll.entropy), 0)
      else l.g.openssl
  }

  lemma StoreYields(l: Local, next: nat)
    requires !l.g.stopped && l.work.Store?
    ensures Yields(l, next, Words(l.source, l.g.Of(l.source), l.count))
  {
    DrawYields(MicroStep(l, WorkStep, next).0, next);
    StepYields(l, WorkStep, next, Words(l.source, l.g.Of(l.source), l.count));
  }

  lemma MixYields(l: Local, next: nat)
    requires !l.g.stopped && l.work.Mix?
    ensures Yields(l, next, Words(l.source, StaleStream(l), l.count))
  {
    StoreYields(MicroStep(l, WorkStep, next).0, next);
    StepYields(l, WorkStep, next, Words(l.source, StaleStream(l), l.count));
  }

  lemma StirYields(l: Local, next: nat)
    requires !l.g.stopped && l.work.Stir? && l.source.Twister?
    ensures Yields(l, next, Words(l.source, l.g.twister, l.count))
  {
    MixYields(MicroStep(l, WorkStep, next).0, next + 1);
    StepYields(l, WorkStep, next, Words(l.source, l.g.twister, l.count));
  }

  lemma CompareYields(l: Local, next: nat)
    requires !l.g.stopped && l.work.Compare? && l.work.seen == l.g.cached
    ensures Yields(l, next, Words(l.source, l.g.Of(l.source), l.count))
  {
    DrawYields(MicroStep(l, WorkStep, next).0, next);
    StepYields(l, WorkStep, next, Words(l.source, l.g.Of(l.source), l.count));
  }

  /** The poller first stores the generation that the open call read. */
  lemma PollerStoresFirst(l: Local, next: nat)
    requires !l.g.stopped && l.work.Compare? && l.work.seen != l.g.cached && StoresStale(l.poll, l.work.seen, l.source)
    ensures Yields(l, next, Words(l.source, StaleStream(l), l.count))
    decreases Rank(l.poll)
  {
    var (l1, next1, _) := MicroStep(l, PollStep, next);
    if l.poll.Store? {
      CompareYields(l1, next1);
    } else {
      PollerStoresFirst(l1, next1);
    }
    StepYields(l, PollStep, next, Words(l.source, StaleStream(l), l.count));
  }

  /** As captured: stopped, and with an open call that may draw from the captured state. */
  ghost predicate Playable(l: Local) {
    LocalInv(l) && l.g.stopped && !HoldsEntropy(l) && Risky(l)
  }

  /** Released, a risky capture can return the words of the captured state, and does so whatever
      entropy the kernel would hand out. */
  lemma RiskyYields(l: Local, next: nat)
    requires Playable(l)
    ensures Yields(l, next, Words(l.source, StaleStream(l), l.count))
  {
    var l1 := MicroStep(l, Release, next).0;
    match l.work {
      case Compare(seen) =>
        if seen == l.g.cached {
          CompareYields(l1, next);
        } else {
          PollerStoresFirst(l1, next);
        }
      case Stir(_) => StirYields(l1, next);
      case Mix(_, _, _) => MixYields(l1, next);
      case Store(_) => StoreYields(l1, next);
      case Draw => DrawYields(l1, next);
    }
    StepYields(l, Release, next, Words(l.source, StaleStream(l), l.count));
  }

  // ---------------------------------------------------------------- driving one guest of many

  function Micros(i: nat, ms: seq<FineGrained.Micro>): seq<Step> {
    seq(|ms|, k requires 0 <= k < |ms| => Micro(i, ms[k]))
  }

  /** `sys'` is `sys` after instance `i` alone has run and returned `ws`. */
  ghost predicate Drove(sys: System, i: nat, ws: seq<Word>, sys': System) {
    && sys'.guests.Keys == sys.guests.Keys
    && (forall n :: n in sys.guests && n != Instance(i) ==> sys'.guests[n] == sys.guests[n])
    && |sys'.log| == |sys.log| + |ws|
    && (forall k :: 0 <= k < |sys.log| ==> sys'.log[k] == sys.log[k])
    && (forall k :: 0 <= k < |ws| ==> sys'.log[|sys.log| + k].word == ws[k])
  }

  lemma DroveOneStep(sys: System, i: nat, m: FineGrained.Micro)
    requires Enabled(sys, Micro(i, m))
    ensures Drove(sys, i, MicroStep(sys.guests[Instance(i)], m, sys.next).2, Apply(sys, Micro(i, m)))
  {
  }

  lemma DroveOn(sys: System, i: nat, ws1: seq<Word>, sys1: System, ws2: seq<Word>, sys2: System)
    requires Drove(sys, i, ws1, sys1) && Drove(sys1, i, ws2, sys2)
    ensures Drove(sys, i, ws1 + ws2, sys2)
  {
    forall k | 0 <= k < |ws1 + ws2| ensures sys2.log[|sys.log| + k].word == (ws1 + ws2)[k] {
      if k >= |ws1| {
        assert sys2.log[|sys1.log| + (k - |ws1|)].word == ws2[k - |ws1|];
      }
    }
  }

  lemma {:induction false} Drive(sys: System, i: nat, ms: seq<FineGrained.Micro>)
    requires Instance(i) in sys.guests && CanRun(sys.guests[Instance(i)], ms, sys.next)
    ensures ValidRun(sys, Micros(i, ms)) && SafeCaptures(sys, Micros(i, ms))
    ensures Drove(sys, i, RunLocal(sys.guests[Instance(i)], ms, sys.next).2, After(sys, Micros(i, ms)))
    decreases |ms|
  {
    if ms != [] {
      var l, sys1 := sys.guests[Instance(i)], Apply(sys, Micro(i, ms[0]));
      var (l1, next1, ws1) := MicroStep(l, ms[0], sys.next);
      assert Micros(i, ms)[0] == Micro(i, ms[0]) && Micros(i, ms)[1..] == Micros(i, ms[1..]);
      Drive(sys1, i, ms[1..]);
      DroveOneStep(sys, i, ms[0]);
      DroveOn(sys, i, ws1, sys1, RunLocal(l1, ms[1..], next1).2, After(sys1, Micros(i, ms[1..])));
    }
  }

  lemma {:induction false} Follow(sys: System, a: seq<Step>, b: seq<Step>)
    requires ValidRun(sys, a) && SafeCaptures(sys, a)
    requires ValidRun(After(sys, a), b) && SafeCaptures(After(sys, a), b)
    ensures ValidRun(sys, a + b) && SafeCaptures(sys, a + b) && After(sys, a + b) == After(After(sys, a), b)
    decreases |a|
  {
    if a == [] {
      assert a + b == b;
    } else {
      assert (a + b)[0] == a[0] && (a + b)[1..] == a[1..] + b;
      Follow(Apply(sys, a[0]), a[1..], b);
    }
  }

  /** Load image `s` as `i` and let it return the captured words. */
  lemma ReplayOnce(sys: System, s: nat, i: nat) returns (run: seq<Step>)
    requires Image(s) in sys.guests && Instance(i) !in sys.guests && Playable(sys.guests[Image(s)])
    ensures ValidRun(sys, run) && SafeCaptures(sys, run)
    ensures
      var image, sys' := sys.guests[Image(s)], After(sys, run);
      && sys'.guests.Keys == sys.guests.Keys + {Instance(i)} && sys'.guests[Image(s)] == image
      && |sys'.log| == |sys.log| + image.count
      && (forall k :: 0 <= k < |sys.log| ==> sys'.log[k] == sys.log[k])
      && sys'.log[|sys.log|].word == Word(image.source, StaleStream(image).seed, StaleStream(image).position)
  {
    var image := sys.guests[Image(s)];
    var sys1 := Apply(sys, Load(s, i));
    RiskyYields(image, sys1.next);
    var ws := Words(image.source, StaleStream(image), image.count);
    var ms :| CanRun(image, ms, sys1.next) && RunLocal(image, ms, sys1.next).2 == ws;
    Drive(sys1, i, ms);
    assert [Load(s, i)][1..] == [] && ValidRun(sys1, []) && SafeCaptures(sys1, []) && After(sys1, []) == sys1;
    assert ValidRun(sys, [Load(s, i)]) && SafeCaptures(sys, [Load(s, i)]) && After(sys, [Load(s, i)]) == sys1;
    Follow(sys, [Load(s, i)], Micros(i, ms));
    run := [Load(s, i)] + Micros(i, ms);
    assert After(sys, run).log[|sys1.log| + 0].word == ws[0];
  }

  lemma UnusedInstance(used: set<Name>) returns (i: nat)
    ensures forall j: nat :: Instance(j) in used ==> j < i
  {
    if used == {} {
      i := 0;
    } else {
      var n :| n in used;
      i := UnusedInstance(used - {n});
      assert forall j: nat :: Instance(j) in used ==> Instance(j) == n || Instance(j) in used - {n};
      if n.Instance? && n.id >= i {
        i := n.id + 1;
      }
    }
  }

  /** Every continuation that makes only safe captures itself keeps all words distinct. */
  ghost predicate Safe(sys: System) {
    forall more :: ValidRun(sys, more) && SafeCaptures(sys, more) ==> NoWordTwice(After(sys, more))
  }

  lemma TwoReplaysRepeatAWord(sys: System, s: nat)
    requires Image(s) in sys.guests && Playable(sys.guests[Image(s)])
    ensures !Safe(sys)
  {
    var i := UnusedInstance(sys.guests.Keys);
    var first := ReplayOnce(sys, s, i);
    var sys1 := After(sys, first);
    var j := UnusedInstance(sys1.guests.Keys);
    var second := ReplayOnce(sys1, s, j);
    Follow(sys, first, second);
    var end := After(sys, first + second);
    assert end.log[|sys.log|] == sys1.log[|sys.log|];
    assert end.log[|sys.log|].word == end.log[|sys1.log|].word;
  }

  lemma RiskyCaptureIsUnsafe(sys: System, i: nat, s: nat)
    requires GuestsInv(sys) && Enabled(sys, Take(i, s)) && Risky(sys.guests[Instance(i)])
    ensures !Safe(Apply(sys, Take(i, s)))
  {
    CaptureKeepsLocalInv(sys.guests[Instance(i)], sys.next);
    TwoReplaysRepeatAWord(Apply(sys, Take(i, s)), s);
  }

  lemma OwnCallsStaySafe(sys: System)
    requires Inv(sys) && AllOwn(sys)
    ensures Safe(sys)
  {
    forall more | ValidRun(sys, more) && SafeCaptures(sys, more) ensures NoWordTwice(After(sys, more)) {
      RunKeepsAllOwn(sys, more);
    }
  }

  /**
   After a run whose captures were all safe, a further capture of a quiesced guest is safe if and
   only if it catches no open call that some schedule lets draw from the captured state.
   */
  lemma CaptureIsSafeExactlyWhenNotRisky(run: seq<Step>, i: nat, s: nat)
    requires ValidRun(EMPTY, run) && SafeCaptures(EMPTY, run) && Enabled(After(EMPTY, run), Take(i, s))
    ensures
      var sys := After(EMPTY, run);
      Safe(Apply(sys, Take(i, s))) <==> !Risky(sys.guests[Instance(i)])
  {
    RunKeepsAllOwn(EMPTY, run);
    var sys := After(EMPTY, run);
    if Risky(sys.guests[Instance(i)]) {
      RiskyCaptureIsUnsafe(sys, i, s);
    } else {
      FineRuns.StepKeepsInv(sys, Take(i, s));
      StepKeepsAllOwn(sys, Take(i, s));
      OwnCallsStaySafe(Apply(sys, Take(i, s)));
    }
  }

  // ---------------------------------------------------------------- holding entropy

  lemma StepThen(sys: System, step: Step, run: seq<Step>)
    requires Enabled(sys, step) && ValidRun(Apply(sys, step), run)
    ensures ValidRun(sys, [step] + run) && After(sys, [step] + run) == After(Apply(sys, step), run)
  {
    assert ([step] + run)[1..] == run;
  }

  /** Boot, snapshot, fork, and SIGSTOP between the poller's reading of entropy and its planting it. */
  lemma StopOnHeldEntropy() returns (run: seq<Step>)
    ensures ValidRun(EMPTY, run) && Instance(0) in After(EMPTY, run).guests
    ensures
      var l := After(EMPTY, run).guests[Instance(0)];
      l.g.stopped && HoldsEntropy(l)
  {
    var s1 := Apply(EMPTY, Boot(0));
    var s2 := Apply(s1, Micro(0, Stop));
    var s3 := Apply(s2, Take(0, 0));
    var s4 := Apply(s3, Micro(0, Release));
    var s5 := Apply(s4, Micro(0, PollBegin));
    var s6 := Apply(s5, Micro(0, PollStep));
    var s7 := Apply(s6, Micro(0, PollStep));
    var s8 := Apply(s7, Micro(0, Stop));
    run := [];
    StepThen(s7, Micro(0, Stop), run);
    run := [Micro(0, Stop)] + run;
    StepThen(s6, Micro(0, PollStep), run);
    run := [Micro(0, PollStep)] + run;
    StepThen(s5, Micro(0, PollStep), run);
    run := [Micro(0, PollStep)] + run;
    StepThen(s4, Micro(0, PollBegin), run);
    run := [Micro(0, PollBegin)] + run;
    StepThen(s3, Micro(0, Release), run);
    run := [Micro(0, Release)] + run;
    StepThen(s2, Take(0, 0), run);
    run := [Take(0, 0)] + run;
    StepThen(s1, Micro(0, Stop), run);
    run := [Micro(0, Stop)] + run;
    StepThen(EMPTY, Boot(0), run);
    run := [Boot(0)] + run;
  }

  /** A quiesced guest that was caught holding entropy does occur, and so, captured then, does a
      child that makes two calls on the captured state. */
  lemma EntropyCanBeHeld() returns (run: seq<Step>)
    ensures ValidRun(EMPTY, run) && Instance(0) in After(EMPTY, run).guests
    ensures
      var l := After(EMPTY, run).guests[Instance(0)];
      && LocalInv(l) && l.g.stopped && HoldsEntropy(l)
      && !InFlightBound(Capture(l, After(EMPTY, run).next))
  {
    run := StopOnHeldEntropy();
    FineRuns.RunKeepsInv(EMPTY, run);
    InFlightBoundExactlyWhenNoEntropyIsHeld(After(EMPTY, run).guests[Instance(0)], After(EMPTY, run).next);
  }
}
