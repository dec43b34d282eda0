/**
 Whole runs of many guests at the grain of FineGrained: every interleaving of every guest's
 micro-steps with captures, loads of captured images (again and again, and of captures of loaded
 guests) and destructions.  A captured image is kept as a guest that never steps.
 */
module FineRuns {
  import opened Guest
  import opened FineGrained

  datatype Name = Instance(id: nat) | Image(id: nat)

  /** A returned word, and whether its guest drew it from a generator it owns. */
  datatype Entry = Entry(word: Word, own: bool)

  datatype System = System(guests: map<Name, Local>, next: Nonce, log: seq<Entry>)

  datatype Step =
    | Boot(i: nat)
    | Micro(i: nat, m: FineGrained.Micro)
    | Take(i: nat, s: nat)
    | Load(s: nat, i: nat)
    | Destroy(i: nat)

  const EMPTY := System(map[], 0, [])

  /** A snapshot follows a successful QUIESCE, and SIGSTOP caught no thread holding entropy. */
  predicate Enabled(sys: System, step: Step) {
    match step
    case Boot(i) => Instance(i) !in sys.guests
    case Micro(i, m) => Instance(i) in sys.guests && CanStep(sys.guests[Instance(i)], m)
    case Take(i, s) =>
      && Instance(i) in sys.guests && Image(s) !in sys.guests
      && sys.guests[Instance(i)].g.stopped && !HoldsEntropy(sys.guests[Instance(i)])
    case Load(s, i) => Image(s) in sys.guests && Instance(i) !in sys.guests
    case Destroy(i) => Instance(i) in sys.guests
  }

  function Entries(ws: seq<Word>, own: bool): (es: seq<Entry>)
    ensures |es| == |ws| && forall k :: 0 <= k < |ws| ==> es[k] == Entry(ws[k], own)
  {
    seq(|ws|, k requires 0 <= k < |ws| => Entry(ws[k], own))
  }

  function Apply(sys: System, step: Step): System
    requires Enabled(sys, step)
  {
    match step
    case Boot(i) =>
      sys.(guests := sys.guests[Instance(i) := BootedLocal(sys.next)], next := sys.next + 2)
    case Micro(i, m) =>
      var l := sys.guests[Instance(i)];
      var (l', next, ws) := MicroStep(l, m, sys.next);
      System(sys.guests[Instance(i) := l'], next, sys.log + Entries(ws, l.Owns(l.source)))
    case Take(i, s) =>
      var image := Capture(sys.guests[Instance(i)], sys.next);
      sys.(guests := sys.guests[Instance(i) := image][Image(s) := image])
    case Load(s, i) =>
      sys.(guests := sys.guests[Instance(i) := sys.guests[Image(s)]])
    case Destroy(i) =>
      sys.(guests := sys.guests - {Instance(i)})
  }

  ghost predicate ValidRun(sys: System, run: seq<Step>)
    decreases |run|
  {
    run == [] || (Enabled(sys, run[0]) && ValidRun(Apply(sys, run[0]), run[1..]))
  }

  ghost function After(sys: System, run: seq<Step>): System
    requires ValidRun(sys, run)
    decreases |run|
  {
    if run == [] then sys else After(Apply(sys, run[0]), run[1..])
  }

  // ---------------------------------------------------------------- the invariant

  /** The latest entropy anywhere in a seed, and how often it was stirred. */
  function Newest(seed: Seed): Nonce {
    match seed
    case Planted(e) => e
    case Stirred(prior, e) => if Newest(prior.seed) < e then e else Newest(prior.seed)
  }

  function Depth(seed: Seed): nat {
    match seed
    case Planted(_) => 0
    case Stirred(prior, _) => 1 + Depth(prior.seed)
  }

  function TwisterTag(l: Local): Nonce {
    Newest(l.g.twister.seed)
  }

  function OpensslTag(l: Local): Nonce {
    Newest(l.g.openssl.seed)
  }

  /** Entropy read for `random.seed`, and entropy read for `RAND_add`. */
  function Held(l: Local): set<Nonce> {
    (if l.work.Plant? then {l.work.entropy} else {}) + (if l.poll.Plant? then {l.poll.entropy} else {})
  }

  function Mixing(l: Local): set<Nonce> {
    (if l.work.Mix? then {l.work.entropy} else {}) + (if l.poll.Mix? then {l.poll.entropy} else {})
  }

  function OwnMixing(l: Local): set<Nonce> {
    (if l.work.Mix? && l.work.mine then {l.work.entropy} else {})
    + (if l.poll.Mix? && l.poll.mine then {l.poll.entropy} else {})
  }

  /** The OpenSSL entropy a guest runs on or will, and that of it which is its own. */
  function Public(l: Local): set<Nonce> {
    {OpensslTag(l)} + Mixing(l)
  }

  function Private(l: Local): set<Nonce> {
    (if l.ownOpenssl then {OpensslTag(l)} else {}) + OwnMixing(l)
  }

  /** What an owner runs on is in no other guest and in no image. */
  ghost predicate Exclusive(l: Local, other: Local) {
    && (l.ownTwister ==> TwisterTag(l) != TwisterTag(other))
    && Held(l) !! Held(other) && TwisterTag(other) !in Held(l)
    && Private(l) !! Public(other)
  }

  /** Entropy that a thread holds was drawn, is a guest's own exactly when that was after its
      capture, and is not what OpenSSL runs on already. */
  ghost predicate Dated(pc: Pc, since: Nonce, next: Nonce, tag: Nonce) {
    && (pc.Plant? || pc.Mix? ==> pc.entropy < next)
    && (pc.Mix? ==> pc.entropy != tag && (pc.mine <==> since <= pc.entropy))
  }

  ghost predicate Bounded(l: Local, next: Nonce) {
    && TwisterTag(l) < next && OpensslTag(l) < next && l.since <= next
    && (l.ownOpenssl <==> l.since <= OpensslTag(l))
    && Dated(l.work, l.since, next, OpensslTag(l)) && Dated(l.poll, l.since, next, OpensslTag(l))
    && (l.work.Mix? && l.poll.Mix? ==> l.work.entropy != l.poll.entropy)
  }

  lemma EntropyIsDrawn(l: Local, next: Nonce)
    requires Bounded(l, next)
    ensures forall e :: e in Held(l) ==> e < next
    ensures forall e :: e in Public(l) ==> e < next
    ensures forall e :: e in Private(l) ==> e in Public(l)
    ensures OpensslTag(l) !in Mixing(l)
    ensures forall e :: e in Mixing(l) ==> (e in OwnMixing(l) <==> l.since <= e)
  {
  }

  ghost predicate Unused(l: Local, entry: Entry) {
    var tag := Newest(entry.word.seed);
    match entry.word.source
    case Twister => tag !in Held(l)
    case OpenSsl => tag !in OwnMixing(l) && (entry.own ==> tag !in Mixing(l))
  }

  ghost predicate PlantsApart(l: Local) {
    && (l.work.Plant? && l.poll.Plant? ==> l.work.entropy != l.poll.entropy)
    && (l.work.Plant? ==> l.work.entropy != TwisterTag(l))
    && (l.poll.Plant? ==> l.poll.entropy != TwisterTag(l))
  }

  /** Entropy being held is in use nowhere yet, not even in the guest that holds it. */
  ghost predicate HeldIsUnused(l: Local, log: seq<Entry>) {
    && PlantsApart(l)
    && (forall k :: 0 <= k < |log| ==> Unused(l, log[k]))
  }

  /** The word comes from an earlier state of the stream. */
  ghost predicate Before(word: Word, stream: Stream) {
    Depth(word.seed) < Depth(stream.seed) || (word.seed == stream.seed && word.position < stream.position)
  }

  /** Past every logged word of its own streams: all of them for an owner, and for a captured
      stream those that were drawn by owners. */
  ghost predicate Ahead(l: Local, entry: Entry) {
    var own := l.g.Of(entry.word.source);
    Newest(own.seed) == Newest(entry.word.seed) && (entry.own || l.Owns(entry.word.source)) ==> Before(entry.word, own)
  }

  ghost predicate SharedOnlyInFlight(log: seq<Entry>) {
    forall a, b :: 0 <= a < b < |log| && log[a].word == log[b].word ==> !log[a].own && !log[b].own
  }

  ghost predicate IsImage(l: Local) {
    !HoldsEntropy(l) && l.g.stopped && l == Capture(l, l.since)
  }

  ghost predicate GuestsInv(sys: System) {
    && (forall n :: n in sys.guests ==> LocalInv(sys.guests[n]) && Bounded(sys.guests[n], sys.next))
    && (forall n :: n in sys.guests && n.Image? ==> IsImage(sys.guests[n]))
    && (forall n, m :: n in sys.guests && m in sys.guests && n != m ==> Exclusive(sys.guests[n], sys.guests[m]))
  }

  ghost predicate LogInv(sys: System) {
    && (forall k :: 0 <= k < |sys.log| ==> Newest(sys.log[k].word.seed) < sys.next)
    && (forall n :: n in sys.guests ==> HeldIsUnused(sys.guests[n], sys.log))
    && (forall n, k :: n in sys.guests && 0 <= k < |sys.log| ==> Ahead(sys.guests[n], sys.log[k]))
    && SharedOnlyInFlight(sys.log)
  }

  ghost predicate Inv(sys: System) {
    GuestsInv(sys) && LogInv(sys)
  }

  // ---------------------------------------------------------------- steps that draw nothing

  /** The Mersenne Twister goes on, or was replaced by entropy that was held. */
  ghost predicate TwisterEvolves(l: Local, l': Local) {
    || (l'.g.twister == l.g.twister && l'.ownTwister == l.ownTwister)
    || (exists e :: e in Held(l) && l'.g.twister == Stream(Planted(e), 0))
  }

  /** OpenSSL goes on, or had entropy mixed in; it is then the guest's own if either was. */
  ghost predicate OpensslEvolves(l: Local, l': Local) {
    || (l'.g.openssl == l.g.openssl && l'.ownOpenssl == l.ownOpenssl)
    || (exists e :: e in Mixing(l) && l'.g.openssl == Stream(Stirred(l.g.openssl, e), 0)
          && l'.ownOpenssl == (l.ownOpenssl || e in OwnMixing(l)))
  }

  /** A thread holds what it held, or has read more. */
  ghost predicate HoldsOn(pc: Pc, pc': Pc, next: Nonce) {
    && (pc'.Plant? ==> (pc.Plant? && pc'.entropy == pc.entropy) || next <= pc'.entropy)
    && (pc'.Mix? ==> (pc.Mix? && pc'.entropy == pc.entropy && pc'.mine == pc.mine) || next <= pc'.entropy)
  }

  /** What a micro-step that draws nothing may do to a guest: use the entropy it has or read more. */
  ghost predicate Evolves(l: Local, l': Local, next: Nonce, next': Nonce) {
    && next <= next' && Bounded(l', next') && l'.since == l.since
    && TwisterEvolves(l, l') && OpensslEvolves(l, l')
    && HoldsOn(l.work, l'.work, next) && HoldsOn(l.poll, l'.poll, next) && PlantsApart(l')
  }

  lemma EvolvedHoldings(l: Local, l': Local, next: Nonce, next': Nonce)
    requires Evolves(l, l', next, next')
    ensures forall e :: e in Held(l') ==> e in Held(l) || next <= e
    ensures forall e :: e in Mixing(l') ==> e in Mixing(l) || next <= e
    ensures forall e :: e in OwnMixing(l') ==> e in OwnMixing(l) || next <= e
  {
  }

  lemma WorkReadEvolves(l: Local, next: Nonce)
    requires Bounded(l, next) && PlantsApart(l) && CanStep(l, WorkStep) && !l.work.Draw?
    requires !l.work.Plant? && !l.work.Mix?
    ensures
      var (l', next', ws) := MicroStep(l, WorkStep, next);
      ws == [] && Evolves(l, l', next, next')
  {
    var l' := MicroStep(l, WorkStep, next).0;
    assert l'.g.twister == l.g.twister && l'.g.openssl == l.g.openssl;
  }

  lemma WorkUseEvolves(l: Local, next: Nonce)
    requires LocalInv(l) && Bounded(l, next) && PlantsApart(l) && CanStep(l, WorkStep)
    requires l.work.Plant? || l.work.Mix?
    ensures
      var (l', next', ws) := MicroStep(l, WorkStep, next);
      ws == [] && Evolves(l, l', next, next')
  {
    var l', e := MicroStep(l, WorkStep, next).0, l.work.entropy;
    if l.work.Plant? {
      assert e in Held(l) && l'.g.twister == Stream(Planted(e), 0);
    } else {
      assert e in Mixing(l) && l'.g.openssl == Stream(Stirred(l.g.openssl, e), 0);
    }
  }

  lemma PollReadEvolves(l: Local, next: Nonce)
    requires Bounded(l, next) && PlantsApart(l) && CanStep(l, PollStep)
    requires !l.poll.Plant? && !l.poll.Mix?
    ensures
      var (l', next', ws) := MicroStep(l, PollStep, next);
      ws == [] && Evolves(l, l', next, next')
  {
    var l' := MicroStep(l, PollStep, next).0;
    assert l'.g.twister == l.g.twister && l'.g.openssl == l.g.openssl;
  }

  lemma PollUseEvolves(l: Local, next: Nonce)
    requires LocalInv(l) && Bounded(l, next) && PlantsApart(l) && CanStep(l, PollStep)
    requires l.poll.Plant? || l.poll.Mix?
    ensures
      var (l', next', ws) := MicroStep(l, PollStep, next);
      ws == [] && Evolves(l, l', next, next')
  {
    var l', e := MicroStep(l, PollStep, next).0, l.poll.entropy;
    if l.poll.Plant? {
      assert e in Held(l) && l'.g.twister == Stream(Planted(e), 0);
    } else {
      assert e in Mixing(l) && l'.g.openssl == Stream(Stirred(l.g.openssl, e), 0);
    }
  }

  lemma QuietStepEvolves(l: Local, m: FineGrained.Micro, next: Nonce)
    requires LocalInv(l) && Bounded(l, next) && PlantsApart(l) && CanStep(l, m)
    requires !(m.WorkStep? && l.work.Draw?)
    ensures
      var (l', next', ws) := MicroStep(l, m, next);
      ws == [] && Evolves(l, l', next, next')
  {
    match m
    case WorkStep =>
      if l.work.Plant? || l.work.Mix? {
        WorkUseEvolves(l, next);
      } else {
        WorkReadEvolves(l, next);
      }
    case PollStep =>
      if l.poll.Plant? || l.poll.Mix? {
        PollUseEvolves(l, next);
      } else {
        PollReadEvolves(l, next);
      }
    case _ =>
      var l' := MicroStep(l, m, next).0;
      assert l'.g.twister == l.g.twister && l'.g.openssl == l.g.openssl;
  }

  /** The entropy a guest runs on comes from what it ran on and what it held. */
  lemma EvolvedEntropy(l: Local, l': Local, next: Nonce, next': Nonce)
    requires Bounded(l, next) && Evolves(l, l', next, next')
    ensures forall e :: e in Public(l') ==> e in Public(l) || next <= e
    ensures forall e :: e in Private(l') ==> e in Private(l) || next <= e
    ensures TwisterTag(l') == TwisterTag(l) || TwisterTag(l') in Held(l)
    ensures l'.ownTwister ==> l.ownTwister || TwisterTag(l') in Held(l)
  {
    EntropyIsDrawn(l, next);
    EvolvedHoldings(l, l', next, next');
    if l'.g.openssl != l.g.openssl || l'.ownOpenssl != l.ownOpenssl {
      var e :| e in Mixing(l) && l'.g.openssl == Stream(Stirred(l.g.openssl, e), 0)
        && l'.ownOpenssl == (l.ownOpenssl || e in OwnMixing(l));
      assert OpensslTag(l') == e || OpensslTag(l') == OpensslTag(l);
    }
  }

  /** Exclusive in both directions, for a guest that evolved against one that did not. */
  lemma EvolvedStaysExclusive(l: Local, l': Local, next: Nonce, next': Nonce, other: Local)
    requires Bounded(l, next) && Evolves(l, l', next, next') && Bounded(other, next)
    requires Exclusive(l, other) && Exclusive(other, l)
    ensures Exclusive(l', other) && Exclusive(other, l')
  {
    EvolvedEntropy(l, l', next, next');
    EvolvedHoldings(l, l', next, next');
    EntropyIsDrawn(other, next);
  }

  lemma EvolvedTwisterStaysAhead(l: Local, l': Local, log: seq<Entry>, k: nat)
    requires TwisterEvolves(l, l') && HeldIsUnused(l, log) && k < |log| && log[k].word.source == Twister
    requires Ahead(l, log[k])
    ensures Ahead(l', log[k])
  {
    assert Unused(l, log[k]);
  }

  lemma EvolvedOpensslStaysAhead(l: Local, l': Local, next: Nonce, log: seq<Entry>, k: nat)
    requires Bounded(l, next) && OpensslEvolves(l, l') && HeldIsUnused(l, log) && k < |log|
    requires log[k].word.source == OpenSsl && Ahead(l, log[k])
    ensures Ahead(l', log[k])
  {
    assert Unused(l, log[k]);
    EntropyIsDrawn(l, next);
    if l'.g.openssl != l.g.openssl || l'.ownOpenssl != l.ownOpenssl {
      var e :| e in Mixing(l) && l'.g.openssl == Stream(Stirred(l.g.openssl, e), 0)
        && l'.ownOpenssl == (l.ownOpenssl || e in OwnMixing(l));
      assert Depth(l'.g.openssl.seed) == 1 + Depth(l.g.openssl.seed);
    }
  }

  lemma EvolvedStaysAhead(l: Local, l': Local, next: Nonce, next': Nonce, log: seq<Entry>, k: nat)
    requires Bounded(l, next) && Evolves(l, l', next, next') && HeldIsUnused(l, log) && k < |log|
    requires Ahead(l, log[k])
    ensures Ahead(l', log[k])
  {
    match log[k].word.source
    case Twister => EvolvedTwisterStaysAhead(l, l', log, k);
    case OpenSsl => EvolvedOpensslStaysAhead(l, l', next, log, k);
  }

  lemma BoundedLater(l: Local, next: Nonce, next': Nonce)
    requires Bounded(l, next) && next <= next'
    ensures Bounded(l, next')
  {
  }

  lemma QuietStepKeepsExclusive(sys: System, i: nat, m: FineGrained.Micro, n: Name, o: Name)
    requires Inv(sys) && Enabled(sys, Micro(i, m)) && !(m.WorkStep? && sys.guests[Instance(i)].work.Draw?)
    requires n in sys.guests && o in sys.guests && n != o
    ensures Exclusive(Apply(sys, Micro(i, m)).guests[n], Apply(sys, Micro(i, m)).guests[o])
  {
    var l := sys.guests[Instance(i)];
    var (l', next', ws) := MicroStep(l, m, sys.next);
    assert HeldIsUnused(l, sys.log);
    QuietStepEvolves(l, m, sys.next);
    if n == Instance(i) {
      EvolvedStaysExclusive(l, l', sys.next, next', sys.guests[o]);
    } else if o == Instance(i) {
      EvolvedStaysExclusive(l, l', sys.next, next', sys.guests[n]);
    }
  }

  lemma QuietStepKeepsGuestsInv(sys: System, i: nat, m: FineGrained.Micro)
    requires Inv(sys) && Enabled(sys, Micro(i, m))
    requires !(m.WorkStep? && sys.guests[Instance(i)].work.Draw?)
    ensures GuestsInv(Apply(sys, Micro(i, m)))
  {
    var l := sys.guests[Instance(i)];
    assert HeldIsUnused(l, sys.log);
    QuietStepEvolves(l, m, sys.next);
    MicroStepKeepsLocalInv(l, m, sys.next);
    var sys' := Apply(sys, Micro(i, m));
    forall n | n in sys'.guests ensures LocalInv(sys'.guests[n]) && Bounded(sys'.guests[n], sys'.next) {
      if n != Instance(i) {
        BoundedLater(sys.guests[n], sys.next, sys'.next);
      }
    }
    forall n, o | n in sys'.guests && o in sys'.guests && n != o
      ensures Exclusive(sys'.guests[n], sys'.guests[o])
    {
      QuietStepKeepsExclusive(sys, i, m, n, o);
    }
  }

  lemma EvolvedHeldIsUnused(l: Local, l': Local, next: Nonce, next': Nonce, log: seq<Entry>)
    requires Evolves(l, l', next, next') && HeldIsUnused(l, log)
    requires forall k :: 0 <= k < |log| ==> Newest(log[k].word.seed) < next
    ensures HeldIsUnused(l', log)
  {
    EvolvedHoldings(l, l', next, next');
    forall k | 0 <= k < |log| ensures Unused(l', log[k]) {
      assert Unused(l, log[k]);
    }
  }

  lemma QuietStepKeepsLogInv(sys: System, i: nat, m: FineGrained.Micro)
    requires Inv(sys) && Enabled(sys, Micro(i, m))
    requires !(m.WorkStep? && sys.guests[Instance(i)].work.Draw?)
    ensures LogInv(Apply(sys, Micro(i, m)))
  {
    var l := sys.guests[Instance(i)];
    var (l', next', ws) := MicroStep(l, m, sys.next);
    assert HeldIsUnused(l, sys.log);
    QuietStepEvolves(l, m, sys.next);
    var sys' := Apply(sys, Micro(i, m));
    assert sys'.log == sys.log;
    EvolvedHeldIsUnused(l, l', sys.next, next', sys.log);
    forall n, k | n in sys'.guests && 0 <= k < |sys'.log| ensures Ahead(sys'.guests[n], sys'.log[k]) {
      if n == Instance(i) {
        EvolvedStaysAhead(l, l', sys.next, next', sys.log, k);
      }
    }
  }

  // ---------------------------------------------------------------- draws

  /** A draw moves a position and nothing else that matters. */
  lemma DrawKeepsEntropy(l: Local)
    requires l.work.Draw?
    ensures
      var d := DrawStep(l);
      && (forall source :: d.g.Of(source).seed == l.g.Of(source).seed && d.Owns(source) == l.Owns(source))
      && TwisterTag(d) == TwisterTag(l) && OpensslTag(d) == OpensslTag(l)
      && Held(d) == Held(l) && Mixing(d) == Mixing(l) && OwnMixing(d) == OwnMixing(l)
      && Public(d) == Public(l) && Private(d) == Private(l)
      && (forall next :: Bounded(l, next) ==> Bounded(d, next))
  {
    var d := DrawStep(l);
    assert d.g.Of(Twister).seed == l.g.Of(Twister).seed && d.g.Of(OpenSsl).seed == l.g.Of(OpenSsl).seed;
  }

  lemma DrawKeepsGuestsInv(sys: System, i: nat)
    requires Inv(sys) && Enabled(sys, Micro(i, WorkStep)) && sys.guests[Instance(i)].work.Draw?
    ensures GuestsInv(Apply(sys, Micro(i, WorkStep)))
  {
    var l := sys.guests[Instance(i)];
    var sys' := Apply(sys, Micro(i, WorkStep));
    MicroStepKeepsLocalInv(l, WorkStep, sys.next);
    DrawKeepsEntropy(l);
    forall n, o | n in sys'.guests && o in sys'.guests && n != o
      ensures Exclusive(sys'.guests[n], sys'.guests[o])
    {
      assert Exclusive(sys.guests[n], sys.guests[o]);
    }
  }

  /** The log after a draw: what was there, then consecutive words of the drawn stream. */
  lemma DrawAppends(sys: System, i: nat)
    requires Enabled(sys, Micro(i, WorkStep)) && sys.guests[Instance(i)].work.Draw?
    ensures
      var l := sys.guests[Instance(i)];
      var sys' := Apply(sys, Micro(i, WorkStep));
      var stream := l.g.Of(l.source);
      && sys'.guests == sys.guests[Instance(i) := DrawStep(l)] && sys'.next == sys.next
      && |sys'.log| == |sys.log| + l.count
      && (forall k :: 0 <= k < |sys.log| ==> sys'.log[k] == sys.log[k])
      && (forall k :: |sys.log| <= k < |sys'.log| ==>
            sys'.log[k] == Entry(Word(l.source, stream.seed, stream.position + (k - |sys.log|)), l.Owns(l.source)))
  {
  }

  lemma DrawKeepsAhead(l: Local, entry: Entry)
    requires l.work.Draw? && Ahead(l, entry)
    ensures Ahead(DrawStep(l), entry)
  {
    DrawKeepsEntropy(l);
  }

  lemma DrawKeepsEveryoneAhead(sys: System, i: nat, n: Name, k: nat)
    requires Inv(sys) && Enabled(sys, Micro(i, WorkStep)) && sys.guests[Instance(i)].work.Draw?
    requires n in sys.guests && k < |Apply(sys, Micro(i, WorkStep)).log|
    ensures Ahead(Apply(sys, Micro(i, WorkStep)).guests[n], Apply(sys, Micro(i, WorkStep)).log[k])
  {
    DrawAppends(sys, i);
    var l := sys.guests[Instance(i)];
    if k < |sys.log| {
      if n == Instance(i) {
        DrawKeepsAhead(l, sys.log[k]);
      }
    } else if n != Instance(i) {
      assert Exclusive(sys.guests[n], l) && Exclusive(l, sys.guests[n]);
    } else {
      DrawKeepsEntropy(l);
    }
  }

  lemma DrawnIsUnused(sys: System, i: nat, n: Name, k: nat)
    requires Inv(sys) && Enabled(sys, Micro(i, WorkStep)) && sys.guests[Instance(i)].work.Draw?
    requires n in sys.guests && |sys.log| <= k < |Apply(sys, Micro(i, WorkStep)).log|
    ensures Unused(sys.guests[n], Apply(sys, Micro(i, WorkStep)).log[k])
  {
    DrawAppends(sys, i);
    var l := sys.guests[Instance(i)];
    if n != Instance(i) {
      assert Exclusive(sys.guests[n], l) && Exclusive(l, sys.guests[n]);
    } else {
      EntropyIsDrawn(l, sys.next);
      assert HeldIsUnused(l, sys.log);
    }
  }

  lemma DrawKeepsSharing(sys: System, i: nat)
    requires LogInv(sys) && Enabled(sys, Micro(i, WorkStep)) && sys.guests[Instance(i)].work.Draw?
    ensures SharedOnlyInFlight(Apply(sys, Micro(i, WorkStep)).log)
  {
    DrawAppends(sys, i);
    var sys' := Apply(sys, Micro(i, WorkStep));
    forall a, b | 0 <= a < b < |sys'.log| && sys'.log[a].word == sys'.log[b].word
      ensures !sys'.log[a].own && !sys'.log[b].own
    {
      if a < |sys.log| <= b {
        assert Ahead(sys.guests[Instance(i)], sys.log[a]);
      }
    }
  }

  lemma DrawKeepsHeldUnused(sys: System, i: nat, n: Name)
    requires Inv(sys) && Enabled(sys, Micro(i, WorkStep)) && sys.guests[Instance(i)].work.Draw? && n in sys.guests
    ensures HeldIsUnused(Apply(sys, Micro(i, WorkStep)).guests[n], Apply(sys, Micro(i, WorkStep)).log)
  {
    DrawAppends(sys, i);
    DrawKeepsEntropy(sys.guests[Instance(i)]);
    var sys' := Apply(sys, Micro(i, WorkStep));
    assert HeldIsUnused(sys.guests[n], sys.log);
    forall k | 0 <= k < |sys'.log| ensures Unused(sys'.guests[n], sys'.log[k]) {
      if k >= |sys.log| {
        DrawnIsUnused(sys, i, n, k);
      }
    }
  }

  lemma DrawKeepsLogInv(sys: System, i: nat)
    requires Inv(sys) && Enabled(sys, Micro(i, WorkStep)) && sys.guests[Instance(i)].work.Draw?
    ensures LogInv(Apply(sys, Micro(i, WorkStep)))
  {
    DrawAppends(sys, i);
    DrawKeepsSharing(sys, i);
    var sys' := Apply(sys, Micro(i, WorkStep));
    forall n | n in sys'.guests ensures HeldIsUnused(sys'.guests[n], sys'.log) {
      DrawKeepsHeldUnused(sys, i, n);
    }
    forall n, k | n in sys'.guests && 0 <= k < |sys'.log| ensures Ahead(sys'.guests[n], sys'.log[k]) {
      DrawKeepsEveryoneAhead(sys, i, n, k);
    }
  }

  // ---------------------------------------------------------------- captures, loads, boots

  /** Capturing gives up ownership and nothing else. */
  lemma CaptureIsWeaker(l: Local, next: Nonce)
    requires !HoldsEntropy(l) && Bounded(l, next)
    ensures
      var c := Capture(l, next);
      && c.g == l.g && Held(c) == {} && Private(c) == {} && OwnMixing(c) == {} && !c.ownTwister
      && Mixing(c) == Mixing(l) && Public(c) == Public(l)
      && Bounded(c, next)
  {
  }

  lemma CaptureIsExclusive(l: Local, next: Nonce, other: Local)
    requires !HoldsEntropy(l) && Bounded(l, next)
    ensures Exclusive(other, l) ==> Exclusive(other, Capture(l, next)) && Exclusive(Capture(l, next), other)
    ensures Exclusive(Capture(l, next), Capture(l, next))
  {
    CaptureIsWeaker(l, next);
    assert TwisterTag(Capture(l, next)) == TwisterTag(l);
  }

  lemma TakeKeepsExclusive(sys: System, i: nat, s: nat, n: Name, o: Name)
    requires Inv(sys) && Enabled(sys, Take(i, s))
    requires n in Apply(sys, Take(i, s)).guests && o in Apply(sys, Take(i, s)).guests && n != o
    ensures Exclusive(Apply(sys, Take(i, s)).guests[n], Apply(sys, Take(i, s)).guests[o])
  {
    var l := sys.guests[Instance(i)];
    if n != Instance(i) && n != Image(s) {
      CaptureIsExclusive(l, sys.next, sys.guests[n]);
    } else if o != Instance(i) && o != Image(s) {
      CaptureIsExclusive(l, sys.next, sys.guests[o]);
    } else {
      CaptureIsExclusive(l, sys.next, l);
    }
  }

  lemma CaptureIsImage(l: Local, next: Nonce)
    requires !HoldsEntropy(l) && l.g.stopped
    ensures IsImage(Capture(l, next))
  {
  }

  lemma TakeKeepsGuests(sys: System, i: nat, s: nat, n: Name)
    requires Inv(sys) && Enabled(sys, Take(i, s)) && n in Apply(sys, Take(i, s)).guests
    ensures
      var l' := Apply(sys, Take(i, s)).guests[n];
      LocalInv(l') && Bounded(l', sys.next) && (n.Image? ==> IsImage(l'))
  {
    if n == Instance(i) || n == Image(s) {
      var l := sys.guests[Instance(i)];
      CaptureKeepsLocalInv(l, sys.next);
      CaptureIsWeaker(l, sys.next);
      CaptureIsImage(l, sys.next);
    }
  }

  lemma TakeKeepsGuestsInv(sys: System, i: nat, s: nat)
    requires Inv(sys) && Enabled(sys, Take(i, s))
    ensures GuestsInv(Apply(sys, Take(i, s)))
  {
    var sys' := Apply(sys, Take(i, s));
    forall n | n in sys'.guests
      ensures LocalInv(sys'.guests[n]) && Bounded(sys'.guests[n], sys'.next)
      ensures n.Image? ==> IsImage(sys'.guests[n])
    {
      TakeKeepsGuests(sys, i, s, n);
    }
    forall n, o | n in sys'.guests && o in sys'.guests && n != o
      ensures Exclusive(sys'.guests[n], sys'.guests[o])
    {
      TakeKeepsExclusive(sys, i, s, n, o);
    }
  }

  lemma TakeKeepsLogInv(sys: System, i: nat, s: nat)
    requires Inv(sys) && Enabled(sys, Take(i, s))
    ensures LogInv(Apply(sys, Take(i, s)))
  {
    var l := sys.guests[Instance(i)];
    var sys' := Apply(sys, Take(i, s));
    CaptureIsWeaker(l, sys.next);
    forall n | n in sys'.guests ensures HeldIsUnused(sys'.guests[n], sys'.log) {
      forall k | 0 <= k < |sys'.log| ensures Unused(sys'.guests[n], sys'.log[k]) {
        assert HeldIsUnused(l, sys.log) && Unused(l, sys.log[k]);
        assert n in sys.guests ==> HeldIsUnused(sys.guests[n], sys.log);
      }
    }
    forall n, k | n in sys'.guests && 0 <= k < |sys'.log| ensures Ahead(sys'.guests[n], sys'.log[k]) {
      assert Ahead(l, sys.log[k]);
      assert Capture(l, sys.next).g.Of(sys.log[k].word.source) == l.g.Of(sys.log[k].word.source);
    }
  }

  lemma ImageOwnsNothing(l: Local)
    requires IsImage(l)
    ensures Held(l) == {} && Private(l) == {} && !l.ownTwister && Exclusive(l, l)
  {
  }

  lemma LoadKeepsInv(sys: System, s: nat, i: nat)
    requires Inv(sys) && Enabled(sys, Load(s, i))
    ensures Inv(Apply(sys, Load(s, i)))
  {
    var image := sys.guests[Image(s)];
    var sys' := Apply(sys, Load(s, i));
    ImageOwnsNothing(image);
    forall n, o | n in sys'.guests && o in sys'.guests && n != o
      ensures Exclusive(sys'.guests[n], sys'.guests[o])
    {
      if n != Instance(i) && n != Image(s) {
        assert Exclusive(sys.guests[n], image);
      }
    }
  }

  lemma BootedIsApart(sys: System, other: Local)
    requires Bounded(other, sys.next)
    ensures Exclusive(BootedLocal(sys.next), other) && Exclusive(other, BootedLocal(sys.next))
  {
    var l := BootedLocal(sys.next);
    assert TwisterTag(l) == sys.next && OpensslTag(l) == sys.next + 1;
    EntropyIsDrawn(other, sys.next);
  }

  lemma BootKeepsInv(sys: System, i: nat)
    requires Inv(sys) && Enabled(sys, Boot(i))
    ensures Inv(Apply(sys, Boot(i)))
  {
    var l := BootedLocal(sys.next);
    var sys' := Apply(sys, Boot(i));
    assert TwisterTag(l) == sys.next && OpensslTag(l) == sys.next + 1;
    forall n, o | n in sys'.guests && o in sys'.guests && n != o
      ensures Exclusive(sys'.guests[n], sys'.guests[o])
    {
      if n == Instance(i) {
        BootedIsApart(sys, sys.guests[o]);
      } else if o == Instance(i) {
        BootedIsApart(sys, sys.guests[n]);
      }
    }
    forall n, k | n in sys'.guests && 0 <= k < |sys'.log| ensures Ahead(sys'.guests[n], sys'.log[k]) {
      if n == Instance(i) {
        assert Newest(l.g.Of(sys.log[k].word.source).seed) >= sys.next;
      }
    }
  }

  lemma StepKeepsInv(sys: System, step: Step)
    requires Inv(sys) && Enabled(sys, step)
    ensures Inv(Apply(sys, step))
  {
    match step
    case Boot(i) => BootKeepsInv(sys, i);
    case Micro(i, m) =>
      if m.WorkStep? && sys.guests[Instance(i)].work.Draw? {
        DrawKeepsGuestsInv(sys, i);
        DrawKeepsLogInv(sys, i);
      } else {
        QuietStepKeepsGuestsInv(sys, i, m);
        QuietStepKeepsLogInv(sys, i, m);
      }
    case Take(i, s) =>
      TakeKeepsGuestsInv(sys, i, s);
      TakeKeepsLogInv(sys, i, s);
    case Load(s, i) => LoadKeepsInv(sys, s, i);
    case Destroy(i) =>
  }

  lemma {:induction false} RunKeepsInv(sys: System, run: seq<Step>)
    requires Inv(sys) && ValidRun(sys, run)
    ensures Inv(After(sys, run))
    decreases |run|
  {
    if run != [] {
      StepKeepsInv(sys, run[0]);
      RunKeepsInv(Apply(sys, run[0]), run[1..]);
    }
  }

  /** In-flight bound: since its last capture no guest has made two calls on a captured state. */
  lemma AtMostOneStaleCall(run: seq<Step>, n: Name)
    requires ValidRun(EMPTY, run) && n in After(EMPTY, run).guests
    ensures After(EMPTY, run).guests[n].stale <= 1
  {
    RunKeepsInv(EMPTY, run);
  }

  /** A word drawn from a generator its guest owns is never returned again, by any call anywhere. */
  lemma OnlyInFlightCallsShareWords(run: seq<Step>)
    requires ValidRun(EMPTY, run)
    ensures SharedOnlyInFlight(After(EMPTY, run).log)
  {
    RunKeepsInv(EMPTY, run);
  }
}
