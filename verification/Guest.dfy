/**
 The inside of one guest: the RNG hook (spikes/guest/sitecustomize.py, event mode) and the
 agent that gates the workload (spikes/guest/guest_agent.py).

 Randomness is symbolic.  Kernel entropy is a supply of nonces that never repeats, a generator
 is the seed it runs on plus the number of words it has handed out, and a word is a seed and a
 position.  Two words are equal exactly when a real generator would return the same bits.
 */
module Guest {
  import opened Wrappers

  type Nonce = nat

  /** The generators behind the three wrapped calls: `random.*` and `ssl.RAND_bytes`. */
  datatype Source = Twister | OpenSsl

  /** `random.seed` replaces the state; `ssl.RAND_add` stirs entropy into the present one. */
  datatype Seed = Planted(entropy: Nonce) | Stirred(prior: Stream, entropy: Nonce)

  datatype Stream = Stream(seed: Seed, position: nat)

  datatype Word = Word(source: Source, seed: Seed, position: nat)

  datatype Branch = Branch(index: nat, n: nat, context: string)

  /** Everything of a guest that a snapshot copies and the protocol touches. */
  datatype State = State(
    forkgen: Option<nat>,    // contents of /run/klados/forkgen, None when unreadable
    cached: Option<nat>,     // the hook's _state["gen"]
    stopped: bool,           // the workload has been SIGSTOPped
    twister: Stream,
    openssl: Stream,
    branch: Option<Branch>)  // contents of /run/klados/branch.json
  {
    function Of(source: Source): Stream {
      match source
      case Twister => twister
      case OpenSsl => openssl
    }
  }

  datatype Message = Ping | Quiesce | Forked(index: nat, n: nat, context: Option<string>) | Unknown

  datatype Reply = Pong | Quiesced | Ready(index: nat, gen: nat) | Error

  // ---------------------------------------------------------------- the hook, on values

  /** `_reseed`: two reads of kernel entropy. */
  function Reseed(g: State, next: Nonce): State {
    g.(twister := Stream(Planted(next), 0), openssl := Stream(Stirred(g.openssl, next + 1), 0))
  }

  /** `_maybe_reseed`: the guest afterwards and the next unused nonce. */
  function Check(g: State, next: Nonce): (State, Nonce) {
    if g.forkgen.Some? && g.forkgen != g.cached then
      if g.cached.Some?
      then (Reseed(g, next).(cached := g.forkgen), next + 2)
      else (g.(cached := g.forkgen), next)
    else
      (g, next)
  }

  /** `count` consecutive words of a stream. */
  function Words(source: Source, s: Stream, count: nat): (ws: seq<Word>)
    ensures |ws| == count
    ensures forall k :: 0 <= k < count ==> ws[k] == Word(source, s.seed, s.position + k)
  {
    seq(count, k requires 0 <= k => Word(source, s.seed, s.position + k))
  }

  /** The unwrapped generator call: hand out `count` words and advance. */
  function Advance(g: State, source: Source, count: nat): State {
    match source
    case Twister => g.(twister := g.twister.(position := g.twister.position + count))
    case OpenSsl => g.(openssl := g.openssl.(position := g.openssl.position + count))
  }

  /** A wrapped call: check the generation, then draw. */
  function Call(g: State, source: Source, count: nat, next: Nonce): (State, Nonce, seq<Word>) {
    var (h, next') := Check(g, next);
    (Advance(h, source, count), next', Words(source, h.Of(source), count))
  }

  // ---------------------------------------------------------------- the agent, on values

  /** `_bump_gen`: an unreadable generation counts as 0. */
  function NextGen(g: State): nat {
    (if g.forkgen.Some? then g.forkgen.value else 0) + 1
  }

  /** `Agent.handle` for the messages of the fork protocol. */
  function Handle(g: State, m: Message): (State, Reply) {
    match m
    case Ping => (g, Pong)
    case Quiesce => (g.(stopped := true), Quiesced)
    case Forked(index, n, context) =>
      var branch := if context.Some? then Some(Branch(index, n, context.value)) else g.branch;
      (g.(branch := branch, forkgen := Some(NextGen(g)), stopped := false), Ready(index, NextGen(g)))
    case Unknown => (g, Error)
  }

  /** A freshly booted guest: the agent wrote generation 0 before it spawned the workload, whose
      hook has read its baseline. */
  function Booted(next: Nonce): State {
    State(Some(0), Some(0), false, Stream(Planted(next), 0), Stream(Planted(next + 1), 0), None)
  }

  // ---------------------------------------------------------------- the code, in place

  /** Kernel randomness (`os.urandom`): a value never returned before, to any guest. */
  class Kernel {
    var next: Nonce

    constructor ()
      ensures next == 0
    {
      next := 0;
    }

    method Urandom() returns (n: Nonce)
      modifies this
      ensures n == old(next) && next == old(next) + 1
    {
      n := next;
      next := next + 1;
    }
  }

  /** The hook's and the agent's own variables, updated in place as the Python does. */
  class Vm {
    var forkgen: Option<nat>
    var cached: Option<nat>
    var stopped: bool
    var twister: Stream
    var openssl: Stream
    var branch: Option<Branch>
    ghost var wokeIn: Option<State>  // the guest as the workload found it when it last started to run

    function Snapshot(): State
      reads this
    {
      State(forkgen, cached, stopped, twister, openssl, branch)
    }

    /** The generation file is written, the workload starts, and its hook reads the baseline. */
    constructor Boot(kernel: Kernel)
      modifies kernel
      ensures Snapshot() == Booted(old(kernel.next)) && kernel.next == old(kernel.next) + 2
      ensures forkgen == Some(0) && cached == Some(0) && !stopped && branch == None
      ensures wokeIn == Some(Snapshot().(cached := None))
    {
      var a := kernel.Urandom();
      var b := kernel.Urandom();
      forkgen, cached, stopped, branch := Some(0), None, true, None;
      twister, openssl := Stream(Planted(a), 0), Stream(Planted(b), 0);
      wokeIn := None;
      new;
      Continue();
      cached := forkgen;
    }

    constructor Load(image: State)
      ensures Snapshot() == image && wokeIn == None
    {
      forkgen, cached, stopped := image.forkgen, image.cached, image.stopped;
      twister, openssl, branch := image.twister, image.openssl, image.branch;
      wokeIn := None;
    }

    /** SIGCONT, or the spawn: from here on the workload runs. */
    method Continue()
      modifies this`stopped, this`wokeIn
      ensures !stopped && wokeIn == Some(Snapshot())
    {
      stopped := false;
      wokeIn := Some(Snapshot());
    }

    method ReseedInPlace(kernel: Kernel)
      modifies this`twister, this`openssl, kernel
      ensures Snapshot() == Reseed(old(Snapshot()), old(kernel.next))
      ensures kernel.next == old(kernel.next) + 2
    {
      var a := kernel.Urandom();
      twister := Stream(Planted(a), 0);
      var b := kernel.Urandom();
      openssl := Stream(Stirred(openssl, b), 0);
    }

    method MaybeReseed(kernel: Kernel)
      modifies this`twister, this`openssl, this`cached, kernel
      ensures (Snapshot(), kernel.next) == Check(old(Snapshot()), old(kernel.next))
    {
      var g := forkgen;
      if g.Some? && g != cached {
        if cached.Some? {
          ReseedInPlace(kernel);
        }
        cached := g;
      }
    }

    /** The three wrappers differ only in the generator they draw from and how much they draw. */
    method Wrapped(kernel: Kernel, source: Source, count: nat) returns (ws: seq<Word>)
      modifies this`twister, this`openssl, this`cached, kernel
      ensures (Snapshot(), kernel.next, ws) == Call(old(Snapshot()), source, count, old(kernel.next))
    {
      MaybeReseed(kernel);
      match source {
        case Twister =>
          ws := Words(Twister, twister, count);
          twister := twister.(position := twister.position + count);
        case OpenSsl =>
          ws := Words(OpenSsl, openssl, count);
          openssl := openssl.(position := openssl.position + count);
      }
    }

    method BumpGen() returns (gen: nat)
      modifies this`forkgen
      ensures gen == NextGen(old(Snapshot())) && forkgen == Some(gen)
    {
      var cur := if forkgen.Some? then forkgen.value else 0;
      forkgen := Some(cur + 1);
      gen := cur + 1;
    }

    /** When FORKED lets the workload run, it finds the new generation and branch already there. */
    method HandleMessage(m: Message) returns (reply: Reply)
      modifies this`branch, this`forkgen, this`stopped, this`wokeIn
      ensures (Snapshot(), reply) == Handle(old(Snapshot()), m)
      ensures wokeIn == if m.Forked? then Some(Handle(old(Snapshot()), m).0) else old(wokeIn)
      ensures match m
              case Ping => reply == Pong && Snapshot() == old(Snapshot())
              case Unknown => reply == Error && Snapshot() == old(Snapshot())
              case Quiesce => reply == Quiesced && Snapshot() == old(Snapshot()).(stopped := true)
              case Forked(index, n, context) =>
                && forkgen == Some((if old(forkgen).Some? then old(forkgen).value else 0) + 1) && !stopped
                && reply == Ready(index, forkgen.value)
                && (context.None? ==> branch == old(branch))
                && (context.Some? ==>
                      && branch.Some? && branch.value.index == index && branch.value.n == n
                      && branch.value.context == context.value)
    {
      match m {
        case Ping => reply := Pong;
        case Quiesce =>
          stopped := true;
          reply := Quiesced;
        case Forked(index, n, context) =>
          if context.Some? {
            branch := Some(Branch(index, n, context.value));
          }
          var gen := BumpGen();  // bump the generation first ...
          Continue();            // ... then release the workload
          reply := Ready(index, gen);
        case Unknown => reply := Error;
      }
    }
  }
}
