/**
 What the hook leaves alone: between forks the generators run on undisturbed, so a seed the
 application set keeps its whole stream, and a fork makes them reseed exactly once
 (spikes/guest/sitecustomize.py:8-11, 38-76).
 */
module Determinism {
  import opened Guest

  /** What the guest's own threads do: a wrapped call, or a turn of the poller. */
  datatype Act = Draw(source: Source, count: nat) | Turn

  function Do(g: State, act: Act, next: Nonce): (State, Nonce, seq<Word>) {
    match act
    case Draw(source, count) => Call(g, source, count, next)
    case Turn => (Check(g, next).0, Check(g, next).1, [])
  }

  function DoAll(g: State, acts: seq<Act>, next: Nonce): (State, Nonce, seq<Word>)
    decreases |acts|
  {
    if acts == [] then (g, next, []) else
      var (g1, next1, ws1) := Do(g, acts[0], next);
      var (g2, next2, ws2) := DoAll(g1, acts[1..], next1);
      (g2, next2, ws1 + ws2)
  }

  /** The words among `ws` that one generator returned, and how many were asked of it. */
  function Of(ws: seq<Word>, source: Source): seq<Word> {
    if ws == [] then [] else (if ws[0].source == source then [ws[0]] else []) + Of(ws[1..], source)
  }

  function Asked(acts: seq<Act>, source: Source): nat {
    if acts == [] then 0 else
      (if acts[0].Draw? && acts[0].source == source then acts[0].count else 0) + Asked(acts[1..], source)
  }

  /** A fork has happened that the hook has not answered yet. */
  predicate Pending(g: State) {
    g.forkgen.Some? && g.cached.Some? && g.forkgen != g.cached
  }

  lemma {:induction false} OfAppend(a: seq<Word>, b: seq<Word>, source: Source)
    ensures Of(a + b, source) == Of(a, source) + Of(b, source)
  {
    if a == [] {
      assert a + b == b;
    } else {
      var first := if a[0].source == source then [a[0]] else [];
      assert (a + b)[0] == a[0] && (a + b)[1..] == a[1..] + b;
      OfAppend(a[1..], b, source);
      assert first + (Of(a[1..], source) + Of(b, source)) == (first + Of(a[1..], source)) + Of(b, source);
    }
  }

  lemma {:induction false} OfWords(from: Source, s: Stream, count: nat, source: Source)
    ensures Of(Words(from, s, count), source) == if from == source then Words(from, s, count) else []
    decreases count
  {
    if count > 0 {
      var ws, rest := Words(from, s, count), Stream(s.seed, s.position + 1);
      OfWords(from, rest, count - 1, source);
      assert ws[1..] == Words(from, rest, count - 1);
      assert from == source ==> ws == [ws[0]] + Words(from, rest, count - 1);
    }
  }

  lemma WordsContinue(source: Source, s: Stream, a: nat, b: nat)
    ensures Words(source, s, a) + Words(source, Stream(s.seed, s.position + a), b) == Words(source, s, a + b)
  {
  }

  /** One act of a guest with no fork pending draws on what was there. */
  lemma QuietAct(g: State, act: Act, next: Nonce, source: Source)
    requires !Pending(g)
    ensures
      var (h, next', ws) := Do(g, act, next);
      var n := Asked([act], source);
      && !Pending(h) && next' == next
      && h.Of(source) == Stream(g.Of(source).seed, g.Of(source).position + n)
      && Of(ws, source) == Words(source, g.Of(source), n)
  {
    assert [act][1..] == [];
    if act.Draw? {
      OfWords(act.source, g.Of(act.source), act.count, source);
    }
  }

  /** No fork, no reseed: whatever else it draws, each generator hands out the next words of the
      stream it was on, and no kernel entropy is used. */
  lemma {:induction false} NoForkNoReseed(g: State, acts: seq<Act>, next: Nonce, source: Source)
    requires !Pending(g)
    ensures
      var (h, next', ws) := DoAll(g, acts, next);
      && !Pending(h) && next' == next
      && h.Of(source) == Stream(g.Of(source).seed, g.Of(source).position + Asked(acts, source))
      && Of(ws, source) == Words(source, g.Of(source), Asked(acts, source))
    decreases |acts|
  {
    if acts != [] {
      var (g1, next1, ws1) := Do(g, acts[0], next);
      QuietAct(g, acts[0], next, source);
      assert [acts[0]][1..] == [];
      NoForkNoReseed(g1, acts[1..], next1, source);
      OfAppend(ws1, DoAll(g1, acts[1..], next1).2, source);
      WordsContinue(source, g.Of(source), Asked([acts[0]], source), Asked(acts[1..], source));
    }
  }

  /** After a fork the first act, be it a call or the poller's turn, reseeds both generators, and
      nothing reseeds them again. */
  lemma OneForkOneReseed(g: State, acts: seq<Act>, next: Nonce, source: Source)
    requires Pending(g) && acts != []
    ensures
      var (h, next', ws) := DoAll(g, acts, next);
      && !Pending(h) && next' == next + 2
      && h.Of(source).seed.entropy >= next && h.Of(source).position == Asked(acts, source)
      && Of(ws, source) == Words(source, Stream(h.Of(source).seed, 0), Asked(acts, source))
  {
    var anew := Check(g, next).0;
    NoForkNoReseed(anew, acts, next + 2, source);
    assert Do(g, acts[0], next) == Do(anew, acts[0], next + 2);
    assert DoAll(g, acts, next) == DoAll(anew, acts, next + 2);
  }

  /** The words of a guest are those of its seeds exactly when no fork was pending. */
  lemma StreamsGoOnExactlyWithoutFork(g: State, acts: seq<Act>, next: Nonce, source: Source)
    requires acts != [] && g.Of(source).seed.entropy < next
    ensures DoAll(g, acts, next).0.Of(source).seed == g.Of(source).seed <==> !Pending(g)
  {
    if Pending(g) {
      OneForkOneReseed(g, acts, next, source);
    } else {
      NoForkNoReseed(g, acts, next, source);
    }
  }
}
