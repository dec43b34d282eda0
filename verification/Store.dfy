/**
 The content-addressed store (class `CAS`, spikes/storage/cas.py): put, flush to the cold tier,
 get with re-warming of the hot cache, and the counters behind `stats`.
 */
module Store {
  import opened Wrappers
  import opened Chunking
  import opened ChunkLaws

  type Key = string

  /** blake2b and zlib, known only by what `Sound` says of them. */
  datatype Config = Config(
    mode: Mode, root: bool, s3: bool,
    hash: Bytes -> Key, compress: Bytes -> Bytes, decompress: Bytes -> Option<Bytes>)

  ghost predicate Sound(c: Config) {
    && Usable(c.mode)
    && (forall a, b :: c.hash(a) == c.hash(b) ==> a == b)
    && (forall b :: c.decompress(c.compress(b)) == Some(b))
  }

  /** `index`, `pending` and the counters die with the daemon; `hot` is a directory, `cold` is S3. */
  datatype State = State(
    index: map<Key, nat>, pending: seq<(Key, Bytes)>, logical: nat, stored: nat, chunks: nat,
    hot: map<Key, Bytes>, cold: map<Key, Bytes>)

  datatype Failure = NotFound | ColdMiss | Corrupt | PutRefused

  function Restarted(hot: map<Key, Bytes>, cold: map<Key, Bytes>): State {
    State(map[], [], 0, 0, 0, hot, cold)
  }

  // ---------------------------------------------------------------- on values

  function PutBlock(c: Config, s: State, block: Bytes): State {
    var h := c.hash(block);
    var s := s.(logical := s.logical + |block|, chunks := s.chunks + 1);
    if h in s.index then s else
      var comp := c.compress(block);
      s.(index := s.index[h := |comp|],
         stored := s.stored + |comp|,
         hot := if c.root && h !in s.hot then s.hot[h := comp] else s.hot,
         pending := if c.s3 then s.pending + [(h, comp)] else s.pending)
  }

  function PutBlocks(c: Config, s: State, blocks: seq<Bytes>): State
    decreases |blocks|
  {
    if blocks == [] then s else PutBlocks(c, PutBlock(c, s, blocks[0]), blocks[1..])
  }

  function Manifest(c: Config, blocks: seq<Bytes>): (hs: seq<Key>)
    ensures |hs| == |blocks| && forall k :: 0 <= k < |blocks| ==> hs[k] == c.hash(blocks[k])
  {
    seq(|blocks|, k requires 0 <= k < |blocks| => c.hash(blocks[k]))
  }

  /** One flush's luck.  S3 answers the PUTs of `refused` with an error.  The executor then cancels
      uploads that have not started: which of those behind the first failure is a race, and the
      keys in `cancelled` lose it. */
  datatype Outage = Outage(refused: set<Key>, cancelled: set<Key>)

  const FAULTLESS := Outage({}, {})

  /** The uploads a flush performs; `failed` says that an earlier one was refused. */
  function Upload(cold: map<Key, Bytes>, pending: seq<(Key, Bytes)>, o: Outage, failed: bool): map<Key, Bytes>
    decreases |pending|
  {
    if pending == [] then cold else
      var (h, comp) := pending[0];
      var lost := h in o.refused || (failed && h in o.cancelled);
      Upload(if lost then cold else cold[h := comp], pending[1..], o, failed || h in o.refused)
  }

  predicate AnyRefused(pending: seq<(Key, Bytes)>, refused: set<Key>) {
    exists k :: 0 <= k < |pending| && pending[k].0 in refused
  }

  function Flush(c: Config, s: State, o: Outage): (State, Result<nat, Failure>) {
    if !c.s3 || s.pending == [] then (s, Ok(0)) else
      (s.(pending := [], cold := Upload(s.cold, s.pending, o, false)),
       if AnyRefused(s.pending, o.refused) then Err(PutRefused) else Ok(|s.pending|))
  }

  function Inflate(c: Config, comp: Bytes): Result<Bytes, Failure> {
    match c.decompress(comp)
    case Some(b) => Ok(b)
    case None => Err(Corrupt)
  }

  function Get(c: Config, s: State, h: Key): (State, Result<Bytes, Failure>) {
    if c.root && h in s.hot then (s, Inflate(c, s.hot[h]))
    else if c.s3 then
      if h in s.cold
      then (if c.root then s.(hot := s.hot[h := s.cold[h]]) else s, Inflate(c, s.cold[h]))
      else (s, Err(ColdMiss))
    else (s, Err(NotFound))
  }

  // ---------------------------------------------------------------- the code, in place

  class CAS {
    const c: Config
    var index: map<Key, nat>
    var pending: seq<(Key, Bytes)>
    var logical: nat
    var stored: nat
    var chunks: nat
    var hot: map<Key, Bytes>
    var cold: map<Key, Bytes>

    function Now(): State
      reads this
    {
      State(index, pending, logical, stored, chunks, hot, cold)
    }

    /** A new daemon over whatever the directory and the bucket hold. */
    constructor (c: Config, hot: map<Key, Bytes>, cold: map<Key, Bytes>)
      ensures this.c == c && Now() == Restarted(hot, cold)
    {
      this.c := c;
      index, pending, logical, stored, chunks := map[], [], 0, 0, 0;
      this.hot, this.cold := hot, cold;
    }

    /** The body of the loop of `put_bytes`. */
    method StoreBlock(block: Bytes) returns (h: Key)
      modifies this
      ensures h == c.hash(block) && Now() == PutBlock(c, old(Now()), block)
    {
      logical := logical + |block|;
      chunks := chunks + 1;
      h := c.hash(block);
      if h !in index {
        var comp := c.compress(block);
        index := index[h := |comp|];
        stored := stored + |comp|;
        if c.root && h !in hot {
          hot := hot[h := comp];
        }
        if c.s3 {
          pending := pending + [(h, comp)];
        }
      }
    }

    method PutBytes(data: Bytes) returns (manifest: seq<Key>)
      requires Usable(c.mode)
      modifies this
      ensures manifest == Manifest(c, Chunks(c.mode, data, 0))
      ensures Now() == PutBlocks(c, old(Now()), Chunks(c.mode, data, 0))
    {
      var blocks := Blocks(c.mode, data);
      manifest := [];
      assert blocks[0..] == blocks;
      for k := 0 to |blocks|
        invariant manifest == Manifest(c, blocks)[..k]
        invariant PutBlocks(c, Now(), blocks[k..]) == PutBlocks(c, old(Now()), blocks)
      {
        assert blocks[k..][1..] == blocks[k + 1..];
        var h := StoreBlock(blocks[k]);
        manifest := manifest + [h];
      }
      assert blocks[|blocks|..] == [];
    }

    method PutFile(data: Bytes, buf: int) returns (manifest: seq<Key>)
      requires Usable(c.mode)
      modifies this
      ensures manifest == Manifest(c, FileChunks(c.mode, data, buf))
      ensures Now() == PutBlocks(c, old(Now()), FileChunks(c.mode, data, buf))
    {
      manifest := [];
      var rest := data;       // what the file has not returned yet
      ghost var done := [];   // the chunks stored so far
      ghost var all, start := FileChunks(c.mode, data, buf), Now();
      while true
        invariant done + FileChunks(c.mode, rest, buf) == all
        invariant manifest == Manifest(c, done)
        invariant Now() == PutBlocks(c, start, done)
        decreases |rest|
      {
        var piece := ReadPiece(rest, buf);
        OneRead(c, start, done, rest, buf);
        if piece == [] {
          return;
        }
        var hashes := PutBytes(piece);
        manifest := manifest + hashes;
        done := done + Chunks(c.mode, piece, 0);
        rest := rest[|piece|..];
      }
    }

    /** The whole queue goes to the executor; its uploads race, and the first failure in queue
        order ends the wait for the others and cancels those that `o` says have not started. */
    method FlushS3(o: Outage) returns (r: Result<nat, Failure>)
      modifies this`pending, this`cold
      ensures (Now(), r) == Flush(c, old(Now()), o)
      ensures !c.s3 || old(pending) == [] ==> r == Ok(0) && Now() == old(Now())
      ensures c.s3 && old(pending) != [] ==>
                && pending == []
                && r == if AnyRefused(old(pending), o.refused) then Err(PutRefused) else Ok(|old(pending)|)
    {
      if !c.s3 || pending == [] {
        return Ok(0);
      }
      var queue := pending;
      pending := [];
      var failed := false;
      assert queue[0..] == queue;
      for k := 0 to |queue|
        invariant Upload(cold, queue[k..], o, failed) == Upload(old(cold), queue, o, false)
        invariant pending == []
        invariant failed == exists j :: 0 <= j < k && queue[j].0 in o.refused
      {
        assert queue[k..][1..] == queue[k + 1..];
        var (h, comp) := queue[k];
        if h in o.refused {
          failed := true;
        } else if !(failed && h in o.cancelled) {
          cold := cold[h := comp];
        }
      }
      assert queue[|queue|..] == [];
      assert failed == AnyRefused(queue, o.refused);
      r := if failed then Err(PutRefused) else Ok(|queue|);
    }

    method Fetch(h: Key) returns (r: Result<Bytes, Failure>)
      modifies this`hot
      ensures (Now(), r) == Get(c, old(Now()), h)
      // where the chunk comes from, and that it is in the cache afterwards
      ensures c.root && h in old(hot) ==> hot == old(hot) && r == Inflate(c, hot[h])
      ensures !(c.root && h in old(hot)) && c.s3 && h in cold ==>
                && r == Inflate(c, cold[h])
                && hot == if c.root then old(hot)[h := cold[h]] else old(hot)
      ensures !(c.root && h in old(hot)) && !(c.s3 && h in cold) ==>
                hot == old(hot) && r == Err(if c.s3 then ColdMiss else NotFound)
    {
      if c.root && h in hot {
        return Inflate(c, hot[h]);
      }
      if c.s3 {
        if h !in cold {
          return Err(ColdMiss);
        }
        var comp := cold[h];
        if c.root {
          hot := hot[h := comp];
        }
        return Inflate(c, comp);
      }
      return Err(NotFound);
    }
  }

  lemma {:induction false} PutTwice(c: Config, s: State, a: seq<Bytes>, b: seq<Bytes>)
    ensures PutBlocks(c, s, a + b) == PutBlocks(c, PutBlocks(c, s, a), b)
    ensures Manifest(c, a + b) == Manifest(c, a) + Manifest(c, b)
    decreases |a|
  {
    if a == [] {
      assert a + b == b;
    } else {
      assert (a + b)[1..] == a[1..] + b;
      PutTwice(c, PutBlock(c, s, a[0]), a[1..], b);
    }
  }

  /** `f.read(buf)` with `rest` still unread. */
  function ReadPiece(rest: Bytes, buf: int): Bytes {
    if buf < 0 || |rest| <= buf then rest else rest[..buf]
  }

  /** What one turn of the read loop takes off the file and adds to the store. */
  lemma OneRead(c: Config, start: State, done: seq<Bytes>, rest: Bytes, buf: int)
    requires Usable(c.mode)
    ensures
      var piece := ReadPiece(rest, buf);
      if piece == [] then done + FileChunks(c.mode, rest, buf) == done else
        var blocks := Chunks(c.mode, piece, 0);
        && done + FileChunks(c.mode, rest, buf) == (done + blocks) + FileChunks(c.mode, rest[|piece|..], buf)
        && PutBlocks(c, start, done + blocks) == PutBlocks(c, PutBlocks(c, start, done), blocks)
        && Manifest(c, done + blocks) == Manifest(c, done) + Manifest(c, blocks)
  {
    var piece := ReadPiece(rest, buf);
    var blocks := Chunks(c.mode, piece, 0);
    PutTwice(c, start, done, blocks);
    if piece != [] && !(buf < 0 || |rest| <= buf) {
      assert FileChunks(c.mode, rest, buf) == blocks + FileChunks(c.mode, rest[|piece|..], buf);
    }
  }
}
