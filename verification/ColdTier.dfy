/**
 Reading back what was stored: through the hot cache, through S3 after the cache is gone
 (spikes/engine/demo_s3.sh:16-17), and how reading warms the cache again
 (spikes/storage/cas.py:113-127).
 */
module ColdTier {
  import opened Wrappers
  import opened Chunking
  import opened ChunkLaws
  import opened Store

  /** `comp` is a compressed form of the one block that hashes to `h`. */
  ghost predicate Good(c: Config, h: Key, comp: Bytes) {
    c.decompress(comp).Some? && c.hash(c.decompress(comp).value) == h
  }

  ghost predicate GoodMap(c: Config, m: map<Key, Bytes>) {
    forall h :: h in m ==> Good(c, h, m[h])
  }

  ghost predicate GoodQueue(c: Config, q: seq<(Key, Bytes)>) {
    forall k :: 0 <= k < |q| ==> Good(c, q[k].0, q[k].1)
  }

  ghost predicate GoodStore(c: Config, s: State) {
    GoodMap(c, s.hot) && GoodMap(c, s.cold) && GoodQueue(c, s.pending)
  }

  /** The tier that outlives a wipe of the cache, when there is one. */
  function Durable(c: Config, s: State): map<Key, Bytes> {
    if c.s3 then s.cold else s.hot
  }

  ghost predicate Queued(h: Key, q: seq<(Key, Bytes)>) {
    exists k :: 0 <= k < |q| && q[k].0 == h
  }

  /** Everything indexed is durable or waiting in `q`. */
  ghost predicate Covered(c: Config, s: State, q: seq<(Key, Bytes)>) {
    && (forall h :: h in s.index ==> h in Durable(c, s) || Queued(h, q))
    && (!c.s3 ==> q == [])
  }

  lemma GoodBlock(c: Config, b: Bytes)
    requires Sound(c)
    ensures Good(c, c.hash(b), c.compress(b))
  {
  }

  /** Only the true block answers for its key. */
  lemma GoodReads(c: Config, b: Bytes, comp: Bytes)
    requires Sound(c) && Good(c, c.hash(b), comp)
    ensures Inflate(c, comp) == Ok(b)
  {
  }

  lemma QueuedAppend(q: seq<(Key, Bytes)>, e: (Key, Bytes))
    ensures Queued(e.0, q + [e])
    ensures forall h :: Queued(h, q) ==> Queued(h, q + [e])
  {
    assert (q + [e])[|q|] == e;
    forall h | Queued(h, q) ensures Queued(h, q + [e]) {
      var k :| 0 <= k < |q| && q[k].0 == h;
      assert (q + [e])[k].0 == h;
    }
  }

  lemma PutBlockIsGood(c: Config, s: State, b: Bytes)
    requires Sound(c) && c.root && GoodStore(c, s) && Covered(c, s, s.pending)
    ensures
      var s' := PutBlock(c, s, b);
      && GoodStore(c, s') && Covered(c, s', s'.pending)
      && c.hash(b) in s'.index && s.index.Keys <= s'.index.Keys
      && s'.cold == s.cold && s.hot.Keys <= s'.hot.Keys
  {
    GoodBlock(c, b);
    if c.s3 {
      QueuedAppend(s.pending, (c.hash(b), c.compress(b)));
    }
  }

  // ---------------------------------------------------------------- reading

  /** `get` for every hash of a manifest, in order; the first failure ends it. */
  function ReadAll(c: Config, s: State, hashes: seq<Key>): (State, Result<Bytes, Failure>)
    decreases |hashes|
  {
    if hashes == [] then (s, Ok([])) else
      var (s1, r) := Get(c, s, hashes[0]);
      match r
      case Err(e) => (s1, Err(e))
      case Ok(b) =>
        var (s2, rest) := ReadAll(c, s1, hashes[1..]);
        (s2, match rest case Err(e) => Err(e) case Ok(bs) => Ok(b + bs))
  }

  /** The result of the gets still to come, behind the bytes already written. */
  function Behind(out: Bytes, more: (State, Result<Bytes, Failure>)): (State, Result<Bytes, Failure>) {
    (more.0, match more.1 case Err(e) => Err(e) case Ok(bs) => Ok(out + bs))
  }

  /** A get changes nothing but the warmth of the cache. */
  lemma GetIsGood(c: Config, s: State, b: Bytes)
    requires Sound(c) && c.root && GoodStore(c, s) && c.hash(b) in Durable(c, s)
    ensures
      var (s', r) := Get(c, s, c.hash(b));
      && r == Ok(b) && GoodStore(c, s')
      && s' == s.(hot := s'.hot) && s.hot.Keys <= s'.hot.Keys
  {
    var h := c.hash(b);
    if h in s.hot {
      GoodReads(c, b, s.hot[h]);
    } else {
      GoodReads(c, b, s.cold[h]);
    }
  }

  lemma {:induction false} DurableManifestsReadBack(c: Config, s: State, blocks: seq<Bytes>)
    requires Sound(c) && c.root && GoodStore(c, s)
    requires forall b :: b in blocks ==> c.hash(b) in Durable(c, s)
    ensures
      var (s', r) := ReadAll(c, s, Manifest(c, blocks));
      r == Ok(Concat(blocks)) && GoodStore(c, s') && s' == s.(hot := s'.hot) && s.hot.Keys <= s'.hot.Keys
    decreases |blocks|
  {
    if blocks != [] {
      GetIsGood(c, s, blocks[0]);
      var hs := Manifest(c, blocks);
      assert hs[1..] == Manifest(c, blocks[1..]);
      DurableManifestsReadBack(c, Get(c, s, hs[0]).0, blocks[1..]);
    }
  }

  lemma {:induction false} FileChunksConcatenate(m: Mode, data: Bytes, buf: int)
    requires Usable(m) && buf != 0
    ensures Concat(FileChunks(m, data, buf)) == data
    decreases |data|
  {
    if data == [] {
    } else if buf < 0 || |data| <= buf {
      ChunksConcatenate(m, data, 0);
    } else {
      ChunksConcatenate(m, data[..buf], 0);
      FileChunksConcatenate(m, data[buf..], buf);
      ConcatAppend(Chunks(m, data[..buf], 0), FileChunks(m, data[buf..], buf));
    }
  }

  // ---------------------------------------------------------------- memory images

  const BUFFER := 0x80_0000  // put_file reads 8 MiB at a time

  /** The chunks of a memory image. */
  function ImageBlocks(c: Config, data: Bytes): seq<Bytes>
    requires Usable(c.mode)
  {
    FileChunks(c.mode, data, BUFFER)
  }

  ghost predicate AllDurable(c: Config, s: State, hashes: seq<Key>) {
    forall k :: 0 <= k < |hashes| ==> hashes[k] in Durable(c, s)
  }

  /** An image whose chunks are all durable reads back exactly, and reading harms nothing. */
  lemma ImagesReadBack(c: Config, s: State, image: Bytes)
    requires Sound(c) && c.root && GoodStore(c, s)
    requires AllDurable(c, s, Manifest(c, ImageBlocks(c, image)))
    ensures
      var (s', r) := ReadAll(c, s, Manifest(c, ImageBlocks(c, image)));
      r == Ok(image) && GoodStore(c, s') && s' == s.(hot := s'.hot) && s.hot.Keys <= s'.hot.Keys
  {
    var blocks := ImageBlocks(c, image);
    forall b | b in blocks ensures c.hash(b) in Durable(c, s) {
      var k :| 0 <= k < |blocks| && blocks[k] == b;
      assert Manifest(c, blocks)[k] == c.hash(b);
    }
    DurableManifestsReadBack(c, s, blocks);
    FileChunksConcatenate(c.mode, image, BUFFER);
  }

  /** The engine's store cuts 4 KiB blocks, which divide the 8 MiB buffer: the manifest is that of
      the whole image, however it was read. */
  lemma EngineImagesIgnoreTheBuffer(c: Config, image: Bytes)
    requires c.mode == Fixed(4096)
    ensures BUFFER == 8 * 1024 * 1024 && ImageBlocks(c, image) == Chunks(Fixed(4096), image, 0)
  {
    FixedBlocksIgnoreTheReadBuffer(4096, image, BUFFER);
    assert BUFFER % 4096 == 0;
  }

  // ---------------------------------------------------------------- re-warming the cache

  /** A chunk that could be had is in the cache afterwards, as the bytes that were read. */
  lemma GetWarms(c: Config, s: State, h: Key)
    requires c.root
    ensures
      var (s', r) := Get(c, s, h);
      && s' == s.(hot := s'.hot) && (forall k :: k in s.hot ==> k in s'.hot && s'.hot[k] == s.hot[k])
      && (r.Ok? ==> h in s'.hot && Inflate(c, s'.hot[h]) == r)
  {
  }

  /** The files that hold the chunks of a manifest, inflated and put together. */
  function FromFiles(c: Config, hot: map<Key, Bytes>, hashes: seq<Key>): Result<Bytes, Failure>
    decreases |hashes|
  {
    if hashes == [] then Ok([])
    else if hashes[0] !in hot then Err(NotFound)
    else match (Inflate(c, hot[hashes[0]]), FromFiles(c, hot, hashes[1..]))
      case (Ok(b), Ok(bs)) => Ok(b + bs)
      case (Err(e), _) => Err(e)
      case (_, Err(e)) => Err(e)
  }

  lemma {:induction false} MoreFilesReadAlike(c: Config, a: map<Key, Bytes>, b: map<Key, Bytes>, hashes: seq<Key>)
    requires FromFiles(c, a, hashes).Ok? && forall h :: h in a ==> h in b && b[h] == a[h]
    ensures FromFiles(c, b, hashes) == FromFiles(c, a, hashes)
    decreases |hashes|
  {
    if hashes != [] {
      MoreFilesReadAlike(c, a, b, hashes[1..]);
    }
  }

  /** After a whole manifest was read its chunks are all in the cache, which alone now gives the
      same bytes. */
  lemma {:induction false} ReadingWarms(c: Config, s: State, hashes: seq<Key>)
    requires c.root
    ensures
      var (s', r) := ReadAll(c, s, hashes);
      && s' == s.(hot := s'.hot) && (forall h :: h in s.hot ==> h in s'.hot && s'.hot[h] == s.hot[h])
      && (r.Ok? ==> (forall h :: h in hashes ==> h in s'.hot) && FromFiles(c, s'.hot, hashes) == r)
    decreases |hashes|
  {
    if hashes != [] {
      var (s1, r) := Get(c, s, hashes[0]);
      GetWarms(c, s, hashes[0]);
      if r.Ok? {
        var (s2, rest) := ReadAll(c, s1, hashes[1..]);
        ReadingWarms(c, s1, hashes[1..]);
        assert forall h :: h in hashes ==> h == hashes[0] || h in hashes[1..];
        assert rest.Ok? ==> FromFiles(c, s2.hot, hashes[1..]) == rest && s2.hot[hashes[0]] == s1.hot[hashes[0]];
      }
    }
  }

  lemma {:induction false} WarmReads(c: Config, s: State, hashes: seq<Key>)
    requires c.root && forall h :: h in hashes ==> h in s.hot
    ensures ReadAll(c, s, hashes).1.Ok? || FromFiles(c, s.hot, hashes).Ok? ==>
              ReadAll(c, s, hashes) == (s, FromFiles(c, s.hot, hashes))
    decreases |hashes|
  {
    if hashes != [] {
      assert hashes[0] in hashes && forall h :: h in hashes[1..] ==> h in hashes;
      WarmReads(c, s, hashes[1..]);
    }
  }

  /** A manifest that was read once is read again without the cold tier, to the same bytes, and the
      cache stays as it is. */
  lemma ReadOnceReadAlways(c: Config, s: State, hashes: seq<Key>)
    requires c.root && ReadAll(c, s, hashes).1.Ok?
    ensures
      var (s', r) := ReadAll(c, s, hashes);
      forall cold :: ReadAll(c, s'.(cold := cold), hashes) == (s'.(cold := cold), r)
  {
    var (s', r) := ReadAll(c, s, hashes);
    ReadingWarms(c, s, hashes);
    forall cold ensures ReadAll(c, s'.(cold := cold), hashes) == (s'.(cold := cold), r) {
      WarmReads(c, s'.(cold := cold), hashes);
    }
  }

  /** The first chunk that cannot be had ends the reading: nothing behind it is fetched. */
  lemma {:induction false} FirstFailureEndsReading(c: Config, s: State, good: seq<Key>, h: Key, rest: seq<Key>)
    requires ReadAll(c, s, good).1.Ok? && Get(c, ReadAll(c, s, good).0, h).1.Err?
    ensures ReadAll(c, s, good + [h] + rest)
         == (Get(c, ReadAll(c, s, good).0, h).0, Err(Get(c, ReadAll(c, s, good).0, h).1.error))
    decreases |good|
  {
    var all := good + [h] + rest;
    if good == [] {
      assert all[0] == h;
    } else {
      assert all[0] == good[0] && all[1..] == good[1..] + [h] + rest;
      FirstFailureEndsReading(c, Get(c, s, good[0]).0, good[1..], h, rest);
    }
  }

  // ---------------------------------------------------------------- uploads

  /** A faultless flush stores the whole queue. */
  lemma {:induction false} UploadStores(cold: map<Key, Bytes>, q: seq<(Key, Bytes)>)
    ensures
      var cold' := Upload(cold, q, FAULTLESS, false);
      forall h :: h in cold' <==> h in cold || Queued(h, q)
    decreases |q|
  {
    if q != [] {
      var (cold', one) := (Upload(cold, q, FAULTLESS, false), cold[q[0].0 := q[0].1]);
      UploadStores(one, q[1..]);
      assert cold' == Upload(one, q[1..], FAULTLESS, false);
      forall h ensures h in cold' <==> h in cold || Queued(h, q) {
        QueuedSplits(h, q);
        assert h in one <==> h in cold || h == q[0].0;
      }
    }
  }

  lemma QueuedSplits(h: Key, q: seq<(Key, Bytes)>)
    requires q != []
    ensures Queued(h, q) <==> h == q[0].0 || Queued(h, q[1..])
  {
    if Queued(h, q) && h != q[0].0 {
      var k :| 0 <= k < |q| && q[k].0 == h;
      assert q[1..][k - 1].0 == h;
    }
    if Queued(h, q[1..]) {
      var k :| 0 <= k < |q[1..]| && q[1..][k].0 == h;
      assert q[k + 1].0 == h;
    }
  }

  lemma {:induction false} UploadIsGood(c: Config, cold: map<Key, Bytes>, q: seq<(Key, Bytes)>, o: Outage, failed: bool)
    requires GoodMap(c, cold) && GoodQueue(c, q)
    ensures GoodMap(c, Upload(cold, q, o, failed))
    decreases |q|
  {
    if q != [] {
      var lost := q[0].0 in o.refused || (failed && q[0].0 in o.cancelled);
      UploadIsGood(c, if lost then cold else cold[q[0].0 := q[0].1], q[1..], o, failed || q[0].0 in o.refused);
    }
  }

  lemma {:induction false} PutBlocksIsGood(c: Config, s: State, blocks: seq<Bytes>)
    requires Sound(c) && c.root && GoodStore(c, s) && Covered(c, s, s.pending)
    ensures
      var s' := PutBlocks(c, s, blocks);
      && GoodStore(c, s') && Covered(c, s', s'.pending)
      && (forall b :: b in blocks ==> c.hash(b) in s'.index)
      && s.index.Keys <= s'.index.Keys && s'.cold == s.cold
    decreases |blocks|
  {
    if blocks != [] {
      PutBlockIsGood(c, s, blocks[0]);
      PutBlocksIsGood(c, PutBlock(c, s, blocks[0]), blocks[1..]);
      assert forall b :: b in blocks ==> b == blocks[0] || b in blocks[1..];
    }
  }
}
