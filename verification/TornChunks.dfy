/**
 Chunk files that a crash left truncated (spikes/storage/cas.py:80-88, 113-127).  A chunk file is
 written in place, only when absent, and read before the cold tier is asked.
 */
module TornChunks {
  import opened Wrappers
  import opened Chunking
  import opened ChunkLaws
  import opened Store
  import opened ColdTier

  /** zlib raises on a stream that ends early. */
  ghost predicate DetectsTruncation(c: Config) {
    forall b, k :: 0 <= k < |c.compress(b)| ==> c.decompress(c.compress(b)[..k]).None?
  }

  /** A chunk file that a crash cut short. */
  ghost predicate Torn(c: Config, h: Key, file: Bytes) {
    exists b, k :: c.hash(b) == h && 0 <= k < |c.compress(b)| && file == c.compress(b)[..k]
  }

  /** What a crash leaves: the files of `torn` cut short, all others and the tier sound, and a new
      daemon over them. */
  ghost predicate Crashed(c: Config, s: State, torn: set<Key>) {
    && s == Restarted(s.hot, s.cold) && torn <= s.hot.Keys && GoodMap(c, s.cold)
    && (forall h :: h in s.hot ==> if h in torn then Torn(c, h, s.hot[h]) else Good(c, h, s.hot[h]))
  }

  // ---------------------------------------------------------------- what may happen next

  datatype Op = Put(file: Bytes) | FlushQueue(o: Outage) | Fetch(h: Key) | Restart

  function Do(c: Config, s: State, op: Op): State
    requires Usable(c.mode)
  {
    match op
    case Put(file) => PutBlocks(c, s, ImageBlocks(c, file))
    case FlushQueue(o) => Flush(c, s, o).0
    case Fetch(h) => Get(c, s, h).0
    case Restart => Restarted(s.hot, s.cold)
  }

  function DoAll(c: Config, s: State, ops: seq<Op>): State
    requires Usable(c.mode)
    decreases |ops|
  {
    if ops == [] then s else DoAll(c, Do(c, s, ops[0]), ops[1..])
  }

  // ---------------------------------------------------------------- what every operation keeps

  /** Exactly the files of `torn` are unreadable. */
  ghost predicate TornAre(c: Config, s: State, torn: set<Key>) {
    && torn <= s.hot.Keys && GoodMap(c, s.cold) && GoodQueue(c, s.pending)
    && (forall h :: h in s.hot ==> if h in torn then c.decompress(s.hot[h]).None? else Good(c, h, s.hot[h]))
  }

  /** The chunk is somewhere: in a file, whole or torn, or in the tier. */
  predicate Held(c: Config, s: State, h: Key) {
    h in s.hot || (c.s3 && h in s.cold)
  }

  /** No file is removed or rewritten, and nothing leaves the tier. */
  ghost predicate FilesStay(c: Config, s: State, s': State) {
    && (forall h :: h in s.hot ==> h in s'.hot && s'.hot[h] == s.hot[h])
    && s.cold.Keys <= s'.cold.Keys
  }

  lemma PutBlockKeepsTorn(c: Config, s: State, b: Bytes, torn: set<Key>)
    requires Sound(c) && c.root && TornAre(c, s, torn)
    ensures TornAre(c, PutBlock(c, s, b), torn) && FilesStay(c, s, PutBlock(c, s, b))
  {
    GoodBlock(c, b);
  }

  lemma {:induction false} PutBlocksKeepTorn(c: Config, s: State, blocks: seq<Bytes>, torn: set<Key>)
    requires Sound(c) && c.root && TornAre(c, s, torn)
    ensures TornAre(c, PutBlocks(c, s, blocks), torn) && FilesStay(c, s, PutBlocks(c, s, blocks))
    decreases |blocks|
  {
    if blocks != [] {
      PutBlockKeepsTorn(c, s, blocks[0], torn);
      PutBlocksKeepTorn(c, PutBlock(c, s, blocks[0]), blocks[1..], torn);
    }
  }

  lemma {:induction false} UploadOnlyAdds(cold: map<Key, Bytes>, q: seq<(Key, Bytes)>, o: Outage, failed: bool)
    ensures cold.Keys <= Upload(cold, q, o, failed).Keys
    decreases |q|
  {
    if q != [] {
      var lost := q[0].0 in o.refused || (failed && q[0].0 in o.cancelled);
      UploadOnlyAdds(if lost then cold else cold[q[0].0 := q[0].1], q[1..], o, failed || q[0].0 in o.refused);
    }
  }

  lemma DoKeepsTorn(c: Config, s: State, op: Op, torn: set<Key>)
    requires Sound(c) && c.root && TornAre(c, s, torn)
    ensures TornAre(c, Do(c, s, op), torn) && FilesStay(c, s, Do(c, s, op))
  {
    match op
    case Put(file) => PutBlocksKeepTorn(c, s, ImageBlocks(c, file), torn);
    case FlushQueue(o) =>
      UploadIsGood(c, s.cold, s.pending, o, false);
      UploadOnlyAdds(s.cold, s.pending, o, false);
    case Fetch(_) =>
    case Restart =>
  }

  lemma {:induction false} DoAllKeepsTorn(c: Config, s: State, ops: seq<Op>, torn: set<Key>)
    requires Sound(c) && c.root && TornAre(c, s, torn)
    ensures TornAre(c, DoAll(c, s, ops), torn) && FilesStay(c, s, DoAll(c, s, ops))
    decreases |ops|
  {
    if ops != [] {
      DoKeepsTorn(c, s, ops[0], torn);
      DoAllKeepsTorn(c, Do(c, s, ops[0]), ops[1..], torn);
    }
  }

  // ---------------------------------------------------------------- reading

  lemma GetSeesTheFile(c: Config, s: State, b: Bytes, torn: set<Key>)
    requires Sound(c) && c.root && TornAre(c, s, torn) && Held(c, s, c.hash(b))
    ensures
      var (s', r) := Get(c, s, c.hash(b));
      && r == (if c.hash(b) in torn then Err(Corrupt) else Ok(b))
      && TornAre(c, s', torn) && FilesStay(c, s, s')
  {
    var h := c.hash(b);
    if h in s.hot && h !in torn {
      GoodReads(c, b, s.hot[h]);
    } else if h !in s.hot {
      GoodReads(c, b, s.cold[h]);
    }
  }

  ghost predicate AnyTorn(c: Config, blocks: seq<Bytes>, torn: set<Key>) {
    exists b :: b in blocks && c.hash(b) in torn
  }

  lemma {:induction false} ReadAllStopsAtTheFirstTorn(c: Config, s: State, blocks: seq<Bytes>, torn: set<Key>)
    requires Sound(c) && c.root && TornAre(c, s, torn)
    requires forall b :: b in blocks ==> Held(c, s, c.hash(b))
    ensures ReadAll(c, s, Manifest(c, blocks)).1
         == if AnyTorn(c, blocks, torn) then Err(Corrupt) else Ok(Concat(blocks))
    decreases |blocks|
  {
    if blocks != [] {
      var hs := Manifest(c, blocks);
      var s1 := Get(c, s, hs[0]).0;
      GetSeesTheFile(c, s, blocks[0], torn);
      assert hs[1..] == Manifest(c, blocks[1..]);
      ReadAllStopsAtTheFirstTorn(c, s1, blocks[1..], torn);
      assert forall b :: b in blocks <==> b == blocks[0] || b in blocks[1..];
      assert AnyTorn(c, blocks, torn) <==> c.hash(blocks[0]) in torn || AnyTorn(c, blocks[1..], torn);
    }
  }

  /**
   After a crash that left the chunk files `torn`, and any later puts, flushes with any luck,
   reads and restarts, an image whose chunks are held reads back exactly if none of its chunk
   files is torn, and fails otherwise.  What the cold tier holds makes no difference.
   */
  lemma TornFilesDecideUntilAWipe(c: Config, s: State, torn: set<Key>, ops: seq<Op>, image: Bytes)
    requires Sound(c) && DetectsTruncation(c) && c.root && Crashed(c, s, torn)
    requires forall b :: b in ImageBlocks(c, image) ==> Held(c, DoAll(c, s, ops), c.hash(b))
    ensures
      ReadAll(c, DoAll(c, s, ops), Manifest(c, ImageBlocks(c, image))).1
        == if AnyTorn(c, ImageBlocks(c, image), torn) then Err(Corrupt) else Ok(image)
  {
    CrashLeavesTorn(c, s, torn);
    DoAllKeepsTorn(c, s, ops, torn);
    ReadAllStopsAtTheFirstTorn(c, DoAll(c, s, ops), ImageBlocks(c, image), torn);
    FileChunksConcatenate(c.mode, image, BUFFER);
  }

  lemma CrashLeavesTorn(c: Config, s: State, torn: set<Key>)
    requires DetectsTruncation(c) && Crashed(c, s, torn)
    ensures TornAre(c, s, torn)
  {
    forall h | h in torn ensures c.decompress(s.hot[h]).None? {
      assert Torn(c, h, s.hot[h]);
    }
  }

  // ---------------------------------------------------------------- putting the image again

  lemma {:induction false} PutBlocksHold(c: Config, s: State, blocks: seq<Bytes>, torn: set<Key>, b: Bytes)
    requires Sound(c) && c.root && TornAre(c, s, torn) && b in blocks
    requires forall h :: h in s.index ==> h in s.hot
    ensures c.hash(b) in PutBlocks(c, s, blocks).hot
    decreases |blocks|
  {
    var s1 := PutBlock(c, s, blocks[0]);
    PutBlockKeepsTorn(c, s, blocks[0], torn);
    PutBlocksKeepTorn(c, s1, blocks[1..], torn);
    if b != blocks[0] {
      PutBlocksHold(c, s1, blocks[1..], torn, b);
    }
  }

  lemma {:induction false} PutBlocksIndexFiles(c: Config, s: State, blocks: seq<Bytes>)
    requires c.root && forall h :: h in s.index ==> h in s.hot
    ensures forall h :: h in PutBlocks(c, s, blocks).index ==> h in PutBlocks(c, s, blocks).hot
    decreases |blocks|
  {
    if blocks != [] {
      PutBlocksIndexFiles(c, PutBlock(c, s, blocks[0]), blocks[1..]);
    }
  }

  lemma {:induction false} IndexedAreFiles(c: Config, s: State, ops: seq<Op>)
    requires Usable(c.mode) && c.root && forall h :: h in s.index ==> h in s.hot
    ensures forall h :: h in DoAll(c, s, ops).index ==> h in DoAll(c, s, ops).hot
    decreases |ops|
  {
    if ops != [] {
      if ops[0].Put? {
        PutBlocksIndexFiles(c, s, ImageBlocks(c, ops[0].file));
      }
      IndexedAreFiles(c, Do(c, s, ops[0]), ops[1..]);
    }
  }

  lemma {:induction false} DoAllAppend(c: Config, s: State, a: seq<Op>, b: seq<Op>)
    requires Usable(c.mode)
    ensures DoAll(c, s, a + b) == DoAll(c, DoAll(c, s, a), b)
    decreases |a|
  {
    if a == [] {
      assert a + b == b;
    } else {
      assert (a + b)[0] == a[0] && (a + b)[1..] == a[1..] + b;
      DoAllAppend(c, Do(c, s, a[0]), a[1..], b);
    }
  }

  /** Putting the image again after the crash does not mend it: it reads back, then and after
      whatever follows, if and only if none of its chunk files was torn. */
  lemma PuttingAgainDoesNotMend(c: Config, s: State, torn: set<Key>, before: seq<Op>, image: Bytes, after: seq<Op>)
    requires Sound(c) && DetectsTruncation(c) && c.root && Crashed(c, s, torn)
    ensures
      ReadAll(c, DoAll(c, s, before + [Put(image)] + after), Manifest(c, ImageBlocks(c, image))).1
        == if AnyTorn(c, ImageBlocks(c, image), torn) then Err(Corrupt) else Ok(image)
  {
    var blocks := ImageBlocks(c, image);
    var s1 := DoAll(c, s, before);
    var s2 := Do(c, s1, Put(image));
    CrashLeavesTorn(c, s, torn);
    DoAllKeepsTorn(c, s, before, torn);
    IndexedAreFiles(c, s, before);
    DoKeepsTorn(c, s1, Put(image), torn);
    DoAllKeepsTorn(c, s2, after, torn);
    DoAllAppend(c, s, before, [Put(image)] + after);
    assert before + [Put(image)] + after == before + ([Put(image)] + after);
    assert ([Put(image)] + after)[1..] == after;
    forall b | b in blocks ensures Held(c, DoAll(c, s2, after), c.hash(b)) {
      PutBlocksHold(c, s1, blocks, torn, b);
    }
    TornFilesDecideUntilAWipe(c, s, torn, before + [Put(image)] + after, image);
  }

  // ---------------------------------------------------------------- wiping the cache

  /** Every key indexed is in the tier or waiting for it. */
  ghost predicate IndexCovered(s: State) {
    forall h :: h in s.index ==> h in s.cold || Queued(h, s.pending)
  }

  lemma {:induction false} PutBlocksCover(c: Config, s: State, blocks: seq<Bytes>)
    requires c.s3 && IndexCovered(s)
    ensures IndexCovered(PutBlocks(c, s, blocks))
    ensures forall b :: b in blocks ==> c.hash(b) in PutBlocks(c, s, blocks).index
    ensures s.index.Keys <= PutBlocks(c, s, blocks).index.Keys
    decreases |blocks|
  {
    if blocks != [] {
      QueuedAppend(s.pending, (c.hash(blocks[0]), c.compress(blocks[0])));
      PutBlocksCover(c, PutBlock(c, s, blocks[0]), blocks[1..]);
      assert forall b :: b in blocks ==> b == blocks[0] || b in blocks[1..];
    }
  }

  predicate Faultless(ops: seq<Op>) {
    forall k :: 0 <= k < |ops| && ops[k].FlushQueue? ==> ops[k].o == FAULTLESS
  }

  lemma DoKeepsCovered(c: Config, s: State, op: Op)
    requires Usable(c.mode) && c.s3 && IndexCovered(s) && (op.FlushQueue? ==> op.o == FAULTLESS)
    ensures IndexCovered(Do(c, s, op))
  {
    match op
    case Put(file) => PutBlocksCover(c, s, ImageBlocks(c, file));
    case FlushQueue(_) => UploadStores(s.cold, s.pending);
    case Fetch(_) =>
    case Restart =>
  }

  lemma {:induction false} DoAllKeepsCovered(c: Config, s: State, ops: seq<Op>)
    requires Usable(c.mode) && c.s3 && IndexCovered(s) && Faultless(ops)
    ensures IndexCovered(DoAll(c, s, ops))
    decreases |ops|
  {
    if ops != [] {
      DoKeepsCovered(c, s, ops[0]);
      DoAllKeepsCovered(c, Do(c, s, ops[0]), ops[1..]);
    }
  }

  /** Put and flushed, every chunk of an image is in the tier. */
  lemma StoringReachesTheTier(c: Config, s: State, image: Bytes)
    requires Usable(c.mode) && c.s3 && IndexCovered(s)
    ensures forall b :: b in ImageBlocks(c, image) ==>
              c.hash(b) in Do(c, Do(c, s, Put(image)), FlushQueue(FAULTLESS)).cold
  {
    var put := Do(c, s, Put(image));
    PutBlocksCover(c, s, ImageBlocks(c, image));
    UploadStores(put.cold, put.pending);
    forall b | b in ImageBlocks(c, image)
      ensures c.hash(b) in Do(c, Do(c, s, Put(image)), FlushQueue(FAULTLESS)).cold
    {
      assert c.hash(b) in put.index;
    }
  }

  /** The torn files are only in the cache: with S3, an image in the tier reads back once the cache
      is wiped, whatever happened since the crash. */
  lemma AWipeMends(c: Config, s: State, torn: set<Key>, ops: seq<Op>, image: Bytes)
    requires Sound(c) && DetectsTruncation(c) && c.root && c.s3 && Crashed(c, s, torn)
    requires forall b :: b in ImageBlocks(c, image) ==> c.hash(b) in DoAll(c, s, ops).cold
    ensures ReadAll(c, DoAll(c, s, ops).(hot := map[]), Manifest(c, ImageBlocks(c, image))).1 == Ok(image)
  {
    CrashLeavesTorn(c, s, torn);
    DoAllKeepsTorn(c, s, ops, torn);
    DurableManifestsReadBack(c, DoAll(c, s, ops).(hot := map[]), ImageBlocks(c, image));
    FileChunksConcatenate(c.mode, image, BUFFER);
  }

  /** So it does for every image put and flushed since, when no flush before that failed. */
  lemma StoredSinceTheCrashSurvivesAWipe(c: Config, s: State, torn: set<Key>, before: seq<Op>, image: Bytes,
                                         after: seq<Op>)
    requires Sound(c) && DetectsTruncation(c) && c.root && c.s3 && Crashed(c, s, torn) && Faultless(before)
    ensures
      var ops := before + [Put(image), FlushQueue(FAULTLESS)] + after;
      ReadAll(c, DoAll(c, s, ops).(hot := map[]), Manifest(c, ImageBlocks(c, image))).1 == Ok(image)
  {
    var storing := [Put(image), FlushQueue(FAULTLESS)];
    var s1 := DoAll(c, s, before);
    var s2 := Do(c, Do(c, s1, Put(image)), FlushQueue(FAULTLESS));
    CrashLeavesTorn(c, s, torn);
    DoAllKeepsTorn(c, s, before, torn);
    DoAllKeepsCovered(c, s, before);
    StoringReachesTheTier(c, s1, image);
    DoKeepsTorn(c, s1, Put(image), torn);
    DoKeepsTorn(c, Do(c, s1, Put(image)), FlushQueue(FAULTLESS), torn);
    DoAllKeepsTorn(c, s2, after, torn);
    TwoThenAll(c, s1, Put(image), FlushQueue(FAULTLESS), after);
    DoAllAppend(c, s, before, storing + after);
    assert before + storing + after == before + (storing + after);
    AWipeMends(c, s, torn, before + storing + after, image);
  }

  lemma TwoThenAll(c: Config, s: State, x: Op, y: Op, after: seq<Op>)
    requires Usable(c.mode)
    ensures DoAll(c, s, [x, y] + after) == DoAll(c, Do(c, Do(c, s, x), y), after)
  {
    assert ([x, y] + after)[1..] == [y] + after && ([y] + after)[1..] == after;
  }
}
