/**
 What the store's counters mean, and what deduplication costs and does not cost
 (spikes/storage/cas.py:70-101, 129-137).
 */
module StoreLaws {
  import opened Chunking
  import opened ChunkLaws
  import opened Store

  function BlocksOf(m: Mode, files: seq<Bytes>): seq<Bytes>
    requires Usable(m)
  {
    if files == [] then [] else Chunks(m, files[0], 0) + BlocksOf(m, files[1..])
  }

  /** A sequence of `put_bytes`. */
  function PutAll(c: Config, s: State, files: seq<Bytes>): State
    requires Usable(c.mode)
    decreases |files|
  {
    if files == [] then s
    else PutAll(c, PutBlocks(c, s, Chunks(c.mode, files[0], 0)), files[1..])
  }

  lemma {:induction false} PutAllPutsTheBlocks(c: Config, s: State, files: seq<Bytes>)
    requires Usable(c.mode)
    ensures PutAll(c, s, files) == PutBlocks(c, s, BlocksOf(c.mode, files))
    decreases |files|
  {
    if files != [] {
      var blocks := Chunks(c.mode, files[0], 0);
      PutAllPutsTheBlocks(c, PutBlocks(c, s, blocks), files[1..]);
      PutTwice(c, s, blocks, BlocksOf(c.mode, files[1..]));
    }
  }

  // ---------------------------------------------------------------- sums over sets of blocks

  ghost function CompressedTotal(c: Config, blocks: set<Bytes>): nat
    decreases |blocks|
  {
    if blocks == {} then 0 else
      var b :| b in blocks;
      |c.compress(b)| + CompressedTotal(c, blocks - {b})
  }

  lemma {:induction false} TotalWithout(c: Config, blocks: set<Bytes>, b: Bytes)
    requires b in blocks
    ensures CompressedTotal(c, blocks) == |c.compress(b)| + CompressedTotal(c, blocks - {b})
    decreases |blocks|
  {
    var pick :| pick in blocks && CompressedTotal(c, blocks)
      == |c.compress(pick)| + CompressedTotal(c, blocks - {pick});
    if pick != b {
      TotalWithout(c, blocks - {pick}, b);
      TotalWithout(c, blocks - {b}, pick);
      assert blocks - {pick} - {b} == blocks - {b} - {pick};
    }
  }

  ghost function Distinct(blocks: seq<Bytes>): set<Bytes> {
    set b | b in blocks
  }

  function TotalLength(blocks: seq<Bytes>): nat {
    if blocks == [] then 0 else |blocks[0]| + TotalLength(blocks[1..])
  }

  lemma {:induction false} TotalLengthIsConcat(blocks: seq<Bytes>)
    ensures TotalLength(blocks) == |Concat(blocks)|
  {
    if blocks != [] {
      TotalLengthIsConcat(blocks[1..]);
    }
  }

  // ---------------------------------------------------------------- counters

  ghost function Hashes(c: Config, blocks: set<Bytes>): set<Key> {
    set b | b in blocks :: c.hash(b)
  }

  /** `index` holds exactly these blocks, each at its compressed length. */
  ghost predicate Indexes(c: Config, index: map<Key, nat>, blocks: set<Bytes>) {
    && index.Keys == Hashes(c, blocks)
    && (forall b :: b in blocks && c.hash(b) in index ==> index[c.hash(b)] == |c.compress(b)|)
    && |index| == |blocks|
  }

  ghost predicate Accounts(c: Config, s: State, blocks: set<Bytes>) {
    Indexes(c, s.index, blocks) && s.stored == CompressedTotal(c, blocks)
  }

  lemma NewBlockHasNewKey(c: Config, index: map<Key, nat>, blocks: set<Bytes>, b: Bytes)
    requires Sound(c) && Indexes(c, index, blocks)
    ensures c.hash(b) in index <==> b in blocks
  {
  }

  lemma HashesGrow(c: Config, blocks: set<Bytes>, b: Bytes)
    ensures Hashes(c, blocks + {b}) == Hashes(c, blocks) + {c.hash(b)}
  {
  }

  lemma OneMoreEntry(index: map<Key, nat>, k: Key, v: nat)
    requires k !in index
    ensures |index[k := v]| == |index| + 1
  {
    assert index[k := v].Keys == index.Keys + {k};
    assert |index[k := v]| == |index[k := v].Keys| && |index| == |index.Keys|;
  }

  lemma IndexGrows(c: Config, index: map<Key, nat>, blocks: set<Bytes>, b: Bytes)
    requires Indexes(c, index, blocks) && b !in blocks && c.hash(b) !in index
    ensures Indexes(c, index[c.hash(b) := |c.compress(b)|], blocks + {b})
  {
    HashesGrow(c, blocks, b);
    OneMoreEntry(index, c.hash(b), |c.compress(b)|);
    assert |blocks + {b}| == |blocks| + 1;
    forall x | x in blocks + {b}
      ensures c.hash(x) in index[c.hash(b) := |c.compress(b)|]
      ensures index[c.hash(b) := |c.compress(b)|][c.hash(x)] == |c.compress(x)|
    {
      EntryStays(c, index, blocks, b, x);
    }
  }

  lemma EntryStays(c: Config, index: map<Key, nat>, blocks: set<Bytes>, b: Bytes, x: Bytes)
    requires Indexes(c, index, blocks) && c.hash(b) !in index && x in blocks + {b}
    ensures c.hash(x) in index[c.hash(b) := |c.compress(b)|]
    ensures index[c.hash(b) := |c.compress(b)|][c.hash(x)] == |c.compress(x)|
  {
    if x != b {
      assert c.hash(x) in Hashes(c, blocks);
    }
  }

  lemma PutBlockAccounts(c: Config, s: State, blocks: set<Bytes>, b: Bytes)
    requires Sound(c) && Accounts(c, s, blocks)
    ensures Accounts(c, PutBlock(c, s, b), blocks + {b})
  {
    NewBlockHasNewKey(c, s.index, blocks, b);
    if b in blocks {
      assert blocks + {b} == blocks;
    } else {
      IndexGrows(c, s.index, blocks, b);
      TotalWithout(c, blocks + {b}, b);
      assert blocks + {b} - {b} == blocks;
    }
  }

  lemma DistinctSplits(before: set<Bytes>, blocks: seq<Bytes>)
    requires blocks != []
    ensures before + {blocks[0]} + Distinct(blocks[1..]) == before + Distinct(blocks)
  {
    assert blocks == [blocks[0]] + blocks[1..];
  }

  lemma {:induction false} PutBlocksAccounts(c: Config, s: State, before: set<Bytes>, blocks: seq<Bytes>)
    requires Sound(c) && Accounts(c, s, before)
    ensures Accounts(c, PutBlocks(c, s, blocks), before + Distinct(blocks))
    decreases |blocks|
  {
    if blocks == [] {
      assert before + Distinct(blocks) == before;
    } else {
      PutBlockAccounts(c, s, before, blocks[0]);
      PutBlocksAccounts(c, PutBlock(c, s, blocks[0]), before + {blocks[0]}, blocks[1..]);
      DistinctSplits(before, blocks);
    }
  }

  lemma {:induction false} PutBlocksCount(c: Config, s: State, blocks: seq<Bytes>)
    ensures PutBlocks(c, s, blocks).logical == s.logical + TotalLength(blocks)
    ensures PutBlocks(c, s, blocks).chunks == s.chunks + |blocks|
    decreases |blocks|
  {
    if blocks != [] {
      PutBlocksCount(c, PutBlock(c, s, blocks[0]), blocks[1..]);
    }
  }

  /**
   Counter exactness: whatever the directory and bucket held, after any puts `logical` is the
   number of bytes put, `chunks` the number of manifest entries, `index` the distinct blocks
   and `stored` the sum of their compressed lengths.
   */
  lemma CountersAreExact(c: Config, hot: map<Key, Bytes>, cold: map<Key, Bytes>, files: seq<Bytes>)
    requires Sound(c)
    ensures
      var s := PutAll(c, Restarted(hot, cold), files);
      && s.logical == |Concat(files)|
      && s.chunks == |BlocksOf(c.mode, files)|
      && Accounts(c, s, Distinct(BlocksOf(c.mode, files)))
  {
    PutAllPutsTheBlocks(c, Restarted(hot, cold), files);
    var blocks := BlocksOf(c.mode, files);
    PutBlocksAccounts(c, Restarted(hot, cold), {}, blocks);
    PutBlocksCount(c, Restarted(hot, cold), blocks);
    assert {} + Distinct(blocks) == Distinct(blocks);
    TotalLengthIsConcat(blocks);
    BlocksConcatenate(c.mode, files);
  }

  lemma {:induction false} BlocksConcatenate(m: Mode, files: seq<Bytes>)
    requires Usable(m)
    ensures Concat(BlocksOf(m, files)) == Concat(files)
  {
    if files != [] {
      BlocksConcatenate(m, files[1..]);
      ChunksConcatenate(m, files[0], 0);
      ConcatAppend(Chunks(m, files[0], 0), BlocksOf(m, files[1..]));
    }
  }

  // ---------------------------------------------------------------- order of the puts

  lemma {:induction false} BlocksOfAppend(m: Mode, a: seq<Bytes>, b: seq<Bytes>)
    requires Usable(m)
    ensures BlocksOf(m, a + b) == BlocksOf(m, a) + BlocksOf(m, b)
    decreases |a|
  {
    if a == [] {
      assert a + b == b;
    } else {
      assert (a + b)[1..] == a[1..] + b;
      BlocksOfAppend(m, a[1..], b);
      var first := Chunks(m, a[0], 0);
      assert BlocksOf(m, a + b) == first + BlocksOf(m, a[1..] + b);
      assert first + (BlocksOf(m, a[1..]) + BlocksOf(m, b)) == first + BlocksOf(m, a[1..]) + BlocksOf(m, b);
    }
  }

  /** Take one occurrence of `f` out of a sequence. */
  lemma TakeOut(b: seq<Bytes>, f: Bytes) returns (u: seq<Bytes>, v: seq<Bytes>)
    requires f in multiset(b)
    ensures b == u + [f] + v && multiset(u + v) == multiset(b) - multiset{f}
  {
    var j :| 0 <= j < |b| && b[j] == f;
    u, v := b[..j], b[j + 1..];
    assert b == u + [f] + v;
  }

  lemma MovedFileHasTheSameBlocks(m: Mode, u: seq<Bytes>, f: Bytes, v: seq<Bytes>)
    requires Usable(m)
    ensures multiset(BlocksOf(m, u + [f] + v)) == multiset(Chunks(m, f, 0)) + multiset(BlocksOf(m, u + v))
    ensures |Concat(u + [f] + v)| == |f| + |Concat(u + v)|
  {
    BlocksOfAppend(m, u, v);
    BlocksOfAppend(m, u + [f], v);
    BlocksOfAppend(m, u, [f]);
    ConcatAppend(u, v);
    ConcatAppend(u + [f], v);
    ConcatAppend(u, [f]);
    assert [f][1..] == [] && BlocksOf(m, [f]) == Chunks(m, f, 0) + [] && Concat([f]) == f + [];
  }

  /** The multiset of blocks, and the bytes in them, depend on the multiset of files only. */
  lemma {:induction false} PermutedFilesHaveTheSameBlocks(m: Mode, a: seq<Bytes>, b: seq<Bytes>)
    requires Usable(m) && multiset(a) == multiset(b)
    ensures multiset(BlocksOf(m, a)) == multiset(BlocksOf(m, b))
    ensures |Concat(a)| == |Concat(b)|
    decreases |a|
  {
    if a == [] {
      assert |multiset(b)| == |b|;
      assert b == [];
    } else {
      var f := a[0];
      assert multiset(a) == multiset{f} + multiset(a[1..]) by {
        assert a == [f] + a[1..];
      }
      var u, v := TakeOut(b, f);
      PermutedFilesHaveTheSameBlocks(m, a[1..], u + v);
      MovedFileHasTheSameBlocks(m, u, f, v);
      assert multiset(BlocksOf(m, a)) == multiset(Chunks(m, f, 0)) + multiset(BlocksOf(m, a[1..]));
    }
  }

  /** Order independence: permuting the puts changes neither the index nor any statistic. */
  lemma PutsCommute(c: Config, hot: map<Key, Bytes>, cold: map<Key, Bytes>, a: seq<Bytes>, b: seq<Bytes>)
    requires Sound(c) && multiset(a) == multiset(b)
    ensures
      var s, t := PutAll(c, Restarted(hot, cold), a), PutAll(c, Restarted(hot, cold), b);
      s.index == t.index && s.logical == t.logical && s.chunks == t.chunks && s.stored == t.stored
  {
    CountersAreExact(c, hot, cold, a);
    CountersAreExact(c, hot, cold, b);
    PermutedFilesHaveTheSameBlocks(c.mode, a, b);
    var x, y := BlocksOf(c.mode, a), BlocksOf(c.mode, b);
    assert |multiset(x)| == |x| && |multiset(y)| == |y|;
    assert Distinct(x) == Distinct(y) by {
      assert forall k :: k in x <==> k in multiset(x);
      assert forall k :: k in y <==> k in multiset(y);
    }
  }

  // ---------------------------------------------------------------- growth

  function Differences(a: seq<Bytes>, b: seq<Bytes>): nat
    requires |a| == |b|
  {
    if a == [] then 0 else (if a[0] == b[0] then 0 else 1) + Differences(a[1..], b[1..])
  }

  function DifferenceBytes(c: Config, a: seq<Bytes>, b: seq<Bytes>): nat
    requires |a| == |b|
  {
    if a == [] then 0 else (if a[0] == b[0] then 0 else |c.compress(b[0])|) + DifferenceBytes(c, a[1..], b[1..])
  }

  lemma {:induction false} PutBlocksCovers(c: Config, s: State, blocks: seq<Bytes>)
    ensures
      var s' := PutBlocks(c, s, blocks);
      && s.index.Keys <= s'.index.Keys
      && (forall b :: b in blocks ==> c.hash(b) in s'.index)
    decreases |blocks|
  {
    if blocks != [] {
      PutBlocksCovers(c, PutBlock(c, s, blocks[0]), blocks[1..]);
      assert forall b :: b in blocks ==> b == blocks[0] || b in blocks[1..];
    }
  }

  /** Putting what is already indexed changes the logical counters and nothing else. */
  lemma {:induction false} RestoringIsFree(c: Config, s: State, blocks: seq<Bytes>)
    requires forall b :: b in blocks ==> c.hash(b) in s.index
    ensures PutBlocks(c, s, blocks) ==
            s.(logical := s.logical + TotalLength(blocks), chunks := s.chunks + |blocks|)
    decreases |blocks|
  {
    if blocks != [] {
      RestoringIsFree(c, PutBlock(c, s, blocks[0]), blocks[1..]);
    }
  }

  lemma {:induction false} GrowthIsBoundedByDifferences(c: Config, s: State, a: seq<Bytes>, b: seq<Bytes>)
    requires |a| == |b| && forall x :: x in a ==> c.hash(x) in s.index
    ensures
      var s' := PutBlocks(c, s, b);
      && |s'.index| <= |s.index| + Differences(a, b)
      && s'.stored <= s.stored + DifferenceBytes(c, a, b)
    decreases |a|
  {
    if a != [] {
      assert a[0] in a;
      GrowthIsBoundedByDifferences(c, PutBlock(c, s, b[0]), a[1..], b[1..]);
    }
  }

  lemma {:induction false} EqualLengthsCutAlike(block: nat, a: Bytes, b: Bytes, start: nat)
    requires block > 0 && |a| == |b| && start <= |a|
    ensures |Chunks(Fixed(block), a, start)| == |Chunks(Fixed(block), b, start)|
    decreases |a| - start
  {
    if start < |a| {
      EqualLengthsCutAlike(block, a, b, NextCut(Fixed(block), a, start));
    }
  }

  /** Divergence-only growth: after image A, an equally long image B costs at most its changed
      blocks, in index entries and in stored bytes, from any state of the store. */
  lemma DivergenceOnlyGrowth(c: Config, s: State, a: Bytes, b: Bytes)
    requires Sound(c) && c.mode.Fixed? && |a| == |b|
    ensures
      var xs, ys := Chunks(c.mode, a, 0), Chunks(c.mode, b, 0);
      var sa := PutBlocks(c, s, xs);
      var sb := PutBlocks(c, sa, ys);
      && |xs| == |ys|
      && |sb.index| <= |sa.index| + Differences(xs, ys)
      && sb.stored <= sa.stored + DifferenceBytes(c, xs, ys)
  {
    var xs, ys := Chunks(c.mode, a, 0), Chunks(c.mode, b, 0);
    EqualLengthsCutAlike(c.mode.block, a, b, 0);
    PutBlocksCovers(c, s, xs);
    GrowthIsBoundedByDifferences(c, PutBlocks(c, s, xs), xs, ys);
  }

  /** Re-storing any image put at any earlier time costs nothing. */
  lemma ReputIsFree(c: Config, s: State, file: Bytes, between: seq<Bytes>)
    requires Usable(c.mode)
    ensures
      var blocks := Chunks(c.mode, file, 0);
      var once := PutBlocks(c, PutBlocks(c, s, blocks), between);
      var again := PutBlocks(c, once, blocks);
      again == once.(logical := again.logical, chunks := again.chunks)
  {
    var blocks := Chunks(c.mode, file, 0);
    var first := PutBlocks(c, s, blocks);
    PutBlocksCovers(c, s, blocks);
    PutBlocksCovers(c, first, between);
    RestoringIsFree(c, PutBlocks(c, first, between), blocks);
  }

  /**
   A buffered `put_file` leaves exactly the manifest, index, counters and files of one
   `put_bytes` of the whole file, in fixed-block mode, exactly when the file fits one read or the
   block size divides the buffer.
   */
  lemma PutFileIsPutBytesExactlyWhenBlocksDivideTheBuffer(c: Config, s: State, file: Bytes, buf: int)
    requires Sound(c) && c.mode.Fixed?
    ensures
      var one, other := FileChunks(c.mode, file, buf), Chunks(c.mode, file, 0);
      (Manifest(c, one) == Manifest(c, other) && PutBlocks(c, s, one) == PutBlocks(c, s, other))
        <==> (buf < 0 || |file| <= buf || (buf > 0 && buf % c.mode.block == 0))
  {
    var one, other := FileChunks(c.mode, file, buf), Chunks(c.mode, file, 0);
    FixedBlocksIgnoreTheReadBuffer(c.mode.block, file, buf);
    if Manifest(c, one) == Manifest(c, other) {
      assert |one| == |other|;
      forall k | 0 <= k < |one| ensures one[k] == other[k] {
        assert c.hash(one[k]) == Manifest(c, one)[k] == Manifest(c, other)[k] == c.hash(other[k]);
      }
      assert one == other;
    }
  }
}
