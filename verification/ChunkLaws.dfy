/**
 Laws of both chunkers: what their output looks like, that it depends on nothing outside a
 chunk, and when reading a file through a buffer makes no difference (`CAS.put_file`,
 spikes/storage/cas.py:92-101).
 */
module ChunkLaws {
  import opened Chunking

  function Concat(blocks: seq<Bytes>): Bytes {
    if blocks == [] then [] else blocks[0] + Concat(blocks[1..])
  }

  lemma {:induction false} ConcatAppend(a: seq<Bytes>, b: seq<Bytes>)
    ensures Concat(a + b) == Concat(a) + Concat(b)
  {
    if a == [] {
      assert a + b == b;
    } else {
      assert (a + b)[1..] == a[1..] + b;
      ConcatAppend(a[1..], b);
    }
  }

  /** Nothing is lost, repeated or reordered. */
  lemma {:induction false} ChunksConcatenate(m: Mode, data: Bytes, start: nat)
    requires Usable(m) && start <= |data|
    ensures Concat(Chunks(m, data, start)) == data[start..]
    decreases |data| - start
  {
    if start < |data| {
      var end := NextCut(m, data, start);
      ChunksConcatenate(m, data, end);
      assert data[start..end] + data[end..] == data[start..];
    }
  }

  predicate FullSize(m: Mode, block: Bytes) {
    match m
    case Fixed(size) => |block| == size
    case Cdc(_) => 2048 <= |block| <= 65536
  }

  predicate LastSize(m: Mode, block: Bytes) {
    match m
    case Fixed(size) => 0 < |block| <= size
    case Cdc(_) => 0 < |block| <= 65536
  }

  lemma CutIsWithinMax(m: Mode, data: Bytes, start: nat)
    requires Usable(m) && start < |data|
    ensures LastSize(m, data[start..NextCut(m, data, start)])
    ensures NextCut(m, data, start) < |data| ==> FullSize(m, data[start..NextCut(m, data, start)])
  {
    if m.Cdc? {
      var end := NextCut(m, data, start);
      if end - start > MAX {
        assert CutsAt(m.gear, data, start, start + MAX - 1);
      }
    }
  }

  ghost predicate WellSized(m: Mode, blocks: seq<Bytes>) {
    forall k :: 0 <= k < |blocks| ==> LastSize(m, blocks[k]) && (k + 1 < |blocks| ==> FullSize(m, blocks[k]))
  }

  lemma PrependWellSized(m: Mode, first: Bytes, rest: seq<Bytes>)
    requires LastSize(m, first) && (rest != [] ==> FullSize(m, first)) && WellSized(m, rest)
    ensures WellSized(m, [first] + rest)
  {
  }

  lemma {:induction false} ChunkSizes(m: Mode, data: Bytes, start: nat)
    requires Usable(m) && start <= |data|
    ensures WellSized(m, Chunks(m, data, start))
    decreases |data| - start
  {
    if start < |data| {
      var end := NextCut(m, data, start);
      CutIsWithinMax(m, data, start);
      ChunkSizes(m, data, end);
      PrependWellSized(m, data[start..end], Chunks(m, data, end));
    }
  }

  // ---------------------------------------------------------------- one declarative answer

  /** `blocks` cuts up `data[start..]`, each block ending at its first admissible byte. */
  ghost predicate Greedy(gear: Gear, data: Bytes, start: nat, blocks: seq<Bytes>)
    requires start <= |data|
    decreases |blocks|
  {
    if blocks == [] then start == |data| else
      var end := start + |blocks[0]|;
      && start < end <= |data| && blocks[0] == data[start..end]
      && (forall j :: start <= j < end - 1 ==> !CutsAt(gear, data, start, j))
      && (end == |data| || CutsAt(gear, data, start, end - 1))
      && Greedy(gear, data, end, blocks[1..])
  }

  lemma GreedyStarts(gear: Gear, data: Bytes, start: nat, blocks: seq<Bytes>)
    requires start < |data| && Greedy(gear, data, start, blocks)
    ensures blocks != []
    ensures
      var end := NextCut(Cdc(gear), data, start);
      blocks[0] == data[start..end] && Greedy(gear, data, end, blocks[1..])
  {
    SkipNonCuts(gear, data, start, start + |blocks[0]| - 1);
  }

  lemma {:induction false} GreedyIsTheLoops(gear: Gear, data: Bytes, start: nat, blocks: seq<Bytes>)
    requires start <= |data| && Greedy(gear, data, start, blocks)
    ensures blocks == Chunks(Cdc(gear), data, start)
    decreases |data| - start
  {
    if start < |data| {
      GreedyStarts(gear, data, start, blocks);
      assert blocks == [blocks[0]] + blocks[1..];
      GreedyIsTheLoops(gear, data, NextCut(Cdc(gear), data, start), blocks[1..]);
    }
  }

  lemma {:induction false} TheLoopsIsGreedy(gear: Gear, data: Bytes, start: nat)
    requires start <= |data|
    ensures Greedy(gear, data, start, Chunks(Cdc(gear), data, start))
    decreases |data| - start
  {
    if start < |data| {
      var end, blocks := NextCut(Cdc(gear), data, start), Chunks(Cdc(gear), data, start);
      assert blocks[0] == data[start..end] && blocks[1..] == Chunks(Cdc(gear), data, end);
      TheLoopsIsGreedy(gear, data, end);
    }
  }

  /** The greedy specification has one answer, and the rolling-hash loop returns it. */
  lemma ChunksAreTheGreedyOnes(gear: Gear, data: Bytes, start: nat, blocks: seq<Bytes>)
    requires start <= |data|
    ensures Greedy(gear, data, start, blocks) <==> blocks == Chunks(Cdc(gear), data, start)
  {
    TheLoopsIsGreedy(gear, data, start);
    if Greedy(gear, data, start, blocks) {
      GreedyIsTheLoops(gear, data, start, blocks);
    }
  }

  // ---------------------------------------------------------------- locality

  lemma {:induction false} WindowIsLocal(gear: Gear, a: Bytes, b: Bytes, lo: nat, i: nat, lo': nat, i': nat)
    requires lo <= i < |a| && lo' <= i' < |b| && i - lo == i' - lo'
    requires a[lo..i + 1] == b[lo'..i' + 1]
    ensures Window(gear, a, lo, i) == Window(gear, b, lo', i')
    decreases i
  {
    assert a[i] == a[lo..i + 1][i - lo] == b[lo'..i' + 1][i - lo] == b[i'];
    if lo < i {
      assert a[lo..i] == a[lo..i + 1][..i - lo] == b[lo'..i' + 1][..i - lo] == b[lo'..i'];
      WindowIsLocal(gear, a, b, lo, i - 1, lo', i' - 1);
    }
  }

  lemma CutIsLocal(gear: Gear, a: Bytes, b: Bytes, s: nat, t: nat, d: nat)
    requires s + d < |a| && t + d < |b| && a[s..s + d + 1] == b[t..t + d + 1]
    ensures CutsAt(gear, a, s, s + d) == CutsAt(gear, b, t, t + d)
  {
    if d + 1 >= MIN {
      assert a[s + d + 1 - WINDOW..s + d + 1] == a[s..s + d + 1][d + 1 - WINDOW..];
      assert b[t + d + 1 - WINDOW..t + d + 1] == b[t..t + d + 1][d + 1 - WINDOW..];
      WindowIsLocal(gear, a, b, s + d + 1 - WINDOW, s + d, t + d + 1 - WINDOW, t + d);
    }
  }

  lemma CutsAreLocal(gear: Gear, a: Bytes, b: Bytes, s: nat, t: nat, size: nat)
    requires s + size <= |a| && t + size <= |b| && a[s..s + size] == b[t..t + size]
    ensures forall j :: t <= j < t + size ==> CutsAt(gear, b, t, j) == CutsAt(gear, a, s, s + (j - t))
  {
    forall j | t <= j < t + size ensures CutsAt(gear, b, t, j) == CutsAt(gear, a, s, s + (j - t)) {
      var d := j - t;
      assert a[s..s + d + 1] == a[s..s + size][..d + 1];
      assert b[t..j + 1] == b[t..t + size][..d + 1];
      CutIsLocal(gear, a, b, s, t, d);
    }
  }

  /** Where a chunk ends depends on its own bytes, and on the data ending there if it does. */
  lemma NextCutIsLocal(m: Mode, a: Bytes, b: Bytes, s: nat, t: nat)
    requires Usable(m) && s < |a| && t < |b|
    requires t + (NextCut(m, a, s) - s) <= |b|
    requires a[s..NextCut(m, a, s)] == b[t..t + (NextCut(m, a, s) - s)]
    requires NextCut(m, a, s) == |a| ==> t + (|a| - s) == |b|
    ensures NextCut(m, b, t) == t + (NextCut(m, a, s) - s)
  {
    if m.Cdc? {
      var size := NextCut(m, a, s) - s;
      CutsAreLocal(m.gear, a, b, s, t, size);
      SkipNonCuts(m.gear, b, t, t + size - 1);
    }
  }

  lemma EqualSuffixesSplitAlike(a: Bytes, b: Bytes, s: nat, t: nat, e: nat)
    requires s <= e <= |a| && t <= |b| && a[s..] == b[t..]
    ensures
      var f := t + (e - s);
      |a| - s == |b| - t && f <= |b| && a[s..e] == b[t..f] && a[e..] == b[f..]
  {
    assert |a[s..]| == |b[t..]|;
    var f := t + (e - s);
    assert a[s..e] == a[s..][..e - s] && b[t..f] == b[t..][..e - s];
    assert a[e..] == a[s..][e - s..] && b[f..] == b[t..][e - s..];
  }

  lemma EqualSuffixesCutAlike(m: Mode, a: Bytes, b: Bytes, s: nat, t: nat)
    requires Usable(m) && s < |a| && t < |b| && a[s..] == b[t..]
    ensures
      var e, f := NextCut(m, a, s), NextCut(m, b, t);
      e - s == f - t && a[s..e] == b[t..f] && a[e..] == b[f..]
  {
    EqualSuffixesSplitAlike(a, b, s, t, NextCut(m, a, s));
    NextCutIsLocal(m, a, b, s, t);
  }

  /** Suffix locality: from a common cut on, equal bytes give equal chunks. */
  lemma {:induction false} EqualSuffixesChunkAlike(m: Mode, a: Bytes, b: Bytes, s: nat, t: nat)
    requires Usable(m) && s <= |a| && t <= |b| && a[s..] == b[t..]
    ensures Chunks(m, a, s) == Chunks(m, b, t)
    decreases |a| - s
  {
    EqualSuffixesSplitAlike(a, b, s, t, s);
    if s < |a| {
      EqualSuffixesCutAlike(m, a, b, s, t);
      EqualSuffixesChunkAlike(m, a, b, NextCut(m, a, s), NextCut(m, b, t));
    }
  }

  /** `c` is the start of `data[start..]` or the end of one of its chunks. */
  predicate Boundary(m: Mode, data: Bytes, start: nat, c: nat)
    requires Usable(m) && start <= |data|
    decreases |data| - start
  {
    c == start || (start < |data| && Boundary(m, data, NextCut(m, data, start), c))
  }

  lemma {:induction false} BoundaryRange(m: Mode, data: Bytes, start: nat, c: nat)
    requires Usable(m) && start <= |data| && Boundary(m, data, start, c)
    ensures start <= c <= |data|
    decreases |data| - start
  {
    if c != start {
      BoundaryRange(m, data, NextCut(m, data, start), c);
    }
  }

  /** Chunking restarts at a boundary: what precedes it is chunked as if the data ended there. */
  lemma {:induction false} SplitAtBoundary(m: Mode, data: Bytes, start: nat, c: nat)
    requires Usable(m) && start <= c <= |data| && Boundary(m, data, start, c)
    ensures Chunks(m, data, start) == Chunks(m, data[..c], start) + Chunks(m, data, c)
    decreases |data| - start
  {
    if c != start {
      var e := NextCut(m, data, start);
      BoundaryRange(m, data, e, c);
      assert data[..c][start..e] == data[start..e];
      NextCutIsLocal(m, data, data[..c], start, start);
      SplitAtBoundary(m, data, e, c);
    }
  }

  /** Conversely, a list of chunks that begins with the chunks of a prefix has a boundary there. */
  lemma {:induction false} PrefixEndsAtBoundary(m: Mode, data: Bytes, start: nat, c: nat, first: seq<Bytes>,
                                                rest: seq<Bytes>)
    requires Usable(m) && start <= c <= |data|
    requires Concat(first) == data[start..c] && first + rest == Chunks(m, data, start)
    ensures Boundary(m, data, start, c)
    decreases |first|
  {
    if first == [] {
      assert |data[start..c]| == 0;
    } else {
      var chunks := Chunks(m, data, start);
      var e := NextCut(m, data, start);
      assert first[0] == chunks[0] == data[start..e];
      assert |first[0]| <= |Concat(first)|;
      assert Concat(first[1..]) == data[start..c][e - start..] == data[e..c];
      assert first[1..] + rest == chunks[1..];
      PrefixEndsAtBoundary(m, data, e, c, first[1..], rest);
    }
  }

  // ---------------------------------------------------------------- reading through a buffer

  /** The chunks `put_file` stores: `read(buf)` until it returns nothing, each piece on its own.
      A negative size reads everything; size 0 returns nothing at once. */
  function FileChunks(m: Mode, data: Bytes, buf: int): seq<Bytes>
    requires Usable(m)
    decreases |data|
  {
    if data == [] || buf == 0 then []
    else if buf < 0 || |data| <= buf then Chunks(m, data, 0)
    else Chunks(m, data[..buf], 0) + FileChunks(m, data[buf..], buf)
  }

  /** Every read but the last ends where the chunker would have cut the rest of the file anyway. */
  predicate ReadsEndAtCuts(m: Mode, data: Bytes, buf: int)
    requires Usable(m)
    decreases |data|
  {
    |data| <= buf || buf < 0 ||
    (buf > 0 && Boundary(m, data, 0, buf) && ReadsEndAtCuts(m, data[buf..], buf))
  }

  lemma {:induction false} BufferedReadsAgreeExactlyAtCuts(m: Mode, data: Bytes, buf: int)
    requires Usable(m)
    ensures FileChunks(m, data, buf) == Chunks(m, data, 0) <==> ReadsEndAtCuts(m, data, buf)
    decreases |data|
  {
    if data == [] || buf == 0 || buf < 0 || |data| <= buf {
      ChunksConcatenate(m, data, 0);
    } else {
      var head, tail := data[..buf], data[buf..];
      BufferedReadsAgreeExactlyAtCuts(m, tail, buf);
      assert tail == tail[0..];
      EqualSuffixesChunkAlike(m, data, tail, buf, 0);
      if Boundary(m, data, 0, buf) {
        SplitAtBoundary(m, data, 0, buf);
        var first := Chunks(m, head, 0);
        if FileChunks(m, data, buf) == Chunks(m, data, 0) {
          assert (first + FileChunks(m, tail, buf))[|first|..] == FileChunks(m, tail, buf);
          assert (first + Chunks(m, tail, 0))[|first|..] == Chunks(m, tail, 0);
        }
      } else if FileChunks(m, data, buf) == Chunks(m, data, 0) {
        ChunksConcatenate(m, head, 0);
        assert head[0..] == data[0..buf];
        PrefixEndsAtBoundary(m, data, 0, buf, Chunks(m, head, 0), FileChunks(m, tail, buf));
      }
    }
  }

  lemma {:induction false} FixedBoundaries(block: nat, data: Bytes, start: nat, c: nat)
    requires block > 0 && start < c < |data|
    ensures Boundary(Fixed(block), data, start, c) <==> (c - start) % block == 0
    decreases |data| - start
  {
    var e := NextCut(Fixed(block), data, start);
    if c < e {
      if Boundary(Fixed(block), data, e, c) {
        BoundaryRange(Fixed(block), data, e, c);
      }
      assert (c - start) % block == c - start;
    } else if e < c {
      FixedBoundaries(block, data, e, c);
      ModuloStep(c - e, block);
    } else {
      ModuloStep(0, block);
    }
  }

  lemma ModuloStep(x: nat, block: nat)
    requires block > 0
    ensures (x + block) % block == x % block
  {
    var q, r := x / block, x % block;
    assert x + block == (q + 1) * block + r;
    QuotientIsUnique(x + block, block, q + 1, r);
  }

  lemma QuotientIsUnique(x: nat, block: nat, q: nat, r: nat)
    requires block > 0 && r < block && x == q * block + r
    ensures x % block == r
  {
    var q' := x / block;
    assert x == q' * block + x % block;
    if q > q' {
      AtLeastOneBlock(q - q', block);
    } else if q < q' {
      AtLeastOneBlock(q' - q, block);
    }
  }

  lemma AtLeastOneBlock(k: nat, block: nat)
    requires k > 0
    ensures k * block >= block
  {
  }

  /**
   Read-buffer independence of the fixed-block store, for every block size, buffer size and
   file: exactly when the file fits one read or the block size divides the buffer.
   */
  lemma {:induction false} FixedBlocksIgnoreTheReadBuffer(block: nat, data: Bytes, buf: int)
    requires block > 0
    ensures FileChunks(Fixed(block), data, buf) == Chunks(Fixed(block), data, 0)
       <==> (buf < 0 || |data| <= buf || (buf > 0 && buf % block == 0))
    decreases |data|
  {
    BufferedReadsAgreeExactlyAtCuts(Fixed(block), data, buf);
    if 0 < buf < |data| {
      FixedBoundaries(block, data, 0, buf);
      if buf % block == 0 {
        FixedBlocksIgnoreTheReadBuffer(block, data[buf..], buf);
        BufferedReadsAgreeExactlyAtCuts(Fixed(block), data[buf..], buf);
      }
    }
  }

  /** A content-defined store differs on every file longer than a buffer below the minimum chunk. */
  lemma SmallBuffersMoveContentCuts(gear: Gear, data: Bytes, buf: nat)
    requires 0 < buf < 2048 && buf < |data|
    ensures FileChunks(Cdc(gear), data, buf) != Chunks(Cdc(gear), data, 0)
  {
    BufferedReadsAgreeExactlyAtCuts(Cdc(gear), data, buf);
    CutIsWithinMax(Cdc(gear), data, 0);
    var e := NextCut(Cdc(gear), data, 0);
    if Boundary(Cdc(gear), data, 0, buf) {
      BoundaryRange(Cdc(gear), data, e, buf);
    }
  }
}
