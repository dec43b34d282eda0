/**
 A flush that fails (spikes/storage/cas.py:103-111).  The queue was emptied before the upload, the
 index still lists its keys, and one refused PUT makes the executor cancel uploads behind it that
 have not started.  What was lost then is never queued again by this daemon.
 */
module RefusedUploads {
  import opened Wrappers
  import opened Chunking
  import opened Store
  import opened ColdTier

  // ---------------------------------------------------------------- the queue of one daemon

  ghost predicate DistinctKeys(q: seq<(Key, Bytes)>) {
    forall i, j :: 0 <= i < j < |q| ==> q[i].0 != q[j].0
  }

  /** A daemon whose uploads have all succeeded so far. */
  ghost predicate Proper(c: Config, s: State) {
    && GoodStore(c, s) && Covered(c, s, s.pending) && DistinctKeys(s.pending)
    && (forall k :: 0 <= k < |s.pending| ==> s.pending[k].0 in s.index)
  }

  lemma PutBlockQueuesOnce(c: Config, s: State, b: Bytes)
    requires DistinctKeys(s.pending) && forall k :: 0 <= k < |s.pending| ==> s.pending[k].0 in s.index
    ensures
      var s' := PutBlock(c, s, b);
      DistinctKeys(s'.pending) && forall k :: 0 <= k < |s'.pending| ==> s'.pending[k].0 in s'.index
  {
  }

  lemma PutBlockIsProper(c: Config, s: State, b: Bytes)
    requires Sound(c) && c.root && Proper(c, s)
    ensures Proper(c, PutBlock(c, s, b))
  {
    PutBlockQueuesOnce(c, s, b);
    PutBlockIsGood(c, s, b);
  }

  lemma {:induction false} PutBlocksIsProper(c: Config, s: State, blocks: seq<Bytes>)
    requires Sound(c) && c.root && Proper(c, s)
    ensures Proper(c, PutBlocks(c, s, blocks))
    decreases |blocks|
  {
    if blocks != [] {
      PutBlockIsProper(c, s, blocks[0]);
      PutBlocksIsProper(c, PutBlock(c, s, blocks[0]), blocks[1..]);
    }
  }

  /** Of `blocks` those not indexed yet, each at its first occurrence. */
  function NewOnes(c: Config, indexed: set<Key>, blocks: seq<Bytes>): seq<Bytes>
    decreases |blocks|
  {
    if blocks == [] then [] else
      var h := c.hash(blocks[0]);
      if h in indexed then NewOnes(c, indexed, blocks[1..])
      else [blocks[0]] + NewOnes(c, indexed + {h}, blocks[1..])
  }

  function Compressed(c: Config, blocks: seq<Bytes>): seq<(Key, Bytes)> {
    seq(|blocks|, k requires 0 <= k < |blocks| => (c.hash(blocks[k]), c.compress(blocks[k])))
  }

  /** New blocks queue up behind what waits already, in the order of the file. */
  lemma {:induction false} QueueIsInFileOrder(c: Config, s: State, blocks: seq<Bytes>)
    requires c.s3
    ensures PutBlocks(c, s, blocks).pending == s.pending + Compressed(c, NewOnes(c, s.index.Keys, blocks))
    decreases |blocks|
  {
    if blocks != [] {
      var s1, b := PutBlock(c, s, blocks[0]), blocks[0];
      QueueIsInFileOrder(c, s1, blocks[1..]);
      if c.hash(b) !in s.index {
        var rest := NewOnes(c, s1.index.Keys, blocks[1..]);
        assert s1.index.Keys == s.index.Keys + {c.hash(b)};
        assert Compressed(c, [b] + rest) == [(c.hash(b), c.compress(b))] + Compressed(c, rest);
      }
    }
  }

  // ---------------------------------------------------------------- what one flush loses

  ghost predicate RefusedBefore(q: seq<(Key, Bytes)>, refused: set<Key>, k: nat) {
    exists j :: 0 <= j < k && j < |q| && q[j].0 in refused
  }

  /** The upload at position `k` does not happen. */
  ghost predicate LostAt(q: seq<(Key, Bytes)>, o: Outage, failed: bool, k: nat)
    requires k < |q|
  {
    q[k].0 in o.refused || (q[k].0 in o.cancelled && (failed || RefusedBefore(q, o.refused, k)))
  }

  lemma {:induction false} UploadTouchesTheQueueOnly(cold: map<Key, Bytes>, q: seq<(Key, Bytes)>, o: Outage,
                                                     failed: bool, h: Key)
    requires !Queued(h, q)
    ensures h in Upload(cold, q, o, failed) <==> h in cold
    decreases |q|
  {
    if q != [] {
      QueuedSplits(h, q);
      var lost := q[0].0 in o.refused || (failed && q[0].0 in o.cancelled);
      UploadTouchesTheQueueOnly(if lost then cold else cold[q[0].0 := q[0].1], q[1..], o,
                                failed || q[0].0 in o.refused, h);
    }
  }

  lemma LostBehind(q: seq<(Key, Bytes)>, o: Outage, failed: bool, k: nat)
    requires 0 < k < |q|
    ensures LostAt(q[1..], o, failed || q[0].0 in o.refused, k - 1) <==> LostAt(q, o, failed, k)
  {
    if RefusedBefore(q[1..], o.refused, k - 1) {
      var j :| 0 <= j < k - 1 && j < |q[1..]| && q[1..][j].0 in o.refused;
      assert q[j + 1].0 in o.refused;
    }
    if RefusedBefore(q, o.refused, k) && q[0].0 !in o.refused {
      var j :| 0 <= j < k && j < |q| && q[j].0 in o.refused;
      assert q[1..][j - 1].0 in o.refused;
    }
    assert q[0].0 in o.refused ==> RefusedBefore(q, o.refused, k);
  }

  /** After a flush the tier has what it had and what was not lost. */
  lemma {:induction false} UploadSendsWhatIsNotLost(cold: map<Key, Bytes>, q: seq<(Key, Bytes)>, o: Outage,
                                                    failed: bool, k: nat)
    requires DistinctKeys(q) && k < |q|
    ensures q[k].0 in Upload(cold, q, o, failed) <==> q[k].0 in cold || !LostAt(q, o, failed, k)
    decreases |q|
  {
    var lost := q[0].0 in o.refused || (failed && q[0].0 in o.cancelled);
    var cold' := if lost then cold else cold[q[0].0 := q[0].1];
    if k == 0 {
      UploadTouchesTheQueueOnly(cold', q[1..], o, failed || q[0].0 in o.refused, q[0].0);
      assert lost <==> LostAt(q, o, failed, 0);
    } else {
      LostBehind(q, o, failed, k);
      UploadSendsWhatIsNotLost(cold', q[1..], o, failed || q[0].0 in o.refused, k - 1);
    }
  }

  // ---------------------------------------------------------------- later puts and flushes

  /** Files stored one after the other by the same daemon, each flush with its own luck. */
  function Retried(c: Config, s: State, more: seq<(seq<Bytes>, Outage)>): State
    decreases |more|
  {
    if more == [] then s else
      Retried(c, Flush(c, PutBlocks(c, s, more[0].0), more[0].1).0, more[1..])
  }

  lemma {:induction false} PutsQueueOnlyNewKeys(c: Config, s: State, blocks: seq<Bytes>, h: Key)
    requires h in s.index && !Queued(h, s.pending)
    ensures h in PutBlocks(c, s, blocks).index && !Queued(h, PutBlocks(c, s, blocks).pending)
    ensures PutBlocks(c, s, blocks).cold == s.cold
    decreases |blocks|
  {
    if blocks != [] {
      var s1 := PutBlock(c, s, blocks[0]);
      PutsQueueOnlyNewKeys(c, s1, blocks[1..], h);
    }
  }

  /** A key that is indexed and not queued is where it was, whatever this daemon stores next. */
  lemma {:induction false} NothingIndexedIsSentAgain(c: Config, s: State, more: seq<(seq<Bytes>, Outage)>, h: Key)
    requires h in s.index && !Queued(h, s.pending)
    ensures h in Retried(c, s, more).cold <==> h in s.cold
    decreases |more|
  {
    if more != [] {
      var put := PutBlocks(c, s, more[0].0);
      PutsQueueOnlyNewKeys(c, s, more[0].0, h);
      UploadTouchesTheQueueOnly(put.cold, put.pending, more[0].1, false, h);
      NothingIndexedIsSentAgain(c, Flush(c, put, more[0].1).0, more[1..], h);
    }
  }

  lemma {:induction false} PutBlocksStayGood(c: Config, s: State, blocks: seq<Bytes>)
    requires Sound(c) && GoodStore(c, s)
    ensures GoodStore(c, PutBlocks(c, s, blocks))
    decreases |blocks|
  {
    if blocks != [] {
      GoodBlock(c, blocks[0]);
      PutBlocksStayGood(c, PutBlock(c, s, blocks[0]), blocks[1..]);
    }
  }

  lemma {:induction false} RetriedIsGood(c: Config, s: State, more: seq<(seq<Bytes>, Outage)>)
    requires Sound(c) && GoodStore(c, s)
    ensures GoodStore(c, Retried(c, s, more))
    decreases |more|
  {
    if more != [] {
      var put := PutBlocks(c, s, more[0].0);
      PutBlocksStayGood(c, s, more[0].0);
      UploadIsGood(c, put.cold, put.pending, more[0].1, false);
      RetriedIsGood(c, Flush(c, put, more[0].1).0, more[1..]);
    }
  }

  // ---------------------------------------------------------------- when retrying heals

  function Queue(c: Config, s: State, blocks: seq<Bytes>): seq<(Key, Bytes)> {
    PutBlocks(c, s, blocks).pending
  }

  /** Store `blocks` with bad luck, store whatever else, and lose the hot cache. */
  function Aftermath(c: Config, s: State, blocks: seq<Bytes>, o: Outage, more: seq<(seq<Bytes>, Outage)>): State {
    Retried(c, Flush(c, PutBlocks(c, s, blocks), o).0, more).(hot := map[])
  }

  ghost predicate ReadsBack(c: Config, s: State, blocks: seq<Bytes>) {
    forall b :: b in blocks ==> Get(c, s, c.hash(b)).1 == Ok(b)
  }

  /** From the first refused key of the queue on, the tier already had every block in question. */
  ghost predicate TailWasCold(c: Config, s: State, blocks: seq<Bytes>, refused: set<Key>) {
    var q := Queue(c, s, blocks);
    forall j, k :: 0 <= j <= k < |q| && q[j].0 in refused && q[k].0 in Manifest(c, blocks) ==> q[k].0 in s.cold
  }

  lemma InManifest(c: Config, blocks: seq<Bytes>, b: Bytes)
    requires b in blocks
    ensures c.hash(b) in Manifest(c, blocks)
  {
    var k :| 0 <= k < |blocks| && blocks[k] == b;
    assert Manifest(c, blocks)[k] == c.hash(b);
  }

  ghost predicate SentSomewhere(q: seq<(Key, Bytes)>, o: Outage, h: Key) {
    exists k :: 0 <= k < |q| && q[k].0 == h && !LostAt(q, o, false, k)
  }

  /** Where one block is after all that. */
  lemma BlockIsColdUnlessLost(c: Config, s: State, blocks: seq<Bytes>, o: Outage, more: seq<(seq<Bytes>, Outage)>,
                              b: Bytes)
    requires Sound(c) && c.root && c.s3 && Proper(c, s) && b in blocks
    ensures GoodStore(c, Aftermath(c, s, blocks, o, more))
    ensures
      var q, h := Queue(c, s, blocks), c.hash(b);
      h in Aftermath(c, s, blocks, o, more).cold <==> h in s.cold || SentSomewhere(q, o, h)
  {
    var put, h := PutBlocks(c, s, blocks), c.hash(b);
    PutBlocksIsProper(c, s, blocks);
    PutBlocksIsGood(c, s, blocks);
    UploadIsGood(c, put.cold, put.pending, o, false);
    var flushed := Flush(c, put, o).0;
    NothingIndexedIsSentAgain(c, flushed, more, h);
    RetriedIsGood(c, flushed, more);
    if Queued(h, put.pending) {
      var k :| 0 <= k < |put.pending| && put.pending[k].0 == h;
      UploadSendsWhatIsNotLost(put.cold, put.pending, o, false, k);
    } else {
      UploadTouchesTheQueueOnly(put.cold, put.pending, o, false, h);
    }
  }

  lemma ReadsBackWhenCold(c: Config, s: State, b: Bytes)
    requires Sound(c) && c.root && c.s3 && GoodStore(c, s) && s.hot == map[]
    ensures Get(c, s, c.hash(b)).1 == Ok(b) <==> c.hash(b) in s.cold
  {
    if c.hash(b) in s.cold {
      GetIsGood(c, s, b);
    }
  }

  lemma ColdTailHeals(c: Config, s: State, blocks: seq<Bytes>, o: Outage, more: seq<(seq<Bytes>, Outage)>)
    requires Sound(c) && c.root && c.s3 && Proper(c, s) && TailWasCold(c, s, blocks, o.refused)
    ensures ReadsBack(c, Aftermath(c, s, blocks, o, more), blocks)
  {
    var put := PutBlocks(c, s, blocks);
    PutBlocksIsGood(c, s, blocks);
    forall b | b in blocks ensures Get(c, Aftermath(c, s, blocks, o, more), c.hash(b)).1 == Ok(b) {
      BlockIsColdUnlessLost(c, s, blocks, o, more, b);
      ReadsBackWhenCold(c, Aftermath(c, s, blocks, o, more), b);
      InManifest(c, blocks, b);
      if c.hash(b) !in s.cold {
        var k :| 0 <= k < |put.pending| && put.pending[k].0 == c.hash(b);
        assert !LostAt(put.pending, o, false, k);
      }
    }
  }

  lemma LosingItIsEnough(q: seq<(Key, Bytes)>, o: Outage, j: nat, k: nat)
    requires DistinctKeys(q) && j <= k < |q| && q[j].0 in o.refused && q[k].0 in o.cancelled
    ensures !SentSomewhere(q, o, q[k].0)
  {
    assert LostAt(q, o, false, k);
  }

  lemma ColdTailIsNeeded(c: Config, s: State, blocks: seq<Bytes>, refused: set<Key>, more: seq<(seq<Bytes>, Outage)>,
                         j: nat, k: nat)
    returns (cancelled: set<Key>)
    requires Sound(c) && c.root && c.s3 && Proper(c, s)
    requires j <= k < |Queue(c, s, blocks)| && Queue(c, s, blocks)[j].0 in refused
    requires Queue(c, s, blocks)[k].0 in Manifest(c, blocks) && Queue(c, s, blocks)[k].0 !in s.cold
    ensures !ReadsBack(c, Aftermath(c, s, blocks, Outage(refused, cancelled), more), blocks)
  {
    var q := Queue(c, s, blocks);
    cancelled := set i | 0 <= i < |q| :: q[i].0;  // nothing behind the refused upload had started
    assert q[k].0 in cancelled;
    var o := Outage(refused, cancelled);
    var i :| 0 <= i < |blocks| && Manifest(c, blocks)[i] == q[k].0;
    assert blocks[i] in blocks && c.hash(blocks[i]) == q[k].0;
    PutBlocksIsProper(c, s, blocks);
    LosingItIsEnough(q, o, j, k);
    BlockIsColdUnlessLost(c, s, blocks, o, more, blocks[i]);
    ReadsBackWhenCold(c, Aftermath(c, s, blocks, o, more), blocks[i]);
  }

  /**
   However the race behind a refused upload ends, and whatever the daemon stores and flushes
   afterwards, a cold restore returns every block: this holds if and only if no queued key is
   refused, or from the first refused one on the tier already had every block asked for.
   */
  lemma RetriesHealExactlyWhenTheTailWasCold(c: Config, s: State, blocks: seq<Bytes>, refused: set<Key>,
                                             more: seq<(seq<Bytes>, Outage)>)
    requires Sound(c) && c.root && c.s3 && Proper(c, s)
    ensures
      var heals := forall cancelled ::
        ReadsBack(c, Aftermath(c, s, blocks, Outage(refused, cancelled), more), blocks);
      heals <==> TailWasCold(c, s, blocks, refused)
  {
    if TailWasCold(c, s, blocks, refused) {
      forall cancelled ensures ReadsBack(c, Aftermath(c, s, blocks, Outage(refused, cancelled), more), blocks) {
        ColdTailHeals(c, s, blocks, Outage(refused, cancelled), more);
      }
    } else {
      var q := Queue(c, s, blocks);
      var j, k :| 0 <= j <= k < |q| && q[j].0 in refused && q[k].0 in Manifest(c, blocks) && q[k].0 !in s.cold;
      var cancelled := ColdTailIsNeeded(c, s, blocks, refused, more, j, k);
    }
  }

  /** A daemon that restarts before it stores the blocks again has forgotten them, and heals. */
  lemma RestartHeals(c: Config, s: State, blocks: seq<Bytes>)
    requires Sound(c) && c.root && c.s3 && GoodStore(c, s)
    ensures ReadsBack(c, Flush(c, PutBlocks(c, Restarted(s.hot, s.cold), blocks), FAULTLESS).0.(hot := map[]), blocks)
  {
    var anew := Restarted(s.hot, s.cold);
    assert Proper(c, anew);
    assert Aftermath(c, anew, blocks, FAULTLESS, [])
      == Flush(c, PutBlocks(c, anew, blocks), FAULTLESS).0.(hot := map[]);
    ColdTailHeals(c, anew, blocks, FAULTLESS, []);
  }
}
