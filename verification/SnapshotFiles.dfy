/**
 `_chunk_mem` and `_reconstruct_mem` of spikes/engine/kladosd.py:153-180 step by step, for any
 number of snapshots at once, with crashes, daemon restarts and cache wipes between any two
 steps.  The engine's store always has a root directory and may have an S3 tier.
 */
module SnapshotFiles {
  import opened Wrappers
  import opened Chunking
  import opened ChunkLaws
  import opened Store
  import opened ColdTier

  type Id = nat

  /** The manifest is written in place, so a crash can leave a torn one. */
  datatype ManifestFile = Torn | Whole(hashes: seq<Key>)

  datatype Files = Files(mem: Option<Bytes>, tmp: Option<Bytes>, manifest: Option<ManifestFile>)

  /** Where a thread is: in `_chunk_mem` (all but the last) or in `_reconstruct_mem`. */
  datatype Job =
    | Putting(done: nat, hashes: seq<Key>)
    | Flushing(rest: seq<(Key, Bytes)>, hashes: seq<Key>)
    | Unlocked(hashes: seq<Key>)
    | Writing(hashes: seq<Key>)
    | Dropping(hashes: seq<Key>)
    | Rebuilding(done: nat, hashes: seq<Key>)

  /** `originals` remembers the raw images `vm.snapshot` completed. */
  datatype System = System(
    store: State, files: map<Id, Files>, jobs: map<Id, Job>, lock: Option<Id>, originals: map<Id, Bytes>)

  const EMPTY := System(Restarted(map[], map[]), map[], map[], None, map[])

  datatype Step =
    | RawImage(id: Id, data: Bytes)
    | StartChunking(id: Id)    // take the store lock
    | PutOne(id: Id)           // store one block of the image
    | StartFlush(id: Id)       // empty the queue
    | UploadOne(id: Id, k: nat) // the uploads run in parallel, in any order
    | Unlock(id: Id)
    | OpenManifest(id: Id)     // truncates it
    | CloseManifest(id: Id)
    | RemoveMem(id: Id)
    | StartRebuild(id: Id)
    | RebuildOne(id: Id)
    | ReplaceMem(id: Id)       // os.replace(tmp, mem)
    | Die(id: Id)              // an exception ends the thread; `with` releases the lock
    | Crash                    // the daemon dies and restarts
    | Wipe                     // rm -rf of the hot cache, survivable only with a cold tier

  predicate HasJob(sys: System, id: Id) {
    id in sys.jobs && id in sys.files
  }

  /** One thread per snapshot: a chunking thread needs the image, a rebuilding one its absence. */
  predicate Enabled(c: Config, sys: System, step: Step)
    requires Usable(c.mode)
  {
    match step
    case RawImage(id, _) => id !in sys.files
    case StartChunking(id) => id in sys.files && sys.files[id].mem.Some? && id !in sys.jobs && sys.lock.None?
    case PutOne(id) =>
      && HasJob(sys, id) && sys.jobs[id].Putting? && sys.files[id].mem.Some?
      && sys.jobs[id].done < |ImageBlocks(c, sys.files[id].mem.value)|
    case StartFlush(id) =>
      && HasJob(sys, id) && sys.jobs[id].Putting? && sys.files[id].mem.Some?
      && sys.jobs[id].done == |ImageBlocks(c, sys.files[id].mem.value)|
    case UploadOne(id, k) => HasJob(sys, id) && sys.jobs[id].Flushing? && k < |sys.jobs[id].rest|
    case Unlock(id) => HasJob(sys, id) && sys.jobs[id].Flushing? && sys.jobs[id].rest == []
    case OpenManifest(id) => HasJob(sys, id) && sys.jobs[id].Unlocked?
    case CloseManifest(id) => HasJob(sys, id) && sys.jobs[id].Writing?
    case RemoveMem(id) => HasJob(sys, id) && sys.jobs[id].Dropping?
    case StartRebuild(id) =>
      && id in sys.files && id !in sys.jobs && sys.files[id].mem.None?
      && sys.files[id].manifest.Some? && sys.files[id].manifest.value.Whole?
    case RebuildOne(id) =>
      && HasJob(sys, id) && sys.jobs[id].Rebuilding? && sys.files[id].tmp.Some?
      && sys.jobs[id].done < |sys.jobs[id].hashes|
    case ReplaceMem(id) =>
      HasJob(sys, id) && sys.jobs[id].Rebuilding? && sys.jobs[id].done == |sys.jobs[id].hashes|
    case Die(id) => id in sys.jobs && !sys.jobs[id].Flushing?
    case Crash => true
    case Wipe => c.s3
  }

  function SetFiles(sys: System, id: Id, f: Files): System {
    sys.(files := sys.files[id := f])
  }

  function SetJob(sys: System, id: Id, j: Job): System {
    sys.(jobs := sys.jobs[id := j])
  }

  function EndJob(sys: System, id: Id): System {
    sys.(jobs := sys.jobs - {id}, lock := if sys.lock == Some(id) then None else sys.lock)
  }

  function Apply(c: Config, sys: System, step: Step): System
    requires Usable(c.mode) && Enabled(c, sys, step)
  {
    match step
    case RawImage(id, data) =>
      SetFiles(sys, id, Files(Some(data), None, None)).(originals := sys.originals[id := data])
    case StartChunking(id) => SetJob(sys, id, Putting(0, [])).(lock := Some(id))
    case PutOne(id) =>
      var j := sys.jobs[id];
      var block := ImageBlocks(c, sys.files[id].mem.value)[j.done];
      SetJob(sys, id, Putting(j.done + 1, j.hashes + [c.hash(block)])).(store := PutBlock(c, sys.store, block))
    case StartFlush(id) =>
      SetJob(sys, id, Flushing(sys.store.pending, sys.jobs[id].hashes)).(store := sys.store.(pending := []))
    case UploadOne(id, k) =>
      var j := sys.jobs[id];
      var (h, comp) := j.rest[k];
      SetJob(sys, id, Flushing(j.rest[..k] + j.rest[k + 1..], j.hashes))
        .(store := sys.store.(cold := sys.store.cold[h := comp]))
    case Unlock(id) => SetJob(sys, id, Unlocked(sys.jobs[id].hashes)).(lock := None)
    case OpenManifest(id) =>
      SetFiles(SetJob(sys, id, Writing(sys.jobs[id].hashes)), id, sys.files[id].(manifest := Some(Torn)))
    case CloseManifest(id) =>
      SetFiles(SetJob(sys, id, Dropping(sys.jobs[id].hashes)), id,
               sys.files[id].(manifest := Some(Whole(sys.jobs[id].hashes))))
    case RemoveMem(id) => SetFiles(EndJob(sys, id), id, sys.files[id].(mem := None))
    case StartRebuild(id) =>
      SetFiles(SetJob(sys, id, Rebuilding(0, sys.files[id].manifest.value.hashes)), id,
               sys.files[id].(tmp := Some([])))
    case RebuildOne(id) =>
      var j := sys.jobs[id];
      var (store, r) := Get(c, sys.store, j.hashes[j.done]);
      (match r
       case Err(_) => EndJob(sys.(store := store), id)
       case Ok(b) =>
         SetFiles(SetJob(sys, id, Rebuilding(j.done + 1, j.hashes)), id,
                  sys.files[id].(tmp := Some(sys.files[id].tmp.value + b))).(store := store))
    case ReplaceMem(id) =>
      SetFiles(EndJob(sys, id), id, sys.files[id].(mem := sys.files[id].tmp, tmp := None))
    case Die(id) => EndJob(sys, id)
    case Crash =>
      sys.(store := Restarted(sys.store.hot, sys.store.cold), jobs := map[], lock := None)
    case Wipe => sys.(store := sys.store.(hot := map[]))
  }

  ghost predicate ValidRun(c: Config, sys: System, run: seq<Step>)
    requires Usable(c.mode)
    decreases |run|
  {
    run == [] || (Enabled(c, sys, run[0]) && ValidRun(c, Apply(c, sys, run[0]), run[1..]))
  }

  ghost function After(c: Config, sys: System, run: seq<Step>): System
    requires Usable(c.mode) && ValidRun(c, sys, run)
    decreases |run|
  {
    if run == [] then sys else After(c, Apply(c, sys, run[0]), run[1..])
  }

  /** The manifest is torn from its opening to its closing, and the image goes after that: the files
      of the three writes of `_chunk_mem`. */
  lemma ManifestIsTornWhileWritten(c: Config, sys: System, id: Id)
    requires Usable(c.mode) && Enabled(c, sys, OpenManifest(id)) && sys.lock != Some(id)
    ensures
      var f, hashes := sys.files[id], sys.jobs[id].hashes;
      var torn := Apply(c, sys, OpenManifest(id));
      && torn.files == sys.files[id := f.(manifest := Some(Torn))] && Enabled(c, torn, CloseManifest(id))
      && var whole := Apply(c, torn, CloseManifest(id));
      && whole.files == sys.files[id := f.(manifest := Some(Whole(hashes)))] && Enabled(c, whole, RemoveMem(id))
      && Apply(c, whole, RemoveMem(id)).files
         == sys.files[id := f.(manifest := Some(Whole(hashes)), mem := None)]
  {
  }

  /** A crash takes the index, the queue, the lock and every thread, and no file; a wipe takes the
      cache only. */
  lemma CrashesForget(c: Config, sys: System)
    requires Usable(c.mode)
    ensures
      var after := Apply(c, sys, Crash);
      && after.files == sys.files && after.jobs == map[] && after.lock == None
      && after.store.hot == sys.store.hot && after.store.cold == sys.store.cold
      && after.store.index == map[] && after.store.pending == []
    ensures c.s3 ==>
      var after := Apply(c, sys, Wipe);
      after == sys.(store := after.store) && after.store == sys.store.(hot := map[])
  {
  }

  // ---------------------------------------------------------------- the invariant

  predicate FlushUnderWay(sys: System) {
    sys.lock.Some? && sys.lock.value in sys.jobs && sys.jobs[sys.lock.value].Flushing?
  }

  /** What is waiting to reach the durable tier. */
  function Queue(sys: System): seq<(Key, Bytes)> {
    if FlushUnderWay(sys) then sys.jobs[sys.lock.value].rest else sys.store.pending
  }

  ghost predicate AllIndexed(s: State, hashes: seq<Key>) {
    forall k :: 0 <= k < |hashes| ==> hashes[k] in s.index
  }

  ghost predicate StoreOk(c: Config, sys: System) {
    && GoodStore(c, sys.store) && GoodQueue(c, Queue(sys)) && Covered(c, sys.store, Queue(sys))
    && (FlushUnderWay(sys) ==> sys.store.pending == [])
  }

  /** An image is the original or absent; absent, the manifest is whole and durable. */
  ghost predicate FilesOk(c: Config, s: State, f: Files, original: Bytes)
    requires Usable(c.mode)
  {
    && (f.mem.Some? ==> f.mem.value == original)
    && (f.mem.None? ==> f.manifest.Some? && f.manifest.value.Whole?)
    && (f.manifest.Some? && f.manifest.value.Whole? ==>
          && f.manifest.value.hashes == Manifest(c, ImageBlocks(c, original))
          && AllDurable(c, s, f.manifest.value.hashes))
  }

  ghost predicate JobOk(c: Config, sys: System, id: Id, f: Files, original: Bytes)
    requires Usable(c.mode) && id in sys.jobs
  {
    var all := Manifest(c, ImageBlocks(c, original));
    match sys.jobs[id]
    case Putting(done, hashes) =>
      && sys.lock == Some(id) && f.mem.Some? && done <= |all| && hashes == all[..done]
      && AllIndexed(sys.store, hashes)
    case Flushing(rest, hashes) =>
      sys.lock == Some(id) && f.mem.Some? && hashes == all && AllIndexed(sys.store, hashes)
    case Unlocked(hashes) =>
      sys.lock != Some(id) && f.mem.Some? && hashes == all && AllDurable(c, sys.store, hashes)
    case Writing(hashes) =>
      sys.lock != Some(id) && f.mem.Some? && hashes == all && AllDurable(c, sys.store, hashes)
    case Dropping(hashes) =>
      && sys.lock != Some(id) && f.mem.Some? && hashes == all && AllDurable(c, sys.store, hashes)
      && f.manifest == Some(Whole(hashes))
    case Rebuilding(done, hashes) =>
      && sys.lock != Some(id) && f.mem.None? && f.manifest == Some(Whole(hashes))
      && done <= |hashes| == |all|
      && f.tmp == Some(Concat(ImageBlocks(c, original)[..done]))
  }

  ghost predicate SnapshotOk(c: Config, sys: System, id: Id)
    requires Usable(c.mode) && id in sys.files && id in sys.originals
  {
    && FilesOk(c, sys.store, sys.files[id], sys.originals[id])
    && (id in sys.jobs ==> JobOk(c, sys, id, sys.files[id], sys.originals[id]))
  }

  ghost predicate Inv(c: Config, sys: System)
    requires Usable(c.mode)
  {
    && StoreOk(c, sys)
    && sys.files.Keys == sys.originals.Keys && sys.jobs.Keys <= sys.files.Keys
    && (sys.lock.Some? ==> sys.lock.value in sys.jobs)
    && (forall id :: id in sys.files ==> SnapshotOk(c, sys, id))
  }

  // ---------------------------------------------------------------- every step keeps it

  ghost predicate Grows(c: Config, s: State, s': State) {
    s.index.Keys <= s'.index.Keys && Durable(c, s).Keys <= Durable(c, s').Keys
  }

  /** Nothing about any other snapshot changes, but the lock may move to or from this one. */
  ghost predicate Touches(sys: System, sys': System, id: Id) {
    && sys'.files.Keys == sys'.originals.Keys == sys.files.Keys + {id}
    && sys'.files - {id} == sys.files - {id} && sys'.originals - {id} == sys.originals - {id}
    && sys'.jobs - {id} == sys.jobs - {id}
    && (sys'.lock == sys.lock || (sys.lock in {None, Some(id)} && sys'.lock in {None, Some(id)}))
  }

  /** To keep the invariant, a step owes it for the store and for the snapshot it works on. */
  lemma StepOwes(c: Config, sys: System, sys': System, id: Id)
    requires Usable(c.mode) && Inv(c, sys) && Touches(sys, sys', id) && Grows(c, sys.store, sys'.store)
    requires StoreOk(c, sys') && SnapshotOk(c, sys', id)
    requires sys'.lock == Some(id) ==> id in sys'.jobs
    ensures Inv(c, sys')
  {
    if sys'.lock.Some? && sys'.lock != Some(id) {
      assert sys'.lock.value in sys.jobs - {id};
    }
    forall i | i in sys'.jobs ensures i in sys'.files {
      if i != id {
        assert i in sys'.jobs - {id};
      }
    }
    forall i | i in sys'.files ensures SnapshotOk(c, sys', i) {
      if i != id {
        OtherKeeps(c, sys, sys', id, i);
      }
    }
  }

  lemma OtherKeeps(c: Config, sys: System, sys': System, id: Id, i: Id)
    requires Usable(c.mode) && Touches(sys, sys', id) && Grows(c, sys.store, sys'.store)
    requires i != id && i in sys.files && i in sys.originals && SnapshotOk(c, sys, i)
    ensures i in sys'.files && i in sys'.originals && SnapshotOk(c, sys', i)
  {
    assert i in sys.files - {id} && i in sys.originals - {id};
    assert (sys.files - {id})[i] == sys.files[i] && (sys'.files - {id})[i] == sys'.files[i];
    assert (sys.originals - {id})[i] == sys.originals[i] && (sys'.originals - {id})[i] == sys'.originals[i];
    if i in sys'.jobs {
      assert i in sys'.jobs - {id};
      assert (sys.jobs - {id})[i] == sys.jobs[i] && (sys'.jobs - {id})[i] == sys'.jobs[i];
    }
  }

  /** A step that leaves the store alone owes only the snapshot it works on. */
  lemma QuietStepOwes(c: Config, sys: System, sys': System, id: Id)
    requires Usable(c.mode) && Inv(c, sys) && Touches(sys, sys', id) && sys'.store == sys.store
    requires Queue(sys') == Queue(sys) && FlushUnderWay(sys') == FlushUnderWay(sys)
    requires SnapshotOk(c, sys', id)
    requires sys'.lock == Some(id) ==> id in sys'.jobs
    ensures Inv(c, sys')
  {
    StepOwes(c, sys, sys', id);
  }

  lemma PutOneOwes(c: Config, sys: System, id: Id)
    requires Usable(c.mode) && Inv(c, sys) && Enabled(c, sys, PutOne(id))
    requires
      var s' := Apply(c, sys, PutOne(id)).store;
      && GoodStore(c, s') && Covered(c, s', s'.pending) && Grows(c, sys.store, s')
      && c.hash(ImageBlocks(c, sys.files[id].mem.value)[sys.jobs[id].done]) in s'.index
    ensures Inv(c, Apply(c, sys, PutOne(id)))
  {
    assert SnapshotOk(c, sys, id);
    var j := sys.jobs[id];
    var all := Manifest(c, ImageBlocks(c, sys.files[id].mem.value));
    assert all[..j.done + 1] == all[..j.done] + [all[j.done]];
    StepOwes(c, sys, Apply(c, sys, PutOne(id)), id);
  }

  lemma PutOneKeepsInv(c: Config, sys: System, id: Id)
    requires Sound(c) && c.root && Inv(c, sys) && Enabled(c, sys, PutOne(id))
    ensures Inv(c, Apply(c, sys, PutOne(id)))
  {
    assert SnapshotOk(c, sys, id);
    PutBlockIsGood(c, sys.store, ImageBlocks(c, sys.files[id].mem.value)[sys.jobs[id].done]);
    PutOneOwes(c, sys, id);
  }

  lemma UploadOneCovers(c: Config, s: State, q: seq<(Key, Bytes)>, k: nat)
    requires c.s3 && k < |q| && Covered(c, s, q)
    ensures Covered(c, s.(cold := s.cold[q[k].0 := q[k].1]), q[..k] + q[k + 1..])
  {
    var rest := q[..k] + q[k + 1..];
    forall h | h in s.index && h !in s.cold && h != q[k].0 ensures Queued(h, rest) {
      var i :| 0 <= i < |q| && q[i].0 == h;
      assert rest[if i < k then i else i - 1].0 == h;
    }
  }

  lemma UploadOneKeepsInv(c: Config, sys: System, id: Id, k: nat)
    requires Usable(c.mode) && Inv(c, sys) && Enabled(c, sys, UploadOne(id, k))
    ensures Inv(c, Apply(c, sys, UploadOne(id, k)))
  {
    var sys' := Apply(c, sys, UploadOne(id, k));
    assert SnapshotOk(c, sys, id);
    UploadOneCovers(c, sys.store, sys.jobs[id].rest, k);
    StepOwes(c, sys, sys', id);
  }

  /** When the queue has drained, whatever is indexed is durable: the manifest may be published. */
  lemma DrainedMeansDurable(c: Config, sys: System, id: Id)
    requires Usable(c.mode) && Inv(c, sys) && Enabled(c, sys, Unlock(id))
    ensures AllDurable(c, sys.store, sys.jobs[id].hashes)
  {
    assert SnapshotOk(c, sys, id);
    assert Queue(sys) == [];
  }

  lemma RebuildOneReturnsTheBlock(c: Config, sys: System, id: Id)
    requires Sound(c) && c.root && Inv(c, sys) && Enabled(c, sys, RebuildOne(id))
    ensures id in sys.originals && sys.jobs[id].done < |ImageBlocks(c, sys.originals[id])|
    ensures
      var j := sys.jobs[id];
      var (s', r) := Get(c, sys.store, j.hashes[j.done]);
      && r == Ok(ImageBlocks(c, sys.originals[id])[j.done])
      && GoodStore(c, s') && s' == sys.store.(hot := s'.hot) && sys.store.hot.Keys <= s'.hot.Keys
  {
    var blocks := ImageBlocks(c, sys.originals[id]);
    var j := sys.jobs[id];
    assert SnapshotOk(c, sys, id);
    assert j.hashes[j.done] == c.hash(blocks[j.done]);
    GetIsGood(c, sys.store, blocks[j.done]);
  }

  lemma OneMoreBlock(blocks: seq<Bytes>, done: nat)
    requires done < |blocks|
    ensures Concat(blocks[..done + 1]) == Concat(blocks[..done]) + blocks[done]
  {
    assert blocks[..done + 1] == blocks[..done] + [blocks[done]];
    ConcatAppend(blocks[..done], [blocks[done]]);
    assert Concat([blocks[done]]) == blocks[done] + [];
  }

  /** The rebuild of `id` after one more block. */
  function Gained(sys: System, id: Id, s': State, block: Bytes): System
    requires HasJob(sys, id) && sys.jobs[id].Rebuilding? && sys.files[id].tmp.Some?
  {
    SetFiles(SetJob(sys, id, Rebuilding(sys.jobs[id].done + 1, sys.jobs[id].hashes)), id,
             sys.files[id].(tmp := Some(sys.files[id].tmp.value + block))).(store := s')
  }

  lemma RebuildOneIs(c: Config, sys: System, id: Id, s': State, block: Bytes)
    requires Usable(c.mode) && Enabled(c, sys, RebuildOne(id))
    requires Get(c, sys.store, sys.jobs[id].hashes[sys.jobs[id].done]) == (s', Ok(block))
    ensures Apply(c, sys, RebuildOne(id)) == Gained(sys, id, s', block)
  {
  }

  /** A rebuild never fails on a chunk: its next step gains the next block. */
  lemma RebuildOneGains(c: Config, sys: System, id: Id)
    requires Sound(c) && c.root && Inv(c, sys) && Enabled(c, sys, RebuildOne(id))
    ensures id in sys.originals && sys.jobs[id].done < |ImageBlocks(c, sys.originals[id])|
    ensures
      var (s', _) := Get(c, sys.store, sys.jobs[id].hashes[sys.jobs[id].done]);
      && GoodStore(c, s') && s' == sys.store.(hot := s'.hot) && sys.store.hot.Keys <= s'.hot.Keys
      && Apply(c, sys, RebuildOne(id)) == Gained(sys, id, s', ImageBlocks(c, sys.originals[id])[sys.jobs[id].done])
  {
    RebuildOneReturnsTheBlock(c, sys, id);
    var s' := Get(c, sys.store, sys.jobs[id].hashes[sys.jobs[id].done]).0;
    RebuildOneIs(c, sys, id, s', ImageBlocks(c, sys.originals[id])[sys.jobs[id].done]);
  }

  predicate AtRebuild(sys: System, id: Id) {
    HasJob(sys, id) && sys.jobs[id].Rebuilding? && sys.files[id].tmp.Some?
  }

  lemma GainedIsOk(c: Config, sys: System, id: Id, s': State)
    requires Usable(c.mode) && AtRebuild(sys, id) && id in sys.originals && SnapshotOk(c, sys, id)
    requires s' == sys.store.(hot := s'.hot) && sys.store.hot.Keys <= s'.hot.Keys
    requires sys.jobs[id].done < |ImageBlocks(c, sys.originals[id])|
    ensures SnapshotOk(c, Gained(sys, id, s', ImageBlocks(c, sys.originals[id])[sys.jobs[id].done]), id)
  {
    OneMoreBlock(ImageBlocks(c, sys.originals[id]), sys.jobs[id].done);
  }

  lemma GainedOwes(c: Config, sys: System, id: Id, s': State)
    requires Usable(c.mode) && Inv(c, sys) && AtRebuild(sys, id)
    requires GoodStore(c, s') && s' == sys.store.(hot := s'.hot) && sys.store.hot.Keys <= s'.hot.Keys
    requires id in sys.originals && sys.jobs[id].done < |ImageBlocks(c, sys.originals[id])|
    ensures Inv(c, Gained(sys, id, s', ImageBlocks(c, sys.originals[id])[sys.jobs[id].done]))
  {
    var sys' := Gained(sys, id, s', ImageBlocks(c, sys.originals[id])[sys.jobs[id].done]);
    GainedIsOk(c, sys, id, s');
    assert Queue(sys') == Queue(sys);
    StepOwes(c, sys, sys', id);
  }

  lemma RebuildOneKeepsInv(c: Config, sys: System, id: Id)
    requires Sound(c) && c.root && Inv(c, sys) && Enabled(c, sys, RebuildOne(id))
    ensures Inv(c, Apply(c, sys, RebuildOne(id)))
  {
    RebuildOneGains(c, sys, id);
    GainedOwes(c, sys, id, Get(c, sys.store, sys.jobs[id].hashes[sys.jobs[id].done]).0);
  }

  lemma ReplaceMemIsOk(c: Config, sys: System, id: Id)
    requires Usable(c.mode) && Enabled(c, sys, ReplaceMem(id)) && id in sys.originals && SnapshotOk(c, sys, id)
    ensures SnapshotOk(c, Apply(c, sys, ReplaceMem(id)), id)
  {
    var blocks := ImageBlocks(c, sys.originals[id]);
    FileChunksConcatenate(c.mode, sys.originals[id], BUFFER);
    assert blocks[..|blocks|] == blocks;
  }

  lemma ReplaceMemKeepsInv(c: Config, sys: System, id: Id)
    requires Usable(c.mode) && Inv(c, sys) && Enabled(c, sys, ReplaceMem(id))
    ensures Inv(c, Apply(c, sys, ReplaceMem(id)))
  {
    ReplaceMemIsOk(c, sys, id);
    QuietStepOwes(c, sys, Apply(c, sys, ReplaceMem(id)), id);
  }

  /** A thread starts, or ends by an exception. */
  lemma StartRebuildKeepsInv(c: Config, sys: System, id: Id)
    requires Usable(c.mode) && Inv(c, sys) && Enabled(c, sys, StartRebuild(id))
    ensures Inv(c, Apply(c, sys, StartRebuild(id)))
  {
    var sys' := Apply(c, sys, StartRebuild(id));
    assert SnapshotOk(c, sys, id);
    assert ImageBlocks(c, sys.originals[id])[..0] == [];
    assert Queue(sys') == Queue(sys);
    QuietStepOwes(c, sys, sys', id);
  }

  lemma ThreadStepKeepsInv(c: Config, sys: System, step: Step)
    requires Usable(c.mode) && Inv(c, sys) && Enabled(c, sys, step)
    requires step.StartChunking? || step.Die?
    ensures Inv(c, Apply(c, sys, step))
  {
    var sys' := Apply(c, sys, step);
    assert SnapshotOk(c, sys, step.id);
    assert Queue(sys') == Queue(sys);
    QuietStepOwes(c, sys, sys', step.id);
  }

  lemma RawImageKeepsInv(c: Config, sys: System, id: Id, data: Bytes)
    requires Usable(c.mode) && Inv(c, sys) && Enabled(c, sys, RawImage(id, data))
    ensures Inv(c, Apply(c, sys, RawImage(id, data)))
  {
    var sys' := Apply(c, sys, RawImage(id, data));
    assert Queue(sys') == Queue(sys);
    QuietStepOwes(c, sys, sys', id);
  }

  lemma OpenManifestKeepsInv(c: Config, sys: System, id: Id)
    requires Usable(c.mode) && Inv(c, sys) && Enabled(c, sys, OpenManifest(id))
    ensures Inv(c, Apply(c, sys, OpenManifest(id)))
  {
    var sys' := Apply(c, sys, OpenManifest(id));
    assert SnapshotOk(c, sys, id);
    assert Queue(sys') == Queue(sys);
    QuietStepOwes(c, sys, sys', id);
  }

  lemma CloseManifestKeepsInv(c: Config, sys: System, id: Id)
    requires Usable(c.mode) && Inv(c, sys) && Enabled(c, sys, CloseManifest(id))
    ensures Inv(c, Apply(c, sys, CloseManifest(id)))
  {
    var sys' := Apply(c, sys, CloseManifest(id));
    assert SnapshotOk(c, sys, id);
    assert Queue(sys') == Queue(sys);
    QuietStepOwes(c, sys, sys', id);
  }

  lemma RemoveMemKeepsInv(c: Config, sys: System, id: Id)
    requires Usable(c.mode) && Inv(c, sys) && Enabled(c, sys, RemoveMem(id))
    ensures Inv(c, Apply(c, sys, RemoveMem(id)))
  {
    var sys' := Apply(c, sys, RemoveMem(id));
    assert SnapshotOk(c, sys, id);
    assert Queue(sys') == Queue(sys);
    QuietStepOwes(c, sys, sys', id);
  }

  lemma LockStepKeepsInv(c: Config, sys: System, step: Step)
    requires Usable(c.mode) && Inv(c, sys) && Enabled(c, sys, step)
    requires step.StartFlush? || step.Unlock?
    ensures Inv(c, Apply(c, sys, step))
  {
    var sys' := Apply(c, sys, step);
    assert SnapshotOk(c, sys, step.id);
    if step.Unlock? {
      DrainedMeansDurable(c, sys, step.id);
    } else {
      var all := Manifest(c, ImageBlocks(c, sys.originals[step.id]));
      assert all[..|all|] == all;
    }
    assert Queue(sys') == Queue(sys);
    StepOwes(c, sys, sys', step.id);
  }

  lemma EnvironmentKeepsInv(c: Config, sys: System, step: Step)
    requires Usable(c.mode) && Inv(c, sys) && Enabled(c, sys, step)
    requires step.Crash? || step.Wipe?
    ensures Inv(c, Apply(c, sys, step))
  {
    var sys' := Apply(c, sys, step);
    assert Durable(c, sys'.store) == Durable(c, sys.store);
    forall i | i in sys'.files ensures SnapshotOk(c, sys', i) {
      assert SnapshotOk(c, sys, i);
    }
  }

  lemma StepKeepsInv(c: Config, sys: System, step: Step)
    requires Sound(c) && c.root && Inv(c, sys) && Enabled(c, sys, step)
    ensures Inv(c, Apply(c, sys, step))
  {
    match step
    case PutOne(id) => PutOneKeepsInv(c, sys, id);
    case UploadOne(id, k) => UploadOneKeepsInv(c, sys, id, k);
    case RebuildOne(id) => RebuildOneKeepsInv(c, sys, id);
    case ReplaceMem(id) => ReplaceMemKeepsInv(c, sys, id);
    case RawImage(id, data) => RawImageKeepsInv(c, sys, id, data);
    case StartChunking(_) => ThreadStepKeepsInv(c, sys, step);
    case StartRebuild(id) => StartRebuildKeepsInv(c, sys, id);
    case Die(_) => ThreadStepKeepsInv(c, sys, step);
    case OpenManifest(id) => OpenManifestKeepsInv(c, sys, id);
    case CloseManifest(id) => CloseManifestKeepsInv(c, sys, id);
    case RemoveMem(id) => RemoveMemKeepsInv(c, sys, id);
    case StartFlush(_) => LockStepKeepsInv(c, sys, step);
    case Unlock(_) => LockStepKeepsInv(c, sys, step);
    case Crash => EnvironmentKeepsInv(c, sys, step);
    case Wipe => EnvironmentKeepsInv(c, sys, step);
  }

  lemma {:induction false} RunKeepsInv(c: Config, sys: System, run: seq<Step>)
    requires Sound(c) && c.root && Inv(c, sys) && ValidRun(c, sys, run)
    ensures Inv(c, After(c, sys, run))
    decreases |run|
  {
    if run != [] {
      StepKeepsInv(c, sys, run[0]);
      RunKeepsInv(c, Apply(c, sys, run[0]), run[1..]);
    }
  }

  // ---------------------------------------------------------------- the theorems

  /**
   Crash-point safety: after any run, cut short anywhere, every completed image is there in full
   as `mem` or reads back in full from its manifest; and a `mem` that is there is never partial.
   */
  lemma EverySnapshotSurvives(c: Config, run: seq<Step>, id: Id)
    requires Sound(c) && c.root && ValidRun(c, EMPTY, run) && id in After(c, EMPTY, run).originals
    ensures
      var sys := After(c, EMPTY, run);
      && id in sys.files
      && (sys.files[id].mem == Some(sys.originals[id]) ||
          (&& sys.files[id].mem.None?
           && sys.files[id].manifest.Some? && sys.files[id].manifest.value.Whole?
           && ReadAll(c, sys.store, sys.files[id].manifest.value.hashes).1 == Ok(sys.originals[id])))
  {
    RunKeepsInv(c, EMPTY, run);
    var sys := After(c, EMPTY, run);
    if sys.files[id].mem.None? {
      PublishedReadsBack(c, sys, id);
    }
  }

  lemma PublishedReadsBack(c: Config, sys: System, id: Id)
    requires Sound(c) && c.root && Inv(c, sys) && id in sys.files
    requires sys.files[id].manifest.Some? && sys.files[id].manifest.value.Whole?
    ensures ReadAll(c, sys.store, sys.files[id].manifest.value.hashes).1 == Ok(sys.originals[id])
  {
    assert SnapshotOk(c, sys, id);
    ImagesReadBack(c, sys.store, sys.originals[id]);
  }

  /**
   Durability: a published manifest reads back to exactly the original bytes in every state any
   run reaches, and still does once the hot cache is wiped and the daemon restarted.
   */
  lemma PublishedManifestsAreDurable(c: Config, run: seq<Step>, id: Id)
    requires Sound(c) && c.root && ValidRun(c, EMPTY, run) && id in After(c, EMPTY, run).files
    requires
      var f := After(c, EMPTY, run).files[id];
      f.manifest.Some? && f.manifest.value.Whole?
    ensures
      var sys := After(c, EMPTY, run);
      var hashes := sys.files[id].manifest.value.hashes;
      && id in sys.originals
      && ReadAll(c, sys.store, hashes).1 == Ok(sys.originals[id])
      && (c.s3 ==> ReadAll(c, Restarted(map[], sys.store.cold), hashes).1 == Ok(sys.originals[id]))
  {
    RunKeepsInv(c, EMPTY, run);
    var sys := After(c, EMPTY, run);
    PublishedReadsBack(c, sys, id);
    if c.s3 {
      StepKeepsInv(c, sys, Wipe);
      StepKeepsInv(c, Apply(c, sys, Wipe), Crash);
      PublishedReadsBack(c, Apply(c, Apply(c, sys, Wipe), Crash), id);
    }
  }

  /** A retried rebuild never fails on a chunk: the next step always gains the next block. */
  lemma RebuildNeverMisses(c: Config, run: seq<Step>, id: Id)
    requires Sound(c) && c.root && ValidRun(c, EMPTY, run)
    requires Enabled(c, After(c, EMPTY, run), RebuildOne(id))
    ensures
      var sys := After(c, EMPTY, run);
      && id in sys.originals && sys.jobs[id].done < |ImageBlocks(c, sys.originals[id])|
      && exists s' :: Apply(c, sys, RebuildOne(id))
            == Gained(sys, id, s', ImageBlocks(c, sys.originals[id])[sys.jobs[id].done])
  {
    RunKeepsInv(c, EMPTY, run);
    RebuildOneGains(c, After(c, EMPTY, run), id);
  }
}
