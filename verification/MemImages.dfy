/**
 `_chunk_mem` and `_reconstruct_mem` as the daemon calls them (spikes/engine/kladosd.py:153-180),
 and the proof that an undisturbed call of either is a run of the steps of SnapshotFiles.
 */
module MemImages {
  import opened Wrappers
  import opened Chunking
  import opened Store
  import opened ColdTier
  import opened SnapshotFiles

  class Images {
    const cas: CAS
    var files: map<Id, Files>
    ghost var trail: seq<map<Id, Files>>  // every state of the files a crash could have left

    constructor (cas: CAS)
      ensures this.cas == cas && files == map[] && trail == []
    {
      this.cas := cas;
      files, trail := map[], [];
    }

    /** One change to a snapshot's directory. */
    method Write(id: Id, f: Files)
      modifies this
      ensures files == old(files)[id := f] && trail == old(trail) + [files]
    {
      files := files[id := f];
      trail := trail + [files];
    }

    /** `o` is the luck of the flush; its first error ends the call. */
    method ChunkMem(id: Id, o: Outage) returns (r: Result<nat, Failure>)
      requires Usable(cas.c.mode) && cas as object != this
      modifies this, cas
      ensures !(id in old(files) && old(files)[id].mem.Some?) ==>
                r == Err(NotFound) && files == old(files) && cas.Now() == old(cas.Now())
      ensures id in old(files) && old(files)[id].mem.Some? ==>
                var mem := old(files)[id].mem.value;
                var put := PutBlocks(cas.c, old(cas.Now()), ImageBlocks(cas.c, mem));
                && cas.Now() == Flush(cas.c, put, o).0
                && (match Flush(cas.c, put, o).1
                    case Err(e) => r == Err(e) && files == old(files)
                    case Ok(_) =>
                      && r == Ok(|mem|)
                      && files == old(files)[id := old(files)[id].(
                           mem := None, manifest := Some(Whole(Manifest(cas.c, ImageBlocks(cas.c, mem)))))])
      // the manifest is torn while it is written and whole before the image goes
      ensures trail == old(trail) + if r.Err? then [] else
                var f, hashes := old(files)[id], Manifest(cas.c, ImageBlocks(cas.c, old(files)[id].mem.value));
                [old(files)[id := f.(manifest := Some(Torn))],
                 old(files)[id := f.(manifest := Some(Whole(hashes)))],
                 old(files)[id := f.(manifest := Some(Whole(hashes)), mem := None)]]
      // at every moment the raw image is still there or the whole manifest already is
      ensures forall k :: |old(trail)| <= k < |trail| ==>
                && id in old(files) && old(files)[id].mem.Some? && id in trail[k]
                && (trail[k][id].mem == old(files)[id].mem ||
                    trail[k][id].manifest == Some(Whole(Manifest(cas.c, ImageBlocks(cas.c, old(files)[id].mem.value)))))
    {
      if !(id in files && files[id].mem.Some?) {
        return Err(NotFound);
      }
      var mem := files[id].mem.value;
      var hashes := cas.PutFile(mem, BUFFER);
      var flushed := cas.FlushS3(o);
      if flushed.Err? {
        return Err(flushed.error);
      }
      ghost var f, before := files[id], trail;
      Write(id, files[id].(manifest := Some(Torn)));  // open for writing, then dump
      Write(id, files[id].(manifest := Some(Whole(hashes))));
      assert files == old(files)[id := f.(manifest := Some(Whole(hashes)))];
      var logical := |mem|;
      Write(id, files[id].(mem := None));
      assert files == old(files)[id := f.(manifest := Some(Whole(hashes)), mem := None)];
      assert trail == before + trail[|before|..];
      r := Ok(logical);
    }

    method ReconstructMem(id: Id) returns (r: Result<(), Failure>)
      requires cas as object != this && id in files
      modifies this, cas`hot
      ensures old(files)[id].mem.Some? || old(files)[id].manifest.None? ==>
                r == Ok(()) && files == old(files) && cas.Now() == old(cas.Now())
      ensures old(files)[id].mem.None? && old(files)[id].manifest == Some(Torn) ==>
                r == Err(Corrupt) && files == old(files) && cas.Now() == old(cas.Now())
      ensures old(files)[id].mem.None? && old(files)[id].manifest.Some? && old(files)[id].manifest.value.Whole? ==>
                var hashes := old(files)[id].manifest.value.hashes;
                && cas.Now() == ReadAll(cas.c, old(cas.Now()), hashes).0
                && (match ReadAll(cas.c, old(cas.Now()), hashes).1
                    case Err(e) =>
                      && r == Err(e)
                      && exists part :: files == old(files)[id := old(files)[id].(tmp := Some(part))]
                    case Ok(bytes) =>
                      r == Ok(()) && files == old(files)[id := old(files)[id].(mem := Some(bytes), tmp := None)])
      // every chunk of a rebuilt image is in the cache, which alone would give it again
      ensures old(files)[id].mem.None? && old(files)[id].manifest.Some? && r.Ok? && cas.c.root ==>
                var hashes := old(files)[id].manifest.value.hashes;
                && (forall h :: h in hashes ==> h in cas.hot)
                && FromFiles(cas.c, cas.hot, hashes) == Ok(files[id].mem.value)
      // the image is never visible half rebuilt, and the manifest is never touched
      ensures old(trail) <= trail
      ensures forall k :: |old(trail)| <= k < |trail| ==>
                && id in trail[k] && trail[k][id].manifest == old(files)[id].manifest
                && (trail[k][id].mem.None? || (r == Ok(()) && trail[k] == files))
    {
      if files[id].mem.Some? || files[id].manifest.None? {
        return Ok(());
      }
      if files[id].manifest.value.Torn? {
        return Err(Corrupt);  // json.load fails
      }
      ghost var hashes := files[id].manifest.value.hashes;
      if cas.c.root {
        ReadingWarms(cas.c, cas.Now(), hashes);
      }
      var read := WriteTmp(id, files[id].manifest.value.hashes);
      if read.Err? {
        return Err(read.error);
      }
      Write(id, files[id].(mem := Some(read.value), tmp := None));  // os.replace
      r := Ok(());
    }

    /** The loop: chunk after chunk into the temporary file. */
    method WriteTmp(id: Id, hashes: seq<Key>) returns (r: Result<Bytes, Failure>)
      requires cas as object != this && id in files && files[id].mem.None?
      modifies this, cas`hot
      ensures (cas.Now(), r) == ReadAll(cas.c, old(cas.Now()), hashes)
      ensures exists part :: files == old(files)[id := old(files)[id].(tmp := Some(part))]
      ensures OnlyTmpWritten(id, old(files)[id].manifest, |old(trail)|) && old(trail) <= trail
    {
      var out: Bytes := [];
      ghost var goal := ReadAll(cas.c, cas.Now(), hashes);
      assert hashes[0..] == hashes;
      assert goal.1.Ok? ==> out + goal.1.value == goal.1.value;
      Write(id, files[id].(tmp := Some(out)));  // open(tmp, "wb")
      for k := 0 to |hashes|
        invariant Behind(out, ReadAll(cas.c, cas.Now(), hashes[k..])) == goal
        invariant files == old(files)[id := old(files)[id].(tmp := Some(out))]
        invariant OnlyTmpWritten(id, old(files)[id].manifest, |old(trail)|) && old(trail) <= trail
      {
        var got := FetchNext(hashes, k, out, goal);
        if got.Err? {
          return Err(got.error);
        }
        out := out + got.value;
        Write(id, files[id].(tmp := Some(out)));
      }
      assert hashes[|hashes|..] == [] && out + [] == out;
      r := Ok(out);
    }

    /** Since moment `from` neither image nor manifest of `id` was written. */
    ghost predicate OnlyTmpWritten(id: Id, manifest: Option<ManifestFile>, from: nat)
      reads this
    {
      forall j :: from <= j < |trail| ==> id in trail[j] && trail[j][id].manifest == manifest && trail[j][id].mem.None?
    }

    /** The next chunk, which is the next part of the whole read. */
    method FetchNext(hashes: seq<Key>, k: nat, ghost out: Bytes, ghost goal: (State, Result<Bytes, Failure>))
      returns (got: Result<Bytes, Failure>)
      requires k < |hashes| && Behind(out, ReadAll(cas.c, cas.Now(), hashes[k..])) == goal
      modifies cas`hot
      ensures match got
              case Err(e) => goal == (cas.Now(), Err(e))
              case Ok(b) => Behind(out + b, ReadAll(cas.c, cas.Now(), hashes[k + 1..])) == goal
    {
      assert hashes[k..][0] == hashes[k] && hashes[k..][1..] == hashes[k + 1..];
      got := cas.Fetch(hashes[k]);
      if got.Ok? {
        ghost var rest := ReadAll(cas.c, cas.Now(), hashes[k + 1..]);
        assert rest.1.Ok? ==> out + (got.value + rest.1.value) == (out + got.value) + rest.1.value;
      }
    }
  }

  // ---------------------------------------------------------------- an undisturbed call

  ghost predicate Leads(c: Config, sys: System, sys': System)
    requires Usable(c.mode)
  {
    exists run :: ValidRun(c, sys, run) && After(c, sys, run) == sys'
  }

  lemma LeadsNowhere(c: Config, sys: System)
    requires Usable(c.mode)
    ensures Leads(c, sys, sys)
  {
    assert ValidRun(c, sys, []) && After(c, sys, []) == sys;
  }

  lemma StepThen(c: Config, sys: System, step: Step, sys': System)
    requires Usable(c.mode) && Enabled(c, sys, step) && Leads(c, Apply(c, sys, step), sys')
    ensures Leads(c, sys, sys')
  {
    var run :| ValidRun(c, Apply(c, sys, step), run) && After(c, Apply(c, sys, step), run) == sys';
    assert ([step] + run)[1..] == run;
    assert ValidRun(c, sys, [step] + run);
  }

  /** The system with snapshot `id` at this point of `_chunk_mem`. */
  function At(sys: System, id: Id, store: State, job: Job): System {
    System(store, sys.files, sys.jobs[id := job], Some(id), sys.originals)
  }

  /** Where `_chunk_mem` leaves the system. */
  function Chunked(c: Config, sys: System, id: Id): System
    requires Usable(c.mode) && id in sys.files && sys.files[id].mem.Some?
  {
    var blocks := ImageBlocks(c, sys.files[id].mem.value);
    System(
      Flush(c, PutBlocks(c, sys.store, blocks), FAULTLESS).0,
      sys.files[id := sys.files[id].(mem := None, manifest := Some(Whole(Manifest(c, blocks))))],
      sys.jobs - {id}, None, sys.originals)
  }

  lemma ManifestSteps(c: Config, sys: System, id: Id)
    requires Usable(c.mode) && Enabled(c, sys, CloseManifest(id))
    requires Enabled(c, Apply(c, sys, CloseManifest(id)), RemoveMem(id))
    ensures Leads(c, sys, Apply(c, Apply(c, sys, CloseManifest(id)), RemoveMem(id)))
  {
    var closed := Apply(c, sys, CloseManifest(id));
    LeadsNowhere(c, Apply(c, closed, RemoveMem(id)));
    StepThen(c, closed, RemoveMem(id), Apply(c, closed, RemoveMem(id)));
    StepThen(c, sys, CloseManifest(id), Apply(c, closed, RemoveMem(id)));
  }

  /** Between the flush and the manifest: the lock is free. */
  function Opened(sys: System, id: Id, store: State, hashes: seq<Key>): System
    requires id in sys.files
  {
    System(store, sys.files[id := sys.files[id].(manifest := Some(Torn))], sys.jobs[id := Writing(hashes)], None,
           sys.originals)
  }

  lemma OpenSteps(c: Config, sys: System, id: Id, store: State, hashes: seq<Key>, end: System)
    requires Usable(c.mode) && id in sys.files && Leads(c, Opened(sys, id, store, hashes), end)
    ensures Leads(c, At(sys, id, store, Flushing([], hashes)), end)
  {
    var s0 := At(sys, id, store, Flushing([], hashes));
    var s1 := Apply(c, s0, Unlock(id));
    assert sys.jobs[id := Flushing([], hashes)][id := Unlocked(hashes)][id := Writing(hashes)]
      == sys.jobs[id := Writing(hashes)];
    assert Apply(c, s1, OpenManifest(id)) == Opened(sys, id, store, hashes);
    StepThen(c, s1, OpenManifest(id), end);
    StepThen(c, s0, Unlock(id), end);
  }

  lemma PublishSteps(c: Config, sys: System, id: Id, store: State)
    requires Usable(c.mode) && id in sys.files && sys.files[id].mem.Some? && id !in sys.jobs
    requires store == Flush(c, PutBlocks(c, sys.store, ImageBlocks(c, sys.files[id].mem.value)), FAULTLESS).0
    ensures Leads(c, At(sys, id, store, Flushing([], Manifest(c, ImageBlocks(c, sys.files[id].mem.value)))),
                  Chunked(c, sys, id))
  {
    var hashes := Manifest(c, ImageBlocks(c, sys.files[id].mem.value));
    var s2 := Opened(sys, id, store, hashes);
    var s4 := Apply(c, Apply(c, s2, CloseManifest(id)), RemoveMem(id));
    assert s4 == Chunked(c, sys, id) by {
      assert s4.jobs == sys.jobs - {id};
      assert s4.files == Chunked(c, sys, id).files;
    }
    ManifestSteps(c, s2, id);
    OpenSteps(c, sys, id, store, hashes, s4);
  }

  lemma {:induction false} UploadSteps(c: Config, sys: System, id: Id, store: State, rest: seq<(Key, Bytes)>)
    requires Usable(c.mode) && id in sys.files && sys.files[id].mem.Some? && id !in sys.jobs
    requires store.(cold := Upload(store.cold, rest, FAULTLESS, false))
          == Flush(c, PutBlocks(c, sys.store, ImageBlocks(c, sys.files[id].mem.value)), FAULTLESS).0
    ensures Leads(c, At(sys, id, store, Flushing(rest, Manifest(c, ImageBlocks(c, sys.files[id].mem.value)))),
                  Chunked(c, sys, id))
    decreases |rest|
  {
    var hashes := Manifest(c, ImageBlocks(c, sys.files[id].mem.value));
    if rest == [] {
      PublishSteps(c, sys, id, store);
    } else {
      var s0 := At(sys, id, store, Flushing(rest, hashes));
      var store' := store.(cold := store.cold[rest[0].0 := rest[0].1]);
      assert rest[..0] + rest[1..] == rest[1..];
      assert Apply(c, s0, UploadOne(id, 0)) == At(sys, id, store', Flushing(rest[1..], hashes)) by {
        assert sys.jobs[id := Flushing(rest, hashes)][id := Flushing(rest[1..], hashes)]
            == sys.jobs[id := Flushing(rest[1..], hashes)];
      }
      UploadSteps(c, sys, id, store', rest[1..]);
      StepThen(c, s0, UploadOne(id, 0), Chunked(c, sys, id));
    }
  }

  lemma FlushSteps(c: Config, sys: System, id: Id, store: State)
    requires Usable(c.mode) && id in sys.files && sys.files[id].mem.Some? && id !in sys.jobs
    requires store == PutBlocks(c, sys.store, ImageBlocks(c, sys.files[id].mem.value))
    requires c.s3 || store.pending == []
    ensures
      var blocks := ImageBlocks(c, sys.files[id].mem.value);
      Leads(c, At(sys, id, store, Putting(|blocks|, Manifest(c, blocks))), Chunked(c, sys, id))
  {
    var blocks := ImageBlocks(c, sys.files[id].mem.value);
    var all := Manifest(c, blocks);
    var s0 := At(sys, id, store, Putting(|blocks|, all));
    var s1 := At(sys, id, store.(pending := []), Flushing(store.pending, all));
    assert Apply(c, s0, StartFlush(id)) == s1 by {
      assert s0.jobs[id := Flushing(store.pending, all)] == sys.jobs[id := Flushing(store.pending, all)];
    }
    UploadSteps(c, sys, id, store.(pending := []), store.pending);
    StepThen(c, s0, StartFlush(id), Chunked(c, sys, id));
  }

  lemma PutStep(c: Config, sys: System, id: Id, store: State, done: nat)
    requires Usable(c.mode) && id in sys.files && sys.files[id].mem.Some? && id !in sys.jobs
    requires done < |ImageBlocks(c, sys.files[id].mem.value)|
    ensures
      var blocks := ImageBlocks(c, sys.files[id].mem.value);
      var all := Manifest(c, blocks);
      var s0 := At(sys, id, store, Putting(done, all[..done]));
      && Enabled(c, s0, PutOne(id))
      && Apply(c, s0, PutOne(id)) == At(sys, id, PutBlock(c, store, blocks[done]), Putting(done + 1, all[..done + 1]))
  {
    var all := Manifest(c, ImageBlocks(c, sys.files[id].mem.value));
    assert all[..done + 1] == all[..done] + [all[done]];
    assert sys.jobs[id := Putting(done, all[..done])][id := Putting(done + 1, all[..done + 1])]
        == sys.jobs[id := Putting(done + 1, all[..done + 1])];
  }

  lemma {:induction false} PutSteps(c: Config, sys: System, id: Id, store: State, done: nat)
    requires Usable(c.mode) && id in sys.files && sys.files[id].mem.Some? && id !in sys.jobs
    requires done <= |ImageBlocks(c, sys.files[id].mem.value)|
    requires PutBlocks(c, store, ImageBlocks(c, sys.files[id].mem.value)[done..])
          == PutBlocks(c, sys.store, ImageBlocks(c, sys.files[id].mem.value))
    requires c.s3 || store.pending == []
    ensures Leads(c, At(sys, id, store, Putting(done, Manifest(c, ImageBlocks(c, sys.files[id].mem.value))[..done])),
                  Chunked(c, sys, id))
    decreases |ImageBlocks(c, sys.files[id].mem.value)| - done
  {
    var blocks := ImageBlocks(c, sys.files[id].mem.value);
    var all := Manifest(c, blocks);
    if done == |blocks| {
      assert blocks[done..] == [] && all[..done] == all;
      FlushSteps(c, sys, id, store);
    } else {
      assert blocks[done..][1..] == blocks[done + 1..];
      PutStep(c, sys, id, store, done);
      PutSteps(c, sys, id, PutBlock(c, store, blocks[done]), done + 1);
      StepThen(c, At(sys, id, store, Putting(done, all[..done])), PutOne(id), Chunked(c, sys, id));
    }
  }

  /** A call of `_chunk_mem` that nothing interrupts is one run of the machine's steps. */
  lemma UndisturbedChunkMemIsARun(c: Config, sys: System, id: Id)
    requires Usable(c.mode) && Enabled(c, sys, StartChunking(id)) && (c.s3 || sys.store.pending == [])
    ensures Leads(c, sys, Chunked(c, sys, id))
  {
    var blocks := ImageBlocks(c, sys.files[id].mem.value);
    assert blocks[0..] == blocks && Manifest(c, blocks)[..0] == [];
    PutSteps(c, sys, id, sys.store, 0);
    StepThen(c, sys, StartChunking(id), Chunked(c, sys, id));
  }

  // ---------------------------------------------------------------- an undisturbed rebuild

  /** The rebuild of `id` with `out` written of its temporary file. */
  function Rewriting(sys: System, id: Id, store: State, job: Job, out: Bytes): System
    requires id in sys.files
  {
    System(store, sys.files[id := sys.files[id].(tmp := Some(out))], sys.jobs[id := job], sys.lock, sys.originals)
  }

  /** Where it ends: with the image, or, when a chunk cannot be had, with what was written so far. */
  function Rebuilt(sys: System, id: Id, store: State, bytes: Bytes): System
    requires id in sys.files
  {
    System(store, sys.files[id := sys.files[id].(mem := Some(bytes), tmp := None)], sys.jobs, sys.lock, sys.originals)
  }

  function GivenUp(sys: System, id: Id, store: State, out: Bytes): System
    requires id in sys.files
  {
    System(store, sys.files[id := sys.files[id].(tmp := Some(out))], sys.jobs, sys.lock, sys.originals)
  }

  ghost predicate Ends(c: Config, from: System, sys: System, id: Id, out: Bytes, read: (State, Result<Bytes, Failure>))
    requires Usable(c.mode) && id in sys.files
  {
    match read.1
    case Ok(bytes) => Leads(c, from, Rebuilt(sys, id, read.0, out + bytes))
    case Err(_) => exists part :: Leads(c, from, GivenUp(sys, id, read.0, part))
  }

  lemma ReplaceStep(c: Config, sys: System, id: Id, store: State, hashes: seq<Key>, out: Bytes)
    requires Usable(c.mode) && id in sys.files && id !in sys.jobs && sys.lock != Some(id)
    ensures Leads(c, Rewriting(sys, id, store, Rebuilding(|hashes|, hashes), out), Rebuilt(sys, id, store, out))
  {
    var s0 := Rewriting(sys, id, store, Rebuilding(|hashes|, hashes), out);
    assert sys.jobs[id := Rebuilding(|hashes|, hashes)] - {id} == sys.jobs;
    assert Apply(c, s0, ReplaceMem(id)) == Rebuilt(sys, id, store, out);
    LeadsNowhere(c, Rebuilt(sys, id, store, out));
    StepThen(c, s0, ReplaceMem(id), Rebuilt(sys, id, store, out));
  }

  lemma RewriteStep(c: Config, sys: System, id: Id, store: State, hashes: seq<Key>, out: Bytes, k: nat)
    requires Usable(c.mode) && id in sys.files && id !in sys.jobs && sys.lock != Some(id) && k < |hashes|
    ensures
      var s0, (store', r) := Rewriting(sys, id, store, Rebuilding(k, hashes), out), Get(c, store, hashes[k]);
      && Enabled(c, s0, RebuildOne(id))
      && Apply(c, s0, RebuildOne(id)) ==
           match r
           case Ok(b) => Rewriting(sys, id, store', Rebuilding(k + 1, hashes), out + b)
           case Err(_) => GivenUp(sys, id, store', out)
  {
    assert sys.jobs[id := Rebuilding(k, hashes)] - {id} == sys.jobs;
    assert sys.jobs[id := Rebuilding(k, hashes)][id := Rebuilding(k + 1, hashes)]
      == sys.jobs[id := Rebuilding(k + 1, hashes)];
  }

  lemma {:induction false} RewriteSteps(c: Config, sys: System, id: Id, store: State, hashes: seq<Key>, out: Bytes,
                                        k: nat)
    requires Usable(c.mode) && id in sys.files && id !in sys.jobs && sys.lock != Some(id) && k <= |hashes|
    ensures Ends(c, Rewriting(sys, id, store, Rebuilding(k, hashes), out), sys, id, out, ReadAll(c, store, hashes[k..]))
    decreases |hashes| - k
  {
    var s0 := Rewriting(sys, id, store, Rebuilding(k, hashes), out);
    if k == |hashes| {
      assert out + [] == out;
      ReplaceStep(c, sys, id, store, hashes, out);
    } else {
      var (store', r) := Get(c, store, hashes[k]);
      assert hashes[k..][0] == hashes[k] && hashes[k..][1..] == hashes[k + 1..];
      RewriteStep(c, sys, id, store, hashes, out, k);
      if r.Err? {
        LeadsNowhere(c, GivenUp(sys, id, store', out));
        StepThen(c, s0, RebuildOne(id), GivenUp(sys, id, store', out));
      } else {
        RewriteSteps(c, sys, id, store', hashes, out + r.value, k + 1);
        PrependRewrite(c, s0, sys, id, out, r.value, ReadAll(c, store', hashes[k + 1..]));
      }
    }
  }

  lemma PrependRewrite(c: Config, s0: System, sys: System, id: Id, out: Bytes, block: Bytes,
                       read: (State, Result<Bytes, Failure>))
    requires Usable(c.mode) && id in sys.files && Enabled(c, s0, RebuildOne(id))
    requires Ends(c, Apply(c, s0, RebuildOne(id)), sys, id, out + block, read)
    ensures Ends(c, s0, sys, id, out, (read.0, match read.1 case Err(e) => Err(e) case Ok(bs) => Ok(block + bs)))
  {
    match read.1
    case Ok(bs) =>
      assert out + block + bs == out + (block + bs);
      StepThen(c, s0, RebuildOne(id), Rebuilt(sys, id, read.0, out + block + bs));
    case Err(_) =>
      var part :| Leads(c, Apply(c, s0, RebuildOne(id)), GivenUp(sys, id, read.0, part));
      StepThen(c, s0, RebuildOne(id), GivenUp(sys, id, read.0, part));
  }

  /** So is a call of `_reconstruct_mem`, to the image or to the first chunk that cannot be had. */
  lemma UndisturbedReconstructMemIsARun(c: Config, sys: System, id: Id)
    requires Usable(c.mode) && Enabled(c, sys, StartRebuild(id)) && sys.lock != Some(id)
    ensures Ends(c, sys, sys, id, [], ReadAll(c, sys.store, sys.files[id].manifest.value.hashes))
  {
    var hashes := sys.files[id].manifest.value.hashes;
    assert hashes[0..] == hashes;
    RewriteSteps(c, sys, id, sys.store, hashes, [], 0);
    var begun := Apply(c, sys, StartRebuild(id));
    assert begun == Rewriting(sys, id, sys.store, Rebuilding(0, hashes), []);
    match ReadAll(c, sys.store, hashes).1
    case Ok(bytes) =>
      StepThen(c, sys, StartRebuild(id), Rebuilt(sys, id, ReadAll(c, sys.store, hashes).0, [] + bytes));
    case Err(_) =>
      var part :| Leads(c, begun, GivenUp(sys, id, ReadAll(c, sys.store, hashes).0, part));
      StepThen(c, sys, StartRebuild(id), GivenUp(sys, id, ReadAll(c, sys.store, hashes).0, part));
  }
}
