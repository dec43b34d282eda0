/** Every step of the engine keeps its invariant. */
module EngineLaws {
  import opened Wrappers
  import opened Chunking
  import opened Store
  import opened ColdTier
  import opened Engine

  // ---------------------------------------------------------------- threads beside the rows

  /** Runs and snapshots stay as they are committed; instances keep their run. */
  ghost predicate RowsGrow(e: Engine, e': Engine) {
    && (forall r :: r in e.runs ==> r in e'.runs && e'.runs[r] == e.runs[r])
    && (forall s :: s in e.snapshots ==> s in e'.snapshots && e'.snapshots[s] == e.snapshots[s])
    && (forall i :: i in e.instances ==> i in e'.instances && e'.instances[i].run == e.instances[i].run)
    && e.used <= e'.used
  }

  /** The ids a thread has reserved for rows it will insert are still free. */
  ghost predicate StillFree(e': Engine, t: Thread) {
    && (t.Snapshotting? ==> t.sid !in e'.snapshots)
    && (t.Forking? ==> t.children.Keys <= e'.live && t.children.Keys !! e'.instances.Keys)
  }

  lemma ThreadKept(e: Engine, e': Engine, t: Thread)
    requires ThreadOk(e, t) && RowsGrow(e, e') && StillFree(e', t)
    ensures ThreadOk(e', t)
  {
  }

  /** Thread `tid` may change or end; the others keep what is claimed of them. */
  lemma ThreadsKept(e: Engine, e': Engine, tid: Id)
    requires ThreadsOk(e) && RowsGrow(e, e')
    requires forall t :: t in e'.threads && t != tid ==> t in e.threads && e'.threads[t] == e.threads[t]
    requires forall t :: t in e'.threads && t != tid ==> StillFree(e', e'.threads[t])
    requires tid in e'.threads ==> ThreadOk(e', e'.threads[tid])
    requires tid in e'.threads ==> forall t :: t in e'.threads && t != tid ==>
               ThreadsApart(e'.threads[t], e'.threads[tid]) && ThreadsApart(e'.threads[tid], e'.threads[t])
    ensures ThreadsOk(e')
  {
    forall t | t in e'.threads ensures ThreadOk(e', e'.threads[t]) {
      if t != tid {
        ThreadKept(e, e', e.threads[t]);
      }
    }
  }

  /** Before anything is written, reserved ids are free. */
  lemma FreeBefore(e: Engine, t: Id)
    requires ThreadsOk(e) && t in e.threads
    ensures StillFree(e, e.threads[t])
  {
    assert ThreadOk(e, e.threads[t]);
  }

  // ---------------------------------------------------------------- steps that write no row

  /** The images behind committed snapshots are untouched and no thread stored a new one. */
  lemma ImagesFrame(w: World, e: Engine, e': Engine)
    requires Usable(w.c.mode) && ImagesOk(w, e)
    requires e'.store == e.store && e'.manifests == e.manifests && e'.images == e.images
    requires e'.snapshots == e.snapshots
    requires forall t :: t in e'.threads && e'.threads[t].Snapshotting? && e'.threads[t].raw.Some?
               ==> t in e.threads && e'.threads[t] == e.threads[t]
    ensures ImagesOk(w, e')
  {
    forall s | s in e'.images ensures ManifestOk(w, e', s, e'.images[s]) {
      assert ManifestOk(w, e, s, e.images[s]);
    }
    forall t | t in e'.threads && e'.threads[t].Snapshotting? && e'.threads[t].raw.Some?
      ensures ManifestOk(w, e', e'.threads[t].sid, e'.threads[t].raw.value)
    {
      assert ManifestOk(w, e, e.threads[t].sid, e.threads[t].raw.value);
    }
  }

  /** Nothing but threads, live VMs, usage, projects and issued ids may differ. */
  ghost predicate SameRows(e: Engine, e': Engine) {
    && e'.runs == e.runs && e'.snapshots == e.snapshots && e'.instances == e.instances
    && e'.order == e.order && e'.images == e.images && e.used <= e'.used
  }

  lemma SameRowsKeep(e: Engine, e': Engine)
    requires RowsOk(e) && OrderOk(e) && SameRows(e, e')
    requires e'.threads.Keys <= e'.used && e'.live <= e'.used
    requires forall k :: 0 <= k < |e'.projects| ==> e'.projects[k].0 in e'.used
    ensures RowsOk(e') && OrderOk(e') && RowsGrow(e, e')
  {
    forall s | s in e'.snapshots ensures LineageOk(e', e'.snapshots[s].parent, e'.snapshots[s].run) {
      assert LineageOk(e, e.snapshots[s].parent, e.snapshots[s].run);
    }
    forall i | i in e'.instances ensures LineageOk(e', e'.instances[i].snapshot, e'.instances[i].run) {
      assert LineageOk(e, e.instances[i].snapshot, e.instances[i].run);
    }
  }

  lemma CreateProjectKeepsInv(w: World, e: Engine, key: ApiKey, pid: Id, newKey: ApiKey)
    requires Usable(w.c.mode) && Inv(w, e)
    ensures Inv(w, DoCreateProject(w, e, key, pid, newKey))
  {
    var e' := DoCreateProject(w, e, key, pid, newKey);
    if Auth(w, e, key).Some? {
      forall k | 0 <= k < |e'.projects| ensures e'.projects[k].0 in e'.used {
        assert k < |e.projects| ==> e'.projects[k] == e.projects[k];
      }
      SameRowsKeep(e, e');
      forall t | t in e.threads ensures ThreadOk(e', e.threads[t]) {
        FreeBefore(e, t);
        ThreadKept(e, e', e.threads[t]);
      }
      ImagesFrame(w, e, e');
    }
  }

  lemma BootVmKeepsInv(w: World, e: Engine, tid: Id)
    requires Usable(w.c.mode) && Inv(w, e) && tid in e.threads && e.threads[tid].Booting?
    ensures Inv(w, DoBootVm(e, tid))
  {
    var e' := DoBootVm(e, tid);
    assert ThreadOk(e, e.threads[tid]);
    SameRowsKeep(e, e');
    forall t | t in e'.threads ensures StillFree(e', e'.threads[t]) {
      FreeBefore(e, t);
    }
    ThreadsKept(e, e', tid);
    ImagesFrame(w, e, e');
  }

  lemma AbortKeepsInv(w: World, e: Engine, tid: Id)
    requires Usable(w.c.mode) && Inv(w, e)
    ensures Inv(w, DoAbort(e, tid))
  {
    var e' := DoAbort(e, tid);
    SameRowsKeep(e, e');
    forall t | t in e'.threads ensures StillFree(e', e'.threads[t]) {
      FreeBefore(e, t);
    }
    ThreadsKept(e, e', tid);
    ImagesFrame(w, e, e');
  }

  lemma TickKeepsInv(w: World, e: Engine, dt: real)
    requires Usable(w.c.mode) && Inv(w, e)
    ensures Inv(w, DoTick(w, e, dt))
  {
    var e' := DoTick(w, e, dt);
    SameRowsKeep(e, e');
    forall t | t in e'.threads ensures ThreadOk(e', e'.threads[t]) {
      FreeBefore(e, t);
      ThreadKept(e, e', e.threads[t]);
    }
    ImagesFrame(w, e, e');
  }

  lemma BeginSnapshotKeepsInv(w: World, e: Engine, key: ApiKey, iid: Id, tid: Id, sid: Id, tag: string)
    requires Usable(w.c.mode) && Inv(w, e) && tid !in e.used && sid !in e.used && tid != sid
    ensures Inv(w, DoBeginSnapshot(w, e, key, iid, tid, sid, tag))
  {
    var e' := DoBeginSnapshot(w, e, key, iid, tid, sid, tag);
    if e' != e {
      SameRowsKeep(e, e');
      assert LineageOk(e, e.instances[iid].snapshot, e.instances[iid].run);
      forall t | t in e.threads ensures StillFree(e', e.threads[t]) && ThreadsApart(e.threads[t], e'.threads[tid]) {
        FreeBefore(e, t);
        assert ThreadOk(e, e.threads[t]);
      }
      ThreadsKept(e, e', tid);
      ImagesFrame(w, e, e');
    }
  }

  lemma ForkChildKeepsThread(e: Engine, tid: Id, iid: Id, branch: string, now: int)
    requires RowsOk(e) && iid !in e.used
    requires tid in e.threads && e.threads[tid].Forking? && e.threads[tid].left > 0 && ThreadOk(e, e.threads[tid])
    ensures ThreadOk(DoForkChild(e, tid, iid, branch, now), DoForkChild(e, tid, iid, branch, now).threads[tid])
  {
  }

  lemma ForkChildKeepsApart(e: Engine, tid: Id, iid: Id, branch: string, now: int, t: Id)
    requires ThreadsOk(e) && iid !in e.used
    requires tid in e.threads && e.threads[tid].Forking? && e.threads[tid].left > 0
    requires t in e.threads && t != tid
    ensures
      var e' := DoForkChild(e, tid, iid, branch, now);
      && StillFree(e', e.threads[t])
      && ThreadsApart(e.threads[t], e'.threads[tid]) && ThreadsApart(e'.threads[tid], e.threads[t])
  {
    FreeBefore(e, t);
    assert ThreadOk(e, e.threads[t]) && ThreadsApart(e.threads[t], e.threads[tid]);
  }

  lemma ForkChildKeepsThreads(e: Engine, tid: Id, iid: Id, branch: string, now: int)
    requires RowsOk(e) && ThreadsOk(e) && iid !in e.used
    requires tid in e.threads && e.threads[tid].Forking? && e.threads[tid].left > 0
    requires RowsGrow(e, DoForkChild(e, tid, iid, branch, now))
    ensures ThreadsOk(DoForkChild(e, tid, iid, branch, now))
  {
    var e' := DoForkChild(e, tid, iid, branch, now);
    ForkChildKeepsThread(e, tid, iid, branch, now);
    forall t | t in e.threads && t != tid
      ensures StillFree(e', e.threads[t])
      ensures ThreadsApart(e.threads[t], e'.threads[tid]) && ThreadsApart(e'.threads[tid], e.threads[t])
    {
      ForkChildKeepsApart(e, tid, iid, branch, now, t);
    }
    ThreadsKept(e, e', tid);
  }

  lemma ForkChildKeepsRows(e: Engine, tid: Id, iid: Id, branch: string, now: int)
    requires RowsOk(e) && OrderOk(e) && tid in e.threads && e.threads[tid].Forking? && e.threads[tid].left > 0
    ensures
      var e' := DoForkChild(e, tid, iid, branch, now);
      RowsOk(e') && OrderOk(e') && RowsGrow(e, e')
  {
    SameRowsKeep(e, DoForkChild(e, tid, iid, branch, now));
  }

  lemma ForkChildKeepsImages(w: World, e: Engine, tid: Id, iid: Id, branch: string, now: int)
    requires Usable(w.c.mode) && ImagesOk(w, e)
    requires tid in e.threads && e.threads[tid].Forking? && e.threads[tid].left > 0
    ensures ImagesOk(w, DoForkChild(e, tid, iid, branch, now))
  {
    ImagesFrame(w, e, DoForkChild(e, tid, iid, branch, now));
  }

  lemma ForkChildKeepsInv(w: World, e: Engine, tid: Id, iid: Id, branch: string, now: int)
    requires Usable(w.c.mode) && Inv(w, e) && iid !in e.used
    requires tid in e.threads && e.threads[tid].Forking? && e.threads[tid].left > 0
    ensures Inv(w, DoForkChild(e, tid, iid, branch, now))
  {
    ForkChildKeepsRows(e, tid, iid, branch, now);
    ForkChildKeepsThreads(e, tid, iid, branch, now);
    ForkChildKeepsImages(w, e, tid, iid, branch, now);
  }

  // ---------------------------------------------------------------- steps of the store

  lemma StoringIsSound(w: World, e: Engine, image: Bytes)
    requires Usual(w) && ImagesOk(w, e)
    ensures
      var s := StoreImage(w, e, image);
      && GoodStore(w.c, s) && s.pending == [] && Covered(w.c, s, [])
      && Durable(w.c, e.store).Keys <= Durable(w.c, s).Keys
      && AllDurable(w.c, s, Manifest(w.c, ImageBlocks(w.c, image)))
  {
    var c, blocks := w.c, ImageBlocks(w.c, image);
    var put := PutBlocks(c, e.store, blocks);
    PutBlocksIsGood(c, e.store, blocks);
    UploadStores(put.cold, put.pending);
    UploadIsGood(c, put.cold, put.pending, FAULTLESS, false);
    PutBlocksKeepHot(c, e.store, blocks);
    var s := StoreImage(w, e, image);
    forall h | h in s.index ensures h in Durable(c, s) {
      assert h in Durable(c, put) || Queued(h, put.pending);
    }
    forall k | 0 <= k < |blocks| ensures Manifest(c, blocks)[k] in Durable(c, s) {
      assert blocks[k] in blocks;
    }
  }

  lemma {:induction false} PutBlocksKeepHot(c: Config, s: State, blocks: seq<Bytes>)
    ensures s.hot.Keys <= PutBlocks(c, s, blocks).hot.Keys
    decreases |blocks|
  {
    if blocks != [] {
      PutBlocksKeepHot(c, PutBlock(c, s, blocks[0]), blocks[1..]);
    }
  }

  lemma StoreGrowthKeepsManifest(w: World, e: Engine, e': Engine, sid: Id, image: Bytes)
    requires Usable(w.c.mode) && ManifestOk(w, e, sid, image)
    requires Durable(w.c, e.store).Keys <= Durable(w.c, e'.store).Keys
    requires sid in e'.manifests && e'.manifests[sid] == e.manifests[sid]
    ensures ManifestOk(w, e', sid, image)
  {
  }

  lemma ChunkImageKeepsInv(w: World, e: Engine, tid: Id, image: Bytes)
    requires Usual(w) && Inv(w, e) && tid in e.threads && e.threads[tid].Snapshotting?
    ensures Inv(w, DoChunkImage(w, e, tid, image))
  {
    var e' := DoChunkImage(w, e, tid, image);
    assert ThreadOk(e, e.threads[tid]);
    SameRowsKeep(e, e');
    forall t | t in e.threads && t != tid
      ensures StillFree(e', e.threads[t])
      ensures ThreadsApart(e.threads[t], e'.threads[tid]) && ThreadsApart(e'.threads[tid], e.threads[t])
    {
      FreeBefore(e, t);
      assert ThreadsApart(e.threads[t], e.threads[tid]);
    }
    ThreadsKept(e, e', tid);
    ChunkImageKeepsImages(w, e, tid, image);
  }

  lemma ChunkImageKeepsImages(w: World, e: Engine, tid: Id, image: Bytes)
    requires Usual(w) && Inv(w, e) && tid in e.threads && e.threads[tid].Snapshotting?
    ensures ImagesOk(w, DoChunkImage(w, e, tid, image))
  {
    var e' := DoChunkImage(w, e, tid, image);
    assert ThreadOk(e, e.threads[tid]);
    StoringIsSound(w, e, image);
    forall s | s in e'.images ensures ManifestOk(w, e', s, e'.images[s]) {
      StoreGrowthKeepsManifest(w, e, e', s, e.images[s]);
    }
    forall t | t in e'.threads && e'.threads[t].Snapshotting? && e'.threads[t].raw.Some?
      ensures ManifestOk(w, e', e'.threads[t].sid, e'.threads[t].raw.value)
    {
      if t != tid {
        assert ThreadsApart(e.threads[t], e.threads[tid]);
        StoreGrowthKeepsManifest(w, e, e', e.threads[t].sid, e.threads[t].raw.value);
      }
    }
  }

  /** What a fork loads is the image the snapshot was taken of, whatever else the store holds. */
  lemma CommittedImagesReadBack(w: World, e: Engine, sid: Id)
    requires Usual(w) && ImagesOk(w, e) && sid in e.snapshots
    ensures sid in e.images && sid in e.manifests
    ensures
      var (s', r) := ReadAll(w.c, e.store, e.manifests[sid]);
      r == Ok(e.images[sid]) && GoodStore(w.c, s') && s' == e.store.(hot := s'.hot) && e.store.hot.Keys <= s'.hot.Keys
  {
    assert ManifestOk(w, e, sid, e.images[sid]);
    ImagesReadBack(w.c, e.store, e.images[sid]);
  }

  /** A read may warm the cache and nothing else; manifests survive it. */
  lemma WarmerStoreKeepsImages(w: World, e: Engine, e': Engine)
    requires Usable(w.c.mode) && ImagesOk(w, e)
    requires GoodStore(w.c, e'.store) && e'.store == e.store.(hot := e'.store.hot)
    requires e.store.hot.Keys <= e'.store.hot.Keys
    requires e'.manifests == e.manifests && e'.images == e.images && e'.snapshots == e.snapshots
    requires forall t :: t in e'.threads && e'.threads[t].Snapshotting? ==>
               t in e.threads && e'.threads[t] == e.threads[t]
    ensures ImagesOk(w, e')
  {
    forall s | s in e'.images ensures ManifestOk(w, e', s, e'.images[s]) {
      StoreGrowthKeepsManifest(w, e, e', s, e.images[s]);
    }
    forall t | t in e'.threads && e'.threads[t].Snapshotting? && e'.threads[t].raw.Some?
      ensures ManifestOk(w, e', e'.threads[t].sid, e'.threads[t].raw.value)
    {
      StoreGrowthKeepsManifest(w, e, e', e.threads[t].sid, e.threads[t].raw.value);
    }
  }

  /** A fork of an own snapshot always finds its image; any other request changes nothing. */
  lemma BeginForkLoads(w: World, e: Engine, key: ApiKey, sid: Id, tid: Id, n: int)
    requires Usual(w) && Inv(w, e)
    ensures
      var e' := DoBeginFork(w, e, key, sid, tid, n);
      if Auth(w, e, key).None? || ProjectOfSnapshot(e, sid) != Auth(w, e, key) then e' == e else
        && sid in e.images && sid in e.snapshots
        && e' == e.(store := e'.store, used := e.used + {tid}, threads := e.threads[tid :=
             Forking(Auth(w, e, key).value, sid, e.snapshots[sid].run, e.images[sid], if n < 0 then 0 else n, map[])])
        && GoodStore(w.c, e'.store) && e'.store == e.store.(hot := e'.store.hot)
        && e.store.hot.Keys <= e'.store.hot.Keys
  {
    if Auth(w, e, key).Some? && ProjectOfSnapshot(e, sid) == Auth(w, e, key) {
      CommittedImagesReadBack(w, e, sid);
    }
  }

  lemma NewForkKeepsThreads(e: Engine, e': Engine, tid: Id, f: Thread)
    requires RowsOk(e) && ThreadsOk(e) && OrderOk(e) && SameRows(e, e') && e'.live == e.live
    requires e'.projects == e.projects
    requires f.Forking? && f.children == map[] && e'.used == e.used + {tid} && e'.threads == e.threads[tid := f]
    requires tid !in e.used && ProjectOfRun(e, f.run) == Some(f.owner) && SnapshotOf(e, f.sid, f.run)
    ensures RowsOk(e') && OrderOk(e') && ThreadsOk(e')
  {
    SameRowsKeep(e, e');
    forall t | t in e.threads ensures StillFree(e', e.threads[t]) {
      FreeBefore(e, t);
    }
    ThreadsKept(e, e', tid);
  }

  lemma BeginForkKeepsInv(w: World, e: Engine, key: ApiKey, sid: Id, tid: Id, n: int)
    requires Usual(w) && Inv(w, e) && tid !in e.used
    ensures Inv(w, DoBeginFork(w, e, key, sid, tid, n))
  {
    BeginForkLoads(w, e, key, sid, tid, n);
    var e' := DoBeginFork(w, e, key, sid, tid, n);
    if e' != e {
      NewForkKeepsThreads(e, e', tid, e'.threads[tid]);
      WarmerStoreKeepsImages(w, e, e');
    }
  }

  /** What is committed outlives the daemon, and the cache too when there is a tier behind it. */
  lemma RestartKeepsInv(w: World, e: Engine, wiped: bool)
    requires Usable(w.c.mode) && Inv(w, e)
    ensures Inv(w, DoRestart(w, e, wiped))
  {
    var e' := DoRestart(w, e, wiped);
    SameRowsKeep(e, e');
    assert Durable(w.c, e'.store) == Durable(w.c, e.store);
    forall s | s in e'.images ensures ManifestOk(w, e', s, e'.images[s]) {
      StoreGrowthKeepsManifest(w, e, e', s, e.images[s]);
    }
  }

  // ---------------------------------------------------------------- steps that commit rows

  lemma CreateRunKeepsThreads(w: World, e: Engine, key: ApiKey, rid: Id, iid: Id, tid: Id, tag: string, now: int)
    requires RowsOk(e) && ThreadsOk(e)
    requires rid !in e.used && iid !in e.used && tid !in e.used && rid != iid && rid != tid && iid != tid
    ensures ThreadsOk(DoCreateRun(w, e, key, rid, iid, tid, tag, now))
  {
    var e' := DoCreateRun(w, e, key, rid, iid, tid, tag, now);
    if e' != e {
      assert RowsGrow(e, e');
      forall t | t in e.threads ensures StillFree(e', e.threads[t]) {
        FreeBefore(e, t);
        assert ThreadOk(e, e.threads[t]);
      }
      ThreadsKept(e, e', tid);
    }
  }

  lemma CreateRunKeepsInv(w: World, e: Engine, key: ApiKey, rid: Id, iid: Id, tid: Id, tag: string, now: int)
    requires Usable(w.c.mode) && Inv(w, e)
    requires rid !in e.used && iid !in e.used && tid !in e.used && rid != iid && rid != tid && iid != tid
    ensures Inv(w, DoCreateRun(w, e, key, rid, iid, tid, tag, now))
  {
    CreateRunKeepsThreads(w, e, key, rid, iid, tid, tag, now);
    CreateRunKeepsRows(w, e, key, rid, iid, tid, tag, now);
    CreateRunKeepsImages(w, e, key, rid, iid, tid, tag, now);
  }

  lemma CreateRunKeepsImages(w: World, e: Engine, key: ApiKey, rid: Id, iid: Id, tid: Id, tag: string, now: int)
    requires Usable(w.c.mode) && ImagesOk(w, e) && e.threads.Keys <= e.used && tid !in e.used
    ensures ImagesOk(w, DoCreateRun(w, e, key, rid, iid, tid, tag, now))
  {
    ImagesFrame(w, e, DoCreateRun(w, e, key, rid, iid, tid, tag, now));
  }

  lemma CreateRunKeepsRows(w: World, e: Engine, key: ApiKey, rid: Id, iid: Id, tid: Id, tag: string, now: int)
    requires RowsOk(e) && OrderOk(e)
    requires rid !in e.used && iid !in e.used && tid !in e.used && rid != iid && rid != tid && iid != tid
    ensures RowsOk(DoCreateRun(w, e, key, rid, iid, tid, tag, now))
    ensures OrderOk(DoCreateRun(w, e, key, rid, iid, tid, tag, now))
  {
    var e' := DoCreateRun(w, e, key, rid, iid, tid, tag, now);
    forall s | s in e'.snapshots ensures LineageOk(e', e'.snapshots[s].parent, e'.snapshots[s].run) {
      assert LineageOk(e, e.snapshots[s].parent, e.snapshots[s].run);
    }
    forall i | i in e'.instances ensures LineageOk(e', e'.instances[i].snapshot, e'.instances[i].run) {
      if i in e.instances && i != iid {
        assert LineageOk(e, e.instances[i].snapshot, e.instances[i].run);
      }
    }
  }

  lemma DestroyKeepsThreads(w: World, e: Engine, key: ApiKey, iid: Id)
    requires RowsOk(e) && ThreadsOk(e)
    ensures ThreadsOk(DoDestroy(w, e, key, iid))
  {
    var e' := DoDestroy(w, e, key, iid);
    if e' != e {
      assert RowsGrow(e, e');
      forall t | t in e.threads ensures ThreadOk(e', e.threads[t]) {
        FreeBefore(e, t);
        assert ThreadOk(e, e.threads[t]);
        ThreadKept(e, e', e.threads[t]);
      }
    }
  }

  lemma DestroyKeepsRows(w: World, e: Engine, key: ApiKey, iid: Id)
    requires RowsOk(e) && OrderOk(e)
    ensures RowsOk(DoDestroy(w, e, key, iid)) && OrderOk(DoDestroy(w, e, key, iid))
  {
    var e' := DoDestroy(w, e, key, iid);
    forall i | i in e'.instances ensures LineageOk(e', e'.instances[i].snapshot, e'.instances[i].run) {
      assert LineageOk(e, e.instances[i].snapshot, e.instances[i].run);
    }
    forall s | s in e'.snapshots ensures LineageOk(e', e'.snapshots[s].parent, e'.snapshots[s].run) {
      assert LineageOk(e, e.snapshots[s].parent, e.snapshots[s].run);
    }
  }

  lemma DestroyKeepsInv(w: World, e: Engine, key: ApiKey, iid: Id)
    requires Usable(w.c.mode) && Inv(w, e)
    ensures Inv(w, DoDestroy(w, e, key, iid))
  {
    DestroyKeepsThreads(w, e, key, iid);
    DestroyKeepsRows(w, e, key, iid);
    ImagesFrame(w, e, DoDestroy(w, e, key, iid));
  }

  lemma CommitForkKeepsInv(w: World, e: Engine, tid: Id)
    requires Usable(w.c.mode) && Inv(w, e) && tid in e.threads && e.threads[tid].Forking?
    ensures Inv(w, DoCommitFork(e, tid))
  {
    var e' := DoCommitFork(e, tid);
    var f := e.threads[tid];
    assert ThreadOk(e, f);
    assert RowsGrow(e, e');
    forall t | t in e'.threads ensures StillFree(e', e'.threads[t]) {
      FreeBefore(e, t);
      assert ThreadsApart(e.threads[t], f);
    }
    ThreadsKept(e, e', tid);
    ImagesFrame(w, e, e');
    CommitForkKeepsRows(e, tid);
  }

  lemma CommitForkKeepsRows(e: Engine, tid: Id)
    requires RowsOk(e) && OrderOk(e) && tid in e.threads && e.threads[tid].Forking? && ThreadOk(e, e.threads[tid])
    ensures RowsOk(DoCommitFork(e, tid)) && OrderOk(DoCommitFork(e, tid))
  {
    var e' := DoCommitFork(e, tid);
    forall s | s in e'.snapshots ensures LineageOk(e', e'.snapshots[s].parent, e'.snapshots[s].run) {
      assert LineageOk(e, e.snapshots[s].parent, e.snapshots[s].run);
    }
    forall i | i in e'.instances
      ensures e'.instances[i].run in e'.runs && LineageOk(e', e'.instances[i].snapshot, e'.instances[i].run)
    {
      if i !in e.threads[tid].children {
        assert LineageOk(e, e.instances[i].snapshot, e.instances[i].run);
      }
    }
  }

  lemma CommitSnapshotKeepsInv(w: World, e: Engine, tid: Id, vmstate: nat, now: int)
    requires Usable(w.c.mode) && Inv(w, e)
    requires tid in e.threads && e.threads[tid].Snapshotting? && e.threads[tid].raw.Some?
    ensures Inv(w, DoCommitSnapshot(e, tid, vmstate, now))
  {
    var e' := DoCommitSnapshot(e, tid, vmstate, now);
    var t0 := e.threads[tid];
    assert ThreadOk(e, t0);
    assert RowsGrow(e, e');
    forall t | t in e'.threads ensures StillFree(e', e'.threads[t]) {
      FreeBefore(e, t);
      assert ThreadsApart(e.threads[t], t0);
    }
    ThreadsKept(e, e', tid);
    CommitSnapshotKeepsRows(e, tid, vmstate, now);
    CommitSnapshotKeepsOrder(e, tid, vmstate, now);
    CommitSnapshotKeepsImages(w, e, tid, vmstate, now);
  }

  lemma CommitSnapshotKeepsRows(e: Engine, tid: Id, vmstate: nat, now: int)
    requires RowsOk(e) && tid in e.threads && e.threads[tid].Snapshotting? && e.threads[tid].raw.Some?
    requires ThreadOk(e, e.threads[tid])
    ensures RowsOk(DoCommitSnapshot(e, tid, vmstate, now))
  {
    var e' := DoCommitSnapshot(e, tid, vmstate, now);
    var t0 := e.threads[tid];
    forall s | s in e'.snapshots ensures LineageOk(e', e'.snapshots[s].parent, e'.snapshots[s].run) {
      if s != t0.sid {
        assert LineageOk(e, e.snapshots[s].parent, e.snapshots[s].run);
      }
    }
    forall i | i in e'.instances ensures LineageOk(e', e'.instances[i].snapshot, e'.instances[i].run) {
      if i != t0.iid {
        assert LineageOk(e, e.instances[i].snapshot, e.instances[i].run);
      }
    }
  }

  lemma CommitSnapshotKeepsOrder(e: Engine, tid: Id, vmstate: nat, now: int)
    requires OrderOk(e) && tid in e.threads && e.threads[tid].Snapshotting? && e.threads[tid].raw.Some?
    requires ThreadOk(e, e.threads[tid])
    ensures OrderOk(DoCommitSnapshot(e, tid, vmstate, now))
  {
    var e' := DoCommitSnapshot(e, tid, vmstate, now);
    var n := |e.order|;
    assert e'.order[..n] == e.order;
    forall k | 0 <= k < |e'.order| && e'.snapshots[e'.order[k]].parent.Some?
      ensures e'.snapshots[e'.order[k]].parent.value in e'.order[..k]
    {
      if k < n {
        assert e'.order[..k] == e.order[..k] && e'.order[k] == e.order[k];
      }
    }
  }

  lemma CommitSnapshotKeepsImages(w: World, e: Engine, tid: Id, vmstate: nat, now: int)
    requires Usable(w.c.mode) && ImagesOk(w, e)
    requires tid in e.threads && e.threads[tid].Snapshotting? && e.threads[tid].raw.Some?
    ensures ImagesOk(w, DoCommitSnapshot(e, tid, vmstate, now))
  {
    var e' := DoCommitSnapshot(e, tid, vmstate, now);
    forall s | s in e'.images ensures ManifestOk(w, e', s, e'.images[s]) {
      assert s == e.threads[tid].sid || ManifestOk(w, e, s, e.images[s]);
    }
    forall t | t in e'.threads && e'.threads[t].Snapshotting? && e'.threads[t].raw.Some?
      ensures ManifestOk(w, e', e'.threads[t].sid, e'.threads[t].raw.value)
    {
      assert ManifestOk(w, e, e.threads[t].sid, e.threads[t].raw.value);
    }
  }

  // ---------------------------------------------------------------- runs

  lemma StepKeepsInv(w: World, e: Engine, step: Step)
    requires Usual(w) && Inv(w, e) && Enabled(e, step)
    ensures Inv(w, Apply(w, e, step))
  {
    match step
    case CreateProject(key, pid, newKey) => CreateProjectKeepsInv(w, e, key, pid, newKey);
    case CreateRun(key, rid, iid, tid, tag, now) => CreateRunKeepsInv(w, e, key, rid, iid, tid, tag, now);
    case BootVm(tid) => BootVmKeepsInv(w, e, tid);
    case BeginSnapshot(key, iid, tid, sid, tag) => BeginSnapshotKeepsInv(w, e, key, iid, tid, sid, tag);
    case ChunkImage(tid, image) => ChunkImageKeepsInv(w, e, tid, image);
    case CommitSnapshot(tid, vmstate, now) => CommitSnapshotKeepsInv(w, e, tid, vmstate, now);
    case BeginFork(key, sid, tid, n) => BeginForkKeepsInv(w, e, key, sid, tid, n);
    case ForkChild(tid, iid, branch, now) => ForkChildKeepsInv(w, e, tid, iid, branch, now);
    case CommitFork(tid) => CommitForkKeepsInv(w, e, tid);
    case Abort(tid) => AbortKeepsInv(w, e, tid);
    case Destroy(key, iid) => DestroyKeepsInv(w, e, key, iid);
    case Tick(dt) => TickKeepsInv(w, e, dt);
    case Restart(wiped) => RestartKeepsInv(w, e, wiped);
  }

  lemma InitialIsSound(w: World, root: Id, rootHash: KeyHash)
    requires Usable(w.c.mode)
    ensures Inv(w, Initial(root, rootHash))
  {
  }

  lemma {:induction false} RunKeepsInv(w: World, e: Engine, run: seq<Step>)
    requires Usual(w) && Inv(w, e) && ValidRun(w, e, run)
    ensures Inv(w, After(w, e, run))
    decreases |run|
  {
    if run != [] {
      StepKeepsInv(w, e, run[0]);
      RunKeepsInv(w, Apply(w, e, run[0]), run[1..]);
    }
  }
}
