# Klados: a model of the fork protocol, the chunk store and the timeline engine

Klados runs agents in micro-VMs, snapshots them and forks the snapshots.  This project models the
parts of it on which that promise rests, and proves what they keep over whole runs.

**Forking without shared randomness.**  `Guest` is one guest: the RNG hook of `sitecustomize.py`
(event mode) and the agent of `guest_agent.py`, as a class updated in place and as functions on
values.  Kernel entropy is a supply of nonces that never repeat; a generator is the seed it runs on
and how many words it has handed out; two words are equal exactly when a real generator would
return the same bits.  `ForkProtocol` runs any number of guests through boots, wrapped calls,
poller ticks, messages, snapshots, loads and destructions.  `ForkHost` is the daemon's side of it,
with the branch names of `Labels`; `Determinism` is what the hook must leave alone between forks.
`FineGrained` and `FineRuns` take the hook apart: each read, comparison, entropy fetch, planting,
mixing and draw is a step of its own, the poller runs beside the workload, and SIGSTOP lands
anywhere.  `FineCaptures` says exactly which captures then make forks repeat words.

**The content-addressed store.**  `Chunking` and `ChunkLaws` are the two chunkers, the 64-bit
rolling hash among them.  `Store` is the class `CAS`.  `StoreLaws` counts, `ColdTier` reads back,
`RefusedUploads` is about flushes that fail and `TornChunks` about chunk files a crash cut short.
`SnapshotFiles` takes `_chunk_mem` and `_reconstruct_mem` apart into steps between which any thread
may run, the daemon may crash and the cache may be wiped; `MemImages` is the code, and an
undisturbed call of either is a run of those steps.

**The timeline engine.**  `Engine` is the daemon as a state machine in which the steps of different
requests interleave: a snapshot reads its parent long before it commits, a fork boots its children
before their rows exist, a restart loses every VM, request and index.  `Daemon` is the code of the
requests, in place; served alone, each is a run of those steps.  `EngineLaws` proves the invariant,
`Timeline` that lineage is a forest, `Lifetimes` how instances end, `Render`, `RenderLaws`,
`RowOrder` and `KladLog` what `klad log` shows of it, `Keys`, `Tenant`, `TenantLaws` and
`NonInterference` whom a key opens and that projects do not see each other, `Metering` and `Bills`
that the accounts and bills add up.

**Three algorithms of their own.**  `WebSocket` is the guest's WebSocket client against section 5.2
of RFC 6455, `Paging` the userfaultfd handler, `Percentile` the statistics the spikes report.

Hashing is an injective function, compression a pair that inverts, the gear table, the clock, ids,
kernel entropy, memory images and the peer's octets are inputs.

## Facts about the code that the theorems make visible

- `snapshot_instance` stops the workload (spikes/engine/kladosd.py:302) and nothing it sends starts it again:
  `ForkHost.Host.SnapshotInstance` states that the parent stays stopped.
- A failed QUIESCE is swallowed (spikes/engine/kladosd.py:304-305).  Uniqueness of randomness then survives
  exactly when the guest was stopped anyway or had not caught up with its generation.
- With the hook taken apart, a fork draws at most one call from captured state, unless SIGSTOP
  landed between reading kernel entropy for `random.seed` and planting it: then the captured
  entropy is planted after the fork, in every child, and such a capture does occur.
  `FineGrained.InFlightBoundExactlyWhenNoEntropyIsHeld` is the exact condition.  Entropy held for
  `RAND_add` does no harm: it is mixed into a state that stays the guest's own if it was.
- That one call does repeat words in sibling forks exactly when the capture caught it past its
  reseed, or reading a generation that the hook had already remembered or the poller was about to
  (`FineCaptures.Risky`).
- `flush_s3` empties the queue before it uploads (spikes/storage/cas.py:108-110), and a chunk in the index is never
  queued again.  One refused PUT ends `list(ex.map(...))`, and the executor cancels uploads behind it that have not
  started; neither the refused chunk nor the cancelled ones are retried by this daemon, whatever it
  stores and flushes later.  A restarted daemon that puts the file again does heal.
- A chunk file is written only if absent (spikes/storage/cas.py:84-86) and read before the tier is asked, so one that
  a crash left torn spoils its images until the cache is wiped, even while S3 holds a good copy.
- `put_file` cuts at the end of every read buffer (spikes/storage/cas.py:92-101).  For fixed blocks the manifest is
  that of the whole file exactly when the block divides the buffer or one read takes it all; for
  content-defined chunks exactly when every read happens to end at a cut.
- Two snapshots of one instance that race become siblings, not parent and child.
- `create_run` commits its rows before it boots the VM (spikes/engine/kladosd.py:282-284).  An instance destroyed in
  between boots all the same and runs on, marked DESTROYED; destroying is final exactly when no
  boot is ahead.
- A fork that fails after booting some children commits no row for them
  (spikes/engine/kladosd.py:331-348).  Those VMs can be neither listed nor destroyed nor charged, and run until the
  daemon restarts.
- A restart ends every VM and leaves its row RUNNING.
- `timeline` reads its two tables in two queries (spikes/engine/kladosd.py:440-443); an instance whose snapshot was
  committed between them is not drawn.
- `usage` sums logical sizes (spikes/engine/kladosd.py:416-417), although the comment at line 374 says
  post-dedup.  The model follows the code, and so one project's bill does not depend on another's data.
- `recv` does not look at the mask bit and treats a continuation frame as a control frame.
- Two virtual CPUs that fault on one page make the handler copy it twice; the second copy panics.

## Model

| member | source | states |
|---|---|---|
| Guest.Vm.Boot | spikes/guest/guest_agent.py:62-66 | a running guest on entropy of its own, generation 0 written and read as baseline; the workload starts on the written generation before its hook reads it |
| Guest.Vm.MaybeReseed | spikes/guest/sitecustomize.py:38-43 | in place, the check reseeds both generators exactly when a readable generation differs from a cached one, and remembers it |
| Guest.Vm.Wrapped | spikes/guest/sitecustomize.py:46-68 | each wrapper checks first and then draws consecutive words of its generator |
| Guest.Vm.BumpGen | spikes/guest/guest_agent.py:52-58 | the generation grows by one, an unreadable one counting as 0 |
| Guest.Vm.HandleMessage | spikes/guest/guest_agent.py:68-122 | QUIESCE stops; FORKED writes index, count and context of its message to the branch file, moves the generation by one and lets the workload run, which finds both already there; every reply |
| ForkProtocol.CheckKeepsInv | spikes/guest/sitecustomize.py:38-43 | after a check a running guest is current, on its own seeds or on entropy nobody has seen, and the system invariant holds |
| ForkProtocol.PollerCatchesUp | spikes/guest/sitecustomize.py:73-76 | a poller turn leaves a running guest up to date: its generators untouched, or both on new entropy if a fork was pending |
| ForkProtocol.DrawKeepsInv | spikes/guest/sitecustomize.py:50-66 | drawing from owned seeds repeats no word of the log and leaves everyone ahead of it |
| ForkProtocol.MessageKeepsInv | spikes/guest/guest_agent.py:91-121 | no message makes a guest current: FORKED moves the generation past the cached one |
| ForkProtocol.StepKeepsInv | spikes/engine/kladosd.py:289-350 | the relation of generation file, cached generation, stopped workload and seed ownership survives every step |
| ForkProtocol.WordsAreUnique | spikes/guest/sitecustomize.py:38-76 | over any run and any tree of forks with quiesced snapshots, no wrapped call ever returns a word twice |
| ForkProtocol.CopyRepeatsOriginal | spikes/engine/kladosd.py:301-307 | a snapshot of a running, current guest has a continuation that repeats a word |
| ForkProtocol.UnquiescedSnapshotIsSafeExactlyWhenHarmless | spikes/engine/kladosd.py:301-307 | after a snapshot whose QUIESCE may have failed, all continuations are safe if and only if the guest was stopped or behind its generation |
| ForkHost.Host.SnapshotInstance | spikes/engine/kladosd.py:289-320 | without a live VM an error; otherwise QUIESCE and snapshot, as protocol steps: the parent is stopped exactly if the message arrived, the image is the parent, nothing else changes; the invariant is kept |
| ForkHost.Host.ForkSnapshot | spikes/engine/kladosd.py:323-350 | a child that was told runs on the next generation and has index k of n and the context "branch k of n" in its branch file, so no two of them read the same; the others are the image; snapshots and other instances are untouched; the steps and the invariant |
| ForkHost.NoChildDrawsFromTheCapturedState | spikes/engine/kladosd.py:331-347 | a child of a quiesced snapshot is stopped, or its next call returns only words of entropy drawn by that call |
| Labels.DecimalReadsBack | spikes/engine/kladosd.py:335 | a number in a label is digits without a leading zero that read back to it |
| Labels.LabelsDiffer | spikes/engine/kladosd.py:335 | siblings have different labels |
| Determinism.NoForkNoReseed | spikes/guest/sitecustomize.py:8-11 | with no fork pending, over any wrapped calls and poller turns each generator returns the next words of the stream it was on, and no entropy is used |
| Determinism.OneForkOneReseed | spikes/guest/sitecustomize.py:38-43 | with one pending, the first call or turn reseeds both generators and nothing does so again |
| Determinism.StreamsGoOnExactlyWithoutFork | spikes/guest/sitecustomize.py:38-43 | a guest stays on its seeds if and only if no fork is pending |
| FineGrained.MicroStepKeepsLocalInv | spikes/guest/sitecustomize.py:38-76 | every micro-step of workload and poller keeps what is known of a guest since its capture |
| FineGrained.UninterruptedCallIsCall | spikes/guest/sitecustomize.py:50-66 | left alone, the micro-steps of a wrapped call amount to the one-step call of the coarse model |
| FineGrained.UninterruptedTurnIsCheck | spikes/guest/sitecustomize.py:73-76 | left alone, the micro-steps of a poller turn amount to the one-step check |
| FineGrained.PollerHoldingEntropyBreaksTheBound | spikes/guest/sitecustomize.py:28-43 | a capture that caught the poller holding entropy for `random.seed` has a continuation with two calls on captured state |
| FineGrained.WorkloadHoldingEntropyBreaksTheBound | spikes/guest/sitecustomize.py:28-43 | the same for the workload's own check |
| FineGrained.InFlightBoundExactlyWhenNoEntropyIsHeld | spikes/guest/sitecustomize.py:38-76 | after a release, at most one call ever draws from captured state if and only if no thread was caught holding entropy for `random.seed`; entropy held for `RAND_add`, a step of its own here, makes no difference |
| FineRuns.StepKeepsInv | spikes/guest/sitecustomize.py:38-76 | every interleaving step of many guests keeps ownership of seeds exclusive and the log explained |
| FineRuns.AtMostOneStaleCall | spikes/guest/sitecustomize.py:50-66 | over any run, no guest makes two calls on captured state after its last capture |
| FineRuns.OnlyInFlightCallsShareWords | spikes/guest/sitecustomize.py:50-66 | a word drawn from an owned generator is never returned again by any call anywhere |
| FineCaptures.CallsBegunLaterDrawOwnWords | spikes/guest/sitecustomize.py:50-66 | over any run, a call that begins on a released guest draws from generators the guest owns, whatever poller and other guests do meanwhile |
| FineCaptures.SafeCapturesNeverRepeatAWord | spikes/guest/sitecustomize.py:50-76 | over any run in which no capture catches a risky call, no word is ever returned twice |
| FineCaptures.CaptureIsSafeExactlyWhenNotRisky | spikes/guest/sitecustomize.py:38-76 | after such a run, a further capture keeps all words distinct in every continuation if and only if it catches no call past its reseed or with no reason left for one |
| FineCaptures.EntropyCanBeHeld | spikes/guest/sitecustomize.py:28-76 | a run from nothing to a quiesced guest that holds entropy, whose capture breaks the in-flight bound |
| Chunking.WindowIsWeightedSum | spikes/storage/cas.py:55-64 | shift-and-add over a window is the sum of 2^j times the gear value of the byte j places back |
| Chunking.RegisterShowsTheWindow | spikes/storage/cas.py:60-63 | wherever a cut is tested, the 64-bit register agrees modulo 2^13 with the last 13 bytes alone |
| Chunking.CutsInNumbers | spikes/storage/cas.py:57-68 | the declarative cut in the code's numbers: from 2048 bytes on where the weighted sum of the last 13 is a multiple of 8192, at 65536 in any case |
| Chunking.FixedBlocks | spikes/storage/cas.py:50-54 | the range loop yields the fixed blocks |
| Chunking.Roll | spikes/storage/cas.py:60-63 | one turn: the new register, and the test is the declarative cut |
| Chunking.CdcBlocks | spikes/storage/cas.py:55-68 | the rolling loop yields exactly the declarative chunks |
| Chunking.Blocks | spikes/storage/cas.py:50-68 | either mode |
| ChunkLaws.ChunksConcatenate | spikes/storage/cas.py:50-68 | the chunks put together are the input |
| ChunkLaws.ChunkSizes | spikes/storage/cas.py:57-68 | every chunk but the last is a full block, or between 2048 and 65536; the last is nonempty and no longer |
| ChunkLaws.ChunksAreTheGreedyOnes | spikes/storage/cas.py:55-68 | a split is the loop's if and only if each chunk ends at the first cut: size at least 2048 with a zero window, or 65536 |
| ChunkLaws.NextCutIsLocal | spikes/storage/cas.py:55-68 | where a chunk ends depends only on the bytes from its start |
| ChunkLaws.EqualSuffixesChunkAlike | spikes/storage/cas.py:55-68 | two inputs with equal bytes behind a cut have the same chunks from there on |
| ChunkLaws.SplitAtBoundary | spikes/storage/cas.py:50-68 | cutting an input at a boundary cuts its chunk list there |
| ChunkLaws.BufferedReadsAgreeExactlyAtCuts | spikes/storage/cas.py:92-101 | chunking read by read equals chunking the whole file if and only if every read ends at a cut |
| ChunkLaws.FixedBlocksIgnoreTheReadBuffer | spikes/storage/cas.py:92-101 | for fixed blocks that is so if and only if the block divides the buffer or one read takes the file |
| ChunkLaws.SmallBuffersMoveContentCuts | spikes/storage/cas.py:92-101 | a buffer below the minimum chunk changes the content-defined chunks of every longer file |
| Store.CAS.constructor | spikes/storage/cas.py:27-43 | a new daemon: empty index, queue and counters over whatever the directory and the bucket hold |
| Store.CAS.StoreBlock | spikes/storage/cas.py:72-89 | one block in place: counters, and for a new hash index, file and queue |
| Store.CAS.PutBytes | spikes/storage/cas.py:70-90 | the manifest of the chunks, all of them put in order |
| Store.CAS.PutFile | spikes/storage/cas.py:92-101 | the same read by read, to the end of the file |
| Store.CAS.FlushS3 | spikes/storage/cas.py:103-111 | without S3 or queue nothing; else the queue is emptied, uploaded is all of it but the refused keys and those behind the first refused one whose upload is cancelled; the number queued, or the error |
| Store.CAS.Fetch | spikes/storage/cas.py:113-127 | the cached file if there is one; else the tier's chunk, which is in the cache afterwards; else the error for the configuration, nothing changed |
| StoreLaws.CountersAreExact | spikes/storage/cas.py:70-90 | after any puts `logical` is the input length, `chunks` the manifest length, `stored` and the index those of the distinct blocks |
| StoreLaws.PutsCommute | spikes/storage/cas.py:70-101 | the same puts in any order leave the same index and counters |
| StoreLaws.DivergenceOnlyGrowth | spikes/storage/cas.py:70-90 | storing an image after one of equal length adds at most one index entry, and its compressed bytes, per differing block |
| StoreLaws.ReputIsFree | spikes/storage/cas.py:76-88 | putting a file again, whatever was put between, changes only `logical` and `chunks` |
| StoreLaws.PutFileIsPutBytesExactlyWhenBlocksDivideTheBuffer | spikes/storage/cas.py:92-101 | one buffered put has the manifest, index and counters of a single put if and only if the block divides the buffer or one read suffices |
| ColdTier.DurableManifestsReadBack | spikes/storage/cas.py:113-127 | a manifest of durable chunks reads back exactly, and reading only warms the cache |
| ColdTier.ImagesReadBack | spikes/engine/kladosd.py:153-180 | a memory image whose chunks are durable reads back exactly |
| ColdTier.ReadingWarms | spikes/storage/cas.py:121-124 | after a whole manifest was read all its chunks are in the cache, whose files alone give the same bytes; no cached file was replaced |
| ColdTier.ReadOnceReadAlways | spikes/storage/cas.py:113-127 | read again, with whatever is left of the cold tier, it gives the same bytes and changes nothing |
| ColdTier.FirstFailureEndsReading | spikes/engine/kladosd.py:178-179 | nothing behind the first chunk that cannot be had is fetched |
| ColdTier.EngineImagesIgnoreTheBuffer | spikes/engine/kladosd.py:71 | the engine's 4 KiB blocks divide the 8 MiB buffer, so a manifest is that of the whole image |
| RefusedUploads.UploadSendsWhatIsNotLost | spikes/storage/cas.py:108-111 | after a flush the tier has a queued key if and only if it had it, or the key was neither refused nor cancelled behind a refused one |
| RefusedUploads.QueueIsInFileOrder | spikes/storage/cas.py:76-88 | blocks queue for upload in file order, each new one once at its first occurrence |
| RefusedUploads.NothingIndexedIsSentAgain | spikes/storage/cas.py:76-88 | a key that is indexed and not queued stays in or out of the tier through any later puts and flushes |
| RefusedUploads.RetriesHealExactlyWhenTheTailWasCold | spikes/storage/cas.py:103-111 | however the race behind a refused upload ends, after any later puts and flushes a cold restore returns every block: if and only if no queued key is refused or, from the first refused one on, the tier already had every block asked for |
| RefusedUploads.RestartHeals | spikes/storage/cas.py:70-111 | a new daemon that puts the blocks again and flushes makes a cold restore return them all |
| TornChunks.TornFilesDecideUntilAWipe | spikes/storage/cas.py:80-127 | after a crash with torn chunk files and any puts, flushes, reads and restarts, an image reads back if and only if none of its chunk files is torn, whatever the tier holds; otherwise the corrupt-data error |
| TornChunks.PuttingAgainDoesNotMend | spikes/storage/cas.py:76-88 | the same for an image that is put again after the crash |
| TornChunks.AWipeMends | spikes/storage/cas.py:113-127 | with S3, once the cache is wiped an image in the tier reads back, whatever happened since the crash |
| TornChunks.StoredSinceTheCrashSurvivesAWipe | spikes/storage/cas.py:70-127 | so does every image put and flushed since, when no flush before that failed |
| SnapshotFiles.StepOwes | spikes/engine/kladosd.py:153-180 | a step that works on one snapshot keeps every other snapshot's guarantee |
| SnapshotFiles.ManifestIsTornWhileWritten | spikes/engine/kladosd.py:159-162 | between opening and closing the manifest is torn, and only then does the image go |
| SnapshotFiles.CrashesForget | spikes/storage/cas.py:39-43 | a crash takes index, queue, lock and threads and no file, a wipe the cache only |
| SnapshotFiles.DrainedMeansDurable | spikes/engine/kladosd.py:156-158 | when the store lock is released, every chunk of the manifest is durable |
| SnapshotFiles.StepKeepsInv | spikes/engine/kladosd.py:153-180 | puts, uploads, manifest, removal, rebuild, crashes and wipes in any interleaving keep the invariant |
| SnapshotFiles.EverySnapshotSurvives | spikes/engine/kladosd.py:153-180 | after any such run each snapshot is there: its image file is the original, or a whole manifest reads back to it |
| SnapshotFiles.PublishedManifestsAreDurable | spikes/engine/kladosd.py:156-162 | a published manifest reads back to the original, with S3 also after cache and daemon are gone |
| SnapshotFiles.RebuildNeverMisses | spikes/engine/kladosd.py:173-180 | in every reachable state the next step of a rebuild gains the next block of the original |
| MemImages.Images.ChunkMem | spikes/engine/kladosd.py:153-163 | the chunks, the flush and the files, write by write: torn manifest, whole manifest, no image; for any outage the store and, after an error, the files untouched |
| MemImages.Images.ReconstructMem | spikes/engine/kladosd.py:166-180 | the image read back and every chunk of it in the cache, or the error and at most a `.tmp`; at every moment between the image is absent or whole and the manifest untouched; existing images and missing manifests are left alone |
| MemImages.Images.WriteTmp | spikes/engine/kladosd.py:174-179 | chunk after chunk into the temporary file, to the end or the first failure; image and manifest are not written meanwhile |
| MemImages.UndisturbedReconstructMemIsARun | spikes/engine/kladosd.py:166-180 | what `ReconstructMem` does undisturbed, to the image or to the first missing chunk, is a run of the interleaving machine |
| MemImages.UndisturbedChunkMemIsARun | spikes/engine/kladosd.py:153-163 | what `ChunkMem` does undisturbed is a run of the interleaving machine |
| EngineLaws.StoringIsSound | spikes/engine/kladosd.py:156-158 | storing an image loses no chunk of another and leaves all its own durable |
| EngineLaws.CommittedImagesReadBack | spikes/engine/kladosd.py:166-180 | every committed snapshot's image reads back, whatever else the shared store holds |
| EngineLaws.BeginForkLoads | spikes/engine/kladosd.py:323-329 | a fork of an own snapshot starts from exactly its image; any other request changes nothing |
| EngineLaws.StepKeepsInv | spikes/engine/kladosd.py:276-435 | every step of every interleaved request keeps rows, requests, commit order and images consistent |
| EngineLaws.RestartKeepsInv | spikes/engine/kladosd.py:145-149 | rows and images outlive the daemon, and a tiered store outlives its cache |
| EngineLaws.RunKeepsInv | spikes/engine/kladosd.py:276-435 | so does every run |
| Timeline.TimelinesAreForests | spikes/engine/kladosd.py:289-350 | in every reachable state each pointer names a committed snapshot of its run, nothing descends from itself, every chain ends at a root |
| Timeline.NewSnapshotsHangUnderOldOnes | spikes/engine/kladosd.py:315-318 | a committed snapshot is never rewritten, and a new one hangs under one of its run committed before |
| Timeline.HistoryIsNeverRewritten | spikes/engine/kladosd.py:315-318 | over any run committed snapshots stay as they are and commit order only grows |
| Timeline.OnlyItsSnapshotsMoveAnInstance | spikes/engine/kladosd.py:315-317 | an instance's pointer moves only at a commit of its snapshot, to one that did not exist before |
| Timeline.CommitsOnTopExactlyWhenNoneRaced | spikes/engine/kladosd.py:294-317 | a snapshot hangs under the pointer it replaces if and only if no other snapshot of its instance committed since it read that pointer |
| Lifetimes.DestroyIsFinalExactlyAfterBoot | spikes/engine/kladosd.py:427-435 | a destroyed instance stays marked so over every run, and never runs again if and only if no request was about to boot it |
| Lifetimes.RestartStopsSilently | spikes/engine/kladosd.py:145-149 | a restart changes no instance row, forgets requests and index, and no instance with a row ever runs again |
| Lifetimes.AbortedForksLeaveOrphans | spikes/engine/kladosd.py:331-348 | a child booted by a fork that then failed has no row and is charged to nobody in any continuation, and runs exactly until a restart |
| Render.IndexKids | spikes/engine/klad:40-42 | the dictionary lists for each parent its snapshots in row order |
| Render.IndexInstances | spikes/engine/klad:43-45 | the same for instances under snapshots |
| Render.Walk | spikes/engine/klad:52-59 | the recursion ends and prints the tree below its parent |
| Render.RenderTimeline | spikes/engine/klad:37-61 | genesis lines, then the whole tree |
| RenderLaws.TopSplits | spikes/engine/klad:52-59 | a snapshot descends from a parent through exactly one of its children |
| RenderLaws.DrawnOnce | spikes/engine/klad:52-59 | from any turn of the loop on, a subject is printed once if it lies under the remaining children and not at all otherwise |
| RenderLaws.TreeShowsOnce | spikes/engine/klad:37-61 | the tree shows a subject exactly once if its home is among the rows, else never |
| RenderLaws.TreeIsFaithful | spikes/engine/klad:52-59 | read by its indentation, the outline gives every snapshot its parent, printed before and one level up, and every instance its snapshot |
| RowOrder.ChildrenInRowOrder | spikes/engine/klad:40-42 | rows of one parent keep their order |
| RowOrder.InstancesInRowOrder | spikes/engine/klad:43-45 | so do instances of one snapshot |
| RowOrder.GenesisInRowOrder | spikes/engine/klad:48-50 | the genesis lines come in row order |
| RowOrder.OnlyGenesisAbove | spikes/engine/klad:48-50 | they are of instances whose branch is `genesis`, and no others |
| RowOrder.SiblingsInRowOrder | spikes/engine/klad:52-59 | of two siblings the first row's line comes first, at the same depth, and right below each come its instances |
| KladLog.LogShowsEverySnapshotOnce | spikes/engine/kladosd.py:438-445 | the two queries made at different times: every snapshot once, an instance once if and only if its pointer names a snapshot the first query saw, true indentation |
| KladLog.ConsistentLogMissesNothing | spikes/engine/klad:37-61 | both queries on one reachable state: every snapshot once, every instance with a pointer once, every other one as genesis |
| TenantLaws.CreateRunOnView | spikes/engine/kladosd.py:276-286 | a new run is in its owner's view, and in nobody else's |
| TenantLaws.CommitSnapshotOnView | spikes/engine/kladosd.py:313-318 | so is a committed snapshot with its image and pointer |
| TenantLaws.BeginForkOnView | spikes/engine/kladosd.py:323-329 | a fork sees its own project's image and changes no other project's view |
| TenantLaws.CommitForkOnView | spikes/engine/kladosd.py:344-350 | committed children join the owner's rows and running instances |
| TenantLaws.TickOnView | spikes/engine/kladosd.py:380-401 | a tick charges a project by its own running instances only |
| NonInterference.StepOnView | spikes/engine/kladosd.py:125-141 | a step that concerns a project does to its view what a daemon of its own without a chunk store would do; any other step leaves it alone |
| NonInterference.StepKeepsKeys | spikes/engine/kladosd.py:101-122 | no step gives a project's key to another project or takes it away |
| Keys.KeyOpensTheEarliestRow | spikes/engine/kladosd.py:116-122 | a key opens the project whose row was the first with its hash; an empty or unknown key opens none |
| Keys.NewKeysOpenTheirProject | spikes/engine/kladosd.py:106-113 | the key handed out opens the new project, then and after any further run, if and only if it is not empty and no earlier row has its hash |
| NonInterference.OtherTenantsDoNotInterfere | spikes/engine/kladosd.py:483-532 | removing all other projects' requests from any trace leaves a possible trace with the same run list, timelines and bill |
| NonInterference.SharedEngineIsEveryonesOwn | spikes/engine/kladosd.py:483-532 | over any trace a project's view is that of its own engine without sharing and without chunks |
| Metering.Accrue | spikes/engine/kladosd.py:382-392 | the first loop holds, per project, one share for each live instance with a row |
| Metering.UpsertAll | spikes/engine/kladosd.py:393-400 | the second loop adds each entry to its row or makes the row, in any order |
| Metering.AccrualIsTheTick | spikes/engine/kladosd.py:380-401 | the two loops together charge what the engine's tick charges |
| Metering.TickInNumbers | spikes/engine/kladosd.py:380-401 | a tick adds n * dt vCPU seconds and n * memMib / 1024 * dt GiB seconds for n instances |
| Metering.AccountsAreExact | spikes/engine/kladosd.py:380-401 | over any run a project's CPU account is its instance-seconds, and its memory account the image's GiB times that |
| Metering.TickConserves | spikes/engine/kladosd.py:380-401 | a tick adds to all accounts together exactly what runs with a row |
| Metering.NothingIsLost | spikes/engine/kladosd.py:380-401 | so does every run: nothing is charged twice or to nobody |
| Bills.BillsAreExact | spikes/engine/kladosd.py:413-424 | after any run: hours from instance-seconds, the image's GiB times that, every byte of every committed snapshot, and the cost at 0.09, 0.35 and 0.05 / 730 |
| Bills.RunListsAreExact | spikes/engine/kladosd.py:448-453 | a project lists the runs made with its keys, those and no others |
| Bills.TimelinesHoldTheirRows | spikes/engine/kladosd.py:438-445 | a timeline holds all rows of its run, unchanged, and no others |
| Daemon.Daemon.constructor | spikes/engine/kladosd.py:58-98 | an empty home: one project, no rows |
| Daemon.Daemon.ProjectOfKey | spikes/engine/kladosd.py:116-122 | the first project with the key's hash, and nobody for an empty key |
| Daemon.Daemon.Authorize | spikes/engine/kladosd.py:138-141 | 401 without a project, 403 for another's row |
| Daemon.Daemon.CreateProject | spikes/engine/kladosd.py:106-113 | any valid key adds one row, the fresh id with the hash of the new key, as one engine step; otherwise 401 and no change |
| Daemon.Daemon.CreateRun | spikes/engine/kladosd.py:276-286 | the run's row, a genesis instance's row, then the VM, as a run of engine steps; refused, nothing changes |
| Daemon.Daemon.SnapshotInstance | spikes/engine/kladosd.py:289-320 | the reply and the refusals; otherwise begin, chunk and commit as a run of engine steps: the new row with its parent and whole size, the moved pointer, the manifest, and nothing else; the invariant |
| Daemon.Daemon.ReadImage | spikes/engine/kladosd.py:173-179 | every chunk of the manifest in order, to the first failure; read whole, all of them are in the cache |
| Daemon.Daemon.ForkSnapshot | spikes/engine/kladosd.py:323-350 | the refusals; otherwise load, one step per child and one commit, for every n: a running row per child on the snapshot's run, named "branch k of n" or by what went wrong, and nothing else; the invariant |
| Daemon.Daemon.Tick | spikes/engine/kladosd.py:380-401 | the two loops of a tick are the engine's tick, in numbers for every account |
| Daemon.Daemon.DestroyInstance | spikes/engine/kladosd.py:427-435 | the VM goes and the row is marked, as one engine step; the refusals change nothing |
| WebSocket.BigEndianReadsBack | spikes/guest/browser_workload.py:83-85 | packed lengths unpack |
| WebSocket.BigEndianDigits | spikes/guest/browser_workload.py:83-85 | the most significant octet comes first |
| WebSocket.MaskingTwice | spikes/guest/browser_workload.py:86-88 | masking twice gives the payload back |
| WebSocket.MaskingIsExclusiveOr | spikes/guest/browser_workload.py:88 | bit j of octet i on the wire is set if and only if those of the payload and of mask octet i mod 4 differ |
| WebSocket.SentHeader | spikes/guest/browser_workload.py:78-88 | what is sent octet by octet: final text frame, mask bit, shortest length field, mask, masked payload |
| WebSocket.SentIsReadExactlyBelowTwo63 | spikes/guest/browser_workload.py:76-88 | a reader that insists on minimal lengths below 2^63 gets one final text frame whose unmasking by section 5.3 is the payload and nothing else, if and only if the payload is shorter than 2^63 |
| WebSocket.BoundaryIsKeptExactlyWithoutMask | spikes/guest/browser_workload.py:99-110 | `recv` ends at the next frame if and only if the frame has no mask, and then returns the frame's own result |
| WebSocket.FramesComeInOrder | spikes/guest/browser_workload.py:99-110 | successive calls return the payloads of opcodes 1 and 2 in order, None for other frames, and stay on frame boundaries |
| WebSocket.CutFramesRaise | spikes/guest/browser_workload.py:90-97 | a stream that ends inside a frame raises, wherever it was cut |
| WebSocket.FragmentsAreLost | spikes/guest/browser_workload.py:108-110 | of a fragmented message only the first part is returned: the message if and only if the rest is empty |
| WebSocket.Socket.Recv | spikes/guest/browser_workload.py:93-96 | a socket read returns any nonempty part of what is left, up to n, and nothing only at the end |
| WebSocket.WS.Send | spikes/guest/browser_workload.py:76-88 | the header grows to the frame; 2^64 octets and more are refused |
| WebSocket.WS.Read | spikes/guest/browser_workload.py:90-97 | exactly n octets whatever the pieces, or the error at the end of the stream |
| WebSocket.WS.Recv | spikes/guest/browser_workload.py:99-110 | one frame, over any split of the stream into socket reads |
| Paging.Handler.Loop | spikes/uffd/src/main.rs:150-179 | in place, the loop serves the events up to an error or a panic |
| Paging.LazyIsEager | spikes/uffd/src/main.rs:150-171 | any number of guests over one base, any interleaving of faults, loads and stores: every load sees the guest's own full copy |
| Paging.FreshGuestsSeeTheirOwnCopies | spikes/uffd/src/main.rs:150-171 | the same from the start, for page-multiple bases and regions |
| Paging.FirstTouchIsEagerExactlyWhenTailIsClean | spikes/uffd/src/main.rs:155-169 | without alignment a first touch shows the full copy everywhere if and only if the pages not served whole are zero in the base |
| Paging.SecondFaultPanicsExactlyOnCopiedPages | spikes/uffd/src/main.rs:157-165 | a second fault on a page kills the handler if and only if it is a page the handler copies |
| Paging.FaultsAreCopiedPages | spikes/uffd/src/main.rs:165-169 | the counter is the number of pages copied, each once |
| Paging.LoopBringsWhatIsAsked | spikes/uffd/src/main.rs:150-179 | a loop over any events: it panics if and only if a page it copies is asked for again before an error; if not, mapped are exactly the pages asked for, with the base's bytes or zeros |
| Percentile.PercentileIsOnTheLine | spikes/harness/metrics.py:14-16 | between 0 and 100 it never raises: the result is a point of the line through the sorted values |
| Percentile.PercentileInterpolates | spikes/harness/metrics.py:14-16 | a fraction f of the way from the j-th smallest value to the next it is (1 - f) of the one and f of the other |
| Percentile.NegativeRanksCountFromTheEnd | spikes/harness/metrics.py:15-16 | a negative whole rank picks the value counted from the end |
| Percentile.PercentilesRise | spikes/harness/metrics.py:8-16 | rising in p across segments, never outside the values |
| Percentile.PercentileMeetsTheEnds | spikes/harness/metrics.py:14-16 | the least value at 0, the greatest at 100 |
| Percentile.PercentileForgetsOrder | spikes/harness/metrics.py:11-16 | any reordering of the list gives the same outcome, for any p |
| Percentile.TooHighRaisesExactlyPastTheEnd | spikes/harness/metrics.py:14-16 | from 0 upwards it raises if and only if the rank reaches the length of the list |
| Percentile.TooLowRaisesExactlyPastTheStart | spikes/harness/metrics.py:14-16 | below 0 it raises if and only if the rank is a whole step before the first value counted from the end |
| Percentile.RoundIsNearest | spikes/harness/metrics.py:22-26 | rounding gives the nearest hundredth, of two the even one |
| Percentile.SumsAddUp | spikes/harness/metrics.py:26 | the sum behind the mean is additive and of one value that value |
| Percentile.SummaryReports | spikes/harness/metrics.py:19-27 | of a sorted list the count, the first, the median, the 99th percentile, the last and the mean, rounded |
| Percentile.SummaryOfNothing | spikes/harness/metrics.py:19-27 | of an empty list NaN for the percentiles and nothing else |
| Percentile.SummariesAreOrdered | spikes/harness/metrics.py:19-27 | min, p50, p99 and max are in order after rounding, and the mean lies between min and max |

## Left out

- ForkProtocol.WordsAreUnique: assumes that every snapshot follows a successful QUIESCE and that a wrapped call and a poller tick are one step each; the iff lemma, FineRuns and FineCaptures say what happens otherwise.
- FineRuns.AtMostOneStaleCall: assumes that SIGSTOP caught no thread holding entropy for `random.seed`, and one workload thread per guest.
- FineCaptures.CaptureIsSafeExactlyWhenNotRisky: likewise is about captures that caught no thread holding entropy for `random.seed`.
- SnapshotFiles.EverySnapshotSurvives: assumes that uploads succeed and that writing a chunk file or a manifest's closing is atomic; RefusedUploads and TornChunks say exactly what refused uploads and torn chunk files do.
- RefusedUploads.RetriesHealExactlyWhenTheTailWasCold: a refused PUT stores nothing; which uploads behind it are cancelled is any set, also ones the pool's order of work may not produce.
- TornChunks.TornFilesDecideUntilAWipe: assumes that zlib raises on every truncated stream, and that what a crash leaves of a chunk file is a proper beginning of it.
- MemImages.Images.ReconstructMem: two concurrent rebuilds of one snapshot, which take no lock and share one `.tmp` file, are not modelled; there is at most one thread per snapshot.
- EngineLaws.BeginForkLoads: the model reads the chunks at every fork, the code keeps the rebuilt `mem` file after the first.
- EngineLaws.StepKeepsInv: `LIVE` and the row of a destroyed instance change in one step, and so does each check of ownership with the reads behind it; SQLite's own locking is not modelled, so more interleavings are allowed than it grants.
- NonInterference.OtherTenantsDoNotInterfere: is about run lists, timelines and bills; timing, disk space and the daemon's memory are shared and not modelled, nor are the figures' last rounding for display and the diff request.
- Metering.AccountsAreExact: is over exact reals; `updated_at` is left out.
- Render.RenderTimeline: the text of a line beyond its row and depth, the rounding of sizes and Python's recursion limit are left out.
- WebSocket.WS.Recv: JSON parsing, the handshake and octets it may read past its end are left out.
- Paging.Handler.Loop: addresses do not wrap at 2^64; only one region, as the code has it; `parse_region` and the descriptor handover are left out.
- Percentile.SummariesAreOrdered: is over exact reals, not floats.
- Generation files hold numbers here, decimal text in the code; `_write_atomic` is one step.
- Periodic reseeding, generators and entry points the hook does not wrap, and seeds the application sets itself.
- CHECK and BROWSER_CHECK, the agent's clock setting and its branch file on /data.
- Firecracker, mount namespaces, disk layers and `fs_diff`, vsock and HTTP transport, JSON, argument parsing, the SDKs and the HTML timeline.
- AWS request signing in `s3.py`: the cold tier is a map with put and get.
- `stats` ratios, the spike drivers and their verdicts, PSS accounting.
- BLAKE2b collisions and zlib's formats: the hash is injective and decompression undoes compression.
