# Verification of the Foundry Local SDK's stateful core

This project models five parts of the Foundry Local SDKs in Dafny and proves what
they promise, for every input, every interleaving and every run.  `dafny verify
dfyconfig.toml` checks all of it.

1. **Live audio session and its queues** (`Queue.dfy`, `LiveAudioSession.dfy`,
   `LiveAudioInvariant.dfy`, `LiveAudioProperties.dfy`, `LiveAudioRely.dfy`,
   `LiveAudioCode.dfy`).  Any number of threads call Start, Append, TryGetNext and Stop
   while one worker pushes to the core.  A step is one critical section, one pass through a queue, or one core call;
   mutex owner, sleepers, woken threads and a log of core commands are explicit.
   `LiveAudioCode` has Start, Append, TryGetNext, Stop and PushWorkerLoop as methods of
   an object that changes its fields and its two queue objects in place, with any number
   of steps of other threads between any two of their own (`LiveAudioRely.dfy` says what
   these leave alone).  The object's history is a run, so all theorems about runs hold of it.
2. **Model container and lifecycle** (`VariantOrder.dfy`, `ModelLeaf.dfy`,
   `ContainerSpec.dfy`, `ContainerRuns.dfy`, `ModelContainer.dfy`, `ModelLocks.dfy`,
   `ModelLockPrograms.dfy`, `Downloads.dfy`, `DownloadCode.dfy`).  Sorted variants,
   retired leaves and a selection that are reconciled in place with a fresh container; the unregister
   transaction with its rollback; the lock order of container and leaves; the download
   counter, with the calls on a leaf as methods that others may interrupt anywhere.
3. **Catalog refresh** (`Positions.dfy`, `CatalogListing.dfy`, `PythonCatalog.dfy`,
   `PythonCatalogThreads.dfy`, `RustCatalog.dfy`).  Two refreshes that reuse old objects
   and still agree with rebuilding from the listing.
4. **ModelInfo and JSON** (`StringOrder.dfy`, `ModelInfo.dfy`, `ModelInfoShape.dfy`,
   `ModelInfoCode.dfy`).  JSON is a tree whose objects are maps (section 4 of RFC 8259).
5. **URL redaction and version markers** (`UrlRedaction.dfy`, `VersionMarkers.dfy`,
   `VersionMarkerProperties.dfy`, `NativeBuild.dfy`).  URLs
   are cut as in sections 3.2, 3.2.1, 3.4 and 3.5 of RFC 3986; the output directory is a
   map of files in which any operation may fail half-way, looking at a file and reading a
   marker included; the build script runs on it statement by statement.

The main operations are specified twice: as a step on values, over which runs and
interleavings are stated, and by what it leaves behind, said of its inputs and fields
alone (the lemmas whose names end in `Does`, `InOrder`, `Reads` and `Writes`).

What calls outside the repository answer (the core, file system, load manager, download
manager, clock, try_lock) is a parameter or an arbitrary choice of the step, so every
statement holds for all answers.

Where the code does not do what a first reading suggests, the model follows the code, and
a lemma says exactly when the expected property holds:

* A JSON round trip is not the identity; it is exactly on the normal form
  (`NormalFormIsFixed`, `FirstTripMayChange`).
* "Cached if and only if the path is non-empty" fails when ForgetCachedState comes between
  the two stores of Download (`InterruptedPublication`), and when the download manager
  answers an empty path.  Each is exact: a ForgetCachedState leaves the two in step for good
  if and only if no download is between its stores (`ForgettingNeedsNoPublication`), a
  fetch if and only if its answer is not empty (`FetchingNeedsPath`); in runs without either
  the two are in step whenever nobody is between two stores (`CachedMeansPath`).
* A variant added to a container whose last variant was retired leaves the retired leaf
  selected (`EmptiedContainerKeepsRetiredSelection`); the selection stays listed exactly if
  the container lists something (`AddNeedsVariants`).  No shipped caller reaches this: the
  catalog marks an emptied container inactive
  (sdk_v2/cpp/src/catalog/base_model_catalog.cc:566-568) and looks at active ones only
  (lines 88-90 and 208-212).
* The Rust fingerprint looks at id and cached only.  A refresh shows the fresh listing if
  and only if no surviving key keeps its fingerprint under another content
  (`MergeIsFreshExactlyWhen`), a run if and only if each key's last content was there when
  its fingerprint last changed (`RunIsFreshExactlyWhen`, `RustCatalog.RunUpdates`).
* A torn marker write can make a shorter version look current, in a run of two builds from
  an empty directory (`TornMarkerMisleads`); `GuardedMarkersAreReliableExactlyWhen` gives the
  exact condition on the configured versions, over all runs of builds that keep markers.
* An HTTP build over current packages can leave a marker beside a torn file, because a check
  that cannot look at the file or read the marker counts as stale and, unlike a restore,
  nothing removes the marker before the copy (`UnreadMarkerMisleads`).  A build keeps markers
  honest under all outcomes if and only if it restores, some package is stale, or there is
  nothing to fetch (`MarkersStayHonestExactlyWhen`); a build that succeeds always does
  (`AcquireKeeps`).  Over all runs without exception only versions that nobody can fetch are
  reliable (`MarkersAreReliableExactlyWhen`).
* A Python refresh that lists a known id under a new alias can be refused half-way; the id
  index is then already current and the time stamp is not (`RealiasedIdIsRefused`).  It is
  accepted if and only if the old wrappers' aliases and the listing agree, a condition on
  the state before the call (`Catalog.UpdateModels`, `RefusalIsForeseen`).

## Model

| member | source | states |
|---|---|---|
| ThreadSafeQueue.NoLostWakeups | sdk/cpp/src/thread_safe_queue.h:29-115 | in every run of any number of producers, consumers and closers, with time-outs, spurious wake-ups and barging: if a consumer sleeps, the queued items are no more than the consumers already woken; if a producer sleeps, the free slots are no more than the producers already woken; after a close nobody sleeps |
| ThreadSafeQueue.FifoDelivery | sdk/cpp/src/thread_safe_queue.h:29-97 | what came out followed by what is queued is exactly what went in, in order, and the queue never exceeds its capacity |
| ThreadSafeQueue.ClosedStaysClosed | sdk/cpp/src/thread_safe_queue.h:29-115 | once closed, a queue stays closed and accepts nothing more, in every run |
| ThreadSafeQueue.StepPreserves | sdk/cpp/src/thread_safe_queue.h:29-115 | every pass of every operation keeps the cover of the sleepers, the capacity bound and the FIFO history |
| ThreadSafeQueue.PushDoes | sdk/cpp/src/thread_safe_queue.h:29-63 | a pass of Push or TryPushFor enters the item at the end if and only if the queue is open and has room, and waits if and only if it is open, full and not out of time |
| ThreadSafeQueue.TryPushDoes | sdk/cpp/src/thread_safe_queue.h:41-49 | TryPush enters the item if and only if the queue is open and has room, and otherwise changes nothing |
| ThreadSafeQueue.PopDoes | sdk/cpp/src/thread_safe_queue.h:66-97 | a queued item is handed out whatever else holds; on an empty queue error goes before close, close before time-out, and only then is there waiting |
| ThreadSafeQueue.Queue.Push | sdk/cpp/src/thread_safe_queue.h:29-63 | the in-place Push is the pass of the queue runs, with some legitimate choice of the consumer that notify_one wakes |
| ThreadSafeQueue.Queue.TryPush | sdk/cpp/src/thread_safe_queue.h:41-49 | the in-place TryPush is the pass of the queue runs, and stores exactly into an open queue with room |
| ThreadSafeQueue.Queue.Pop | sdk/cpp/src/thread_safe_queue.h:66-97 | the in-place Pop is the pass of the queue runs, including the order in which error, close and items are looked at |
| LiveAudioProperties.Delivery | sdk/cpp/src/live_audio_session.cpp:99-259 | in every interleaving of any number of Start, Append, TryGetNext and Stop calls with the worker: the chunks pushed to the core are a prefix, in order and without repeats, of those Append accepted; audio_stream_stop comes at most once and after every push; if no push failed, the core has every accepted chunk when it is told to stop |
| LiveAudioProperties.AcceptedIsPushed | sdk/cpp/src/live_audio_session.cpp:99-115 | the queue's history of pushed chunks is exactly the list of chunks for which Append returned without an error |
| LiveAudioProperties.Handles | sdk/cpp/src/live_audio_session.cpp:80-224 | in every run all pushes and the stop carry one and the same handle: the session's, not empty, which the core gave out at the start |
| LiveAudioProperties.StopCanProceed | sdk/cpp/src/live_audio_session.cpp:157-259 | a Stop that has begun always has a next step: its own, or, while it joins, one of the worker, which then waits for nothing |
| LiveAudioProperties.StepComesNearer | sdk/cpp/src/live_audio_session.cpp:157-259 | once the push queue is closed, every step of the worker and of the stopping thread lowers a measure of what remains, and no step of another thread raises it |
| LiveAudioProperties.StopReturns | sdk/cpp/src/live_audio_session.cpp:157-259 | from the close of the push queue on, Stop and the worker together take at most 5n + 13 steps for n queued chunks, whatever other threads do |
| LiveAudioProperties.ClosingReleasesEverybody | sdk/cpp/src/live_audio_session.cpp:157-172 | behind the closing steps of Stop both queues are closed and nobody is asleep on them |
| LiveAudioProperties.BlockedAppendHasHelp | sdk/cpp/src/live_audio_session.cpp:99-115 | an Append blocked on a full queue is never abandoned: another thread can step |
| LiveAudioProperties.Results | sdk/cpp/src/live_audio_session.cpp:117-257 | readers together get the stored results in FIFO order, none lost or repeated; the final result is handed out at most once, after all of them, only when the result queue is closed and drained, and is the one the core answered to the stop |
| LiveAudioProperties.StoredIsPushed | sdk/cpp/src/live_audio_session.cpp:243-257 | the result queue's history is exactly the list of results that the worker stored; results that do not fit or come after the close are not in it |
| LiveAudioProperties.StoreDoes | sdk/cpp/src/live_audio_session.cpp:243-250 | from every state of the invariant: a result that the worker stores while the result queue is open and has room is the next one in it, and otherwise it is dropped |
| LiveAudioProperties.RepliesAreStored | sdk/cpp/src/live_audio_session.cpp:206-257 | in every run in which each store meets an open result queue with room, the stored results are the results with which the core answered the pushes, in the order of the log, but for the one the worker has in hand |
| LiveAudioInvariant.StepKeepsInv | sdk/cpp/src/live_audio_session.cpp:41-259 | every step of every thread keeps mutex ownership, the waiters of both queues, delivery, stop order, handles and results consistent |
| LiveAudioInvariant.RunKeepsInv | sdk/cpp/src/live_audio_session.cpp:41-259 | the same over whole runs |
| LiveAudioRely.StepRely | sdk/cpp/src/live_audio_session.cpp:41-259 | what a step of anybody else leaves to the threads of a given set, from every state of the invariant: their places in their calls; to a running worker its place, log, error and a closed queue's items, and to it whoever joins it; to a stopping thread, once the worker is done, log, final result and error; and nobody takes back a stop, a close or a stored final result |
| LiveAudioCode.Session.Start | sdk/cpp/src/live_audio_session.cpp:41-97 | on the object's own fields and queues, waiting for the mutex if another thread owns it, while other threads take any steps in between: true exactly for a new session, a positive capacity and an answer with a handle that is not empty; then the session is started under that handle with empty queues and nothing accepted; a failed start can be tried again |
| LiveAudioCode.Session.Append | sdk/cpp/src/live_audio_session.cpp:99-115 | under the same interference, waiting for the mutex if another thread owns it: refused unless started; accepted means that the chunk is the last one of the accepted ones of the whole history; rejected means that the queue is closed; asleep means that it is full and open |
| LiveAudioCode.Session.TryGetNext | sdk/cpp/src/live_audio_session.cpp:117-147 | under the same interference: what each of its outcomes means for the queue, and that a result handed out follows all earlier ones in FIFO order, the final one after every stored result and as the core answered it to the stop |
| LiveAudioCode.Session.PushWorkerLoop | sdk/cpp/src/live_audio_session.cpp:206-259 | under the same interference, from wherever the worker is, on an open queue for any number of turns: once somebody closes the push queue it ends; then, without a failed push the core has everything accepted; a failed push was the last command, the result queue carries an error, and the recorded message is that push's; who joins still waits |
| LiveAudioCode.Session.Stop | sdk/cpp/src/live_audio_session.cpp:149-204 | under the same interference it returns: nothing unless started; otherwise stopped, worker done, both queues closed, the stop with this handle and answer the last command, everything accepted pushed unless a push failed, and the answer's result stored and flagged or already read, or its error in the result queue |
| VariantOrder.BetterIsTransitive | sdk_v2/cpp/src/model.cc:85-108 | the comparator is transitive |
| VariantOrder.BetterIsIrreflexive | sdk_v2/cpp/src/model.cc:85-108 | no entry is better than itself |
| VariantOrder.BetterIsTotal | sdk_v2/cpp/src/model.cc:85-108 | of two entries with different ids exactly one is better |
| VariantOrder.NotBetterIsTransitive | sdk_v2/cpp/src/model.cc:85-108 | the comparator is the strict weak order that std::sort and std::upper_bound demand, equal ids included |
| VariantOrder.CaseIsIrrelevant | sdk_v2/cpp/src/model.cc:38-79 | the device priority of an id does not depend on its letter case |
| VariantOrder.GenericIsNotVendor | sdk_v2/cpp/src/model.cc:50-79 | an id with a generic GPU also matches the vendor GPU test, and the order of the tests keeps it out of the vendor priority |
| VariantOrder.DevicePriorities | sdk_v2/cpp/src/model.cc:50-79 | for ids of the documented form: NPU, vendor GPU, CUDA GPU, generic GPU, vendor CPU, generic CPU, in this order, whatever the name and the version hold but colons |
| VariantOrder.BetterIsLexicographic | sdk_v2/cpp/src/model.cc:85-108 | of device, version and time stamp the first that tells two entries apart decides, then the id |
| VariantOrder.NewerIsBetter | sdk_v2/cpp/src/model.cc:85-108 | on one device the higher version comes first, and of one version the later entry |
| StringOrder.LessIsLexicographic | sdk_v2/cpp/src/model.cc:107-107 | ids are compared at their first difference, and a beginning comes before the whole |
| VariantOrder.SortedIsUnique | sdk_v2/cpp/src/model.cc:85-108 | with distinct ids there is only one best-first arrangement of given rows |
| VariantOrder.AddAllSorts | sdk_v2/cpp/src/model.cc:214-230 | adding variants one by one sorts them and keeps them all |
| VariantOrder.InsertionOrderIsIrrelevant | sdk_v2/cpp/src/model.cc:214-230 | with distinct ids any insertion order gives the same list |
| ContainerSpec.MatchedRows | sdk_v2/cpp/src/model.cc:251-269 | kept and appended variants have exactly the rows (metadata and path) of the fresh listing, with multiplicities |
| ContainerSpec.MatchedLeaves | sdk_v2/cpp/src/model.cc:251-269 | every current leaf is kept or dropped, once, and appended leaves come from the fresh listing |
| ContainerSpec.KeptWhenListed | sdk_v2/cpp/src/model.cc:251-264 | a variant is kept if and only if fewer variants before it share its row than the fresh listing holds |
| ContainerRuns.StepKeepsLists | sdk_v2/cpp/src/model.cc:214-398 | add (also to an emptied container), reconcile, retire, select and default selection keep: each placed leaf in exactly one list once, retired leaves inactive, the list sorted |
| ContainerRuns.RunKeepsLists | sdk_v2/cpp/src/model.cc:214-398 | the same over whole runs, with any answers of file system and load manager |
| ContainerRuns.StepKeepsSelection | sdk_v2/cpp/src/model.cc:214-398 | every operation but an add to an emptied container keeps the selection listed, and an explicit selection the last choice |
| ContainerRuns.RunKeepsSelection | sdk_v2/cpp/src/model.cc:214-398 | the same over whole runs in which nobody adds to an emptied container; no shipped caller does, see sdk_v2/cpp/src/catalog/base_model_catalog.cc:566-568 |
| ContainerRuns.NewContainerInv | sdk_v2/cpp/src/model.cc:130-137 | a new container satisfies all of it |
| ContainerRuns.RunKeepsHandles | sdk_v2/cpp/src/model.cc:232-346 | over whole runs no placed leaf is lost and the retired list only grows at its end |
| ContainerRuns.RetiredForGood | sdk_v2/cpp/src/model.cc:261-263 | a retired leaf stays retired and inactive and never comes back |
| ContainerRuns.ReconcileReplaces | sdk_v2/cpp/src/model.cc:232-287 | reconciling leaves exactly the incoming multiset of (metadata, path) rows, best-first |
| ContainerRuns.ReconcileMatchesFreshContainer | sdk_v2/cpp/src/model.cc:232-287 | with distinct ids it leaves exactly the list that a container built from scratch would hold |
| ContainerRuns.ListedLeafStays | sdk_v2/cpp/src/model.cc:232-287 | with distinct ids, a leaf whose metadata and path stay listed is the same object after any run |
| ContainerRuns.ExplicitChoiceStays | sdk_v2/cpp/src/model.cc:246-286 | an explicit choice survives every run of reconciles that list it, retirements of others, refused selections and preserving default selections |
| ContainerRuns.AddNeedsVariants | sdk_v2/cpp/src/model.cc:214-230 | AddVariant keeps the selection listed if and only if the container lists something; on an emptied one it does not |
| ContainerRuns.EmptiedContainerKeepsRetiredSelection | sdk_v2/cpp/src/model.cc:316-346 | the concrete case: retire the only variant, add another, and the retired leaf is still selected |
| ContainerRuns.DefaultIsBest | sdk_v2/cpp/src/model.cc:364-398 | the one-pass default choice is the comparator's minimum among the eligible cached variants, else among the eligible ones, else among all |
| ContainerRuns.ReselectedIsBest | sdk_v2/cpp/src/model.cc:275-285 | what a reconcile or a retirement selects anew is the comparator's minimum among the cached variants, else among all |
| ContainerRuns.AddDoes | sdk_v2/cpp/src/model.cc:214-230 | an added variant is inserted into the list, which stays best-first, and nothing else changes |
| ContainerRuns.ReconcileDoes | sdk_v2/cpp/src/model.cc:232-287 | what a reconcile leaves, said of the fields: the incoming rows best-first; exactly the leaves that are gone retired and deactivated; a listed selection kept if it was explicit, pinned or loaded, and otherwise the first cached variant selected, or the first; explicit only if kept |
| ContainerRuns.RetireDoes | sdk_v2/cpp/src/model.cc:316-346 | what a retirement leaves, said of the fields: the first variant with the id goes; the selection changes only if it was that variant, to the first cached one or the first, or if it was the last |
| ContainerRuns.DefaultDoes | sdk_v2/cpp/src/model.cc:364-398 | what a default selection leaves, said of the fields: an explicit, busy, downloading, pinned or loaded selection stays if that is asked for; otherwise the first eligible cached variant is selected, else the first eligible one, else the first; and whether any is eligible is noted |
| ModelContainer.Container.AddVariant | sdk_v2/cpp/src/model.cc:214-230 | the new state is the step of the runs: inserted at the upper bound, selection untouched |
| ModelContainer.Container.TryReconcileVariants | sdk_v2/cpp/src/model.cc:232-287 | refused for another alias, false and no change while unregister runs, otherwise the reconcile step of the runs; the incoming container is emptied |
| ModelContainer.Container.RetireVariant | sdk_v2/cpp/src/model.cc:316-346 | the new state is the retire step of the runs; true exactly while variants remain |
| ModelContainer.Container.SelectDefaultVariant | sdk_v2/cpp/src/model.cc:364-398 | the selection becomes the comparator's minimum among the eligible cached variants, else among the eligible ones, else among all, unless it is to be preserved and is explicit, being loaded, downloading, pinned or loaded, and exactly then the call says false |
| ModelContainer.Container.SelectVariant | sdk_v2/cpp/src/model.cc:914-931 | only a listed leaf can be selected, and then explicitly |
| ModelContainer.Container.BeginUnregister | sdk_v2/cpp/src/model.cc:847-897 | all or nothing: it succeeds exactly if container and every listed leaf accept; on a refusal every mutex and flag already taken is back as it was |
| ModelContainer.Container.EndUnregister | sdk_v2/cpp/src/model.cc:899-912 | it releases exactly the leaves that were locked, in whatever list they are now |
| ModelContainer.Container.Unregister | sdk_v2/cpp/src/catalog/local_model_catalog.cc:355-400 | begin, look for loaded leaves, persist, commit, end: it changes the container exactly if nothing refuses, and no mutex stays held |
| ModelLeaf.Leaf.BeginUnregister | sdk_v2/cpp/src/model.cc:886-897 | a leaf keeps its mutex and sets its flag exactly if it is active, not unregistering and not loading |
| ModelLocks.NoDeadlock | sdk_v2/cpp/src/model.h:253-262 | threads whose programs keep the documented order never deadlock, in any number and under any schedule |
| ModelLocks.SomebodyCanStep | sdk_v2/cpp/src/model.h:253-262 | from any waiting thread, following mutex owners leads to a thread that can go on |
| ModelLocks.EveryCallReturns | sdk_v2/cpp/src/model.h:253-262 | every run has a bounded length and can only end with every call returned and every mutex free |
| ModelLockPrograms.CallKeepsOrder | sdk_v2/cpp/src/model.cc:232-932 | Load, Unload, reconcile, edits, default selection, deactivation, unregister and the leaf operations all keep the order on every path |
| ModelLockPrograms.CallOwns | sdk_v2/cpp/src/model.cc:232-932 | each of these calls has a path on which it comes to own what it works under: a load the container's and the leaf's lifecycle mutex, a reconcile both lists, an unregister the container's and every leaf's lifecycle mutex at once |
| ModelLockPrograms.ModelCallsNeverDeadlock | sdk_v2/cpp/src/model.cc:232-932 | any number of threads in any of these calls: some thread can step until all have returned and all mutexes are free, within a bounded number of steps |
| Downloads.CounterIsWindow | sdk_v2/cpp/src/model.cc:577-588 | in every run, with failing and cancelled downloads, the counter equals the number of threads inside a download |
| Downloads.DownloadsAreLeftAlone | sdk_v2/cpp/src/model.cc:674-836 | while the counter is not zero no step of RemoveFromCache or UpdateCachedState changes path or mark |
| Downloads.StepKeepsInv | sdk_v2/cpp/src/model.cc:570-836 | every step keeps the counter right, one owner of the lifecycle mutex, and a checked remover or updater alone |
| Downloads.CachedMeansPath | sdk_v2/cpp/src/model.cc:614-619 | in runs in which fetches find a path and nobody forgets it between the two stores of a download, the leaf is marked cached exactly when it has a path, whenever nobody is between two stores |
| Downloads.ForgettingNeedsNoPublication | sdk_v2/cpp/src/model.cc:712-726 | from every state of the invariant: behind a ForgetCachedState path and mark stay in step in all orderly runs to come if and only if the leaf is external or no download is between its two stores; otherwise there is a run that ends settled and out of step |
| Downloads.FetchingNeedsPath | sdk_v2/cpp/src/model.cc:614-619 | from every state of the invariant: behind a finished fetch path and mark stay in step in all orderly runs to come if and only if the path found is not empty |
| Downloads.InterruptedPublication | sdk_v2/cpp/src/model.cc:614-619 | the concrete run in which the leaf ends marked cached without a path |
| DownloadCode.CachedLeaf.Download | sdk_v2/cpp/src/model.cc:570-620 | on the object's own fields, while other threads take any steps in between: on every way out the caller has left the window and the counter is the number of the others in it; left alone, the call leaves counter and threads as found and stores path and mark exactly if it is active, not external, not already cached and the fetch succeeds |
| DownloadCode.CachedLeaf.RemoveFromCache | sdk_v2/cpp/src/model.cc:802-836 | under the same interference: if files were removed, nobody can have published in between, and the call ends without path, mark or download; left alone, it removes exactly an active, own leaf without downloads whose checks pass |
| DownloadCode.CachedLeaf.UpdateCachedState | sdk_v2/cpp/src/model.cc:674-688 | under the same interference: a path taken over is still there when the call ends, with no download under way; left alone, it is taken over exactly under the five conditions, and an equal path leaves the mark alone |
| DownloadCode.CachedLeaf.ForgetCachedState | sdk_v2/cpp/src/model.cc:712-726 | under the same interference: without a download under way the leaf is left without path and mark; left alone always, unless external |
| DownloadCode.CachedLeaf.RefreshCachedState | sdk_v2/cpp/src/model.cc:690-710 | under the same interference: a cached leaf without downloads is left alone; left alone, a completed download is published exactly for an active, own leaf that is not cached |
| CatalogListing.GroupByAlias | sdk/python/src/catalog.py:77-81 | listed ids, groups in list order, and aliases in the order of their first occurrence |
| CatalogListing.GroupInOrder | sdk/python/src/catalog.py:77-81 | a group is all listed entries of the alias and no others, in list order |
| CatalogListing.AliasOrderIsFirst | sdk/python/src/catalog.py:77-81 | every alias stands once, where it is first listed |
| CatalogListing.LatestIsLast | sdk/python/src/catalog.py:88-91 | the entry that a wrapper shows is the last one listed with its id |
| CatalogListing.FirstAliasIsFirst | sdk/python/src/catalog.py:92-95 | the alias for which a wrapper is made is that of the first entry listed with its id |
| PythonCatalog.PreferredIsFirstCached | sdk/python/src/detail/model.py:29-46 | a new group selects its first cached variant in list order |
| PythonCatalog.Catalog.Apply | sdk/python/src/catalog.py:77-106 | after a refresh id keys and alias keys are exactly those listed and each alias holds the id index's own objects in list order |
| PythonCatalog.Catalog.UpdateModels | sdk/python/src/catalog.py:54-109 | skipped while fresh and not forced; an error or a bad list changes nothing; a refresh leaves both indexes in agreement with the listing; a refused alias raises with the id index already current and nothing stamped |
| PythonCatalog.RefusalIsForeseen | sdk/python/src/catalog.py:97-104 | which refreshes are refused can be told before the call: the test on the groups built after the id index was refreshed equals a test on the old indexes and the listing |
| PythonCatalog.NoneRefusedWhenAliasesStay | sdk/python/src/catalog.py:97-104 | no alias is refused while no id is listed under another alias than the one its wrapper was made for |
| PythonCatalog.RealiasedIdIsRefused | sdk/python/src/catalog.py:54-106 | the concrete case: x known under A, then y and x listed under a new alias; the refresh raises with the id index already current and the listing not stamped |
| PythonCatalog.RunUpdates | sdk/python/src/catalog.py:54-106 | over any run of refreshes with any clock and any answers, skipped, failed, invalid and refused ones included: an id or alias that every applied listing contains stands for the object it stood for at the start |
| PythonCatalog.RefreshKeepsVariants | sdk/python/src/catalog.py:83-95 | one refresh keeps the objects of listed ids |
| PythonCatalog.RefreshKeepsModels | sdk/python/src/catalog.py:85-106 | one refresh keeps the objects of listed aliases |
| PythonCatalog.Catalog.ResolveKnown | sdk/python/src/catalog.py:220-225 | the wrappers of all known ids and of no others, each as often as it is given and in the order given |
| PythonCatalogThreads.ListedAliasIsFound | sdk/python/src/catalog.py:123-140 | an alias that the core lists throughout a get_model call is found by it, unless it raises, under any interleaving with other refreshes and single dictionary writes |
| PythonCatalogThreads.RunKeepsTracked | sdk/python/src/catalog.py:54-140 | what makes it so: from the forced refresh on the alias is present and no refresh under way is going to delete it |
| PythonCatalogThreads.AnswerIsPresence | sdk/python/src/catalog.py:130-140 | a call answers what the dictionary holds at that moment, and says that an alias is missing only behind its forced refresh |
| PythonCatalogThreads.FoundWasPresent | sdk/python/src/catalog.py:123-140 | a call that finds an alias has seen it in the dictionary between call and answer, in every interleaving |
| PythonCatalogThreads.OnlyFailureRaises | sdk/python/src/catalog.py:64-106 | a call raises only when its fetch fails or an alias is refused |
| RustCatalog.ReuseIsInvisible | sdk/rust/src/catalog.rs:316-340 | if everything but cached is fixed per id, putting old objects back shows the same keys and ModelInfo sequences as building from scratch |
| RustCatalog.RunShowsLastListing | sdk/rust/src/catalog.rs:276-347 | the same after any run of refreshes: what both maps show is what the last listing alone gives |
| RustCatalog.KeptExactlyWhenUnchanged | sdk/rust/src/catalog.rs:362-373 | a surviving key keeps its object if and only if its (id, cached) sequence is unchanged |
| RustCatalog.MergeIsFreshExactlyWhen | sdk/rust/src/catalog.rs:316-373 | one refresh shows the fresh listing if and only if no surviving key has the same fingerprint and another content |
| RustCatalog.RunIsFreshExactlyWhen | sdk/rust/src/catalog.rs:276-373 | a run of refreshes shows its last listing if and only if every key of it had that content already when its fingerprint last changed |
| RustCatalog.SinceIsUnbroken | sdk/rust/src/catalog.rs:362-373 | since when a fingerprint has not changed: from there on it never does, and just before it was another one |
| RustCatalog.ListedInOrder | sdk/rust/src/catalog.rs:261-281 | the applied listings are the listings among the answers, all of them and in their order |
| RustCatalog.RunUpdates | sdk/rust/src/catalog.rs:261-347 | one catalog refreshed with any answers of the core, errors included: both maps show the last listing if and only if nothing has changed behind a fingerprint, and so if all fields but cached are fixed per id; a key whose fingerprint never changes keeps its object |
| RustCatalog.ChangesAreSeenWithCached | sdk/rust/src/catalog.rs:356-361 | derived for one id: a change of another field is shown if and only if cached changes with it; the documentation calls such fields immutable |
| RustCatalog.FingerprintDetermines | sdk/rust/src/catalog.rs:362-373 | with fixed fields a fingerprint determines the whole sequence |
| RustCatalog.FirstCachedIsFirst | sdk/rust/src/detail/model.rs:159-179 | a fresh group selects its first cached variant |
| RustCatalog.Catalog.Build | sdk/rust/src/catalog.rs:283-301 | the build loop groups in list order; a repeated id ends with its last entry |
| RustCatalog.Catalog.ApplyModelList | sdk/rust/src/catalog.rs:276-347 | both maps are the merge of the old ones with freshly built ones that show exactly the listing |
| ModelInfoJson.TripNormalises | sdk_v2/cpp/src/model_info.cc:83-379 | writing a ModelInfo and reading it back gives exactly the normalised ModelInfo, for every ModelInfo |
| ModelInfoJson.NormalFormIsFixed | sdk_v2/cpp/src/model_info.cc:83-379 | a trip changes nothing if and only if the ModelInfo is in normal form: typed task, provider and device agree with the bags where these would refill them, no empty pair keys, boolean-like integers at most 1 |
| ModelInfoJson.SecondTripIsIdentity | sdk_v2/cpp/src/model_info.cc:83-379 | the result of a trip is in normal form and every later trip is the identity |
| ModelInfoJson.FirstTripMayChange | sdk_v2/cpp/src/model_info.cc:360-364 | the first trip is not the identity: a tool-calling integer of 5 comes back as 1 |
| ModelInfoCode.WriteModelInfo | sdk_v2/cpp/src/model_info.cc:216-379 | statement by statement, ModelInfoToJson writes the specified tree, and key by key what ToJsonWrites says |
| ModelInfoCode.ReadModelInfo | sdk_v2/cpp/src/model_info.cc:83-209 | statement by statement, ModelInfoFromJson reads every JSON tree as specified, and key by key as FromJsonReads says |
| ModelInfoCode.WriteAndRead | sdk_v2/cpp/src/model_info.cc:83-379 | the two methods together return the normalised ModelInfo, and the same one exactly on the normal form |
| ModelInfoCode.ReadStringBag | sdk_v2/cpp/src/model_info.cc:113-119 | reading the string bag keeps task, provider and device in step with it |
| ModelInfoCode.SetKeepsInStep | sdk_v2/cpp/src/model_info.cc:381-391 | SetPropertyStr keeps the typed fields in step with the string properties |
| ModelInfoJson.StringsAfterTrip | sdk_v2/cpp/src/model_info.cc:129-146 | named string fields read on top of the bag give back the string properties |
| ModelInfoJson.IntsAfterTrip | sdk_v2/cpp/src/model_info.cc:188-204 | named integer and boolean fields read on top of the bag change only the boolean-like integers |
| ModelInfoJson.DeviceTrip | sdk_v2/cpp/src/model_info.cc:16-46 | a device type survives its text form |
| ModelInfoShape.FromJsonReads | sdk_v2/cpp/src/model_info.cc:83-209 | on every JSON tree: a named string that is not empty is its property, a named number or truth value likewise, the test mark sets its own, and every other property is the bag's; the runtime goes before the bag for device and provider, the named task before the bag's; of several settings with one name the last wins; what is missing or of another type is skipped |
| ModelInfoShape.ToJsonWrites | sdk_v2/cpp/src/model_info.cc:216-379 | for every ModelInfo: each key that is written, under which condition and with which value, the bags and the test mark included, and no other key |
| ModelInfoShape.SortedKeysAscend | sdk_v2/cpp/src/model_info.cc:315-328 | parameters are written in ascending order of their names |
| UrlRedaction.RedactUrlsInText | sdk_v2/rust/build_support.rs:181-195 | the loop with its growing buffer terminates and returns the text with exactly the scanned URLs redacted and everything else copied |
| UrlRedaction.TokensCover | sdk_v2/rust/build_support.rs:181-195 | plain stretches and URLs of the scan are the whole text in order |
| UrlRedaction.RedactedCut | sdk_v2/rust/build_support.rs:181-195 | redacting one URL moves no earlier URL start and no URL end: the redacted text is cut at the same places |
| UrlRedaction.ScanOfRedacted | sdk_v2/rust/build_support.rs:181-210 | scanning the redacted text finds exactly the old stretches, with each URL redacted |
| UrlRedaction.RedactionIsIdempotent | sdk_v2/rust/build_support.rs:181-195 | redacting twice is redacting once, on every text |
| UrlRedaction.NothingLeftToRedact | sdk_v2/rust/build_support.rs:167-195 | every URL that the scan finds in the output has no user information, query or fragment and is a fixed point of redact_url |
| UrlRedaction.FixedMeansClean | sdk_v2/rust/build_support.rs:167-179 | redact_url leaves a string alone if and only if it has no user information, query or fragment behind its scheme |
| UrlRedaction.RedactKeepsHostAndPath | sdk_v2/rust/build_support.rs:167-179 | for every scheme, user information, host, path and query or fragment: the result is scheme, host and path, to the last character |
| UrlRedaction.FirstUrlKeepsHostAndPath | sdk_v2/rust/build_support.rs:181-195 | in a text: the first URL becomes its scheme, host and path, and what stands around it stays |
| UrlRedaction.CutIsFound | sdk_v2/rust/build_support.rs:181-210 | the scan's first URL starts at the first scheme in any letter case and ends in front of the first whitespace, quote or angle bracket |
| UrlRedaction.RedactedIsClean | sdk_v2/rust/build_support.rs:167-179 | the result of redact_url has none of them |
| UrlRedaction.RedactedParts | sdk_v2/rust/build_support.rs:171-178 | host and path of the result come from the URL and hold no separator of the removed parts |
| UrlRedaction.FirstUrl | sdk_v2/rust/build_support.rs:197-210 | find_url_start finds the earliest http or https scheme in any letter case, if there is one |
| VersionMarkerProperties.CurrentIsStaged | sdk_v2/rust/build_support.rs:255-259 | with honest markers, a package reported current has on disk the whole expected file of that version, if no other version has a beginning that reads like it |
| VersionMarkerProperties.StageShape | sdk_v2/rust/http_extract.rs:74-84 | staging, however each copy ends, touches no marker and no other package; success leaves the whole expected file |
| VersionMarkerProperties.StageDoes | sdk_v2/rust/http_extract.rs:74-84 | staging that succeeds has copied every file of the package wholly, and never touches any other file or any marker |
| VersionMarkerProperties.TrimDoes | sdk_v2/rust/build_support.rs:255-259 | trimming takes whitespace off both ends of a marker and nothing else |
| VersionMarkerProperties.RecordKeeps | sdk_v2/rust/build_support.rs:261-269 | behind a finished copy, recording keeps markers honest if it succeeds or replaces no marker, even when the write is torn |
| VersionMarkerProperties.DownloadKeeps | sdk_v2/rust/build.rs:244-290 | download_and_extract with a check that may fail to look or read: other packages are left alone; success means staged and recorded now, or current and untouched; markers stay honest if it succeeds, if the package had no marker, or if there is nothing to fetch |
| VersionMarkerProperties.DownloadDoes | sdk_v2/rust/build.rs:244-290 | success means that the package was current and nothing was done, or that all files of the first feed that yields any are staged and the version recorded; if no file operation fails, it succeeds if and only if the package is current or some feed yields files for a version that is not blank |
| VersionMarkerProperties.StageRestoredDoes | sdk_v2/rust/build.rs:323-356 | success means that all restored files are staged and the version recorded; if no file operation fails, it succeeds if and only if the expected file is among them |
| VersionMarkerProperties.StageRestoredKeeps | sdk_v2/rust/build.rs:323-356 | a restored package: file and marker go before anything is staged, and markers stay honest however it ends, the look behind the staging included |
| VersionMarkerProperties.ResetRemoves | sdk_v2/rust/build_support.rs:275-304 | a reset that succeeds has found everything current and done nothing, or has removed exactly the native files and the configured markers; a cut one only loses some; a look or read that fails counts as stale |
| VersionMarkerProperties.MissingIsStale | sdk_v2/rust/build.rs:292-297 | only current packages are left out, the others stay in order; none but stale ones are listed if every look and read succeeds |
| VersionMarkerProperties.DownloadAllKeeps | sdk_v2/rust/build.rs:576-599 | the HTTP loop, also over standing markers: it keeps them honest if it succeeds, if no package has one, or if there is nothing to fetch; success means every package was staged and recorded by it, or was current and is untouched |
| VersionMarkerProperties.RestoreAllKeeps | sdk_v2/rust/build.rs:385-461 | the dotnet and nuget loops keep markers honest wherever they stop, for any list of missing packages; success means all of these are staged and recorded |
| VersionMarkerProperties.AcquireKeeps | sdk_v2/rust/build.rs:566-606 | a build, whatever file operation fails or is cut short, looks and reads included: success means every package was staged and recorded by it, or all were current before and this one is untouched; markers stay honest if it succeeds, restores, finds something stale, or has nothing to fetch |
| VersionMarkerProperties.UndisturbedBuildSucceedsExactlyWhen | sdk_v2/rust/build.rs:566-606 | if no file operation fails, a build succeeds if and only if all is current or every package can be had |
| VersionMarkerProperties.MarkersStayHonestExactlyWhen | sdk_v2/rust/build.rs:566-606 | from every good directory: a build keeps markers honest under all outcomes of its file operations if and only if it restores, or some package is stale, or no wanted package with a version that is not blank has a feed that yields files |
| VersionMarkerProperties.BreaksMarkers | sdk_v2/rust/build.rs:244-290 | in every other case, the outcomes that leave a marker beside a torn file: a look that fails behind a reset that found all current, and a copy cut short |
| VersionMarkerProperties.AfterBuildsKeep | sdk_v2/rust/build.rs:545-606 | any sequence of builds keeps markers honest in which each keeps markers in this sense or succeeds; and over every sequence markers and files come from configured versions only |
| VersionMarkerProperties.GuardedMarkersAreReliableExactlyWhen | sdk_v2/rust/build_support.rs:255-269 | over all such runs of builds from an empty directory: being current means that the whole file of that version is there, if and only if no other configured version, cut anywhere and trimmed, equals it; otherwise one torn build reaches the opposite |
| VersionMarkerProperties.MarkersAreReliableExactlyWhen | sdk_v2/rust/build_support.rs:255-269 | over all runs of builds from an empty directory without exception: if and only if besides the version is not one that can be configured, recorded and fetched |
| VersionMarkerProperties.TornMarkerMisleads | sdk_v2/rust/build_support.rs:261-269 | the concrete run from an empty directory: a restore of 1.20 whose marker is torn after 1.2 fails, and a later build that wants 1.2 succeeds without doing anything |
| VersionMarkerProperties.UnreadMarkerMisleads | sdk_v2/rust/build.rs:244-290 | the concrete run from an empty directory: a restore succeeds, an HTTP build of the same version whose second check cannot look at the file has its copy cut short, and any later build of that version succeeds over the torn file without doing anything |
| NativeBuild.OutDir.AcquireNative | sdk_v2/rust/build.rs:566-606 | the build script's statements on a directory changed in place do what the specification of a build says, with the same promises |
| NativeBuild.RunBuilds | sdk_v2/rust/build.rs:545-606 | over any sequence of builds that keep markers or succeed, a package reported current has on disk the whole expected file staged from that version, if no other version has a beginning that reads like it |

## Left out

- ContainerRuns.Enabled: a fresh listing must not be empty, because the code dereferences the end of the list otherwise; likewise a default selection needs a variant.
- ModelContainer.Container.BeginUnregister: running out of memory while the snapshot of the variants is taken is not modelled.
- ModelContainer.SortVariants: std::sort is any method that leaves a best-first arrangement of the same leaves; which one it picks among equal ranks stays open.
- ModelLockPrograms.Reconcile: std::scoped_lock takes its two mutexes in a fixed order here; the second belongs to a container that only this thread knows.
- ModelLocks.NoDeadlock: mutexes of the load manager, of the catalog, of registrations and those taken inside the default-variant refresh callback are not part of this model.
- RustCatalog.Catalog.ApplyModelList: says nothing about freshness, because the invalidation flag is consumed before the fetch and a failed fetch or a second thread can miss it.
- VersionMarkers.Acquire: copying from a local directory is not part of this model, because it copies before it clears markers; packages are taken not to ship each other's expected file.
- PythonCatalogThreads.ListedAliasIsFound: says what a call returns, not that it returns; fairness of the lock is not modelled.
- LiveAudioCode.Session.Append: ends at the latest where the caller falls asleep in front of a full queue, and TryGetNext likewise in front of an empty one; their further passes are steps of the runs.
- The session's settings beyond the queue capacity, its destructor, which stops a started session, and a Start whose thread cannot be created.
- LiveAudioProperties.Results: results dropped because the result queue is full or closed are not among the stored ones, and a reader may see Closed before the final result is there, as in the code.
- Smaller steps of downloads: entering one (lock, look, count, unlock) is one step; the two stores of ForgetCachedState, UpdateCachedState and RefreshCachedState under the state mutex are one step each.
- Reserving storage for a retirement, published path strings that outlive a refresh, IO descriptors and capturing execution models.
- The wrapper objects' own download, load and client operations in Python and Rust.
- JSON text, UTF-8 encoding and property names beyond the ones the conversions know; strings are character sequences.
- Reading archives, running dotnet and nuget, and contacting feeds: only which native files they yield.
- C API wrappers, C#, JS and Java bindings, the web service, telemetry, samples and packaging.
