# A verified model of testring's concurrent and language-like cores

testring runs browser tests in many worker processes. This project models the parts of it whose
correctness depends on whole runs, on graphs, or on two translations agreeing, and proves what they
keep and exactly when they fail to keep it.

- **File store** (`Queue`, `MultiLock`, `LockPool`, `FilePermission`, `FilePermissionResolver`,
  `FileStore`, `FileStoreServer`). Every file has a lock pool, an exclusive access queue and an unlink
  queue; a bounded slot pool sits behind all files. `FilePermission` and `LockPool` are transition
  systems with grant histories; `FileStore` composes any number of files with one pool and cuts the
  asynchronous handlers at their awaits. The classes are proved, method by method, to perform the steps
  of these systems.
- **Test run scheduler** (`TestRunController`). Any number of workers pull from one queue and push
  retries back, in any interleaving.
- **Dependency dictionary and sandbox** (`DependencyBuilder`, `Sandbox`). A depth-first walk over a
  possibly cyclic module graph, and the loader that follows the resulting dictionary.
- **Serializer** (`Serializer`, `SerializedGraph`). Heap graphs with sharing and cycles are encoded into
  messages and decoded again.
- **Element paths** (`ElementPath`, `XPath`, `ElementPathXPath`, `ShadowElementPath`). The query parser,
  its printer, the translation to XPath 1.0 conditions and the one to CSS attribute selectors.
- **Browser proxy and log queue** (`BrowserProxyWorker`, `BrowserProxyController`, `LoggerServer`).

`dafny verify dfyconfig.toml` checks everything.

## Where the code does not do what one would expect

The model follows the code. Where a natural expectation, or a comment in the code, is not met, a lemma
says exactly when.

- The header of `FilePermissionResolver.ts` has unlinks granted one at a time. The code grants a second
  unlink whenever it is requested while one is outstanding (`UnlinksOverlapIff`,
  `TwoUnlinksOutstanding`).
- An unlink can be granted during an active access, because only locks mark the file as busy
  (`UnlinkDuringAccessIff` for every step of every run, `UnlinkDuringAccess`). Accesses that still wait
  at that moment wait for ever (`StrandedForEver`, `WaitingAccessCanBeStranded`).
- An unlock that nobody holds can set a deleted file back to free, after which locks are granted again
  (`StaleUnlockRevivesIff`, `StaleUnlockBreaksDeletionIff`, `UnlockRevivesDeleted`).
- A release closure that is run twice clears the flag of whoever is active. Some legal run that follows
  then has two agents in the file exactly when another access is active, nothing has been deleted, and a
  request waits, a lock is held, or no unlink waits (`StaleReleaseBreaksExclusionIff`). A waiting request
  joins at once (`SecondReleaseLetsTwoIn`), and else the next request does (`StaleReleaseThenAccess`,
  `NextAccessJoins`). The run theorems therefore ask clients to release only what they hold.
- `LockPool.release` withdraws every matching request but answers only the first
  (`ReleaseLosesNothingIff`, `EmptyIdsCanBeLost`), and it leaves the name of a withdrawn request
  registered, so the request cannot be made again (`RejectedIffTaken`, `WithdrawnNameStaysTaken`).
- A module whose source cannot be compiled stays compiling for ever: the first require of it throws, and
  every later one returns although no body has run (`LoadingAnEntry`, `UncompilableThrowsOnce`,
  `SecondRequireReturns`). A body that throws does so once, and its module counts as compiled
  (`ThrowingThrowsOnce`).
- A graph with sharing or cycles arrives with marks in place of the repeated objects, and own `__proto__`
  keys and foreign error classes are lost (`DeepCopyIff`, `SelfReferenceIsCut`).
- The mask `**` also selects elements without the attribute, and `={}` compiles to no condition
  (`CompiledMaskMatchesIff`, `CompiledQueryMeansIff`). Both are lost when printed
  (`ReparseIff`, `DoubleStarIsLost`).
- The CSS back end reads a mask with an inner or an escaped star, the empty mask and `**` as one exact
  value (`BackEndsAgreeIff`, `InnerStarDisagrees`).
- Two browser-proxy spawns that overlap leave commands in the pool whose answers are ignored
  (`StepKeepsAddressedIff`, `OverlappingSpawnsStrand`), and the exit of the process that was replaced
  drops the live one (`DropsLiveWorkerIff`, `ExitOfFirstDropsSecond`). When the spawn after a crash fails, the commands
  that wait for it are left without one (`StepKeepsRevivableIff`, `FailedSpawnStrands`).
- A retry of the log queue may be spent on another entry (`RetryIsOwnIff`, `RetryOfAnotherEntry`). A
  throwing error hook, or without `shouldSkip` one failure more in a row than there are retries, stops
  the log for good (`RunningIffRunner`, `StoppedForEver`, `OneFailureStops`).
- A `workerLimit` of 0 works like 1, while negative numbers and words that are not numbers leave every
  command without a worker (`CommandFailsIff`).

## Model

| member | source | states |
|---|---|---|
| Queues.Queue.Shift | core/utils/src/queue.ts:18-20 | takes the first element, or nothing from an empty queue |
| Queues.Queue.Remove | core/utils/src/queue.ts:31-35 | keeps exactly the elements that do not satisfy the predicate, in order, and counts the others |
| Queues.Queue.Extract | core/utils/src/queue.ts:43-55 | splits the queue into the extracted elements and the rest, both in order |
| Common.KeepPartitions | core/utils/src/queue.ts:43-55 | what is extracted and what is left share out the occurrences of every element of the old queue |
| Common.KeepSelects | core/utils/src/queue.ts:31-55 | exactly what stands at a selected position is selected |
| MultiLocks.MultiLock.Acquire | core/utils/src/multi-lock.ts:24-32 | one more lock for the id exactly while there is room; the cached total stays the sum of the counts |
| MultiLocks.MultiLock.Release | core/utils/src/multi-lock.ts:39-51 | one lock less for the id exactly if it holds one; the cached total stays the sum of the counts |
| MultiLocks.MultiLock.Clean | core/utils/src/multi-lock.ts:58-69 | removes all locks of one id, or all locks for the empty id |
| MultiLocks.MultiLock.GetSize | core/utils/src/multi-lock.ts:76-81 | the count of one id, or the total |
| LockPools.RunKeepsInv | core/fs-store/src/utils/LockPool.ts:38-99 | in every run of acquires and releases: never overfull, nobody waits while there is room, grants in arrival order, no promise resolved twice |
| LockPools.WaitingMeansFull | core/fs-store/src/utils/LockPool.ts:49-63 | a waiting request implies a pool that is exactly full |
| LockPools.NoOvertaking | core/fs-store/src/utils/LockPool.ts:83-97 | whoever arrived before a granted request was granted before it |
| LockPools.HandOverKeepsInv | core/fs-store/src/utils/LockPool.ts:82-97 | a freed slot goes to the head of the queue, which never has to queue again |
| LockPools.AcquireAnswers | core/fs-store/src/utils/LockPool.ts:38-63 | a repeated name is rejected without effect; any other request takes a slot if and only if there is room, and else stands last in the queue |
| LockPools.WithdrawalAnswers | core/fs-store/src/utils/LockPool.ts:65-77 | releasing a waiting request withdraws exactly the requests of that worker and name, denies one, frees no slot and keeps the name registered |
| LockPools.ReleaseAnswers | core/fs-store/src/utils/LockPool.ts:79-99 | any other release succeeds if and only if the worker holds a slot, which goes to the head of the queue; the name is free again |
| LockPools.RejectedIffTaken | core/fs-store/src/utils/LockPool.ts:38-99 | in every run a named request is rejected if and only if its name was given before and no slot has been released under it since |
| LockPools.WithdrawnNameStaysTaken | core/fs-store/src/utils/LockPool.ts:38-77 | a request that was withdrawn while it waited is rejected when it is made again |
| LockPools.ReleaseLosesNothingIff | core/fs-store/src/utils/LockPool.ts:65-77 | a release keeps every promise alive if and only if it withdraws at most one request |
| LockPools.EmptyIdsCanBeLost | core/fs-store/src/utils/LockPool.ts:38-77 | a run with empty request ids in which a promise is never resolved |
| LockPools.DisciplinedRunsLoseNothing | core/fs-store/src/utils/LockPool.ts:38-99 | with named requests every promise handed out is resolved or still waits |
| LockPools.LockPool.Acquire | core/fs-store/src/utils/LockPool.ts:38-47 | the class performs the acquire step, with its three outcomes |
| LockPools.LockPool.Release | core/fs-store/src/utils/LockPool.ts:65-99 | the class performs the release step: withdraw, or free and hand over, or fail |
| FilePermissions.StepKeepsInv | core/fs-store/src/utils/FilePermissionResolver.ts:80-236 | every operation keeps: held locks show in the state, one access at a time, deleted from the first unlink grant on, nobody waits for nobody |
| FilePermissions.RunKeepsInv | core/fs-store/src/utils/FilePermissionResolver.ts:80-236 | the invariant holds throughout every legal run |
| FilePermissions.LockAnswers | core/fs-store/src/utils/FilePermissionResolver.ts:80-93 | a lock is refused if and only if the deletion of the file has begun |
| FilePermissions.HookAccessAnswers | core/fs-store/src/utils/FilePermissionResolver.ts:134-167 | an access is refused in the same case, granted at once if none is active, and else stands last in the queue |
| FilePermissions.TryAccessAnswers | core/fs-store/src/utils/FilePermissionResolver.ts:134-155 | the attempt to grant an access reports whether the deletion has not begun |
| FilePermissions.HookUnlinkAnswers | core/fs-store/src/utils/FilePermissionResolver.ts:190-221 | an unlink waits while the file is marked busy; otherwise the first waiting one is granted |
| FilePermissions.ReleaseAccessAnswers | core/fs-store/src/utils/FilePermissionResolver.ts:115-155 | the end of an access lets the next one in; the last one frees a file without locks and grants its first waiting unlink |
| FilePermissions.UnlockAnswers | core/fs-store/src/utils/FilePermissionResolver.ts:95-131 | the last unlock frees a file without accesses, marks one with a single access, and leaves one with waiting accesses marked as locked |
| FilePermissions.CleanLockAnswers | core/fs-store/src/utils/FilePermissionResolver.ts:102-131 | cleaning removes the locks of one id, or all, and has the effect of the last unlock if it leaves none |
| FilePermissions.ReleaseUnlinkAnswers | core/fs-store/src/utils/FilePermissionResolver.ts:190-209 | the end of an unlink leaves the file deleted and grants the next unlink |
| FilePermissions.UnlinkNeedsNoLock | core/fs-store/src/utils/FilePermissionResolver.ts:190-213 | no unlink is granted while a lock is held |
| FilePermissions.DeletionSafety | core/fs-store/src/utils/FilePermissionResolver.ts:80-221 | after the first unlink grant no lock is held and no lock or access is ever granted again |
| FilePermissions.AtMostOneAccess | core/fs-store/src/utils/FilePermissionResolver.ts:134-155 | at most one access is unreleased in every legal run |
| FilePermissions.StaleReleaseBreaksExclusionIff | core/fs-store/src/utils/FilePermissionResolver.ts:134-167 | after a second run of a release closure some legal run has two unreleased accesses if and only if another access is active, nothing has been deleted, and a request waits, a lock is held or no unlink waits |
| FilePermissions.StaleReleaseThenAccess | core/fs-store/src/utils/FilePermissionResolver.ts:134-167 | in exactly these cases the next access request, whoever makes it, finds or makes two |
| FilePermissions.SecondReleaseLetsTwoIn | core/fs-store/src/utils/FilePermissionResolver.ts:146-150 | a run of three accesses in which the second release lets two in at once |
| FilePermissions.NextAccessJoins | core/fs-store/src/utils/FilePermissionResolver.ts:146-167 | a run in which nobody waits at the second release, and the next request joins the active access |
| FilePermissions.UnlinkDuringAccessIff | core/fs-store/src/utils/FilePermissionResolver.ts:134-221 | a step of a legal run grants the first unlink during an access if and only if it requests an unlink during an access and the file was not marked busy since it was last idle |
| FilePermissions.UnlinkDuringAccess | core/fs-store/src/utils/FilePermissionResolver.ts:134-150 | on a fresh file an unlink is granted during the first access |
| FilePermissions.UnlinksOverlapIff | core/fs-store/src/utils/FilePermissionResolver.ts:190-221 | a second unlink becomes outstanding exactly when it is requested before the first is released |
| FilePermissions.TwoUnlinksOutstanding | core/fs-store/src/utils/FilePermissionResolver.ts:190-221 | a run with two outstanding unlinks |
| FilePermissions.StaleUnlockRevivesIff | core/fs-store/src/utils/FilePermissionResolver.ts:95-131 | when an unlock without a lock sets a deleted file back to free; in every other case it keeps the invariant |
| FilePermissions.StaleUnlockBreaksDeletionIff | core/fs-store/src/utils/FilePermissionResolver.ts:80-131 | after such an unlock of a deleted file some legal run grants a lock or an access again if and only if nobody waits for access and an access is active or no unlink waits |
| FilePermissions.StaleUnlinkReleaseKeepsInv | core/fs-store/src/utils/FilePermissionResolver.ts:190-209 | a second run of an unlink's closure keeps the invariant |
| FilePermissions.UnlockRevivesDeleted | core/fs-store/src/utils/FilePermissionResolver.ts:95-131 | a run after which such an unlock lets a deleted file be locked again |
| FilePermissions.AccessIsFifo | core/fs-store/src/utils/FilePermissionResolver.ts:134-187 | accesses are granted in arrival order in every run, legal or not |
| FilePermissions.UnlinkIsFifo | core/fs-store/src/utils/FilePermissionResolver.ts:190-236 | unlinks are granted in arrival order in every run, legal or not |
| FilePermissions.CleaningIsExact | core/fs-store/src/utils/FilePermissionResolver.ts:179-236 | cleaning removes every waiting request of one worker, or of all for the empty id, and leaves the others in order |
| FilePermissions.DrainingGrantsUnlink | core/fs-store/src/utils/FilePermissionResolver.ts:95-155 | the first waiting unlink is granted exactly by the release that takes off the last lock or access |
| FilePermissions.WaitingUnlinkCanBeDrained | core/fs-store/src/utils/FilePermissionResolver.ts:115-131 | a waiting unlink always has something to wait for |
| FilePermissions.StrandedAccess | core/fs-store/src/utils/FilePermissionResolver.ts:134-137 | accesses that wait at the first unlink grant wait for ever |
| FilePermissionResolvers.FilePermissionResolver.Lock | core/fs-store/src/utils/FilePermissionResolver.ts:80-93 | the class performs the lock step |
| FilePermissionResolvers.FilePermissionResolver.Unlock | core/fs-store/src/utils/FilePermissionResolver.ts:95-100 | the class performs the unlock step |
| FilePermissionResolvers.FilePermissionResolver.CleanLock | core/fs-store/src/utils/FilePermissionResolver.ts:102-112 | the class performs the lock cleaning step |
| FilePermissionResolvers.FilePermissionResolver.ChkEmpty | core/fs-store/src/utils/FilePermissionResolver.ts:115-131 | the class normalises the state and tries the next unlink |
| FilePermissionResolvers.FilePermissionResolver.TryAccess | core/fs-store/src/utils/FilePermissionResolver.ts:134-155 | the class grants the head of the access queue when it may |
| FilePermissionResolvers.FilePermissionResolver.TryDelete | core/fs-store/src/utils/FilePermissionResolver.ts:190-209 | the class grants the head of the unlink queue when it may |
| FilePermissionResolvers.FilePermissionResolver.HookAccess | core/fs-store/src/utils/FilePermissionResolver.ts:157-167 | the class performs the access request step |
| FilePermissionResolvers.FilePermissionResolver.HookUnlink | core/fs-store/src/utils/FilePermissionResolver.ts:218-221 | the class performs the unlink request step |
| FilePermissionResolvers.FilePermissionResolver.ReleaseAccess | core/fs-store/src/utils/FilePermissionResolver.ts:146-150 | the closure of an access lets the next one in |
| FilePermissionResolvers.FilePermissionResolver.ReleaseUnlink | core/fs-store/src/utils/FilePermissionResolver.ts:201-205 | the closure of an unlink marks the file deleted and grants the next unlink |
| FilePermissionResolvers.FilePermissionResolver.CleanAccess | core/fs-store/src/utils/FilePermissionResolver.ts:179-187 | drops the waiting accesses of one worker, or all |
| FilePermissionResolvers.FilePermissionResolver.CleanUnlink | core/fs-store/src/utils/FilePermissionResolver.ts:228-236 | drops the waiting unlinks of one worker, or all |
| FileStores.StepKeepsInv | core/fs-store/src/fs-store-server.ts:198-412 | every step of every handler keeps files, pool and request records consistent |
| FileStores.ReachesKeepsInv | core/fs-store/src/fs-store-server.ts:198-412 | the store invariant holds in every reachable store |
| FileStores.StoreSafety | core/fs-store/src/fs-store-server.ts:198-412 | in every interleaving and for every thread count: slots taken are exactly the requests sent OK and not released, never more than a positive threadCount; one access per file; no lock on a file with a granted unlink |
| FileStores.WaitingForAnAccess | core/fs-store/src/fs-store-server.ts:238-276 | in every interleaving an access that waits on a file without a granted unlink waits for an access that the file has called back |
| FileStores.WaitingToUnlink | core/fs-store/src/fs-store-server.ts:277-305 | an unlink waits only for a lock, an access or another unlink of its file |
| FileStores.QuietMeansSettled | core/fs-store/src/fs-store-server.ts:238-305 | no deadlock: when nothing but new requests can happen and nobody waits for a slot, every request is settled or stranded by a deletion |
| FileStores.QuietPool | core/fs-store/src/utils/LockPool.ts:49-97 | when nothing but new requests can happen nobody waits for a slot, unless the pool grants nothing |
| FileStores.StoreDrains | core/fs-store/src/fs-store-server.ts:198-412 | without new requests every run is finite, and one that cannot go on has each request either settled or stranded; with a negative threadCount this holds if and only if nobody asks for a slot |
| FileStores.StepDoesWork | core/fs-store/src/fs-store-server.ts:310-412 | every step other than a new request takes one off the remaining work |
| FileStores.StrandedForEver | core/fs-store/src/fs-store-server.ts:238-276 | an access stranded by the deletion of its file is never granted, refused or answered |
| FileStores.WaitingAccessCanBeStranded | core/fs-store/src/fs-store-server.ts:238-305 | a run of three requests that strands an access |
| FileStores.ReleaseHandsOver | core/fs-store/src/fs-store-server.ts:365-369 | releasing a granted request never withdraws another one; it frees the slot and serves the head of the queue |
| FileStoreServers.FSStoreServer.EnsurePermissionQueue | core/fs-store/src/fs-store-server.ts:163-175 | a path without a resolver gets a new one, and the resolvers of the other paths stay the same objects in the same states |
| FileStoreServers.FSStoreServer.RequestAction | core/fs-store/src/fs-store-server.ts:198-307 | the handler calls its resolver object, leaves the others alone, performs the request step and answers OK for a lock, the refusal for a lock or an access of a file whose deletion has begun, and nothing yet otherwise |
| FileStoreServers.FSStoreServer.AcquireSlotFor | core/fs-store/src/fs-store-server.ts:252-266 | the callback's continuation asks the pool and answers OK exactly when the slot is granted at once |
| FileStoreServers.FSStoreServer.ReleaseAction | core/fs-store/src/fs-store-server.ts:334-369 | the release handler answers NOEXIST for a path without a resolver, and else gives the slot back first |
| FileStoreServers.FSStoreServer.CleanUp | core/fs-store/src/fs-store-server.ts:377-380 | and runs the closure on its resolver later |
| FileStoreServers.FSStoreServer.ReleaseLock | core/fs-store/src/fs-store-server.ts:381-400 | releasing a lock unlocks the resolver of its path, or answers NOEXIST |
| TestRuns.StartMeans | core/test-run-controller/src/test-run-controller.ts:73-106 | a run is refused if and only if the limit is a number that is not positive, and else starts as many workers as allowed but no more than tests |
| TestRuns.StepKeepsInv | core/test-run-controller/src/test-run-controller.ts:122-161 | in every step each test stays in exactly one place, a non-empty queue has a worker that will come back, and the retry accounts stay exact |
| TestRuns.EveryTestSettledOnce | core/test-run-controller/src/test-run-controller.ts:141-161 | when the last worker has left, the queue is empty, each test is settled exactly once, and errors are counted per failed test |
| TestRuns.NoWorkerIsStuck | core/test-run-controller/src/test-run-controller.ts:306-383 | a worker that has not left can always go on |
| TestRuns.EveryRunEnds | core/test-run-controller/src/test-run-controller.ts:252-304 | at most tests × (retryCount + 1) attempts, and boundedly many steps, in every interleaving |
| TestRuns.RunsAreBounded | core/test-run-controller/src/test-run-controller.ts:252-383 | every step of every run uses up a measure |
| TestRuns.FailAccounts | core/test-run-controller/src/test-run-controller.ts:252-304 | a failed attempt is retried with the next number or settled, and its shared error array has one error per attempt |
| TestRuns.AttemptFails | core/test-run-controller/src/test-run-controller.ts:352-382 | after a failed attempt the worker retries that very item if and only if the hook allows it and retries are left; else the test is settled as failed and the error reported |
| TestRuns.AttemptSucceeds | core/test-run-controller/src/test-run-controller.ts:319-351 | an attempt that passes or is skipped settles its test with that verdict and without an error |
| TestRuns.RetryIsQueued | core/test-run-controller/src/test-run-controller.ts:276-286 | a retry is put at the end of the queue with one more retry counted |
| TestRuns.PullTakesFirst | core/test-run-controller/src/test-run-controller.ts:306-314 | a worker takes the first test, and leaves if and only if there is none |
| TestRuns.FailedAfterAllRetriesIff | core/test-run-controller/src/test-run-controller.ts:252-304 | in every interleaving a finally failed test took exactly retryCount + 1 attempts if and only if no hook forbade a retry that was left |
| TestRuns.TestRunController.PullTest | core/test-run-controller/src/test-run-controller.ts:306-314 | the class pulls the first test or lets the worker leave |
| TestRuns.TestRunController.EndAttempt | core/test-run-controller/src/test-run-controller.ts:319-382 | the class settles the attempt or schedules a retry |
| TestRuns.TestRunController.PushRetryOf | core/test-run-controller/src/test-run-controller.ts:279-286 | the class pushes the retry with the next count |
| TestRuns.TestRunController.ExecuteWorker | core/test-run-controller/src/test-run-controller.ts:306-383 | one whole turn of a worker loop |
| TestRuns.TestRunController.RunLocalWorker | core/test-run-controller/src/test-run-controller.ts:122-139 | a local run empties the queue, settles each test once and stays within the attempt budget |
| Dependencies.DependencyBuilder.BuildNodes | core/dependencies-builder/src/index.ts:71-137 | ends on cyclic graphs, caches and links everything reachable, leaves finished nodes alone, fails only on an unloadable module |
| Dependencies.DependencyBuilder.Follow | core/dependencies-builder/src/index.ts:87-134 | one dependency is linked, skipped or built exactly as the graph says |
| Dependencies.DependencyBuilder.BuildDependencyDictionary | core/dependencies-builder/src/index.ts:159-189 | succeeds if and only if every reachable module can be loaded, and then has exactly the reachable modules with exactly their links |
| Dependencies.EntryIff | core/dependencies-builder/src/index.ts:71-189 | a module has an entry for a request if and only if it asks for it and it names a user module: not empty, not built in, and not bundled unless it is the entry; the entry holds that module's path and text |
| Dependencies.EdgeIff | core/dependencies-builder/src/index.ts:71-137 | the graph's links are exactly these requests |
| Dependencies.UnloadableIff | core/dependencies-builder/src/index.ts:71-137 | the build fails only for a reachable module that cannot be read or parsed or has a non-empty request that does not resolve |
| Dependencies.DictionaryClosed | core/dependencies-builder/src/index.ts:139-189 | every path in an entry is itself a key |
| Dependencies.MergeClosed | core/dependencies-builder/src/index.ts:191-199 | merging two closed dictionaries gives a closed one with the keys of both, in which the second one wins |
| Sandboxes.Execute | core/sandbox/src/sandbox.ts:31-49 | ends on cyclic requires; the module is started and nothing started is forgotten |
| Sandboxes.ExecuteOnce | core/sandbox/src/sandbox.ts:31-49 | the bodies run are exactly those of the started modules that compile, each once; whatever the bodies do, only running bodies and uncompilable modules are compiling afterwards |
| Sandboxes.RequireOnce | core/sandbox/src/sandbox.ts:93-119 | the same through a require |
| Sandboxes.ScriptEndsIff | core/sandbox/src/sandbox.ts:41-61 | a body ends in a state, normally or by a throw, if and only if the answers of its requires lead to that leaf of the script |
| Sandboxes.ExecuteReturnsIff | core/sandbox/src/sandbox.ts:31-61 | an execution returns if and only if the module was started before, or its source compiles and its body ends normally |
| Sandboxes.RequireAnswers | core/sandbox/src/sandbox.ts:93-119 | a collected dependency is answered by executing its cached sandbox, or a new one with its own source; anything else by the package |
| Sandboxes.DependencyFound | core/sandbox/src/sandbox.ts:93-119 | a collected user dependency is found in the dictionary, and nothing else is |
| Sandboxes.LoadingAnEntry | core/sandbox/src/sandbox.ts:31-119 | after loading an entry every cached module is reachable from it and has its own source; its body has run, once, if and only if the source compiles, and it stays compiling if and only if it does not |
| Sandboxes.UncompilableThrowsOnce | core/sandbox/src/sandbox.ts:31-49 | the first execution of a source that cannot be compiled throws without running a body, and every later one returns |
| Sandboxes.ThrowingThrowsOnce | core/sandbox/src/sandbox.ts:31-61 | a body that ends in a throw makes the first execution throw and leaves the module compiled, and every later one returns |
| Sandboxes.SecondRequireReturns | core/sandbox/src/sandbox.ts:93-119 | an entry that requires an ES module twice and ends normally although the module never ran |
| Sandboxes.Loader.ExecuteSandbox | core/sandbox/src/sandbox.ts:31-49 | the class, with its flags and cache, performs the execution, the throw of the compiler before the try included |
| Sandboxes.Loader.RequirePath | core/sandbox/src/sandbox.ts:93-119 | the class resolves a require from the dictionary, the cache or as a package |
| Serializers.WalkVisits | core/transport/src/serialize/index.ts:50-90 | an object is expanded exactly at its first visit in depth-first order; every other reference to it is marked |
| Serializers.WalkFollows | core/transport/src/serialize/index.ts:50-90 | the encoder's trace has the shape of the graph |
| Serializers.WalkUnique | core/transport/src/serialize/index.ts:50-90 | those two properties determine the encoder's result |
| Serializers.WalkMeetsReachable | core/transport/src/serialize/index.ts:50-90 | exactly the reachable objects are met |
| Serializers.DecodeEncode | core/transport/src/serialize/index.ts:50-120 | what arrives, for every tree: only own `__proto__` keys, foreign error classes and missing stacks are changed; an own `$key` is harmless |
| Serializers.ErrorArrives | core/transport/src/serialize/error.ts:12-55 | an error keeps its message and its stack, or gets a new one, and keeps its class if and only if that is one of the seven standard ones |
| Serializers.FilledExact | core/transport/src/serialize/object.ts:14-48 | an object filled key by key has exactly the keys other than `__proto__`, in order, each with the last value assigned |
| Serializers.MessageFields | core/transport/src/serialize/index.ts:50-90 | the messages of arrays, plain objects, errors and dates, field by field |
| Serializers.UntaggedPasses | core/transport/src/serialize/index.ts:92-120 | a value without one of the six tags is returned as it is |
| Serializers.RoundTripIff | core/transport/src/serialize/index.ts:50-120 | a tree arrives unchanged if and only if it has no own `__proto__` key and only standard errors with a stack |
| Serializers.FullCopyIff | core/transport/src/serialize/index.ts:50-120 | any graph can be sent; a full copy arrives if and only if the walk meets no object twice and nothing it copies is changed |
| SerializedGraphs.TraceAccounted | core/transport/src/serialize/index.ts:50-90 | an object is met once for each reference to it from the objects that were expanded, and once as the root |
| SerializedGraphs.MetOnceIffReferredOnce | core/transport/src/serialize/index.ts:50-90 | the walk meets no object twice if and only if the reachable objects refer to nothing twice and not to the root |
| SerializedGraphs.FaithfulIffReached | core/transport/src/serialize/index.ts:50-120 | nothing is changed on the way if and only if no reachable object has an own `__proto__` key or is an error of another class or without a stack |
| SerializedGraphs.DeepCopyIff | core/transport/src/serialize/index.ts:50-120 | a full copy arrives if and only if both hold of the heap |
| SerializedGraphs.SelfReferenceIsCut | core/transport/src/serialize/index.ts:58-60 | an object that refers to itself arrives with a mark |
| Serializers.FilledKeepsIff | core/transport/src/serialize/object.ts:14-48 | filling an object key by key keeps all of them unless one is `__proto__` |
| Serializers.DecodeErrorMessage | core/transport/src/serialize/error.ts:12-55 | an error comes back with its message, its stack and a standard class |
| Serializers.DecodeDateMessage | core/transport/src/serialize/date.ts:10-19 | a date comes back with its time |
| Serializers.Serializer.InnerSerialize | core/transport/src/serialize/index.ts:53-87 | the encoder with its mutable visited set produces the message of the walk |
| Serializers.Serializer.SerializeObject | core/transport/src/serialize/object.ts:14-30 | the loop over the keys threads the visited set and fills the dictionary |
| Serializers.Serializer.SerializeArray | core/transport/src/serialize/array.ts:14-22 | the elements are encoded in order with one visited set |
| Serializers.Deserialize | core/transport/src/serialize/index.ts:92-120 | the decoder's cases, unknown tags returned as they are |
| Serializers.DeserializeObject | core/transport/src/serialize/object.ts:32-48 | the loop decodes every own key |
| Serializers.DeserializeArray | core/transport/src/serialize/array.ts:24-29 | every element is decoded in order |
| ElementPaths.ScanExact | packages/element-path/src/element-path.ts:57-60 | the query expression matches a key if and only if it is a mask, a text search and a sub query in this order, with exactly these groups |
| ElementPaths.ScanJoin | packages/element-path/src/element-path.ts:57-60 | the same for both expressions: every grammatical key is matched with its groups |
| ElementPaths.MaskAcceptedIff | packages/element-path/src/element-path.ts:117-164 | a mask is accepted if and only if its stars are at its ends or it has a single star |
| ElementPaths.MaskRejected | packages/element-path/src/element-path.ts:127-161 | a mask that is not accepted fails with the error for outer and inner stars or the one for several inner stars |
| ElementPaths.KeyAcceptedIff | packages/element-path/src/element-path.ts:167-231 | a key is accepted if and only if it is made of groups with an acceptable mask and text, is not a sub query alone, and its sub query is not empty and is acceptable or outside of its own grammar |
| ElementPaths.KeyErrorIff | packages/element-path/src/element-path.ts:167-231 | which error a rejected key fails with, for every key and error |
| ElementPaths.UngrammaticalInner | packages/element-path/src/element-path.ts:185-204 | a sub query outside of its grammar is read as any key |
| ElementPaths.MaskForms | packages/element-path/src/element-path.ts:127-163 | the parsed pieces put together again are the mask, and are free of stars and non-empty where they have to be |
| ElementPaths.MaskPrintsBackIff | packages/element-path/src/element-path.ts:361-373 | every accepted mask but the empty one and `**` is printed back |
| ElementPaths.ParsedShaped | packages/element-path/src/element-path.ts:185-231 | no accepted key yields a piece containing a character that would end it |
| ElementPaths.ParsePrint | packages/element-path/src/element-path.ts:206-231 | what the parser makes of every printed query, errors included |
| ElementPaths.ParsePrintIff | packages/element-path/src/element-path.ts:358-386 | parsing inverts printing if and only if the query is well formed and has no empty piece or text |
| ElementPaths.ReparseIff | packages/element-path/src/element-path.ts:206-231 | printing and reparsing an accepted key gives the same query if and only if the key has no mask `**` and no text `={}`, outside and inside of its sub query |
| ElementPaths.SolidIff | packages/element-path/src/element-path.ts:117-231 | the parsed query has no empty piece if and only if that holds of the key |
| ElementPaths.SplitIff | packages/element-path/src/element-path.ts:127-163 | an accepted mask is split in two if and only if it has a star inside |
| ElementPaths.DoubleStarIsLost | packages/element-path/src/element-path.ts:358-386 | the key `**` is printed as the empty key |
| ElementPaths.QueryToString | packages/element-path/src/element-path.ts:358-386 | the printer that appends piece by piece is the printer of the theorems |
| ElementPathConditions.EndsWithHolds | packages/element-path/src/element-path.ts:261-267 | the substring arithmetic is ends-with, also for short and missing attributes |
| ElementPathConditions.ParsedMaskDenotes | packages/element-path/src/element-path.ts:117-164 | a parsed mask stands for exactly the strings its pattern matches |
| ElementPathConditions.MaskConditionsHold | packages/element-path/src/element-path.ts:244-296 | the conditions of a mask hold for exactly the values it stands for, and for `**` also without the attribute |
| ElementPathConditions.CompiledMaskMatchesIff | packages/element-path/src/element-path.ts:244-296 | conditions and pattern agree for every accepted mask and element, except for `**` without the attribute |
| ElementPathConditions.CompiledQueryMeansIff | packages/element-path/src/element-path.ts:314-353 | the XPath of an accepted key selects what the key means, on all elements, if and only if the key has no mask `**` and no text `={}`, outside and inside of its sub query |
| ElementPathConditions.DoubleStarSelectsMissing | packages/element-path/src/element-path.ts:288-293 | `**` selects an element without the attribute |
| ElementPathConditions.EmptyTextSelectsAny | packages/element-path/src/element-path.ts:305-309 | an empty text search selects elements with any text |
| ElementPathConditions.GetMaskXpathParts | packages/element-path/src/element-path.ts:244-296 | the condition list is built in the order of the code |
| ElementPathConditions.GetSearchQueryXpath | packages/element-path/src/element-path.ts:314-353 | mask, descendant and text conditions are collected in the order of the code |
| ShadowElementPaths.SelectorFormIff | packages/element-path/src/shadow-element-path.ts:37-68 | which property without escaped stars gives which kind of selector with which value, for every property |
| ShadowElementPaths.SelectorOfMask | packages/element-path/src/shadow-element-path.ts:37-68 | the CSS selector is of the same kind, with the same value, as the parsed mask |
| ShadowElementPaths.BackEndsAgreeIff | packages/element-path/src/shadow-element-path.ts:37-68 | CSS and XPath accept the same elements if and only if the mask is not empty, not `**`, and has no inner and no escaped star |
| ShadowElementPaths.EscapedSelectsExactly | packages/element-path/src/shadow-element-path.ts:37-68 | with its stars escaped every value is asked for exactly |
| ShadowElementPaths.InnerStarDisagrees | packages/element-path/src/shadow-element-path.ts:66-68 | a value that `a*b` accepts as XPath and not as CSS |
| BrowserProxyWorkers.StepCounts | packages/browser-proxy/src/browser-proxy-worker.ts:63-136 | no event makes a command vanish or appear twice |
| BrowserProxyWorkers.CommandsConserved | packages/browser-proxy/src/browser-proxy-worker.ts:63-208 | in every run with crashes and overlapping spawns each issued command is in exactly one place and settled at most once; connected means an empty queue, disconnected an empty pool |
| BrowserProxyWorkers.ReconnectResends | packages/browser-proxy/src/browser-proxy-worker.ts:88-98 | a new worker is sent exactly the unsettled commands, in order |
| BrowserProxyWorkers.ExitStartsSpawn | packages/browser-proxy/src/browser-proxy-worker.ts:93-120 | an exit puts the pending commands back in order and starts exactly one spawn that no command waits for |
| BrowserProxyWorkers.ExactlyLiveProcessesAttached | packages/browser-proxy/src/browser-proxy-worker.ts:105-182 | in every run exactly the processes that were spawned and have not exited are listened to |
| BrowserProxyWorkers.DropsLiveWorkerIff | packages/browser-proxy/src/browser-proxy-worker.ts:105-120 | an event drops a worker that is still alive if and only if it is the exit of another process |
| BrowserProxyWorkers.ExitOfFirstDropsSecond | packages/browser-proxy/src/browser-proxy-worker.ts:105-182 | a run of two overlapping spawns in which the exit of the first process drops the second |
| BrowserProxyWorkers.StepKeepsRevivableIff | packages/browser-proxy/src/browser-proxy-worker.ts:105-208 | waiting commands are left without a worker and a spawn if and only if the last spawn in flight fails |
| BrowserProxyWorkers.WaitingCommandsAreSent | packages/browser-proxy/src/browser-proxy-worker.ts:63-208 | in every run without failing spawns a spawn is in flight while commands wait without a worker, and once nothing is in flight every unsettled command has been sent |
| BrowserProxyWorkers.FailedSpawnStrands | packages/browser-proxy/src/browser-proxy-worker.ts:105-182 | a run in which the spawn after a crash fails and a command is left waiting |
| BrowserProxyWorkers.ResponseSettlesIff | packages/browser-proxy/src/browser-proxy-worker.ts:41-86 | a response settles its command if and only if it comes from the present worker |
| BrowserProxyWorkers.StepKeepsAddressedIff | packages/browser-proxy/src/browser-proxy-worker.ts:41-208 | an event leaves a pending command unanswerable if and only if it is a spawn that ends while there is a worker and something is pending |
| BrowserProxyWorkers.OverlappingSpawnsStrand | packages/browser-proxy/src/browser-proxy-worker.ts:184-208 | a run in which the answer to a command is ignored |
| BrowserProxyWorkers.CarefulRunsSettle | packages/browser-proxy/src/browser-proxy-worker.ts:63-208 | if no command is issued during a spawn, every answer settles its command, whatever crashes |
| BrowserProxyWorkers.BrowserProxyWorker.OnResponse | packages/browser-proxy/src/browser-proxy-worker.ts:41-86 | the class settles and forgets the command, or reports an unknown one |
| BrowserProxyWorkers.BrowserProxyWorker.OnProxyConnect | packages/browser-proxy/src/browser-proxy-worker.ts:88-91 | the whole queue is sent in order and emptied |
| BrowserProxyWorkers.BrowserProxyWorker.OnProxyDisconnect | packages/browser-proxy/src/browser-proxy-worker.ts:93-98 | the whole pool goes back to the queue in order |
| BrowserProxyWorkers.BrowserProxyWorker.OnExit | packages/browser-proxy/src/browser-proxy-worker.ts:105-120 | the class performs the exit step |
| BrowserProxyWorkers.BrowserProxyWorker.EndSpawn | packages/browser-proxy/src/browser-proxy-worker.ts:146-181 | the class performs the end of a spawn |
| BrowserProxyWorkers.BrowserProxyWorker.Execute | packages/browser-proxy/src/browser-proxy-worker.ts:184-208 | the class sends a command or starts a spawn for it |
| BrowserProxyWorkers.BrowserProxyWorker.ResumeExecute | packages/browser-proxy/src/browser-proxy-worker.ts:192-207 | after its spawn a command is sent or queued |
| BrowserProxyControllers.RunRoundRobin | packages/browser-proxy/src/browser-proxy-controller.ts:75-108 | in every run the k-th fresh assignment goes to worker k mod limit |
| BrowserProxyControllers.AssignmentsAreFair | packages/browser-proxy/src/browser-proxy-controller.ts:75-108 | assignment counts differ by at most one and the pool never exceeds the limit |
| BrowserProxyControllers.CommandsStayTogether | packages/browser-proxy/src/browser-proxy-controller.ts:110-129 | an applicant keeps its worker until it ends |
| BrowserProxyControllers.EndForgets | packages/browser-proxy/src/browser-proxy-controller.ts:110-125 | the end of an applicant goes to its worker and forgets exactly this assignment |
| BrowserProxyControllers.EndedApplicantMovesOn | packages/browser-proxy/src/browser-proxy-controller.ts:75-129 | after its end an applicant gets the next worker in turn |
| BrowserProxyControllers.FirstCommandAnswer | packages/browser-proxy/src/browser-proxy-controller.ts:58-108 | which worker a first command gets, for every setting of the limit |
| BrowserProxyControllers.LocalAnswers | packages/browser-proxy/src/browser-proxy-controller.ts:75-129 | with a local worker every command and every end goes to it |
| BrowserProxyControllers.CommandFailsIff | packages/browser-proxy/src/browser-proxy-controller.ts:58-105 | a command finds no worker if and only if the configured limit is a negative number or a word that spells no positive number; 0 works like 1 |
| BrowserProxyControllers.FailingCommand | packages/browser-proxy/src/browser-proxy-controller.ts:75-108 | a command that finds no worker assigns nothing |
| BrowserProxyControllers.BrowserProxyController.FindWorker | packages/browser-proxy/src/browser-proxy-controller.ts:75-108 | the class performs the assignment |
| BrowserProxyControllers.BrowserProxyController.Execute | packages/browser-proxy/src/browser-proxy-controller.ts:110-129 | the class dispatches a command or ends an applicant |
| LoggerServers.EntriesConserved | core/logger/src/logger-server.ts:54-122 | no entry is lost or duplicated, and n entries take at most n × (retries + 1) attempts |
| LoggerServers.DeliveryIsFifo | core/logger/src/logger-server.ts:54-122 | without failures entries are delivered in the order in which they were accepted |
| LoggerServers.RetriesLeft | core/logger/src/logger-server.ts:54-95 | the running attempt has as many retries left as are configured, less the failures since the last success or skip; a failure with none left skips the entry or stops the log |
| LoggerServers.RunningIffRunner | core/logger/src/logger-server.ts:54-122 | RUNNING holds exactly while a runner is active if and only if no error hook has thrown and, unless entries are skipped, no more attempts in a row have failed than there are retries; and then nothing waits without a runner |
| LoggerServers.SkippingStopsIff | core/logger/src/logger-server.ts:83-94 | with shouldSkip only a throwing error hook stops the log |
| LoggerServers.StepStopsIff | core/logger/src/logger-server.ts:83-94 | an event leaves RUNNING without a runner if and only if the error hook throws, or the attempt fails with no retry left and entries are not skipped |
| LoggerServers.QueueDrains | core/logger/src/logger-server.ts:54-95 | without new entries the runner stops within the budget, and leaves nothing if and only if no error was left uncaught |
| LoggerServers.StepKeepsWithinBudget | core/logger/src/logger-server.ts:54-95 | every attempt lowers the budget of queue length and retries |
| LoggerServers.RetryIsOwnIff | core/logger/src/logger-server.ts:86-88 | a retry is spent on the failed entry if and only if no other entry is in front |
| LoggerServers.RetryOfAnotherEntry | core/logger/src/logger-server.ts:86-90 | an entry that is skipped after one attempt although one retry is configured |
| LoggerServers.StoppedForEver | core/logger/src/logger-server.ts:97-122 | after that no entry is ever attempted again |
| LoggerServers.OneFailureStops | core/logger/src/logger-server.ts:83-122 | a run in which one failure leaves the next entry waiting for ever |
| LoggerServers.LoggerServer.Log | core/logger/src/logger-server.ts:97-122 | the class filters, queues and starts the runner when it is not running |
| LoggerServers.LoggerServer.TakeNext | core/logger/src/logger-server.ts:54-66 | the class takes the next entry or becomes empty |
| LoggerServers.LoggerServer.EndAttempt | core/logger/src/logger-server.ts:80-94 | the class goes on, retries, skips or stops, a throwing error hook included |

## Left out

- `unhookAccess` and `unhookUnlink`: nothing calls them, and their filter removes requests of others.
- `LockPool.clean`, and with it the clear requests of the file-store server: it frees slots without serving the queue.
- Lock cleaning after an unlink grant: the run theorems assume clients do not do it. On a deleted file it is an unlock without a lock (`CleanLockOnDeleted`), and the lemmas on stale unlocks say what that does.
- Releasing a store request before its OK or twice: the store theorems assume clients do neither. For a single file the lemmas on stale releases say what a second release does.
- FileStoreServers.FSStoreServer.RequestAction: the path is given with the request instead of being generated, the request id is fresh, and every request uses the default pool.
- FileStoreServers.FSStoreServer.AcquireSlotFor: the OK of a request that has to wait for its slot is not sent by the class; the pool's grant history stands for it.
- FileStoreServers.FSStoreServer.ReleaseAction: only a granted request is released; the release hook and releases without a file name are left out.
- FileStoreServers.FSStoreServer.CleanUp: the closure is chosen by the kind of the request instead of being stored in a record.
- FileStoreServers.FSStoreServer.ReleaseLock: the stored closure and the fallback to `unlock` are one path, since the closure of a lock calls `unlock`.
- `FSStoreFile` transactions, name-generating plugins and transport messages.
- `bail`, `kill` and throwing hooks inside `onTestFailed` in the scheduler; timers and timeouts, which only make an attempt fail; the run data of queue items; a `beforeRun` hook that replaces the queue, with retry counts other than 0 or with error arrays shared by several tests: every run starts with fresh tests.
- Dependencies.DependencyBuilder.BuildNodes: tree nodes are named by their paths, so the sharing of node objects is not captured; parsing and module resolution are parameters.
- Sandboxes.LoadingAnEntry: the values of `exports` and `evaluateScript` are not modelled; a module's body is a finite tree of requires. Requests and paths that name members of every JavaScript object, such as `constructor`, are left out.
- Serializers.DecodeEncode: functions, buffers, symbols and big integers, inherited enumerable keys, array holes, further fields of errors and the JSON step of inter-process messages are not modelled; a number is a real, so NaN and infinities are not told apart from other numbers.
- Serializers.Deserialize: answers None where a field of a message does not have the type its interface declares, where the code would throw or convert.
- ElementPaths.QueryToString: a query holds one mask; the order in which several mask fields of a hand-built query are tried is left out.
- ElementPathConditions.GetMaskXpathParts: the same, for the other order that this function uses.
- ElementPathConditions.GetSearchQueryXpath: the raw `xpath` option, the `index` and the choice between `//` and `/descendant::` are left out; only the conditions are built.
- ElementPathConditions.CompiledQueryMeansIff: quoting, `index`, hand-written `xpath` options and queries with several mask fields are left out; the string value of an element is a field of its own and is not tied to its descendants.
- ShadowElementPaths.BackEndsAgreeIff: CSS string escapes are not modelled, a selector's value is the plain character sequence; nor are the proxy's special and integer-like properties.
- Strings are plain character sequences and the regular expression engine is replaced by the grammar it recognises.
- BrowserProxyWorkers.CommandsConserved: `kill`, exceptions of the worker and lost transport messages are left out; process ids of live workers are taken to be distinct and command ids fresh.
- BrowserProxyControllers.RunRoundRobin: holds between `init` and `kill`; fractional and infinite limits are left out.
- LoggerServers.LoggerServer.EndAttempt: formatting and output are left out.
