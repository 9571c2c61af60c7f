# imagod: verified models of the daemon and the runner

This project models the four parts of the imagod daemon and its wasm runner whose state has to stay
right over nested values or over interleaved commands, and proves what each part guarantees.

- **Plugins in the runner.** `ResourceTable.dfy` is the table in which a runner keeps guest resources
  under host reps. `Bridge.dfy` translates component values between an importing component and the
  plugin that serves the import, moving owned resources into and out of that table;
  `BridgeMatching.dfy` says what the type matcher in front of it decides, and `BridgeRoundTrip.dfy`
  and `BridgeTyping.dfy` prove round trips, linearity and type soundness.
  `Planner.dfy` orders the plugins by explicit and inferred dependencies and `Linker.dfy` resolves
  imports in that order (`Names.dfy` holds the order on names).
- **Artifact uploads.** `Ranges.dfy` keeps the received byte ranges. `UploadSessions.dfy` holds the
  critical sections of prepare, push, commit, purge and the two lookups of a committed artifact, and the sweep, as
  functions and as the class that performs them in place. `UploadProtocol.dfy` interleaves any number of requests, each a
  task with unlocked file work between two critical sections; `UploadSafety.dfy` proves its
  invariant, `UploadTheorems.dfy` what it means over whole runs, `UploadLifetimes.dfy` when exactly
  sessions leave and that removed files stay gone, and `UploadProvenance.dfy` where the bytes of an
  artifact come from.
- **The service supervisor.** `Supervisor.dfy` interleaves starts, stops and reaps one lock section at
  a time; `SupervisorSafety.dfy` follows who owns each runner; `ServiceTable.dfy` has start, stop, reap
  and the command gate as they run on objects updated in place, each proved to take a path of steps
  of that system.
- **Deploys and commands.** `Releases.dfy` takes a deploy through one file operation after another,
  each of which may fail; `Deploys.dfy` runs deploys of many services under the command gate and
  shows that every service sees one deploy at a time. `Operations.dfy` is the registry in which a
  cancel and a spawn race. `Listing.dfy` merges what is on disk with what runs.

Concurrency is modelled as transition systems: a step is one critical section, one partial file
write, one block read or one file operation, and a theorem about runs quantifies over all
interleavings. Time, fresh ids, process exits, the outcome of every operating system call and the
artifact digest function are parameters. Offsets saturate at 64 bits and reps are bounded by 32 bits
as in the program; other integers are unbounded.

Where a natural property does not hold, the code is kept as it is, a lemma gives an input or a run on
which it fails, and another lemma gives the condition that decides it:

- matching types do not make a value cross or keep its type: an unbound resource matches itself but
  never crosses (`MatchedButUnbound`), and a doubly bound one crosses as the wrong resource
  (`MatchedButIllTyped`). For any matched signature `FromCalleeSound` says exactly when a result
  crosses, and both soundness theorems say that it is well typed exactly when it agrees with the
  signature (`Agrees`); with imports bound once that leaves only the items of futures and streams
  (`AgreesIffPlain`);
- the first missing range can end, short of the total, at a byte that is missing too
  (`GapCanEndEarly`), exactly when an empty range is on record there (`GapEndMissingIff`);
- a guarded start can overwrite a live runner while a shutdown stops services without a guard
  (`UnguardedCanLose`), exactly when a failed stop put the runner back after the start's check
  (`OverwriteIffRestored`). The daemon refuses new commands and drains and aborts its sessions before
  it stops services, so this race needs a stream task that outlives its aborted session, or an
  orchestrator used directly from several tasks. While no two starts or stops of one service overlap
  nothing is lost (`OneAtATimeLosesNothing`), and command guards see to that (`GuardedLosesNothing`);
- the active release can dangle outside its own swap (`ActiveCanDangle`): exactly the steps that make
  it so are a torn write whose remains name no release, and a failed restore or a cut-off swap of the
  active release (`LosesExactly`); in a run without them it never does (`ActiveResolves`);
- a deploy that reports an error may have changed the active release (`FailedDeployCanChange`):
  exactly when a write of that file was torn and left another value, or when the deploy had written
  a release other than the one it found and its policy write did not complete (`FailedDeploy`);
- an accepted cancel and a spawn that goes ahead can both happen (`BothCanHappen`), exactly when the
  spawn is settled and then marked again (`CancelAndSpawn`).

## Model

| member | source | states |
|---|---|---|
| `ResourceTable.ResourceState.AllocateTypeId` | crates/imagod-runtime-wasmtime/src/lib.rs:134-146 | the same key always gets the same type id, a new key the next unused one |
| `ResourceTable.ResourceState.InsertResource` | crates/imagod-runtime-wasmtime/src/lib.rs:148-156 | a stored resource gets a rep never used before, until reps run out at 32 bits, which is an error that changes nothing |
| `ResourceTable.ResourceState.RemoveResource` | crates/imagod-runtime-wasmtime/src/lib.rs:162-165 | takes out exactly the named resource |
| `ResourceTable.ResourceState.DropResource` | crates/imagod-runtime-wasmtime/src/plugin_resolver.rs:469-507 | dropping a handle removes exactly its resource, also when the type id is wrong; it succeeds exactly for a stored resource of that type id and returns it |
| `Bridge.BridgeResource` | crates/imagod-runtime-wasmtime/src/plugin_resolver.rs:1496-1558 | moves, borrows or mints one handle in place, as the specification function does in both directions |
| `Bridge.BridgeValue` | crates/imagod-runtime-wasmtime/src/plugin_resolver.rs:1216-1476 | translates a value of any type against the table in place; result and table are those of the specification function |
| `Bridge.BridgeOption` | crates/imagod-runtime-wasmtime/src/plugin_resolver.rs:1338-1354 | the same for an optional payload, with its mismatch error |
| `Bridge.BridgeValues` | crates/imagod-runtime-wasmtime/src/plugin_resolver.rs:1216-1336 | the same for a sequence, left to right, stopping at the first failure |
| `Bridge.BridgeFields` | crates/imagod-runtime-wasmtime/src/plugin_resolver.rs:1216-1336 | the same for record fields, with their name checks |
| `Bridge.FindBindingIff` | crates/imagod-runtime-wasmtime/src/plugin_resolver.rs:1204-1214 | the bridge uses the first binding of an imported resource and fails only if there is none |
| `Bridge.FindCaseIff` | crates/imagod-runtime-wasmtime/src/plugin_resolver.rs:1287-1300 | a variant value is translated with the first case of its name and refused only if there is none |
| `BridgeMatching.MatchesIff` | crates/imagod-runtime-wasmtime/src/plugin_resolver.rs:1006-1132 | the matcher accepts two types exactly when they look alike at every position: same kind, names and number of parts, and at handles resources that are equal or bound to each other |
| `BridgeMatching.BoundHandlesMatch` | crates/imagod-runtime-wasmtime/src/plugin_resolver.rs:1101-1118 | a bound pair of resources matches both owned and borrowed, as a method's receiver is |
| `BridgeRoundTrip.RoundTrip` | crates/imagod-runtime-wasmtime/src/plugin_resolver.rs:1216-1558 | a value handed out and passed back at the same type is the original value and restores the resource map exactly, with only the rep counter advanced |
| `BridgeRoundTrip.RunEvolves` | crates/imagod-runtime-wasmtime/src/lib.rs:115-165 | over every run of bridge calls and drops counters only grow and type ids stay assigned |
| `BridgeRoundTrip.LeavesAtMostOnce` | crates/imagod-runtime-wasmtime/src/lib.rs:148-165 | over every run a stored resource leaves the table at most once and its rep is never reused |
| `BridgeRoundTrip.DroppedForGood` | crates/imagod-runtime-wasmtime/src/plugin_resolver.rs:469-507 | over every run a handle once dropped is gone for the rest of the run, whatever type id it was dropped with |
| `BridgeRoundTrip.TypeIdsDistinct` | crates/imagod-runtime-wasmtime/src/lib.rs:134-146 | over every run distinct resource keys have distinct type ids |
| `BridgeRoundTrip.DropTypeCheckNeverFails` | crates/imagod-runtime-wasmtime/src/plugin_resolver.rs:469-507 | over every run the type check on drop succeeds for each handle the bridge minted that is still in the table |
| `BridgeTyping.ToCalleeSound` | crates/imagod-runtime-wasmtime/src/plugin_resolver.rs:1006-1354 | for any matched signature and well-typed argument the translation succeeds exactly when no handle is used after it was moved; it is then the stateless substitution, has taken exactly the owned reps, and is well typed for the callee exactly when the value agrees with the signature |
| `BridgeTyping.ArgumentsSound` | crates/imagod-runtime-wasmtime/src/plugin_resolver.rs:1216-1354 | the same for a whole argument list mapped left to right |
| `BridgeTyping.FromCalleeSound` | crates/imagod-runtime-wasmtime/src/plugin_resolver.rs:1356-1494 | for any matched signature a well-typed result comes back exactly when it holds no borrow, all its handles are of imported resources and reps have room; its fresh handles stand for the callee's resources in order, and it is well typed for the importer exactly when the value agrees with the signature |
| `BridgeTyping.MatchedButUnbound` | crates/imagod-runtime-wasmtime/src/plugin_resolver.rs:1104-1118 | identical resource types match without a binding, and no value of such a type crosses |
| `BridgeTyping.LeafCrosses` | crates/imagod-runtime-wasmtime/src/plugin_resolver.rs:1496-1558 | in either direction some handle of a resource crosses exactly when that resource is imported |
| `BridgeTyping.MatchedButIllTyped` | crates/imagod-runtime-wasmtime/src/plugin_resolver.rs:1204-1214 | with two bindings for one import a matched, well-typed argument crosses ill typed |
| `BridgeTyping.AgreesIffPlain` | crates/imagod-runtime-wasmtime/src/plugin_resolver.rs:1006-1132 | when imports are bound once and callee resources are not imported, a value of any depth agrees with the signature exactly when the futures and streams it holds have items without resources |
| `BridgeTyping.BridgeableAgrees` | crates/imagod-runtime-wasmtime/src/plugin_resolver.rs:1006-1132 | when in addition no future or stream of the signature mentions a resource, every value agrees, so all that crosses is well typed |
| `BridgeTyping.BorrowsLeaveTable` | crates/imagod-runtime-wasmtime/src/plugin_resolver.rs:1496-1533 | an argument that only borrows leaves the table as it was, also when it is refused |
| `Names.BelowIff` | crates/imagod-runtime-wasmtime/src/plugin_resolver.rs:91-107 | the order on names is lexicographic: a proper prefix comes first and otherwise the first difference decides |
| `Planner.IndexByName` | crates/imagod-runtime-wasmtime/src/plugin_resolver.rs:54-62 | indexes the dependencies by name, or reports a duplicate exactly when names are not unique |
| `Planner.CollectImplicitProviders` | crates/imagod-runtime-wasmtime/src/plugin_resolver.rs:927-949 | the providers inferred from a dependency's imports |
| `Planner.AddDependencyEdge` | crates/imagod-runtime-wasmtime/src/plugin_resolver.rs:886-895 | adds one edge once and keeps every indegree equal to the number of predecessors |
| `Planner.BuildEdges` | crates/imagod-runtime-wasmtime/src/plugin_resolver.rs:64-89 | the explicit and inferred edges with exact indegrees, or an unknown requirement |
| `Planner.InitialReady` | crates/imagod-runtime-wasmtime/src/plugin_resolver.rs:91-96 | exactly the dependencies without predecessors |
| `Planner.ReleaseSuccessors` | crates/imagod-runtime-wasmtime/src/plugin_resolver.rs:98-107 | lowers the successors' indegrees, where the saturating subtraction never saturates, and readies exactly those that reach zero |
| `Planner.DependencyTopologicalOrder` | crates/imagod-runtime-wasmtime/src/plugin_resolver.rs:49-116 | returns the plan, or the error that applies, for every dependency list |
| `Planner.PlanDecides` | crates/imagod-runtime-wasmtime/src/plugin_resolver.rs:49-116 | the outcome is the one the graph decides: a duplicate name, an unknown requirement, a cycle of explicit and inferred edges, or a plan |
| `Planner.EdgesPointForward` | crates/imagod-runtime-wasmtime/src/plugin_resolver.rs:91-116 | in a plan every explicit or inferred edge points forward |
| `Planner.PlanIgnoresListingOrder` | crates/imagod-runtime-wasmtime/src/plugin_resolver.rs:91-115 | permuting the dependency list changes neither the outcome nor the sequence of names |
| `Linker.PlannedOrderResolves` | crates/imagod-runtime-wasmtime/src/plugin_resolver.rs:118-148 | at every position of a plan every import resolves as if all other plugins were already available |
| `Linker.ResolveImports` | crates/imagod-runtime-wasmtime/src/plugin_resolver.rs:337-374 | at its place in the plan a plugin's imports all resolve exactly when each names its own export or another declared plugin |
| `Linker.InstantiatePlugins` | crates/imagod-runtime-wasmtime/src/plugin_resolver.rs:151-257 | succeeds exactly when every import names the plugin's own export or another declared plugin; a provider that exists but is not instantiated is met only for an unexported interface of the plugin's own package |
| `Linker.ResolveAppImports` | crates/imagod-runtime-wasmtime/src/runtime_entry.rs:358-375 | the application's own imports resolve exactly when each names a declared plugin, also if the application exports the interface itself, and never fail for want of an instantiated plugin |
| `Linker.LinkApplication` | crates/imagod-runtime-wasmtime/src/runtime_entry.rs:349-375 | plugins and then application link exactly when every plugin import and every application import resolves; only a plugin can meet an uninstantiated provider |
| `Ranges.MergeRange` | crates/imagod-control/src/artifact_store/commit.rs:93-110 | push, stable sort and one merging pass compute the merged list |
| `Ranges.MergeAddsRange` | crates/imagod-control/src/artifact_store/commit.rs:93-117 | merging keeps ranges ascending with gaps between them and adds exactly the incoming bytes |
| `Ranges.AbsorbSaturates` | crates/imagod-control/src/artifact_store/commit.rs:93-117 | merging two ranges covers both and cuts their end off at the last 64-bit offset |
| `Ranges.CompleteIffCovered` | crates/imagod-control/src/artifact_store/commit.rs:29-35 | the one-range test holds exactly when every byte is covered |
| `Ranges.NextMissingRange` | crates/imagod-control/src/artifact_store/commit.rs:37-61 | the first gap: starts at the first uncovered byte, holds no covered byte and ends at the next offset on record or at the total; none exactly when all is covered |
| `Ranges.GapCanEndEarly` | crates/imagod-control/src/artifact_store/commit.rs:37-61 | after an empty chunk is merged the first gap can end at a byte that is missing too |
| `Ranges.GapEndMissingIff` | crates/imagod-control/src/artifact_store/commit.rs:37-61 | in every canonical list the byte at which the first gap ends, short of the total, is missing too exactly when an empty range is on record there |
| `Ranges.AllMissingRanges` | crates/imagod-control/src/artifact_store/commit.rs:63-91 | all gaps, ascending and disjoint, each ending at the next offset on record or at the total, together exactly the uncovered bytes |
| `UploadSessions.SessionStore.CollectSessionCleanup` | crates/imagod-control/src/artifact_store.rs:168-193 | one sweep removes the expired uploads, the stale committed sessions and the least recently used ones beyond the limit, with just their idempotency entries |
| `UploadSessions.SweepBounds` | crates/imagod-control/src/artifact_store/session_index.rs:43-135 | after a sweep no idle upload is untouched for longer than its limit, no unprotected idle committed session for longer than its own, and the protected and the idle committed ones number at most the limit unless the protected ones alone exceed it |
| `UploadSessions.SweepTakes` | crates/imagod-control/src/artifact_store/session_index.rs:43-135 | a sweep takes an upload exactly when nobody works on it and it has outlived its limit, spares a committed session that is worked on or protected, and takes the others once they have outlived theirs |
| `UploadSessions.SweepEvicts` | crates/imagod-control/src/artifact_store/session_index.rs:95-135 | a committed session within its age limit is taken only if there are more than the limit, and not before one touched less recently |
| `UploadSessions.SessionStore.ChooseOrphans` | crates/imagod-control/src/artifact_store/session_index.rs:69-135 | takes all stale committed sessions and as many of the least recently used as exceed the limit |
| `UploadSessions.SessionStore.RemoveSessions` | crates/imagod-control/src/artifact_store/session_index.rs:164-184 | removes exactly the listed sessions, and exactly the index entries that pair one of them with its own key |
| `UploadSessions.SessionStore.DropOrphanKeys` | crates/imagod-control/src/artifact_store/session_index.rs:145-162 | collecting the orphan keys and removing them one by one keeps exactly the entries whose session is live, unchanged |
| `UploadSessions.SessionStore.ResumeByKey` | crates/imagod-control/src/artifact_store.rs:237-275 | a live session with the key is resumed if the fingerprint agrees and is a conflict otherwise |
| `UploadSessions.SessionStore.Register` | crates/imagod-control/src/artifact_store.rs:320-367 | the new session and its key enter together |
| `UploadSessions.SessionStore.BeginPush` | crates/imagod-control/src/artifact_store.rs:406-456 | lets a chunk in exactly when session, token, commit state, artifact bounds and in-flight limit allow it and then counts it within the limit; a refusal changes nothing and names the failed check, in the order of the protocol's admission |
| `UploadSessions.SessionStore.EndPush` | crates/imagod-control/src/artifact_store.rs:472-498 | counts the chunk out and merges its range only if it was written |
| `UploadSessions.SessionStore.BeginCommit` | crates/imagod-control/src/artifact_store.rs:512-560 | goes ahead exactly for the announced metadata with no commit or write under way and a complete list, which means every byte was received, and then shuts out every push; a refusal changes nothing |
| `UploadSessions.SessionStore.EndCommit` | crates/imagod-control/src/artifact_store.rs:561-605 | marks the session committed exactly when the file's digest is the announced one |
| `UploadSessions.SessionStore.LookupCommitted` | crates/imagod-control/src/artifact_store.rs:611-652 | finds and refreshes a session exactly when it was live and committed before, since its own sweep never takes it |
| `UploadSessions.SessionStore.PurgeDeploySession` | crates/imagod-control/src/artifact_store.rs:691-711 | removes the session and its key, and beside it only what its sweep takes |
| `UploadSafety.StepKeeps` | crates/imagod-control/src/artifact_store.rs:204-714 | every step of every request keeps the protocol invariant |
| `UploadSafety.PushWriteKeeps` | crates/imagod-control/src/artifact_store/chunk_pipeline.rs:34-56 | each partial write of a chunk keeps the invariant; it cannot hit a committed file or one being digested |
| `UploadSafety.CleanFileKeeps` | crates/imagod-control/src/artifact_store.rs:731-745 | a planned file removal never hits the file of a live session or of one being created |
| `UploadSafety.SweepKeeps` | crates/imagod-control/src/artifact_store.rs:168-193 | removing any sessions disturbs neither the other sessions nor any request under way |
| `UploadTheorems.CountersExact` | crates/imagod-control/src/artifact_store.rs:422-498 | in every run the in-flight counter equals the pushes between their two sections, within the limit, and a commit or committed session excludes them |
| `UploadTheorems.PushFinishCounts` | crates/imagod-control/src/artifact_store.rs:472-498 | in every run the guarded decrement fires, also after a failed write |
| `UploadTheorems.CommittedIsWhole` | crates/imagod-control/src/artifact_store.rs:512-605 | in every run a committed artifact is on disk with the announced size and digest, and exactly its bytes were acknowledged |
| `UploadTheorems.CommittedNeverChanges` | crates/imagod-control/src/artifact_store.rs:406-605 | in every run an artifact that is still live after its commit has the same bytes |
| `UploadProvenance.CommittedBytesWereSent` | crates/imagod-control/src/artifact_store.rs:370-498 | in every run each byte of a committed artifact was sent for its place by an earlier push with the session's upload token |
| `UploadTheorems.SessionHistory` | crates/imagod-control/src/artifact_store.rs:204-714 | in every run a live session keeps key, fingerprint, token, size and digests for life |
| `UploadTheorems.PinnedStays` | crates/imagod-control/src/artifact_store.rs:155-202 | in every run a pinned committed session survives every sweep until it is purged or unpinned |
| `UploadLifetimes.UploadLeavesIff` | crates/imagod-control/src/artifact_store.rs:168-193 | in every run an upload leaves the store at a step exactly when it is purged, or some request sweeps while nobody works on it and it was not touched for the upload limit |
| `UploadLifetimes.CommittedLeaves` | crates/imagod-control/src/artifact_store.rs:168-193 | in every run a committed session leaves only by a purge or by a sweep that finds it idle and unprotected, certainly if it outlived its limit and otherwise only while there are too many |
| `UploadLifetimes.LeaverIsPlanned` | crates/imagod-control/src/artifact_store.rs:168-193 | in every run the request that removes a session takes its file into its cleanup plan, unless it is a push, commit or lookup refused after its sweep |
| `UploadLifetimes.LastUse` | crates/imagod-control/src/artifact_store.rs:237-652 | in every run a session carries the time of the last request that was given it, let in on it, finished on it or found it committed |
| `UploadLifetimes.RequestsLimited` | crates/imagod-control/src/artifact_store.rs:215-400 | in every run no push under way exceeds the chunk limit and no prepare under way the artifact limit |
| `UploadLifetimes.SessionsLimited` | crates/imagod-control/src/artifact_store.rs:215-227 | in every run a live session announces at most the artifact limit |
| `UploadLifetimes.PinsCounted` | crates/imagod-control/src/artifact_store.rs:108-166 | in every run a session is pinned exactly while more pins were taken than given back |
| `UploadLifetimes.RemovedStaysRemoved` | crates/imagod-control/src/artifact_store.rs:731-745 | in every run a removed session file never comes back |
| `UploadTheorems.OneSessionPerKey` | crates/imagod-control/src/artifact_store.rs:237-367 | in every run at most one live session has a given idempotency key |
| `UploadTheorems.RetriesAgree` | crates/imagod-control/src/artifact_store.rs:237-367 | in every run, once a prepare got an id, later prepares with the key get that id or, with another fingerprint, a conflict, as long as the session survives |
| `UploadTheorems.LoserCleansUp` | crates/imagod-control/src/artifact_store.rs:300-367 | in every run a prepare that loses the race plans the removal of its own file, and its id never goes live |
| `SupervisorSafety.StepKeeps` | crates/imagod-control/src/service_supervisor.rs:432-845 | every lock section of every start, stop and reap, guarded or not, keeps ownership, index, starting set and gate consistent |
| `SupervisorSafety.OneOwner` | crates/imagod-control/src/service_supervisor.rs:432-766 | in every run a runner is under at most one service and in at most one task's hands, never both |
| `SupervisorSafety.LiveAccounted` | crates/imagod-control/src/service_supervisor.rs:432-845 | in every run a live process is in the table, held by a task, overwritten, or given up after a failed kill |
| `SupervisorSafety.OneAtATimeLosesNothing` | crates/imagod-control/src/service_supervisor.rs:432-766 | in every run in which no two starts or stops of one service overlap, guarded or not (boot restore, serving and a drained shutdown included), no insert overwrites an entry, no failed stop finds its name taken, and every live process stays owned unless its kill failed |
| `SupervisorSafety.GuardedLosesNothing` | crates/imagod-control/src/orchestrator.rs:233-269 | while all starts and stops hold command guards no two of one service overlap, and so nothing is lost either |
| `SupervisorSafety.UnguardedCanLose` | crates/imagod-control/src/service_supervisor.rs:769-801 | a run with no command after the shutdown's first stop, which is its only unguarded task: a start that holds its guard has overwritten the live runner which that failed stop put back, and nothing accounts for it |
| `SupervisorSafety.OverwriteIffRestored` | crates/imagod-control/src/service_supervisor.rs:526-546 | in every run the insert of a start replaces a runner exactly when, since its check, a failed stop of the service put its runner back and it is still there |
| `SupervisorSafety.IndexComplete` | crates/imagod-control/src/service_supervisor.rs:526-546 | in every run a runner in the table is in the index under its service, or whoever put it there is about to enter it, and the index never gives it another service |
| `SupervisorSafety.IndexedWhileInTable` | crates/imagod-control/src/service_supervisor.rs:1238-1247 | in every run a runner once entered in the index stays there, under its service, for as long as it stays in the table |
| `SupervisorSafety.StartsExclusive` | crates/imagod-control/src/service_supervisor.rs:1211-1236 | in every run the starting set is exactly the services with a start between reserve and release, one start each |
| `SupervisorSafety.GateExclusive` | crates/imagod-control/src/orchestrator.rs:233-269 | in every run the in-flight set is exactly the names of held guards and no two tasks hold the same one |
| `SupervisorSafety.GuardHeldThroughout` | crates/imagod-control/src/orchestrator.rs:1273-1287 | in every run a command holds the guard of the service it works on until it leaves, also across a rebind |
| `ServiceTable.CommandGate.Acquire` | crates/imagod-control/src/orchestrator.rs:239-253 | grants a guard exactly when nobody holds it, as the first step of a command |
| `ServiceTable.CommandGate.Release` | crates/imagod-control/src/orchestrator.rs:261-269 | the last step of a command: its service can be acquired again and no other command's guard is freed |
| `ServiceTable.CommandGate.Rebind` | crates/imagod-control/src/orchestrator.rs:1273-1287 | a path of steps that moves the guard to the manifest's service, or keeps the old one exactly if that is taken; a guard is held at the end in either case |
| `ServiceTable.RunningTable.ReapFinished` | crates/imagod-control/src/service_supervisor.rs:804-845 | a path of steps that drops exactly the entries whose process has exited, with their index entries |
| `ServiceTable.RunningTable.ReapFinishedService` | crates/imagod-control/src/service_supervisor.rs:1309-1347 | a path of the start's sections; takes the service out of table and index exactly if it was there, its process has exited and the wait found out |
| `ServiceTable.RunningTable.ReserveStart` | crates/imagod-control/src/service_supervisor.rs:1211-1232 | a path from the reservation to the spawn or back; admits a start exactly when the service is not being started and not running, or its runner was found to have exited, and gives the reservation back otherwise |
| `ServiceTable.RunningTable.Start` | crates/imagod-control/src/service_supervisor.rs:432-584 | a path of the start's sections; succeeds exactly when the service is not being started, nothing live or undetected runs under its name, and the new runner is spawned and boots; the new runner is then its entry, and after a failure it is out of table and index and killed unless the kill failed; the reservation is always given back |
| `ServiceTable.RunningTable.AwaitBoot` | crates/imagod-control/src/service_supervisor.rs:548-584 | the start succeeds exactly when the runner boots, and only otherwise its entry is taken out and its process killed |
| `ServiceTable.RunningTable.CleanupStartFailure` | crates/imagod-control/src/service_supervisor.rs:1249-1260 | a path that takes exactly the failed start's entry out of table and index and kills its process |
| `ServiceTable.RunningTable.Stop` | crates/imagod-control/src/service_supervisor.rs:650-766 | a path of the stop's sections; nothing to stop exactly when the service is absent or its runner found exited, and otherwise success exactly when the system call succeeds; table, index and processes after each outcome |
| `ServiceTable.RunningTable.RestoreAfterStopError` | crates/imagod-control/src/service_supervisor.rs:1426-1477 | a path of the stop's last sections; the runner goes back into table and index unless it was found exited or its name is taken, and only in the last case it is killed |
| `Releases.CompareAndSet` | crates/imagod-control/src/orchestrator.rs:513-535 | in every run each change of the active release, torn or not, is made by a deploy whose request names the replaced value, or "none" if there was none, or "any"; a completed change writes that deploy's release, which is in place, and the rollback write changes the value only when torn |
| `Releases.BeginIff` | crates/imagod-control/src/orchestrator.rs:811-860 | a deploy is let in exactly when none is under way, its restart policy and the recorded one are among the four known ones, and the active release is the expected one |
| `Deploys.CompareAndSet` | crates/imagod-control/src/orchestrator.rs:294-336 | over all interleavings each change of a service's active release, torn or not, is made by one deploy of that service whose request names the replaced value, "none" if there was none, or "any", and a completed one writes its own release, which is in place |
| `Deploys.ServiceRun` | crates/imagod-control/src/orchestrator.rs:290-342 | per service, any interleaving of deploys under the command gate is a run of one deploy at a time |
| `Deploys.StepRefines` | crates/imagod-control/src/orchestrator.rs:1273-1287 | every step of the interleaved machine is, for each service, a step of the one-deploy machine or none |
| `Deploys.GateHeld` | crates/imagod-control/src/orchestrator.rs:233-269 | over all interleavings a service is gated exactly while some command holds its guard |
| `Releases.SuccessfulDeploy` | crates/imagod-control/src/orchestrator.rs:290-342 | a successful deploy leaves its release active and in place with its content and policy, and beside it at most its predecessor, untouched if it is another release |
| `Releases.DeployCanSucceed` | crates/imagod-control/src/orchestrator.rs:290-342 | from every directory every deploy that is let in can go through, leaving exactly its release and the previous one |
| `Releases.FailedDeploy` | crates/imagod-control/src/orchestrator.rs:331-336 | a deploy that ends left the active release alone exactly when it had not written its own or found the same value, and after a torn write exactly when what it left is the value found |
| `Releases.FailedDeployCanChange` | crates/imagod-control/src/orchestrator.rs:331-336 | from every first request, a run in which the policy write fails, leaving anything, after the active release has changed |
| `Releases.RollbackRestores` | crates/imagod-control/src/orchestrator.rs:513-552 | when a rollback starts the previous release, and when it then ends, both files are as the deploy found them, and so is that release's directory unless the deploy brought the same release, which then holds the deploy's content |
| `Releases.FailedReplace` | crates/imagod-control/src/orchestrator.rs:513-552 | in every run a release that does not start is rolled back exactly when that was asked for and there is a previous one |
| `Releases.GoesOn` | crates/imagod-control/src/orchestrator.rs:290-342 | in every run a deploy goes on after a file operation exactly when that succeeded and was not the last, when a failed swap is undone, or when a failed release is rolled back |
| `Releases.RollbackPath` | crates/imagod-control/src/orchestrator.rs:513-552 | such a rollback can get to the start of the previous release with both files as found |
| `Releases.ActiveResolves` | crates/imagod-control/src/orchestrator.rs:642-691 | in every run without a torn write that left the name of no release, a failed restore or a cut-off swap of the active release, that release names a directory except while that release is swapped, when its old content is in the backup |
| `Deploys.ActiveResolves` | crates/imagod-control/src/orchestrator.rs:290-342 | the same for each service over all interleavings, including the content of the backup |
| `Releases.LosesExactly` | crates/imagod-control/src/orchestrator.rs:1233-1247 | in every run those failures leave the active release dangling with the deploy over, and no other step makes it dangle outside its swap |
| `Releases.ActiveCanDangle` | crates/imagod-control/src/orchestrator.rs:1233-1247 | a run in which redeploying the active release, with swap and restore failing, leaves it dangling |
| `Releases.ReleaseDirs.PromoteStaging` | crates/imagod-control/src/orchestrator.rs:1197-1249 | for every combination of outcomes of the four file operations, with whatever a failed removal leaves, what the directory then holds and whether the promotion succeeded, as a path of the deploy's steps to the cleanup or to its end |
| `Releases.ReleaseDirs.CleanupOldReleases` | crates/imagod-control/src/orchestrator.rs:888-928 | keeps the new and the previous release, and on success nothing else; fails exactly when another one cannot be removed, of which anything may remain while all others are untouched or gone; a path of cleanup steps to the launch or to the deploy's end |
| `Operations.OperationManager.StartOperation` | crates/imagod-control/src/operation_state.rs:48-74 | registers a request once and reports busy while it is registered |
| `Operations.OperationManager.SetOperationState` | crates/imagod-control/src/operation_state.rs:77-95 | overwrites state and stage of a registered request |
| `Operations.OperationManager.MarkSpawnedIfNotCanceled` | crates/imagod-control/src/operation_state.rs:98-124 | lets the spawn proceed unless a cancel is pending, and settles the phase either way |
| `Operations.OperationManager.RequestCancel` | crates/imagod-control/src/operation_state.rs:154-189 | accepts a cancel only before the spawn is settled and while the request is not terminal |
| `Operations.OperationManager.FinishOperation` | crates/imagod-control/src/operation_state.rs:192-201 | settles the request and drops a pending cancel |
| `Operations.OperationManager.SnapshotRunning` | crates/imagod-control/src/operation_state.rs:126-151 | shows a registered request's state unless it is final |
| `Operations.OperationManager.RemoveOperation` | crates/imagod-control/src/operation_state.rs:203-207 | the request is no longer registered |
| `Operations.PendingOnlyWhileStarting` | crates/imagod-control/src/operation_state.rs:48-207 | in every run a pending cancel implies that the spawn is not settled |
| `Operations.EntryHistory` | crates/imagod-control/src/operation_state.rs:98-201 | in every interleaving an entry's phase and pending flag say exactly which calls its lifetime has seen |
| `Operations.StateHistory` | crates/imagod-control/src/operation_state.rs:77-201 | in every interleaving an entry holds the state and stage its lifetime recorded last |
| `Operations.LifetimeReplies` | crates/imagod-control/src/operation_state.rs:126-189 | in every lifetime a cancel is accepted exactly before the spawn is settled and reports the last state afterwards, and cancel and snapshot find nothing once a final state was recorded |
| `Operations.CancelAndSpawn` | crates/imagod-control/src/operation_state.rs:98-189 | in one lifetime an accepted cancel and a spawn that proceeds both occur exactly when, after the cancel, the spawn is settled and marked again |
| `Operations.BothCanHappen` | crates/imagod-control/src/operation_state.rs:98-189 | a lifetime of four calls in which a cancel is accepted and the spawn still proceeds |
| `Operations.CancelOrSpawn` | crates/imagod-control/src/operation_state.rs:98-189 | with one mark and none after finish, an accepted cancel precedes the mark and the mark reports the cancel |
| `Listing.CollectDeployed` | crates/imagod-control/src/orchestrator.rs:930-990 | the non-empty active releases of the wanted services, or an error exactly when a wanted file cannot be read |
| `Listing.MergeStates` | crates/imagod-control/src/orchestrator.rs:992-1030 | one status per deployed or running service, with runtime data overriding what is on disk |
| `Listing.ViewShows` | crates/imagod-control/src/orchestrator.rs:992-1030 | a service is shown with its last snapshot, running or stopping, and one that does not run with the release on disk, stopped |
| `Listing.ListServiceStates` | crates/imagod-control/src/orchestrator.rs:427-451 | the restricted merged view in ascending name order, each service once |
| `Listing.FilteredListing` | crates/imagod-control/src/orchestrator.rs:427-451 | a filtered listing is, row by row, the full listing filtered |

## Left out

- ServiceTable.RunningTable.Start: runs its sections without other sections in between, as the other methods of that class do; interleavings are the subject of Supervisor and SupervisorSafety.
- Wasmtime linking, asynchronous shims, native plugins and binding calls: only the provider decision and the value translation are modelled.
- SHA-256, UUIDs, tokens and authentication proofs: the digest is an arbitrary function and ids are fresh.
- The chunk hash check of a push, made before its first critical section, and the texts and details of errors.
- Tar extraction, manifest parsing, launch building and the plugin cache: a deploy's staged content and its launch outcome are given.
- Imports served by service bindings, the readiness channel of a starting runner and the counters of services being stopped.
- Log buffers, heartbeats, control handlers, HTTP ingress, timeouts and process spawning: their outcomes are arbitrary choices of a step.
- Request futures dropped in mid-section; a deploy may be cut off between any two file operations.
- Which of several equally old sessions a sweep evicts, and directory names that are not valid text.
- Whether every swept file is deleted: requests that are refused inside a critical section, or fail in their second one, leave it to nobody, so only its planning is claimed.
- The runner index may hold stale entries, because an insert and its index entry are separate sections; no claim excludes them.
- The command line tools, configuration loading, schemas, macros and capability matching: plumbing or single-function validation.
