# FetchModulesBuilder registry model

This project models the object registry of Fetch's `FetchModulesBuilder`
(`fetch2/.../fetch/FetchModulesBuilder.kt`). The registry keys a "holder" by
namespace string. On the first `buildModulesFromPrefs` for a namespace it
assembles the shared part of the download engine:

- a new handler wrapper
- the database manager: the one the configuration supplies, or a new one
- a new download provider
- a new download-manager coordinator
- a new group-info provider
- a new listener coordinator
- the main UI handler, which the registry creates once, with itself, and every
  holder shares

It stores these, together with the network info provider of the first
`Modules`, as a `Holder`. Every call, including a reuse, returns a new
`Modules`. Each `Modules` has its own download info updater, network info
provider, download manager, priority list processor and fetch handler. A usage
counter counts live callers. When `removeNamespaceInstanceReference` brings the
counter to zero, six teardown calls run in a fixed order and the entry is
removed.

Files:

- `collaborators.dfy` (module `FetchCollaborators`): collaborators as opaque
  identities (`Ref`, and `DbRef` for database managers), `SharedPieces`,
  `Holder`, `Modules`, teardown `Event`s and the teardown sequence.
- `holder_registry.dfy` (module `HolderRegistry`): the registry as a value
  `RegistryState`.
  - `Acquire` models `buildModulesFromPrefs`. Its two branches are
    `ReuseHolder` and `RegisterHolder`.
  - `Release` models `removeNamespaceInstanceReference`.
  - Lemmas cover sequences of calls.
- `modules_builder.dfy` (module `ModulesBuilder`): class
  `FetchModulesBuilder`. Its two public methods update its fields, among them
  `holderMap`, in place. Each method is proved to take exactly the step the
  corresponding function takes, so every lemma about the functions holds of the
  class.
- `wrappers.dfy`: `Option` and `Result`.

Modelling choices:

- **Object identity.** Creating a collaborator with `new` takes the next unused
  `Ref` from `nextRef`. The main UI handler is created with the registry, as
  `Ref` 0. An application-supplied database manager
  (`fetchConfiguration.fetchDatabaseManager`) was created by the application,
  not by the registry. It is a `DbRef.Supplied` identity, in a space of its own,
  so it never coincides with an object the registry creates. Two configurations
  may supply the same one.
- **Usage counter.** The `HandlerWrapper` usage counter is the entry's
  `usageCount`. A new handler wrapper is taken to start at 0, so the first
  acquire leaves the count at 1 (`HandlerWrapper` is not part of this model).
- **Teardown.** Teardown calls are appended to `log`.
- **Delegate.** The database manager's temp-file delegate, which every
  `Modules` constructor overwrites (line 148), is recorded as the map
  `delegates`, from database manager to the configuration the delegate was
  built from.
- **Construction failure.** A collaborator that throws during construction is
  the `buildFails` input to `Acquire`. The registry is then returned unchanged
  and the caller gets `Failure(ConstructionFailed)`. The map write at line 55
  comes after every constructor call.

The six teardown calls (lines 70-75) run in sequence with no exception
handling. If one of them throws, the later calls and `holderMap.remove`
(line 76) are skipped. The model assumes the teardown calls return normally
(see "Left out").

## Model

| member | source | states |
|---|---|---|
| HolderRegistry.Acquire | fetch2/src/main/java/com/tonyodev/fetch2/fetch/FetchModulesBuilder.kt:32-62 | keeps the invariant (every entry in use at least once, shares the main UI handler, built from already-used identities); fails exactly when construction fails, and then leaves the registry unchanged; never tears anything down; a successful call leaves the namespace registered |
| HolderRegistry.ReuseHolder | fetch2/src/main/java/com/tonyodev/fetch2/fetch/FetchModulesBuilder.kt:34-37 | for a present namespace (with the increment at line 59): no new holder; the map equals the old map with only this entry's count raised by 1; the returned Modules shares all seven holder pieces, has new collaborators of its own, and its network provider is stored by no entry; the shared database manager's delegate now uses this configuration |
| HolderRegistry.RegisterHolder | fetch2/src/main/java/com/tonyodev/fetch2/fetch/FetchModulesBuilder.kt:38-57 | for an absent namespace (with the increment at line 59): the map equals the old map plus exactly one entry with count 1, whose holder is the returned Modules' shared pieces and that Modules' network provider; the UI handler is the main one; the database manager is the configuration's when it supplies one, otherwise a built one; every other shared piece and the Modules' own collaborators are new objects; the handler wrapper is distinct from every other entry's |
| HolderRegistry.RegisteredHolderIsNew | fetch2/src/main/java/com/tonyodev/fetch2/fetch/FetchModulesBuilder.kt:38-57 | every object built for a newly registered holder (all but the main UI handler and a supplied database manager) is new, so none of them belongs to the holder of any other namespace |
| HolderRegistry.Release | fetch2/src/main/java/com/tonyodev/fetch2/fetch/FetchModulesBuilder.kt:64-80 | keeps the invariant; an unknown namespace changes nothing and logs nothing; a count above 1 drops by exactly 1, the holder stays and nothing is logged; a count of 1 appends the six teardown calls (close handler, clear listeners, clear group info, close database, clear coordinator, unregister network listeners), in that order, then removes the entry; no other entry changes |
| HolderRegistry.AcquireKeepsHoldersDisjoint | fetch2/src/main/java/com/tonyodev/fetch2/fetch/FetchModulesBuilder.kt:32-62 | if no object built for one namespace's holder belongs to another's, that still holds after any acquire: a reuse changes no holder and a new holder is built of new objects |
| HolderRegistry.ReleaseKeepsHoldersDisjoint | fetch2/src/main/java/com/tonyodev/fetch2/fetch/FetchModulesBuilder.kt:64-80 | a release keeps the holders of different namespaces disjoint: it changes no holder and only removes entries |
| HolderRegistry.AcquireTimes | fetch2/src/main/java/com/tonyodev/fetch2/fetch/FetchModulesBuilder.kt:32-62 | successful acquires with any sequence of configurations keep the registry invariant |
| HolderRegistry.ReleaseTimes | fetch2/src/main/java/com/tonyodev/fetch2/fetch/FetchModulesBuilder.kt:64-80 | any number of releases keep the registry invariant, so a decrement never goes below zero |
| HolderRegistry.AcquireTimesPresent | fetch2/src/main/java/com/tonyodev/fetch2/fetch/FetchModulesBuilder.kt:34-37 | acquires of a present namespace with any k configurations for it keep its holder, raise its count by exactly k, change no other entry, and log nothing |
| HolderRegistry.DelegateFollowsLatest | fetch2/src/main/java/com/tonyodev/fetch2/fetch/FetchModulesBuilder.kt:34-37 | after k >= 1 acquires of a present namespace, the shared database manager's temp-file delegate uses the last of the k configurations (each `Modules` overwrites it at line 148) and no other delegate changes |
| HolderRegistry.ReleaseTimesPresent | fetch2/src/main/java/com/tonyodev/fetch2/fetch/FetchModulesBuilder.kt:66-77 | j releases of a namespace in use c times (j <= c): below c the count is c - j with no teardown; at c the entry is gone and the teardown of its holder has been logged exactly once; no other entry changes |
| HolderRegistry.AcquireTimesAbsent | fetch2/src/main/java/com/tonyodev/fetch2/fetch/FetchModulesBuilder.kt:38-59 | k >= 1 acquires of an absent namespace, each with its own configuration for it, add one entry with count k whose holder is the first acquire's shared pieces and network provider |
| HolderRegistry.UsageAfterAcquiresAndReleases | fetch2/src/main/java/com/tonyodev/fetch2/fetch/FetchModulesBuilder.kt:55-76 | from absent, k >= 1 acquires (any configurations for the namespace) and j <= k releases: the namespace is present exactly when j < k, with count k - j |
| HolderRegistry.BalancedAcquireRelease | fetch2/src/main/java/com/tonyodev/fetch2/fetch/FetchModulesBuilder.kt:55-76 | from absent, k >= 1 acquires (any configurations for the namespace) then k releases give back the same holder map; the log grows by exactly one teardown of the first acquire's holder, whose last step unregisters the network provider that the first call's Modules created |
| ModulesBuilder.FetchModulesBuilder.constructor | fetch2/src/main/java/com/tonyodev/fetch2/fetch/FetchModulesBuilder.kt:28-30 | the registry starts with an empty holder map, an empty log, no delegates, and the invariant holding |
| ModulesBuilder.FetchModulesBuilder.NewModules | fetch2/src/main/java/com/tonyodev/fetch2/fetch/FetchModulesBuilder.kt:100-154 | a Modules around the given shared pieces, with five newly created collaborators of its own; the shared database manager's delegate is set to this configuration |
| ModulesBuilder.FetchModulesBuilder.BuildSharedPieces | fetch2/src/main/java/com/tonyodev/fetch2/fetch/FetchModulesBuilder.kt:39-52 | creates a new handler wrapper, a database manager only when the configuration supplies none, then a download provider, coordinator, group-info provider and listener coordinator, in that order; the result is the shared pieces the registry function describes |
| ModulesBuilder.FetchModulesBuilder.ReuseBranch | fetch2/src/main/java/com/tonyodev/fetch2/fetch/FetchModulesBuilder.kt:34-37 | for a present namespace, the new Modules and the counter increment at line 59 leave the object exactly as ReuseHolder describes |
| ModulesBuilder.FetchModulesBuilder.RegisterBranch | fetch2/src/main/java/com/tonyodev/fetch2/fetch/FetchModulesBuilder.kt:38-57 | for an absent namespace, building the pieces and the Modules, storing the holder and the increment at line 59 leave the object exactly as RegisterHolder describes |
| ModulesBuilder.FetchModulesBuilder.BuildModulesFromPrefs | fetch2/src/main/java/com/tonyodev/fetch2/fetch/FetchModulesBuilder.kt:32-62 | leaves the object exactly as Acquire describes and returns Acquire's result; the invariant is kept |
| ModulesBuilder.FetchModulesBuilder.RemoveNamespaceInstanceReference | fetch2/src/main/java/com/tonyodev/fetch2/fetch/FetchModulesBuilder.kt:64-80 | the in-place decrement, six teardown calls and map removal leave the object exactly as Release describes; the invariant is kept |

## Left out

- The `synchronized(lock)` blocks (lines 28, 33, 65) are left out. Each call is one atomic step, which is what the lock guarantees.
- The Android `Handler`/`Looper` behind the main UI handler (line 30) is left out. The handler is modelled only by its identity.
- Collaborator internals are left out: `DownloadManagerImpl`, `PriorityListProcessorImpl`, `FetchHandlerImpl`, `FetchDatabaseManagerImpl`, `NetworkInfoProvider`, `HandlerWrapper`, `DownloadProvider`, `GroupInfoProvider`, the coordinators, and the arguments passed to them (lines 39-52, 107-147). These classes are not part of this model, so they are opaque identities.
- `LiveSettings` (line 40) and `DefaultStorageResolver` (line 47) get no identity. They only feed the default database manager.
- The body of `deleteTempFilesForDownload` (lines 149-153) is left out because it is file-system I/O. The model records only which configuration the installed delegate uses.
- The write of `globalNetworkType` into the priority list processor (line 133) is left out. It is a field write into an object not modelled.
- The write of `progressReportingIntervalInMillis` into the optional notification manager (lines 155-156) is left out. It is a side write into an external object.
- Acquire treats a throwing collaborator constructor as failing before any side effect. A constructor that throws inside any `Modules` after the delegate write at line 148 (a reuse's, or a first acquire's, for instance at lines 155-156) would leave the delegate overwritten. The model does not capture that case.
- Release assumes the six teardown calls (lines 70-75) return normally. In the code, a throwing call would skip the remaining calls and the removal at line 76.
- `sampleApp/src/main/java/com/tonyodev/fetchapp/FileServerActivity.java` is left out. It is Android UI, a background thread, and stream and file-server plumbing, with no registry logic.
