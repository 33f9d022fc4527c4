/**
 * The values that FetchModulesBuilder wires together.  Every collaborator
 * (handler wrapper, database manager, providers, coordinators, ...) is an
 * opaque object; the model keeps only its identity, a `Ref`.  Creating a
 * collaborator with `new` is modelled by drawing the next unused `Ref`.
 */
module FetchCollaborators {
  import opened Wrappers

  /** Identity of one collaborator object created by the registry or a Modules. */
  type Ref = nat

  /**
   * Identity of a database manager.  One the application constructed itself
   * and passed in its configuration lives in its own identity space, so it
   * can never coincide with an object the registry creates.
   */
  datatype DbRef = Supplied(id: nat) | Built(ref: Ref)

  /**
   * The parts of a FetchConfiguration that decide the wiring: the namespace
   * that keys the registry and an optional database manager supplied by the
   * application, given by its identity.  All other fields are passed by value
   * into collaborators whose internals are not modelled.
   */
  datatype FetchConfiguration = FetchConfiguration(
    namespace: string,
    fetchDatabaseManager: Option<nat>)

  /** The collaborators that every Modules of one namespace shares. */
  datatype SharedPieces = SharedPieces(
    handlerWrapper: Ref,
    fetchDatabaseManager: DbRef,
    downloadProvider: Ref,
    groupInfoProvider: Ref,
    uiHandler: Ref,
    downloadManagerCoordinator: Ref,
    listenerCoordinator: Ref)

  /** The registry's record: the shared pieces plus the network provider of the first Modules. */
  datatype Holder = Holder(shared: SharedPieces, networkInfoProvider: Ref)

  /**
   * The bundle returned to each caller: its configuration, the shared pieces,
   * and the collaborators that every Modules builds for itself.
   */
  datatype Modules = Modules(
    fetchConfiguration: FetchConfiguration,
    shared: SharedPieces,
    downloadInfoUpdater: Ref,
    networkInfoProvider: Ref,
    downloadManager: Ref,
    priorityListProcessor: Ref,
    fetchHandler: Ref)

  /** Number of collaborators a Modules creates for itself. */
  const ModulesOwnRefs: nat := 5

  /**
   * A Modules built around `shared`, whose own collaborators take the Refs
   * from `next` on, in the order Kotlin initialises them: the property
   * initialisers (download info updater, network info provider) and then the
   * init block (download manager, priority list processor, fetch handler).
   */
  function ModulesAt(config: FetchConfiguration, shared: SharedPieces, next: Ref): Modules
  {
    Modules(config, shared, next, next + 1, next + 2, next + 3, next + 4)
  }

  /** True when none of the Modules' own collaborators existed before `next`. */
  predicate OwnRefsFrom(m: Modules, next: Ref)
  {
    && next <= m.downloadInfoUpdater && next <= m.networkInfoProvider && next <= m.downloadManager
    && next <= m.priorityListProcessor && next <= m.fetchHandler
  }

  /** True when every piece of `shared` the registry creates was created before `next`. */
  predicate SharedBuiltBefore(shared: SharedPieces, next: Ref)
  {
    && shared.handlerWrapper < next && shared.downloadProvider < next
    && shared.groupInfoProvider < next && shared.uiHandler < next
    && shared.downloadManagerCoordinator < next && shared.listenerCoordinator < next
    && (shared.fetchDatabaseManager.Built? ==> shared.fetchDatabaseManager.ref < next)
  }

  /** True when every piece of `shared` the registry creates was created at or after `next`. */
  predicate SharedBuiltFrom(shared: SharedPieces, next: Ref)
  {
    && next <= shared.handlerWrapper && next <= shared.downloadProvider
    && next <= shared.groupInfoProvider && next <= shared.downloadManagerCoordinator
    && next <= shared.listenerCoordinator
    && (shared.fetchDatabaseManager.Built? ==> next <= shared.fetchDatabaseManager.ref)
  }

  /**
   * The identities of the objects built for one holder: everything in it but
   * the main UI handler, which all holders share, and an application-supplied
   * database manager.
   */
  function BuiltPieces(h: Holder): set<Ref>
  {
    var s := h.shared;
    {s.handlerWrapper, s.downloadProvider, s.groupInfoProvider,
     s.downloadManagerCoordinator, s.listenerCoordinator, h.networkInfoProvider}
    + (if s.fetchDatabaseManager.Built? then {s.fetchDatabaseManager.ref} else {})
  }

  /** One side-effecting call made on a collaborator during teardown. */
  datatype Event =
    | HandlerWrapperClosed(handlerWrapper: Ref)
    | ListenerCoordinatorCleared(listenerCoordinator: Ref)
    | GroupInfoProviderCleared(groupInfoProvider: Ref)
    | DatabaseManagerClosed(fetchDatabaseManager: DbRef)
    | DownloadManagerCoordinatorCleared(downloadManagerCoordinator: Ref)
    | NetworkChangeListenersUnregistered(networkInfoProvider: Ref)

  /** The six teardown calls, in the order the last release makes them. */
  function Teardown(h: Holder): seq<Event>
  {
    [ HandlerWrapperClosed(h.shared.handlerWrapper),
      ListenerCoordinatorCleared(h.shared.listenerCoordinator),
      GroupInfoProviderCleared(h.shared.groupInfoProvider),
      DatabaseManagerClosed(h.shared.fetchDatabaseManager),
      DownloadManagerCoordinatorCleared(h.shared.downloadManagerCoordinator),
      NetworkChangeListenersUnregistered(h.networkInfoProvider) ]
  }
}
