/**
 * FetchModulesBuilder: the process-wide registry object.  Its fields are the
 * mutable holder map and the state of the world the registry acts on; its two
 * public methods are proved to take exactly the step that the functions of
 * HolderRegistry describe, so every property proved there holds of them.
 */
module ModulesBuilder {
  import opened Wrappers
  import opened FetchCollaborators
  import opened HolderRegistry

  class FetchModulesBuilder {
    /** Namespace to holder and usage counter. */
    var holderMap: map<string, Entry>
    /** Teardown calls made on collaborators, oldest first. */
    var log: seq<Event>
    /** Identity the next created collaborator receives. */
    var nextRef: Ref
    /** Database manager to the configuration its temp-file delegate was built from. */
    var delegates: map<DbRef, FetchConfiguration>
    /** The main-looper Handler shared by every holder. */
    const mainUIHandler: Ref

    /** The registry as a value. */
    function Model(): RegistryState
      reads this
    {
      RegistryState(holderMap, log, nextRef, mainUIHandler, delegates)
    }

    ghost predicate Valid()
      reads this
    {
      Invariant(Model())
    }

    /** The registry at process start: an empty map, with the UI handler already created. */
    constructor ()
      ensures Valid()
      ensures holderMap == map[] && log == [] && delegates == map[]
    {
      mainUIHandler := 0;
      nextRef := 1;
      holderMap := map[];
      log := [];
      delegates := map[];
    }

    /** Creates one collaborator object. */
    method NewRef() returns (x: Ref)
      modifies this`nextRef
      ensures x == old(nextRef) && nextRef == x + 1
    {
      x := nextRef;
      nextRef := nextRef + 1;
    }

    /**
     * The Modules constructor: builds this Modules' own collaborators and
     * installs the shared database manager's temp-file delegate.
     */
    method NewModules(config: FetchConfiguration, shared: SharedPieces) returns (m: Modules)
      modifies this`nextRef, this`delegates
      ensures m == ModulesAt(config, shared, old(nextRef))
      ensures nextRef == old(nextRef) + ModulesOwnRefs
      ensures delegates == old(delegates)[shared.fetchDatabaseManager := config]
    {
      var downloadInfoUpdater := NewRef();
      var networkInfoProvider := NewRef();
      var downloadManager := NewRef();
      var priorityListProcessor := NewRef();
      var fetchHandler := NewRef();
      m := Modules(config, shared, downloadInfoUpdater, networkInfoProvider,
                   downloadManager, priorityListProcessor, fetchHandler);
      delegates := delegates[shared.fetchDatabaseManager := config];
    }

    /**
     * The shared pieces of a new holder, each collaborator a new object
     * created in source order; the database manager is built only when the
     * configuration does not supply one.
     */
    method BuildSharedPieces(config: FetchConfiguration) returns (shared: SharedPieces)
      modifies this`nextRef
      ensures shared == NewSharedPieces(old(Model()), config)
      ensures nextRef == old(nextRef) + SharedRefsDrawn(config)
    {
      var handlerWrapper := NewRef();
      var databaseManager: DbRef;
      if config.fetchDatabaseManager.Some? {
        databaseManager := Supplied(config.fetchDatabaseManager.value);
      } else {
        var built := NewRef();
        databaseManager := Built(built);
      }
      var downloadProvider := NewRef();
      var downloadManagerCoordinator := NewRef();
      var groupInfoProvider := NewRef();
      var listenerCoordinator := NewRef();
      shared := SharedPieces(handlerWrapper, databaseManager, downloadProvider, groupInfoProvider,
                             mainUIHandler, downloadManagerCoordinator, listenerCoordinator);
    }

    /** buildModulesFromPrefs: reuse or build the namespace's holder, then count one more use. */
    method BuildModulesFromPrefs(config: FetchConfiguration, buildFails: bool)
      returns (result: Result<Modules, BuildError>)
      requires Valid()
      modifies this
      ensures Acquired(Model(), result) == Acquire(old(Model()), config, buildFails)
      ensures Valid()
    {
      if buildFails {
        result := Failure(ConstructionFailed);
      } else if config.namespace in holderMap {
        result := ReuseBranch(config);
      } else {
        result := RegisterBranch(config);
      }
    }

    /** The branch of buildModulesFromPrefs for a namespace that has a holder. */
    method ReuseBranch(config: FetchConfiguration) returns (result: Result<Modules, BuildError>)
      requires Valid() && config.namespace in holderMap
      modifies this
      ensures Acquired(Model(), result) == ReuseHolder(old(Model()), config)
    {
      ghost var before := Model();
      var namespace := config.namespace;
      var holder := holderMap[namespace].holder;
      var modules := NewModules(config, holder.shared);
      var entry := holderMap[namespace];
      holderMap := holderMap[namespace := entry.(usageCount := entry.usageCount + 1)];
      result := Success(modules);
      assert modules == ModulesAt(config, holder.shared, before.nextRef);
    }

    /** The branch of buildModulesFromPrefs for a namespace without a holder. */
    method RegisterBranch(config: FetchConfiguration) returns (result: Result<Modules, BuildError>)
      requires Valid() && config.namespace !in holderMap
      modifies this
      ensures Acquired(Model(), result) == RegisterHolder(old(Model()), config)
    {
      ghost var before := Model();
      var namespace := config.namespace;
      var shared := BuildSharedPieces(config);
      assert shared == NewSharedPieces(before, config);
      var modules := NewModules(config, shared);
      assert modules == ModulesAt(config, shared, before.nextRef + SharedRefsDrawn(config));
      holderMap := holderMap[namespace := Entry(Holder(shared, modules.networkInfoProvider), 1)];
      result := Success(modules);
    }

    /** removeNamespaceInstanceReference: count one use less; the last one tears the holder down. */
    method RemoveNamespaceInstanceReference(namespace: string)
      requires Valid()
      modifies this
      ensures Model() == Release(old(Model()), namespace)
      ensures Valid()
    {
      ghost var before := Model();
      if namespace in holderMap {
        var entry := holderMap[namespace];
        entry := entry.(usageCount := entry.usageCount - 1);
        holderMap := holderMap[namespace := entry];
        if entry.usageCount == 0 {
          var holder := entry.holder;
          log := log + [HandlerWrapperClosed(holder.shared.handlerWrapper)];
          log := log + [ListenerCoordinatorCleared(holder.shared.listenerCoordinator)];
          log := log + [GroupInfoProviderCleared(holder.shared.groupInfoProvider)];
          log := log + [DatabaseManagerClosed(holder.shared.fetchDatabaseManager)];
          log := log + [DownloadManagerCoordinatorCleared(holder.shared.downloadManagerCoordinator)];
          log := log + [NetworkChangeListenersUnregistered(holder.networkInfoProvider)];
          holderMap := holderMap - {namespace};
          assert log == before.log + Teardown(holder);
          RemoveAfterUpdate(before.holderMap, namespace, entry);
        }
      }
    }
  }

  /**
   * A client: two acquires of one namespace share one graph; two releases
   * tear it down once; a namespace whose build failed is never registered.
   */
  method SharedGraphScenario(config: FetchConfiguration, other: FetchConfiguration)
    requires config.namespace != other.namespace
  {
    var builder := new FetchModulesBuilder();
    var h1 := builder.BuildModulesFromPrefs(config, false);
    var h2 := builder.BuildModulesFromPrefs(config, false);
    assert h1.value.shared == h2.value.shared;
    assert h1.value.networkInfoProvider != h2.value.networkInfoProvider;
    assert builder.holderMap[config.namespace].usageCount == 2;

    var failed := builder.BuildModulesFromPrefs(other, true);
    assert failed.Failure? && other.namespace !in builder.holderMap;
    builder.RemoveNamespaceInstanceReference(other.namespace);
    assert builder.log == [];

    builder.RemoveNamespaceInstanceReference(config.namespace);
    assert builder.holderMap[config.namespace].usageCount == 1 && builder.log == [];
    builder.RemoveNamespaceInstanceReference(config.namespace);
    assert config.namespace !in builder.holderMap;
    assert builder.log == Teardown(Holder(h1.value.shared, h1.value.networkInfoProvider));
  }
}
