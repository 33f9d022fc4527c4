/**
 * The namespace registry of FetchModulesBuilder as a state machine on values.
 * `Acquire` is one call of buildModulesFromPrefs, `Release` one call of
 * removeNamespaceInstanceReference; the lock makes each call one atomic step.
 * The class in ModulesBuilder is proved to follow these functions exactly.
 */
module HolderRegistry {
  import opened Wrappers
  import opened FetchCollaborators

  /** A map value: the holder and the usage counter of its handler wrapper. */
  datatype Entry = Entry(holder: Holder, usageCount: nat)

  /**
   * The registry and the part of the world it touches: the holder map, the
   * teardown calls made so far, the next unused object identity, the main
   * UI handler every holder shares, and, for each database manager, the
   * configuration whose storage resolver its temp-file delegate uses.
   */
  datatype RegistryState = RegistryState(
    holderMap: map<string, Entry>,
    log: seq<Event>,
    nextRef: Ref,
    mainUIHandler: Ref,
    delegates: map<DbRef, FetchConfiguration>)

  datatype BuildError = ConstructionFailed

  /** Outcome of one acquire: the new registry and what the caller receives. */
  datatype Acquired = Acquired(registry: RegistryState, result: Result<Modules, BuildError>)

  /**
   * What holds of each entry between calls: it is in use at least once,
   * shares the main UI handler, and every piece the registry created for it
   * was created before `next`.
   */
  predicate EntryOk(e: Entry, mainUIHandler: Ref, next: Ref)
  {
    && e.usageCount >= 1
    && e.holder.shared.uiHandler == mainUIHandler
    && SharedBuiltBefore(e.holder.shared, next)
    && e.holder.networkInfoProvider < next
  }

  /** The registry invariant: every entry is well formed. */
  predicate Invariant(r: RegistryState)
  {
    && r.mainUIHandler < r.nextRef
    && (forall ns :: ns in r.holderMap ==> EntryOk(r.holderMap[ns], r.mainUIHandler, r.nextRef))
  }

  /** The pieces a first acquire builds for a new holder (FetchModulesBuilder.kt:39-52). */
  function NewSharedPieces(r: RegistryState, config: FetchConfiguration): SharedPieces
  {
    var handlerWrapper := r.nextRef;
    var databaseManager :=
      if config.fetchDatabaseManager.Some? then Supplied(config.fetchDatabaseManager.value)
      else Built(r.nextRef + 1);
    var n := if config.fetchDatabaseManager.Some? then r.nextRef + 1 else r.nextRef + 2;
    SharedPieces(handlerWrapper, databaseManager, n, n + 2, r.mainUIHandler, n + 1, n + 3)
  }

  /** Number of identities NewSharedPieces draws. */
  function SharedRefsDrawn(config: FetchConfiguration): nat
  {
    if config.fetchDatabaseManager.Some? then 5 else 6
  }

  /** Every object built for an entry of a well-formed registry predates `nextRef`. */
  lemma EntriesBuiltBefore(r: RegistryState)
    requires Invariant(r)
    ensures forall ns, x :: ns in r.holderMap && x in BuiltPieces(r.holderMap[ns].holder) ==> x < r.nextRef
  {
    forall ns, x | ns in r.holderMap && x in BuiltPieces(r.holderMap[ns].holder)
      ensures x < r.nextRef
    {
      assert EntryOk(r.holderMap[ns], r.mainUIHandler, r.nextRef);
    }
  }

  /** Adds one to the usage counter of the entry for `ns`. */
  function Increment(r: RegistryState, ns: string): RegistryState
    requires ns in r.holderMap
  {
    r.(holderMap := r.holderMap[ns := r.holderMap[ns].(usageCount := r.holderMap[ns].usageCount + 1)])
  }

  /**
   * buildModulesFromPrefs for a namespace that has a holder: a new Modules
   * around the holder's shared pieces, then one more use.
   */
  function ReuseHolder(r: RegistryState, config: FetchConfiguration): (a: Acquired)
    requires Invariant(r) && config.namespace in r.holderMap
    ensures Invariant(a.registry)
    ensures a.result.Success? && a.result.value.fetchConfiguration == config
    ensures a.registry.log == r.log && a.registry.mainUIHandler == r.mainUIHandler
    // no new holder: the same holder, in use once more, and no other entry changes
    ensures var e := r.holderMap[config.namespace];
      a.registry.holderMap == r.holderMap[config.namespace := Entry(e.holder, e.usageCount + 1)]
    // the caller's Modules shares every one of the holder's pieces ...
    ensures a.result.value.shared == r.holderMap[config.namespace].holder.shared
    // ... but builds its own collaborators, whose network provider no entry stores
    ensures OwnRefsFrom(a.result.value, r.nextRef)
    ensures forall other :: other in a.registry.holderMap ==>
      a.registry.holderMap[other].holder.networkInfoProvider != a.result.value.networkInfoProvider
    // its construction points the shared database manager's delegate at this configuration
    ensures a.registry.delegates
      == r.delegates[r.holderMap[config.namespace].holder.shared.fetchDatabaseManager := config]
  {
    var ns := config.namespace;
    var holder := r.holderMap[ns].holder;
    var modules := ModulesAt(config, holder.shared, r.nextRef);
    var built := r.(nextRef := r.nextRef + ModulesOwnRefs,
                    delegates := r.delegates[holder.shared.fetchDatabaseManager := config]);
    Acquired(Increment(built, ns), Success(modules))
  }

  /**
   * buildModulesFromPrefs for a namespace without a holder: build the shared
   * pieces and a Modules, store a holder of them, then one use.
   */
  function RegisterHolder(r: RegistryState, config: FetchConfiguration): (a: Acquired)
    requires Invariant(r) && config.namespace !in r.holderMap
    ensures Invariant(a.registry)
    ensures a.result.Success? && a.result.value.fetchConfiguration == config
    ensures a.registry.log == r.log && a.registry.mainUIHandler == r.mainUIHandler
    // exactly one new entry, in use once, holding this call's shared pieces
    // and this call's network provider; no other entry changes
    ensures var m := a.result.value;
      a.registry.holderMap
        == r.holderMap[config.namespace := Entry(Holder(m.shared, m.networkInfoProvider), 1)]
    // the UI handler is the main one; the database manager is the
    // application's when the configuration supplies one, else a built one
    ensures a.result.value.shared.uiHandler == r.mainUIHandler
    ensures config.fetchDatabaseManager.Some? ==>
      a.result.value.shared.fetchDatabaseManager == Supplied(config.fetchDatabaseManager.value)
    ensures config.fetchDatabaseManager.None? ==> a.result.value.shared.fetchDatabaseManager.Built?
    // every other piece of the new holder is a new object
    ensures SharedBuiltFrom(a.result.value.shared, r.nextRef)
    ensures forall other :: other in r.holderMap ==>
      r.holderMap[other].holder.shared.handlerWrapper != a.result.value.shared.handlerWrapper
    ensures OwnRefsFrom(a.result.value, r.nextRef)
    ensures a.registry.delegates == r.delegates[a.result.value.shared.fetchDatabaseManager := config]
  {
    var ns := config.namespace;
    var shared := NewSharedPieces(r, config);
    var next := r.nextRef + SharedRefsDrawn(config);
    var modules := ModulesAt(config, shared, next);
    var stored := r.(holderMap := r.holderMap[ns := Entry(Holder(shared, modules.networkInfoProvider), 0)],
                     nextRef := next + ModulesOwnRefs,
                     delegates := r.delegates[shared.fetchDatabaseManager := config]);
    Acquired(Increment(stored, ns), Success(modules))
  }

  /**
   * The holder a first acquire registers is built of new objects only
   * (besides the main UI handler and an application-supplied database
   * manager), so it shares none of them with the holder of any other
   * namespace.
   */
  lemma RegisteredHolderIsNew(r: RegistryState, config: FetchConfiguration)
    requires Invariant(r) && config.namespace !in r.holderMap
    ensures var m := RegisterHolder(r, config).result.value;
      && (forall x :: x in BuiltPieces(Holder(m.shared, m.networkInfoProvider)) ==> r.nextRef <= x)
      && (forall other :: other in r.holderMap ==>
            BuiltPieces(r.holderMap[other].holder) !! BuiltPieces(Holder(m.shared, m.networkInfoProvider)))
  {
    EntriesBuiltBefore(r);
  }

  /**
   * buildModulesFromPrefs.  `buildFails` stands for a collaborator that
   * throws while the graph is being built: nothing has been stored then.
   */
  function Acquire(r: RegistryState, config: FetchConfiguration, buildFails: bool): (a: Acquired)
    requires Invariant(r)
    ensures Invariant(a.registry)
    // a failed build surfaces the error and leaves the registry exactly as it was
    ensures a.result.Failure? <==> buildFails
    ensures buildFails ==> a.registry == r
    // acquiring never tears anything down
    ensures a.registry.log == r.log
    // a successful acquire always leaves the namespace registered
    ensures !buildFails ==> config.namespace in a.registry.holderMap
  {
    if buildFails then Acquired(r, Failure(ConstructionFailed))
    else if config.namespace in r.holderMap then ReuseHolder(r, config)
    else RegisterHolder(r, config)
  }

  /** No object built for one namespace's holder belongs to another's. */
  predicate HoldersDisjoint(r: RegistryState)
  {
    forall a, b :: a in r.holderMap && b in r.holderMap && a != b ==>
      BuiltPieces(r.holderMap[a].holder) !! BuiltPieces(r.holderMap[b].holder)
  }

  /** Acquiring keeps the holders of different namespaces apart. */
  lemma AcquireKeepsHoldersDisjoint(r: RegistryState, config: FetchConfiguration, buildFails: bool)
    requires Invariant(r) && HoldersDisjoint(r)
    ensures HoldersDisjoint(Acquire(r, config, buildFails).registry)
  {
    var ns := config.namespace;
    if !buildFails && ns !in r.holderMap {
      var a := RegisterHolder(r, config);
      RegisteredHolderIsNew(r, config);
      assert a == Acquire(r, config, buildFails);
      forall x, y | x in a.registry.holderMap && y in a.registry.holderMap && x != y
        ensures BuiltPieces(a.registry.holderMap[x].holder) !! BuiltPieces(a.registry.holderMap[y].holder)
      {
        if x != ns && y != ns {
          assert a.registry.holderMap[x] == r.holderMap[x] && a.registry.holderMap[y] == r.holderMap[y];
        }
      }
    } else if !buildFails {
      var a := ReuseHolder(r, config);
      assert a == Acquire(r, config, buildFails);
      forall x | x in a.registry.holderMap ensures a.registry.holderMap[x].holder == r.holderMap[x].holder {
      }
    }
  }

  /** removeNamespaceInstanceReference. */
  function Release(r: RegistryState, namespace: string): (r': RegistryState)
    requires Invariant(r)
    ensures Invariant(r')
    ensures r'.nextRef == r.nextRef && r'.mainUIHandler == r.mainUIHandler && r'.delegates == r.delegates
    // an unknown namespace is left alone and nothing is torn down
    ensures namespace !in r.holderMap ==> r' == r
    // a namespace in use more than once counts one use less and keeps its holder
    ensures namespace in r.holderMap && r.holderMap[namespace].usageCount > 1 ==>
      var e := r.holderMap[namespace];
      && r'.holderMap == r.holderMap[namespace := Entry(e.holder, e.usageCount - 1)]
      && r'.log == r.log
    // the last release runs the six teardown calls once, in order, then drops the entry
    ensures namespace in r.holderMap && r.holderMap[namespace].usageCount == 1 ==>
      && r'.holderMap == r.holderMap - {namespace}
      && r'.log == r.log + Teardown(r.holderMap[namespace].holder)
  {
    if namespace !in r.holderMap then r
    else
      var entry := r.holderMap[namespace];
      var decremented := entry.(usageCount := entry.usageCount - 1);
      if decremented.usageCount == 0 then
        r.(holderMap := r.holderMap - {namespace}, log := r.log + Teardown(entry.holder))
      else
        r.(holderMap := r.holderMap[namespace := decremented])
  }

  /** Successful acquires with each of `configs` in turn. */
  function AcquireTimes(r: RegistryState, configs: seq<FetchConfiguration>): (r': RegistryState)
    requires Invariant(r)
    ensures Invariant(r')
    decreases |configs|
  {
    if |configs| == 0 then r else AcquireTimes(Acquire(r, configs[0], false).registry, configs[1..])
  }

  /** Every configuration in `configs` is for namespace `ns`. */
  predicate AllFor(configs: seq<FetchConfiguration>, ns: string)
  {
    forall i :: 0 <= i < |configs| ==> configs[i].namespace == ns
  }

  /** The configurations after the first are for the same namespace. */
  lemma AllForTail(configs: seq<FetchConfiguration>, ns: string)
    requires AllFor(configs, ns) && 1 <= |configs|
    ensures AllFor(configs[1..], ns)
  {
    forall i | 0 <= i < |configs[1..]| ensures configs[1..][i].namespace == ns {
      assert configs[1..][i] == configs[i + 1];
    }
  }

  /** Releasing keeps the holders of different namespaces apart. */
  lemma ReleaseKeepsHoldersDisjoint(r: RegistryState, namespace: string)
    requires Invariant(r) && HoldersDisjoint(r)
    ensures HoldersDisjoint(Release(r, namespace))
  {
    var r' := Release(r, namespace);
    forall x | x in r'.holderMap ensures x in r.holderMap && r'.holderMap[x].holder == r.holderMap[x].holder {
    }
  }

  /** `k` releases of the same namespace. */
  function ReleaseTimes(r: RegistryState, namespace: string, k: nat): (r': RegistryState)
    requires Invariant(r)
    ensures Invariant(r')
    decreases k
  {
    if k == 0 then r else ReleaseTimes(Release(r, namespace), namespace, k - 1)
  }

  /** A second update of the same key overrides the first. */
  lemma UpdateTwice<K, V>(m: map<K, V>, key: K, first: V, second: V)
    ensures m[key := first][key := second] == m[key := second]
  {
  }

  /** Storing a key's own value again changes nothing. */
  lemma UpdateSame<K, V>(m: map<K, V>, key: K)
    requires key in m
    ensures m[key := m[key]] == m
  {
  }

  /** Removing a key undoes any update of it. */
  lemma RemoveAfterUpdate<K, V>(m: map<K, V>, key: K, v: V)
    ensures m[key := v] - {key} == m - {key}
  {
  }

  /**
   * Repeated acquires of a present namespace, each with its own
   * configuration, only count up: the holder stays.
   */
  lemma {:induction false} AcquireTimesPresent(r: RegistryState, ns: string, configs: seq<FetchConfiguration>)
    requires Invariant(r)
    requires ns in r.holderMap && AllFor(configs, ns)
    ensures var e := r.holderMap[ns];
      var r' := AcquireTimes(r, configs);
      && r'.holderMap == r.holderMap[ns := Entry(e.holder, e.usageCount + |configs|)]
      && r'.log == r.log
    decreases |configs|
  {
    if |configs| > 0 {
      var e := r.holderMap[ns];
      var r1 := Acquire(r, configs[0], false).registry;
      assert r1 == ReuseHolder(r, configs[0]).registry;
      AllForTail(configs, ns);
      AcquireTimesPresent(r1, ns, configs[1..]);
      UpdateTwice(r.holderMap, ns, Entry(e.holder, e.usageCount + 1),
                  Entry(e.holder, e.usageCount + |configs|));
    } else {
      UpdateSame(r.holderMap, ns);
    }
  }

  /**
   * Each acquire of a present namespace repoints the shared database
   * manager's temp-file delegate, so after several the delegate uses the
   * latest configuration.
   */
  lemma {:induction false} DelegateFollowsLatest(r: RegistryState, ns: string, configs: seq<FetchConfiguration>)
    requires Invariant(r)
    requires ns in r.holderMap && AllFor(configs, ns) && 1 <= |configs|
    ensures AcquireTimes(r, configs).delegates
      == r.delegates[r.holderMap[ns].holder.shared.fetchDatabaseManager := configs[|configs| - 1]]
    decreases |configs|
  {
    var db := r.holderMap[ns].holder.shared.fetchDatabaseManager;
    var r1 := Acquire(r, configs[0], false).registry;
    assert r1 == ReuseHolder(r, configs[0]).registry;
    if |configs| > 1 {
      AllForTail(configs, ns);
      DelegateFollowsLatest(r1, ns, configs[1..]);
      UpdateTwice(r.delegates, db, configs[0], configs[|configs| - 1]);
    } else {
      assert AcquireTimes(r1, configs[1..]) == r1;
    }
  }

  /**
   * `j` releases of a namespace in use `c` times: while `j < c` the count
   * drops by `j` and nothing is torn down; at `j == c` the entry is gone and
   * teardown has run exactly once.
   */
  lemma {:induction false} ReleaseTimesPresent(r: RegistryState, namespace: string, j: nat)
    requires Invariant(r)
    requires namespace in r.holderMap && j <= r.holderMap[namespace].usageCount
    ensures var e := r.holderMap[namespace];
      var r' := ReleaseTimes(r, namespace, j);
      && (j < e.usageCount ==>
            && r'.holderMap == r.holderMap[namespace := Entry(e.holder, e.usageCount - j)]
            && r'.log == r.log)
      && (j == e.usageCount ==>
            && r'.holderMap == r.holderMap - {namespace}
            && r'.log == r.log + Teardown(e.holder))
    decreases j
  {
    if j > 0 {
      var e := r.holderMap[namespace];
      var r1 := Release(r, namespace);
      assert ReleaseTimes(r, namespace, j) == ReleaseTimes(r1, namespace, j - 1);
      if e.usageCount == 1 {
        assert ReleaseTimes(r1, namespace, 0) == r1;
      } else {
        var decremented := Entry(e.holder, e.usageCount - 1);
        assert r1.holderMap == r.holderMap[namespace := decremented];
        ReleaseTimesPresent(r1, namespace, j - 1);
        if j < e.usageCount {
          UpdateTwice(r.holderMap, namespace, decremented, Entry(e.holder, e.usageCount - j));
        } else {
          RemoveAfterUpdate(r.holderMap, namespace, decremented);
        }
      }
    } else {
      UpdateSame(r.holderMap, namespace);
    }
  }

  /**
   * From an absent namespace, `k >= 1` acquires give one new entry in use
   * `k` times, holding the first acquire's shared pieces and network
   * provider, whatever the configurations of the later acquires.
   */
  lemma AcquireTimesAbsent(r: RegistryState, configs: seq<FetchConfiguration>)
    requires Invariant(r)
    requires 1 <= |configs| && configs[0].namespace !in r.holderMap
    requires AllFor(configs, configs[0].namespace)
    ensures var first := Acquire(r, configs[0], false).result.value;
      var r' := AcquireTimes(r, configs);
      && r'.holderMap == r.holderMap[configs[0].namespace
                           := Entry(Holder(first.shared, first.networkInfoProvider), |configs|)]
      && r'.log == r.log
  {
    var ns := configs[0].namespace;
    var a1 := Acquire(r, configs[0], false);
    assert a1 == RegisterHolder(r, configs[0]);
    var h := Holder(a1.result.value.shared, a1.result.value.networkInfoProvider);
    assert a1.registry.holderMap == r.holderMap[ns := Entry(h, 1)];
    assert AcquireTimes(r, configs) == AcquireTimes(a1.registry, configs[1..]);
    AllForTail(configs, ns);
    AcquireTimesPresent(a1.registry, ns, configs[1..]);
    UpdateTwice(r.holderMap, ns, Entry(h, 1), Entry(h, |configs|));
  }

  /**
   * From an absent namespace, `k >= 1` acquires followed by `j <= k`
   * releases leave its count at `k - j`; at `j == k` it is absent again.
   */
  lemma UsageAfterAcquiresAndReleases(r: RegistryState, configs: seq<FetchConfiguration>, j: nat)
    requires Invariant(r)
    requires 1 <= |configs| && configs[0].namespace !in r.holderMap
    requires AllFor(configs, configs[0].namespace) && j <= |configs|
    ensures var ns := configs[0].namespace;
      var r' := ReleaseTimes(AcquireTimes(r, configs), ns, j);
      && (ns in r'.holderMap <==> j < |configs|)
      && (j < |configs| ==> r'.holderMap[ns].usageCount == |configs| - j)
  {
    AcquireTimesAbsent(r, configs);
    ReleaseTimesPresent(AcquireTimes(r, configs), configs[0].namespace, j);
  }

  /**
   * From an absent namespace, `k >= 1` acquires and `k` releases give back
   * the holder map unchanged, and append the teardown of the first
   * acquire's holder exactly once: the network provider unregistered is the
   * one the first call's Modules created.
   */
  lemma BalancedAcquireRelease(r: RegistryState, configs: seq<FetchConfiguration>)
    requires Invariant(r)
    requires 1 <= |configs| && configs[0].namespace !in r.holderMap
    requires AllFor(configs, configs[0].namespace)
    ensures var first := Acquire(r, configs[0], false).result.value;
      var r' := ReleaseTimes(AcquireTimes(r, configs), configs[0].namespace, |configs|);
      && r'.holderMap == r.holderMap
      && r'.log == r.log + Teardown(Holder(first.shared, first.networkInfoProvider))
      && r'.log[|r'.log| - 1] == NetworkChangeListenersUnregistered(first.networkInfoProvider)
  {
    var ns := configs[0].namespace;
    var first := Acquire(r, configs[0], false).result.value;
    var acquired := AcquireTimes(r, configs);
    AcquireTimesAbsent(r, configs);
    ReleaseTimesPresent(acquired, ns, |configs|);
    RemoveAfterUpdate(r.holderMap, ns, Entry(Holder(first.shared, first.networkInfoProvider), |configs|));
    assert r.holderMap - {ns} == r.holderMap;
  }
}
