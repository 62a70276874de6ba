/** What single operations do, and exactly when they succeed. */
module LifecycleEffects {
  import opened Prelude
  import opened Inventory
  import opened Scopes
  import opened Lifecycle
  import opened LifecycleInvariants

  /** Exactly when an activation succeeds or is skipped, and what it loads: the scope and nothing
      else, over a runtime that is up; otherwise no scope list moves. */
  lemma ActivateEffect(w: World, ns: string, scope: Scope, ifNotLoaded: bool, o: Opening, c: Closing)
    requires Ok(w, ns) && ns in w.records
    ensures var (w', b) := ActivateToolset(w, ns, scope, ifNotLoaded, o, c);
      var r := w.records[ns];
      && (b == Skipped <==> scope in r.supported && scope in r.loaded && ifNotLoaded)
      && (b == Done <==>
            scope in r.supported && b != Skipped
            && ((Open(o).Some? && !Raises(w, ns, c)) || (Mounted(w, ns).Some? && scope !in r.loaded)))
      && ns in w'.records && w'.inFlight == w.inFlight
      && (if b == Done then Loads(r, w'.records[ns], scope) && Mounted(w', ns).Some?
          else SameScopes(r, w'.records[ns]))
  {
    hide ActivateReused, ActivateFresh, Mounted, Ok, Loads;
    Known(w, ns);
    hide Sound, Policy, Local;
    var r := w.records[ns];
    if scope in r.supported {
      FreshEffect(w, r, scope, o, c);
      if Mounted(w, ns).Some? {
        ReusedEffect(w, r, scope);
      }
    }
  }

  /** r' has the scope in both lists, as far as the recoverable one takes it, and no other change
      of scopes. */
  predicate Loads(r: Record, r': Record, scope: Scope) {
    && (forall x :: x in r'.loaded <==> x in r.loaded || x == scope)
    && (forall x :: x in r'.recoverable <==> x in r.recoverable || (x == scope && scope in r.restorable))
    && r'.supported == r.supported && r'.restorable == r.restorable && r'.namespace == r.namespace
    && Policy(r')
  }

  lemma ReusedEffect(w: World, r: Record, scope: Scope)
    requires Policy(r) && scope in r.supported && r.schemaHash.Some?
    requires r.namespace in w.records && w.records[r.namespace] == r
    ensures var (w', b) := ActivateReused(w, r, scope);
      && b == Done && Mounted(w', r.namespace) == Mounted(w, r.namespace) && w'.inFlight == w.inFlight
      && r.namespace in w'.records && Loads(r, w'.records[r.namespace], scope)
  {
    AddBothKeeps(r, scope);
    hide AddScope, AddRecoverable;
  }

  lemma FreshEffect(w: World, r: Record, scope: Scope, o: Opening, c: Closing)
    requires Policy(r) && scope in r.supported
    ensures var (w', b) := ActivateFresh(Put(w, r.(transport := Connecting)), r, scope, o, c);
      && b == (if Open(o).Some? && !Raises(w, r.namespace, c) then Done else Failed) && w'.inFlight == w.inFlight
      && r.namespace in w'.records
      && (if b == Done then Loads(r, w'.records[r.namespace], scope) && Mounted(w', r.namespace).Some?
          else SameScopes(r, w'.records[r.namespace]))
  {
    hide Open, AddScope, AddRecoverable, SnapshotOf;
    if Open(o).Some? {
      AddBothKeeps(Fresh(r, SnapshotOf(r.namespace, Open(o).value.1), r.schemaHash), scope);
    }
  }

  /** What an exception out of a disconnect leaves: the runtime is gone, and nothing else moved. */
  predicate OnlyDisconnected(w: World, w': World, ns: string) {
    w' == Disconnect(w, ns) && Mounted(w', ns).None?
  }

  /** Exactly when a deactivation succeeds, is skipped, is refused or raises, and what it unloads.
      The runtime goes with the last scope, and if closing it raises the scope stays loaded. */
  lemma DeactivateEffect(w: World, ns: string, scope: Scope, force: bool, c: Closing)
    requires ns in w.records && w.records[ns].namespace == ns && Policy(w.records[ns])
    ensures var (w', b) := DeactivateToolset(w, ns, scope, force, c);
      var r := w.records[ns];
      var unloads := scope in r.loaded && (force || InFlight(w, ns) == 0);
      && (b == Skipped <==> scope !in r.loaded)
      && (b == Raised <==> unloads && (forall x :: x in r.loaded ==> x == scope) && Raises(w, ns, c))
      && (b == Done <==> unloads && b != Raised)
      && ns in w'.records && var r' := w'.records[ns];
      && (b == Done ==>
            && (forall x :: x in r'.loaded <==> x in r.loaded && x != scope)
            && (forall x :: x in r'.recoverable <==> x in r.recoverable && x != scope)
            && Policy(r')
            && Mounted(w', ns) == (if r'.loaded == [] then None else Mounted(w, ns)))
      && (b == Raised ==> OnlyDisconnected(w, w', ns))
      && (b != Done && b != Raised ==> r' == r && w'.runtimes == w.runtimes)
  {
    var r := w.records[ns];
    RemoveBothKeeps(r, scope);
    EmptyIfOnly(r.loaded, RemoveRecoverable(RemoveScope(r, scope), scope).loaded, scope);
    NamedAfterRemoval(r, scope);
    hide Policy, RemoveScope, RemoveRecoverable, InFlight, Mounted, Raises, StoreUnloaded;
    StoreUnloadedEffect(w, ns, RemoveRecoverable(RemoveScope(r, scope), scope), scope, c);
    hide Log;
  }

  lemma NamedAfterRemoval(r: Record, scope: Scope)
    ensures RemoveRecoverable(RemoveScope(r, scope), scope).namespace == r.namespace
  {}

  lemma StoreUnloadedEffect(w: World, ns: string, r: Record, scope: Scope, c: Closing)
    requires ns in w.records && r.namespace == ns && Policy(r)
    ensures var (w', b) := StoreUnloaded(w, ns, r, scope, c);
      && b == (if r.loaded == [] && Raises(w, ns, c) then Raised else Done)
      && ns in w'.records
      && (b == Raised ==> OnlyDisconnected(w, w', ns))
      && (b == Done ==>
            && w'.records[ns].loaded == r.loaded && w'.records[ns].recoverable == r.recoverable
            && Policy(w'.records[ns])
            && Mounted(w', ns) == (if r.loaded == [] then None else Mounted(w, ns)))
  {
    var idle := r.(transport := Inactive, stale := false, staleReason := None, failed := false);
    SameScopesPolicy(r, idle);
    hide Policy;
  }

  lemma EmptyIfOnly(loaded: seq<Scope>, rest: seq<Scope>, scope: Scope)
    requires forall x :: x in rest <==> x in loaded && x != scope
    ensures rest == [] <==> forall x :: x in loaded ==> x == scope
  {
    if rest != [] {
      assert rest[0] in rest;
    }
  }

  /** Deactivation undoes activation: the loaded scopes are what they were, the scope is not
      recoverable, and a toolset that was idle has no runtime again; unless it was idle and closing
      its runtime raises. */
  lemma ActivateThenDeactivate(w: World, ns: string, scope: Scope, ifNotLoaded: bool, o: Opening, opening: Closing,
        force: bool, c: Closing)
    requires Ok(w, ns) && ns in w.records && scope !in w.records[ns].loaded
    requires ActivateToolset(w, ns, scope, ifNotLoaded, o, opening).1 == Done && (force || InFlight(w, ns) == 0)
    ensures var w1 := ActivateToolset(w, ns, scope, ifNotLoaded, o, opening).0;
      var (w2, b) := DeactivateToolset(w1, ns, scope, force, c);
      var r := w.records[ns];
      && (b == Raised <==> r.loaded == [] && c.Raising?)
      && (b == Raised ==> OnlyDisconnected(w1, w2, ns))
      && (b != Raised ==>
            && b == Done && ns in w2.records && w2.records[ns].loaded == r.loaded
            && (forall x :: x in w2.records[ns].recoverable <==> x in r.recoverable && x != scope)
            && (r.loaded == [] <==> Mounted(w2, ns).None?))
  {
    Known(w, ns);
    ActivateEffect(w, ns, scope, ifNotLoaded, o, opening);
    var w1 := ActivateToolset(w, ns, scope, ifNotLoaded, o, opening).0;
    hide ActivateToolset, DeactivateToolset, Ok, Sound, Local, Mounted, OnlyDisconnected;
    assert InFlight(w1, ns) == InFlight(w, ns);
    DeactivateEffect(w1, ns, scope, force, c);
    var (w2, b) := DeactivateToolset(w1, ns, scope, force, c);
    EmptyIfOnly(w1.records[ns].loaded, w.records[ns].loaded, scope);
    if b == Done {
      OrderedDetermined(w2.records[ns].loaded, w.records[ns].loaded);
    }
  }

  /** Clearing staleness works exactly on a toolset in trouble, and leaves it in none, with its
      scopes, schemas and runtime as they were. */
  lemma ClearStaleEffect(w: World, ns: string)
    requires ns in w.records && w.records[ns].namespace == ns
    ensures var (w', b) := ClearStaleToolset(w, ns);
      var r := w.records[ns];
      && (b == Done <==> Troubled(r)) && (b == Skipped <==> !Troubled(r))
      && ns in w'.records && !Troubled(w'.records[ns]) && w'.runtimes == w.runtimes
      && SameScopes(r, w'.records[ns]) && SameSchema(r, w'.records[ns])
      && (b == Done ==>
            (w'.records[ns].transport == Connected <==> r.loaded != [] && Mounted(w, ns).Some?))
  {
    hide Mounted;
  }

  /** The inventory a probe found, if the probe found a valid one. */
  function Observed(p: Probe): Option<seq<ToolSchema>> {
    if p.Answered? then ValidateInventory(p.tools) else None
  }

  /** A check reports a loaded toolset healthy exactly when its runtime is up, answers with a valid
      inventory, and that inventory hashes to the current snapshot.  Otherwise the toolset is stale,
      for the reason that applies, and unless the probe was answered its runtime is gone.  It
      concludes nothing exactly when the probe fails before it expires and closing the runtime
      raises. */
  lemma HealthVerdict(w: World, ns: string, scope: Option<Scope>, p: Probe, c: Closing)
    requires Ok(w, ns) && ns in w.records && w.records[ns].loaded != []
    requires scope.Some? ==> scope.value in w.records[ns].loaded
    ensures var (w', b) := CheckHealth(w, ns, scope, p, c);
      && (b == Raised <==> Raises(w, ns, c) && Observed(p).None? && p != ProbeExpired)
      && (b == Raised ==> OnlyDisconnected(w, w', ns))
      && (b != Raised ==>
            && b == Done && ns in w'.records
            && (w'.records[ns].health.status == Some(Healthy) <==>
                  (Mounted(w, ns).Some? && Observed(p).Some?
                   && Some(InventoryHash(Observed(p).value)) == HashOf(w.current, ns)))
            && (if w'.records[ns].health.status == Some(Healthy) then
                  w'.records[ns].stale == w.records[ns].stale && w'.records[ns].transport == Connected
                else w'.records[ns].stale && w'.records[ns].staleReason == Some(Diagnosis(w, ns, p)))
            && Mounted(w', ns) == (if Observed(p).Some? then Mounted(w, ns) else None))
  {
    hide ValidateInventory, InventoryHash, Unhealthy, Probed, Mounted, Ok;
    Known(w, ns);
    hide Sound, Policy, Local, HashOf;
    var r := w.records[ns];
    UnhealthyEffect(w, r, scope, RuntimeMissing);
    UnhealthyEffect(Disconnect(w, ns), r, scope, Diagnosis(w, ns, p));
    GoneAfterDisconnect(w, ns);
    if Observed(p).Some? {
      ProbedEffect(w, r, scope, Observed(p).value);
    }
  }

  function Diagnosis(w: World, ns: string, p: Probe): Reason {
    if Mounted(w, ns).None? then RuntimeMissing
    else if p == ProbeExpired then ProbeTimeout
    else if Observed(p).None? then ProbeFailed
    else SchemaChanged
  }

  lemma GoneAfterDisconnect(w: World, ns: string)
    ensures Mounted(Disconnect(w, ns), ns) == None
  {}

  lemma UnhealthyEffect(w: World, r: Record, scope: Option<Scope>, reason: Reason)
    requires r.namespace in w.records && w.records[r.namespace] == r
    ensures var w' := Unhealthy(w, r, scope, reason);
      && r.namespace in w'.records && Mounted(w', r.namespace) == Mounted(w, r.namespace)
      && w'.records[r.namespace].health.status == Some(FailedHealth)
      && w'.records[r.namespace].stale && w'.records[r.namespace].staleReason == Some(reason)
  {
    hide AuditScope;
  }

  lemma ProbedEffect(w: World, r: Record, scope: Option<Scope>, schemas: seq<ToolSchema>)
    requires r.namespace in w.records && w.records[r.namespace] == r
    ensures var w' := Probed(w, r, scope, schemas);
      && r.namespace in w'.records && Mounted(w', r.namespace) == Mounted(w, r.namespace)
      && (if r.schemaHash.Some? && r.schemaHash != Some(InventoryHash(schemas)) then
            && w'.records[r.namespace].health.status == Some(StaleHealth)
            && w'.records[r.namespace].stale && w'.records[r.namespace].staleReason == Some(SchemaChanged)
          else
            && w'.records[r.namespace].health.status == Some(Healthy)
            && w'.records[r.namespace].stale == r.stale && w'.records[r.namespace].staleReason == r.staleReason
            && (Mounted(w, r.namespace).Some? ==> w'.records[r.namespace].transport == Connected))
  {
    var observed, n := InventoryHash(schemas), |schemas|;
    FailureEffect(w, r.namespace, SchemaChanged);
    ObserveEffect(w, r.namespace, Health(Some(Healthy), Some(observed), Some(n), None));
    ObserveEffect(RuntimeFailure(w, r.namespace, SchemaChanged), r.namespace,
      Health(Some(StaleHealth), Some(observed), Some(n), Some(SchemaChanged)));
    hide AuditScope, InventoryHash, RuntimeFailure, Observe;
  }

  lemma FailureEffect(w: World, ns: string, reason: Reason)
    requires ns in w.records && w.records[ns].namespace == ns
    ensures var w' := RuntimeFailure(w, ns, reason);
      && ns in w'.records && w'.records[ns].namespace == ns && w'.runtimes == w.runtimes
      && w'.records[ns].stale && w'.records[ns].staleReason == Some(reason)
  {}

  lemma ObserveEffect(w: World, ns: string, health: Health)
    requires ns in w.records && w.records[ns].namespace == ns
    ensures var r, w' := w.records[ns], Observe(w, ns, health);
      && ns in w'.records && w'.runtimes == w.runtimes
      && w'.records[ns].stale == r.stale && w'.records[ns].staleReason == r.staleReason
      && w'.records[ns].health == health
      && (health.status == Some(Healthy) && Mounted(w, ns).Some? ==> w'.records[ns].transport == Connected)
  {}

  /** A failing call takes the runtime down and leaves its toolset stale, if that is still
      registered, unless closing the runtime raises; the call itself is counted until its `finally`
      branch runs. */
  lemma FailedCallUnmounts(w: World, id: nat, expired: bool, c: Closing)
    requires Inv(w) && id in w.calls
    ensures var ns := w.calls[id].namespace;
      var w' := FailCall(w, id, expired, c);
      && Mounted(w', ns).None? && InFlight(w', ns) == InFlight(w, ns)
      && (FailRaises(w, id, expired, c) ==> OnlyDisconnected(w, w', ns))
      && (!FailRaises(w, id, expired, c) && ns in w.records ==>
            ns in w'.records && w'.records[ns].stale
            && w'.records[ns].staleReason == Some(if expired then CallTimeout else CallFailed)
            && w'.records[ns].transport == FailedTransport)
  {
    assert Ok(w, w.calls[id].namespace);
    hide Consistent, Recovery, AuditScope, Counted, FailRaises;
  }
}
