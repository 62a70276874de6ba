/** What the invariant gives: schema generations, recovery by history, reloadable records, and
    resolvable names. */
module LifecycleResults {
  import opened Prelude
  import opened Inventory
  import opened Scopes
  import opened Registry
  import opened MountedNames
  import opened Lifecycle
  import opened LifecycleInvariants
  import opened LifecycleTheorems

  // ----- Schema generations -----

  predicate SameCaches(w: World, w': World) {
    w'.current == w.current && w'.previous == w.previous
  }

  predicate Still(w: World, w': World) {
    SameCaches(w, w') && w'.runtimes == w.runtimes && w'.swaps == w.swaps
  }

  /** The new runtime took the place of one that was up, and closing that one raised. */
  predicate SwappedOnly(w: World, w': World, ns: string, o: Opening, c: Closing) {
    && SameCaches(w, w') && Open(o).Some? && Raises(w, ns, c)
    && w'.runtimes == w.runtimes[ns := Runtime(Open(o).value.0, true, w.swaps)] && w'.swaps == w.swaps + 1
  }

  /** The current generation became the previous one, s took its place, and whatever was wrong with
      the toolset is forgotten. */
  predicate Shifted(w: World, w': World, ns: string, s: Snapshot) {
    && w'.current == w.current[ns := s]
    && w'.previous == (if ns in w.current then w.previous[ns := w.current[ns]] else w.previous)
    && Mounted(w', ns).Some? && w'.swaps == w.swaps + 1
    && ns in w'.records && w'.records[ns].schemaHash == Some(s.hash) && w'.records[ns].toolCount == s.count
    && w'.records[ns].transport == Connected && !Troubled(w'.records[ns])
    && ns in w.records && w'.records[ns].previousHash == w.records[ns].schemaHash
  }

  /** Without success nothing moved, except that the runtime is the new one when closing the old
      one raised.  With it, either a runtime that was up is reused and nothing moved, or the
      bootstrap came up and exactly one generation was shifted. */
  predicate StillOrShifted(w: World, ns: string, mayReuse: bool, o: Opening, c: Closing, result: (World, Bucket)) {
    if result.1 != Done then Still(w, result.0) || (result.1 == Failed && SwappedOnly(w, result.0, ns, o, c))
    else
      || (mayReuse && Mounted(w, ns).Some? && Still(w, result.0))
      || (Open(o).Some? && !Raises(w, ns, c) && Shifted(w, result.0, ns, SnapshotOf(ns, Open(o).value.1)))
  }

  lemma InstalledShifts(w: World, w1: World, r: Record, tools: seq<Tool>, s: Snapshot)
    requires r.namespace in w.records && Still(w, w1) && s.namespace == r.namespace
    requires r.schemaHash == Some(s.hash) && r.previousHash == w.records[r.namespace].schemaHash
    requires r.toolCount == s.count && r.transport == Connected && !Troubled(r)
    ensures Shifted(w, Installed(w1, r, tools, s), r.namespace, s)
  {}

  lemma ActivateShifts(w: World, ns: string, scope: Scope, ifNotLoaded: bool, o: Opening, c: Closing)
    requires Ok(w, ns)
    ensures StillOrShifted(w, ns, true, o, c, ActivateToolset(w, ns, scope, ifNotLoaded, o, c))
  {
    hide ActivateFresh, SwappedOnly, AddRecoverable, AddScope, Reused;
    if ns in w.records {
      Known(w, ns);
      hide Ok, Shifted;
      ActivateFreshShifts(w, w.records[ns], scope, o, c);
    }
  }

  lemma ActivateFreshShifts(w: World, r: Record, scope: Scope, o: Opening, c: Closing)
    requires r.namespace in w.records && w.records[r.namespace] == r
    ensures var result := ActivateFresh(Put(w, r.(transport := Connecting)), r, scope, o, c);
      StillOrShifted(w, r.namespace, false, o, c, result)
  {
    hide Open, InventoryHash, Installed;
    var w1 := Put(w, r.(transport := Connecting));
    if Open(o).Some? {
      var s := SnapshotOf(r.namespace, Open(o).value.1);
      var r' := AddRecoverable(AddScope(Fresh(r, s, r.schemaHash), scope), scope);
      InstalledShifts(w, w1, r', Open(o).value.0, s);
    }
    hide AddRecoverable, AddScope, SnapshotOf;
  }

  lemma RefreshShifts(w: World, ns: string, ifStale: bool, scope: Option<Scope>, o: Opening, c: Closing)
    requires Ok(w, ns)
    ensures StillOrShifted(w, ns, false, o, c, RefreshToolset(w, ns, ifStale, scope, o, c))
  {
    hide RefreshFresh, SwappedOnly, AuditScope;
    if ns in w.records {
      Known(w, ns);
      hide Ok, Shifted;
      RefreshFreshShifts(w, w.records[ns], AuditScope(w.records[ns].loaded, scope), o, c);
    }
  }

  lemma RefreshFreshShifts(w: World, r: Record, audited: Option<Scope>, o: Opening, c: Closing)
    requires r.namespace in w.records && w.records[r.namespace] == r
    requires r.schemaHash == HashOf(w.current, r.namespace)
    ensures StillOrShifted(w, r.namespace, false, o, c, RefreshFresh(w, r, audited, o, c))
  {
    hide Open, InventoryHash, Installed;
    if Open(o).Some? {
      var s := SnapshotOf(r.namespace, Open(o).value.1);
      InstalledShifts(w, w, Fresh(r, s, HashOf(w.current, r.namespace)), Open(o).value.0, s);
    }
    hide SnapshotOf, HashOf;
  }

  lemma RestoreShifts(w: World, ns: string, stableIdentity: bool, startup: bool, o: Opening)
    requires Ok(w, ns)
    ensures StillOrShifted(w, ns, true, o, Quiet, RestoreToolset(w, ns, stableIdentity, startup, o))
  {
    hide RestoreFresh, AddScopes, RecoveryScopes, Lifecycle.Missing, Reused, AuditScope;
    if ns in w.records {
      Known(w, ns);
      hide Ok, Shifted;
      RestoreFreshShifts(w, w.records[ns], RecoveryScopes(w.records[ns], stableIdentity, !startup), o);
    }
  }

  lemma RestoreFreshShifts(w: World, r: Record, wanted: seq<Scope>, o: Opening)
    requires r.namespace in w.records && w.records[r.namespace] == r
    ensures var result := RestoreFresh(Put(w, r.(transport := Connecting)), r, wanted, o);
      StillOrShifted(w, r.namespace, false, o, Quiet, result)
  {
    hide Open, InventoryHash, Installed, AddScopes, AuditScope;
    var w1 := Put(w, r.(transport := Connecting));
    if Open(o).Some? {
      var s := SnapshotOf(r.namespace, Open(o).value.1);
      AddScopesOnlyLoads(Fresh(r, s, r.schemaHash), wanted);
      InstalledShifts(w, w1, AddScopes(Fresh(r, s, r.schemaHash), wanted), Open(o).value.0, s);
    }
    hide SnapshotOf;
  }

  function ClosingOf(a: Action): Closing {
    match a
    case DoUnregister(_, _, c) => c
    case DoActivate(_, _, _, _, c) => c
    case DoRefresh(_, _, _, _, c) => c
    case DoDeactivate(_, _, _, c) => c
    case DoHealth(_, _, _, c) => c
    case DoFailCall(_, _, c) => c
    case _ => Quiet
  }

  /** A failed or skipped activation, refresh or restore leaves both snapshot caches as they were,
      and every runtime too, unless closing the runtime it replaced raised.  A successful refresh
      shifts the current generation to previous exactly once, and so does a successful activation
      or restore unless it reuses a runtime that is up. */
  lemma SchemasShiftOnce(w: World, a: Action)
    requires Inv(w) && (a.DoActivate? || a.DoRefresh? || a.DoRestore?)
    ensures StillOrShifted(w, a.ns, !a.DoRefresh?, a.o, ClosingOf(a), Perform(w, a))
  {
    assert Ok(w, a.ns);
    hide Inv, Ok, StillOrShifted, ActivateToolset, RefreshToolset, RestoreToolset;
    match a
    case DoActivate(ns, scope, ifNotLoaded, o, c) => ActivateShifts(w, ns, scope, ifNotLoaded, o, c);
    case DoRefresh(ns, ifStale, scope, o, c) => RefreshShifts(w, ns, ifStale, scope, o, c);
    case DoRestore(ns, identity, startup, o) => RestoreShifts(w, ns, identity, startup, o);
  }

  /** Unregistering leaves no residue, so registering again starts from nothing. */
  lemma UnregisterThenRegister(w: World, ns: string, force: bool, c: Closing, q: Request)
    requires Inv(w) && q.namespace == ns
    requires UnregisterToolset(w, ns, force, c).1 in {Done, DoneAndSkipped}
    ensures var w1 := UnregisterToolset(w, ns, force, c).0;
      && ns !in w1.records && ns !in w1.current && ns !in w1.previous && ns !in w1.runtimes
      && (RegisterToolset(w1, q).1 == Done ==>
            var w2 := RegisterToolset(w1, q).0;
            && ns in w2.records && Some(w2.records[ns]) == Requested(q)
            && w2.records[ns].loaded == [] && w2.records[ns].recoverable == []
            && w2.records[ns].schemaHash.None? && w2.records[ns].previousHash.None?
            && ns !in w2.current && ns !in w2.previous && ns !in w2.runtimes)
  {
    var w1 := UnregisterToolset(w, ns, force, c).0;
    assert Ok(w, ns);
    UnregisterKeeps(w, ns, force, c);
    assert Ok(w1, ns);
    RequestedIsValid(q);
    hide Requested, ValidNamespace, Inv, Consistent;
  }

  // ----- Scope policy and recovery -----

  /** The validator that runs on load accepts every stored record, and changes none. */
  lemma EveryRecordReloads(actions: seq<Action>, ns: string)
    ensures var w := Run(actions);
      ns in w.records ==> ValidateScopePolicy(w.records[ns]) == Some(w.records[ns])
  {
    ReachableInv(actions);
    var w := Run(actions);
    hide Run;
    if ns in w.records {
      assert Ok(w, ns);
      ReloadIffCanonical(w.records[ns]);
    }
  }

  /** What can be recovered is decided by history alone: exactly the restorable scopes whose
      latest successful activation or deactivation, since the toolset was last registered, was
      an activation.  Refreshes, restores, failures, health checks and restarts do not count. */
  lemma RecoverableByHistory(actions: seq<Action>, ns: string, s: Scope)
    ensures var w := Run(actions);
      ns in w.records ==>
        (s in w.records[ns].recoverable <==>
          s in w.records[ns].restorable && LatestIsActivation(w.history, ns, s))
  {
    ReachableInv(actions);
    assert Ok(Run(actions), ns);
    hide Run, LatestIsActivation, Consistent;
  }

  predicate GatesOpen(r: Record, stableIdentity: bool, explicitRequest: bool) {
    (r.needsIdentity ==> stableIdentity) && (r.needsRequest ==> explicitRequest)
  }

  /** After a restart, a permitted restore whose bootstrap comes up loads exactly the recoverable
      scopes: every restorable scope that was loaded before the restart, and never thread. */
  lemma RestartThenRestore(w: World, ns: string, stableIdentity: bool, startup: bool, o: Opening)
    requires Inv(w) && ns in w.records && w.records[ns].recoverable != []
    requires GatesOpen(w.records[ns], stableIdentity, !startup) && Open(o).Some?
    ensures var (w', b) := RestoreToolset(Restart(w), ns, stableIdentity, startup, o);
      && b == Done && ns in w'.records
      && w'.records[ns].loaded == w'.records[ns].recoverable == w.records[ns].recoverable
      && Thread !in w'.records[ns].loaded
      && (forall s :: s in w.records[ns].loaded && s in w.records[ns].restorable ==> s in w'.records[ns].loaded)
      && Mounted(w', ns).Some?
  {
    var r := w.records[ns];
    assert Ok(w, ns);
    ReconciledKeepsRecoverable(r);
    var v := Restart(w);
    var r1 := r.(loaded := [], transport := Inactive);
    assert v.records[ns] == r1;
    var wanted := RecoveryScopes(r1, stableIdentity, !startup);
    CommonFacts(r.recoverable, r.restorable, r.supported);
    assert wanted == r.recoverable;
    assert Mounted(v, ns).None?;
    var w1 := Put(v, r1.(transport := Connecting));
    assert RestoreToolset(v, ns, stableIdentity, startup, o) == RestoreFresh(w1, r1, wanted, o);
    hide Restart, Inv, Ok, Consistent, Open, RestoreToolset;
    RestoredRecord(w1, r1, wanted, o);
  }

  lemma RestoredRecord(w: World, r: Record, wanted: seq<Scope>, o: Opening)
    requires Policy(r) && r.loaded == [] && wanted == r.recoverable && Open(o).Some?
    ensures var (w', b) := RestoreFresh(w, r, wanted, o);
      && b == Done && r.namespace in w'.records && Mounted(w', r.namespace).Some?
      && w'.records[r.namespace].loaded == w'.records[r.namespace].recoverable == r.recoverable
  {
    hide Open;
    var (tools, schemas) := Open(o).value;
    var renewed := Fresh(r, SnapshotOf(r.namespace, schemas), r.schemaHash);
    AddScopesKeeps(renewed, wanted);
    OrderedDetermined(AddScopes(renewed, wanted).loaded, r.recoverable);
  }

  // ----- Mounted names -----

  ghost predicate NamesValid(w: World) {
    forall ns :: ns in w.records ==> ValidNamespace(ns)
  }

  lemma UnknownStaysUnknown(w: World, a: Action)
    requires Locked(a) && Target(a) !in w.records && !a.DoRegister?
    ensures Perform(w, a).0.records == w.records
  {
    hide ActivateReused, ActivateFresh, RefreshFresh, RestoreReused, RestoreFresh, Unhealthy, Probed, Open, Troubled;
  }

  lemma RegisterNamesValid(w: World, q: Request)
    requires NamesValid(w)
    ensures q.namespace in RegisterToolset(w, q).0.records ==> ValidNamespace(q.namespace)
  {
    RequestedIsValid(q);
    hide Requested;
  }

  lemma StepNamesValid(w: World, a: Action)
    requires Inv(w) && NamesValid(w)
    ensures NamesValid(Perform(w, a).0)
  {
    var w' := Perform(w, a).0;
    if Locked(a) {
      OperationsAreLocal(w, a);
      if a.DoRegister? {
        RegisterNamesValid(w, a.q);
      } else if Target(a) !in w.records {
        UnknownStaysUnknown(w, a);
      }
      hide Perform, Inv, Ok, ValidNamespace, RegisterToolset;
      forall ns | ns in w'.records
        ensures ValidNamespace(ns)
      {
        if ns != Target(a) {
          assert SameAt(w, w', ns);
        } else if a.DoRegister? {
          assert w' == RegisterToolset(w, a.q).0 by { RegisterStep(w, a.q); }
        }
      }
    } else if a.DoFailCall? {
      FailCallNamesValid(w, a.id, a.expired, a.c);
    } else {
      hide Inv, ValidNamespace;
      assert ValidNamespace(FAKE) by { FakeIsValid(); }
    }
  }

  lemma FailCallNamesValid(w: World, id: nat, expired: bool, c: Closing)
    requires Inv(w) && NamesValid(w)
    ensures NamesValid(FailCall(w, id, expired, c))
  {
    if id in w.calls {
      var ns := w.calls[id].namespace;
      assert Ok(w, ns);
      FailCallKeeps(w, id, expired, c);
      if ns !in w.records {
        assert FailCall(w, id, expired, c).records == w.records;
      }
      hide FailCall, Inv, Ok, ValidNamespace;
      forall m | m in FailCall(w, id, expired, c).records
        ensures ValidNamespace(m)
      {
        if m != ns {
          assert SameAt(w, FailCall(w, id, expired, c), m);
        }
      }
    }
  }

  lemma RegisterStep(w: World, q: Request)
    ensures Perform(w, DoRegister(q)) == RegisterToolset(w, q)
  {}

  lemma FakeIsValid()
    ensures ValidNamespace(FAKE)
  {}

  lemma {:induction false} ReachableNamesValid(actions: seq<Action>)
    ensures NamesValid(Run(actions))
  {
    if actions == [] {
      FakeIsValid();
      hide ValidNamespace;
    } else {
      var before := actions[..|actions| - 1];
      ReachableNamesValid(before);
      ReachableInv(before);
      StepNamesValid(Run(before), actions[|actions| - 1]);
    }
  }

  /** The inventories a call can see. */
  function Live(w: World): map<string, seq<Tool>> {
    map ns | ns in w.runtimes && w.runtimes[ns].alive :: w.runtimes[ns].tools
  }

  /** In every reachable state, whatever else is mounted and in whatever order the namespaces are
      tried, a mounted name resolves to a tool exactly when it is that tool's name. */
  lemma MountedToolsResolve(actions: seq<Action>, namespaces: seq<string>, name: string, ns: string, tool: Tool)
    requires forall n :: n in namespaces <==> n in Live(Run(actions))
    ensures Resolve(name, namespaces, Live(Run(actions))) == Some((ns, tool)) <==>
      ns in Live(Run(actions)) && tool in Live(Run(actions))[ns] && name == MountedName(ns, tool.name)
  {
    var w := Run(actions);
    var live := Live(w);
    ReachableInv(actions);
    ReachableNamesValid(actions);
    hide Run;
    forall n | n in live
      ensures '.' !in n && !HasDuplicate(live[n])
    {
      assert Ok(w, n);
      NoDot(n);
    }
    hide Inv, NamesValid, HasDuplicate, Live;
    OnlyMounted(name, namespaces, live);
    if ns in live {
      ResolveIff(name, namespaces, live, ns, tool);
    }
  }

  // ----- Calls in flight -----

  /** The counter never has to be clamped: a call that finishes was counted. */
  lemma ClampNeverNeeded(w: World, id: nat)
    requires Inv(w) && id in w.calls
    ensures InFlight(w, w.calls[id].namespace) > 0
    ensures InFlight(FinishCall(w, id), w.calls[id].namespace) == InFlight(w, w.calls[id].namespace) - 1
  {
    assert id in CallsOf(w.calls, w.calls[id].namespace);
    hide Ok;
  }
}
