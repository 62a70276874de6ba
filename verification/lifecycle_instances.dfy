/** Which runtime a call is using, and exactly what takes it away. */
module LifecycleInstances {
  import opened Prelude
  import opened Inventory
  import opened Scopes
  import opened MountedNames
  import opened Lifecycle
  import opened LifecycleInvariants
  import opened LifecycleTheorems
  import opened LifecycleEffects
  import opened LifecycleResults

  /** What a step does to the table of runtimes. */
  datatype Change = Leaves | Opens(ns: string, tools: seq<Tool>) | Drops(ns: string) | Kills(ns: string) | Clears

  /** The table, and the number of swaps so far, after a change. */
  function Changed(w: World, c: Change): (map<string, Runtime>, nat) {
    match c
    case Leaves => (w.runtimes, w.swaps)
    case Opens(ns, tools) => (w.runtimes[ns := Runtime(tools, true, w.swaps)], w.swaps + 1)
    case Drops(ns) => (w.runtimes - {ns}, w.swaps)
    case Kills(ns) =>
      (if ns in w.runtimes then w.runtimes[ns := w.runtimes[ns].(alive := false)] else w.runtimes, w.swaps)
    case Clears => (map[], w.swaps)
  }

  /** A toolset with something loaded, the given scope included. */
  predicate Active(r: Record, scope: Option<Scope>) {
    r.loaded != [] && (scope.Some? ==> scope.value in r.loaded)
  }

  function Boot(ns: string, o: Opening): Change {
    if Open(o).Some? then Opens(ns, Open(o).value.0) else Leaves
  }

  /** The change a step makes, told from the state before it.  Whether closing the old runtime raises
      makes no difference: by then it has been replaced or removed. */
  function ChangeOf(w: World, a: Action): Change {
    match a
    case DoActivate(ns, scope, ifNotLoaded, o, _) =>
      if ns in w.records && scope in w.records[ns].supported
         && !(Mounted(w, ns).Some? && scope !in w.records[ns].loaded)
         && !(ifNotLoaded && scope in w.records[ns].loaded)
      then Boot(ns, o) else Leaves
    case DoRefresh(ns, ifStale, scope, o, _) =>
      if ns in w.records && Active(w.records[ns], scope)
         && !(ifStale && !w.records[ns].stale && w.records[ns].schemaHash.Some?)
      then Boot(ns, o) else Leaves
    case DoRestore(ns, identity, startup, o) =>
      if ns in w.records && RecoveryScopes(w.records[ns], identity, !startup) != [] && Mounted(w, ns).None?
      then Boot(ns, o) else Leaves
    case DoDeactivate(ns, scope, force, _) =>
      if ns in w.records && w.records[ns].loaded == [scope] && (force || InFlight(w, ns) == 0)
      then Drops(ns) else Leaves
    case DoUnregister(ns, force, _) =>
      if ns in w.records && w.records[ns].loaded != [] && force && InFlight(w, ns) == 0
      then Drops(ns) else Leaves
    case DoHealth(ns, scope, p, _) =>
      if ns in w.records && Active(w.records[ns], scope) && Mounted(w, ns).Some? && Observed(p).None?
      then Drops(ns) else Leaves
    case DoFailCall(id, _, _) => if id in w.calls then Drops(w.calls[id].namespace) else Leaves
    case DoDie(ns) => Kills(ns)
    case DoRestart => Clears
    case _ => Leaves
  }

  // ----- Each step changes the table exactly so -----

  predicate Makes(w: World, w': World, c: Change) {
    (w'.runtimes, w'.swaps) == Changed(w, c)
  }

  /** A bootstrap whose installation fails opens a runtime only if it got as far as the swap. */
  lemma FailureMakes(w: World, r: Record, tools: seq<Tool>, scope: Scope, audited: Option<Scope>)
    ensures Makes(w, FailActivation(w, r, scope).0, Leaves)
    ensures Makes(w, FailActivation(Swap(w, r.namespace, tools), r, scope).0, Opens(r.namespace, tools))
    ensures Makes(w, FailRefresh(w, r, audited).0, Leaves)
    ensures Makes(w, FailRefresh(Swap(w, r.namespace, tools), r, audited).0, Opens(r.namespace, tools))
  {
    hide Mounted;
  }

  lemma InstalledMakes(w: World, ns: string, tools: seq<Tool>)
    ensures forall r: Record, s, op, v, n, a | r.namespace == ns ::
      Makes(w, Log(Installed(w, r, tools, s), op, v, n, a), Opens(ns, tools))
  {}

  lemma ActivateFreshChange(w: World, r: Record, scope: Scope, o: Opening, c: Closing)
    ensures Makes(w, ActivateFresh(w, r, scope, o, c).0, Boot(r.namespace, o))
  {
    hide Makes, Open, SnapshotOf, Raises, FailActivation, Installed, Log;
    var tools := if Open(o).Some? then Open(o).value.0 else [];
    FailureMakes(w, r, tools, scope, None);
    InstalledMakes(w, r.namespace, tools);
    if Open(o).Some? {
      AddBothKeepsName(Fresh(r, SnapshotOf(r.namespace, Open(o).value.1), r.schemaHash), scope);
    }
    hide AddScope, AddRecoverable;
  }

  lemma AddBothKeepsName(r: Record, scope: Scope)
    ensures AddRecoverable(AddScope(r, scope), scope).namespace == r.namespace
  {}

  lemma RefreshFreshChange(w: World, r: Record, audited: Option<Scope>, o: Opening, c: Closing)
    ensures Makes(w, RefreshFresh(w, r, audited, o, c).0, Boot(r.namespace, o))
  {
    hide Makes, Open, SnapshotOf, HashOf, Raises, FailRefresh, Installed, Log;
    var tools := if Open(o).Some? then Open(o).value.0 else [];
    FailureMakes(w, r, tools, Thread, audited);
    InstalledMakes(w, r.namespace, tools);
  }

  lemma RestoreFreshChange(w: World, r: Record, wanted: seq<Scope>, o: Opening)
    ensures Makes(w, RestoreFresh(w, r, wanted, o).0, Boot(r.namespace, o))
  {
    hide Open, SnapshotOf, AuditScope;
    if Open(o).Some? {
      AddScopesOnlyLoads(Fresh(r, SnapshotOf(r.namespace, Open(o).value.1), r.schemaHash), wanted);
    }
    hide AddScopes;
  }

  lemma ReuseLeaves(w: World, r: Record, scope: Scope, missing: seq<Scope>)
    ensures Makes(w, ActivateReused(w, r, scope).0, Leaves)
    ensures Makes(w, RestoreReused(w, r, missing).0, Leaves)
  {
    hide AddScope, AddRecoverable, AddScopes, AuditScope, Reused;
  }

  lemma PutThen(w: World, r: Record, w': World, c: Change)
    requires Makes(Put(w, r), w', c)
    ensures Makes(w, w', c)
  {}

  lemma ActivateChange(w: World, a: Action)
    requires a.DoActivate? && Ok(w, a.ns)
    ensures Makes(w, Perform(w, a).0, ChangeOf(w, a))
  {
    hide ActivateReused, ActivateFresh, RestoreReused, Mounted, Ok, Sound, Policy, Local, Makes;
    StillMakes(w);
    if a.ns in w.records {
      Known(w, a.ns);
      var r := w.records[a.ns];
      ReuseLeaves(w, r, a.scope, []);
      var w1 := Put(w, r.(transport := Connecting));
      ActivateFreshChange(w1, r, a.scope, a.o, a.c);
      PutThen(w, r.(transport := Connecting), ActivateFresh(w1, r, a.scope, a.o, a.c).0, Boot(a.ns, a.o));
    }
  }

  /** Logging changes nothing here. */
  lemma StillMakes(w: World)
    ensures Makes(w, w, Leaves)
    ensures forall op, v, n, s :: Makes(w, Log(w, op, v, n, s), Leaves)
  {}

  lemma RefreshChange(w: World, a: Action)
    requires a.DoRefresh? && Ok(w, a.ns)
    ensures Makes(w, Perform(w, a).0, ChangeOf(w, a))
  {
    hide RefreshFresh, Mounted, Ok, Sound, Policy, Local, Makes, AuditScope;
    StillMakes(w);
    if a.ns in w.records {
      Known(w, a.ns);
      var r := w.records[a.ns];
      RefreshFreshChange(w, r, AuditScope(r.loaded, a.onlyScope), a.o, a.c);
    }
  }

  lemma RestoreChange(w: World, a: Action)
    requires a.DoRestore? && Ok(w, a.ns)
    ensures Makes(w, Perform(w, a).0, ChangeOf(w, a))
  {
    hide ActivateReused, RestoreReused, RestoreFresh, RecoveryScopes, Lifecycle.Missing;
    hide Mounted, Ok, Sound, Policy, Local, Makes;
    StillMakes(w);
    if a.ns in w.records {
      Known(w, a.ns);
      var r := w.records[a.ns];
      var wanted := RecoveryScopes(r, a.stableIdentity, !a.startup);
      ReuseLeaves(w, r, Thread, Lifecycle.Missing(wanted, r.loaded));
      var w1 := Put(w, r.(transport := Connecting));
      RestoreFreshChange(w1, r, wanted, a.o);
      PutThen(w, r.(transport := Connecting), RestoreFresh(w1, r, wanted, a.o).0, Boot(a.ns, a.o));
    }
  }

  lemma DeactivateChange(w: World, a: Action)
    requires a.DoDeactivate? && Ok(w, a.ns)
    ensures Makes(w, Perform(w, a).0, ChangeOf(w, a))
  {
    hide Ok, Sound, Local, InFlight, Policy, RemoveScope, RemoveRecoverable, Makes, Raises;
    StillMakes(w);
    LoggedPut(w, a.ns);
    if a.ns in w.records {
      Known(w, a.ns);
      var r := w.records[a.ns];
      Unloaded(r, a.scope);
      PolicyOrders(r);
      OnlyThat(r.loaded, a.scope);
      hide Without;
      hide Log, Put, Disconnect;
    }
  }

  lemma Unloaded(r: Record, scope: Scope)
    ensures RemoveRecoverable(RemoveScope(r, scope), scope).loaded == Without(scope, r.loaded)
  {}

  lemma PolicyOrders(r: Record)
    requires Policy(r)
    ensures Ordered(r.loaded)
  {}

  /** Storing a record and logging an event leave the table alone, and a disconnect drops its runtime. */
  lemma LoggedPut(w: World, ns: string)
    ensures forall r, op, v, n, s :: Makes(w, Log(Put(w, r), op, v, n, s), Leaves)
    ensures forall r, op, v, n, s :: Makes(w, Log(Put(Disconnect(w, ns), r), op, v, n, s), Drops(ns))
    ensures Makes(w, Disconnect(w, ns), Drops(ns))
  {}

  /** Removing a scope leaves nothing exactly when there was nothing else. */
  lemma OnlyThat(scopes: seq<Scope>, s: Scope)
    requires Ordered(scopes)
    ensures s in scopes && Without(s, scopes) == [] <==> scopes == [s]
  {
    WithoutFacts(s, scopes);
    if s in scopes && Without(s, scopes) == [] {
      assert forall x :: x in scopes ==> x == s || x in Without(s, scopes);
      OrderedDetermined(scopes, [s]);
    }
  }

  lemma HealthChange(w: World, a: Action)
    requires a.DoHealth? && Ok(w, a.ns)
    ensures Makes(w, Perform(w, a).0, ChangeOf(w, a))
  {
    hide ValidateInventory, Unhealthy, Probed, Mounted, Ok, Sound, Policy, Local, Raises;
    if a.ns in w.records {
      Known(w, a.ns);
      var r := w.records[a.ns];
      VerdictLeaves(w, r, a.onlyScope, RuntimeMissing, []);
      VerdictLeaves(Disconnect(w, a.ns), r, a.onlyScope, ProbeTimeout, []);
      VerdictLeaves(Disconnect(w, a.ns), r, a.onlyScope, ProbeFailed, []);
      if Observed(a.p).Some? {
        VerdictLeaves(w, r, a.onlyScope, ProbeFailed, Observed(a.p).value);
      }
    }
  }

  lemma VerdictLeaves(w: World, r: Record, scope: Option<Scope>, reason: Reason, schemas: seq<ToolSchema>)
    ensures Makes(w, Unhealthy(w, r, scope, reason), Leaves)
    ensures Makes(w, Probed(w, r, scope, schemas), Leaves)
  {
    var observed := InventoryHash(schemas);
    hide InventoryHash, RuntimeFailure, Observe, AuditScope;
    var failed := RuntimeFailure(w, r.namespace, reason);
    var drifted := RuntimeFailure(w, r.namespace, SchemaChanged);
    assert OnlyRecords(w, failed) && OnlyRecords(w, drifted);
  }

  lemma RegisterChange(w: World, a: Action)
    requires a.DoRegister?
    ensures Makes(w, Perform(w, a).0, ChangeOf(w, a))
  {
    StillMakes(w);
    LoggedPut(w, a.q.namespace);
    hide Requested, ValidNamespace, Makes, Log, Put;
  }

  lemma UnregisterChange(w: World, a: Action)
    requires a.DoUnregister?
    ensures Makes(w, Perform(w, a).0, ChangeOf(w, a))
  {
    assert Perform(w, a) == UnregisterToolset(w, a.ns, a.force, a.c);
    hide Perform;
    StillMakes(w);
    ForgottenMakes(w, a.ns);
    hide InFlight, Makes, Log, Forget, Disconnect, Raises;
  }

  lemma ForgottenMakes(w: World, ns: string)
    ensures forall op, v, n, s :: Makes(w, Log(Forget(w, ns), op, v, n, s), Leaves)
    ensures forall op, v, n, s :: Makes(w, Log(Forget(Disconnect(w, ns), ns), op, v, n, s), Drops(ns))
    ensures Makes(w, Disconnect(w, ns), Drops(ns))
  {}

  lemma ClearStaleChange(w: World, a: Action)
    requires a.DoClearStale?
    ensures Makes(w, Perform(w, a).0, ChangeOf(w, a))
  {
    StillMakes(w);
    LoggedPut(w, a.ns);
    hide Mounted, Troubled, Makes, Log, Put;
  }

  lemma FailCallChange(w: World, a: Action)
    requires a.DoFailCall?
    ensures Makes(w, Perform(w, a).0, ChangeOf(w, a))
  {
    hide RuntimeFailure, AuditScope;
    if a.id in w.calls {
      var w1 := Disconnect(w, w.calls[a.id].namespace);
      var reason := if a.expired then CallTimeout else CallFailed;
      assert OnlyRecords(w1, RuntimeFailure(w1, w.calls[a.id].namespace, reason));
    }
  }

  /** The other steps. */
  lemma PlainChange(w: World, a: Action)
    requires a.DoMarkStale? || a.DoStartCall? || a.DoFinishCall? || a.DoDie? || a.DoRestart?
    ensures Makes(w, Perform(w, a).0, ChangeOf(w, a))
  {
    hide Reconciled, DefaultRecord, HasTool, InFlight;
  }

  /** Every step changes the table of runtimes exactly as its guard says. */
  lemma RuntimesChangeSo(w: World, a: Action)
    requires Inv(w)
    ensures Makes(w, Perform(w, a).0, ChangeOf(w, a))
  {
    assert Locked(a) ==> Ok(w, Target(a));
    hide Inv, Ok, Makes, Perform, ChangeOf;
    match a
    case DoActivate(_, _, _, _, _) => ActivateChange(w, a);
    case DoRefresh(_, _, _, _, _) => RefreshChange(w, a);
    case DoRestore(_, _, _, _) => RestoreChange(w, a);
    case DoDeactivate(_, _, _, _) => DeactivateChange(w, a);
    case DoHealth(_, _, _, _) => HealthChange(w, a);
    case DoRegister(_) => RegisterChange(w, a);
    case DoUnregister(_, _, _) => UnregisterChange(w, a);
    case DoClearStale(_) => ClearStaleChange(w, a);
    case DoFailCall(_, _, _) => FailCallChange(w, a);
    case _ => PlainChange(w, a);
  }

  // ----- The runtime a call is using -----

  /** No runtime and no call has a serial number that is still to be given out. */
  ghost predicate Numbered(w: World) {
    && (forall ns :: ns in w.runtimes ==> w.runtimes[ns].serial < w.swaps)
    && (forall id :: id in w.calls ==> w.calls[id].serial < w.swaps)
  }

  lemma CallsEvolve(w: World, a: Action)
    requires Inv(w)
    ensures var w' := Perform(w, a).0;
      forall id :: id in w'.calls ==>
        (id in w.calls && w'.calls[id] == w.calls[id])
        || (w'.calls[id].namespace in w.runtimes && w'.calls[id].serial == w.runtimes[w'.calls[id].namespace].serial)
  {
    if Locked(a) {
      OperationsAreLocal(w, a);
      hide Perform, Inv, Ok, Local, Appends;
    } else if a.DoFailCall? {
      FailCallKeepsCalls(w, a.id, a.expired, a.c);
      assert Perform(w, a).0 == FailCall(w, a.id, a.expired, a.c);
      hide Inv, Perform, FailCall;
    } else {
      hide Inv, Reconciled, HasTool, InFlight;
    }
  }

  lemma FailCallKeepsCalls(w: World, id: nat, expired: bool, c: Closing)
    ensures FailCall(w, id, expired, c).calls == w.calls
  {
    hide RuntimeFailure, AuditScope, FailRaises;
    if id in w.calls {
      var w1 := Disconnect(w, w.calls[id].namespace);
      var reason := if expired then CallTimeout else CallFailed;
      assert OnlyRecords(w1, RuntimeFailure(w1, w.calls[id].namespace, reason));
    }
  }

  lemma StepNumbered(w: World, a: Action)
    requires Inv(w) && Numbered(w)
    ensures Numbered(Perform(w, a).0)
  {
    RuntimesChangeSo(w, a);
    CallsEvolve(w, a);
    var w', c := Perform(w, a).0, ChangeOf(w, a);
    hide Perform, Inv, ChangeOf;
    ChangeNumbered(w, w', c);
    hide Makes;
  }

  lemma ChangeNumbered(w: World, w': World, c: Change)
    requires Makes(w, w', c) && Numbered(w)
    ensures w.swaps <= w'.swaps && forall ns :: ns in w'.runtimes ==> w'.runtimes[ns].serial < w'.swaps
  {}

  lemma {:induction false} ReachableNumbered(actions: seq<Action>)
    ensures Numbered(Run(actions))
  {
    if actions != [] {
      var before := actions[..|actions| - 1];
      ReachableNumbered(before);
      ReachableInv(before);
      StepNumbered(Run(before), actions[|actions| - 1]);
    }
  }

  /** The very runtime the call was sent to is still up and still mounted. */
  predicate Holds(w: World, c: Call) {
    Mounted(w, c.namespace).Some? && Mounted(w, c.namespace).value.serial == c.serial
  }

  /** The steps that take a live call's runtime away, told from the state before them: a forced
      deactivation of its last scope, a probe that fails, a failing call on the namespace, the
      runtime's own death, a restart; and also a refresh, or an activation asked for again, that
      comes up, since it swaps in a new runtime and closes the one in use, whether or not that
      raises. */
  predicate TakesAway(w: World, a: Action, c: Call)
    requires c.namespace in w.records
  {
    var ns := c.namespace;
    var r := w.records[ns];
    match a
    case DoActivate(m, scope, ifNotLoaded, o, _) => m == ns && scope in r.loaded && !ifNotLoaded && Open(o).Some?
    case DoRefresh(m, ifStale, scope, o, _) => m == ns && Active(r, scope) && (ifStale ==> r.stale) && Open(o).Some?
    case DoDeactivate(m, scope, force, _) => m == ns && r.loaded == [scope] && force
    case DoHealth(m, scope, p, _) => m == ns && Active(r, scope) && Observed(p).None?
    case DoFailCall(id, _, _) => id in w.calls && w.calls[id].namespace == ns
    case DoDie(m) => m == ns
    case DoRestart => true
    case _ => false
  }

  /** A call in flight loses the runtime it is using exactly to those steps: to no unforced
      deactivation, to no unregistration, forced or not, and to no restore. */
  lemma LiveCallLosesRuntimeIff(w: World, a: Action, id: nat)
    requires Inv(w) && Numbered(w) && id in w.calls && Holds(w, w.calls[id])
    ensures w.calls[id].namespace in w.records
    ensures !Holds(Perform(w, a).0, w.calls[id]) <==> TakesAway(w, a, w.calls[id])
  {
    var c := w.calls[id];
    var ns := c.namespace;
    assert Ok(w, ns) && ns in w.runtimes && w.runtimes[ns].serial < w.swaps;
    Known(w, ns);
    ClampNeverNeeded(w, id);
    RuntimesChangeSo(w, a);
    ChangeTakesAway(w, Perform(w, a).0, ChangeOf(w, a), c);
    hide Perform, Inv, Ok, Sound, Local, Numbered, Holds, Open, InFlight;
    TakesAwayIsChange(w, a, c);
  }

  predicate Touches(c: Change, ns: string) {
    c.Clears? || (!c.Leaves? && c.ns == ns)
  }

  lemma ChangeTakesAway(w: World, w': World, change: Change, c: Call)
    requires Makes(w, w', change) && Holds(w, c) && c.serial < w.swaps
    ensures !Holds(w', c) <==> Touches(change, c.namespace)
  {}

  lemma TakesAwayIsChange(w: World, a: Action, c: Call)
    requires c.namespace in w.records && Mounted(w, c.namespace).Some? && InFlight(w, c.namespace) > 0
    requires var r := w.records[c.namespace]; Policy(r) && r.loaded != [] && r.schemaHash.Some?
    ensures Touches(ChangeOf(w, a), c.namespace) <==> TakesAway(w, a, c)
  {
    hide Mounted, InFlight, Open, ValidateInventory, RecoveryScopes;
    hide Ordered;
  }

  /** What a call has lost it never gets back: a runtime mounted later is another one. */
  lemma LostForGood(w: World, a: Action, c: Call)
    requires Inv(w) && c.serial < w.swaps && !Holds(w, c)
    ensures !Holds(Perform(w, a).0, c) && c.serial < Perform(w, a).0.swaps
  {
    RuntimesChangeSo(w, a);
    hide *;
    ChangeLeavesLost(w, Perform(w, a).0, ChangeOf(w, a), c);
  }

  lemma ChangeLeavesLost(w: World, w': World, change: Change, c: Call)
    requires Makes(w, w', change) && c.serial < w.swaps && !Holds(w, c)
    ensures !Holds(w', c) && c.serial < w'.swaps
  {}

  /** A failing call disconnects whatever is mounted on its namespace.  That is a runtime the call
      was not using exactly when one is up and it is not the one the call was sent to. */
  lemma FailingCallTakesAnother(w: World, id: nat, expired: bool, closing: Closing)
    requires Inv(w) && id in w.calls
    ensures var c := w.calls[id];
      var w' := FailCall(w, id, expired, closing);
      && Mounted(w', c.namespace).None?
      && ((exists other: Call ::
             other.namespace == c.namespace && other != c && Holds(w, other) && !Holds(w', other)) <==>
            Mounted(w, c.namespace).Some? && Mounted(w, c.namespace).value.serial != c.serial)
  {
    FailedCallUnmounts(w, id, expired, closing);
    var c := w.calls[id];
    if Mounted(w, c.namespace).Some? {
      var other := Call(c.namespace, Mounted(w, c.namespace).value.serial);
      assert Holds(w, other);
      hide FailCall, Inv;
      assert other != c ==> !Holds(FailCall(w, id, expired, closing), other);
    }
  }

  const ONE_TOOL := [Tool("t", None, None, "{}", None)]

  const REFRESHED_UNDER_CALL := [
    DoActivate(FAKE, Thread, false, Listed(ONE_TOOL), Quiet),
    DoStartCall(0, FAKE, "t"),
    DoRefresh(FAKE, false, None, Listed(ONE_TOOL), Quiet)]

  /** It does happen: activate the default toolset, start a call, refresh, and let the call fail.
      The refresh replaces the runtime under the call, and the failing call takes the new one
      down. */
  lemma RefreshedUnderCall()
    ensures var w := Run(REFRESHED_UNDER_CALL);
      && 0 in w.calls && !Holds(w, w.calls[0]) && Mounted(w, FAKE).Some?
      && Mounted(Perform(w, DoFailCall(0, false, Quiet)).0, FAKE).None?
  {
    CalledDefault();
    var all := REFRESHED_UNDER_CALL;
    var w2, w3 := Run(all[..2]), Run(all);
    ReachableInv(all[..2]);
    ReachableInv(all);
    assert w3 == Perform(w2, all[2]).0;
    hide Run, Inv;
    RuntimesChangeSo(w2, all[2]);
    OpenOneTool();
    CallsStay(w2, all[2], 0);
    hide Perform;
    assert w3.runtimes == map[FAKE := Runtime(ONE_TOOL, true, 1)];
    FailedCallUnmounts(w3, 0, false, Quiet);
    FailCallStep(w3, 0, false, Quiet);
  }

  /** The default toolset with a call in flight. */
  lemma CalledDefault()
    ensures var w := Run(REFRESHED_UNDER_CALL[..2]);
      && FAKE in w.records && w.records[FAKE].loaded == [Thread]
      && w.runtimes == map[FAKE := Runtime(ONE_TOOL, true, 0)] && w.swaps == 1
      && 0 in w.calls && w.calls[0] == Call(FAKE, 0)
  {
    OpenOneTool();
    LoadedDefault(ONE_TOOL);
    var one := [DoActivate(FAKE, Thread, false, Listed(ONE_TOOL), Quiet)];
    assert REFRESHED_UNDER_CALL[..2] == one + [DoStartCall(0, FAKE, "t")];
    RunSnoc(one, DoStartCall(0, FAKE, "t"));
    assert Perform(Run(one), DoStartCall(0, FAKE, "t")).0 == StartCall(Run(one), 0, FAKE, "t");
    FirstCallStarts(Run(one));
    hide *;
  }

  lemma RunSnoc(actions: seq<Action>, a: Action)
    ensures Run(actions + [a]) == Perform(Run(actions), a).0
  {
    assert (actions + [a])[..|actions|] == actions;
    hide Perform;
  }

  lemma FirstCallStarts(w: World)
    requires w.runtimes == map[FAKE := Runtime(ONE_TOOL, true, 0)] && w.calls == map[]
    ensures var w' := StartCall(w, 0, FAKE, "t");
      && w'.records == w.records && w'.runtimes == w.runtimes && w'.swaps == w.swaps
      && 0 in w'.calls && w'.calls[0] == Call(FAKE, 0)
  {
    assert ONE_TOOL[0].name == "t";
  }

  lemma FailCallStep(w: World, id: nat, expired: bool, c: Closing)
    ensures Perform(w, DoFailCall(id, expired, c)).0 == FailCall(w, id, expired, c)
  {}

  lemma CallsStay(w: World, a: Action, id: nat)
    requires Inv(w) && Locked(a)
    ensures Perform(w, a).0.calls == w.calls
  {
    OperationsAreLocal(w, a);
    hide Perform, Ok, Local, Appends;
  }

  lemma OpenOneTool()
    ensures Open(Listed(ONE_TOOL)).Some? && Open(Listed(ONE_TOOL)).value.0 == ONE_TOOL
  {}

  /** The default toolset, activated in a fresh process. */
  lemma LoadedDefault(tools: seq<Tool>)
    requires Open(Listed(tools)).Some?
    ensures var w := Run([DoActivate(FAKE, Thread, false, Listed(tools), Quiet)]);
      && FAKE in w.records && w.records[FAKE].loaded == [Thread]
      && w.runtimes == map[FAKE := Runtime(tools, true, 0)] && w.swaps == 1
      && w.calls == map[] && w.inFlight == map[]
  {
    var a := DoActivate(FAKE, Thread, false, Listed(tools), Quiet);
    assert [a][..0] == [];
    var w0 := Run([]);
    ReachableInv([]);
    assert Ok(w0, FAKE);
    var w := Perform(w0, a).0;
    assert Run([a]) == w;
    FreshDefault();
    assert Open(Listed(tools)).value.0 == tools;
    hide Run, Open;
    RuntimesChangeSo(w0, a);
    CallsStay(w0, a, 0);
    OperationsAreLocal(w0, a);
    ActivateEffect(w0, FAKE, Thread, false, Listed(tools), Quiet);
    ActivateStep(w0, a);
    hide Perform, ActivateToolset, Inv, Ok;
    OrderedDetermined(w.records[FAKE].loaded, [Thread]);
  }

  lemma ActivateStep(w: World, a: Action)
    requires a.DoActivate?
    ensures Perform(w, a) == ActivateToolset(w, a.ns, a.scope, a.ifNotLoaded, a.o, a.c)
  {}

  lemma FreshDefault()
    ensures var w := Run([]);
      && FAKE in w.records && Thread in w.records[FAKE].supported && w.records[FAKE].loaded == []
      && w.runtimes == map[] && w.swaps == 0 && w.calls == map[] && w.inFlight == map[]
  {}
}
