/** The lifecycle over whole runs: arbitrarily many namespaces, any order of operations, failures
    and restarts. */
module LifecycleTheorems {
  import opened Prelude
  import opened Inventory
  import opened Scopes
  import opened Registry
  import opened MountedNames
  import opened Lifecycle
  import opened LifecycleInvariants

  // ----- Every step keeps the invariant -----

  lemma KeepsInv(w: World, w': World, ns: string)
    requires Inv(w) && Keeps(w, w', ns)
    ensures Inv(w')
  {
    hide Ok, Local, Appends;
    forall m
      ensures Ok(w', m)
    {
      if m != ns {
        OthersStayOk(w, w', ns, m);
      }
    }
  }

  lemma StartCallKeeps(w: World, id: nat, ns: string, tool: string)
    requires Inv(w)
    ensures Inv(StartCall(w, id, ns, tool))
  {
    hide HasTool, Mounted, Ok, Counted, InFlight;
    var w' := StartCall(w, id, ns, tool);
    SameStore(w, w');
    if w'.calls != w.calls {
      AddedCounted(w, w', id, w'.calls[id]);
    }
  }

  lemma AddedCounted(w: World, w': World, id: nat, c: Call)
    requires Counted(w) && id !in w.calls && w'.calls == w.calls[id := c]
    requires w'.inFlight == w.inFlight[c.namespace := InFlight(w, c.namespace) + 1]
    ensures Counted(w')
  {
    hide CallsOf;
    forall m
      ensures InFlight(w', m) == |CallsOf(w'.calls, m)|
    {
      CallAdded(w.calls, id, c, m);
      assert InFlight(w, m) == |CallsOf(w.calls, m)|;
    }
  }

  lemma CallAdded(calls: map<nat, Call>, id: nat, c: Call, m: string)
    requires id !in calls
    ensures |CallsOf(calls[id := c], m)| == |CallsOf(calls, m)| + if m == c.namespace then 1 else 0
  {
    if m == c.namespace {
      assert CallsOf(calls[id := c], m) == CallsOf(calls, m) + {id};
    } else {
      assert CallsOf(calls[id := c], m) == CallsOf(calls, m);
    }
  }

  lemma CallRemoved(calls: map<nat, Call>, id: nat, m: string)
    requires id in calls
    ensures |CallsOf(calls - {id}, m)| == |CallsOf(calls, m)| - if m == calls[id].namespace then 1 else 0
  {
    if m == calls[id].namespace {
      assert id in CallsOf(calls, m);
      assert CallsOf(calls - {id}, m) == CallsOf(calls, m) - {id};
    } else {
      assert CallsOf(calls - {id}, m) == CallsOf(calls, m);
    }
  }

  lemma FinishCallKeeps(w: World, id: nat)
    requires Inv(w)
    ensures Inv(FinishCall(w, id))
  {
    hide Ok, CallsOf;
    var w' := FinishCall(w, id);
    SameStore(w, w');
    if id in w.calls {
      forall m
        ensures InFlight(w', m) == |CallsOf(w'.calls, m)|
      {
        CallRemoved(w.calls, id, m);
        assert InFlight(w, m) == |CallsOf(w.calls, m)|;
      }
    }
  }

  lemma SameStore(w: World, w': World)
    requires w'.records == w.records && w'.current == w.current && w'.previous == w.previous
    requires w'.runtimes == w.runtimes && w'.history == w.history
    ensures forall ns :: Ok(w, ns) ==> Ok(w', ns)
  {
    hide Consistent;
  }

  /** Reconciliation at startup never has to guess: what it would recompute is already there. */
  lemma ReconciledKeepsRecoverable(r: Record)
    requires Policy(r)
    ensures Reconciled(r) == r.(loaded := [], transport := Inactive) && Policy(Reconciled(r))
  {
    if r.recoverable == [] {
      CommonFacts(r.loaded, r.restorable, r.restorable);
      EmptyIffNoMembers(Loadable(r.loaded, r.restorable));
      var members := set s | s in Loadable(r.loaded, r.restorable);
      assert members == {};
    }
  }

  lemma RestartKeeps(w: World)
    requires forall ns :: Ok(w, ns)
    ensures Inv(Restart(w))
  {
    var w' := Restart(w);
    forall ns
      ensures Ok(w', ns)
    {
      RestartedOk(w, ns);
    }
    hide Ok;
    forall ns
      ensures InFlight(w', ns) == |CallsOf(w'.calls, ns)|
    {
      assert CallsOf(w'.calls, ns) == {};
    }
  }

  lemma RestartedOk(w: World, ns: string)
    requires Ok(w, ns)
    ensures Ok(Restart(w), ns)
  {
    RestartedCell(w, ns);
    hide Restart, Reconciled, DefaultRecord, Policy, SnapshotOk, LatestIsActivation;
  }

  /** What a restart leaves at one namespace. */
  lemma RestartedCell(w: World, ns: string)
    requires ns in w.records ==> Policy(w.records[ns]) && w.records[ns].namespace == ns
    ensures var w' := Restart(w);
      && w'.current == w.current && w'.previous == w.previous && w'.history == w.history && w'.runtimes == map[]
      && (ns in w'.records <==> ns in w.records || ns == FAKE)
      && (ns in w.records ==>
            && w'.records[ns] == w.records[ns].(loaded := [], transport := Inactive)
            && Policy(w'.records[ns]))
      && (ns !in w.records && ns == FAKE ==>
            var r := w'.records[ns];
            && Policy(r) && r.namespace == ns && r.loaded == r.recoverable == r.restorable == []
            && r.schemaHash == r.previousHash == None && r.toolCount == 0)
  {
    if ns in w.records {
      ReconciledKeepsRecoverable(w.records[ns]);
      hide Reconciled;
    }
  }

  lemma FailCallInv(w: World, id: nat, expired: bool, c: Closing)
    requires Inv(w)
    ensures Inv(FailCall(w, id, expired, c))
  {
    if id in w.calls {
      var ns := w.calls[id].namespace;
      assert Ok(w, ns);
      FailCallKeeps(w, id, expired, c);
      hide *;
      KeepsInv(w, FailCall(w, id, expired, c), ns);
    }
  }

  /** The namespace a lock-protected operation works on. */
  function Target(a: Action): string {
    match a
    case DoRegister(q) => q.namespace
    case DoUnregister(ns, _, _) => ns
    case DoActivate(ns, _, _, _, _) => ns
    case DoRefresh(ns, _, _, _, _) => ns
    case DoRestore(ns, _, _, _) => ns
    case DoDeactivate(ns, _, _, _) => ns
    case DoHealth(ns, _, _, _) => ns
    case DoClearStale(ns) => ns
    case DoMarkStale(ns, _) => ns
    case DoDie(ns) => ns
    case _ => ""
  }

  predicate Locked(a: Action) {
    !a.DoStartCall? && !a.DoFailCall? && !a.DoFinishCall? && !a.DoRestart?
  }

  /** The frame of the store: whatever an operation does, every other namespace keeps its record,
      both its snapshots and its runtime, and no call is counted or forgotten. */
  lemma OperationsAreLocal(w: World, a: Action)
    requires Inv(w) && Locked(a)
    ensures var (w', b) := Perform(w, a); Keeps(w, w', Target(a)) && b != Fault
  {
    assert Ok(w, Target(a));
    hide Ok, Counted, Keeps, RegisterToolset, UnregisterToolset, ActivateToolset, RefreshToolset, RestoreToolset,
      DeactivateToolset, CheckHealth, ClearStaleToolset, MarkStale, Die;
    match a
    case DoRegister(q) => RegisterKeeps(w, q); RegisterBucket(w, q);
    case DoUnregister(ns, force, c) => UnregisterKeeps(w, ns, force, c); UnregisterBucket(w, ns, force, c);
    case DoActivate(ns, scope, ifNotLoaded, o, c) => ActivateKeeps(w, ns, scope, ifNotLoaded, o, c);
    case DoRefresh(ns, ifStale, scope, o, c) =>
      RefreshKeeps(w, ns, ifStale, scope, o, c);
      RefreshBucket(w, ns, ifStale, scope, o, c);
    case DoRestore(ns, identity, startup, o) => RestoreKeeps(w, ns, identity, startup, o);
    case DoDeactivate(ns, scope, force, c) =>
      DeactivateKeeps(w, ns, scope, force, c);
      DeactivateBucket(w, ns, scope, force, c);
    case DoHealth(ns, scope, p, c) => HealthKeeps(w, ns, scope, p, c); HealthBucket(w, ns, scope, p, c);
    case DoClearStale(ns) => ClearStaleKeeps(w, ns); ClearStaleBucket(w, ns);
    case DoMarkStale(ns, reason) => MarkStaleKeeps(w, ns, reason);
    case DoDie(ns) => DieKeeps(w, ns);
  }

  /** One event more, and this one. */
  predicate OneEvent(before: seq<Event>, after: seq<Event>, op: Operation, v: Registry.Verdict, ns: string,
      scope: Option<Scope>)
  {
    after == before + [Event(|before| + 1, op, v, Some(ns), scope)]
  }

  lemma LogIsOneEvent()
    ensures forall w: World, op, v, ns, s :: OneEvent(w.history, Log(w, op, v, Some(ns), s).history, op, v, ns, s)
  {}

  /** A namespace that is skipped, or whose step raises, leaves no audit event; every other outcome
      leaves exactly one. */
  predicate Logs(w: World, w': World, b: Bucket, op: Operation, v: Registry.Verdict, ns: string, scope: Option<Scope>) {
    && b != Fault
    && if b == Skipped || b == Raised then w'.history == w.history
       else OneEvent(w.history, w'.history, op, v, ns, scope)
  }

  function Judged(b: Bucket): Registry.Verdict {
    if b == Failed then Failure else Success
  }

  /** The scope an event about ns names, when the call names only this one. */
  function Audited(w: World, ns: string, scope: Option<Scope>): Option<Scope> {
    if ns in w.records then AuditScope(w.records[ns].loaded, scope) else scope
  }

  /** What a health check concluded. */
  function Concluded(w: World, ns: string): Registry.Verdict {
    if ns in w.records && w.records[ns].health.status == Some(Healthy) then Success else Failure
  }

  lemma RegisterBucket(w: World, q: Request)
    ensures var (w', b) := RegisterToolset(w, q); b != Fault && b != Skipped && |w'.history| == |w.history| + 1
  {
    hide Requested, ValidNamespace;
  }

  lemma UnregisterBucket(w: World, ns: string, force: bool, c: Closing)
    ensures var (w', b) := UnregisterToolset(w, ns, force, c);
      Logs(w, w', b, Unregister, Judged(b), ns, None) && b != Skipped
  {
    LogIsOneEvent();
    hide Log, OneEvent, InFlight, Raises;
  }

  lemma ActivateBucket(w: World, ns: string, scope: Scope, ifNotLoaded: bool, o: Opening, c: Closing)
    requires Ok(w, ns)
    ensures var (w', b) := ActivateToolset(w, ns, scope, ifNotLoaded, o, c);
      Logs(w, w', b, Activate, Judged(b), ns, Some(scope)) && b != Raised
  {
    LogIsOneEvent();
    hide Log, OneEvent, ActivateReused, ActivateFresh, RestoreReused, RestoreFresh, Mounted, Ok, Sound, Policy, Local;
    if ns in w.records {
      Known(w, ns);
      var r := w.records[ns];
      ActivateFreshEvents(Put(w, r.(transport := Connecting)), r, scope, o, c);
      if r.schemaHash.Some? {
        ReusedEvents(w, r, scope, []);
      }
    }
  }

  /** Reusing a runtime needs the cached hash; without it the missing import would be reached. */
  lemma ReusedEvents(w: World, r: Record, scope: Scope, missing: seq<Scope>)
    requires r.schemaHash.Some?
    ensures var (w', b) := ActivateReused(w, r, scope);
      OneEvent(w.history, w'.history, Activate, Success, r.namespace, Some(scope)) && b == Done
    ensures var (w', b) := RestoreReused(w, r, missing);
      b == Done && r.namespace in w'.records &&
      OneEvent(w.history, w'.history, Restore, Success, r.namespace, AuditScope(w'.records[r.namespace].loaded, None))
  {
    LogIsOneEvent();
    AddScopesOnlyLoads(r, missing);
    hide OneEvent, AuditScope, AddScope, AddRecoverable, AddScopes;
  }

  lemma ActivateFreshEvents(w: World, r: Record, scope: Scope, o: Opening, c: Closing)
    ensures var (w', b) := ActivateFresh(w, r, scope, o, c);
      && (b == Done || b == Failed)
      && OneEvent(w.history, w'.history, Activate, Judged(b), r.namespace, Some(scope))
  {
    LogIsOneEvent();
    hide Log, OneEvent, Open, AddScope, AddRecoverable, SnapshotOf, Raises;
  }

  lemma RestoreFreshEvents(w: World, r: Record, wanted: seq<Scope>, o: Opening)
    ensures var (w', b) := RestoreFresh(w, r, wanted, o);
      && (b == Done || b == Failed) && r.namespace in w'.records
      && OneEvent(w.history, w'.history, Restore, Judged(b), r.namespace,
           if b == Done then AuditScope(w'.records[r.namespace].loaded, None) else None)
  {
    LogIsOneEvent();
    if Open(o).Some? {
      AddScopesOnlyLoads(Fresh(r, SnapshotOf(r.namespace, Open(o).value.1), r.schemaHash), wanted);
    }
    hide OneEvent, AuditScope, Open, AddScopes, SnapshotOf;
  }

  lemma RefreshBucket(w: World, ns: string, ifStale: bool, scope: Option<Scope>, o: Opening, c: Closing)
    requires Ok(w, ns)
    ensures var (w', b) := RefreshToolset(w, ns, ifStale, scope, o, c);
      Logs(w, w', b, Refresh, Judged(b), ns, Audited(w, ns, scope)) && b != Raised
  {
    LogIsOneEvent();
    hide Log, OneEvent, RefreshFresh, Consistent, AuditScope;
    if ns in w.records {
      RefreshEvents(w, w.records[ns], AuditScope(w.records[ns].loaded, scope), o, c);
    }
  }

  lemma RefreshEvents(w: World, r: Record, audited: Option<Scope>, o: Opening, c: Closing)
    ensures var (w', b) := RefreshFresh(w, r, audited, o, c);
      (b == Done || b == Failed) && OneEvent(w.history, w'.history, Refresh, Judged(b), r.namespace, audited)
  {
    LogIsOneEvent();
    hide Log, OneEvent, Open, SnapshotOf, HashOf, Mounted;
  }

  lemma RestoreBucket(w: World, ns: string, stableIdentity: bool, startup: bool, o: Opening)
    requires Ok(w, ns)
    ensures var (w', b) := RestoreToolset(w, ns, stableIdentity, startup, o);
      Logs(w, w', b, Restore, Judged(b), ns, if b == Done then Audited(w', ns, None) else None) && b != Raised
  {
    LogIsOneEvent();
    hide Log, OneEvent, ActivateReused, ActivateFresh, RestoreReused, RestoreFresh, RecoveryScopes, Lifecycle.Missing;
    hide Mounted, Ok, Sound, Policy, Local, AuditScope;
    if ns in w.records {
      Known(w, ns);
      var r := w.records[ns];
      var wanted := RecoveryScopes(r, stableIdentity, !startup);
      RestoreFreshEvents(Put(w, r.(transport := Connecting)), r, wanted, o);
      if r.schemaHash.Some? {
        ReusedEvents(w, r, Thread, Lifecycle.Missing(wanted, r.loaded));
      }
    }
  }

  lemma DeactivateBucket(w: World, ns: string, scope: Scope, force: bool, c: Closing)
    ensures var (w', b) := DeactivateToolset(w, ns, scope, force, c);
      Logs(w, w', b, Deactivate, Judged(b), ns, Some(scope))
  {
    LogIsOneEvent();
    hide Log, OneEvent, InFlight, RemoveScope, RemoveRecoverable, Raises;
  }

  lemma ProbeEvents(w: World, r: Record, scope: Option<Scope>, reason: Reason, schemas: seq<ToolSchema>)
    requires r.namespace in w.records && w.records[r.namespace].namespace == r.namespace
    ensures var w' := Unhealthy(w, r, scope, reason);
      OneEvent(w.history, w'.history, HealthCheck, Concluded(w', r.namespace), r.namespace, AuditScope(r.loaded, scope))
    ensures var w' := Probed(w, r, scope, schemas);
      OneEvent(w.history, w'.history, HealthCheck, Concluded(w', r.namespace), r.namespace, AuditScope(r.loaded, scope))
  {
    LogIsOneEvent();
    hide OneEvent, InventoryHash, RuntimeFailure, AuditScope;
  }

  /** Every way a check of a registered toolset can end. */
  lemma CheckEvents(w: World, ns: string, scope: Option<Scope>, schemas: seq<ToolSchema>, c: Closing)
    requires ns in w.records && w.records[ns].namespace == ns
    ensures Logs(w, w, Skipped, HealthCheck, Concluded(w, ns), ns, Audited(w, ns, scope))
    ensures var w' := Unhealthy(w, w.records[ns], scope, RuntimeMissing);
      Logs(w, w', Done, HealthCheck, Concluded(w', ns), ns, Audited(w, ns, scope))
    ensures var w' := Unhealthy(Disconnect(w, ns), w.records[ns], scope, ProbeTimeout);
      Logs(w, w', Done, HealthCheck, Concluded(w', ns), ns, Audited(w, ns, scope))
    ensures var (w', b) := FailProbe(w, w.records[ns], scope, c);
      Logs(w, w', b, HealthCheck, Concluded(w', ns), ns, Audited(w, ns, scope))
    ensures var w' := Probed(w, w.records[ns], scope, schemas);
      Logs(w, w', Done, HealthCheck, Concluded(w', ns), ns, Audited(w, ns, scope))
  {
    var r := w.records[ns];
    ProbeEvents(w, r, scope, RuntimeMissing, schemas);
    ProbeEvents(Disconnect(w, ns), r, scope, ProbeTimeout, schemas);
    ProbeEvents(Disconnect(w, ns), r, scope, ProbeFailed, schemas);
    hide OneEvent, Unhealthy, Probed, Concluded, Raises, AuditScope;
  }

  lemma UnknownCheckEvents(w: World, ns: string, scope: Option<Scope>)
    requires ns !in w.records
    ensures var w' := Log(w, HealthCheck, Failure, Some(ns), scope);
      Logs(w, w', Failed, HealthCheck, Concluded(w', ns), ns, Audited(w, ns, scope))
  {}

  lemma NamedSo(w: World, ns: string)
    requires Ok(w, ns) && ns in w.records
    ensures w.records[ns].namespace == ns
  {}

  lemma HealthBucket(w: World, ns: string, scope: Option<Scope>, p: Probe, c: Closing)
    requires Ok(w, ns)
    ensures var (w', b) := CheckHealth(w, ns, scope, p, c);
      Logs(w, w', b, HealthCheck, Concluded(w', ns), ns, Audited(w, ns, scope))
  {
    hide Ok, Logs, Concluded, Audited, Log, Mounted, ValidateInventory, Unhealthy, Probed, FailProbe, Disconnect;
    if ns !in w.records {
      UnknownCheckEvents(w, ns, scope);
    } else {
      assert w.records[ns].namespace == ns by {
        NamedSo(w, ns);
      }
      var schemas :=
        if p.Answered? && ValidateInventory(p.tools).Some? then ValidateInventory(p.tools).value else [];
      CheckEvents(w, ns, scope, schemas, c);
    }
  }

  lemma ClearStaleBucket(w: World, ns: string)
    ensures var (w', b) := ClearStaleToolset(w, ns); Logs(w, w', b, ClearStale, Judged(b), ns, None) && b != Raised
  {
    LogIsOneEvent();
    hide Log, OneEvent, Mounted, Troubled;
  }

  /** The invariant is inductive over every kind of step, and no step faults. */
  lemma PerformKeeps(w: World, a: Action)
    requires Inv(w)
    ensures Inv(Perform(w, a).0) && Perform(w, a).1 != Fault
  {
    if Locked(a) {
      OperationsAreLocal(w, a);
      hide *;
      KeepsInv(w, Perform(w, a).0, Target(a));
    } else {
      hide Inv, StartCall, FailCall, FinishCall, Restart;
      match a
      case DoStartCall(id, ns, tool) => StartCallKeeps(w, id, ns, tool);
      case DoFailCall(id, expired, c) => FailCallInv(w, id, expired, c);
      case DoFinishCall(id) => FinishCallKeeps(w, id);
      case DoRestart => RestartFromInv(w);
    }
  }

  lemma RestartFromInv(w: World)
    requires Inv(w)
    ensures Inv(Restart(w))
  {
    hide Ok, Restart, Counted;
    RestartKeeps(w);
  }

  /** Every reachable state satisfies the invariant. */
  lemma {:induction false} ReachableInv(actions: seq<Action>)
    ensures Inv(Run(actions))
  {
    if actions == [] {
      assert forall ns :: Ok(EMPTY, ns);
      RestartKeeps(EMPTY);
    } else {
      ReachableInv(actions[..|actions| - 1]);
      PerformKeeps(Run(actions[..|actions| - 1]), actions[|actions| - 1]);
    }
  }
}
