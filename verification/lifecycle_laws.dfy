/** What the operations on one toolset come to, told from the record, the runtime and the request
    alone: when each succeeds, what it stores, and what it leaves. */
module LifecycleLaws {
  import opened Prelude
  import opened Inventory
  import opened Scopes
  import opened Registry
  import opened MountedNames
  import opened Lifecycle
  import opened LifecycleInvariants
  import opened LifecycleTheorems
  import opened LifecycleResults
  import opened LifecycleEffects

  /** One record was stored, and apart from the log nothing else has moved. */
  predicate OnlyStored(w: World, w': World, r: Record) {
    w' == w.(records := w.records[r.namespace := r], history := w'.history)
  }

  predicate OnlyLogged(w: World, w': World) {
    w' == w.(history := w'.history)
  }

  predicate SameFlags(r: Record, r': Record) {
    r'.namespace == r.namespace && r'.needsIdentity == r.needsIdentity && r'.needsRequest == r.needsRequest
  }

  // ----- Registration -----

  function ScopeName(s: Scope): string {
    match s
    case Thread => "thread"
    case Session => "session"
    case Global => "global"
  }

  predicate IsScopeName(name: string) {
    exists s :: name == ScopeName(s)
  }

  predicate AllScopeNames(names: Option<seq<string>>) {
    names.Some? ==> forall name :: name in names.value ==> IsScopeName(name)
  }

  /** The request supports s; without a list of its own it supports every scope. */
  predicate Supports(q: Request, s: Scope) {
    q.supported.Some? ==> ScopeName(s) in q.supported.value
  }

  predicate Restores(q: Request, s: Scope) {
    q.restorable.Some? && ScopeName(s) in q.restorable.value
  }

  /** The scope policy a request must respect. */
  predicate Acceptable(q: Request) {
    && IsScopeName(q.defaultScope) && AllScopeNames(q.supported) && AllScopeNames(q.restorable)
    && (forall s :: ScopeName(s) == q.defaultScope ==> Supports(q, s))
    && (forall s :: Restores(q, s) ==> Supports(q, s) && s != Thread)
  }

  /** The record holds what the request asks for, canonically ordered, and nothing else. */
  predicate Registered(q: Request, r: Record) {
    && r.namespace == q.namespace && ScopeName(r.defaultScope) == q.defaultScope
    && (forall s :: s in r.supported <==> Supports(q, s))
    && (forall s :: s in r.restorable <==> Restores(q, s))
    && r.needsIdentity == q.needsIdentity && r.needsRequest == q.needsRequest
    && Policy(r) && r.loaded == r.recoverable == [] && r.transport == Inactive && !Troubled(r)
    && r.staleReason.None? && r.schemaHash.None? && r.previousHash.None? && r.toolCount == 0 && r.health == NO_HEALTH
  }

  lemma ParseInverts(name: string, s: Scope)
    ensures ParseScope(name) == Some(s) <==> name == ScopeName(s)
    ensures ParseScope(name).Some? <==> IsScopeName(name)
  {
    assert IsScopeName(ScopeName(Thread)) && IsScopeName(ScopeName(Session)) && IsScopeName(ScopeName(Global));
    assert "thread" != "session" && "thread" != "global" && "session" != "global" by {
      assert |"thread"| == 6 && "session"[0] == 's' && "global"[0] == 'g' && "thread"[0] == 't';
    }
  }

  lemma {:induction false} ParseAllInverts(names: seq<string>)
    ensures ParseScopes(names).Some? <==> AllScopeNames(Some(names))
    ensures ParseScopes(names).Some? ==> forall s :: s in ParseScopes(names).value <==> ScopeName(s) in names
  {
    if names != [] {
      ParseAllInverts(names[1..]);
      assert names == [names[0]] + names[1..];
      forall s {
        ParseInverts(names[0], s);
      }
      assert ParseScope(names[0]).Some? <==> IsScopeName(names[0]) by { ParseInverts(names[0], Thread); }
      hide ParseScope, ScopeName, IsScopeName;
      if ParseScopes(names).Some? {
        assert ParseScopes(names).value == [ParseScope(names[0]).value] + ParseScopes(names[1..]).value;
      }
    }
  }

  /** What the validator makes of a new record. */
  lemma NewRecordFacts(q: Request, d: Scope, supported: seq<Scope>, restorable: seq<Scope>)
    ensures var r := NewRecord(q.namespace, d, supported, restorable, q.needsIdentity, q.needsRequest);
      var v := ValidateScopePolicy(r);
      && (v.Some? <==> d in supported && Within(restorable, supported) && Thread !in restorable)
      && (v.Some? ==>
            && (forall s :: s in v.value.supported <==> s in supported)
            && (forall s :: s in v.value.restorable <==> s in restorable)
            && v.value == r.(supported := v.value.supported, restorable := v.value.restorable)
            && Policy(v.value))
  {
    var r := NewRecord(q.namespace, d, supported, restorable, q.needsIdentity, q.needsRequest);
    assert OrderedUnique([]) == [] by {
      EmptyIffNoMembers(OrderedUnique([]));
      var members := set s | s in OrderedUnique([]);
      assert members == {};
    }
    assert OrderedUnique(r.recoverable) == OrderedUnique(r.loaded) == [];
    hide OrderedUnique;
  }

  lemma RequestedFacts(q: Request)
    ensures Requested(q).Some? <==> Acceptable(q)
    ensures Requested(q).Some? ==> Registered(q, Requested(q).value)
  {
    var supported := if q.supported.Some? then ParseScopes(q.supported.value) else Some([Thread, Session, Global]);
    var restorable := if q.restorable.Some? then ParseScopes(q.restorable.value) else Some([]);
    var d := ParseScope(q.defaultScope);
    ParsedFacts(q);
    hide ParseScope, ParseScopes, ScopeName, IsScopeName, ValidateScopePolicy, NewRecord, AllScopeNames, Registered;
    hide Supports, Restores, Acceptable;
    if supported.Some? && restorable.Some? && d.Some? {
      assert Requested(q) ==
        ValidateScopePolicy(NewRecord(q.namespace, d.value, supported.value, restorable.value, q.needsIdentity,
          q.needsRequest));
      Stored(q, d.value, supported.value, restorable.value);
    } else {
      assert Requested(q).None?;
      assert !Acceptable(q) by { Unparsed(q); }
    }
  }

  lemma Unparsed(q: Request)
    requires !(IsScopeName(q.defaultScope) && AllScopeNames(q.supported) && AllScopeNames(q.restorable))
    ensures !Acceptable(q)
  {}

  lemma ParsedFacts(q: Request)
    ensures var d := ParseScope(q.defaultScope);
      && (d.Some? <==> IsScopeName(q.defaultScope))
      && (forall s :: d == Some(s) <==> q.defaultScope == ScopeName(s))
    ensures var supported :=
        if q.supported.Some? then ParseScopes(q.supported.value) else Some([Thread, Session, Global]);
      && (supported.Some? <==> AllScopeNames(q.supported))
      && (supported.Some? ==> forall s :: s in supported.value <==> Supports(q, s))
    ensures var restorable := if q.restorable.Some? then ParseScopes(q.restorable.value) else Some([]);
      && (restorable.Some? <==> AllScopeNames(q.restorable))
      && (restorable.Some? ==> forall s :: s in restorable.value <==> Restores(q, s))
  {
    forall s {
      ParseInverts(q.defaultScope, s);
    }
    ParseInverts(q.defaultScope, Thread);
    if q.supported.Some? {
      ParseAllInverts(q.supported.value);
    } else {
      forall s: Scope
        ensures s in [Thread, Session, Global]
      {
        assert s.Thread? || s.Session? || s.Global?;
      }
    }
    if q.restorable.Some? {
      ParseAllInverts(q.restorable.value);
    }
    hide ParseScope, ParseScopes, ScopeName, IsScopeName;
  }

  lemma Stored(q: Request, d: Scope, supported: seq<Scope>, restorable: seq<Scope>)
    requires IsScopeName(q.defaultScope) && AllScopeNames(q.supported) && AllScopeNames(q.restorable)
    requires forall s :: s == d <==> q.defaultScope == ScopeName(s)
    requires forall s :: s in supported <==> Supports(q, s)
    requires forall s :: s in restorable <==> Restores(q, s)
    ensures var v := ValidateScopePolicy(NewRecord(q.namespace, d, supported, restorable, q.needsIdentity,
        q.needsRequest));
      (v.Some? <==> Acceptable(q)) && (v.Some? ==> Registered(q, v.value))
  {
    NewRecordFacts(q, d, supported, restorable);
    hide ValidateScopePolicy, Policy, Supports, Restores, ScopeName, IsScopeName, AllScopeNames;
  }

  /** Exactly when a registration succeeds, and what it stores then; otherwise it fails and leaves
      an event and nothing else. */
  lemma RegisterEffect(w: World, q: Request)
    ensures var (w', b) := RegisterToolset(w, q);
      && (b == Done <==> ValidNamespace(q.namespace) && q.transportValid && q.namespace !in w.records && Acceptable(q))
      && (b != Done ==> b == Failed && OnlyLogged(w, w'))
      && (b == Done ==>
            && q.namespace in w'.records && Registered(q, w'.records[q.namespace])
            && OnlyStored(w, w', w'.records[q.namespace]))
      && w'.history == w.history + [Event(|w.history| + 1, Register, Judged(b),
           if q.namespace == "" then None else Some(q.namespace),
           if b == Done then ParseScope(q.defaultScope) else None)]
  {
    RequestedFacts(q);
    forall s {
      ParseInverts(q.defaultScope, s);
    }
    hide Requested, Acceptable, ParseScope, Policy, Troubled;
  }

  // ----- Restoring -----

  /** Exactly the recoverable scopes are loaded in addition, and no other scope list has moved. */
  predicate Recovers(r: Record, r': Record) {
    && (forall s :: s in r'.loaded <==> s in r.loaded || s in r.recoverable)
    && Policy(r') && r'.recoverable == r.recoverable && SameFlags(r, r')
    && r'.supported == r.supported && r'.restorable == r.restorable && r'.defaultScope == r.defaultScope
  }

  /** A record whose last attempt failed: nothing about scopes or schemas has moved. */
  predicate Marred(r: Record, r': Record, transport: TransportState, reason: Reason) {
    && SameScopes(r, r') && SameSchema(r, r') && SameFlags(r, r') && r'.health == r.health
    && r'.transport == transport && r'.failed && r'.stale && r'.staleReason == Some(reason)
  }

  /** A restore is skipped exactly when a gate of the toolset is shut, nothing is recoverable, or a
      runtime is up and everything recoverable is loaded; skipping moves nothing.  Otherwise it
      succeeds over a runtime that is up, or one that comes up, and loads exactly the recoverable
      scopes in addition; if none comes up it fails, and the toolset is marked stale. */
  lemma RestoreEffect(w: World, ns: string, stableIdentity: bool, startup: bool, o: Opening)
    requires Ok(w, ns) && ns in w.records
    ensures var (w', b) := RestoreToolset(w, ns, stableIdentity, startup, o);
      var r := w.records[ns];
      && (b == Skipped <==>
            || !GatesOpen(r, stableIdentity, !startup) || r.recoverable == []
            || (Mounted(w, ns).Some? && Within(r.recoverable, r.loaded)))
      && (b == Skipped ==> w' == w)
      && (b == Done <==> b != Skipped && (Mounted(w, ns).Some? || Open(o).Some?))
      && (b == Failed <==> b != Skipped && b != Done)
      && ns in w'.records && var r' := w'.records[ns];
      && (b == Done ==> Recovers(r, r') && Mounted(w', ns).Some?)
      && (b == Done && Mounted(w, ns).Some? ==>
            && OnlyStored(w, w', r') && SameSchema(r, r') && r'.stale == r.stale
            && r'.transport == (if r.stale then StaleTransport else Connected))
      && (b == Failed ==> Marred(r, r', FailedTransport, RestoreFailed) && OnlyStored(w, w', r'))
  {
    Known(w, ns);
    var r := w.records[ns];
    WantedIff(r, stableIdentity, !startup);
    var wanted := RecoveryScopes(r, stableIdentity, !startup);
    MissingFacts(wanted, r.loaded);
    var missing := Lifecycle.Missing(wanted, r.loaded);
    NoneMissing(wanted, r.loaded);
    hide Ok, Sound, Policy, Local, RecoveryScopes, Lifecycle.Missing, Mounted, GatesOpen, Recovers, Marred, OnlyStored;
    hide RestoreReused, RestoreFresh;
    if wanted != [] && Mounted(w, ns).Some? && missing != [] {
      RestoreReusedEffect(w, r, missing);
    } else if wanted != [] && Mounted(w, ns).None? {
      RestoreFreshEffect(w, r, wanted, o);
    }
    hide SameSchema, Within;
  }

  lemma WantedIff(r: Record, stableIdentity: bool, explicitRequest: bool)
    requires Policy(r)
    ensures RecoveryScopes(r, stableIdentity, explicitRequest) ==
      if GatesOpen(r, stableIdentity, explicitRequest) then r.recoverable else []
  {
    CommonFacts(r.recoverable, r.restorable, r.supported);
  }

  lemma NoneMissing(wanted: seq<Scope>, loaded: seq<Scope>)
    ensures Lifecycle.Missing(wanted, loaded) == [] <==> Within(wanted, loaded)
  {
    MissingFacts(wanted, loaded);
    var missing := Lifecycle.Missing(wanted, loaded);
    if missing != [] {
      assert missing[0] in missing;
    }
  }

  lemma RestoreReusedEffect(w: World, r: Record, missing: seq<Scope>)
    requires Policy(r) && r.schemaHash.Some? && r.namespace in w.records && w.records[r.namespace] == r
    requires forall s :: s in missing <==> s in r.recoverable && s !in r.loaded
    ensures var (w', b) := RestoreReused(w, r, missing);
      && b == Done && r.namespace in w'.records && var r' := w'.records[r.namespace];
      && Recovers(r, r') && OnlyStored(w, w', r') && SameSchema(r, r') && r'.stale == r.stale
      && r'.transport == (if r.stale then StaleTransport else Connected)
      && Mounted(w', r.namespace) == Mounted(w, r.namespace)
  {
    AddScopesKeeps(r, missing);
    SameScopesPolicy(AddScopes(r, missing), Reused(AddScopes(r, missing)));
    hide AddScopes, Policy, AuditScope;
  }

  lemma RestoreFreshEffect(w: World, r: Record, wanted: seq<Scope>, o: Opening)
    requires Policy(r) && r.namespace in w.records && w.records[r.namespace] == r && wanted == r.recoverable
    ensures var (w', b) := RestoreFresh(Put(w, r.(transport := Connecting)), r, wanted, o);
      && b == (if Open(o).Some? then Done else Failed)
      && r.namespace in w'.records && var r' := w'.records[r.namespace];
      && (b == Done ==> Recovers(r, r') && Mounted(w', r.namespace).Some?)
      && (b == Failed ==> Marred(r, r', FailedTransport, RestoreFailed) && OnlyStored(w, w', r'))
  {
    hide Open, SnapshotOf, AuditScope;
    if Open(o).Some? {
      var renewed := Fresh(r, SnapshotOf(r.namespace, Open(o).value.1), r.schemaHash);
      AddScopesKeeps(renewed, wanted);
    }
    hide AddScopes, Policy;
  }

  /** In every run, on both paths: a restore that succeeds had its gates open and loaded exactly the
      recoverable scopes in addition; behind a shut gate it is skipped and nothing has moved. */
  lemma RestoresThroughOpenGates(actions: seq<Action>, ns: string, stableIdentity: bool, startup: bool, o: Opening)
    ensures var w := Run(actions);
      var (w', b) := RestoreToolset(w, ns, stableIdentity, startup, o);
      && (b == Done ==>
            && ns in w.records && GatesOpen(w.records[ns], stableIdentity, !startup)
            && ns in w'.records && Recovers(w.records[ns], w'.records[ns]))
      && (ns in w.records && !GatesOpen(w.records[ns], stableIdentity, !startup) ==> b == Skipped && w' == w)
      && (ns !in w.records ==> b == Failed && OnlyLogged(w, w'))
  {
    ReachableInv(actions);
    assert Ok(Run(actions), ns);
    if ns in Run(actions).records {
      RestoreEffect(Run(actions), ns, stableIdentity, startup, o);
      hide *;
    }
  }

  // ----- Refreshing -----

  /** A refresh is skipped exactly when nothing is loaded, the one scope asked for is not, or only a
      stale toolset was to be refreshed and it is not; otherwise it succeeds exactly when a new
      runtime comes up in the place of the old one.  No scope moves either way, and a failed
      refresh marks the toolset stale. */
  lemma RefreshEffect(w: World, ns: string, ifStale: bool, scope: Option<Scope>, o: Opening, c: Closing)
    requires Ok(w, ns) && ns in w.records
    ensures var (w', b) := RefreshToolset(w, ns, ifStale, scope, o, c);
      var r := w.records[ns];
      && (b == Skipped <==>
            || r.loaded == [] || (scope.Some? && scope.value !in r.loaded)
            || (ifStale && !r.stale && ns in w.current))
      && (b == Skipped ==> w' == w)
      && (b == Done <==> b != Skipped && Open(o).Some? && !Raises(w, ns, c))
      && (b == Failed <==> b != Skipped && b != Done)
      && ns in w'.records && SameScopes(r, w'.records[ns]) && SameFlags(r, w'.records[ns])
      && (b == Done ==> Mounted(w', ns) == Some(Runtime(Open(o).value.0, true, w.swaps)))
      && (b == Failed ==>
            Marred(r, w'.records[ns], if Mounted(w', ns).Some? then StaleTransport else FailedTransport, RefreshFailed))
      && (b == Failed && Open(o).None? ==> OnlyStored(w, w', w'.records[ns]))
  {
    Known(w, ns);
    var r := w.records[ns];
    RefreshFreshEffect(w, r, AuditScope(r.loaded, scope), o, c);
    hide Ok, Sound, Policy, Local, RefreshFresh, Open, AuditScope, Mounted, Raises, Marred, OnlyStored;
  }

  lemma RefreshFreshEffect(w: World, r: Record, audited: Option<Scope>, o: Opening, c: Closing)
    requires r.namespace in w.records && w.records[r.namespace] == r
    ensures var (w', b) := RefreshFresh(w, r, audited, o, c);
      var ns := r.namespace;
      && b == (if Open(o).Some? && !Raises(w, ns, c) then Done else Failed)
      && ns in w'.records && SameScopes(r, w'.records[ns]) && SameFlags(r, w'.records[ns])
      && (b == Done ==> Mounted(w', ns) == Some(Runtime(Open(o).value.0, true, w.swaps)))
      && (b == Failed ==>
            Marred(r, w'.records[ns], if Mounted(w', ns).Some? then StaleTransport else FailedTransport, RefreshFailed))
      && (b == Failed && Open(o).None? ==> OnlyStored(w, w', w'.records[ns]))
  {
    hide Open, SnapshotOf, HashOf;
  }

  // ----- Activation and deactivation: what else is stored -----

  /** The runtime that is up is taken over: nothing is said about schemas or health. */
  predicate TakenOver(r: Record, r': Record) {
    && SameSchema(r, r') && SameFlags(r, r') && r'.health == r.health
    && r'.stale == r.stale && r'.staleReason == r.staleReason && r'.failed == r.failed
    && r'.transport == (if r.stale then StaleTransport else Connected)
  }

  /** The failure is noted, and nothing else about the toolset has moved. */
  predicate NotActivated(r: Record, r': Record) {
    && SameScopes(r, r') && SameSchema(r, r') && SameFlags(r, r') && r'.health == r.health
    && r'.stale == r.stale && r'.staleReason == r.staleReason && r'.failed && r'.transport == FailedTransport
  }

  /** What an activation stores besides its scope (LifecycleEffects.ActivateEffect): a runtime that
      is up is taken over; a failure is noted on the record; a refusal leaves an event only, and a
      skipped activation leaves nothing. */
  lemma ActivationRecord(w: World, ns: string, scope: Scope, ifNotLoaded: bool, o: Opening, c: Closing)
    requires Ok(w, ns)
    ensures var (w', b) := ActivateToolset(w, ns, scope, ifNotLoaded, o, c);
      && (b == Skipped ==> w' == w)
      && (ns !in w.records || scope !in w.records[ns].supported ==> b == Failed && OnlyLogged(w, w'))
      && (ns in w.records && scope in w.records[ns].supported ==>
            && ns in w'.records && var r, r' := w.records[ns], w'.records[ns];
            && (b == Done ==> SameFlags(r, r'))
            && (b == Done && Mounted(w, ns).Some? && scope !in r.loaded ==> TakenOver(r, r') && OnlyStored(w, w', r'))
            && (b == Failed ==> NotActivated(r, r') && (Open(o).None? ==> OnlyStored(w, w', r'))))
  {
    hide Ok, Sound, Policy, Local, ActivateFresh, ActivateReused, Mounted, SameFlags, TakenOver, NotActivated;
    hide OnlyStored;
    if ns in w.records {
      Known(w, ns);
      var r := w.records[ns];
      if scope in r.supported {
        ActivateFreshRecord(w, r, scope, o, c);
        if Mounted(w, ns).Some? {
          ActivateReusedRecord(w, r, scope);
        }
      }
    }
  }

  lemma ActivateReusedRecord(w: World, r: Record, scope: Scope)
    requires Policy(r) && scope in r.supported && r.namespace in w.records && w.records[r.namespace] == r
    requires r.schemaHash.Some?
    ensures var (w', b) := ActivateReused(w, r, scope);
      && b == Done && r.namespace in w'.records && var r' := w'.records[r.namespace];
      && TakenOver(r, r') && SameFlags(r, r') && OnlyStored(w, w', r')
  {
    AddBothKeeps(r, scope);
    hide AddScope, AddRecoverable, Policy;
  }

  lemma ActivateFreshRecord(w: World, r: Record, scope: Scope, o: Opening, c: Closing)
    requires Policy(r) && scope in r.supported && r.namespace in w.records && w.records[r.namespace] == r
    ensures var (w', b) := ActivateFresh(Put(w, r.(transport := Connecting)), r, scope, o, c);
      && (b == Done || b == Failed) && r.namespace in w'.records && var r' := w'.records[r.namespace];
      && (b == Done ==> SameFlags(r, r'))
      && (b == Failed ==> NotActivated(r, r') && (Open(o).None? ==> OnlyStored(w, w', r')))
  {
    hide Open, SnapshotOf, AddScope, AddRecoverable, Policy;
    if Open(o).Some? {
      NothingButScopes(Fresh(r, SnapshotOf(r.namespace, Open(o).value.1), r.schemaHash), scope);
    }
  }

  lemma NothingButScopes(r: Record, scope: Scope)
    ensures var r' := AddRecoverable(AddScope(r, scope), scope);
      r' == r.(loaded := r'.loaded, recoverable := r'.recoverable)
    ensures var r' := RemoveRecoverable(RemoveScope(r, scope), scope);
      r' == r.(loaded := r'.loaded, recoverable := r'.recoverable)
  {}

  /** Nothing but the two scope lists has moved. */
  predicate OnlyUnloaded(r: Record, r': Record) {
    r' == r.(loaded := r'.loaded, recoverable := r'.recoverable)
  }

  /** Nothing is loaded and nothing is wrong; schemas and the last health check are kept. */
  predicate Idle(r: Record, r': Record) {
    && SameSchema(r, r') && SameFlags(r, r') && r'.health == r.health
    && r'.supported == r.supported && r'.restorable == r.restorable && r'.defaultScope == r.defaultScope
    && r'.loaded == [] && r'.transport == Inactive && !r'.stale && r'.staleReason.None? && !r'.failed
  }

  /** What a deactivation stores besides its scope (LifecycleEffects.DeactivateEffect): with the last
      scope the toolset is idle; otherwise nothing but the scope lists has moved.  The caches stay
      as they are; a refusal leaves an event only, and a skipped deactivation leaves nothing. */
  lemma DeactivationRecord(w: World, ns: string, scope: Scope, force: bool, c: Closing)
    requires Ok(w, ns)
    ensures var (w', b) := DeactivateToolset(w, ns, scope, force, c);
      && (b == Skipped ==> w' == w) && (b == Failed ==> OnlyLogged(w, w')) && (ns !in w.records ==> b == Failed)
      && (b == Done ==>
            && ns in w.records && ns in w'.records && var r, r' := w.records[ns], w'.records[ns];
            && w'.current == w.current && w'.previous == w.previous && w'.swaps == w.swaps
            && (Idle(r, r') || (r'.loaded != [] && OnlyUnloaded(r, r') && OnlyStored(w, w', r'))))
  {
    if ns in w.records {
      Known(w, ns);
      var r := w.records[ns];
      NothingButScopes(r, scope);
      hide Policy, RemoveScope, RemoveRecoverable, StoreUnloaded, Idle, OnlyUnloaded;
      StoreUnloadedRecord(w, r, RemoveRecoverable(RemoveScope(r, scope), scope), scope, c);
    }
    hide Ok, Sound, Local, InFlight, Raises, Mounted;
  }

  lemma StoreUnloadedRecord(w: World, r: Record, unloaded: Record, scope: Scope, c: Closing)
    requires r.namespace in w.records && w.records[r.namespace] == r && OnlyUnloaded(r, unloaded)
    ensures var (w', b) := StoreUnloaded(w, r.namespace, unloaded, scope, c);
      b == Raised || (b == Done &&
        r.namespace in w'.records && var r' := w'.records[r.namespace];
        && w'.current == w.current && w'.previous == w.previous && w'.swaps == w.swaps
        && (Idle(r, r') || (r'.loaded != [] && OnlyUnloaded(r, r') && OnlyStored(w, w', r'))))
  {
    hide Raises;
  }

  // ----- Staleness and health -----

  /** Marking a known toolset makes it stale for the reason given, and nothing else has moved; an
      unknown one is not marked. */
  lemma MarkStaleEffect(w: World, ns: string, reason: string)
    requires Ok(w, ns)
    ensures var w' := MarkStale(w, ns, reason);
      && (ns !in w.records ==> w' == w)
      && (ns in w.records ==>
            && ns in w'.records && var r, r' := w.records[ns], w'.records[ns];
            && r'.stale && r'.staleReason == Some(Marked(reason)) && r'.transport == StaleTransport
            && SameScopes(r, r') && SameSchema(r, r') && SameFlags(r, r')
            && r'.health == r.health && r'.failed == r.failed
            && OnlyStored(w, w', r') && w'.history == w.history)
  {}

  /** A check that came to a verdict notes what was observed, if anything was, and the reason the
      toolset is not healthy, if it is not: then it is stale for that reason, over a runtime that is
      up or not.  A healthy one is connected, and is as stale as before. */
  predicate Recorded(r: Record, r': Record, seen: Option<seq<ToolSchema>>, up: bool) {
    var h := r'.health;
    && SameScopes(r, r') && SameSchema(r, r') && SameFlags(r, r')
    && (seen.Some? ==> h.observedHash == Some(InventoryHash(seen.value)) && h.observedCount == Some(|seen.value|))
    && (seen.None? ==> h.observedHash.None? && h.observedCount.None? && h.status == Some(FailedHealth))
    && (h.status == Some(Healthy) ==>
          && seen.Some? && h.error.None? && up && r'.transport == Connected
          && r'.stale == r.stale && r'.staleReason == r.staleReason && r'.failed == r.failed)
    && (h.status != Some(Healthy) ==>
          && h.error.Some? && r'.stale && r'.staleReason == h.error && r'.failed
          && (seen.Some? ==> h.status == Some(StaleHealth))
          && r'.transport == (if up then StaleTransport else FailedTransport))
  }

  /** When a check does nothing, and what it stores otherwise; the verdict itself is
      LifecycleEffects.HealthVerdict. */
  lemma HealthRecord(w: World, ns: string, scope: Option<Scope>, p: Probe, c: Closing)
    requires Ok(w, ns)
    ensures var (w', b) := CheckHealth(w, ns, scope, p, c);
      && (b == Failed <==> ns !in w.records) && (b == Failed ==> OnlyLogged(w, w'))
      && (b == Skipped <==>
            ns in w.records && (w.records[ns].loaded == [] || (scope.Some? && scope.value !in w.records[ns].loaded)))
      && (b == Skipped ==> w' == w)
      && (b == Done ==>
            && ns in w.records && ns in w'.records
            && w'.current == w.current && w'.previous == w.previous && w'.swaps == w.swaps
            && Recorded(w.records[ns], w'.records[ns], if Mounted(w, ns).Some? then Observed(p) else None,
                 Mounted(w', ns).Some?))
  {
    hide ValidateInventory, Unhealthy, Probed, Mounted, Ok, Recorded, Raises;
    if ns in w.records {
      Known(w, ns);
      hide Sound, Policy, Local;
      var r := w.records[ns];
      UnhealthyRecord(w, r, scope, RuntimeMissing);
      UnhealthyRecord(Disconnect(w, ns), r, scope, ProbeTimeout);
      UnhealthyRecord(Disconnect(w, ns), r, scope, ProbeFailed);
      assert Mounted(Disconnect(w, ns), ns) == None by { GoneAfterDisconnect(w, ns); }
      if Mounted(w, ns).Some? && Observed(p).Some? {
        ProbedRecord(w, r, scope, Observed(p).value);
      }
    }
  }

  lemma UnhealthyRecord(w: World, r: Record, scope: Option<Scope>, reason: Reason)
    requires r.namespace in w.records && w.records[r.namespace] == r
    ensures var w' := Unhealthy(w, r, scope, reason);
      && r.namespace in w'.records && w'.runtimes == w.runtimes
      && w'.current == w.current && w'.previous == w.previous && w'.swaps == w.swaps
      && Mounted(w', r.namespace) == Mounted(w, r.namespace)
      && (Mounted(w, r.namespace).None? ==> Recorded(r, w'.records[r.namespace], None, false))
  {
    hide AuditScope;
  }

  lemma ProbedRecord(w: World, r: Record, scope: Option<Scope>, schemas: seq<ToolSchema>)
    requires r.namespace in w.records && w.records[r.namespace] == r && Mounted(w, r.namespace).Some?
    ensures var w' := Probed(w, r, scope, schemas);
      && r.namespace in w'.records && w'.runtimes == w.runtimes
      && w'.current == w.current && w'.previous == w.previous && w'.swaps == w.swaps
      && Mounted(w', r.namespace) == Mounted(w, r.namespace)
      && Recorded(r, w'.records[r.namespace], Some(schemas), true)
  {
    var ns := r.namespace;
    HealthyRecord(w, r, schemas);
    DriftRecord(w, r, schemas);
    var drifted := RuntimeFailure(w, ns, SchemaChanged);
    assert ns in drifted.records;
    hide AuditScope, InventoryHash, Recorded, RuntimeFailure, Observe;
  }

  lemma HealthyRecord(w: World, r: Record, schemas: seq<ToolSchema>)
    requires r.namespace in w.records && w.records[r.namespace] == r && Mounted(w, r.namespace).Some?
    ensures var health := Health(Some(Healthy), Some(InventoryHash(schemas)), Some(|schemas|), None);
      var w' := Observe(w, r.namespace, health);
      r.namespace in w'.records && Recorded(r, w'.records[r.namespace], Some(schemas), true)
  {
    hide InventoryHash, Mounted;
  }

  lemma DriftRecord(w: World, r: Record, schemas: seq<ToolSchema>)
    requires r.namespace in w.records && w.records[r.namespace] == r && Mounted(w, r.namespace).Some?
    ensures var health := Health(Some(StaleHealth), Some(InventoryHash(schemas)), Some(|schemas|), Some(SchemaChanged));
      var failed := RuntimeFailure(w, r.namespace, SchemaChanged);
      r.namespace in failed.records && var w' := Observe(failed, r.namespace, health);
      r.namespace in w'.records && Recorded(r, w'.records[r.namespace], Some(schemas), true)
  {
    hide InventoryHash, Mounted;
  }

  /** What clearing stores: no trouble is left, and the transport says what is there. */
  lemma ClearedRecord(w: World, ns: string)
    requires Ok(w, ns)
    ensures var (w', b) := ClearStaleToolset(w, ns);
      && (b == Failed <==> ns !in w.records) && (b == Failed ==> OnlyLogged(w, w'))
      && (b == Skipped <==> ns in w.records && !Troubled(w.records[ns])) && (b == Skipped ==> w' == w)
      && (b == Done ==>
            && ns in w'.records && var r, r' := w.records[ns], w'.records[ns];
            && OnlyStored(w, w', r') && SameScopes(r, r') && SameSchema(r, r') && SameFlags(r, r')
            && !Troubled(r') && r'.staleReason.None? && r'.health == NO_HEALTH
            && (r'.transport == Inactive <==> r.loaded == [])
            && (r'.transport == Connected <==> r.loaded != [] && Mounted(w, ns).Some?)
            && (r'.transport == FailedTransport <==> r.loaded != [] && Mounted(w, ns).None?))
  {
    hide Mounted, Consistent, Recovery;
  }

  // ----- Calls, audited scopes, restarts -----

  /** A call is counted exactly if its number is new and a running runtime has the tool; it is then
      bound to that runtime.  When it has finished, every counter and the calls in flight are what
      they were, and nothing but calls and counters ever moved. */
  lemma StartThenFinish(w: World, id: nat, ns: string, tool: string)
    ensures var w1 := StartCall(w, id, ns, tool);
      var starts := id !in w.calls && Mounted(w, ns).Some? && HasTool(Mounted(w, ns).value.tools, tool);
      && (!starts ==> w1 == w)
      && w1 == w.(calls := w1.calls, inFlight := w1.inFlight)
      && (starts ==>
            && id in w1.calls && w1.calls[id] == Call(ns, Mounted(w, ns).value.serial)
            && (forall m :: InFlight(w1, m) == InFlight(w, m) + if m == ns then 1 else 0)
            && var w2 := FinishCall(w1, id);
            && w2.calls == w.calls && w2 == w.(inFlight := w2.inFlight)
            && forall m :: InFlight(w2, m) == InFlight(w, m))
  {
    hide Mounted, HasTool;
    if id !in w.calls && Mounted(w, ns).Some? && HasTool(Mounted(w, ns).value.tools, tool) {
      var w1 := StartCall(w, id, ns, tool);
      assert w1.calls - {id} == w.calls;
    }
  }

  /** An event names the scope it was asked about, or else the only scope loaded, if there is just one. */
  lemma AuditedScope(loaded: seq<Scope>, s: Scope)
    ensures AuditScope(loaded, Some(s)) == Some(s)
    ensures AuditScope(loaded, None) == Some(s) <==> loaded == [s]
    ensures AuditScope(loaded, None).None? <==> |loaded| != 1
  {}

  /** What a new process over the same store finds: no runtime, no call, every record idle and
      otherwise as it was, and the default toolset if it was not there. */
  lemma RestartEffect(w: World, ns: string)
    requires Inv(w)
    ensures var w' := Restart(w);
      && w' == w.(records := w'.records, runtimes := map[], inFlight := map[], calls := map[])
      && (ns in w'.records <==> ns in w.records || ns == FAKE)
      && (ns in w.records ==> w'.records[ns] == w.records[ns].(loaded := [], transport := Inactive))
      && (ns == FAKE && ns !in w.records ==>
            Registered(Request(FAKE, true, "thread", None, None, true, true), w'.records[ns]))
  {
    assert Ok(w, ns);
    if ns in w.records {
      ReconciledKeepsRecoverable(w.records[ns]);
    }
    hide Inv, Ok, Reconciled;
    if ns == FAKE && ns !in w.records {
      DefaultIsRegistered();
    }
    hide Registered;
  }

  lemma DefaultIsRegistered()
    ensures Registered(Request(FAKE, true, "thread", None, None, true, true), Reconciled(DefaultRecord()))
  {
    forall s: Scope
      ensures s in [Thread, Session, Global]
    {
      assert s.Thread? || s.Session? || s.Global?;
    }
  }

  /** A runtime comes up exactly if it lists its tools, and no name twice. */
  lemma ComesUp(o: Opening)
    ensures Open(o).Some? <==> o.Listed? && !HasDuplicate(o.tools)
    ensures Open(o).Some? ==> Open(o).value.0 == o.tools && ValidateInventory(o.tools) == Some(Open(o).value.1)
  {}

  /** When an unregistration is refused, and when closing the runtime ends it; a refusal leaves an
      event only.  One that is done takes the record, both snapshots and the runtime, and the
      counters stay. */
  lemma UnregisterEffect(w: World, ns: string, force: bool, c: Closing)
    requires Ok(w, ns)
    ensures var (w', b) := UnregisterToolset(w, ns, force, c);
      && (b == Failed <==> ns !in w.records || (w.records[ns].loaded != [] && (!force || InFlight(w, ns) > 0)))
      && (b == Failed ==> OnlyLogged(w, w'))
      && (b == Raised <==>
            b != Failed && w.records[ns].loaded != [] && c == Raising && ns in w.runtimes && w.runtimes[ns].alive)
      && (b == Raised ==> w' == w.(runtimes := w.runtimes - {ns}))
      && (b != Failed && b != Raised ==>
            && b == (if w.records[ns].loaded != [] then DoneAndSkipped else Done)
            && w' == w.(records := w.records - {ns}, current := w.current - {ns}, previous := w.previous - {ns},
                        runtimes := w.runtimes - {ns}, history := w'.history))
  {
    hide Policy, SnapshotOk, Recovery, InFlight;
  }
}
