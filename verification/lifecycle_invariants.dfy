/** What every reachable state of the lifecycle satisfies. */
module LifecycleInvariants {
  import opened Prelude
  import opened Inventory
  import opened Scopes
  import opened Registry
  import opened MountedNames
  import opened Lifecycle

  function Get<T>(m: map<string, T>, ns: string): Option<T> {
    if ns in m then Some(m[ns]) else None
  }

  ghost predicate SnapshotOk(s: Snapshot, ns: string) {
    && s.namespace == ns
    && s.hash == InventoryHash(s.tools)
    && s.count == |s.tools|
    && DistinctTools(s.tools)
    && (forall t :: t in s.tools ==> Genuine(t))
  }

  /** The audit history alone says whether scope is the subject of ns's latest successful
      activation or deactivation, and that it was an activation, since ns was last registered. */
  predicate LatestIsActivation(history: seq<Event>, ns: string, scope: Scope) {
    history != [] &&
    var e := history[|history| - 1];
    if e.namespace != Some(ns) || e.verdict != Success then LatestIsActivation(history[..|history| - 1], ns, scope)
    else if e.operation == Register || e.operation == Unregister then false
    else if e.operation == Activate && e.scope == Some(scope) then true
    else if e.operation == Deactivate && e.scope == Some(scope) then false
    else LatestIsActivation(history[..|history| - 1], ns, scope)
  }

  /** A record agrees with its snapshots and its runtime. */
  ghost predicate Consistent(r: Record, cur: Option<Snapshot>, prev: Option<Snapshot>, rt: Option<Runtime>) {
    && Policy(r)
    && (cur.Some? ==> SnapshotOk(cur.value, r.namespace))
    && (prev.Some? ==> SnapshotOk(prev.value, r.namespace))
    && (prev.Some? ==> cur.Some?)
    && r.schemaHash == (if cur.Some? then Some(cur.value.hash) else None)
    && r.previousHash == (if prev.Some? then Some(prev.value.hash) else None)
    && r.toolCount == (if cur.Some? then cur.value.count else 0)
    && (rt.Some? ==> r.loaded != [])
    && (rt.Some? && rt.value.alive ==> cur.Some? && ValidateInventory(rt.value.tools).Some?)
  }

  /** What is recoverable is exactly what history says was last activated. */
  predicate Recovery(r: Record, history: seq<Event>) {
    forall s :: s in r.recoverable <==> s in r.restorable && LatestIsActivation(history, r.namespace, s)
  }

  ghost predicate Ok(w: World, ns: string) {
    if ns in w.records then
      && w.records[ns].namespace == ns
      && Consistent(w.records[ns], Get(w.current, ns), Get(w.previous, ns), Get(w.runtimes, ns))
      && Recovery(w.records[ns], w.history)
    else ns !in w.current && ns !in w.previous && ns !in w.runtimes
  }

  function CallsOf(calls: map<nat, Call>, ns: string): set<nat> {
    set id | id in calls && calls[id].namespace == ns
  }

  /** Each counter is the number of calls started and not yet finished. */
  ghost predicate Counted(w: World) {
    forall ns :: InFlight(w, ns) == |CallsOf(w.calls, ns)|
  }

  ghost predicate Inv(w: World) {
    (forall ns :: Ok(w, ns)) && Counted(w)
  }

  // ----- One step touches one namespace -----

  predicate SameAt(w: World, w': World, ns: string) {
    && Get(w'.records, ns) == Get(w.records, ns)
    && Get(w'.current, ns) == Get(w.current, ns)
    && Get(w'.previous, ns) == Get(w.previous, ns)
    && Get(w'.runtimes, ns) == Get(w.runtimes, ns)
  }

  /** Every other namespace is as it was, in the records, in both snapshot caches and among the
      runtimes. */
  ghost predicate Local(w: World, w': World, ns: string) {
    forall m :: m != ns ==> SameAt(w, w', m)
  }

  /** At most one event is appended, and it is about ns. */
  predicate Appends(w: World, w': World, ns: string) {
    || w'.history == w.history
    || (|w'.history| == |w.history| + 1
        && var e := w'.history[|w.history|];
           w'.history == w.history + [e] && (e.namespace == Some(ns) || e.namespace == None))
  }

  /** The frame of every step on ns. */
  ghost predicate TouchesOnly(w: World, w': World, ns: string) {
    Local(w, w', ns) && Appends(w, w', ns) && w'.calls == w.calls && w'.inFlight == w.inFlight
  }

  lemma LocalThen(w: World, w1: World, w2: World, ns: string)
    requires Local(w, w1, ns) && Local(w1, w2, ns)
    ensures Local(w, w2, ns)
  {
    forall m | m != ns
      ensures SameAt(w, w2, m)
    {
      assert SameAt(w, w1, m) && SameAt(w1, w2, m);
    }
  }

  lemma LatestAppend(history: seq<Event>, e: Event, ns: string, s: Scope)
    ensures LatestIsActivation(history + [e], ns, s) ==
      if e.namespace != Some(ns) || e.verdict != Success then LatestIsActivation(history, ns, s)
      else if e.operation == Register || e.operation == Unregister then false
      else if e.operation == Activate && e.scope == Some(s) then true
      else if e.operation == Deactivate && e.scope == Some(s) then false
      else LatestIsActivation(history, ns, s)
  {
    assert (history + [e])[..|history|] == history;
  }

  lemma OthersStayOk(w: World, w': World, ns: string, m: string)
    requires TouchesOnly(w, w', ns) && m != ns && Ok(w, m)
    ensures Ok(w', m)
  {
    hide Consistent;
    assert SameAt(w, w', m);
    if m in w.records && w'.history != w.history {
      var e := w'.history[|w.history|];
      forall s {
        LatestAppend(w.history, e, m, s);
      }
    }
    assert m in w.records <==> m in w'.records;
    assert m in w.records ==> w'.records[m] == w.records[m];
  }

  /** Recovery is unaffected by any event but a successful registration, activation or
      deactivation of the namespace. */
  lemma OtherEvents(r: Record, r': Record, history: seq<Event>, e: Event)
    requires Recovery(r, history)
    requires r'.recoverable == r.recoverable && r'.restorable == r.restorable && r'.namespace == r.namespace
    requires e.verdict == Failure || e.operation !in [Register, Unregister, Activate, Deactivate]
    ensures Recovery(r', history + [e])
  {
    forall s {
      LatestAppend(history, e, r.namespace, s);
    }
  }

  // ----- What the pieces do to one namespace -----

  /** Everything about ns but its part in history. */
  ghost predicate Sound(w: World, ns: string) {
    && ns in w.records && w.records[ns].namespace == ns
    && Consistent(w.records[ns], Get(w.current, ns), Get(w.previous, ns), Get(w.runtimes, ns))
  }

  /** Only the fields that say nothing about schemas differ. */
  predicate SameSchema(r: Record, r': Record) {
    && r'.namespace == r.namespace
    && r'.schemaHash == r.schemaHash && r'.previousHash == r.previousHash && r'.toolCount == r.toolCount
  }

  lemma PutSound(w: World, ns: string, r': Record)
    requires Sound(w, ns) && SameSchema(w.records[ns], r') && Policy(r')
    requires ns in w.runtimes ==> r'.loaded != []
    ensures Sound(Put(w, r'), ns) && Put(w, r').records[ns] == r'
    ensures Local(w, Put(w, r'), ns)
  {}

  lemma DisconnectSound(w: World, ns: string)
    requires Sound(w, ns)
    ensures Sound(Disconnect(w, ns), ns) && Local(w, Disconnect(w, ns), ns) && ns !in Disconnect(w, ns).runtimes
  {}

  lemma LogTouches(w: World, w': World, ns: string, op: Operation, v: Registry.Verdict, scope: Option<Scope>)
    requires Local(w, w', ns) && w'.history == w.history && w'.calls == w.calls && w'.inFlight == w.inFlight
    ensures TouchesOnly(w, Log(w', op, v, Some(ns), scope), ns)
    ensures Sound(w', ns) ==> Sound(Log(w', op, v, Some(ns), scope), ns)
  {
    hide Consistent;
    var logged := Log(w', op, v, Some(ns), scope);
    assert forall m :: SameAt(w', logged, m);
    LocalThen(w, w', logged, ns);
  }

  lemma InstalledCell(w: World, r: Record, tools: seq<Tool>, s: Snapshot)
    requires s.namespace == r.namespace
    ensures var ns := r.namespace;
      var w' := Installed(w, r, tools, s);
      && Local(w, w', ns)
      && Get(w'.records, ns) == Some(r)
      && Get(w'.current, ns) == Some(s)
      && Get(w'.previous, ns) == (if ns in w.current then Some(w.current[ns]) else Get(w.previous, ns))
      && Get(w'.runtimes, ns) == Some(Runtime(tools, true, w.swaps))
  {}

  /** A bootstrap that comes up: the new snapshot is current, the old current one is previous,
      and the mounted inventory is the one the snapshot describes. */
  lemma OpenSound(w: World, r': Record, o: Opening)
    requires Sound(w, r'.namespace) && Open(o).Some?
    requires Policy(r') && r'.loaded != []
    requires var s := SnapshotOf(r'.namespace, Open(o).value.1);
      && r'.schemaHash == Some(s.hash) && r'.toolCount == s.count
      && r'.previousHash == w.records[r'.namespace].schemaHash
    ensures var (tools, schemas) := Open(o).value;
      var w' := Installed(w, r', tools, SnapshotOf(r'.namespace, schemas));
      && Sound(w', r'.namespace) && Local(w, w', r'.namespace) && w'.records[r'.namespace] == r'
      && w'.history == w.history && w'.calls == w.calls && w'.inFlight == w.inFlight
  {
    ValidatedFacts(o.tools);
    var (tools, schemas) := Open(o).value;
    InstalledCell(w, r', tools, SnapshotOf(r'.namespace, schemas));
    hide InventoryHash, ValidateInventory, Installed, Policy, Local;
  }

  // ----- Each operation keeps its namespace in order and touches no other -----

  ghost predicate Keeps(w: World, w': World, ns: string) {
    TouchesOnly(w, w', ns) && Ok(w', ns)
  }

  /** What an operation may rely on about a registered namespace. */
  lemma Known(w: World, ns: string)
    requires Ok(w, ns) && ns in w.records
    ensures var r := w.records[ns];
      && Sound(w, ns) && r.namespace == ns && Policy(r)
      && (ns in w.runtimes ==> r.loaded != [])
      && (Mounted(w, ns).Some? ==> r.schemaHash.Some? && r.loaded != [])
      && r.schemaHash == HashOf(w.current, ns)
      && Local(w, w, ns)
  {}

  predicate SameScopes(r: Record, r': Record) {
    && r'.supported == r.supported && r'.restorable == r.restorable && r'.recoverable == r.recoverable
    && r'.loaded == r.loaded && r'.defaultScope == r.defaultScope
  }

  lemma SameScopesPolicy(r: Record, r': Record)
    requires Policy(r) && SameScopes(r, r')
    ensures Policy(r')
  {}

  lemma SkipKeeps(w: World, ns: string)
    requires Ok(w, ns)
    ensures Keeps(w, w, ns)
  {}

  lemma NoRecordLog(w: World, ns: string, op: Operation, v: Registry.Verdict, scope: Option<Scope>)
    requires Ok(w, ns) && ns !in w.records
    ensures Keeps(w, Log(w, op, v, Some(ns), scope), ns)
  {
    LogTouches(w, w, ns, op, v, scope);
  }

  /** A failure, or a success that is neither a registration, an activation nor a deactivation,
      changes nothing about recovery. */
  lemma LogKeeps(w: World, w': World, ns: string, op: Operation, v: Registry.Verdict, scope: Option<Scope>)
    requires Ok(w, ns) && ns in w.records && Sound(w', ns) && Local(w, w', ns)
    requires w'.history == w.history && w'.calls == w.calls && w'.inFlight == w.inFlight
    requires w'.records[ns].recoverable == w.records[ns].recoverable
    requires w'.records[ns].restorable == w.records[ns].restorable
    requires v == Failure || op !in [Register, Unregister, Activate, Deactivate]
    ensures Keeps(w, Log(w', op, v, Some(ns), scope), ns)
  {
    LogTouches(w, w', ns, op, v, scope);
    var e := Event(|w.history| + 1, op, v, Some(ns), scope);
    OtherEvents(w.records[ns], w'.records[ns], w.history, e);
    hide Consistent, Local, Recovery;
  }

  lemma SilentKeeps(w: World, w': World, ns: string)
    requires Ok(w, ns) && ns in w.records && Sound(w', ns) && Local(w, w', ns)
    requires w'.history == w.history && w'.calls == w.calls && w'.inFlight == w.inFlight
    requires w'.records[ns].recoverable == w.records[ns].recoverable
    requires w'.records[ns].restorable == w.records[ns].restorable
    ensures Keeps(w, w', ns)
  {
    hide Consistent;
  }

  /** A runtime whose close raised is gone all the same. */
  lemma DisconnectKeeps(w: World, ns: string)
    requires Ok(w, ns) && ns in w.records
    ensures Keeps(w, Disconnect(w, ns), ns)
  {
    DisconnectSound(w, ns);
    SilentKeeps(w, Disconnect(w, ns), ns);
  }

  lemma RegisterKeeps(w: World, q: Request)
    requires Ok(w, q.namespace)
    ensures Keeps(w, RegisterToolset(w, q).0, q.namespace)
  {
    hide Requested, ValidNamespace, Ok, Keeps;
    var ns := q.namespace;
    if ValidNamespace(ns) && q.transportValid && ns !in w.records && Requested(q).Some? {
      RequestedIsValid(q);
      RegisteredKeeps(w, Requested(q).value);
    } else {
      RefusalKeeps(w, ns);
    }
  }

  lemma RegisteredKeeps(w: World, r: Record)
    requires Ok(w, r.namespace) && r.namespace !in w.records
    requires ValidateScopePolicy(r) == Some(r) && r.loaded == [] && r.recoverable == []
    requires r.schemaHash == r.previousHash == None && r.toolCount == 0
    ensures Keeps(w, Log(Put(w, r), Register, Success, Some(r.namespace), Some(r.defaultScope)), r.namespace)
  {
    var ns, w' := r.namespace, Put(w, r);
    ReloadIffCanonical(r);
    hide ValidateScopePolicy;
    assert Sound(w', ns) && Local(w, w', ns);
    LogTouches(w, w', ns, Register, Success, Some(r.defaultScope));
    hide Consistent, Local;
    var e := Event(|w.history| + 1, Register, Success, Some(ns), Some(r.defaultScope));
    forall s {
      LatestAppend(w.history, e, ns, s);
    }
  }

  lemma RefusalKeeps(w: World, ns: string)
    requires Ok(w, ns)
    ensures Keeps(w, Log(w, Register, Failure, Some(ns), None), ns)
    ensures Keeps(w, Log(w, Register, Failure, None, None), ns)
  {
    hide Consistent;
    LogTouches(w, w, ns, Register, Failure, None);
    forall e: Event, s | e.verdict == Failure {
      LatestAppend(w.history, e, ns, s);
    }
    assert forall m :: SameAt(w, Log(w, Register, Failure, None, None), m);
  }

  lemma RequestedIsValid(q: Request)
    ensures Requested(q).Some? ==>
      var r := Requested(q).value;
      && ValidateScopePolicy(r) == Some(r) && r.loaded == [] && r.recoverable == [] && r.namespace == q.namespace
      && r.schemaHash == r.previousHash == None && r.toolCount == 0
  {
    var supported := if q.supported.Some? then ParseScopes(q.supported.value) else Some([Thread, Session, Global]);
    var restorable := if q.restorable.Some? then ParseScopes(q.restorable.value) else Some([]);
    if Requested(q).Some? {
      ValidateTwice(NewRecord(q.namespace, ParseScope(q.defaultScope).value, supported.value, restorable.value,
        q.needsIdentity, q.needsRequest));
    }
  }

  lemma UnregisterKeeps(w: World, ns: string, force: bool, c: Closing)
    requires Ok(w, ns)
    ensures Keeps(w, UnregisterToolset(w, ns, force, c).0, ns)
  {
    hide Ok, Keeps, Raises, InFlight, Sound, Local, Forget, Disconnect;
    if ns !in w.records {
      NoRecordLog(w, ns, Unregister, Failure, None);
    } else {
      Known(w, ns);
      LogKeeps(w, w, ns, Unregister, Failure, None);
      DisconnectKeeps(w, ns);
      ForgottenKeeps(w, ns);
    }
  }

  lemma ForgottenKeeps(w: World, ns: string)
    requires Ok(w, ns) && ns in w.records
    ensures Keeps(w, Log(Forget(Disconnect(w, ns), ns), Unregister, Success, Some(ns), None), ns)
    ensures w.records[ns].loaded == [] ==> Keeps(w, Log(Forget(w, ns), Unregister, Success, Some(ns), None), ns)
  {
    hide Policy, Recovery;
    assert Local(w, Forget(w, ns), ns) && Local(w, Forget(Disconnect(w, ns), ns), ns);
    LogTouches(w, Forget(w, ns), ns, Unregister, Success, None);
    LogTouches(w, Forget(Disconnect(w, ns), ns), ns, Unregister, Success, None);
    hide Local;
  }

  lemma ActivateKeeps(w: World, ns: string, scope: Scope, ifNotLoaded: bool, o: Opening, c: Closing)
    requires Ok(w, ns)
    ensures var (w', b) := ActivateToolset(w, ns, scope, ifNotLoaded, o, c);
      Keeps(w, w', ns) && b != Fault
  {
    hide Ok, Consistent, Keeps, Local, Recovery, Sound, Policy, ActivateFresh, ActivateReused, Mounted;
    SkipKeeps(w, ns);
    if ns !in w.records {
      NoRecordLog(w, ns, Activate, Failure, Some(scope));
    } else {
      Known(w, ns);
      var r := w.records[ns];
      if scope !in r.supported {
        LogKeeps(w, w, ns, Activate, Failure, Some(scope));
      } else if Mounted(w, ns).Some? && r.loaded != [] && scope !in r.loaded {
        ReusedKeeps(w, ns, scope);
      } else if !(ifNotLoaded && scope in r.loaded) {
        ConnectingSound(w, ns);
        ActivateFreshKeeps(w, Put(w, r.(transport := Connecting)), r, scope, o, c);
      }
    }
  }

  lemma ReusedKeeps(w: World, ns: string, scope: Scope)
    requires Ok(w, ns) && ns in w.records && scope in w.records[ns].supported && w.records[ns].schemaHash.Some?
    ensures var (w', b) := ActivateReused(w, w.records[ns], scope); Keeps(w, w', ns) && b != Fault
  {
    hide Ok, Consistent, Keeps, Local, Recovery, Sound, Policy, AddScope, AddRecoverable;
    Known(w, ns);
    AddBothKeeps(w.records[ns], scope);
    var both := AddRecoverable(AddScope(w.records[ns], scope), scope);
    SameScopesPolicy(both, Reused(both));
    assert scope in both.loaded;
    PutSound(w, ns, Reused(both));
    ActivatedKeeps(w, Put(w, Reused(both)), ns, scope);
  }

  /** The bookkeeping of a successful activation. */
  lemma ActivatedKeeps(w: World, w': World, ns: string, scope: Scope)
    requires Ok(w, ns) && ns in w.records && Sound(w', ns) && Local(w, w', ns)
    requires w'.history == w.history && w'.calls == w.calls && w'.inFlight == w.inFlight
    requires scope in w.records[ns].supported
    requires w'.records[ns].restorable == w.records[ns].restorable
    requires var r := w.records[ns];
      forall x :: x in w'.records[ns].recoverable <==> x in r.recoverable || (x == scope && scope in r.restorable)
    ensures Keeps(w, Log(w', Activate, Success, Some(ns), Some(scope)), ns)
  {
    Known(w, ns);
    LogTouches(w, w', ns, Activate, Success, Some(scope));
    hide Consistent, Local, Policy;
    var e := Event(|w.history| + 1, Activate, Success, Some(ns), Some(scope));
    forall s {
      LatestAppend(w.history, e, ns, s);
    }
    hide LatestIsActivation;
    assert Recovery(w'.records[ns], w.history + [e]);
  }

  lemma ActivateFreshKeeps(w: World, w1: World, r: Record, scope: Scope, o: Opening, c: Closing)
    requires var ns := r.namespace;
      Ok(w, ns) && ns in w.records && w.records[ns] == r && scope in r.supported
      && w1 == Put(w, r.(transport := Connecting)) && Sound(w1, ns) && Local(w, w1, ns)
    ensures var (w', b) := ActivateFresh(w1, r, scope, o, c); Keeps(w, w', r.namespace) && b != Fault
  {
    hide Ok, Keeps, Open, Installed, SnapshotOf, Sound, Local, Mounted, AddScope, AddRecoverable, FailActivation;
    var ns := r.namespace;
    if Open(o).None? {
      FailActivationKeeps(w, w1, r, scope);
    } else if Raises(w1, ns, c) {
      SwapSound(w1, ns, o);
      LocalThen(w, w1, Swap(w1, ns, Open(o).value.0), ns);
      FailActivationKeeps(w, Swap(w1, ns, Open(o).value.0), r, scope);
    } else {
      ActivatedFreshKeeps(w, w1, r, scope, o);
    }
  }

  lemma FailActivationKeeps(w: World, w1: World, r: Record, scope: Scope)
    requires var ns := r.namespace;
      Ok(w, ns) && ns in w.records && w.records[ns] == r && Sound(w1, ns) && Local(w, w1, ns)
      && w1.records[ns] == r.(transport := Connecting)
      && w1.history == w.history && w1.calls == w.calls && w1.inFlight == w.inFlight
    ensures var (w', b) := FailActivation(w1, r, scope); Keeps(w, w', r.namespace) && b != Fault
  {
    var ns := r.namespace;
    var r' := r.(transport := FailedTransport, failed := true);
    PutSound(w1, ns, r');
    LocalThen(w, w1, Put(w1, r'), ns);
    hide Local, Consistent;
    LogKeeps(w, Put(w1, r'), ns, Activate, Failure, Some(scope));
  }

  /** Swapping in a runtime over one that is up leaves the namespace sound: a snapshot is cached, if
      perhaps not the new runtime's. */
  lemma SwapSound(w: World, ns: string, o: Opening)
    requires Sound(w, ns) && Mounted(w, ns).Some? && Open(o).Some?
    ensures var w' := Swap(w, ns, Open(o).value.0);
      && Sound(w', ns) && Local(w, w', ns) && w'.records == w.records
      && w'.history == w.history && w'.calls == w.calls && w'.inFlight == w.inFlight
  {
    hide Policy, SnapshotOk;
  }

  lemma ActivatedFreshKeeps(w: World, w1: World, r: Record, scope: Scope, o: Opening)
    requires var ns := r.namespace;
      Ok(w, ns) && ns in w.records && w.records[ns] == r && scope in r.supported && Open(o).Some?
      && w1 == Put(w, r.(transport := Connecting)) && Sound(w1, ns) && Local(w, w1, ns)
    ensures var (tools, schemas) := Open(o).value;
      var s := SnapshotOf(r.namespace, schemas);
      var r' := AddRecoverable(AddScope(Fresh(r, s, r.schemaHash), scope), scope);
      Keeps(w, Log(Installed(w1, r', tools, s), Activate, Success, Some(r.namespace), Some(scope)), r.namespace)
  {
    var ns := r.namespace;
    var (tools, schemas) := Open(o).value;
    var s := SnapshotOf(ns, schemas);
    var renewed := Fresh(r, s, r.schemaHash);
    AddBothKeeps(renewed, scope);
    AddBothKeeps(r, scope);
    var r' := AddRecoverable(AddScope(renewed, scope), scope);
    assert scope in r'.loaded;
    OpenSound(w1, r', o);
    LocalThen(w, w1, Installed(w1, r', tools, s), ns);
    ActivatedKeeps(w, Installed(w1, r', tools, s), ns, scope);
  }

  lemma RefreshKeeps(w: World, ns: string, ifStale: bool, scope: Option<Scope>, o: Opening, c: Closing)
    requires Ok(w, ns)
    ensures Keeps(w, RefreshToolset(w, ns, ifStale, scope, o, c).0, ns)
  {
    hide Ok, Consistent, Keeps, Local, Recovery, Sound, Policy, RefreshFresh;
    SkipKeeps(w, ns);
    if ns !in w.records {
      NoRecordLog(w, ns, Refresh, Failure, scope);
    } else {
      Known(w, ns);
      var r := w.records[ns];
      if r.loaded != [] {
        RefreshFreshKeeps(w, r, AuditScope(r.loaded, scope), o, c);
      }
    }
  }

  lemma RefreshFreshKeeps(w: World, r: Record, audited: Option<Scope>, o: Opening, c: Closing)
    requires var ns := r.namespace; Ok(w, ns) && ns in w.records && w.records[ns] == r && r.loaded != []
    ensures Keeps(w, RefreshFresh(w, r, audited, o, c).0, r.namespace)
  {
    hide Ok, Keeps, Open, Installed, SnapshotOf, HashOf, Sound, Local, Mounted, FailRefresh;
    var ns := r.namespace;
    Known(w, ns);
    if Open(o).None? {
      FailRefreshKeeps(w, w, r, audited);
    } else if Raises(w, ns, c) {
      SwapSound(w, ns, o);
      FailRefreshKeeps(w, Swap(w, ns, Open(o).value.0), r, audited);
    } else {
      RefreshedKeeps(w, ns, audited, o);
    }
  }

  lemma FailRefreshKeeps(w: World, w1: World, r: Record, audited: Option<Scope>)
    requires var ns := r.namespace;
      Ok(w, ns) && ns in w.records && w.records[ns] == r && r.loaded != []
      && Sound(w1, ns) && Local(w, w1, ns) && w1.records == w.records
      && w1.history == w.history && w1.calls == w.calls && w1.inFlight == w.inFlight
    ensures Keeps(w, FailRefresh(w1, r, audited).0, r.namespace)
  {
    hide Ok, Keeps, Local, Sound, Mounted, Log, Put;
    RefreshFailedKeeps(w, w1, r.namespace,
      if Mounted(w1, r.namespace).Some? then StaleTransport else FailedTransport, audited);
  }

  lemma RefreshFailedKeeps(w: World, w1: World, ns: string, transport: TransportState, audited: Option<Scope>)
    requires Ok(w, ns) && ns in w.records && w.records[ns].loaded != []
    requires Sound(w1, ns) && Local(w, w1, ns) && w1.records == w.records
    requires w1.history == w.history && w1.calls == w.calls && w1.inFlight == w.inFlight
    ensures var r' := w.records[ns].(
        transport := transport, stale := true, staleReason := Some(RefreshFailed), failed := true);
      Keeps(w, Log(Put(w1, r'), Refresh, Failure, Some(ns), audited), ns)
  {
    hide Ok, Consistent, Keeps, Local, Recovery, Sound, Policy;
    Known(w, ns);
    var r := w.records[ns];
    var r' := r.(transport := transport, stale := true, staleReason := Some(RefreshFailed), failed := true);
    SameScopesPolicy(r, r');
    PutSound(w1, ns, r');
    LocalThen(w, w1, Put(w1, r'), ns);
    LogKeeps(w, Put(w1, r'), ns, Refresh, Failure, audited);
  }

  lemma RefreshedKeeps(w: World, ns: string, audited: Option<Scope>, o: Opening)
    requires Ok(w, ns) && ns in w.records && w.records[ns].loaded != [] && Open(o).Some?
    ensures var (tools, schemas) := Open(o).value;
      var s := SnapshotOf(ns, schemas);
      var r' := Fresh(w.records[ns], s, HashOf(w.current, ns));
      Keeps(w, Log(Installed(w, r', tools, s), Refresh, Success, Some(ns), audited), ns)
  {
    hide Ok, Consistent, Keeps, Local, Recovery, Sound, Policy, Open, Installed, Mounted;
    Known(w, ns);
    var (tools, schemas) := Open(o).value;
    var s := SnapshotOf(ns, schemas);
    var r' := Fresh(w.records[ns], s, HashOf(w.current, ns));
    SameScopesPolicy(w.records[ns], r');
    OpenSound(w, r', o);
    hide SnapshotOf, HashOf;
    LogKeeps(w, Installed(w, r', tools, s), ns, Refresh, Success, audited);
  }

  lemma {:induction false} MissingFacts(wanted: seq<Scope>, loaded: seq<Scope>)
    ensures forall s :: s in Missing(wanted, loaded) <==> s in wanted && s !in loaded
  {
    if wanted != [] {
      MissingFacts(wanted[1..], loaded);
      assert wanted == [wanted[0]] + wanted[1..];
    }
  }

  lemma RestoreKeeps(w: World, ns: string, stableIdentity: bool, startup: bool, o: Opening)
    requires Ok(w, ns)
    ensures var (w', b) := RestoreToolset(w, ns, stableIdentity, startup, o);
      Keeps(w, w', ns) && b != Fault
  {
    hide Ok, Consistent, Keeps, Local, Recovery, Sound, Policy, RestoreFresh, RestoreReused, AddScopes;
    hide RecoveryScopes, Missing, Within, Mounted;
    SkipKeeps(w, ns);
    if ns !in w.records {
      NoRecordLog(w, ns, Restore, Failure, None);
    } else {
      Known(w, ns);
      var r := w.records[ns];
      var wanted := RecoveryScopes(r, stableIdentity, !startup);
      WantedFacts(r, stableIdentity, !startup);
      if wanted != [] && Mounted(w, ns).Some? {
        var missing := Missing(wanted, r.loaded);
        if missing != [] {
          MissingWithin(wanted, r.loaded, r.recoverable);
          RestoreReusedKeeps(w, ns, missing);
        }
      } else if wanted != [] {
        ConnectingSound(w, ns);
        RestoreFreshKeeps(w, Put(w, r.(transport := Connecting)), r, wanted, o);
      }
    }
  }

  lemma WantedFacts(r: Record, stableIdentity: bool, explicitRequest: bool)
    ensures Within(RecoveryScopes(r, stableIdentity, explicitRequest), r.recoverable)
  {
    CommonFacts(r.recoverable, r.restorable, r.supported);
  }

  lemma MissingWithin(wanted: seq<Scope>, loaded: seq<Scope>, scopes: seq<Scope>)
    requires Within(wanted, scopes)
    ensures Within(Missing(wanted, loaded), scopes)
  {
    MissingFacts(wanted, loaded);
  }

  lemma ConnectingSound(w: World, ns: string)
    requires Ok(w, ns) && ns in w.records
    ensures var w1 := Put(w, w.records[ns].(transport := Connecting)); Sound(w1, ns) && Local(w, w1, ns)
  {
    hide Ok, Consistent, Local, Sound, Policy;
    Known(w, ns);
    var r := w.records[ns];
    SameScopesPolicy(r, r.(transport := Connecting));
    PutSound(w, ns, r.(transport := Connecting));
  }

  lemma RestoreReusedKeeps(w: World, ns: string, missing: seq<Scope>)
    requires Ok(w, ns) && ns in w.records && missing != [] && Within(missing, w.records[ns].recoverable)
    requires w.records[ns].schemaHash.Some?
    ensures var (w', b) := RestoreReused(w, w.records[ns], missing); Keeps(w, w', ns) && b != Fault
  {
    hide Ok, Consistent, Keeps, Local, Recovery, Sound, Policy, AddScopes;
    Known(w, ns);
    var r := w.records[ns];
    AddScopesKeeps(r, missing);
    var r' := Reused(AddScopes(r, missing));
    SameScopesPolicy(AddScopes(r, missing), r');
    assert missing[0] in r'.loaded;
    PutSound(w, ns, r');
    LogKeeps(w, Put(w, r'), ns, Restore, Success, AuditScope(r'.loaded, None));
  }

  lemma RestoreFreshKeeps(w: World, w1: World, r: Record, wanted: seq<Scope>, o: Opening)
    requires var ns := r.namespace;
      Ok(w, ns) && ns in w.records && w.records[ns] == r && wanted != [] && Within(wanted, r.recoverable)
      && w1 == Put(w, r.(transport := Connecting)) && Sound(w1, ns) && Local(w, w1, ns)
    ensures var (w', b) := RestoreFresh(w1, r, wanted, o); Keeps(w, w', r.namespace) && b != Fault
  {
    var ns := r.namespace;
    if Open(o).None? {
      var r' := r.(transport := FailedTransport, stale := true, staleReason := Some(RestoreFailed), failed := true);
      PutSound(w1, ns, r');
      LocalThen(w, w1, Put(w1, r'), ns);
      LogKeeps(w, Put(w1, r'), ns, Restore, Failure, None);
    } else {
      var (tools, schemas) := Open(o).value;
      var s := SnapshotOf(ns, schemas);
      var renewed := Fresh(r, s, r.schemaHash);
      AddScopesKeeps(renewed, wanted);
      var r' := AddScopes(renewed, wanted);
      assert wanted[0] in r'.loaded;
      OpenSound(w1, r', o);
      LocalThen(w, w1, Installed(w1, r', tools, s), ns);
      LogKeeps(w, Installed(w1, r', tools, s), ns, Restore, Success, AuditScope(r'.loaded, None));
    }
  }

  lemma DeactivateKeeps(w: World, ns: string, scope: Scope, force: bool, c: Closing)
    requires Ok(w, ns)
    ensures Keeps(w, DeactivateToolset(w, ns, scope, force, c).0, ns)
  {
    hide Ok, Keeps, Sound, Policy, Local, Log, InFlight, StoreUnloaded, RemoveScope, RemoveRecoverable;
    SkipKeeps(w, ns);
    if ns !in w.records {
      NoRecordLog(w, ns, Deactivate, Failure, Some(scope));
    } else {
      Known(w, ns);
      LogKeeps(w, w, ns, Deactivate, Failure, Some(scope));
      StoreUnloadedKeeps(w, ns, scope, c);
    }
  }

  lemma StoreUnloadedKeeps(w: World, ns: string, scope: Scope, c: Closing)
    requires Ok(w, ns) && ns in w.records
    ensures var r' := RemoveRecoverable(RemoveScope(w.records[ns], scope), scope);
      Keeps(w, StoreUnloaded(w, ns, r', scope, c).0, ns)
  {
    var r, r' := w.records[ns], RemoveRecoverable(RemoveScope(w.records[ns], scope), scope);
    assert SameSchema(r, r') && r'.restorable == r.restorable && r'.recoverable == Without(scope, r.recoverable);
    hide Ok, Keeps, Local, Sound, Policy, Without, RemoveScope, RemoveRecoverable, Raises, Log, Put, Disconnect;
    Known(w, ns);
    RemoveBothKeeps(r, scope);
    if r'.loaded == [] {
      DisconnectKeeps(w, ns);
      StoreIdleKeeps(w, ns, r', scope);
    } else {
      PutSound(w, ns, r');
      PutMoves(w, r');
      DeactivatedKeeps(w, Put(w, r'), ns, scope);
    }
  }

  /** Storing a record moves nothing else. */
  lemma PutMoves(w: World, r: Record)
    ensures OnlyRecords(w, Put(w, r))
  {}

  lemma StoreIdleKeeps(w: World, ns: string, r: Record, scope: Scope)
    requires Ok(w, ns) && ns in w.records && SameSchema(w.records[ns], r) && Policy(r)
    requires r.restorable == w.records[ns].restorable && r.recoverable == Without(scope, w.records[ns].recoverable)
    ensures var idle := r.(transport := Inactive, stale := false, staleReason := None, failed := false);
      Keeps(w, Log(Put(Disconnect(w, ns), idle), Deactivate, Success, Some(ns), Some(scope)), ns)
  {
    hide Ok, Consistent, Keeps, Local, Recovery, Sound, Policy, Without;
    Known(w, ns);
    var idle := r.(transport := Inactive, stale := false, staleReason := None, failed := false);
    SameScopesPolicy(r, idle);
    DisconnectSound(w, ns);
    PutSound(Disconnect(w, ns), ns, idle);
    LocalThen(w, Disconnect(w, ns), Put(Disconnect(w, ns), idle), ns);
    DeactivatedKeeps(w, Put(Disconnect(w, ns), idle), ns, scope);
  }

  lemma DeactivatedKeeps(w: World, w': World, ns: string, scope: Scope)
    requires Ok(w, ns) && ns in w.records && Sound(w', ns) && Local(w, w', ns)
    requires w'.history == w.history && w'.calls == w.calls && w'.inFlight == w.inFlight
    requires w'.records[ns].restorable == w.records[ns].restorable
    requires w'.records[ns].recoverable == Without(scope, w.records[ns].recoverable)
    ensures Keeps(w, Log(w', Deactivate, Success, Some(ns), Some(scope)), ns)
  {
    LogTouches(w, w', ns, Deactivate, Success, Some(scope));
    WithoutFacts(scope, w.records[ns].recoverable);
    hide Consistent, Local, Without;
    var e := Event(|w.history| + 1, Deactivate, Success, Some(ns), Some(scope));
    forall s {
      LatestAppend(w.history, e, ns, s);
    }
    hide LatestIsActivation;
    assert Recovery(w'.records[ns], w.history + [e]);
  }

  // ----- Health, staleness, calls and runtime death -----

  lemma FailureSound(w: World, ns: string, reason: Reason)
    requires Sound(w, ns)
    ensures var w' := RuntimeFailure(w, ns, reason);
      && Sound(w', ns) && Local(w, w', ns) && SameScopes(w.records[ns], w'.records[ns])
      && w'.history == w.history && w'.calls == w.calls && w'.inFlight == w.inFlight
  {
    var r := w.records[ns];
    var r' := RuntimeFailure(w, ns, reason).records[ns];
    SameScopesPolicy(r, r');
    PutSound(w, ns, r');
    hide Sound, Local, Policy;
  }

  lemma ObserveSound(w: World, ns: string, health: Health)
    requires Sound(w, ns)
    ensures var w' := Observe(w, ns, health);
      && Sound(w', ns) && Local(w, w', ns) && SameScopes(w.records[ns], w'.records[ns])
      && w'.history == w.history && w'.calls == w.calls && w'.inFlight == w.inFlight
  {
    var r := w.records[ns];
    var r' := Observe(w, ns, health).records[ns];
    SameScopesPolicy(r, r');
    PutSound(w, ns, r');
    hide Sound, Local, Policy;
  }

  lemma UnhealthyKeeps(w: World, w1: World, ns: string, r: Record, scope: Option<Scope>, reason: Reason)
    requires Ok(w, ns) && ns in w.records && Sound(w1, ns) && Local(w, w1, ns) && r.namespace == ns
    requires w1.history == w.history && w1.calls == w.calls && w1.inFlight == w.inFlight
    requires SameScopes(w.records[ns], w1.records[ns])
    ensures Keeps(w, Unhealthy(w1, r, scope, reason), ns)
  {
    hide Ok, Keeps, Local, Recovery, Consistent, RuntimeFailure, Observe;
    var w2 := RuntimeFailure(w1, ns, reason);
    FailureSound(w1, ns, reason);
    LocalThen(w, w1, w2, ns);
    var health := Health(Some(FailedHealth), None, None, Some(reason));
    var w3 := Observe(w2, ns, health);
    ObserveSound(w2, ns, health);
    LocalThen(w, w2, w3, ns);
    LogKeeps(w, w3, ns, HealthCheck, Failure, AuditScope(r.loaded, scope));
  }

  lemma ProbedKeeps(w: World, ns: string, r: Record, scope: Option<Scope>, schemas: seq<ToolSchema>)
    requires Ok(w, ns) && ns in w.records && w.records[ns] == r
    ensures Keeps(w, Probed(w, r, scope, schemas), ns)
  {
    hide Ok, Keeps, Local, Recovery, Consistent, RuntimeFailure, Observe, InventoryHash;
    Known(w, ns);
    var observed, audited := InventoryHash(schemas), AuditScope(r.loaded, scope);
    if r.schemaHash.Some? && r.schemaHash != Some(observed) {
      var w2 := RuntimeFailure(w, ns, SchemaChanged);
      FailureSound(w, ns, SchemaChanged);
      var health := Health(Some(StaleHealth), Some(observed), Some(|schemas|), Some(SchemaChanged));
      var w3 := Observe(w2, ns, health);
      ObserveSound(w2, ns, health);
      LocalThen(w, w2, w3, ns);
      LogKeeps(w, w3, ns, HealthCheck, Failure, audited);
    } else {
      var health := Health(Some(Healthy), Some(observed), Some(|schemas|), None);
      ObserveSound(w, ns, health);
      LogKeeps(w, Observe(w, ns, health), ns, HealthCheck, Success, audited);
    }
  }

  lemma HealthKeeps(w: World, ns: string, scope: Option<Scope>, p: Probe, c: Closing)
    requires Ok(w, ns)
    ensures Keeps(w, CheckHealth(w, ns, scope, p, c).0, ns)
  {
    hide Ok, Keeps, Local, Recovery, Consistent, Sound, Unhealthy, Probed, ValidateInventory, Raises;
    SkipKeeps(w, ns);
    if ns !in w.records {
      NoRecordLog(w, ns, HealthCheck, Failure, scope);
    } else {
      Known(w, ns);
      var r := w.records[ns];
      UnhealthyKeeps(w, w, ns, r, scope, RuntimeMissing);
      DisconnectSound(w, ns);
      DisconnectKeeps(w, ns);
      UnhealthyKeeps(w, Disconnect(w, ns), ns, r, scope, ProbeTimeout);
      UnhealthyKeeps(w, Disconnect(w, ns), ns, r, scope, ProbeFailed);
      if p.Answered? && ValidateInventory(p.tools).Some? {
        ProbedKeeps(w, ns, r, scope, ValidateInventory(p.tools).value);
      }
    }
  }

  lemma ClearStaleKeeps(w: World, ns: string)
    requires Ok(w, ns)
    ensures Keeps(w, ClearStaleToolset(w, ns).0, ns)
  {
    hide Ok, Keeps, Local, Recovery, Consistent, Sound, Policy;
    SkipKeeps(w, ns);
    if ns !in w.records {
      NoRecordLog(w, ns, ClearStale, Failure, None);
    } else {
      Known(w, ns);
      var r := w.records[ns];
      if Troubled(r) {
        var r' := ClearStaleToolset(w, ns).0.records[ns];
        SameScopesPolicy(r, r');
        PutSound(w, ns, r');
        LogKeeps(w, Put(w, r'), ns, ClearStale, Success, None);
      }
    }
  }

  lemma MarkStaleKeeps(w: World, ns: string, reason: string)
    requires Ok(w, ns)
    ensures Keeps(w, MarkStale(w, ns, reason), ns)
  {
    hide Ok, Keeps, Local, Recovery, Consistent, Sound, Policy;
    SkipKeeps(w, ns);
    if ns in w.records {
      Known(w, ns);
      var r' := MarkStale(w, ns, reason).records[ns];
      SameScopesPolicy(w.records[ns], r');
      PutSound(w, ns, r');
      SilentKeeps(w, Put(w, r'), ns);
    }
  }

  /** A failing call may find its namespace unregistered, or registered anew. */
  lemma FailCallKeeps(w: World, id: nat, expired: bool, c: Closing)
    requires id in w.calls && Ok(w, w.calls[id].namespace)
    ensures Keeps(w, FailCall(w, id, expired, c), w.calls[id].namespace)
  {
    hide Ok, Keeps, Log, RuntimeFailure, FailRaises, Disconnect;
    var ns := w.calls[id].namespace;
    if ns in w.records {
      DisconnectKeeps(w, ns);
      CallFailureKeeps(w, ns, if expired then CallTimeout else CallFailed);
    } else {
      SkipKeeps(w, ns);
      UnknownFailure(w, ns, if expired then CallTimeout else CallFailed);
      NoRecordLog(w, ns, CallTool, Failure, None);
    }
  }

  lemma UnknownFailure(w: World, ns: string, reason: Reason)
    requires Ok(w, ns) && ns !in w.records
    ensures Disconnect(w, ns) == w && RuntimeFailure(w, ns, reason) == w && Mounted(w, ns).None?
  {
    assert Disconnect(w, ns).runtimes == w.runtimes;
  }

  lemma CallFailureKeeps(w: World, ns: string, reason: Reason)
    requires Ok(w, ns) && ns in w.records
    ensures var w' := RuntimeFailure(Disconnect(w, ns), ns, reason);
      ns in w'.records && Keeps(w, Log(w', CallTool, Failure, Some(ns), AuditScope(w'.records[ns].loaded, None)), ns)
  {
    hide Ok, Keeps, Recovery, Consistent, RuntimeFailure, Local, Policy;
    Known(w, ns);
    DisconnectSound(w, ns);
    FailureSound(Disconnect(w, ns), ns, reason);
    var w' := RuntimeFailure(Disconnect(w, ns), ns, reason);
    LocalThen(w, Disconnect(w, ns), w', ns);
    LogKeeps(w, w', ns, CallTool, Failure, AuditScope(w'.records[ns].loaded, None));
  }

  lemma DieKeeps(w: World, ns: string)
    requires Ok(w, ns)
    ensures Keeps(w, Die(w, ns), ns)
  {
    if ns in w.runtimes {
      hide Policy, SnapshotOk;
      assert Local(w, Die(w, ns), ns);
    }
  }
}
