/** The toolset lifecycle: what each lock-protected step does to the store, the runtimes and the
    call counters, with the store seen as maps keyed by namespace. */
module Lifecycle {
  import opened Prelude
  import opened Inventory
  import opened Scopes
  import opened Registry
  import opened MountedNames

  /** A runtime in the transport manager's table.  A dead one is no longer running; `serial` is
      its identity. */
  datatype Runtime = Runtime(tools: seq<Tool>, alive: bool, serial: nat)

  /** A call in flight, and the runtime it was sent to. */
  datatype Call = Call(namespace: string, serial: nat)

  /** `history` is every audit event ever appended; `calls` are the calls started and not yet
      finished, by call; `swaps` counts the runtimes ever swapped in. */
  datatype World = World(
    records: map<string, Record>,
    current: map<string, Snapshot>,
    previous: map<string, Snapshot>,
    runtimes: map<string, Runtime>,
    inFlight: map<string, nat>,
    calls: map<nat, Call>,
    swaps: nat,
    history: seq<Event>)

  /** Where one namespace of a call ends up.  DoneAndSkipped is done, and listed as skipped too.
      Raised is an exception that nothing catches: it ends the whole call.  Fault is the NameError of
      the fallback that names a function the service does not import. */
  datatype Bucket = Done | DoneAndSkipped | Skipped | Failed | Raised | Fault

  /** What bootstrapping a runtime comes to. */
  datatype Opening = Listed(tools: seq<Tool>) | Broken

  /** What a probe of a live runtime comes to. */
  datatype Probe = Answered(tools: seq<Tool>) | ProbeRaised | ProbeExpired

  /** What closing a running runtime comes to: it raises when its actor task ends before taking the
      close (ActorProtocol.CloseFailsIff). */
  datatype Closing = Quiet | Raising

  // ----- The pieces every step is made of -----

  function Log(w: World, op: Operation, v: Verdict, ns: Option<string>, scope: Option<Scope>): World {
    w.(history := w.history + [Event(|w.history| + 1, op, v, ns, scope)])
  }

  function Put(w: World, r: Record): World {
    w.(records := w.records[r.namespace := r])
  }

  function Mounted(w: World, ns: string): Option<Runtime> {
    if ns in w.runtimes && w.runtimes[ns].alive then Some(w.runtimes[ns]) else None
  }

  /** Closing a runtime that is closed or dead already is always quiet. */
  predicate Raises(w: World, ns: string, c: Closing) {
    c.Raising? && Mounted(w, ns).Some?
  }

  function Disconnect(w: World, ns: string): World {
    w.(runtimes := w.runtimes - {ns})
  }

  function Swap(w: World, ns: string, tools: seq<Tool>): World {
    w.(runtimes := w.runtimes[ns := Runtime(tools, true, w.swaps)], swaps := w.swaps + 1)
  }

  function ReplaceSnapshot(w: World, s: Snapshot): World {
    w.(previous := if s.namespace in w.current then w.previous[s.namespace := w.current[s.namespace]] else w.previous,
       current := w.current[s.namespace := s])
  }

  function Forget(w: World, ns: string): World {
    w.(records := w.records - {ns}, current := w.current - {ns}, previous := w.previous - {ns})
  }

  function InFlight(w: World, ns: string): nat {
    if ns in w.inFlight then w.inFlight[ns] else 0
  }

  /** A runtime that lists a tool name twice does not come up. */
  function Open(o: Opening): Option<(seq<Tool>, seq<ToolSchema>)> {
    match o
    case Broken => None
    case Listed(tools) =>
      match ValidateInventory(tools)
      case None => None
      case Some(schemas) => Some((tools, schemas))
  }

  function SnapshotOf(ns: string, schemas: seq<ToolSchema>): Snapshot {
    Snapshot(ns, InventoryHash(schemas), |schemas|, schemas)
  }

  /** The record after a successful bootstrap. */
  function Fresh(r: Record, s: Snapshot, oldHash: Option<Digest>): Record {
    r.(previousHash := oldHash, schemaHash := Some(s.hash), toolCount := s.count, transport := Connected,
       stale := false, staleReason := None, failed := false, health := NO_HEALTH)
  }

  /** The three writes of a bootstrap that came up: swap in the runtime, store the record, and
      make its snapshot the current one. */
  function Installed(w: World, r: Record, tools: seq<Tool>, s: Snapshot): World {
    ReplaceSnapshot(Put(Swap(w, r.namespace, tools), r), s)
  }

  function AuditScope(loaded: seq<Scope>, preferred: Option<Scope>): Option<Scope> {
    if preferred.Some? then preferred
    else if |loaded| == 1 then Some(loaded[0])
    else None
  }

  function Reused(r: Record): Record {
    r.(transport := if r.stale then StaleTransport else Connected)
  }

  /** A change of records and nothing else. */
  predicate OnlyRecords(w: World, w': World) {
    && w'.current == w.current && w'.previous == w.previous && w'.runtimes == w.runtimes
    && w'.inFlight == w.inFlight && w'.calls == w.calls && w'.swaps == w.swaps && w'.history == w.history
  }

  function RuntimeFailure(w: World, ns: string, reason: Reason): (w': World)
    ensures OnlyRecords(w, w')
    ensures ns in w.records && w.records[ns].namespace == ns ==> ns in w'.records && w'.records[ns].namespace == ns
  {
    if ns !in w.records then w
    else
      Put(w, w.records[ns].(
        transport := if Mounted(w, ns).Some? then StaleTransport else FailedTransport,
        stale := true, staleReason := Some(reason), failed := true))
  }

  function Observe(w: World, ns: string, health: Health): (w': World)
    requires ns in w.records
    ensures OnlyRecords(w, w')
  {
    var r := w.records[ns];
    Put(w, r.(health := health,
      transport := if health.status == Some(Healthy) && Mounted(w, ns).Some? then Connected else r.transport))
  }

  function HashOf(cache: map<string, Snapshot>, ns: string): Option<Digest> {
    if ns in cache then Some(cache[ns].hash) else None
  }

  function Missing(wanted: seq<Scope>, loaded: seq<Scope>): seq<Scope> {
    if wanted == [] then []
    else (if wanted[0] in loaded then [] else [wanted[0]]) + Missing(wanted[1..], loaded)
  }

  // ----- Registration -----

  function ParseScope(s: string): Option<Scope> {
    if s == "thread" then Some(Thread)
    else if s == "session" then Some(Session)
    else if s == "global" then Some(Global)
    else None
  }

  function ParseScopes(ss: seq<string>): Option<seq<Scope>> {
    if ss == [] then Some([])
    else
      match (ParseScope(ss[0]), ParseScopes(ss[1..]))
      case (Some(s), Some(rest)) => Some([s] + rest)
      case _ => None
  }

  datatype Request = Request(
    namespace: string, transportValid: bool, defaultScope: string,
    supported: Option<seq<string>>, restorable: Option<seq<string>>, needsIdentity: bool, needsRequest: bool)

  function NewRecord(
    ns: string, defaultScope: Scope, supported: seq<Scope>, restorable: seq<Scope>,
    needsIdentity: bool, needsRequest: bool): Record
  {
    Record(ns, defaultScope, supported, restorable, [], [], needsIdentity, needsRequest,
      Inactive, false, None, None, None, 0, NO_HEALTH, false)
  }

  /** The validated record a request asks for, or None when its scope policy is invalid. */
  function Requested(q: Request): Option<Record> {
    var supported := if q.supported.Some? then ParseScopes(q.supported.value) else Some([Thread, Session, Global]);
    var restorable := if q.restorable.Some? then ParseScopes(q.restorable.value) else Some([]);
    match (ParseScope(q.defaultScope), supported, restorable)
    case (Some(d), Some(s), Some(r)) =>
      ValidateScopePolicy(NewRecord(q.namespace, d, s, r, q.needsIdentity, q.needsRequest))
    case _ => None
  }

  function RegisterToolset(w: World, q: Request): (World, Bucket) {
    var ns := q.namespace;
    if !ValidNamespace(ns) then
      (Log(w, Register, Failure, if ns == "" then None else Some(ns), None), Failed)
    else if !q.transportValid || ns in w.records then (Log(w, Register, Failure, Some(ns), None), Failed)
    else
      match Requested(q)
      case None => (Log(w, Register, Failure, Some(ns), None), Failed)
      case Some(r) => (Log(Put(w, r), Register, Success, Some(ns), Some(r.defaultScope)), Done)
  }

  function UnregisterToolset(w: World, ns: string, force: bool, c: Closing): (World, Bucket) {
    if ns !in w.records then (Log(w, Unregister, Failure, Some(ns), None), Failed)
    else
      var active := w.records[ns].loaded != [];
      if active && !force then (Log(w, Unregister, Failure, Some(ns), None), Failed)
      else if active && InFlight(w, ns) > 0 then (Log(w, Unregister, Failure, Some(ns), None), Failed)
      else if active && Raises(w, ns, c) then (Disconnect(w, ns), Raised)
      else
        (Log(Forget(if active then Disconnect(w, ns) else w, ns), Unregister, Success, Some(ns), None),
         if active then DoneAndSkipped else Done)
  }

  // ----- Activation, refresh, restore, deactivation -----

  function ActivateToolset(w: World, ns: string, scope: Scope, ifNotLoaded: bool, o: Opening, c: Closing)
    : (World, Bucket)
  {
    if ns !in w.records then (Log(w, Activate, Failure, Some(ns), Some(scope)), Failed)
    else
      var r := w.records[ns];
      if scope !in r.supported then (Log(w, Activate, Failure, Some(ns), Some(scope)), Failed)
      else if Mounted(w, ns).Some? && r.loaded != [] && scope !in r.loaded then ActivateReused(w, r, scope)
      else if ifNotLoaded && scope in r.loaded then (w, Skipped)
      else ActivateFresh(Put(w, r.(transport := Connecting)), r, scope, o, c)
  }

  function ActivateReused(w: World, r: Record, scope: Scope): (World, Bucket) {
    var r' := Reused(AddRecoverable(AddScope(r, scope), scope));
    (Log(Put(w, r'), Activate, Success, Some(r.namespace), Some(scope)), if r.schemaHash.Some? then Done else Fault)
  }

  /** The new runtime is mounted before the one it replaces is closed, so it stays when that raises. */
  function ActivateFresh(w: World, r: Record, scope: Scope, o: Opening, c: Closing): (World, Bucket) {
    var ns := r.namespace;
    match Open(o)
    case None => FailActivation(w, r, scope)
    case Some((tools, schemas)) =>
      if Raises(w, ns, c) then FailActivation(Swap(w, ns, tools), r, scope)
      else
        var s := SnapshotOf(ns, schemas);
        var r' := AddRecoverable(AddScope(Fresh(r, s, r.schemaHash), scope), scope);
        (Log(Installed(w, r', tools, s), Activate, Success, Some(ns), Some(scope)), Done)
  }

  function FailActivation(w: World, r: Record, scope: Scope): (World, Bucket) {
    var r' := r.(transport := FailedTransport, failed := true);
    (Log(Put(w, r'), Activate, Failure, Some(r.namespace), Some(scope)), Failed)
  }

  function RefreshToolset(w: World, ns: string, ifStale: bool, scope: Option<Scope>, o: Opening, c: Closing)
    : (World, Bucket)
  {
    if ns !in w.records then (Log(w, Refresh, Failure, Some(ns), scope), Failed)
    else
      var r := w.records[ns];
      if r.loaded == [] then (w, Skipped)
      else if scope.Some? && scope.value !in r.loaded then (w, Skipped)
      else if ifStale && !r.stale && r.schemaHash.Some? then (w, Skipped)
      else
        RefreshFresh(w, r, AuditScope(r.loaded, scope), o, c)
  }

  function RefreshFresh(w: World, r: Record, audited: Option<Scope>, o: Opening, c: Closing): (World, Bucket) {
    var ns := r.namespace;
    match Open(o)
    case None => FailRefresh(w, r, audited)
    case Some((tools, schemas)) =>
      if Raises(w, ns, c) then FailRefresh(Swap(w, ns, tools), r, audited)
      else
        var s := SnapshotOf(ns, schemas);
        var r' := Fresh(r, s, HashOf(w.current, ns));
        (Log(Installed(w, r', tools, s), Refresh, Success, Some(ns), audited), Done)
  }

  function FailRefresh(w: World, r: Record, audited: Option<Scope>): (World, Bucket) {
    var ns := r.namespace;
    var r' := r.(transport := if Mounted(w, ns).Some? then StaleTransport else FailedTransport,
                 stale := true, staleReason := Some(RefreshFailed), failed := true);
    (Log(Put(w, r'), Refresh, Failure, Some(ns), audited), Failed)
  }

  /** A restore swaps in a runtime only where none is running, so no close can raise. */
  function RestoreToolset(w: World, ns: string, stableIdentity: bool, startup: bool, o: Opening): (World, Bucket) {
    if ns !in w.records then (Log(w, Restore, Failure, Some(ns), None), Failed)
    else
      var r := w.records[ns];
      var wanted := RecoveryScopes(r, stableIdentity, !startup);
      if wanted == [] then (w, Skipped)
      else if Mounted(w, ns).Some? then
        var missing := Missing(wanted, r.loaded);
        if missing == [] then (w, Skipped) else RestoreReused(w, r, missing)
      else RestoreFresh(Put(w, r.(transport := Connecting)), r, wanted, o)
  }

  function RestoreReused(w: World, r: Record, missing: seq<Scope>): (World, Bucket) {
    var r' := Reused(AddScopes(r, missing));
    if r.schemaHash.None? then (Put(w, r'), Fault)
    else (Log(Put(w, r'), Restore, Success, Some(r.namespace), AuditScope(r'.loaded, None)), Done)
  }

  function RestoreFresh(w: World, r: Record, wanted: seq<Scope>, o: Opening): (World, Bucket) {
    var ns := r.namespace;
    match Open(o)
    case None =>
      var r' := r.(transport := FailedTransport, stale := true, staleReason := Some(RestoreFailed), failed := true);
      (Log(Put(w, r'), Restore, Failure, Some(ns), None), Failed)
    case Some((tools, schemas)) =>
      var s := SnapshotOf(ns, schemas);
      var r' := AddScopes(Fresh(r, s, r.schemaHash), wanted);
      (Log(Installed(w, r', tools, s), Restore, Success, Some(ns), AuditScope(r'.loaded, None)), Done)
  }

  function DeactivateToolset(w: World, ns: string, scope: Scope, force: bool, c: Closing): (World, Bucket) {
    if ns !in w.records then (Log(w, Deactivate, Failure, Some(ns), Some(scope)), Failed)
    else
      var r := w.records[ns];
      if scope !in r.loaded then (w, Skipped)
      else if InFlight(w, ns) > 0 && !force then (Log(w, Deactivate, Failure, Some(ns), Some(scope)), Failed)
      else
        StoreUnloaded(w, ns, RemoveRecoverable(RemoveScope(r, scope), scope), scope, c)
  }

  /** The runtime goes with the last scope, before anything is stored. */
  function StoreUnloaded(w: World, ns: string, r: Record, scope: Scope, c: Closing): (World, Bucket) {
    if r.loaded != [] then (Log(Put(w, r), Deactivate, Success, Some(ns), Some(scope)), Done)
    else if Raises(w, ns, c) then (Disconnect(w, ns), Raised)
    else
      var idle := r.(transport := Inactive, stale := false, staleReason := None, failed := false);
      (Log(Put(Disconnect(w, ns), idle), Deactivate, Success, Some(ns), Some(scope)), Done)
  }

  // ----- Health and staleness -----

  /** A probe that expired has aborted the runtime itself, so closing it is quiet. */
  function CheckHealth(w: World, ns: string, scope: Option<Scope>, p: Probe, c: Closing): (World, Bucket) {
    if ns !in w.records then (Log(w, HealthCheck, Failure, Some(ns), scope), Failed)
    else
      var r := w.records[ns];
      if r.loaded == [] then (w, Skipped)
      else if scope.Some? && scope.value !in r.loaded then (w, Skipped)
      else if Mounted(w, ns).None? then (Unhealthy(w, r, scope, RuntimeMissing), Done)
      else
        match p
        case ProbeExpired => (Unhealthy(Disconnect(w, ns), r, scope, ProbeTimeout), Done)
        case ProbeRaised => FailProbe(w, r, scope, c)
        case Answered(tools) =>
          match ValidateInventory(tools)
          case None => FailProbe(w, r, scope, c)
          case Some(schemas) => (Probed(w, r, scope, schemas), Done)
  }

  function FailProbe(w: World, r: Record, scope: Option<Scope>, c: Closing): (World, Bucket) {
    var w' := Disconnect(w, r.namespace);
    if Raises(w, r.namespace, c) then (w', Raised) else (Unhealthy(w', r, scope, ProbeFailed), Done)
  }

  function Unhealthy(w: World, r: Record, scope: Option<Scope>, reason: Reason): World {
    var failed := RuntimeFailure(w, r.namespace, reason);
    if r.namespace !in failed.records then failed
    else
      Log(Observe(failed, r.namespace, Health(Some(FailedHealth), None, None, Some(reason))),
        HealthCheck, Failure, Some(r.namespace), AuditScope(r.loaded, scope))
  }

  function Probed(w: World, r: Record, scope: Option<Scope>, schemas: seq<ToolSchema>): World {
    var ns := r.namespace;
    var observed := InventoryHash(schemas);
    var audited := AuditScope(r.loaded, scope);
    var drift := r.schemaHash.Some? && r.schemaHash != Some(observed);
    var w' := if drift then RuntimeFailure(w, ns, SchemaChanged) else w;
    if ns !in w'.records then w'
    else if drift then
      Log(Observe(w', ns, Health(Some(StaleHealth), Some(observed), Some(|schemas|), Some(SchemaChanged))),
        HealthCheck, Failure, Some(ns), audited)
    else
      Log(Observe(w', ns, Health(Some(Healthy), Some(observed), Some(|schemas|), None)),
        HealthCheck, Success, Some(ns), audited)
  }

  predicate Troubled(r: Record) {
    r.stale || r.health.status == Some(StaleHealth) || r.health.status == Some(FailedHealth)
    || r.failed || r.health.error.Some?
  }

  function ClearStaleToolset(w: World, ns: string): (World, Bucket) {
    if ns !in w.records then (Log(w, ClearStale, Failure, Some(ns), None), Failed)
    else
      var r := w.records[ns];
      if !Troubled(r) then (w, Skipped)
      else
        var transport :=
          if r.loaded == [] then Inactive
          else if Mounted(w, ns).Some? then Connected
          else FailedTransport;
        var r' := r.(stale := false, staleReason := None, failed := false, health := NO_HEALTH, transport := transport);
        (Log(Put(w, r'), ClearStale, Success, Some(ns), None), Done)
  }

  function MarkStale(w: World, ns: string, reason: string): World {
    if ns !in w.records then w
    else Put(w, w.records[ns].(stale := true, staleReason := Some(Marked(reason)), transport := StaleTransport))
  }

  // ----- Calls, runtime death, restart -----

  /** Under the lock: the name must still resolve to a tool of the running runtime, and that
      runtime gets the call. */
  function StartCall(w: World, id: nat, ns: string, tool: string): World {
    if id in w.calls || Mounted(w, ns).None? || !HasTool(Mounted(w, ns).value.tools, tool) then w
    else
      w.(calls := w.calls[id := Call(ns, Mounted(w, ns).value.serial)],
         inFlight := w.inFlight[ns := InFlight(w, ns) + 1])
  }

  /** A call that expired has aborted its own runtime; closing any other may raise. */
  predicate FailRaises(w: World, id: nat, expired: bool, c: Closing)
    requires id in w.calls
  {
    var ns := w.calls[id].namespace;
    Raises(w, ns, c) && !(expired && Mounted(w, ns).value.serial == w.calls[id].serial)
  }

  /** The failure path of a call; it does not hold the lock. */
  function FailCall(w: World, id: nat, expired: bool, c: Closing): World {
    if id !in w.calls then w
    else
      var ns := w.calls[id].namespace;
      if FailRaises(w, id, expired, c) then Disconnect(w, ns)
      else
        var w' := RuntimeFailure(Disconnect(w, ns), ns, if expired then CallTimeout else CallFailed);
        Log(w', CallTool, Failure, Some(ns), if ns in w'.records then AuditScope(w'.records[ns].loaded, None) else None)
  }

  function FinishCall(w: World, id: nat): World {
    if id !in w.calls then w
    else
      var ns := w.calls[id].namespace;
      w.(calls := w.calls - {id}, inFlight := w.inFlight[ns := if InFlight(w, ns) > 0 then InFlight(w, ns) - 1 else 0])
  }

  function Die(w: World, ns: string): World {
    if ns !in w.runtimes then w
    else w.(runtimes := w.runtimes[ns := w.runtimes[ns].(alive := false)])
  }

  const FAKE := "fake_stdio"

  function DefaultRecord(): Record {
    NewRecord(FAKE, Thread, [Thread, Session, Global], [], true, true)
  }

  function Loadable(loaded: seq<Scope>, restorable: seq<Scope>): seq<Scope> {
    Common(loaded, restorable, restorable)
  }

  function Reconciled(r: Record): Record {
    r.(recoverable := if r.recoverable == [] then Loadable(r.loaded, r.restorable) else r.recoverable,
       loaded := [], transport := Inactive)
  }

  /** A new process over the same store. */
  function Restart(w: World): World {
    var records := if FAKE in w.records then w.records else w.records[FAKE := DefaultRecord()];
    w.(records := map ns | ns in records :: Reconciled(records[ns]),
       runtimes := map[], inFlight := map[], calls := map[])
  }

  const EMPTY := World(map[], map[], map[], map[], map[], map[], 0, [])

  datatype Action =
    | DoRegister(q: Request)
    | DoUnregister(ns: string, force: bool, c: Closing)
    | DoActivate(ns: string, scope: Scope, ifNotLoaded: bool, o: Opening, c: Closing)
    | DoRefresh(ns: string, ifStale: bool, onlyScope: Option<Scope>, o: Opening, c: Closing)
    | DoRestore(ns: string, stableIdentity: bool, startup: bool, o: Opening)
    | DoDeactivate(ns: string, scope: Scope, force: bool, c: Closing)
    | DoHealth(ns: string, onlyScope: Option<Scope>, p: Probe, c: Closing)
    | DoClearStale(ns: string)
    | DoMarkStale(ns: string, reason: string)
    | DoStartCall(id: nat, ns: string, tool: string)
    | DoFailCall(id: nat, expired: bool, c: Closing)
    | DoFinishCall(id: nat)
    | DoDie(ns: string)
    | DoRestart

  function Perform(w: World, a: Action): (World, Bucket) {
    match a
    case DoRegister(q) => RegisterToolset(w, q)
    case DoUnregister(ns, force, c) => UnregisterToolset(w, ns, force, c)
    case DoActivate(ns, scope, ifNotLoaded, o, c) => ActivateToolset(w, ns, scope, ifNotLoaded, o, c)
    case DoRefresh(ns, ifStale, scope, o, c) => RefreshToolset(w, ns, ifStale, scope, o, c)
    case DoRestore(ns, identity, startup, o) => RestoreToolset(w, ns, identity, startup, o)
    case DoDeactivate(ns, scope, force, c) => DeactivateToolset(w, ns, scope, force, c)
    case DoHealth(ns, scope, p, c) => CheckHealth(w, ns, scope, p, c)
    case DoClearStale(ns) => ClearStaleToolset(w, ns)
    case DoMarkStale(ns, reason) => (MarkStale(w, ns, reason), Done)
    case DoStartCall(id, ns, tool) => (StartCall(w, id, ns, tool), Done)
    case DoFailCall(id, expired, c) => (FailCall(w, id, expired, c), Done)
    case DoFinishCall(id) => (FinishCall(w, id), Done)
    case DoDie(ns) => (Die(w, ns), Done)
    case DoRestart => (Restart(w), Done)
  }

  /** A run: the first process starts over an empty store, and then anything happens. */
  function Run(actions: seq<Action>): World {
    if actions == [] then Restart(EMPTY)
    else Perform(Run(actions[..|actions| - 1]), actions[|actions| - 1]).0
  }
}
