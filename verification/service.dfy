/** The service: records edited in place, the store and the transport manager written step by
    step.  Every method does to the store and the runtimes what Lifecycle says. */
module Service {
  import opened Prelude
  import opened Inventory
  import opened Scopes
  import opened Registry
  import opened MountedNames
  import opened Lifecycle
  import opened LifecycleInvariants
  import opened LifecycleTheorems
  import opened LifecycleResults
  import opened LifecycleAgreement
  import opened BulkOperations

  class TransportManager {
    var runtimes: map<string, Runtime>
    var inFlight: map<string, nat>
    var swaps: nat

    constructor ()
      ensures runtimes == map[] && inFlight == map[] && swaps == 0
    {
      runtimes, inFlight, swaps := map[], map[], 0;
    }

    function RuntimeFor(ns: string): Option<Runtime>
      reads this`runtimes
    {
      if ns in runtimes && runtimes[ns].alive then Some(runtimes[ns]) else None
    }

    function InFlightCalls(ns: string): nat
      reads this`inFlight
    {
      if ns in inFlight then inFlight[ns] else 0
    }

    /** A new runtime takes the place of whatever was mounted, which is closed only then. */
    method SwapRuntime(ns: string, tools: seq<Tool>, c: Closing) returns (raised: bool)
      modifies this`runtimes, this`swaps
      ensures runtimes == old(runtimes)[ns := Runtime(tools, true, old(swaps))] && swaps == old(swaps) + 1
      ensures raised == (c.Raising? && old(RuntimeFor(ns)).Some?)
    {
      raised := ns in runtimes && CloseRaises(runtimes[ns], c);
      runtimes := runtimes[ns := Runtime(tools, true, swaps)];
      swaps := swaps + 1;
    }

    method Disconnect(ns: string, c: Closing) returns (existed: bool, raised: bool)
      modifies this`runtimes
      ensures runtimes == old(runtimes) - {ns} && existed == (ns in old(runtimes))
      ensures raised == (c.Raising? && old(RuntimeFor(ns)).Some?)
    {
      existed, raised := ns in runtimes, false;
      if existed {
        raised := CloseRaises(runtimes[ns], c);
        runtimes := runtimes - {ns};
      }
    }

    /** Closing a runtime that is closed or dead already returns. */
    static predicate CloseRaises(runtime: Runtime, c: Closing) {
      runtime.alive && c.Raising?
    }

    /** The runtime with that serial number, if it is the one mounted, is closed and cancelled. */
    method Abort(ns: string, serial: nat)
      modifies this`runtimes
      ensures runtimes ==
        if ns in old(runtimes) && old(runtimes)[ns].serial == serial
        then old(runtimes)[ns := old(runtimes)[ns].(alive := false)] else old(runtimes)
    {
      if ns in runtimes && runtimes[ns].serial == serial {
        runtimes := runtimes[ns := runtimes[ns].(alive := false)];
      }
    }

    method NoteCallStarted(ns: string)
      modifies this`inFlight
      ensures inFlight == old(inFlight)[ns := old(InFlightCalls(ns)) + 1]
    {
      inFlight := inFlight[ns := InFlightCalls(ns) + 1];
    }

    method NoteCallFinished(ns: string)
      modifies this`inFlight
      ensures inFlight == old(inFlight)[ns := if old(InFlightCalls(ns)) > 0 then old(InFlightCalls(ns)) - 1 else 0]
    {
      inFlight := inFlight[ns := if InFlightCalls(ns) - 1 > 0 then InFlightCalls(ns) - 1 else 0];
    }
  }

  class ToolboxService {
    const store: JsonStateStore
    const transport: TransportManager
    var calls: map<nat, Call>

    ghost function Abs(): World
      reads this, store, transport
    {
      World(store.Records(), store.Current(), store.Previous(), transport.runtimes, transport.inFlight, calls,
        transport.swaps, store.history)
    }

    constructor (store: JsonStateStore)
      requires store.Valid()
      ensures this.store == store && fresh(transport) && calls == map[]
      ensures Abs() ==
        old(World(store.Records(), store.Current(), store.Previous(), map[], map[], map[], 0, store.history))
    {
      this.store := store;
      this.transport := new TransportManager();
      this.calls := map[];
    }

    method Audit(op: Operation, v: Registry.Verdict, ns: Option<string>, scope: Option<Scope>)
      requires store.Valid()
      modifies store`auditLog, store`nextSequence, store`history
      ensures store.Valid() && Abs() == Log(old(Abs()), op, v, ns, scope)
    {
      store.AppendAuditEvent(Event(0, op, v, ns, scope));
    }

    /** A private copy of the stored record. */
    method Load(ns: string) returns (record: Option<ToolsetRecord>)
      requires store.Valid()
      ensures record.Some? <==> ns in Abs().records
      ensures record.Some? ==> fresh(record.value)
      ensures record.Some? ==> record.value.data == Abs().records[ns] && record.value.data.namespace == ns
    {
      KeysListed(store.toolsets, RecordKey);
      var found := store.GetToolset(ns);
      if found.None? {
        return None;
      }
      var r := new ToolsetRecord(found.value);
      record := Some(r);
    }

    method Save(record: ToolsetRecord)
      requires store.Valid()
      modifies store`toolsets
      ensures store.Valid() && Abs() == Put(old(Abs()), record.data)
    {
      store.UpsertToolset(record.data);
    }

    method SaveAndLog(record: ToolsetRecord, op: Operation, v: Registry.Verdict, scope: Option<Scope>)
      requires store.Valid()
      modifies store
      ensures store.Valid() && Abs() == Log(Put(old(Abs()), record.data), op, v, Some(record.data.namespace), scope)
    {
      hide Abs, Log, Put;
      Save(record);
      Audit(op, v, Some(record.data.namespace), scope);
    }

    /** The new runtime is mounted whether or not closing the old one raises. */
    method Mount(ns: string, tools: seq<Tool>, c: Closing) returns (raised: bool)
      modifies transport`runtimes, transport`swaps
      ensures Abs() == Swap(old(Abs()), ns, tools) && raised == Raises(old(Abs()), ns, c)
    {
      Here(ns);
      raised := transport.SwapRuntime(ns, tools, c);
    }

    /** The common end of a bootstrap whose runtime is mounted. */
    method AdoptAndLog(record: ToolsetRecord, snapshot: Snapshot, op: Operation, scope: Option<Scope>)
      requires store.Valid() && snapshot.namespace == record.data.namespace
      modifies store
      ensures store.Valid()
      ensures Abs() ==
        Log(ReplaceSnapshot(Put(old(Abs()), record.data), snapshot), op, Success, Some(snapshot.namespace), scope)
    {
      Adopt(record, snapshot);
      hide Abs, Log, ReplaceSnapshot, Put;
      Audit(op, Success, Some(snapshot.namespace), scope);
    }

    method Adopt(record: ToolsetRecord, snapshot: Snapshot)
      requires store.Valid() && snapshot.namespace == record.data.namespace
      modifies store`toolsets, store`schemaCache, store`previousCache
      ensures store.Valid() && Abs() == ReplaceSnapshot(Put(old(Abs()), record.data), snapshot)
    {
      Save(record);
      store.ReplaceSchemaSnapshot(snapshot);
    }

    method Unmount(ns: string, c: Closing) returns (raised: bool)
      modifies transport`runtimes
      ensures Abs() == Lifecycle.Disconnect(old(Abs()), ns) && raised == Raises(old(Abs()), ns, c)
    {
      Here(ns);
      var existed;
      existed, raised := transport.Disconnect(ns, c);
    }

    lemma Here(ns: string)
      ensures transport.RuntimeFor(ns) == Mounted(Abs(), ns)
      ensures transport.InFlightCalls(ns) == InFlight(Abs(), ns)
    {}

    method ActivateOne(ns: string, scope: Scope, ifNotLoaded: bool, o: Opening, c: Closing) returns (b: Bucket)
      requires store.Valid()
      modifies store, transport
      ensures store.Valid() && (Abs(), b) == ActivateToolset(old(Abs()), ns, scope, ifNotLoaded, o, c)
    {
      Here(ns);
      hide Abs, Log, Put, Mounted, ActivateReused, ActivateFresh;
      var found := Load(ns);
      if found.None? {
        Audit(Activate, Failure, Some(ns), Some(scope));
        return Failed;
      }
      var record := found.value;
      if scope !in record.data.supported {
        Audit(Activate, Failure, Some(ns), Some(scope));
        return Failed;
      }
      if transport.RuntimeFor(ns).Some? && record.data.loaded != [] && scope !in record.data.loaded {
        b := ActivateByReuse(record, scope);
        return;
      }
      if ifNotLoaded && scope in record.data.loaded {
        return Skipped;
      }
      b := ActivateByOpening(record, scope, o, c);
    }

    method ActivateByReuse(record: ToolsetRecord, scope: Scope) returns (b: Bucket)
      requires store.Valid()
      modifies store, transport, record
      ensures store.Valid() && (Abs(), b) == ActivateReused(old(Abs()), old(record.data), scope)
    {
      hide Abs, Log, Put, AddScope, AddRecoverable;
      AddBothElsewhere(record.data, scope);
      AddBoth(record, scope);
      record.data := record.data.(transport := if record.data.stale then StaleTransport else Connected);
      Save(record);
      Audit(Activate, Success, Some(record.data.namespace), Some(scope));
      b := if record.data.schemaHash.Some? then Done else Fault;
    }

    method ActivateByOpening(record: ToolsetRecord, scope: Scope, o: Opening, c: Closing) returns (b: Bucket)
      requires store.Valid()
      modifies store, transport, record
      ensures var r := old(record.data);
        store.Valid() && (Abs(), b) == ActivateFresh(Put(old(Abs()), r.(transport := Connecting)), r, scope, o, c)
    {
      hide Abs, Log, Put, Swap, Raises, FailActivation, ReplaceSnapshot, AddScope, AddRecoverable, Open, SnapshotOf,
        Lifecycle.Fresh;
      var ns := record.data.namespace;
      FailureForgetsTransport(record.data, scope);
      record.data := record.data.(transport := Connecting);
      Save(record);
      var opening := Open(o);
      if opening.None? {
        b := FailActivating(record, scope);
        return;
      }
      var (tools, schemas) := opening.value;
      var snapshot := SnapshotOf(ns, schemas);
      SnapshotNamed(ns, schemas);
      var raised := Mount(ns, tools, c);
      if raised {
        b := FailActivating(record, scope);
        return;
      }
      FreshForgetsTransport(old(record.data), snapshot);
      AddBothElsewhere(Lifecycle.Fresh(old(record.data), snapshot, old(record.data).schemaHash), scope);
      ActivateRenewed(record, scope, snapshot);
      b := Done;
    }

    /** The except branch of an activation. */
    method FailActivating(record: ToolsetRecord, scope: Scope) returns (b: Bucket)
      requires store.Valid()
      modifies store, record
      ensures store.Valid() && (Abs(), b) == FailActivation(old(Abs()), old(record.data), scope)
    {
      hide Abs, Log, Put;
      record.data := record.data.(transport := FailedTransport, failed := true);
      SaveAndLog(record, Activate, Failure, Some(scope));
      b := Failed;
    }

    static lemma FailureForgetsTransport(r: Record, scope: Scope)
      ensures forall w :: FailActivation(w, r.(transport := Connecting), scope) == FailActivation(w, r, scope)
    {}

    method ActivateRenewed(record: ToolsetRecord, scope: Scope, snapshot: Snapshot)
      requires store.Valid() && snapshot.namespace == record.data.namespace
      modifies store, record
      ensures store.Valid()
      ensures var r := old(record.data);
        var r' := AddRecoverable(AddScope(Lifecycle.Fresh(r, snapshot, r.schemaHash), scope), scope);
        Abs() ==
          Log(ReplaceSnapshot(Put(old(Abs()), r'), snapshot), Activate, Success, Some(snapshot.namespace), Some(scope))
    {
      record.data := Lifecycle.Fresh(record.data, snapshot, record.data.schemaHash);
      hide Abs, Log, Put, ReplaceSnapshot, AddScope, AddRecoverable;
      AddBothElsewhere(record.data, scope);
      AddBoth(record, scope);
      AdoptAndLog(record, snapshot, Activate, Some(scope));
    }

    static lemma FreshForgetsTransport(r: Record, snapshot: Snapshot)
      ensures var c := r.(transport := Connecting);
        && Lifecycle.Fresh(c, snapshot, c.schemaHash) == Lifecycle.Fresh(r, snapshot, r.schemaHash)
        && Lifecycle.Fresh(r, snapshot, r.schemaHash).namespace == r.namespace
    {}

    static lemma SnapshotNamed(ns: string, schemas: seq<ToolSchema>)
      ensures SnapshotOf(ns, schemas).namespace == ns
    {}

    static lemma AddBothElsewhere(r: Record, scope: Scope)
      ensures var r' := AddRecoverable(AddScope(r, scope), scope);
        r'.namespace == r.namespace && r'.stale == r.stale && r'.schemaHash == r.schemaHash
    {}

    static method AddBoth(record: ToolsetRecord, scope: Scope)
      modifies record
      ensures record.data == AddRecoverable(AddScope(old(record.data), scope), scope)
    {
      var _ := record.Add(scope);
      var _ := record.AddToRecoverable(scope);
    }

    method RefreshOne(ns: string, ifStale: bool, scope: Option<Scope>, o: Opening, c: Closing) returns (b: Bucket)
      requires store.Valid()
      modifies store, transport
      ensures store.Valid() && (Abs(), b) == RefreshToolset(old(Abs()), ns, ifStale, scope, o, c)
    {
      hide Abs, Log, RefreshFresh, AuditScope;
      var found := Load(ns);
      if found.None? {
        Audit(Refresh, Failure, Some(ns), scope);
        return Failed;
      }
      var record := found.value;
      if record.data.loaded == [] {
        return Skipped;
      }
      if scope.Some? && scope.value !in record.data.loaded {
        return Skipped;
      }
      if ifStale && !record.data.stale && record.data.schemaHash.Some? {
        return Skipped;
      }
      b := RefreshByOpening(record, AuditScope(record.data.loaded, scope), o, c);
    }

    method RefreshByOpening(record: ToolsetRecord, audited: Option<Scope>, o: Opening, c: Closing)
        returns (b: Bucket)
      requires store.Valid()
      modifies store, transport, record
      ensures store.Valid() && (Abs(), b) == RefreshFresh(old(Abs()), old(record.data), audited, o, c)
    {
      var ns := record.data.namespace;
      var previous := store.GetSchemaSnapshot(ns);
      var oldHash := if previous.Some? then Some(previous.value.hash) else None;
      assert oldHash == HashOf(Abs().current, ns);
      hide Abs, Log, Put, Swap, Raises, ReplaceSnapshot, FailRefresh, Open, SnapshotOf, HashOf;
      var opening := Open(o);
      if opening.None? {
        b := FailRefreshing(record, audited);
        return;
      }
      var (tools, schemas) := opening.value;
      var snapshot := SnapshotOf(ns, schemas);
      SnapshotNamed(ns, schemas);
      var raised := Mount(ns, tools, c);
      if raised {
        b := FailRefreshing(record, audited);
        return;
      }
      record.data := Lifecycle.Fresh(record.data, snapshot, oldHash);
      AdoptAndLog(record, snapshot, Refresh, audited);
      b := Done;
    }

    /** The except branch of a refresh. */
    method FailRefreshing(record: ToolsetRecord, audited: Option<Scope>) returns (b: Bucket)
      requires store.Valid()
      modifies store, record
      ensures store.Valid() && (Abs(), b) == FailRefresh(old(Abs()), old(record.data), audited)
    {
      var ns := record.data.namespace;
      Here(ns);
      hide Abs, Log, Put, Mounted, InFlight;
      record.data := record.data.(
        transport := if transport.RuntimeFor(ns).Some? then StaleTransport else FailedTransport,
        stale := true, staleReason := Some(RefreshFailed), failed := true);
      SaveAndLog(record, Refresh, Failure, audited);
      b := Failed;
    }

    method DeactivateOne(ns: string, scope: Scope, force: bool, c: Closing) returns (b: Bucket)
      requires store.Valid()
      modifies store, transport
      ensures store.Valid() && (Abs(), b) == DeactivateToolset(old(Abs()), ns, scope, force, c)
    {
      Here(ns);
      hide Abs, Log, InFlight, StoreUnloaded, RemoveScope, RemoveRecoverable;
      var found := Load(ns);
      if found.None? {
        Audit(Deactivate, Failure, Some(ns), Some(scope));
        return Failed;
      }
      var record := found.value;
      if scope !in record.data.loaded {
        return Skipped;
      }
      if transport.InFlightCalls(ns) > 0 && !force {
        Audit(Deactivate, Failure, Some(ns), Some(scope));
        return Failed;
      }
      RemoveBothRest(record.data, scope);
      var _ := record.Remove(scope);
      var _ := record.RemoveFromRecoverable(scope);
      b := FinishDeactivating(record, scope, c);
    }

    method FinishDeactivating(record: ToolsetRecord, scope: Scope, c: Closing) returns (b: Bucket)
      requires store.Valid()
      modifies store, transport, record
      ensures var r := old(record.data);
        store.Valid() && (Abs(), b) == StoreUnloaded(old(Abs()), r.namespace, r, scope, c)
    {
      hide Abs, Log, Put, Raises, Lifecycle.Disconnect;
      if record.data.loaded == [] {
        var raised := Unmount(record.data.namespace, c);
        if raised {
          return Raised;
        }
        record.data := record.data.(transport := Inactive, stale := false, staleReason := None, failed := false);
      }
      SaveAndLog(record, Deactivate, Success, Some(scope));
      b := Done;
    }

    static lemma RemoveBothRest(r: Record, scope: Scope)
      ensures var r' := RemoveRecoverable(RemoveScope(r, scope), scope);
        r' == r.(loaded := r'.loaded, recoverable := r'.recoverable)
    {}

    /** Unregisters one toolset and says which lists it goes into. */
    method UnregisterOne(ns: string, force: bool, c: Closing) returns (b: Bucket, out: Report)
      requires store.Valid()
      modifies store, transport
      ensures store.Valid() && (Abs(), b) == UnregisterToolset(old(Abs()), ns, force, c)
      ensures out == Sorted([ns], [b])
    {
      Here(ns);
      SortedOne(ns, Done);
      SortedOne(ns, DoneAndSkipped);
      SortedOne(ns, Failed);
      SortedOne(ns, Raised);
      hide Abs, Log, Forget, Lifecycle.Disconnect, InFlight, Raises, Sorted;
      out := Report([], [], []);
      var found := Load(ns);
      if found.None? {
        Audit(Unregister, Failure, Some(ns), None);
        return Failed, out.(failed := out.failed + [ns]);
      }
      var record := found.value;
      if record.data.loaded != [] && !force {
        Audit(Unregister, Failure, Some(ns), None);
        return Failed, out.(failed := out.failed + [ns]);
      }
      b := Done;
      if record.data.loaded != [] && force {
        if transport.InFlightCalls(ns) > 0 {
          Audit(Unregister, Failure, Some(ns), None);
          return Failed, out.(failed := out.failed + [ns]);
        }
        var raised := Unmount(ns, c);
        if raised {
          return Raised, out;
        }
        b, out := DoneAndSkipped, out.(skipped := out.skipped + [ns]);
      }
      Erase(ns);
      Audit(Unregister, Success, Some(ns), None);
      out := out.(done := out.done + [ns]);
    }

    method Erase(ns: string)
      requires store.Valid()
      modifies store
      ensures store.Valid() && Abs() == Forget(old(Abs()), ns)
    {
      store.DeleteSchemaSnapshots(ns);
      var _ := store.DeleteToolset(ns);
    }

    method RestoreOne(ns: string, stableIdentity: bool, startup: bool, o: Opening) returns (b: Bucket)
      requires store.Valid()
      modifies store, transport
      ensures store.Valid() && (Abs(), b) == RestoreToolset(old(Abs()), ns, stableIdentity, startup, o)
    {
      Here(ns);
      hide Abs, Log, Put, Mounted, RecoveryScopes, Lifecycle.Missing, RestoreReused, RestoreFresh;
      var found := Load(ns);
      if found.None? {
        Audit(Restore, Failure, Some(ns), None);
        return Failed;
      }
      var record := found.value;
      var wanted := RecoveryScopes(record.data, stableIdentity, !startup);
      if wanted == [] {
        return Skipped;
      }
      if transport.RuntimeFor(ns).Some? {
        var missing := Lifecycle.Missing(wanted, record.data.loaded);
        if missing == [] {
          return Skipped;
        }
        b := RestoreByReuse(record, missing);
        return;
      }
      b := RestoreByOpening(record, wanted, o);
    }

    method RestoreByReuse(record: ToolsetRecord, missing: seq<Scope>) returns (b: Bucket)
      requires store.Valid()
      modifies store, transport, record
      ensures store.Valid() && (Abs(), b) == RestoreReused(old(Abs()), old(record.data), missing)
    {
      hide Abs, Log, Put, AddScopes, AuditScope;
      AddScopesOnlyLoads(record.data, missing);
      record.AddAll(missing);
      record.data := record.data.(transport := if record.data.stale then StaleTransport else Connected);
      Save(record);
      if record.data.schemaHash.None? {
        return Fault;
      }
      Audit(Restore, Success, Some(record.data.namespace), AuditScope(record.data.loaded, None));
      b := Done;
    }

    method RestoreByOpening(record: ToolsetRecord, wanted: seq<Scope>, o: Opening) returns (b: Bucket)
      requires store.Valid()
      modifies store, transport, record
      ensures var r := old(record.data);
        store.Valid() && (Abs(), b) == RestoreFresh(Put(old(Abs()), r.(transport := Connecting)), r, wanted, o)
    {
      hide Abs, Log, Put, Swap, ReplaceSnapshot, AddScopes, Open, SnapshotOf, AuditScope;
      var ns := record.data.namespace;
      record.data := record.data.(transport := Connecting);
      Save(record);
      var opening := Open(o);
      if opening.None? {
        record.data := record.data.(
          transport := FailedTransport, stale := true, staleReason := Some(RestoreFailed), failed := true);
        SaveAndLog(record, Restore, Failure, None);
        return Failed;
      }
      var (tools, schemas) := opening.value;
      var snapshot := SnapshotOf(ns, schemas);
      SnapshotNamed(ns, schemas);
      var _ := Mount(ns, tools, Quiet);
      record.data := Lifecycle.Fresh(record.data, snapshot, record.data.schemaHash);
      AddScopesOnlyLoads(record.data, wanted);
      record.AddAll(wanted);
      AdoptAndLog(record, snapshot, Restore, AuditScope(record.data.loaded, None));
      b := Done;
    }

    // ----- Registration, health, staleness -----

    method RegisterOne(q: Request) returns (b: Bucket)
      requires store.Valid()
      modifies store
      ensures store.Valid() && (Abs(), b) == RegisterToolset(old(Abs()), q)
    {
      hide Abs, Log, Put, ValidNamespace, Requested;
      var ns := q.namespace;
      if !ValidNamespace(ns) {
        Audit(Register, Failure, if ns == "" then None else Some(ns), None);
        return Failed;
      }
      if !q.transportValid {
        Audit(Register, Failure, Some(ns), None);
        return Failed;
      }
      var existing := Load(ns);
      if existing.Some? {
        Audit(Register, Failure, Some(ns), None);
        return Failed;
      }
      var requested := Requested(q);
      if requested.None? {
        Audit(Register, Failure, Some(ns), None);
        return Failed;
      }
      var record := new ToolsetRecord(requested.value);
      Save(record);
      Audit(Register, Success, Some(ns), Some(record.data.defaultScope));
      b := Done;
    }

    method RecordRuntimeFailure(ns: string, reason: Reason)
      requires store.Valid()
      modifies store`toolsets
      ensures store.Valid() && Abs() == RuntimeFailure(old(Abs()), ns, reason)
    {
      Here(ns);
      hide Abs, Put, Mounted;
      var found := Load(ns);
      if found.None? {
        return;
      }
      var record := found.value;
      record.data := record.data.(
        transport := if transport.RuntimeFor(ns).Some? then StaleTransport else FailedTransport,
        stale := true, staleReason := Some(reason), failed := true);
      Save(record);
    }

    method RecordHealth(ns: string, health: Health)
      requires store.Valid() && ns in Abs().records
      modifies store`toolsets
      ensures store.Valid() && Abs() == Observe(old(Abs()), ns, health)
    {
      Here(ns);
      hide Abs, Put, Mounted;
      var found := Load(ns);
      var record := found.value;
      record.data := record.data.(health := health);
      if health.status == Some(Healthy) && transport.RuntimeFor(ns).Some? {
        record.data := record.data.(transport := Connected);
      }
      Save(record);
    }

    method CheckHealthOne(ns: string, scope: Option<Scope>, p: Probe, c: Closing) returns (b: Bucket)
      requires store.Valid()
      modifies store, transport
      ensures store.Valid() && (Abs(), b) == CheckHealth(old(Abs()), ns, scope, p, c)
    {
      Here(ns);
      hide Abs, Log, Mounted, ValidateInventory, Unhealthy, Probed, Lifecycle.Disconnect;
      var found := Load(ns);
      if found.None? {
        Audit(HealthCheck, Failure, Some(ns), scope);
        return Failed;
      }
      var r := found.value.data;
      if r.loaded == [] {
        return Skipped;
      }
      if scope.Some? && scope.value !in r.loaded {
        return Skipped;
      }
      b := Done;
      if transport.RuntimeFor(ns).None? {
        NoteUnhealthy(r, scope, RuntimeMissing);
        return;
      }
      var observed := if p.Answered? then ValidateInventory(p.tools) else None;
      if observed.None? {
        var raised := DropProbed(ns, p == ProbeExpired, c);
        if raised {
          return Raised;
        }
        NoteUnhealthy(r, scope, if p == ProbeExpired then ProbeTimeout else ProbeFailed);
        return;
      }
      NoteProbed(r, scope, observed.value);
    }

    /** A probe that expired aborts the runtime before it is disconnected. */
    method DropProbed(ns: string, expired: bool, c: Closing) returns (raised: bool)
      requires Mounted(Abs(), ns).Some?
      modifies transport`runtimes
      ensures Abs() == Lifecycle.Disconnect(old(Abs()), ns) && Abs().records == old(Abs()).records
      ensures raised == (Raises(old(Abs()), ns, c) && !expired)
    {
      raised := DropAfterAbort(ns, if expired then Some(transport.runtimes[ns].serial) else None, c);
    }

    /** Disconnects a namespace, after aborting the runtime with the given serial number, if any. */
    method DropAfterAbort(ns: string, aborted: Option<nat>, c: Closing) returns (raised: bool)
      modifies transport`runtimes
      ensures Abs() == Lifecycle.Disconnect(old(Abs()), ns)
      ensures raised ==
        (Raises(old(Abs()), ns, c) && !(aborted.Some? && old(Mounted(Abs(), ns)).value.serial == aborted.value))
    {
      if aborted.Some? {
        transport.Abort(ns, aborted.value);
      }
      assert Lifecycle.Disconnect(Abs(), ns) == Lifecycle.Disconnect(old(Abs()), ns);
      raised := Unmount(ns, c);
    }

    method NoteUnhealthy(r: Record, scope: Option<Scope>, reason: Reason)
      requires store.Valid() && r.namespace in Abs().records
      modifies store
      ensures store.Valid() && Abs() == Unhealthy(old(Abs()), r, scope, reason)
    {
      KeysListed(store.toolsets, RecordKey);
      FailureKeepsKeys(Abs(), r.namespace, reason);
      hide Abs, Log, RuntimeFailure, Observe, AuditScope;
      RecordRuntimeFailure(r.namespace, reason);
      RecordHealth(r.namespace, Health(Some(FailedHealth), None, None, Some(reason)));
      Audit(HealthCheck, Failure, Some(r.namespace), AuditScope(r.loaded, scope));
    }

    method NoteProbed(r: Record, scope: Option<Scope>, schemas: seq<ToolSchema>)
      requires store.Valid() && r.namespace in Abs().records
      modifies store
      ensures store.Valid() && Abs() == Probed(old(Abs()), r, scope, schemas)
    {
      KeysListed(store.toolsets, RecordKey);
      FailureKeepsKeys(Abs(), r.namespace, SchemaChanged);
      hide Abs, Log, RuntimeFailure, Observe, AuditScope, InventoryHash;
      var observed := InventoryHash(schemas);
      if r.schemaHash.Some? && r.schemaHash != Some(observed) {
        RecordRuntimeFailure(r.namespace, SchemaChanged);
        RecordHealth(r.namespace, Health(Some(StaleHealth), Some(observed), Some(|schemas|), Some(SchemaChanged)));
        Audit(HealthCheck, Failure, Some(r.namespace), AuditScope(r.loaded, scope));
        return;
      }
      RecordHealth(r.namespace, Health(Some(Healthy), Some(observed), Some(|schemas|), None));
      Audit(HealthCheck, Success, Some(r.namespace), AuditScope(r.loaded, scope));
    }

    static lemma FailureKeepsKeys(w: World, ns: string, reason: Reason)
      ensures ns in w.records && w.records[ns].namespace == ns ==> ns in RuntimeFailure(w, ns, reason).records
    {}

    method ClearStaleOne(ns: string) returns (b: Bucket)
      requires store.Valid()
      modifies store
      ensures store.Valid() && (Abs(), b) == ClearStaleToolset(old(Abs()), ns)
    {
      Here(ns);
      hide Abs, Log, Put, Mounted;
      var found := Load(ns);
      if found.None? {
        Audit(ClearStale, Failure, Some(ns), None);
        return Failed;
      }
      var record := found.value;
      if !Troubled(record.data) {
        return Skipped;
      }
      record.data := record.data.(stale := false, staleReason := None, failed := false, health := NO_HEALTH);
      if record.data.loaded == [] {
        record.data := record.data.(transport := Inactive);
      } else if transport.RuntimeFor(ns).Some? {
        record.data := record.data.(transport := Connected);
      } else {
        record.data := record.data.(transport := FailedTransport);
      }
      SaveAndLog(record, ClearStale, Success, None);
      b := Done;
    }

    method MarkToolsetStale(ns: string, reason: string) returns (known: bool)
      requires store.Valid()
      modifies store`toolsets
      ensures store.Valid() && Abs() == MarkStale(old(Abs()), ns, reason) && known == (ns in old(Abs()).records)
    {
      hide Abs, Put;
      var found := Load(ns);
      if found.None? {
        return false;
      }
      var record := found.value;
      record.data := record.data.(stale := true, staleReason := Some(Marked(reason)), transport := StaleTransport);
      Save(record);
      known := true;
    }

    // ----- Calls -----

    /** The part of a call that runs under the lock: the mounted name is resolved again, over the
        namespaces mounted now, and only if it resolves is the call counted. */
    method BeginCall(id: nat, name: string, namespaces: seq<string>) returns (resolved: Option<(string, Tool)>)
      requires id !in calls && forall n :: n in namespaces <==> n in Live(Abs())
      modifies this`calls, transport`inFlight
      ensures resolved == Resolve(name, namespaces, old(Live(Abs())))
      ensures Abs() ==
        if resolved.Some? then StartCall(old(Abs()), id, resolved.value.0, resolved.value.1.name) else old(Abs())
    {
      var live := map ns | ns in transport.runtimes && transport.runtimes[ns].alive :: transport.runtimes[ns].tools;
      assert live == Live(Abs());
      resolved := ResolveMountedTool(name, namespaces, live);
      OnlyMounted(name, namespaces, live);
      if resolved.Some? {
        var (ns, tool) := resolved.value;
        Listed(live[ns], tool);
        hide HasTool, Resolve;
        transport.NoteCallStarted(ns);
        calls := calls[id := Call(ns, transport.runtimes[ns].serial)];
      }
    }

    static lemma Listed(tools: seq<Tool>, tool: Tool)
      requires tool in tools
      ensures HasTool(tools, tool.name)
    {}

    /** The except branch of a call; if its disconnect raises, that is what the caller gets. */
    method AbandonCall(id: nat, expired: bool, c: Closing) returns (raised: bool)
      requires store.Valid() && id in calls
      modifies store, transport
      ensures store.Valid() && Abs() == FailCall(old(Abs()), id, expired, c)
      ensures raised == FailRaises(old(Abs()), id, expired, c)
    {
      var ns := calls[id].namespace;
      assert id in Abs().calls && Abs().calls[id] == calls[id];
      hide Abs, Log, AuditScope, RuntimeFailure, Raises, Mounted, Lifecycle.Disconnect;
      raised := DropAfterAbort(ns, if expired then Some(calls[id].serial) else None, c);
      if raised {
        return;
      }
      RecordRuntimeFailure(ns, if expired then CallTimeout else CallFailed);
      var found := Load(ns);
      Audit(CallTool, Failure, Some(ns), if found.Some? then AuditScope(found.value.data.loaded, None) else None);
    }

    /** The finally branch of a call. */
    method EndCall(id: nat)
      requires id in calls
      modifies this`calls, transport`inFlight
      ensures Abs() == FinishCall(old(Abs()), id)
    {
      var ns := calls[id].namespace;
      Here(ns);
      transport.NoteCallFinished(ns);
      calls := calls - {id};
    }

    // ----- Contract diffs -----

    /** The diff of one toolset against its previous snapshot, from the cache or from the runtime. */
    method BuildContractDiff(ns: string, mounted: bool) returns (diff: ContractDiff)
      requires store.Valid()
      ensures diff == DiffContracts(Abs(), ns, mounted)
    {
      Here(ns);
      hide DiffToolsets, InventoryHash;
      var snapshot := store.GetSchemaSnapshot(ns);
      var previous := store.GetPreviousSchemaSnapshot(ns);
      var runtime := transport.RuntimeFor(ns);
      var tools, present, hash := [], false, None;
      if mounted {
        if runtime.Some? {
          tools, present := NormalizeAll(runtime.value.tools), true;
        }
        if tools != [] {
          hash := Some(InventoryHash(tools));
        }
      } else if snapshot.Some? {
        tools, present, hash := snapshot.value.tools, true, Some(snapshot.value.hash);
      }
      if !present || previous.None? {
        return ContractDiff(false, [], [], [], hash);
      }
      var d := DiffToolsets(previous.value.tools, tools);
      diff := ContractDiff(true, d.added, d.removed, d.changed, hash);
    }

    // ----- The calls that work through a list of namespaces -----

    method Act(a: Action) returns (b: Bucket)
      requires store.Valid() && Bucketed(a)
      modifies store, transport
      ensures store.Valid() && (Abs(), b) == Perform(old(Abs()), a)
    {
      hide Abs, ActivateToolset, RefreshToolset, RestoreToolset, DeactivateToolset, CheckHealth, ClearStaleToolset,
        UnregisterToolset, Sorted;
      match a
      case DoActivate(ns, scope, ifNotLoaded, o, c) => b := ActivateOne(ns, scope, ifNotLoaded, o, c);
      case DoRefresh(ns, ifStale, scope, o, c) => b := RefreshOne(ns, ifStale, scope, o, c);
      case DoRestore(ns, identity, startup, o) => b := RestoreOne(ns, identity, startup, o);
      case DoDeactivate(ns, scope, force, c) => b := DeactivateOne(ns, scope, force, c);
      case DoHealth(ns, scope, p, c) => b := CheckHealthOne(ns, scope, p, c);
      case DoClearStale(ns) => b := ClearStaleOne(ns);
      case DoUnregister(ns, force, c) =>
        var out;
        b, out := UnregisterOne(ns, force, c);
    }

    /** No result is an exception out of a step: the steps after it do not happen. */
    method ForEach(namespaces: seq<string>, steps: seq<Action>) returns (result: Option<Report>)
      requires store.Valid() && Inv(Abs()) && |namespaces| == |steps|
      requires forall k :: 0 <= k < |steps| ==> Bucketed(steps[k])
      modifies store, transport
      ensures store.Valid() && Inv(Abs()) && (Abs(), result) == Handled(old(Abs()), namespaces, steps)
    {
      ghost var start := Abs();
      ghost var buckets := [];
      var out := Report([], [], []);
      hide Abs, Perform, Bucketed, Inv;
      var i := 0;
      while i < |steps|
        invariant 0 <= i <= |steps| && store.Valid() && Inv(Abs())
        invariant (Abs(), buckets) == PerformAll(start, steps[..i]) && !Ended(buckets)
        invariant out == Sorted(namespaces[..i], buckets)
      {
        PerformSnoc(start, steps, i);
        PerformKeeps(Abs(), steps[i]);
        var b := Act(steps[i]);
        assert namespaces[..i + 1][..i] == namespaces[..i];
        SortedSnoc(namespaces[..i + 1], buckets, b);
        hide PerformAll, Those;
        buckets := buckets + [b];
        match b {
          case Done => out := out.(done := out.done + [namespaces[i]]);
          case DoneAndSkipped =>
            out := out.(done := out.done + [namespaces[i]], skipped := out.skipped + [namespaces[i]]);
          case Skipped => out := out.(skipped := out.skipped + [namespaces[i]]);
          case Failed => out := out.(failed := out.failed + [namespaces[i]]);
          case Raised =>
            EndedStays(start, steps, i + 1);
            return None;
        }
        i := i + 1;
      }
      assert steps[..i] == steps && namespaces[..i] == namespaces;
      result := Some(out);
    }

    /** An unknown scope is refused with empty lists. */
    method ActivateToolsets(namespaces: seq<string>, scope: string, ifNotLoaded: bool, openings: nat -> Opening,
          closings: nat -> Closing)
        returns (refused: bool, result: Option<Report>)
      requires store.Valid() && Inv(Abs())
      modifies store, transport
      ensures store.Valid() && Inv(Abs()) && refused == ParseScope(scope).None?
      ensures match ParseScope(scope)
        case None => result == Some(Report([], [], [])) && Abs() == Log(old(Abs()), Activate, Failure, None, None)
        case Some(s) =>
          var steps := Activations(namespaces, s, ifNotLoaded, openings, closings);
          (Abs(), result) == Handled(old(Abs()), namespaces, steps)
    {
      hide Abs, Inv, Log, Handled;
      var s := ParseScope(scope);
      if s.None? {
        InvalidScopeKeeps(Abs(), Activate);
        Audit(Activate, Failure, None, None);
        return true, Some(Report([], [], []));
      }
      refused := false;
      result := ForEach(namespaces, Activations(namespaces, s.value, ifNotLoaded, openings, closings));
    }

    method DeactivateToolsets(namespaces: seq<string>, scope: string, force: bool, closings: nat -> Closing)
        returns (refused: bool, result: Option<Report>)
      requires store.Valid() && Inv(Abs())
      modifies store, transport
      ensures store.Valid() && Inv(Abs()) && refused == ParseScope(scope).None?
      ensures match ParseScope(scope)
        case None => result == Some(Report([], [], [])) && Abs() == Log(old(Abs()), Deactivate, Failure, None, None)
        case Some(s) =>
          var steps := Deactivations(namespaces, s, force, closings);
          (Abs(), result) == Handled(old(Abs()), namespaces, steps)
    {
      hide Abs, Inv, Log, Handled;
      var s := ParseScope(scope);
      if s.None? {
        InvalidScopeKeeps(Abs(), Deactivate);
        Audit(Deactivate, Failure, None, None);
        return true, Some(Report([], [], []));
      }
      refused := false;
      result := ForEach(namespaces, Deactivations(namespaces, s.value, force, closings));
    }

    /** With no namespaces given, every registered toolset is a candidate. */
    method RefreshToolsets(namespaces: seq<string>, ifStale: bool, scope: Option<string>, openings: nat -> Opening,
          closings: nat -> Closing)
        returns (refused: bool, result: Option<Report>)
      requires store.Valid() && Inv(Abs())
      modifies store, transport
      ensures store.Valid() && Inv(Abs()) && refused == (scope.Some? && ParseScope(scope.value).None?)
      ensures
        if refused then
          result == Some(Report([], [], [])) && Abs() == Log(old(Abs()), Refresh, Failure, None, None)
        else
          var s := if scope.Some? then ParseScope(scope.value) else None;
          var candidates := Candidates(namespaces, old(store.toolsets), Every);
          var steps := Refreshes(candidates, ifStale, s, openings, closings);
          (Abs(), result) == Handled(old(Abs()), candidates, steps)
    {
      hide Abs, Inv, Log, Handled, Candidates;
      var s := if scope.Some? then ParseScope(scope.value) else None;
      refused := scope.Some? && s.None?;
      if refused {
        InvalidScopeKeeps(Abs(), Refresh);
        Audit(Refresh, Failure, None, None);
        return refused, Some(Report([], [], []));
      }
      var candidates := Candidates(namespaces, store.toolsets, Every);
      result := ForEach(candidates, Refreshes(candidates, ifStale, s, openings, closings));
    }

    /** With no namespaces given, every toolset with something to recover is a candidate. */
    method RestoreToolsets(namespaces: seq<string>, stableIdentity: bool, startup: bool, openings: nat -> Opening)
        returns (result: Option<Report>)
      requires store.Valid() && Inv(Abs())
      modifies store, transport
      ensures store.Valid() && Inv(Abs())
      ensures
        var candidates := Candidates(namespaces, old(store.toolsets), Recoverable);
        var steps := Restorations(candidates, stableIdentity, startup, openings);
        (Abs(), result) == Handled(old(Abs()), candidates, steps)
    {
      hide Abs, Inv, Handled, Candidates;
      var candidates := Candidates(namespaces, store.toolsets, Recoverable);
      result := ForEach(candidates, Restorations(candidates, stableIdentity, startup, openings));
    }

    method UnregisterToolsets(namespaces: seq<string>, force: bool, closings: nat -> Closing)
        returns (result: Option<Report>)
      requires store.Valid() && Inv(Abs())
      modifies store, transport
      ensures store.Valid() && Inv(Abs())
      ensures (Abs(), result) == Handled(old(Abs()), namespaces, Unregistrations(namespaces, force, closings))
    {
      hide Abs, Inv, Handled;
      result := ForEach(namespaces, Unregistrations(namespaces, force, closings));
    }

    /** With no namespaces given, every toolset with something loaded is a candidate. */
    method CheckToolsetHealth(namespaces: seq<string>, scope: Option<string>, probes: nat -> Probe,
          closings: nat -> Closing)
        returns (refused: bool, result: Option<Report>)
      requires store.Valid() && Inv(Abs())
      modifies store, transport
      ensures store.Valid() && Inv(Abs()) && refused == (scope.Some? && ParseScope(scope.value).None?)
      ensures
        if refused then
          result == Some(Report([], [], [])) && Abs() == Log(old(Abs()), HealthCheck, Failure, None, None)
        else
          var s := if scope.Some? then ParseScope(scope.value) else None;
          var candidates := Candidates(namespaces, old(store.toolsets), Loaded);
          var steps := HealthChecks(candidates, s, probes, closings);
          (Abs(), result) == Handled(old(Abs()), candidates, steps)
    {
      hide Abs, Inv, Log, Handled, Candidates;
      var s := if scope.Some? then ParseScope(scope.value) else None;
      refused := scope.Some? && s.None?;
      if refused {
        InvalidScopeKeeps(Abs(), HealthCheck);
        Audit(HealthCheck, Failure, None, None);
        return refused, Some(Report([], [], []));
      }
      var candidates := Candidates(namespaces, store.toolsets, Loaded);
      result := ForEach(candidates, HealthChecks(candidates, s, probes, closings));
    }

    /** With no namespaces given, every stale or unhealthy toolset is a candidate. */
    method ClearStaleToolsets(namespaces: seq<string>) returns (result: Option<Report>)
      requires store.Valid() && Inv(Abs())
      modifies store, transport
      ensures store.Valid() && Inv(Abs())
      ensures var candidates := Candidates(namespaces, old(store.toolsets), Stale);
        (Abs(), result) == Handled(old(Abs()), candidates, Clearings(candidates))
    {
      hide Abs, Inv, Handled, Candidates;
      var candidates := Candidates(namespaces, store.toolsets, Stale);
      result := ForEach(candidates, Clearings(candidates));
    }

    // ----- Startup -----

    /** Seed the default toolset, then forget what was loaded and keep what can be recovered. */
    method ReconcileOnStartup()
      requires store.Valid() && transport.runtimes == map[] && transport.inFlight == map[] && calls == map[]
      modifies store
      ensures store.Valid() && Abs() == Restart(old(Abs()))
    {
      var fake := store.GetToolset(FAKE);
      if fake.None? {
        store.UpsertToolset(DefaultRecord());
      }
      hide Reconciled, DefaultRecord;
      ReconcileScopeState();
    }

    method ReconcileScopeState()
      requires store.Valid()
      modifies store`toolsets
      ensures store.Valid()
      ensures store.Records() == map ns | ns in old(store.Records()) :: Reconciled(old(store.Records())[ns])
    {
      ghost var before := store.Records();
      var all := store.toolsets;
      RecordsListed(all);
      ghost var visited := {};
      assert store.Records() == PartlyReconciled(before, visited);
      hide Reconciled, AsMap, Unique, PartlyReconciled, Window;
      var i := 0;
      while i < |all|
        invariant 0 <= i <= |all| && store.Valid()
        invariant forall k :: 0 <= k < |all| ==> (all[k].namespace in visited <==> k < i)
        invariant store.Records() == PartlyReconciled(before, visited)
      {
        var ns := all[i].namespace;
        VisitOne(before, visited, ns);
        ReconcileRecord(all[i]);
        visited := visited + {ns};
        i := i + 1;
      }
      VisitedAll(before, visited);
    }

    /** The stored records when those in visited have been reconciled. */
    static ghost function PartlyReconciled(m: map<string, Record>, visited: set<string>): map<string, Record> {
      map ns | ns in m :: if ns in visited then Reconciled(m[ns]) else m[ns]
    }

    static lemma VisitOne(m: map<string, Record>, visited: set<string>, ns: string)
      requires ns in m && ns !in visited
      ensures var p := PartlyReconciled(m, visited);
        && ns in p && p[ns] == m[ns]
        && p[ns := Reconciled(m[ns])] == PartlyReconciled(m, visited + {ns})
    {
      hide Reconciled;
    }

    static lemma VisitedAll(m: map<string, Record>, visited: set<string>)
      requires m.Keys <= visited
      ensures PartlyReconciled(m, visited) == map ns | ns in m :: Reconciled(m[ns])
    {
      hide Reconciled;
    }

    static lemma RecordsListed(all: seq<Record>)
      requires Unique(all, RecordKey)
      ensures var m := AsMap(all, RecordKey);
        && (forall k :: 0 <= k < |all| ==> all[k].namespace in m && m[all[k].namespace] == all[k])
        && (forall j, k :: 0 <= j < k < |all| ==> all[j].namespace != all[k].namespace)
        && (forall ns :: ns in m ==> exists k :: 0 <= k < |all| && all[k].namespace == ns)
    {
      KeysListed(all, RecordKey);
      EntriesListed(all, RecordKey);
      forall k | 0 <= k < |all|
        ensures all[k].namespace == RecordKey(all[k])
      {}
      forall ns | ns in AsMap(all, RecordKey)
        ensures exists k :: 0 <= k < |all| && all[k].namespace == ns
      {
        assert HasKey(all, ns, RecordKey);
      }
    }

    /** Written back only if something changed. */
    method ReconcileRecord(stored: Record)
      requires store.Valid() && stored.namespace in store.Records() && store.Records()[stored.namespace] == stored
      modifies store`toolsets
      ensures store.Valid() && store.Records() == old(store.Records())[stored.namespace := Reconciled(stored)]
    {
      var record := new ToolsetRecord(stored);
      var changed := false;
      var recoverable := stored.recoverable;
      if recoverable == [] {
        recoverable := Loadable(stored.loaded, stored.restorable);
      }
      hide Loadable;
      if stored.recoverable != recoverable {
        record.data := record.data.(recoverable := recoverable);
        changed := true;
      }
      if record.data.loaded != [] {
        record.data := record.data.(loaded := []);
        changed := true;
      }
      if record.data.transport != Inactive {
        record.data := record.data.(transport := Inactive);
        changed := true;
      }
      if changed {
        store.UpsertToolset(record.data);
      }
    }
  }
}
