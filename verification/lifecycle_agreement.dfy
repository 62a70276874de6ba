/** When the cached snapshot of a toolset is that of its running runtime, and when it is not. */
module LifecycleAgreement {
  import opened Prelude
  import opened Inventory
  import opened Scopes
  import opened Lifecycle
  import opened LifecycleInvariants
  import opened LifecycleTheorems
  import opened LifecycleResults
  import opened LifecycleEffects
  import opened LifecycleInstances

  /** If a runtime is up, the cached snapshot has the hash of its inventory. */
  predicate Agrees(w: World, ns: string) {
    Mounted(w, ns).Some? ==> HashOf(w.current, ns) == Some(InventoryHash(NormalizeAll(Mounted(w, ns).value.tools)))
  }

  /** The swaps that end in disagreement: an activation or refresh whose bootstrap comes up over a
      running runtime with another hash than the cached one, and closing the old runtime raises. */
  predicate Tears(w: World, a: Action) {
    && (a.DoActivate? || a.DoRefresh?)
    && Open(a.o).Some? && Raises(w, a.ns, a.c)
    && HashOf(w.current, a.ns) != Some(InventoryHash(Open(a.o).value.1))
  }

  // ----- Which steps move a cached snapshot -----

  lemma NotMovedElsewhere(w: World, a: Action, ns: string)
    requires Inv(w) && Locked(a) && ns != Target(a)
    ensures HashOf(Perform(w, a).0.current, ns) == HashOf(w.current, ns)
  {
    OperationsAreLocal(w, a);
    assert SameAt(w, Perform(w, a).0, ns);
    hide Perform, Inv, Ok, Appends;
  }

  /** Of the steps under the lock, only these four touch the cache at all. */
  predicate MayMove(a: Action) {
    a.DoActivate? || a.DoRefresh? || a.DoRestore? || a.DoUnregister?
  }

  lemma OthersKeepCache(w: World, a: Action)
    requires !MayMove(a)
    ensures Perform(w, a).0.current == w.current
  {
    hide RegisterToolset, DeactivateToolset, CheckHealth, ClearStaleToolset, FailCall, MarkStale, StartCall, FinishCall,
      Die, Restart;
    match a
    case DoRegister(q) => RegisterKeepsCache(w, q);
    case DoDeactivate(ns, scope, force, c) => DeactivateKeepsCache(w, ns, scope, force, c);
    case DoHealth(ns, scope, p, c) => HealthKeepsCache(w, ns, scope, p, c);
    case DoFailCall(id, expired, c) => FailCallKeepsCache(w, id, expired, c);
    case DoClearStale(ns) => ClearStaleKeepsCache(w, ns);
    case _ => PlainKeepsCache(w, a);
  }

  /** Logging, storing a record and disconnecting move no snapshot. */
  lemma PiecesKeepCache(w: World, ns: string)
    ensures forall op, v, n, s :: Log(w, op, v, n, s).current == w.current
    ensures forall r, op, v, n, s :: Log(Put(w, r), op, v, n, s).current == w.current
    ensures forall r, op, v, n, s :: Log(Put(Disconnect(w, ns), r), op, v, n, s).current == w.current
    ensures Disconnect(w, ns).current == w.current
  {}

  lemma PlainKeepsCache(w: World, a: Action)
    requires a.DoMarkStale? || a.DoStartCall? || a.DoFinishCall? || a.DoDie? || a.DoRestart?
    ensures Perform(w, a).0.current == w.current
  {
    hide Reconciled, DefaultRecord, Mounted, InFlight;
  }

  lemma ClearStaleKeepsCache(w: World, ns: string)
    ensures ClearStaleToolset(w, ns).0.current == w.current
  {
    PiecesKeepCache(w, ns);
    hide Log, Put, Mounted, Troubled;
  }

  lemma RegisterKeepsCache(w: World, q: Request)
    ensures RegisterToolset(w, q).0.current == w.current
  {
    PiecesKeepCache(w, q.namespace);
    hide Log, Put, Requested;
  }

  lemma DeactivateKeepsCache(w: World, ns: string, scope: Scope, force: bool, c: Closing)
    ensures DeactivateToolset(w, ns, scope, force, c).0.current == w.current
  {
    PiecesKeepCache(w, ns);
    hide Log, Put, Disconnect, RemoveScope, RemoveRecoverable, InFlight, Raises;
  }

  lemma HealthKeepsCache(w: World, ns: string, scope: Option<Scope>, p: Probe, c: Closing)
    ensures CheckHealth(w, ns, scope, p, c).0.current == w.current
  {
    hide ValidateInventory, Unhealthy, Probed, FailProbe, Mounted, Disconnect;
    if ns in w.records {
      var r := w.records[ns];
      VerdictKeepsCache(w, r, scope, RuntimeMissing, []);
      GoneKeepsCache(w, ns, r, scope, c);
      if p.Answered? && ValidateInventory(p.tools).Some? {
        VerdictKeepsCache(w, r, scope, RuntimeMissing, ValidateInventory(p.tools).value);
      }
    }
  }

  lemma GoneKeepsCache(w: World, ns: string, r: Record, scope: Option<Scope>, c: Closing)
    ensures Unhealthy(Disconnect(w, ns), r, scope, ProbeTimeout).current == w.current
    ensures FailProbe(w, r, scope, c).0.current == w.current
  {
    VerdictKeepsCache(Disconnect(w, ns), r, scope, ProbeTimeout, []);
    VerdictKeepsCache(Disconnect(w, r.namespace), r, scope, ProbeFailed, []);
    hide Unhealthy, Raises;
  }

  lemma VerdictKeepsCache(w: World, r: Record, scope: Option<Scope>, reason: Reason, schemas: seq<ToolSchema>)
    ensures Unhealthy(w, r, scope, reason).current == w.current
    ensures Probed(w, r, scope, schemas).current == w.current
  {
    var failed, drifted := RuntimeFailure(w, r.namespace, reason), RuntimeFailure(w, r.namespace, SchemaChanged);
    assert OnlyRecords(w, failed) && OnlyRecords(w, drifted);
    hide InventoryHash, RuntimeFailure, Observe, AuditScope;
  }

  lemma FailCallKeepsCache(w: World, id: nat, expired: bool, c: Closing)
    ensures FailCall(w, id, expired, c).current == w.current
  {
    hide RuntimeFailure, AuditScope, FailRaises;
    if id in w.calls {
      var w1 := Disconnect(w, w.calls[id].namespace);
      var reason := if expired then CallTimeout else CallFailed;
      assert OnlyRecords(w1, RuntimeFailure(w1, w.calls[id].namespace, reason));
    }
  }

  /** An unregistration that leaves the runtime up leaves the cache alone. */
  lemma UnregisterKeepsCache(w: World, a: Action)
    requires a.DoUnregister? && Ok(w, a.ns) && Mounted(w, a.ns).Some? && !Touches(ChangeOf(w, a), a.ns)
    ensures Perform(w, a).0.current == w.current
  {
    Known(w, a.ns);
    assert Perform(w, a) == UnregisterToolset(w, a.ns, a.force, a.c);
    hide Perform, Mounted, InFlight, Ok, Sound, Policy, Local, Forget;
  }

  /** While a runtime stays as it is, so does the hash cached for it. */
  lemma UntouchedKeepsHash(w: World, a: Action, ns: string)
    requires Inv(w) && Mounted(w, ns).Some? && !Touches(ChangeOf(w, a), ns)
    ensures HashOf(Perform(w, a).0.current, ns) == HashOf(w.current, ns)
  {
    if !MayMove(a) {
      OthersKeepCache(w, a);
    } else if ns != Target(a) {
      NotMovedElsewhere(w, a, ns);
    } else if a.DoUnregister? {
      assert Ok(w, ns);
      UnregisterKeepsCache(w, a);
    } else {
      SchemasShiftOnce(w, a);
      RuntimesChangeSo(w, a);
      BootOpens(w, a);
      hide Perform, Inv, ChangeOf, Mounted, Open;
    }
  }

  /** An activation, a refresh or a restore opens a runtime on its own namespace or leaves the table
      as it is. */
  lemma BootOpens(w: World, a: Action)
    requires a.DoActivate? || a.DoRefresh? || a.DoRestore?
    ensures ChangeOf(w, a).Leaves? || (Open(a.o).Some? && ChangeOf(w, a) == Opens(a.ns, Open(a.o).value.0))
  {
    hide Mounted, RecoveryScopes, Open;
  }

  // ----- Which steps leave cache and runtime in disagreement -----

  lemma OpenedAgrees(w: World, a: Action)
    requires Inv(w) && (a.DoActivate? || a.DoRefresh? || a.DoRestore?) && Touches(ChangeOf(w, a), a.ns)
    ensures Agrees(Perform(w, a).0, a.ns) <==> !Tears(w, a)
  {
    SchemasShiftOnce(w, a);
    RuntimesChangeSo(w, a);
    BootOpens(w, a);
    assert Open(a.o).Some? ==> InventoryHash(Open(a.o).value.1) == InventoryHash(NormalizeAll(Open(a.o).value.0)) by {
      OpenHash(a.o);
    }
    var (w', b) := Perform(w, a);
    var change := ChangeOf(w, a);
    hide Perform, Inv, ChangeOf, InventoryHash, Open;
    MountedAfter(w, w', a.ns, Open(a.o).value.0);
    hide Makes, Mounted;
    if SwappedOnly(w, w', a.ns, a.o, ClosingOf(a)) {
    } else {
      assert Shifted(w, w', a.ns, SnapshotOf(a.ns, Open(a.o).value.1));
    }
  }

  lemma MountedAfter(w: World, w': World, ns: string, tools: seq<Tool>)
    requires Makes(w, w', Opens(ns, tools))
    ensures Mounted(w', ns) == Some(Runtime(tools, true, w.swaps)) && w'.swaps == w.swaps + 1
  {}

  lemma OpenHash(o: Opening)
    ensures Open(o).Some? ==> InventoryHash(Open(o).value.1) == InventoryHash(NormalizeAll(Open(o).value.0))
  {
    if o.Listed? {
      ValidatedFacts(o.tools);
    }
    hide InventoryHash, ValidateInventory;
  }

  lemma OnlySwapsTouchWithoutDropping(w: World, a: Action, ns: string)
    requires Touches(ChangeOf(w, a), ns) && !(a.DoActivate? || a.DoRefresh? || a.DoRestore?)
    ensures var c := ChangeOf(w, a); c.Clears? || c == Drops(ns) || c == Kills(ns)
  {
    hide Mounted, InFlight, Observed;
  }

  lemma UnmovedAgrees(w: World, w': World, c: Change, ns: string)
    requires Makes(w, w', c) && !Touches(c, ns)
    requires Mounted(w, ns).Some? ==> HashOf(w'.current, ns) == HashOf(w.current, ns)
    ensures Agrees(w', ns) <==> Agrees(w, ns)
  {
    hide HashOf, InventoryHash;
  }

  lemma DroppedAgrees(w: World, w': World, c: Change, ns: string)
    requires Makes(w, w', c) && (c.Clears? || c == Drops(ns) || c == Kills(ns))
    ensures Agrees(w', ns)
  {
    assert Mounted(w', ns).None?;
  }

  lemma NoSwapTears(w: World, a: Action)
    requires !a.DoActivate? && !a.DoRefresh?
    ensures !Tears(w, a)
  {}

  /** One step, from any state of any run: a step that touches the runtime of a namespace leaves it in
      agreement with the cache unless it is a tearing swap; any other step changes nothing about
      that.  So a disagreement ends with the next swap that closes quietly or lists the cached
      tools, and with whatever takes the runtime away. */
  lemma StepAgrees(w: World, a: Action, ns: string)
    requires Inv(w)
    ensures Agrees(Perform(w, a).0, ns) <==>
      if Touches(ChangeOf(w, a), ns) then !Tears(w, a) else Agrees(w, ns)
  {
    RuntimesChangeSo(w, a);
    var c := ChangeOf(w, a);
    hide Perform, Inv, ChangeOf, Tears, Agrees, Makes, Mounted, HashOf;
    if !Touches(c, ns) {
      if Mounted(w, ns).Some? {
        UntouchedKeepsHash(w, a, ns);
      }
      UnmovedAgrees(w, Perform(w, a).0, c, ns);
    } else if a.DoActivate? || a.DoRefresh? || a.DoRestore? {
      BootOpens(w, a);
      OpenedAgrees(w, a);
    } else {
      OnlySwapsTouchWithoutDropping(w, a, ns);
      DroppedAgrees(w, Perform(w, a).0, c, ns);
      NoSwapTears(w, a);
    }
  }

  /** The last step of a run that touched the runtime of ns was a tearing swap. */
  predicate Torn(actions: seq<Action>, ns: string) {
    actions != [] &&
    var before, a := actions[..|actions| - 1], actions[|actions| - 1];
    if Touches(ChangeOf(Run(before), a), ns) then Tears(Run(before), a) else Torn(before, ns)
  }

  /** In every run, cache and runtime disagree exactly after a tearing swap that nothing has undone. */
  lemma {:induction false} AgreesUnlessTorn(actions: seq<Action>, ns: string)
    ensures Agrees(Run(actions), ns) <==> !Torn(actions, ns)
  {
    if actions != [] {
      var before, a := actions[..|actions| - 1], actions[|actions| - 1];
      AgreesUnlessTorn(before, ns);
      ReachableInv(before);
      hide Inv, Perform, ChangeOf, Touches, Tears, Agrees;
      StepAgrees(Run(before), a, ns);
    } else {
      hide Reconciled, DefaultRecord;
    }
  }

  // ----- The cache agrees with what is live -----

  /** In every reachable state a running runtime belongs to a registered, loaded toolset whose record
      and cached snapshot have the same hash; and unless the run is torn there, that is the hash of
      the runtime's inventory, and the snapshot lists exactly its tools. */
  lemma CacheAgreesWithLive(actions: seq<Action>, ns: string)
    ensures var w := Run(actions);
      Mounted(w, ns).Some? ==>
        var live := NormalizeAll(Mounted(w, ns).value.tools);
        && ns in w.records && ns in w.current
        && w.records[ns].loaded != []
        && w.records[ns].schemaHash == Some(w.current[ns].hash)
        && w.records[ns].toolCount == |w.current[ns].tools|
        && (w.current[ns].hash == InventoryHash(live) <==> !Torn(actions, ns))
        && (Sorting.SameElements(w.current[ns].tools, live) <==> !Torn(actions, ns))
  {
    ReachableInv(actions);
    AgreesUnlessTorn(actions, ns);
    var w := Run(actions);
    hide Run, Torn;
    if Mounted(w, ns).Some? {
      assert Ok(w, ns);
      LiveFacts(w, ns);
      hide InventoryHash, ValidateInventory;
    }
  }

  /** The cached snapshot and the live inventory, whether or not they agree. */
  lemma LiveFacts(w: World, ns: string)
    requires Inv(w) && Mounted(w, ns).Some?
    ensures ns in w.current
    ensures var cached, live := w.current[ns].tools, NormalizeAll(Mounted(w, ns).value.tools);
      && DistinctTools(cached) && DistinctTools(live) && w.current[ns].hash == InventoryHash(cached)
      && (forall t :: t in cached ==> Genuine(t)) && (forall t :: t in live ==> Genuine(t))
      && (Agrees(w, ns) <==> Sorting.SameElements(cached, live))
  {
    assert Ok(w, ns);
    var tools := Mounted(w, ns).value.tools;
    var cached, live := w.current[ns].tools, NormalizeAll(tools);
    ValidatedFacts(tools);
    hide ValidateInventory, Inv, Ok, Policy;
    if Sorting.SameElements(cached, live) {
      HashForgetsOrder(cached, live);
    } else {
      Sorting.SortFacts(cached, NameOf);
      Sorting.SortFacts(live, NameOf);
    }
  }

  datatype ContractDiff = ContractDiff(
    available: bool, added: seq<string>, removed: seq<string>, changed: seq<string>, currentHash: Option<Digest>)

  /** The contract diff against the previous snapshot, from the cache or from the live runtime. */
  function DiffContracts(w: World, ns: string, mounted: bool): ContractDiff {
    var tools :=
      if mounted then (if Mounted(w, ns).Some? then NormalizeAll(Mounted(w, ns).value.tools) else [])
      else if ns in w.current then w.current[ns].tools
      else [];
    var present := if mounted then Mounted(w, ns).Some? else ns in w.current;
    var hash :=
      if mounted then (if tools == [] then None else Some(InventoryHash(tools)))
      else HashOf(w.current, ns);
    if present && ns in w.previous then
      var d := DiffToolsets(w.previous[ns].tools, tools);
      ContractDiff(true, d.added, d.removed, d.changed, hash)
    else ContractDiff(false, [], [], [], hash)
  }

  lemma SameListing(a: seq<string>, b: seq<string>, members: set<string>)
    requires Lists(a, members) && Lists(b, members)
    ensures a == b
  {
    Sorting.SortedUnique(a, b, Sorting.Identity);
  }

  lemma SameDiff(previous: seq<ToolSchema>, a: seq<ToolSchema>, b: seq<ToolSchema>)
    requires ByName(a) == ByName(b)
    ensures var d, e := DiffToolsets(previous, a), DiffToolsets(previous, b);
      d.added == e.added && d.removed == e.removed && d.changed == e.changed
  {
    DiffLists(previous, a);
    DiffLists(previous, b);
    var d, e := DiffToolsets(previous, a), DiffToolsets(previous, b);
    var before, after := ByName(previous), ByName(a);
    hide DiffToolsets, ByName, Lists;
    SameListing(d.added, e.added, after.Keys - before.Keys);
    SameListing(d.removed, e.removed, before.Keys - after.Keys);
    SameListing(d.changed, e.changed, Inventory.Changed(before, after));
  }

  /** While a runtime is up, the cached and the mounted diff are available alike.  If cache and
      runtime agree they name the same added, removed and changed tools.  The current hashes they
      report are the same if and only if, besides, the inventory is not empty, because an empty one
      is reported with no hash when it is mounted. */
  lemma CachedAndMountedDiffsAgree(w: World, ns: string)
    requires Inv(w) && Mounted(w, ns).Some?
    ensures var c, m := DiffContracts(w, ns, false), DiffContracts(w, ns, true);
      && c.available == m.available
      && (Agrees(w, ns) ==> c.added == m.added && c.removed == m.removed && c.changed == m.changed)
      && (c.currentHash == m.currentHash <==> Agrees(w, ns) && Mounted(w, ns).value.tools != [])
  {
    LiveFacts(w, ns);
    var tools := Mounted(w, ns).value.tools;
    assert NormalizeAll(tools) == [] <==> tools == [];
    if Agrees(w, ns) {
      SameElementsSameMap(w.current[ns].tools, NormalizeAll(tools));
      if ns in w.previous {
        SameDiff(w.previous[ns].tools, w.current[ns].tools, NormalizeAll(tools));
      }
    }
    hide Inv, InventoryHash, DiffToolsets, ByName;
  }

  /** Cache and runtime agree exactly when the diff between them is empty. */
  lemma AgreesIffNoDiff(w: World, ns: string)
    requires Inv(w) && Mounted(w, ns).Some?
    ensures ns in w.current
    ensures var d := DiffToolsets(w.current[ns].tools, NormalizeAll(Mounted(w, ns).value.tools));
      Agrees(w, ns) <==> d.added == d.removed == d.changed == []
  {
    LiveFacts(w, ns);
    HashIffNoDiff(w.current[ns].tools, NormalizeAll(Mounted(w, ns).value.tools));
    hide Inv, InventoryHash, DiffToolsets;
  }

  // ----- What a swap whose close raises leaves behind -----

  /** The operation fails over the new runtime: scopes, schemas and both caches are as they were, and
      the record says stale after a refresh and failed after an activation. */
  predicate FailedOverSwap(w: World, w': World, a: Action)
    requires a.DoActivate? || a.DoRefresh?
  {
    var ns := a.ns;
    && SwappedOnly(w, w', ns, a.o, a.c)
    && ns in w.records && ns in w'.records
    && var r, r' := w.records[ns], w'.records[ns];
    && SameScopes(r, r') && SameSchema(r, r') && r'.failed
    && if a.DoRefresh? then r'.stale && r'.transport == StaleTransport
       else r'.stale == r.stale && r'.transport == FailedTransport
  }

  lemma FailedRefreshOver(w: World, a: Action, audited: Option<Scope>)
    requires a.DoRefresh? && a.ns in w.records && w.records[a.ns].namespace == a.ns
    requires Open(a.o).Some? && Raises(w, a.ns, a.c)
    ensures var (w', b) := RefreshFresh(w, w.records[a.ns], audited, a.o, a.c);
      b == Failed && FailedOverSwap(w, w', a)
  {
    hide Open;
  }

  lemma FailedActivationOver(w: World, a: Action)
    requires a.DoActivate? && a.ns in w.records && w.records[a.ns].namespace == a.ns
    requires Open(a.o).Some? && Raises(w, a.ns, a.c)
    ensures var r := w.records[a.ns];
      var (w', b) := ActivateFresh(Put(w, r.(transport := Connecting)), r, a.scope, a.o, a.c);
      b == Failed && FailedOverSwap(w, w', a)
  {
    hide Open;
  }

  /** A refresh or an activation that gets as far as the swap fails over the new runtime whenever the
      close raises. */
  lemma RaisingSwapFails(w: World, a: Action)
    requires Inv(w) && (a.DoActivate? || a.DoRefresh?) && Touches(ChangeOf(w, a), a.ns) && Raises(w, a.ns, a.c)
    ensures Open(a.o).Some? && Perform(w, a).1 == Failed && FailedOverSwap(w, Perform(w, a).0, a)
  {
    BootOpens(w, a);
    hide FailedOverSwap, RefreshFresh, ActivateFresh, Open, AuditScope, Mounted;
    assert Ok(w, a.ns) && a.ns in w.records;
    NamedSo(w, a.ns);
    hide Inv, Ok;
    if a.DoRefresh? {
      FailedRefreshOver(w, a, AuditScope(w.records[a.ns].loaded, a.onlyScope));
    } else {
      FailedActivationOver(w, a);
    }
  }

  /** Clearing staleness never ends a disagreement, and hides it: the toolset is connected and in no
      trouble, and its record still has the hash the runtime does not have. */
  lemma ClearStaleHidesIt(w: World, ns: string)
    requires Inv(w) && !Agrees(w, ns)
    ensures var w' := Perform(w, DoClearStale(ns)).0;
      && !Agrees(w', ns) && ns in w.records && ns in w'.records && !Troubled(w'.records[ns])
      && w'.records[ns].schemaHash == w.records[ns].schemaHash
      && (Troubled(w.records[ns]) ==> w'.records[ns].transport == Connected)
  {
    StepAgrees(w, DoClearStale(ns), ns);
    assert !Touches(ChangeOf(w, DoClearStale(ns)), ns);
    assert Ok(w, ns) && ns in w.records;
    Known(w, ns);
    ClearStaleEffect(w, ns);
    assert Perform(w, DoClearStale(ns)) == ClearStaleToolset(w, ns);
    hide Inv, Ok, Sound, Policy, Local, Perform, ClearStaleToolset, InventoryHash, Troubled;
  }

  // ----- Concrete runs -----

  lemma OpenNoTools()
    ensures Open(Listed([])) == Some(([], []))
  {}

  /** The default toolset, activated in a fresh process, agrees with its runtime. */
  lemma LoadedDefaultAgrees(tools: seq<Tool>)
    requires Open(Listed(tools)).Some?
    ensures var w := Run([DoActivate(FAKE, Thread, false, Listed(tools), Quiet)]);
      && Inv(w) && FAKE in w.records && w.records[FAKE].loaded == [Thread]
      && Mounted(w, FAKE) == Some(Runtime(tools, true, 0)) && Agrees(w, FAKE)
  {
    var a := DoActivate(FAKE, Thread, false, Listed(tools), Quiet);
    LoadedDefault(tools);
    ReachableInv([a]);
    AgreesUnlessTorn([a], FAKE);
    assert [a][..0] == [];
    assert !Torn([], FAKE) && !Tears(Run([]), a);
    hide Run, Inv, Open, ChangeOf, Agrees;
  }

  /** An empty mounted contract is reported without a hash, though its cached snapshot has one. */
  lemma EmptyContractHasNoMountedHash()
    ensures var w := Run([DoActivate(FAKE, Thread, false, Listed([]), Quiet)]);
      DiffContracts(w, FAKE, false).currentHash.Some? && DiffContracts(w, FAKE, true).currentHash.None?
  {
    OpenNoTools();
    LoadedDefaultAgrees([]);
    hide Run, Inv;
  }

  const TORN_BY_REFRESH := [
    DoActivate(FAKE, Thread, false, Listed(ONE_TOOL), Quiet),
    DoRefresh(FAKE, false, None, Listed([]), Raising)]

  lemma DifferentHashes()
    ensures InventoryHash([]) != InventoryHash(NormalizeAll(ONE_TOOL))
  {
    Sorting.SortFacts(NormalizeAll(ONE_TOOL), NameOf);
    Sorting.SortFacts<ToolSchema>([], NameOf);
  }

  /** It does happen: activate the default toolset, and refresh it over a runtime whose close raises.
      The runtime has no tools now, while record and snapshot still describe one. */
  lemma RefreshTearsDefault()
    ensures var w := Run(TORN_BY_REFRESH);
      && Inv(w) && FAKE in w.records && w.records[FAKE].loaded == [Thread] && w.records[FAKE].stale
      && w.records[FAKE].namespace == FAKE
      && Mounted(w, FAKE) == Some(Runtime([], true, 1)) && !Agrees(w, FAKE)
      && w.records[FAKE].schemaHash == Some(InventoryHash(NormalizeAll(ONE_TOOL)))
  {
    OpenOneTool();
    LoadedDefaultAgrees(ONE_TOOL);
    RunSnoc(TORN_BY_REFRESH[..1], TORN_BY_REFRESH[1]);
    assert TORN_BY_REFRESH[..1] == [TORN_BY_REFRESH[0]];
    assert TORN_BY_REFRESH[..1] + [TORN_BY_REFRESH[1]] == TORN_BY_REFRESH;
    ReachableInv(TORN_BY_REFRESH);
    var w := Run(TORN_BY_REFRESH[..1]);
    hide Run, Inv, Open, Agrees, Perform;
    LoadedDefaultSwaps();
    RefreshTears(w);
    NamedSo(Run(TORN_BY_REFRESH), FAKE) by {
      InvOk(Run(TORN_BY_REFRESH), FAKE);
    }
  }

  lemma InvOk(w: World, ns: string)
    requires Inv(w)
    ensures Ok(w, ns)
  {}

  lemma LoadedDefaultSwaps()
    ensures Run(TORN_BY_REFRESH[..1]).swaps == 1
  {
    OpenOneTool();
    LoadedDefault(ONE_TOOL);
    assert TORN_BY_REFRESH[..1] == [TORN_BY_REFRESH[0]];
  }

  lemma RefreshTears(w: World)
    requires Inv(w) && FAKE in w.records && w.records[FAKE].loaded == [Thread] && w.swaps == 1
    requires Mounted(w, FAKE) == Some(Runtime(ONE_TOOL, true, 0)) && Agrees(w, FAKE)
    ensures var w' := Perform(w, TORN_BY_REFRESH[1]).0;
      && FAKE in w'.records && w'.records[FAKE].loaded == [Thread] && w'.records[FAKE].stale
      && Mounted(w', FAKE) == Some(Runtime([], true, 1)) && !Agrees(w', FAKE)
      && w'.records[FAKE].schemaHash == Some(InventoryHash(NormalizeAll(ONE_TOOL)))
  {
    var a := TORN_BY_REFRESH[1];
    OpenNoTools();
    DifferentHashes();
    Known(w, FAKE) by {
      InvOk(w, FAKE);
    }
    hide Inv, Perform, InventoryHash, Open;
    assert ChangeOf(w, a) == Opens(FAKE, []);
    RaisingSwapFails(w, a);
    StepAgrees(w, a, FAKE);
  }

  /** There, clearing staleness reports the toolset connected, still with the old hash. */
  lemma ClearedWhileTorn()
    ensures var w := Run(TORN_BY_REFRESH + [DoClearStale(FAKE)]);
      && !Agrees(w, FAKE) && FAKE in w.records
      && !Troubled(w.records[FAKE]) && w.records[FAKE].transport == Connected
      && w.records[FAKE].schemaHash == Some(InventoryHash(NormalizeAll(ONE_TOOL)))
  {
    RefreshTearsDefault();
    RunSnoc(TORN_BY_REFRESH, DoClearStale(FAKE));
    var w := Run(TORN_BY_REFRESH);
    hide Run, Inv, Perform, Agrees, InventoryHash;
    ClearStaleHidesIt(w, FAKE);
  }
}
