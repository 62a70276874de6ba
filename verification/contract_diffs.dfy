/** What a contract diff says, told by tool names and hashes alone. */
module ContractDiffs {
  import opened Prelude
  import opened Inventory
  import opened Scopes
  import opened Lifecycle
  import opened LifecycleInvariants
  import opened LifecycleTheorems
  import opened LifecycleResults
  import opened LifecycleInstances
  import opened LifecycleAgreement
  import opened LifecycleLaws

  function Names(ts: seq<ToolSchema>): set<string> {
    set t | t in ts :: t.name
  }

  /** The names that stand for tools with different hashes before and after. */
  function Altered(before: seq<ToolSchema>, after: seq<ToolSchema>): set<string> {
    set t, u | t in before && u in after && t.name == u.name && t.toolHash != u.toolHash :: t.name
  }

  lemma NamesAreKeys(ts: seq<ToolSchema>)
    ensures Names(ts) == ByName(ts).Keys
  {
    KeysFacts(ts);
  }

  lemma AlteredAreChanged(before: seq<ToolSchema>, after: seq<ToolSchema>)
    requires DistinctTools(before) && DistinctTools(after)
    ensures Altered(before, after) == Inventory.Changed(ByName(before), ByName(after))
  {
    KeysFacts(before);
    KeysFacts(after);
    ByNameDistinct(before);
    ByNameDistinct(after);
    hide ByName, KeysOf, DistinctTools, DistinctNames;
    forall x | x in Inventory.Changed(ByName(before), ByName(after))
      ensures x in Altered(before, after)
    {
      var t, u := ByName(before)[x], ByName(after)[x];
      assert t in before && u in after && t.name == u.name == x;
    }
  }

  /** The tools a diff is made for: those of the snapshot, or those the running runtime lists. */
  function Source(w: World, ns: string, mounted: bool): Option<seq<ToolSchema>> {
    if mounted then
      match Mounted(w, ns)
      case None => None
      case Some(runtime) => Some(NormalizeAll(runtime.tools))
    else if ns in w.current then Some(w.current[ns].tools)
    else None
  }

  lemma SourcesAreDistinct(w: World, ns: string, mounted: bool)
    requires Inv(w)
    ensures Source(w, ns, mounted).Some? ==> DistinctTools(Source(w, ns, mounted).value)
    ensures ns in w.previous ==> DistinctTools(w.previous[ns].tools)
    ensures ns in w.current ==> w.current[ns].hash == InventoryHash(w.current[ns].tools)
  {
    assert Ok(w, ns);
    if Mounted(w, ns).Some? {
      ValidatedFacts(Mounted(w, ns).value.tools);
    }
    hide Policy, InventoryHash, ValidateInventory, Recovery;
  }

  /** There is a diff exactly if a previous snapshot is cached and the source has an inventory.  It
      adds exactly the names the source has and the previous snapshot has not, removes exactly those
      of the other difference, and changes exactly those in both with another hash; each list is
      sorted and names nothing twice. */
  lemma DiffGoesForward(w: World, ns: string, mounted: bool)
    requires Inv(w)
    ensures var d := DiffContracts(w, ns, mounted);
      var source := Source(w, ns, mounted);
      && (d.available <==> ns in w.previous && source.Some?)
      && (!d.available ==> d.added == d.removed == d.changed == [])
      && (d.available ==>
            var before, after := w.previous[ns].tools, source.value;
            && Lists(d.added, Names(after) - Names(before))
            && Lists(d.removed, Names(before) - Names(after))
            && Lists(d.changed, Altered(before, after)))
  {
    SourcesAreDistinct(w, ns, mounted);
    var source := Source(w, ns, mounted);
    if ns in w.previous && source.Some? {
      var before, after := w.previous[ns].tools, source.value;
      DiffLists(before, after);
      NamesAreKeys(before);
      NamesAreKeys(after);
      AlteredAreChanged(before, after);
    }
    hide Inv, Lists, Names, Altered, Inventory.Changed, ByName, DiffToolsets, InventoryHash, DistinctTools, Mounted;
  }

  /** The hash that is reported is that of the source's inventory, and there is one exactly if the
      source has an inventory; an empty mounted one is reported with no hash. */
  lemma DiffHash(w: World, ns: string, mounted: bool)
    requires Inv(w)
    ensures var hash, source := DiffContracts(w, ns, mounted).currentHash, Source(w, ns, mounted);
      && (hash.Some? <==> source.Some? && (mounted ==> source.value != []))
      && (hash.Some? ==> hash.value == InventoryHash(source.value))
  {
    SourcesAreDistinct(w, ns, mounted);
    hide Inv, DiffToolsets, InventoryHash, DistinctTools, Mounted;
  }

  // ----- A tool is added -----

  const BEFORE := [Tool("a", None, None, "{}", None)]
  const AFTER := [Tool("a", None, None, "{}", None), Tool("b", None, None, "{}", None)]

  const GAINS_A_TOOL := [
    DoActivate(FAKE, Thread, false, Listed(BEFORE), Quiet),
    DoRefresh(FAKE, false, None, Listed(AFTER), Quiet)]

  /** The default toolset, activated over one tool and refreshed over two: whichever source is asked,
      the diff says that the second tool was added and nothing else happened. */
  lemma GainsATool(mounted: bool)
    ensures var d := DiffContracts(Run(GAINS_A_TOOL), FAKE, mounted);
      d.available && d.added == ["b"] && d.removed == [] && d.changed == []
  {
    var w1 := Run([GAINS_A_TOOL[0]]);
    var w2 := Run(GAINS_A_TOOL);
    BothComeUp();
    LoadedDefaultAgrees(BEFORE);
    LiveFacts(w1, FAKE);
    assert [GAINS_A_TOOL[0]] + [GAINS_A_TOOL[1]] == GAINS_A_TOOL;
    RunSnoc([GAINS_A_TOOL[0]], GAINS_A_TOOL[1]);
    ReachableInv(GAINS_A_TOOL);
    hide Run, Inv, Open, Agrees, Perform, DiffContracts;
    RefreshShiftsDefault(w1);
    DiffGoesForward(w2, FAKE, mounted);
    var before, after := w2.previous[FAKE].tools, Source(w2, FAKE, mounted).value;
    OneAdded(before, after);
    var d := DiffContracts(w2, FAKE, mounted);
    hide Names, Altered;
    OneNameEach();
    SameListing(d.added, ["b"], {"b"});
    EmptyListing(d.removed, {});
    EmptyListing(d.changed, {});
  }

  lemma BothComeUp()
    ensures Open(Listed(BEFORE)).Some?
    ensures Open(Listed(AFTER)) == Some((AFTER, Sorting.SortBy(NormalizeAll(AFTER), NameOf)))
  {
    assert AFTER[0].name[0] == 'a' && AFTER[1].name[0] == 'b';
    assert !HasDuplicate(AFTER);
  }

  /** The refresh over the activated default toolset. */
  lemma RefreshShiftsDefault(w: World)
    requires Inv(w) && FAKE in w.records && w.records[FAKE].loaded == [Thread] && Mounted(w, FAKE).Some?
    requires FAKE in w.current && Sorting.SameElements(w.current[FAKE].tools, NormalizeAll(BEFORE))
    ensures var w' := Perform(w, GAINS_A_TOOL[1]).0;
      && FAKE in w'.previous && Sorting.SameElements(w'.previous[FAKE].tools, NormalizeAll(BEFORE))
      && (forall mounted ::
            && Source(w', FAKE, mounted).Some?
            && Sorting.SameElements(Source(w', FAKE, mounted).value, NormalizeAll(AFTER)))
  {
    BothComeUp();
    Sorting.SortFacts(NormalizeAll(AFTER), NameOf);
    RefreshedDefault(w);
    hide Inv, Open, Perform, Mounted, InventoryHash, Troubled, NormalizeAll, Sorting.SortBy, Sorting.SameElements;
  }

  lemma RefreshedDefault(w: World)
    requires Inv(w) && FAKE in w.records && w.records[FAKE].loaded == [Thread] && Mounted(w, FAKE).Some?
    ensures Open(Listed(AFTER)).Some?
    ensures var w' := Perform(w, GAINS_A_TOOL[1]).0;
      && Shifted(w, w', FAKE, SnapshotOf(FAKE, Open(Listed(AFTER)).value.1))
      && Mounted(w', FAKE) == Some(Runtime(AFTER, true, w.swaps))
  {
    BothComeUp();
    RefreshSucceeds(w);
    hide Inv, Mounted, Shifted, Still, SwappedOnly, Open, Perform, SnapshotOf;
    SchemasShiftOnce(w, GAINS_A_TOOL[1]);
  }

  lemma RefreshSucceeds(w: World)
    requires Inv(w) && FAKE in w.records && w.records[FAKE].loaded == [Thread]
    ensures var (w', b) := Perform(w, GAINS_A_TOOL[1]);
      b == Done && Mounted(w', FAKE) == Some(Runtime(AFTER, true, w.swaps))
  {
    BothComeUp();
    InvOk(w, FAKE);
    hide Inv, Ok, Mounted, Open, RefreshToolset, Perform, SameScopes, SameFlags, Marred, OnlyStored;
    RefreshStep(w, GAINS_A_TOOL[1]);
    RefreshEffect(w, FAKE, false, None, Listed(AFTER), Quiet);
  }

  lemma RefreshStep(w: World, a: Action)
    requires a.DoRefresh?
    ensures Perform(w, a) == RefreshToolset(w, a.ns, a.ifStale, a.onlyScope, a.o, a.c)
  {}

  lemma OneAdded(before: seq<ToolSchema>, after: seq<ToolSchema>)
    requires Sorting.SameElements(before, NormalizeAll(BEFORE))
    requires Sorting.SameElements(after, NormalizeAll(AFTER))
    ensures Names(after) - Names(before) == {"b"} && Names(before) - Names(after) == {}
    ensures Altered(before, after) == {}
  {
    var a, b := Normalize(AFTER[0]), Normalize(AFTER[1]);
    assert a.name == "a" && b.name == "b" && "a"[0] != "b"[0];
    assert NormalizeAll(BEFORE) == [a] && NormalizeAll(AFTER) == [a, b];
    assert a in before && a in after && b in after;
    assert forall t :: t in before ==> t == a;
    assert forall t :: t in after ==> t == a || t == b;
    assert Names(before) == {"a"};
    assert Names(after) == {"a", "b"};
  }

  lemma OneNameEach()
    ensures Lists(["b"], {"b"})
  {}
}
