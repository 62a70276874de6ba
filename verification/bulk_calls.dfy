/** Which toolsets the calls over many of them work on: those they are given, or else the default
    ones, and what the defaults leave out. */
module BulkCalls {
  import opened Prelude
  import opened Scopes
  import opened Lifecycle
  import opened LifecycleInvariants
  import opened LifecycleTheorems
  import opened LifecycleEffects
  import opened LifecycleInstances
  import opened LifecycleLaws
  import opened BulkOperations

  /** Step k of a call that activates, deactivates or unregisters does so for the k-th namespace, with
      what the call was given and what the k-th bootstrap or close will come to. */
  lemma ScopedStepsWork(namespaces: seq<string>, scope: Scope, flag: bool, openings: nat -> Opening,
        closings: nat -> Closing)
    ensures var steps := Activations(namespaces, scope, flag, openings, closings);
      && WorksOn(steps, namespaces)
      && forall k :: 0 <= k < |steps| ==> steps[k] == DoActivate(namespaces[k], scope, flag, openings(k), closings(k))
    ensures var steps := Deactivations(namespaces, scope, flag, closings);
      && WorksOn(steps, namespaces)
      && forall k :: 0 <= k < |steps| ==> steps[k] == DoDeactivate(namespaces[k], scope, flag, closings(k))
    ensures var steps := Unregistrations(namespaces, flag, closings);
      && WorksOn(steps, namespaces)
      && forall k :: 0 <= k < |steps| ==> steps[k] == DoUnregister(namespaces[k], flag, closings(k))
  {}

  /** So does step k of a call that refreshes, restores, checks or clears. */
  lemma UpkeepStepsWork(namespaces: seq<string>, only: Option<Scope>, flag: bool, startup: bool,
        openings: nat -> Opening, probes: nat -> Probe, closings: nat -> Closing)
    ensures var steps := Refreshes(namespaces, flag, only, openings, closings);
      && WorksOn(steps, namespaces)
      && forall k :: 0 <= k < |steps| ==> steps[k] == DoRefresh(namespaces[k], flag, only, openings(k), closings(k))
    ensures var steps := Restorations(namespaces, flag, startup, openings);
      && WorksOn(steps, namespaces)
      && forall k :: 0 <= k < |steps| ==> steps[k] == DoRestore(namespaces[k], flag, startup, openings(k))
    ensures var steps := HealthChecks(namespaces, only, probes, closings);
      && WorksOn(steps, namespaces)
      && forall k :: 0 <= k < |steps| ==> steps[k] == DoHealth(namespaces[k], only, probes(k), closings(k))
    ensures var steps := Clearings(namespaces);
      && WorksOn(steps, namespaces)
      && forall k :: 0 <= k < |steps| ==> steps[k] == DoClearStale(namespaces[k])
  {}

  predicate IsChosen(records: seq<Record>, d: Default, ns: string) {
    exists i :: 0 <= i < |records| && records[i].namespace == ns && Chosen(records[i], d)
  }

  /** A list that is given is used as it is.  An empty one stands for the namespaces of the chosen
      records, in the order of the store. */
  lemma CandidatesAre(namespaces: seq<string>, records: seq<Record>, d: Default)
    ensures namespaces != [] ==> Candidates(namespaces, records, d) == namespaces
    ensures forall ns :: ns in Candidates([], records, d) <==> IsChosen(records, d, ns)
    ensures forall more: seq<Record> ::
      Candidates([], records + more, d) == Candidates([], records, d) + Candidates([], more, d)
    ensures forall r :: Candidates([], [r], d) == if Chosen(r, d) then [r.namespace] else []
  {
    forall ns
      ensures ns in Namespaces(records, d) <==> IsChosen(records, d, ns)
    {
      ChosenAreListed(records, d, ns);
    }
    forall more: seq<Record>
      ensures Namespaces(records + more, d) == Namespaces(records, d) + Namespaces(more, d)
    {
      ListedInOrder(records, more, d);
    }
    forall r: Record
      ensures Namespaces([r], d) == if Chosen(r, d) then [r.namespace] else []
    {
      assert [r][1..] == [];
    }
    hide IsChosen, Chosen, Namespaces;
  }

  lemma {:induction false} ChosenAreListed(records: seq<Record>, d: Default, ns: string)
    ensures ns in Namespaces(records, d) <==> IsChosen(records, d, ns)
  {
    if records != [] {
      ChosenAreListed(records[1..], d, ns);
      if i :| 0 <= i < |records| && records[i].namespace == ns && Chosen(records[i], d) {
        assert i > 0 ==> records[1..][i - 1] == records[i];
      }
      if i :| 0 <= i < |records[1..]| && records[1..][i].namespace == ns && Chosen(records[1..][i], d) {
        assert records[i + 1] == records[1..][i];
      }
      hide Chosen;
    }
  }

  lemma {:induction false} ListedInOrder(records: seq<Record>, more: seq<Record>, d: Default)
    ensures Namespaces(records + more, d) == Namespaces(records, d) + Namespaces(more, d)
  {
    if records == [] {
      assert records + more == more;
    } else {
      assert (records + more)[1..] == records[1..] + more;
      ListedInOrder(records[1..], more, d);
    }
  }

  /** Which records are the default ones. */
  lemma ChosenIff(r: Record)
    ensures Chosen(r, Every)
    ensures Chosen(r, Recoverable) <==> exists s :: s in r.recoverable
    ensures Chosen(r, Loaded) <==> exists s :: s in r.loaded
    ensures Chosen(r, Stale) <==> r.stale || (r.health.status.Some? && r.health.status != Some(Healthy))
  {
    assert r.recoverable != [] ==> r.recoverable[0] in r.recoverable;
    assert r.loaded != [] ==> r.loaded[0] in r.loaded;
    var status := r.health.status;
    assert status.Some? ==> status.value.Healthy? || status.value.StaleHealth? || status.value.FailedHealth?;
  }

  /** What the defaults of a restore and of a health check leave out would be skipped anyway, so no
      toolset is missed. */
  lemma DefaultsMissNothing(w: World, ns: string, stableIdentity: bool, startup: bool, scope: Option<Scope>,
        o: Opening, p: Probe, c: Closing)
    requires Ok(w, ns) && ns in w.records
    ensures !Chosen(w.records[ns], Recoverable) ==> RestoreToolset(w, ns, stableIdentity, startup, o) == (w, Skipped)
    ensures !Chosen(w.records[ns], Loaded) ==> CheckHealth(w, ns, scope, p, c) == (w, Skipped)
  {
    RestoreEffect(w, ns, stableIdentity, startup, o);
    HealthRecord(w, ns, scope, p, c);
    hide Ok, RestoreToolset, CheckHealth, Recovers, Marred, OnlyStored, Recorded;
  }

  /** The default of a clearing call does miss some: a toolset is left out although clearing would
      change it exactly if it is neither stale nor unhealthy and yet an error is noted on it. */
  lemma ClearingMissesIff(w: World, ns: string)
    requires Ok(w, ns) && ns in w.records
    ensures var r := w.records[ns];
      !Chosen(r, Stale) && ClearStaleToolset(w, ns).1 == Done <==>
        && !r.stale && (r.health.status.None? || r.health.status == Some(Healthy))
        && (r.failed || r.health.error.Some?)
  {
    ClearedRecord(w, ns);
    ChosenIff(w.records[ns]);
    hide Ok, ClearStaleToolset, OnlyStored, SameScopes, SameSchema, SameFlags;
  }

  /** Such as the default toolset when its activation fails: clearing it by name works, and clearing
      whatever needs it leaves it out. */
  lemma FailedActivationIsMissed()
    ensures var w := Run([DoActivate(FAKE, Thread, false, Broken, Quiet)]);
      && FAKE in w.records && w.records[FAKE].failed && w.records[FAKE].transport == FailedTransport
      && !Chosen(w.records[FAKE], Stale) && Perform(w, DoClearStale(FAKE)).1 == Done
  {
    var a := DoActivate(FAKE, Thread, false, Broken, Quiet);
    var w0 := Run([]);
    assert [a][..0] == [];
    FreshDefault();
    FreshDefaultIsWell();
    ReachableInv([]);
    ReachableInv([a]);
    assert Ok(w0, FAKE) && Ok(Run([a]), FAKE);
    ActivateStep(w0, a);
    assert Run([a]) == Perform(w0, a).0;
    hide Run, Perform, Inv, Ok;
    FailsToActivate(w0);
    ClearingMissesIff(Run([a]), FAKE);
    ClearingStep(Run([a]), FAKE);
  }

  lemma ClearingStep(w: World, ns: string)
    ensures Perform(w, DoClearStale(ns)) == ClearStaleToolset(w, ns)
  {}

  lemma FreshDefaultIsWell()
    ensures var w := Run([]);
      FAKE in w.records && !w.records[FAKE].stale && w.records[FAKE].health == NO_HEALTH
  {}

  lemma FailsToActivate(w: World)
    requires Ok(w, FAKE) && FAKE in w.records && Thread in w.records[FAKE].supported && w.records[FAKE].loaded == []
    requires !w.records[FAKE].stale && w.records[FAKE].health == NO_HEALTH
    ensures var w' := ActivateToolset(w, FAKE, Thread, false, Broken, Quiet).0;
      && FAKE in w'.records && var r := w'.records[FAKE];
      && r.failed && r.transport == FailedTransport && !r.stale && r.health == NO_HEALTH
  {
    ActivationRecord(w, FAKE, Thread, false, Broken, Quiet);
    ActivateEffect(w, FAKE, Thread, false, Broken, Quiet);
    Known(w, FAKE);
    hide Ok, ActivateToolset, Sound, Policy, Local, Loads, TakenOver, OnlyStored;
  }
}
