/** One service call works through a list of namespaces, one lock-protected step at a time, while
    anything else may happen between its steps. */
module BulkOperations {
  import opened Prelude
  import opened Scopes
  import opened Registry
  import opened Lifecycle
  import opened LifecycleInvariants
  import opened LifecycleTheorems
  import opened LifecycleInstances

  // ----- The three lists a call answers with -----

  datatype Report = Report(done: seq<string>, skipped: seq<string>, failed: seq<string>)

  datatype Column = DoneList | SkippedList | FailedList

  /** A forced unregistration that disconnects a runtime is listed in two columns; a step that raises
      is listed nowhere. */
  predicate InColumn(b: Bucket, c: Column) {
    match c
    case DoneList => b == Done || b == DoneAndSkipped
    case SkippedList => b == Skipped || b == DoneAndSkipped
    case FailedList => b == Failed
  }

  /** The namespaces listed in a column, in order. */
  function Those(namespaces: seq<string>, buckets: seq<Bucket>, c: Column): seq<string>
    requires |namespaces| == |buckets|
  {
    if namespaces == [] then []
    else
      var n := |namespaces| - 1;
      var rest := Those(namespaces[..n], buckets[..n], c);
      if InColumn(buckets[n], c) then rest + [namespaces[n]] else rest
  }

  function Sorted(namespaces: seq<string>, buckets: seq<Bucket>): Report
    requires |namespaces| == |buckets|
  {
    Report(Those(namespaces, buckets, DoneList), Those(namespaces, buckets, SkippedList),
      Those(namespaces, buckets, FailedList))
  }

  /** The namespaces that are listed twice. */
  function Twice(namespaces: seq<string>, buckets: seq<Bucket>): seq<string>
    requires |namespaces| == |buckets|
  {
    if namespaces == [] then []
    else
      var n := |namespaces| - 1;
      var rest := Twice(namespaces[..n], buckets[..n]);
      if buckets[n] == DoneAndSkipped then rest + [namespaces[n]] else rest
  }

  lemma ThoseSnoc(namespaces: seq<string>, buckets: seq<Bucket>, b: Bucket, c: Column)
    requires |namespaces| == |buckets| + 1
    ensures Those(namespaces, buckets + [b], c) ==
      var rest := Those(namespaces[..|buckets|], buckets, c);
      if InColumn(b, c) then rest + [namespaces[|buckets|]] else rest
  {
    assert (buckets + [b])[..|buckets|] == buckets;
  }

  lemma SortedSnoc(namespaces: seq<string>, buckets: seq<Bucket>, b: Bucket)
    requires |namespaces| == |buckets| + 1
    ensures var n := |buckets|;
      var before := Sorted(namespaces[..n], buckets);
      var x := [namespaces[n]];
      Sorted(namespaces, buckets + [b]) ==
        match b
        case Done => before.(done := before.done + x)
        case DoneAndSkipped => before.(done := before.done + x, skipped := before.skipped + x)
        case Skipped => before.(skipped := before.skipped + x)
        case Failed => before.(failed := before.failed + x)
        case _ => before
  {
    ThoseSnoc(namespaces, buckets, b, DoneList);
    ThoseSnoc(namespaces, buckets, b, SkippedList);
    ThoseSnoc(namespaces, buckets, b, FailedList);
    hide Those;
  }

  /** Adding x to one list keeps the account, and so does adding it to two and counting it twice. */
  lemma Deal(d: multiset<string>, s: multiset<string>, f: multiset<string>, all: multiset<string>,
        twice: multiset<string>, x: multiset<string>)
    requires d + s + f == all + twice
    ensures (d + x) + s + f == (all + x) + twice
    ensures d + (s + x) + f == (all + x) + twice
    ensures d + s + (f + x) == (all + x) + twice
    ensures (d + x) + (s + x) + f == (all + x) + (twice + x)
  {
    assert (d + x) + s + f == (d + s + f) + x;
    assert (all + x) + twice == (all + twice) + x;
    assert (d + x) + (s + x) + f == (d + s + f) + x + x;
    assert (all + x) + (twice + x) == (all + twice) + x + x;
  }

  /** Each listed namespace is in exactly one column, and those of Twice in one more. */
  lemma {:induction false} ThosePartition(namespaces: seq<string>, buckets: seq<Bucket>)
    requires |namespaces| == |buckets| && Fault !in buckets && Raised !in buckets
    ensures var out := Sorted(namespaces, buckets);
      multiset(out.done) + multiset(out.skipped) + multiset(out.failed) ==
        multiset(namespaces) + multiset(Twice(namespaces, buckets))
  {
    if namespaces != [] {
      var n := |namespaces| - 1;
      var before, upto, b := namespaces[..n], buckets[..n], buckets[n];
      ThosePartition(before, upto);
      assert namespaces == before + [namespaces[n]] && buckets == upto + [b];
      SortedSnoc(namespaces, upto, b);
      var out := Sorted(before, upto);
      var twice := Twice(before, upto);
      assert Twice(namespaces, buckets) == if b == DoneAndSkipped then twice + [namespaces[n]] else twice;
      hide Sorted, Twice;
      var x := [namespaces[n]];
      Deal(multiset(out.done), multiset(out.skipped), multiset(out.failed), multiset(before), multiset(twice),
        multiset(x));
      assert b in buckets;
    }
  }

  /** An exception out of a step ends the call there. */
  predicate Ended(buckets: seq<Bucket>) {
    buckets != [] && buckets[|buckets| - 1] == Raised
  }

  /** What the caller gets: the three lists, or an exception. */
  function Reply(namespaces: seq<string>, buckets: seq<Bucket>): Option<Report>
    requires Ended(buckets) || |namespaces| == |buckets|
  {
    if Ended(buckets) then None else Some(Sorted(namespaces, buckets))
  }

  // ----- When a namespace is listed twice -----

  predicate Bucketed(a: Action) {
    || a.DoActivate? || a.DoRefresh? || a.DoRestore? || a.DoDeactivate? || a.DoHealth? || a.DoClearStale?
    || a.DoUnregister?
  }

  lemma SortedOne(ns: string, b: Bucket)
    ensures Sorted([ns], [b]) ==
      match b
      case Done => Report([ns], [], [])
      case DoneAndSkipped => Report([ns], [ns], [])
      case Skipped => Report([], [ns], [])
      case Failed => Report([], [], [ns])
      case _ => Report([], [], [])
  {
    SortedSnoc([ns], [], b);
    assert [ns][..0] == [] && [] + [b] == [b] && [] + [ns] == [ns];
  }

  /** What an unregistration answers, in full: a registered toolset with something loaded is listed
      both as unregistered and as skipped exactly when force is set, no call is in flight and closing
      its runtime does not raise; if it does raise, there is no answer; in every other case the
      namespace is in exactly one list. */
  lemma UnregisterReport(w: World, ns: string, force: bool, c: Closing)
    ensures var out := Reply([ns], [UnregisterToolset(w, ns, force, c).1]);
      var loaded := ns in w.records && w.records[ns].loaded != [];
      var forced := loaded && force && InFlight(w, ns) == 0;
      && (forced && Raises(w, ns, c) ==> out == None)
      && (forced && !Raises(w, ns, c) ==> out == Some(Report([ns], [ns], [])))
      && (ns in w.records && !loaded ==> out == Some(Report([ns], [], [])))
      && (ns !in w.records || (loaded && !forced) ==> out == Some(Report([], [], [ns])))
  {
    SortedOne(ns, UnregisterToolset(w, ns, force, c).1);
    hide Sorted, InFlight, Log, Forget, Disconnect, Raises;
  }

  predicate ListedTwice(out: Report, ns: string) {
    |out.done| + |out.skipped| + |out.failed| == 2 && ns in out.done && ns in out.skipped
  }

  predicate ListedOnce(out: Report, ns: string) {
    |out.done| + |out.skipped| + |out.failed| == 1 && (ns in out.done || ns in out.skipped || ns in out.failed)
  }

  /** So an unregistration lists a namespace twice if and only if it is registered with a scope
      loaded, force is set, no call is in flight and the close does not raise; with the same guard
      and a close that raises it answers nothing; otherwise it lists the namespace once. */
  lemma UnregisterListsTwiceIff(w: World, ns: string, force: bool, c: Closing)
    ensures var out := Reply([ns], [UnregisterToolset(w, ns, force, c).1]);
      var forced := ns in w.records && w.records[ns].loaded != [] && force && InFlight(w, ns) == 0;
      && (out.None? <==> forced && Raises(w, ns, c))
      && (out.Some? ==>
            && (ListedTwice(out.value, ns) <==> forced)
            && (ListedTwice(out.value, ns) || ListedOnce(out.value, ns)))
  {
    UnregisterReport(w, ns, force, c);
    hide Sorted, UnregisterToolset, InFlight, Reply, Raises;
  }

  /** The default toolset, activated in a fresh process and unregistered by force, is such a case. */
  lemma LoadedDefaultListedTwice()
    ensures var w := Run([DoActivate(FAKE, Thread, false, Listed(ONE_TOOL), Quiet)]);
      Reply([FAKE], [Perform(w, DoUnregister(FAKE, true, Quiet)).1]) == Some(Report([FAKE], [FAKE], []))
  {
    OpenOneTool();
    LoadedDefault(ONE_TOOL);
    var w := Run([DoActivate(FAKE, Thread, false, Listed(ONE_TOOL), Quiet)]);
    hide Run;
    UnregisterReport(w, FAKE, true, Quiet);
    assert Perform(w, DoUnregister(FAKE, true, Quiet)).1 == UnregisterToolset(w, FAKE, true, Quiet).1;
    hide Sorted, UnregisterToolset, Reply;
  }

  /** No other call ever lists a namespace twice. */
  lemma OthersListOnce(w: World, a: Action)
    requires Bucketed(a) && !a.DoUnregister?
    ensures Perform(w, a).1 != DoneAndSkipped
  {
    hide Open, Mounted, InFlight, Inventory.ValidateInventory, RecoveryScopes, Lifecycle.Missing, Unhealthy, Probed;
    hide Put, Log, Raises,
      Installed, AddScope, AddRecoverable, AddScopes, RemoveScope, RemoveRecoverable, Troubled, AuditScope;
  }

  // ----- When a step raises -----

  /** A step raises exactly if it disconnects a running runtime whose close raises, unless it is a
      probe that expired, which has aborted the runtime first. */
  lemma RaisesIff(w: World, a: Action)
    requires Inv(w) && Bucketed(a)
    ensures Perform(w, a).1 == Raised <==>
      && (a.DoDeactivate? || a.DoUnregister? || a.DoHealth?)
      && ChangeOf(w, a) == Drops(a.ns) && Raises(w, a.ns, a.c)
      && (a.DoHealth? ==> a.p != ProbeExpired)
  {
    assert Ok(w, Target(a));
    hide Inv, Ok, ActivateToolset, RefreshToolset, RestoreToolset, ClearStaleToolset, UnregisterToolset,
      DeactivateToolset, CheckHealth, Raises, ChangeOf;
    match a
    case DoActivate(ns, scope, ifNotLoaded, o, c) => ActivateBucket(w, ns, scope, ifNotLoaded, o, c);
    case DoRefresh(ns, ifStale, scope, o, c) => RefreshBucket(w, ns, ifStale, scope, o, c);
    case DoRestore(ns, identity, startup, o) => RestoreBucket(w, ns, identity, startup, o);
    case DoDeactivate(ns, scope, force, c) => DeactivationRaisesIff(w, ns, scope, force, c);
    case DoHealth(ns, scope, p, c) => CheckRaisesIff(w, ns, scope, p, c);
    case DoClearStale(ns) => ClearStaleBucket(w, ns);
    case DoUnregister(ns, force, c) => UnregistrationRaisesIff(w, ns, force, c);
  }

  lemma DeactivationRaisesIff(w: World, ns: string, scope: Scope, force: bool, c: Closing)
    requires Ok(w, ns)
    ensures DeactivateToolset(w, ns, scope, force, c).1 == Raised <==>
      ChangeOf(w, DoDeactivate(ns, scope, force, c)) == Drops(ns) && Raises(w, ns, c)
  {
    hide Ok, Sound, Local, Policy, InFlight, RemoveScope, RemoveRecoverable, Raises;
    if ns in w.records {
      Known(w, ns);
      var r := w.records[ns];
      Unloaded(r, scope);
      PolicyOrders(r);
      OnlyThat(r.loaded, scope);
      hide Without;
    }
  }

  lemma UnregistrationRaisesIff(w: World, ns: string, force: bool, c: Closing)
    ensures UnregisterToolset(w, ns, force, c).1 == Raised <==>
      ChangeOf(w, DoUnregister(ns, force, c)) == Drops(ns) && Raises(w, ns, c)
  {
    hide InFlight, Raises, Log, Forget, Disconnect;
  }

  lemma CheckRaisesIff(w: World, ns: string, scope: Option<Scope>, p: Probe, c: Closing)
    requires Ok(w, ns)
    ensures CheckHealth(w, ns, scope, p, c).1 == Raised <==>
      ChangeOf(w, DoHealth(ns, scope, p, c)) == Drops(ns) && Raises(w, ns, c) && p != ProbeExpired
  {
    hide Ok, Inventory.ValidateInventory, Unhealthy, Probed, Mounted, Log;
    if ns in w.records {
      NamedSo(w, ns);
    }
  }

  // ----- The steps of a call -----

  /** The steps of a call with nothing in between, up to the first that raises, and the bucket each
      namespace lands in. */
  function PerformAll(w: World, steps: seq<Action>): (r: (World, seq<Bucket>))
    ensures if Ended(r.1) then |r.1| <= |steps| else |r.1| == |steps|
  {
    if steps == [] then (w, [])
    else
      var n := |steps| - 1;
      var (w1, buckets) := PerformAll(w, steps[..n]);
      if Ended(buckets) then (w1, buckets)
      else
        var (w2, b) := Perform(w1, steps[n]);
        (w2, buckets + [b])
  }

  function Handled(w: World, namespaces: seq<string>, steps: seq<Action>): (World, Option<Report>)
    requires |namespaces| == |steps|
  {
    var (w', buckets) := PerformAll(w, steps);
    (w', Reply(namespaces, buckets))
  }

  lemma PerformSnoc(w: World, steps: seq<Action>, i: nat)
    requires i < |steps|
    ensures var (w1, buckets) := PerformAll(w, steps[..i]);
      var (w2, b) := Perform(w1, steps[i]);
      PerformAll(w, steps[..i + 1]) == if Ended(buckets) then (w1, buckets) else (w2, buckets + [b])
  {
    hide Perform;
    assert steps[..i + 1][..i] == steps[..i];
  }

  lemma {:induction false} EndedStays(w: World, steps: seq<Action>, i: nat)
    requires i <= |steps| && Ended(PerformAll(w, steps[..i]).1)
    ensures PerformAll(w, steps) == PerformAll(w, steps[..i])
    decreases |steps|
  {
    hide Perform;
    if i < |steps| {
      var n := |steps| - 1;
      assert steps[..n][..i] == steps[..i];
      EndedStays(w, steps[..n], i);
    } else {
      assert steps[..i] == steps;
    }
  }

  /** What other tasks do meanwhile. */
  function RunOn(w: World, actions: seq<Action>): World {
    if actions == [] then w
    else
      var n := |actions| - 1;
      Perform(RunOn(w, actions[..n]), actions[n]).0
  }

  /** The same steps, with the actions others[k] of other tasks before step k: the world they
      lead to, the buckets, and the audit events the call itself appended. */
  function PerformAmong(w: World, others: seq<seq<Action>>, steps: seq<Action>): (r: (World, seq<Bucket>, seq<Event>))
    requires |others| == |steps|
    ensures if Ended(r.1) then |r.1| <= |steps| else |r.1| == |steps|
  {
    if steps == [] then (w, [], [])
    else
      var n := |steps| - 1;
      var (w1, buckets, events) := PerformAmong(w, others[..n], steps[..n]);
      if Ended(buckets) then (w1, buckets, events)
      else
        var w2 := RunOn(w1, others[n]);
        var (w3, b) := Perform(w2, steps[n]);
        (w3, buckets + [b], events + Appended(w2, w3))
  }

  function Appended(w: World, w': World): seq<Event> {
    if |w.history| <= |w'.history| then w'.history[|w.history|..] else []
  }

  // ----- The audit events of a call -----

  function OperationOf(a: Action): Operation
    requires Bucketed(a)
  {
    match a
    case DoActivate(_, _, _, _, _) => Activate
    case DoRefresh(_, _, _, _, _) => Refresh
    case DoRestore(_, _, _, _) => Restore
    case DoDeactivate(_, _, _, _) => Deactivate
    case DoHealth(_, _, _, _) => HealthCheck
    case DoClearStale(_) => ClearStale
    case DoUnregister(_, _, _) => Unregister
  }

  /** Success exactly if the step is done, and for a health check exactly if the toolset is healthy. */
  function VerdictOf(w': World, a: Action, b: Bucket): Registry.Verdict {
    if a.DoHealth? then Concluded(w', a.ns) else Judged(b)
  }

  /** The scope the event names: the one asked for, or the only one loaded. */
  function ScopeOf(w: World, w': World, a: Action, b: Bucket): Option<Scope>
    requires Bucketed(a)
  {
    match a
    case DoActivate(_, scope, _, _, _) => Some(scope)
    case DoDeactivate(_, scope, _, _) => Some(scope)
    case DoRefresh(ns, _, scope, _, _) => Audited(w, ns, scope)
    case DoHealth(ns, scope, _, _) => Audited(w, ns, scope)
    case DoRestore(ns, _, _, _) => if b == Done then Audited(w', ns, None) else None
    case _ => None
  }

  /** A namespace worked on by one call leaves no event if it is skipped or its step raises, and
      otherwise exactly one: of the call's own operation, about itself, with the verdict and the
      scope its outcome calls for. */
  lemma StepEvents(w: World, a: Action)
    requires Inv(w) && Bucketed(a)
    ensures var (w', b) := Perform(w, a);
      Logs(w, w', b, OperationOf(a), VerdictOf(w', a, b), Target(a), ScopeOf(w, w', a, b))
  {
    assert Ok(w, Target(a));
    hide Inv, Ok, Logs, ActivateToolset, RefreshToolset, RestoreToolset,
      DeactivateToolset, CheckHealth, ClearStaleToolset, UnregisterToolset, Audited, Judged, Concluded;
    match a
    case DoActivate(ns, scope, ifNotLoaded, o, c) => ActivateBucket(w, ns, scope, ifNotLoaded, o, c);
    case DoRefresh(ns, ifStale, scope, o, c) => RefreshBucket(w, ns, ifStale, scope, o, c);
    case DoRestore(ns, identity, startup, o) => RestoreBucket(w, ns, identity, startup, o);
    case DoDeactivate(ns, scope, force, c) => DeactivateBucket(w, ns, scope, force, c);
    case DoHealth(ns, scope, p, c) => HealthBucket(w, ns, scope, p, c);
    case DoClearStale(ns) => ClearStaleBucket(w, ns);
    case DoUnregister(ns, force, c) => UnregisterBucket(w, ns, force, c);
  }

  /** What an event is about. */
  datatype Subject = Subject(operation: Operation, namespace: Option<string>)

  function Subjects(events: seq<Event>): (r: seq<Subject>)
    ensures |r| == |events|
    ensures forall k :: 0 <= k < |r| ==> r[k] == Subject(events[k].operation, events[k].namespace)
  {
    seq(|events|, k requires 0 <= k < |events| => Subject(events[k].operation, events[k].namespace))
  }

  /** What a step is to leave in the log. */
  function Trail(a: Action, b: Bucket): seq<Subject>
    requires Bucketed(a)
  {
    if b == Skipped || b == Raised then [] else [Subject(OperationOf(a), Some(Target(a)))]
  }

  /** What the steps that came to these buckets are to leave in the log, in order. */
  function Logged(steps: seq<Action>, buckets: seq<Bucket>): seq<Subject>
    requires |steps| == |buckets| && forall k :: 0 <= k < |steps| ==> Bucketed(steps[k])
  {
    if steps == [] then []
    else
      var n := |steps| - 1;
      Logged(steps[..n], buckets[..n]) + Trail(steps[n], buckets[n])
  }

  lemma StepAppends(w: World, a: Action)
    requires Inv(w) && Bucketed(a)
    ensures var (w', b) := Perform(w, a);
      && b != Fault
      && w'.history == w.history + Appended(w, w')
      && Subjects(Appended(w, w')) == Trail(a, b)
  {
    StepEvents(w, a);
    hide Inv, Perform, Bucketed, Target, VerdictOf, ScopeOf, OperationOf;
  }

  lemma {:induction false} RunOnKeeps(w: World, actions: seq<Action>)
    requires Inv(w)
    ensures Inv(RunOn(w, actions))
  {
    hide Inv, Perform;
    if actions != [] {
      var n := |actions| - 1;
      RunOnKeeps(w, actions[..n]);
      PerformKeeps(RunOn(w, actions[..n]), actions[n]);
    }
  }

  lemma {:induction false} AmongKeeps(w: World, others: seq<seq<Action>>, steps: seq<Action>)
    requires Inv(w) && |others| == |steps|
    ensures var (w', buckets, events) := PerformAmong(w, others, steps);
      Inv(w') && Fault !in buckets && (Raised in buckets ==> Ended(buckets))
    decreases |steps|
  {
    hide Inv, Perform, RunOn, Appended;
    if steps != [] {
      var n := |steps| - 1;
      AmongKeeps(w, others[..n], steps[..n]);
      var w1 := PerformAmong(w, others[..n], steps[..n]).0;
      RunOnKeeps(w1, others[n]);
      PerformKeeps(RunOn(w1, others[n]), steps[n]);
    }
  }

  lemma SubjectsAppend(a: seq<Event>, b: seq<Event>)
    ensures Subjects(a + b) == Subjects(a) + Subjects(b)
  {}

  /** The steps work on the listed namespaces. */
  predicate WorksOn(steps: seq<Action>, namespaces: seq<string>) {
    && |steps| == |namespaces|
    && forall k :: 0 <= k < |steps| ==> Bucketed(steps[k]) && Target(steps[k]) == namespaces[k]
  }

  lemma {:induction false} AmongEvents(w: World, others: seq<seq<Action>>, steps: seq<Action>)
    requires Inv(w) && |others| == |steps| && forall k :: 0 <= k < |steps| ==> Bucketed(steps[k])
    ensures var (w', buckets, events) := PerformAmong(w, others, steps);
      Subjects(events) == Logged(steps[..|buckets|], buckets)
    decreases |steps|
  {
    hide Inv, Perform, RunOn, Bucketed, Target, Trail;
    if steps != [] {
      var n := |steps| - 1;
      AmongEvents(w, others[..n], steps[..n]);
      var (w1, buckets, events) := PerformAmong(w, others[..n], steps[..n]);
      assert steps[..n][..|buckets|] == steps[..|buckets|];
      if !Ended(buckets) {
        AmongKeeps(w, others[..n], steps[..n]);
        RunOnKeeps(w1, others[n]);
        var w2 := RunOn(w1, others[n]);
        var (w3, b) := Perform(w2, steps[n]);
        StepAppends(w2, steps[n]);
        SubjectsAppend(events, Appended(w2, w3));
        assert PerformAmong(w, others, steps) == (w3, buckets + [b], events + Appended(w2, w3));
        LoggedSnoc(steps, buckets, b);
      }
      hide PerformAmong, Subjects, Appended, Logged;
    }
  }

  lemma LoggedSnoc(steps: seq<Action>, buckets: seq<Bucket>, b: Bucket)
    requires |steps| == |buckets| + 1 && forall k :: 0 <= k < |steps| ==> Bucketed(steps[k])
    ensures var n := |buckets|;
      Logged(steps[..n + 1], buckets + [b]) == Logged(steps[..n], buckets) + Trail(steps[n], b)
  {
    hide Trail, Bucketed;
    assert (buckets + [b])[..|buckets|] == buckets && steps[..|buckets| + 1] == steps;
  }

  lemma ReplyPartition(namespaces: seq<string>, buckets: seq<Bucket>)
    requires Ended(buckets) || |namespaces| == |buckets|
    requires Fault !in buckets && (Raised in buckets ==> Ended(buckets))
    requires Ended(buckets) ==> Raised !in buckets[..|buckets| - 1]
    ensures var out := Reply(namespaces, buckets);
      && (out.None? <==> Raised in buckets)
      && (out.None? ==> buckets[|buckets| - 1] == Raised && Raised !in buckets[..|buckets| - 1])
      && (out.Some? ==>
            && |buckets| == |namespaces|
            && multiset(out.value.done) + multiset(out.value.skipped) + multiset(out.value.failed) ==
                 multiset(namespaces) + multiset(Twice(namespaces, buckets)))
  {
    hide Sorted, Twice;
    if !Ended(buckets) {
      ThosePartition(namespaces, buckets);
    }
  }

  /** However a call is interleaved with others: it runs to the first step that raises, and answers
      exactly if there is none; then every listed namespace is in exactly one of done, skipped and
      failed, except that a forced unregistration may list it twice.  In either case the audit
      events of the call are about exactly the namespaces that were worked on and neither skipped
      nor raised, in order. */
  lemma BulkAccounting(w: World, others: seq<seq<Action>>, steps: seq<Action>, namespaces: seq<string>)
    requires Inv(w) && |others| == |steps| && WorksOn(steps, namespaces)
    ensures var (w', buckets, events) := PerformAmong(w, others, steps);
      var out := Reply(namespaces, buckets);
      && Inv(w')
      && (out.None? <==> Raised in buckets)
      && (out.None? ==> buckets[|buckets| - 1] == Raised && Raised !in buckets[..|buckets| - 1])
      && (out.Some? ==>
            && |buckets| == |namespaces|
            && multiset(out.value.done) + multiset(out.value.skipped) + multiset(out.value.failed) ==
                 multiset(namespaces) + multiset(Twice(namespaces, buckets)))
      && Subjects(events) == Logged(steps[..|buckets|], buckets)
  {
    assert |steps| == |namespaces| && forall k :: 0 <= k < |steps| ==> Bucketed(steps[k]);
    hide *;
    AmongKeeps(w, others, steps);
    AmongEvents(w, others, steps);
    RaisedLast(w, others, steps);
    ReplyPartition(namespaces, PerformAmong(w, others, steps).1);
  }

  lemma {:induction false} RaisedLast(w: World, others: seq<seq<Action>>, steps: seq<Action>)
    requires |others| == |steps|
    ensures var buckets := PerformAmong(w, others, steps).1;
      if Ended(buckets) then Raised !in buckets[..|buckets| - 1] else Raised !in buckets
    decreases |steps|
  {
    hide Perform, RunOn, Appended;
    if steps != [] {
      var n := |steps| - 1;
      RaisedLast(w, others[..n], steps[..n]);
    }
  }

  /** Calls that activate, refresh, restore or clear always answer. */
  lemma {:induction false} OthersAnswer(w: World, others: seq<seq<Action>>, steps: seq<Action>)
    requires Inv(w) && |others| == |steps|
    requires forall k :: 0 <= k < |steps| ==>
      steps[k].DoActivate? || steps[k].DoRefresh? || steps[k].DoRestore? || steps[k].DoClearStale?
    ensures !Ended(PerformAmong(w, others, steps).1)
    decreases |steps|
  {
    hide Inv, Perform, RunOn, Appended;
    if steps != [] {
      var n := |steps| - 1;
      OthersAnswer(w, others[..n], steps[..n]);
      AmongKeeps(w, others[..n], steps[..n]);
      var w1 := PerformAmong(w, others[..n], steps[..n]).0;
      RunOnKeeps(w1, others[n]);
      RaisesIff(RunOn(w1, others[n]), steps[n]);
    }
  }

  /** A call that unregisters nothing lists nothing twice. */
  lemma {:induction false} NothingTwice(w: World, others: seq<seq<Action>>, steps: seq<Action>, namespaces: seq<string>)
    requires |others| == |steps| && WorksOn(steps, namespaces)
    requires forall k :: 0 <= k < |steps| ==> !steps[k].DoUnregister?
    ensures var buckets := PerformAmong(w, others, steps).1;
      DoneAndSkipped !in buckets && (!Ended(buckets) ==> Twice(namespaces, buckets) == [])
    decreases |steps|
  {
    hide Perform, RunOn, Bucketed, Target, Appended;
    if steps != [] {
      var n := |steps| - 1;
      NothingTwice(w, others[..n], steps[..n], namespaces[..n]);
      var (w1, buckets, events) := PerformAmong(w, others[..n], steps[..n]);
      if !Ended(buckets) {
        var b := Perform(RunOn(w1, others[n]), steps[n]).1;
        OthersListOnce(RunOn(w1, others[n]), steps[n]);
        assert (buckets + [b])[..n] == buckets;
        assert PerformAmong(w, others, steps).1 == buckets + [b];
      }
      hide PerformAmong;
    }
  }

  function NoOthers(n: nat): (r: seq<seq<Action>>)
    ensures |r| == n && forall k :: 0 <= k < n ==> r[k] == []
  {
    seq(n, k => [])
  }

  /** With nothing in between, that is the call as it stands, and its events are all there are. */
  lemma {:induction false} Undisturbed(w: World, steps: seq<Action>, namespaces: seq<string>)
    requires Inv(w) && WorksOn(steps, namespaces)
    ensures var (w', buckets, events) := PerformAmong(w, NoOthers(|steps|), steps);
      && PerformAll(w, steps) == (w', buckets)
      && w'.history == w.history + events
    decreases |steps|
  {
    hide Inv, Perform, Bucketed, Target;
    if steps != [] {
      var n := |steps| - 1;
      Undisturbed(w, steps[..n], namespaces[..n]);
      assert NoOthers(|steps|)[..n] == NoOthers(n) && NoOthers(|steps|)[n] == [];
      AmongKeeps(w, NoOthers(n), steps[..n]);
      var (w1, buckets, events) := PerformAmong(w, NoOthers(n), steps[..n]);
      if !Ended(buckets) {
        assert RunOn(w1, []) == w1;
        StepAppends(w1, steps[n]);
        var w2 := Perform(w1, steps[n]).0;
        assert w.history + events + Appended(w1, w2) == w.history + (events + Appended(w1, w2));
      }
      hide Appended;
    }
  }

  /** A call with an invalid scope only leaves an event about no namespace. */
  lemma InvalidScopeKeeps(w: World, op: Operation)
    requires Inv(w)
    ensures Inv(Log(w, op, Failure, None, None))
  {
    hide Consistent;
    var e := Event(|w.history| + 1, op, Failure, None, None);
    forall ns
      ensures Ok(Log(w, op, Failure, None, None), ns)
    {
      assert Ok(w, ns);
      forall s {
        LatestAppend(w.history, e, ns, s);
      }
    }
    forall ns
      ensures InFlight(Log(w, op, Failure, None, None), ns) == |CallsOf(w.calls, ns)|
    {
      assert InFlight(w, ns) == |CallsOf(w.calls, ns)|;
    }
  }

  /** What each call does with its namespaces; openings(k) is what the k-th bootstrap will meet, and
      closings(k) what closing the k-th runtime will come to. */
  function Activations(namespaces: seq<string>, scope: Scope, ifNotLoaded: bool,
        openings: nat -> Opening, closings: nat -> Closing): seq<Action> {
    seq(|namespaces|, k requires 0 <= k < |namespaces| =>
      DoActivate(namespaces[k], scope, ifNotLoaded, openings(k), closings(k)))
  }

  function Deactivations(namespaces: seq<string>, scope: Scope, force: bool, closings: nat -> Closing): seq<Action> {
    seq(|namespaces|, k requires 0 <= k < |namespaces| => DoDeactivate(namespaces[k], scope, force, closings(k)))
  }

  function Refreshes(namespaces: seq<string>, ifStale: bool, scope: Option<Scope>,
        openings: nat -> Opening, closings: nat -> Closing): seq<Action> {
    seq(|namespaces|, k requires 0 <= k < |namespaces| =>
      DoRefresh(namespaces[k], ifStale, scope, openings(k), closings(k)))
  }

  function Restorations(namespaces: seq<string>, stableIdentity: bool, startup: bool,
        openings: nat -> Opening): seq<Action> {
    seq(|namespaces|, k requires 0 <= k < |namespaces| =>
      DoRestore(namespaces[k], stableIdentity, startup, openings(k)))
  }

  function Unregistrations(namespaces: seq<string>, force: bool, closings: nat -> Closing): seq<Action> {
    seq(|namespaces|, k requires 0 <= k < |namespaces| => DoUnregister(namespaces[k], force, closings(k)))
  }

  function HealthChecks(namespaces: seq<string>, scope: Option<Scope>, probes: nat -> Probe,
        closings: nat -> Closing): seq<Action> {
    seq(|namespaces|, k requires 0 <= k < |namespaces| => DoHealth(namespaces[k], scope, probes(k), closings(k)))
  }

  function Clearings(namespaces: seq<string>): seq<Action> {
    seq(|namespaces|, k requires 0 <= k < |namespaces| => DoClearStale(namespaces[k]))
  }

  /** Which toolsets a call takes when it is given none. */
  datatype Default = Every | Recoverable | Loaded | Stale

  predicate Chosen(r: Record, d: Default) {
    match d
    case Every => true
    case Recoverable => r.recoverable != []
    case Loaded => r.loaded != []
    case Stale => r.stale || r.health.status == Some(StaleHealth) || r.health.status == Some(FailedHealth)
  }

  function Namespaces(records: seq<Record>, d: Default): seq<string> {
    if records == [] then []
    else (if Chosen(records[0], d) then [records[0].namespace] else []) + Namespaces(records[1..], d)
  }

  /** `namespaces or [...]`: an empty list stands for the default ones. */
  function Candidates(namespaces: seq<string>, records: seq<Record>, d: Default): seq<string> {
    if namespaces != [] then namespaces else Namespaces(records, d)
  }
}
