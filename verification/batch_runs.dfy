/** A batch of tool calls, each of which may use the results of earlier ones. */
module BatchRuns {
  import opened Prelude
  import opened BatchReferences

  datatype Step = Step(id: string, tool: string, arguments: seq<Field>)

  datatype Query = IsMounted(tool: string) | Call(tool: string, arguments: seq<Field>)

  datatype Reply = Returned(structured: Option<Json>, text: Option<string>, isError: bool) | Raised

  /** What the batch meets: an arbitrary function of everything it has asked so far. */
  datatype Host = Host(
    mounted: (seq<Query>, string) -> bool,
    call: (seq<Query>, string, seq<Field>) -> Reply,
    parse: string -> Option<Json>)

  function Rejected(step: Step, fault: Fault): StepResult {
    StepResult(step.id, step.tool, Null, None, true, Some(fault))
  }

  /** Structured content, or else the text read as JSON, or else the text. */
  function Normalized(host: Host, structured: Option<Json>, text: Option<string>): Json {
    if structured.Some? then structured.value
    else if text.None? then Null
    else if host.parse(text.value).Some? then host.parse(text.value).value
    else Str(text.value)
  }

  function RunStep(host: Host, asked: seq<Query>, step: Step, results: Results): (StepResult, seq<Query>) {
    var arguments := ResolveValue(Obj(step.arguments), results);
    if arguments.Err? then (Rejected(step, arguments.fault), asked)
    else if !arguments.value.Obj? then (Rejected(step, NotAnObject), asked)
    else
      var asked1 := asked + [IsMounted(step.tool)];
      if !host.mounted(asked, step.tool) then (Rejected(step, UnknownTool), asked1)
      else
        var fields := arguments.value.fields;
        var asked2 := asked1 + [Call(step.tool, fields)];
        match host.call(asked1, step.tool, fields)
        case Raised => (Rejected(step, CallRaised), asked2)
        case Returned(structured, text, isError) =>
          (StepResult(step.id, step.tool, Normalized(host, structured, text), text, isError, None), asked2)
  }

  /** The results by step id; a later result would replace an earlier one. */
  function ById(results: seq<StepResult>): Results {
    if results == [] then map[]
    else
      var n := |results| - 1;
      ById(results[..n])[results[n].id := results[n]]
  }

  datatype Progress = Progress(results: seq<StepResult>, asked: seq<Query>, stopped: bool)

  function StepOn(host: Host, p: Progress, step: Step, continueOnError: bool): Progress {
    if p.stopped then p
    else
      var (r, asked) := RunStep(host, p.asked, step, ById(p.results));
      Progress(p.results + [r], asked, r.isError && !continueOnError)
  }

  function RunSteps(host: Host, steps: seq<Step>, continueOnError: bool): Progress {
    if steps == [] then Progress([], [], false)
    else
      var n := |steps| - 1;
      StepOn(host, RunSteps(host, steps[..n], continueOnError), steps[n], continueOnError)
  }

  datatype BatchError = NoSteps | DuplicateId(id: string) | StepFailed(id: string)

  datatype BatchRun = BatchRun(
    success: bool, error: Option<BatchError>, stepCount: nat, completed: nat, stopped: bool,
    finalStep: Option<string>, final: Option<StepResult>, results: seq<StepResult>)

  function Ids(steps: seq<Step>): set<string> {
    set k | 0 <= k < |steps| :: steps[k].id
  }

  function FirstRepeat(steps: seq<Step>): Option<string> {
    if steps == [] then None
    else
      var n := |steps| - 1;
      var earlier := FirstRepeat(steps[..n]);
      if earlier.Some? then earlier
      else if steps[n].id in Ids(steps[..n]) then Some(steps[n].id)
      else None
  }

  predicate DistinctIds(steps: seq<Step>) {
    forall i, j :: 0 <= i < j < |steps| ==> steps[i].id != steps[j].id
  }

  function FirstError(results: seq<StepResult>): Option<StepResult> {
    if results == [] then None
    else if results[0].isError then Some(results[0])
    else FirstError(results[1..])
  }

  function Selected(results: seq<StepResult>, finalStep: Option<string>): string
    requires results != []
  {
    if finalStep.Some? && finalStep.value != "" then finalStep.value else results[|results| - 1].id
  }

  function Concluded(steps: seq<Step>, p: Progress, finalStep: Option<string>): BatchRun
    requires p.results != []
  {
    var selected := Selected(p.results, finalStep);
    var first := FirstError(p.results);
    BatchRun(
      first.None?,
      if first.Some? then Some(StepFailed(first.value.id)) else None,
      |steps|, |p.results|, p.stopped, Some(selected),
      if selected != "" && selected in ById(p.results) then Some(ById(p.results)[selected]) else None,
      p.results)
  }

  function RunBatch(host: Host, steps: seq<Step>, finalStep: Option<string>, continueOnError: bool): (BatchRun,
        seq<Query>) {
    if steps == [] then (BatchRun(false, Some(NoSteps), 0, 0, false, None, None, []), [])
    else if FirstRepeat(steps).Some? then
      (BatchRun(false, Some(DuplicateId(FirstRepeat(steps).value)), |steps|, 0, false, None, None, []), [])
    else
      RunsSomething(host, steps, continueOnError);
      var p := RunSteps(host, steps, continueOnError);
      (Concluded(steps, p, finalStep), p.asked)
  }

  lemma {:induction false} RunsSomething(host: Host, steps: seq<Step>, continueOnError: bool)
    requires steps != []
    ensures RunSteps(host, steps, continueOnError).results != []
  {
    hide RunStep;
    if |steps| > 1 {
      RunsSomething(host, steps[..|steps| - 1], continueOnError);
    }
  }

  /** Step j is the first whose id an earlier step has. */
  predicate RepeatsFirst(steps: seq<Step>, j: int) {
    0 <= j < |steps| && DistinctIds(steps[..j]) && exists i :: 0 <= i < j && steps[i].id == steps[j].id
  }

  lemma {:induction false} RepeatFacts(steps: seq<Step>)
    ensures FirstRepeat(steps).None? <==> DistinctIds(steps)
    ensures FirstRepeat(steps).Some? ==> exists j :: RepeatsFirst(steps, j) && steps[j].id == FirstRepeat(steps).value
  {
    if steps != [] {
      var n := |steps| - 1;
      RepeatFacts(steps[..n]);
      if !DistinctIds(steps) && DistinctIds(steps[..n]) {
        var i, j :| 0 <= i < j < |steps| && steps[i].id == steps[j].id;
        assert j == n && steps[..n][i].id == steps[n].id;
      }
      if FirstRepeat(steps[..n]).Some? {
        var j :| RepeatsFirst(steps[..n], j) && steps[..n][j].id == FirstRepeat(steps).value;
        assert steps[..n][..j] == steps[..j];
        assert RepeatsFirst(steps, j);
      } else if FirstRepeat(steps).Some? {
        assert RepeatsFirst(steps, n);
      }
    }
  }

  /** The loop that keeps the ids seen so far. */
  method RepeatedId(steps: seq<Step>) returns (r: Option<string>)
    ensures r == FirstRepeat(steps)
  {
    var seen := {};
    var i := 0;
    while i < |steps|
      invariant 0 <= i <= |steps|
      invariant seen == Ids(steps[..i]) && FirstRepeat(steps[..i]).None?
    {
      assert steps[..i + 1][..i] == steps[..i];
      if steps[i].id in seen {
        RepeatStays(steps, i + 1);
        return Some(steps[i].id);
      }
      assert Ids(steps[..i + 1]) == Ids(steps[..i]) + {steps[i].id};
      seen := seen + {steps[i].id};
      i := i + 1;
    }
    assert steps[..i] == steps;
    r := None;
  }

  lemma {:induction false} RepeatStays(steps: seq<Step>, i: nat)
    requires i <= |steps| && FirstRepeat(steps[..i]).Some?
    ensures FirstRepeat(steps) == FirstRepeat(steps[..i])
  {
    if i < |steps| {
      var n := |steps| - 1;
      assert steps[..n][..i] == steps[..i];
      RepeatStays(steps[..n], i);
    } else {
      assert steps[..i] == steps;
    }
  }

  /** The batch as the service runs it: validate the ids, then the steps in order over a dictionary
      of results, stopping at the first error unless told to continue. */
  method RunToolBatch(host: Host, steps: seq<Step>, finalStep: Option<string>, continueOnError: bool)
      returns (run: BatchRun, asked: seq<Query>)
    ensures (run, asked) == RunBatch(host, steps, finalStep, continueOnError)
  {
    asked := [];
    if steps == [] {
      return BatchRun(false, Some(NoSteps), 0, 0, false, None, None, []), asked;
    }
    var repeated := RepeatedId(steps);
    if repeated.Some? {
      return BatchRun(false, Some(DuplicateId(repeated.value)), |steps|, 0, false, None, None, []), asked;
    }
    var results, resultsById, stopped;
    results, resultsById, asked, stopped := RunInOrder(host, steps, continueOnError);
    RunsSomething(host, steps, continueOnError);
    hide RunSteps, ById;
    var selected := if finalStep.Some? && finalStep.value != "" then finalStep.value else results[|results| - 1].id;
    var firstError := FindError(results);
    run := BatchRun(
      firstError.None?,
      if firstError.Some? then Some(StepFailed(firstError.value.id)) else None,
      |steps|, |results|, stopped, Some(selected),
      if selected != "" && selected in resultsById then Some(resultsById[selected]) else None,
      results);
  }

  method RunInOrder(host: Host, steps: seq<Step>, continueOnError: bool)
      returns (results: seq<StepResult>, resultsById: Results, asked: seq<Query>, stopped: bool)
    ensures Progress(results, asked, stopped) == RunSteps(host, steps, continueOnError)
    ensures resultsById == ById(results)
  {
    results, resultsById, asked, stopped := [], map[], [], false;
    var i := 0;
    while i < |steps| && !stopped
      invariant 0 <= i <= |steps|
      invariant RunSteps(host, steps[..i], continueOnError) == Progress(results, asked, stopped)
      invariant resultsById == ById(results)
    {
      RunSnoc(host, steps, i, continueOnError);
      var r: StepResult;
      r, asked := RunOneStep(host, asked, steps[i], resultsById);
      hide RunStep, RunSteps;
      AddResult(results, r);
      hide ById;
      results := results + [r];
      resultsById := resultsById[r.id := r];
      if r.isError && !continueOnError {
        stopped := true;
      }
      i := i + 1;
    }
    hide *;
    LaterStepsChangeNothing(host, steps, i, continueOnError);
    assert i == |steps| ==> steps[..i] == steps;
    StoppedShort(RunSteps(host, steps[..i], continueOnError), RunSteps(host, steps, continueOnError));
  }

  lemma StoppedShort(p: Progress, q: Progress)
    requires Extends(p, q)
    ensures p.stopped ==> q == p
  {}

  lemma RunSnoc(host: Host, steps: seq<Step>, i: nat, continueOnError: bool)
    requires i < |steps|
    ensures RunSteps(host, steps[..i + 1], continueOnError) ==
      StepOn(host, RunSteps(host, steps[..i], continueOnError), steps[i], continueOnError)
  {
    hide StepOn;
    assert steps[..i + 1][..i] == steps[..i];
  }

  lemma AddResult(results: seq<StepResult>, r: StepResult)
    ensures ById(results + [r]) == ById(results)[r.id := r]
  {
    assert (results + [r])[..|results|] == results;
  }

  method RunOneStep(host: Host, asked0: seq<Query>, step: Step, results: Results)
      returns (r: StepResult, asked: seq<Query>)
    ensures (r, asked) == RunStep(host, asked0, step, results)
  {
    asked := asked0;
    var arguments := ResolveValue(Obj(step.arguments), results);
    if arguments.Err? {
      return Rejected(step, arguments.fault), asked;
    }
    if !arguments.value.Obj? {
      return Rejected(step, NotAnObject), asked;
    }
    var known := host.mounted(asked, step.tool);
    asked := asked + [IsMounted(step.tool)];
    if !known {
      return Rejected(step, UnknownTool), asked;
    }
    var reply := host.call(asked, step.tool, arguments.value.fields);
    asked := asked + [Call(step.tool, arguments.value.fields)];
    if reply.Raised? {
      return Rejected(step, CallRaised), asked;
    }
    var data := Normalized(host, reply.structured, reply.text);
    r := StepResult(step.id, step.tool, data, reply.text, reply.isError, None);
  }

  method FindError(results: seq<StepResult>) returns (r: Option<StepResult>)
    ensures r == FirstError(results)
  {
    var i := 0;
    while i < |results|
      invariant 0 <= i <= |results| && FirstError(results[i..]) == FirstError(results)
    {
      assert results[i..][1..] == results[i + 1..];
      if results[i].isError {
        return Some(results[i]);
      }
      i := i + 1;
    }
    r := None;
  }

  // ----- What a batch promises -----

  predicate NoErrors(results: seq<StepResult>) {
    forall k :: 0 <= k < |results| ==> !results[k].isError
  }

  lemma StepOnFacts(host: Host, p: Progress, step: Step, continueOnError: bool)
    ensures var q := StepOn(host, p, step, continueOnError);
      var r := RunStep(host, p.asked, step, ById(p.results)).0;
      && p.asked <= q.asked
      && r.id == step.id && r.tool == step.tool
      && (p.stopped ==> q == p)
      && (!p.stopped ==> q.results == p.results + [r] && q.stopped == (r.isError && !continueOnError))
  {
    hide ResolveValue, Normalized, ById;
  }

  /** Results follow the step order; the run stops after the first error unless it is to continue,
      and covers every step if it did not stop. */
  ghost predicate Follows(p: Progress, steps: seq<Step>, continueOnError: bool) {
    && |p.results| <= |steps|
    && (forall k :: 0 <= k < |p.results| ==> p.results[k].id == steps[k].id && p.results[k].tool == steps[k].tool)
    && (p.stopped <==> !continueOnError && !NoErrors(p.results))
    && (p.stopped ==> p.results != [] && NoErrors(p.results[..|p.results| - 1]))
    && (!p.stopped ==> |p.results| == |steps|)
  }

  lemma FollowsSnoc(p: Progress, q: Progress, r: StepResult, steps: seq<Step>, continueOnError: bool)
    requires steps != [] && Follows(p, steps[..|steps| - 1], continueOnError) && !p.stopped
    requires q.results == p.results + [r] && q.stopped == (r.isError && !continueOnError)
    requires r.id == steps[|steps| - 1].id && r.tool == steps[|steps| - 1].tool
    ensures Follows(q, steps, continueOnError)
  {
    assert q.results[..|q.results| - 1] == p.results;
    assert q.results[|p.results|] == r;
    assert forall k :: 0 <= k < |p.results| ==> q.results[k] == p.results[k];
  }

  lemma {:induction false} ResultsFollowSteps(host: Host, steps: seq<Step>, continueOnError: bool)
    ensures Follows(RunSteps(host, steps, continueOnError), steps, continueOnError)
  {
    if steps != [] {
      var n := |steps| - 1;
      ResultsFollowSteps(host, steps[..n], continueOnError);
      var p := RunSteps(host, steps[..n], continueOnError);
      StepOnFacts(host, p, steps[n], continueOnError);
      hide StepOn, RunStep, NoErrors;
      if !p.stopped {
        var r := RunStep(host, p.asked, steps[n], ById(p.results)).0;
        FollowsSnoc(p, RunSteps(host, steps, continueOnError), r, steps, continueOnError);
      }
    }
  }

  /** q continues what p did. */
  ghost predicate Extends(p: Progress, q: Progress) {
    p.results <= q.results && p.asked <= q.asked && (p.stopped ==> q == p)
  }

  lemma ExtendsFurther(p: Progress, q: Progress, r: Progress)
    requires Extends(p, q) && Extends(q, r)
    ensures Extends(p, r)
  {}

  lemma StepExtends(host: Host, p: Progress, step: Step, continueOnError: bool)
    ensures Extends(p, StepOn(host, p, step, continueOnError))
  {
    StepOnFacts(host, p, step, continueOnError);
    hide StepOn, RunStep, ById;
  }

  /** A step never sees what comes after it: a longer batch begins as the shorter one does. */
  lemma {:induction false} LaterStepsChangeNothing(host: Host, steps: seq<Step>, i: nat, continueOnError: bool)
    requires i <= |steps|
    ensures Extends(RunSteps(host, steps[..i], continueOnError), RunSteps(host, steps, continueOnError))
    decreases |steps|
  {
    hide Extends, StepOn;
    if i < |steps| {
      var n := |steps| - 1;
      assert steps[..n][..i] == steps[..i];
      LaterStepsChangeNothing(host, steps[..n], i, continueOnError);
      var q := RunSteps(host, steps[..n], continueOnError);
      StepExtends(host, q, steps[n], continueOnError);
      assert RunSteps(host, steps, continueOnError) == StepOn(host, q, steps[n], continueOnError);
      hide RunSteps;
      ExtendsFurther(RunSteps(host, steps[..i], continueOnError), q, RunSteps(host, steps, continueOnError));
    } else {
      assert steps[..i] == steps;
      ExtendsItself(RunSteps(host, steps, continueOnError));
    }
  }

  lemma ExtendsItself(p: Progress)
    ensures Extends(p, p)
  {}

  lemma {:induction false} ByIdFacts(results: seq<StepResult>, steps: seq<Step>)
    requires |results| <= |steps| && DistinctIds(steps)
    requires forall k :: 0 <= k < |results| ==> results[k].id == steps[k].id
    ensures forall k :: 0 <= k < |results| ==>
      results[k].id in ById(results) && ById(results)[results[k].id] == results[k]
    ensures forall id :: id in ById(results) ==> exists k :: 0 <= k < |results| && results[k].id == id
  {
    if results != [] {
      var n := |results| - 1;
      ByIdFacts(results[..n], steps);
      assert results[n].id == steps[n].id;
      forall k | 0 <= k < n
        ensures results[k].id != results[n].id
        ensures results[k].id in ById(results[..n]) && ById(results[..n])[results[k].id] == results[k]
      {
        assert results[..n][k] == results[k] && results[k].id == steps[k].id;
      }
      forall id | id in ById(results)
        ensures exists k :: 0 <= k < |results| && results[k].id == id
      {
        if id != results[n].id {
          var k :| 0 <= k < |results[..n]| && results[..n][k].id == id;
          assert results[k].id == id;
        } else {
          assert results[n].id == id;
        }
      }
    }
  }

  /** Result i comes from step i run over the results of the steps before it, and over nothing
      else. */
  lemma ResultOfStep(host: Host, steps: seq<Step>, continueOnError: bool, i: nat)
    requires i < |steps| && i < |RunSteps(host, steps, continueOnError).results|
    ensures var p := RunSteps(host, steps[..i], continueOnError);
      var all := RunSteps(host, steps, continueOnError).results;
      p.results == all[..i] && all[i] == RunStep(host, p.asked, steps[i], ById(all[..i])).0
  {
    var p, q := RunSteps(host, steps[..i], continueOnError), RunSteps(host, steps[..i + 1], continueOnError);
    RunSnoc(host, steps, i, continueOnError);
    StepOnFacts(host, p, steps[i], continueOnError);
    LaterStepsChangeNothing(host, steps, i, continueOnError);
    LaterStepsChangeNothing(host, steps, i + 1, continueOnError);
    ResultsFollowSteps(host, steps[..i], continueOnError);
    hide *;
    var r := RunStep(host, p.asked, steps[i], ById(p.results)).0;
    PrefixResult(p, q, RunSteps(host, steps, continueOnError), steps[..i], r, continueOnError);
  }

  lemma PrefixResult(p: Progress, q: Progress, all: Progress, before: seq<Step>, r: StepResult, continueOnError: bool)
    requires Follows(p, before, continueOnError) && Extends(p, all) && Extends(q, all)
    requires !p.stopped ==> q.results == p.results + [r]
    requires |before| < |all.results|
    ensures p.results == all.results[..|before|] && all.results[|before|] == r
  {
    hide NoErrors;
    assert !p.stopped && |p.results| == |before|;
    assert q.results[|before|] == r;
  }

  /** A step that cites itself, a later step, an unknown one or a failed one fails: what a step is
      called with depends only on strictly earlier steps that succeeded. */
  lemma OnlyEarlierSuccesses(host: Host, steps: seq<Step>, continueOnError: bool, i: nat, id: string)
    requires DistinctIds(steps) && i < |steps| && i < |RunSteps(host, steps, continueOnError).results|
    requires Cites(References(Obj(steps[i].arguments)), id)
    requires forall k :: 0 <= k < i && steps[k].id == id ==> RunSteps(host, steps, continueOnError).results[k].isError
    ensures RunSteps(host, steps, continueOnError).results[i].isError
  {
    ResultOfStep(host, steps, continueOnError, i);
    ResultsFollowSteps(host, steps, continueOnError);
    var all := RunSteps(host, steps, continueOnError).results;
    hide RunSteps;
    NoDataFor(all[..i], steps, id);
    CitingUnfinishedFails(Obj(steps[i].arguments), ById(all[..i]), id);
    hide ResolveValue, ById, References, Cites, DistinctIds;
  }

  lemma NoDataFor(results: seq<StepResult>, steps: seq<Step>, id: string)
    requires |results| <= |steps| && DistinctIds(steps)
    requires forall k :: 0 <= k < |results| ==> results[k].id == steps[k].id
    requires forall k :: 0 <= k < |results| && steps[k].id == id ==> results[k].isError
    ensures !ViewOf(ById(results), id).Data?
  {
    ByIdFacts(results, steps);
    hide ById, DistinctIds;
  }

  predicate FirstErrorAt(results: seq<StepResult>, k: int) {
    0 <= k < |results| && results[k].isError && NoErrors(results[..k])
  }

  lemma {:induction false} FirstErrorFacts(results: seq<StepResult>)
    ensures FirstError(results).None? <==> NoErrors(results)
    ensures FirstError(results).Some? ==>
      exists k :: FirstErrorAt(results, k) && results[k] == FirstError(results).value
  {
    if results != [] {
      FirstErrorFacts(results[1..]);
      if results[0].isError {
        assert FirstErrorAt(results, 0);
      } else if FirstError(results).Some? {
        var k :| FirstErrorAt(results[1..], k) && results[1..][k] == FirstError(results).value;
        forall j | 0 <= j < k + 1
          ensures !results[j].isError
        {
          assert j > 0 ==> results[1..][..k][j - 1] == results[j];
        }
        assert FirstErrorAt(results, k + 1);
      }
    }
  }

  /** A batch without steps or with a repeated id asks nothing of the host; any other batch
      succeeds exactly when no step failed, and then every step has run. */
  lemma BatchOutcome(host: Host, steps: seq<Step>, finalStep: Option<string>, continueOnError: bool)
    ensures var (run, asked) := RunBatch(host, steps, finalStep, continueOnError);
      if steps == [] || !DistinctIds(steps) then
        && !run.success && asked == [] && run.results == [] && run.completed == 0 && run.final.None?
        && (steps == [] ==> run.error == Some(NoSteps))
        && (steps != [] ==> exists j :: RepeatsFirst(steps, j) && run.error == Some(DuplicateId(steps[j].id)))
      else
        && run.stepCount == |steps|
        && (run.success <==> NoErrors(run.results))
        && (run.success ==> |run.results| == |steps| && run.error.None?)
        && (!run.success ==>
              exists k :: FirstErrorAt(run.results, k) && run.error == Some(StepFailed(run.results[k].id)))
        && (run.stopped <==> !continueOnError && !run.success)
        && run.completed == |run.results|
  {
    RepeatFacts(steps);
    ResultsFollowSteps(host, steps, continueOnError);
    FirstErrorFacts(RunSteps(host, steps, continueOnError).results);
    hide RepeatsFirst, FirstRepeat, DistinctIds, RunSteps, ById;
  }

  predicate IsResultOf(results: seq<StepResult>, id: string, r: StepResult) {
    r.id == id && r in results
  }

  /** The final result is the result of the step asked for, by default of the last that ran; there
      is none exactly if that step did not run, or has an empty id. */
  lemma FinalStep(host: Host, steps: seq<Step>, finalStep: Option<string>, continueOnError: bool)
    requires steps != [] && DistinctIds(steps)
    ensures var run := RunBatch(host, steps, finalStep, continueOnError).0;
      && run.results != [] && run.finalStep.Some?
      && var wanted := run.finalStep.value;
      && (finalStep.Some? && finalStep.value != "" ==> wanted == finalStep.value)
      && (finalStep.None? || finalStep.value == "" ==> wanted == run.results[|run.results| - 1].id)
      && (run.final.Some? ==> wanted != "" && IsResultOf(run.results, wanted, run.final.value))
      && (run.final.None? ==> wanted == "" || forall r :: !IsResultOf(run.results, wanted, r))
  {
    RepeatFacts(steps);
    RunsSomething(host, steps, continueOnError);
    ResultsFollowSteps(host, steps, continueOnError);
    hide RepeatsFirst, FirstRepeat, RunSteps, Concluded, IsResultOf, NoErrors;
    FinalResult(steps, RunSteps(host, steps, continueOnError), finalStep);
    hide DistinctIds;
  }

  lemma FinalResult(steps: seq<Step>, p: Progress, finalStep: Option<string>)
    requires DistinctIds(steps) && p.results != [] && |p.results| <= |steps|
    requires forall k :: 0 <= k < |p.results| ==> p.results[k].id == steps[k].id
    ensures var run := Concluded(steps, p, finalStep);
      && run.results == p.results && run.finalStep.Some?
      && var wanted := run.finalStep.value;
      && (finalStep.Some? && finalStep.value != "" ==> wanted == finalStep.value)
      && (finalStep.None? || finalStep.value == "" ==> wanted == run.results[|run.results| - 1].id)
      && (run.final.Some? ==> wanted != "" && IsResultOf(run.results, wanted, run.final.value))
      && (run.final.None? ==> wanted == "" || forall r :: !IsResultOf(run.results, wanted, r))
  {
    ByIdFacts(p.results, steps);
    hide DistinctIds, ById, FirstError;
  }

  // ----- What a step comes to -----

  /** The arguments of step i, resolved over the results of the steps before it. */
  function Resolved(host: Host, steps: seq<Step>, continueOnError: bool, i: nat): BatchReferences.Resolved<Json>
    requires i < |steps|
  {
    ResolveValue(Obj(steps[i].arguments), ById(RunSteps(host, steps[..i], continueOnError).results))
  }

  /** Step i gets as far as its tool: its arguments resolve to an object and the tool is mounted. */
  predicate Reaches(host: Host, steps: seq<Step>, continueOnError: bool, i: nat)
    requires i < |steps|
  {
    var arguments := Resolved(host, steps, continueOnError, i);
    && arguments.Ok? && arguments.value.Obj?
    && host.mounted(RunSteps(host, steps[..i], continueOnError).asked, steps[i].tool)
  }

  /** What the tool of step i replies to exactly those arguments. */
  function ReplyTo(host: Host, steps: seq<Step>, continueOnError: bool, i: nat): Reply
    requires i < |steps| && Reaches(host, steps, continueOnError, i)
  {
    var tool := steps[i].tool;
    host.call(RunSteps(host, steps[..i], continueOnError).asked + [IsMounted(tool)], tool,
      Resolved(host, steps, continueOnError, i).value.fields)
  }

  predicate AnswersWell(host: Host, steps: seq<Step>, continueOnError: bool, i: nat)
    requires i < |steps|
  {
    && Reaches(host, steps, continueOnError, i)
    && ReplyTo(host, steps, continueOnError, i).Returned? && !ReplyTo(host, steps, continueOnError, i).isError
  }

  /** The data of a reply: its structured content, or else what its text reads as, or else the text. */
  predicate DataOf(host: Host, reply: Reply, data: Json)
    requires reply.Returned?
  {
    && (reply.structured.Some? ==> data == reply.structured.value)
    && (reply.structured.None? && reply.text.None? ==> data == Null)
    && (reply.structured.None? && reply.text.Some? ==>
          data == if host.parse(reply.text.value).Some? then host.parse(reply.text.value).value
                  else Str(reply.text.value))
  }

  /** Why step i got no reply, if it got none. */
  function FaultOf(host: Host, steps: seq<Step>, continueOnError: bool, i: nat): Option<Fault>
    requires i < |steps|
  {
    var arguments := Resolved(host, steps, continueOnError, i);
    if arguments.Err? then Some(arguments.fault)
    else if !arguments.value.Obj? then Some(NotAnObject)
    else if !Reaches(host, steps, continueOnError, i) then Some(UnknownTool)
    else if ReplyTo(host, steps, continueOnError, i).Raised? then Some(CallRaised)
    else None
  }

  /** r is the result of step i: an error exactly if the step did not reach its tool, or the call
      raised, or the tool said so; with a reply it carries the tool's text and data, and without one
      nothing but the reason. */
  predicate Verdict(host: Host, steps: seq<Step>, continueOnError: bool, i: nat, r: StepResult)
    requires i < |steps|
  {
    && r.id == steps[i].id && r.tool == steps[i].tool
    && (r.isError <==> !AnswersWell(host, steps, continueOnError, i))
    && r.fault == FaultOf(host, steps, continueOnError, i)
    && (r.fault.Some? ==> r.text.None? && r.data == Null)
    && (r.fault.None? ==>
          && Reaches(host, steps, continueOnError, i)
          && var reply := ReplyTo(host, steps, continueOnError, i);
          && reply.Returned? && r.text == reply.text && DataOf(host, reply, r.data))
  }

  /** What step i asks of the host. */
  function AskedBy(host: Host, steps: seq<Step>, continueOnError: bool, i: nat): seq<Query>
    requires i < |steps|
  {
    var arguments := Resolved(host, steps, continueOnError, i);
    if arguments.Err? || !arguments.value.Obj? then []
    else if !Reaches(host, steps, continueOnError, i) then [IsMounted(steps[i].tool)]
    else [IsMounted(steps[i].tool), Call(steps[i].tool, arguments.value.fields)]
  }

  /** Every result of a batch is the verdict on its step.  The host is asked for the tool, and called
      with exactly the resolved arguments. */
  lemma ResultVerdict(host: Host, steps: seq<Step>, continueOnError: bool, i: nat)
    requires i < |steps| && i < |RunSteps(host, steps, continueOnError).results|
    ensures Verdict(host, steps, continueOnError, i, RunSteps(host, steps, continueOnError).results[i])
    ensures RunSteps(host, steps[..i + 1], continueOnError).asked ==
      RunSteps(host, steps[..i], continueOnError).asked + AskedBy(host, steps, continueOnError, i)
  {
    ResultOfStep(host, steps, continueOnError, i);
    NotStoppedBefore(host, steps, continueOnError, i);
    var p := RunSteps(host, steps[..i], continueOnError);
    RunSnoc(host, steps, i, continueOnError);
    StepVerdict(host, steps, continueOnError, i, p);
    hide RunSteps, ResolveValue, ById, RunStep, Normalized;
  }

  /** The steps before a result did not stop the batch. */
  lemma NotStoppedBefore(host: Host, steps: seq<Step>, continueOnError: bool, i: nat)
    requires i < |steps| && i < |RunSteps(host, steps, continueOnError).results|
    ensures !RunSteps(host, steps[..i], continueOnError).stopped
  {
    LaterStepsChangeNothing(host, steps, i, continueOnError);
    ResultsFollowSteps(host, steps[..i], continueOnError);
    hide RunSteps, NoErrors;
  }

  lemma StepVerdict(host: Host, steps: seq<Step>, continueOnError: bool, i: nat, p: Progress)
    requires i < |steps| && p == RunSteps(host, steps[..i], continueOnError)
    ensures var (r, asked) := RunStep(host, p.asked, steps[i], ById(p.results));
      && Verdict(host, steps, continueOnError, i, r)
      && asked == p.asked + AskedBy(host, steps, continueOnError, i)
  {
    hide RunSteps, ResolveValue, ById;
  }

  /** A batch succeeds exactly if every one of its steps was called and answered without an error. */
  lemma BatchSucceedsIff(host: Host, steps: seq<Step>, finalStep: Option<string>, continueOnError: bool)
    requires steps != [] && DistinctIds(steps)
    ensures RunBatch(host, steps, finalStep, continueOnError).0.success <==>
      forall i :: 0 <= i < |steps| ==> AnswersWell(host, steps, continueOnError, i)
  {
    BatchOutcome(host, steps, finalStep, continueOnError);
    ResultsFollowSteps(host, steps, continueOnError);
    RepeatFacts(steps);
    var results := RunSteps(host, steps, continueOnError).results;
    assert RunBatch(host, steps, finalStep, continueOnError).0.results == results;
    hide RunBatch, RunSteps, DistinctIds, FirstRepeat, AnswersWell;
    forall i | 0 <= i < |results|
      ensures results[i].isError <==> !AnswersWell(host, steps, continueOnError, i)
    {
      ResultVerdict(host, steps, continueOnError, i);
    }
  }

  /** One step whose mounted tool answers with an error: the batch stops there and fails as that step. */
  lemma ToolErrorFailsBatch(host: Host, id: string, tool: string)
    requires host.mounted([], tool)
    requires var reply := host.call([IsMounted(tool)], tool, []); reply.Returned? && reply.isError
    ensures var run := RunBatch(host, [Step(id, tool, [])], None, false).0;
      !run.success && run.stopped && run.error == Some(StepFailed(id)) && |run.results| == 1
  {
    var steps := [Step(id, tool, [])];
    RunSnoc(host, steps, 0, false);
    assert steps[..0] == [] && steps[..1] == steps;
    BatchOutcome(host, steps, None, false);
    ResultsFollowSteps(host, steps, false);
    ResultVerdict(host, steps, false, 0);
    RepeatFacts(steps);
    assert Resolved(host, steps, false, 0) == Ok(Obj([])) && RunSteps(host, [], false).asked == [];
    var run := RunBatch(host, steps, None, false).0;
    assert run.results == RunSteps(host, steps, false).results;
    hide RunSteps, RunStep, FirstRepeat, RunBatch, ResolveValue, DistinctIds;
    assert RunSteps(host, steps[..0], false).asked == [];
    assert [] + [IsMounted(tool)] == [IsMounted(tool)];
    assert Reaches(host, steps, false, 0);
    assert ReplyTo(host, steps, false, 0) == host.call([IsMounted(tool)], tool, []);
    assert !AnswersWell(host, steps, false, 0);
    assert run.results[0].isError && run.results[0].id == id;
    assert FirstErrorAt(run.results, 0);
    var k :| FirstErrorAt(run.results, k) && run.error == Some(StepFailed(run.results[k].id));
    assert k == 0;
  }

  /** The one-step batch whose step has an empty id: it runs, whatever the host answers, and still
      there is no final result. */
  lemma EmptyIdIsNeverFinal(host: Host, tool: string)
    ensures var run := RunBatch(host, [Step("", tool, [])], None, false).0;
      |run.results| == 1 && run.results[0].id == "" && run.completed == 1 && run.final.None?
  {
    var steps := [Step("", tool, [])];
    RunSnoc(host, steps, 0, false);
    assert steps[..0] == [] && steps[..1] == steps;
    FinalStep(host, steps, None, false);
    ResultsFollowSteps(host, steps, false);
    hide RunStep;
  }
}
