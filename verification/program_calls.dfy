/** Mounted-tool calls: how many there are, what is recorded of them, and where they stop. */
module ProgramCalls {
  import opened Prelude
  import opened ProgramAst
  import opened ProgramHost
  import opened ProgramSemantics

  /** The traces an interaction history calls for: one for each answered invocation, numbered
      from one, carrying the tool's own reply. */
  function Recorded(history: seq<Query>, host: Host): seq<Trace> {
    if history == [] then []
    else
      var n := |history| - 1;
      var before := Recorded(history[..n], host);
      match (history[n], host(history[..n], history[n]))
      case (Invoke(tool, _), Replies(data, text, isError)) =>
        before + [Trace(|before| + 1, tool, NormalizedData(data, text), text, isError)]
      case _ => before
  }

  function Invocations(history: seq<Query>): nat {
    if history == [] then 0
    else
      var n := |history| - 1;
      Invocations(history[..n]) + if history[n].Invoke? then 1 else 0
  }

  predicate Success(a: Answer) {
    a.Replies? && !a.isError
  }

  /** Every invocation so far was answered without an error. */
  predicate Clean(history: seq<Query>, host: Host) {
    history == [] ||
    var n := |history| - 1;
    Clean(history[..n], host) && (history[n].Invoke? ==> Success(host(history[..n], history[n])))
  }

  /** How an unsuccessful invocation ends a run. */
  function Verdict(a: Answer): Exit {
    match a
    case TimedOut => ToolTimeout
    case Replies(_, _, _) => ToolCallFailed
    case _ => ToolInvocationFailed
  }

  predicate ToolExit(x: Exit) {
    x == ToolTimeout || x == ToolCallFailed || x == ToolInvocationFailed
  }

  /** A run that ends in a tool failure ends in the very interaction that failed; before it, and
      throughout every other run, all invocations succeeded. */
  predicate Disciplined(history: seq<Query>, exit: Option<Exit>, host: Host) {
    if exit.Some? && ToolExit(exit.value) then
      history != [] &&
      var n := |history| - 1;
      && Clean(history[..n], host)
      && history[n].Invoke?
      && !Success(host(history[..n], history[n]))
      && exit.value == Verdict(host(history[..n], history[n]))
    else Clean(history, host)
  }

  function ExitOf<T>(out: Outcome<T>): Option<Exit> {
    if out.Stop? then Some(out.exit) else None
  }

  predicate Grows(st: State, st': State) {
    st.traces <= st'.traces && st.history <= st'.history
  }

  predicate Good(st: State, exit: Option<Exit>, host: Host, lim: Limits) {
    && st.traces == Recorded(st.history, host)
    && Invocations(st.history) <= lim.calls
    && Disciplined(st.history, exit, host)
  }

  /** One step of the accounting: st' continues st, and if st was in order so is st'. */
  predicate Step(st: State, exit: Option<Exit>, st': State, host: Host, lim: Limits) {
    Grows(st, st') && (Good(st, None, host, lim) ==> Good(st', exit, host, lim))
  }

  lemma StepThen(st: State, st1: State, exit: Option<Exit>, st2: State, host: Host, lim: Limits)
    requires Step(st, None, st1, host, lim) && Step(st1, exit, st2, host, lim)
    ensures Step(st, exit, st2, host, lim)
  {}

  /** While no call has failed, every invocation has its trace. */
  lemma {:induction false} AllTraced(history: seq<Query>, host: Host)
    requires Clean(history, host)
    ensures |Recorded(history, host)| == Invocations(history)
  {
    if history != [] {
      AllTraced(history[..|history| - 1], host);
    }
  }

  lemma AskedStep(q: Query, st: State, exit: Option<Exit>, host: Host, lim: Limits)
    requires !q.Invoke?
    requires exit.Some? ==> !ToolExit(exit.value)
    ensures Step(st, exit, Asked(q, st), host, lim)
  {
    assert (st.history + [q])[..|st.history|] == st.history;
  }

  lemma StillStep(st: State, exit: Option<Exit>, host: Host, lim: Limits)
    requires exit.Some? ==> !ToolExit(exit.value)
    ensures Step(st, exit, st, host, lim)
  {}

  lemma TruthStep(v: Value, st: State, host: Host, lim: Limits)
    ensures var r := TruthOf(v, st, host); Step(st, ExitOf(r.0), r.1, host, lim)
  {
    hide Step;
    var r := TruthOf(v, st, host);
    if v.VHost? {
      AskedStep(Truth(v), st, ExitOf(r.0), host, lim);
    } else {
      StillStep(st, ExitOf(r.0), host, lim);
    }
  }

  lemma BinaryStep(op: BinaryOp, left: Value, right: Value, st: State, host: Host, lim: Limits)
    ensures var r := ApplyBinary(op, left, right, st, host); Step(st, ExitOf(r.0), r.1, host, lim)
  {
    hide Step;
    var r := ApplyBinary(op, left, right, st, host);
    AskedStep(Binary(op, left, right), st, ExitOf(r.0), host, lim);
    StillStep(st, ExitOf(r.0), host, lim);
  }

  lemma UnaryStep(op: UnaryOp, v: Value, st: State, host: Host, lim: Limits)
    ensures var r := ApplyUnary(op, v, st, host); Step(st, ExitOf(r.0), r.1, host, lim)
  {
    hide Step, TruthOf;
    var r := ApplyUnary(op, v, st, host);
    if op.Not? {
      TruthStep(v, st, host, lim);
    } else {
      AskedStep(Prefix(op, v), st, ExitOf(r.0), host, lim);
      StillStep(st, ExitOf(r.0), host, lim);
    }
  }

  lemma CompareStep(op: CompareOp, left: Value, right: Value, st: State, host: Host, lim: Limits)
    ensures var r := CompareTwo(op, left, right, st, host); Step(st, ExitOf(r.0), r.1, host, lim)
  {
    hide TruthOf;
    var a := AskValue(Comparison(op, left, right), st, host);
    AskedStep(Comparison(op, left, right), st, ExitOf(a.0), host, lim);
    if a.0.Done? {
      TruthStep(a.0.value, a.1, host, lim);
    }
  }

  lemma {:induction false} ChainStep(current: Value, ops: seq<CompareOp>, comparators: seq<Value>, st: State,
        host: Host, lim: Limits)
    ensures var r := CompareChain(current, ops, comparators, st, host); Step(st, ExitOf(r.0), r.1, host, lim)
    decreases |ops|
  {
    hide CompareTwo;
    if ops != [] && comparators != [] {
      CompareStep(ops[0], current, comparators[0], st, host, lim);
      var (b, st') := CompareTwo(ops[0], current, comparators[0], st, host);
      if b == Done(true) {
        ChainStep(comparators[0], ops[1..], comparators[1..], st', host, lim);
      }
    }
  }

  lemma {:induction false} DictStep(keys: seq<Value>, values: seq<Value>, built: seq<Entry>, st: State, host: Host,
        lim: Limits)
    ensures var r := BuildDict(keys, values, built, st, host); Step(st, ExitOf(r.0), r.1, host, lim)
    decreases |keys|
  {
    if keys != [] && values != [] {
      if keys[0].VStr? {
        DictStep(keys[1..], values[1..], Put(keys[0], values[0], built), st, host, lim);
      } else {
        var (text, st') := AskValue(Text(keys[0]), st, host);
        AskedStep(Text(keys[0]), st, ExitOf(text), host, lim);
        if text.Done? {
          DictStep(keys[1..], values[1..], Put(text.value, values[0], built), st', host, lim);
        }
      }
    }
  }

  lemma SubscriptStep(base: Value, key: Value, st: State, host: Host, lim: Limits)
    ensures var r := Subscripted(base, key, st, host); Step(st, ExitOf(r.0), r.1, host, lim)
  {
    hide Step, Lookup;
    var r := Subscripted(base, key, st, host);
    AskedStep(Item(base, key), st, ExitOf(r.0), host, lim);
    StillStep(st, ExitOf(r.0), host, lim);
  }

  lemma OneArgumentStep(name: string, v: Value, st: State, host: Host, lim: Limits)
    ensures var r := OneArgument(name, v, st, host); Step(st, ExitOf(r.0), r.1, host, lim)
  {
    hide Step;
    var r := OneArgument(name, v, st, host);
    AskedStep(Helper(name, [v]), st, ExitOf(r.0), host, lim);
    StillStep(st, ExitOf(r.0), host, lim);
  }

  lemma RangeStep(args: seq<Value>, st: State, host: Host, lim: Limits)
    ensures var r := Range(args, st, host); Step(st, ExitOf(r.0), r.1, host, lim)
  {
    hide Step, RangeList;
    var r := Range(args, st, host);
    AskedStep(Helper("range", args), st, ExitOf(r.0), host, lim);
    StillStep(st, ExitOf(r.0), host, lim);
  }

  lemma HelperStep(name: string, args: seq<Value>, st: State, host: Host, lim: Limits)
    ensures var r := CallHelper(name, args, st, host); Step(st, ExitOf(r.0), r.1, host, lim)
  {
    hide Step, OneArgument, TruthOf, Range, Keys, Values, Items;
    StillStep(st, None, host, lim);
    StillStep(st, Some(InvalidProgram), host, lim);
    RangeStep(args, st, host, lim);
    if |args| == 1 {
      OneArgumentStep(name, args[0], st, host, lim);
      TruthStep(args[0], st, host, lim);
    }
  }

  /** An invocation and, if it was answered, its trace. */
  lemma InvokedStep(q: Query, st: State, st': State, host: Host, lim: Limits)
    requires q.Invoke? && |st.traces| < lim.calls && st'.history == st.history + [q]
    requires var a := host(st.history, q);
      st'.traces ==
        if a.Replies? then
          st.traces + [Trace(|st.traces| + 1, q.tool, NormalizedData(a.data, a.text), a.text, a.isError)]
        else st.traces
    ensures var a := host(st.history, q);
      Step(st, if Success(a) then None else Some(Verdict(a)), st', host, lim)
  {
    hide NormalizedData;
    assert st'.history[..|st.history|] == st.history;
    if Good(st, None, host, lim) {
      AllTraced(st.history, host);
    }
  }

  lemma ToolStep(args: seq<Value>, keywords: map<string, Value>, st: State, host: Host, lim: Limits)
    ensures var r := CallTool(args, keywords, st, host, lim); Step(st, ExitOf(r.0), r.1, host, lim)
  {
    hide Step, ToolRequest, NormalizedData;
    var r := CallTool(args, keywords, st, host, lim);
    var request := ToolRequest(args, keywords);
    if |st.traces| >= lim.calls || request.None? {
      StillStep(st, ExitOf(r.0), host, lim);
    } else {
      InvokedStep(Invoke(request.value.0, request.value.1), st, r.1, host, lim);
    }
  }

  lemma NodeStep(e: Expr, vals: seq<Value>, st: State, host: Host, lim: Limits)
    requires |vals| == |Children(e)|
    ensures var r := ApplyNode(e, vals, st, host, lim); Step(st, ExitOf(r.0), r.1, host, lim)
  {
    hide BuildDict, Subscripted, CallTool, CallHelper, ApplyBinary, CompareChain, ApplyUnary;
    match e
    case DictExpr(keys, _) => DictStep(vals[..|keys|], vals[|keys|..], [], st, host, lim);
    case Subscript(_, _) => SubscriptStep(vals[0], vals[1], st, host, lim);
    case Call(fn, args, keywords) =>
      if fn.Name? {
        ToolStep(vals[..|args|], KeywordMap(Named(keywords), vals[|args|..]), st, host, lim);
        HelperStep(fn.id, vals[..|args|], st, host, lim);
      }
    case BinOp(_, op, _) => BinaryStep(op, vals[0], vals[1], st, host, lim);
    case Compare(_, ops, _) => ChainStep(vals[0], ops, vals[1..], st, host, lim);
    case UnaryExpr(op, _) => UnaryStep(op, vals[0], st, host, lim);
    case _ =>
  }

  lemma {:induction false} ExprStep(e: Expr, st: State, host: Host, lim: Limits)
    ensures var r := EvalExpr(e, st, host, lim); Step(st, ExitOf(r.out), r.st, host, lim)
    decreases Nodes(e), 2
  {
    hide Good, EvalBool, EvalIfExp, EvalStrict;
    match e
    case BoolOp(op, operands) =>
      BoolStep(op, operands, if op.And? then Some(VBool(true)) else None, st, host, lim);
    case IfExp(test, body, orelse) => IfExpStep(test, body, orelse, st, host, lim);
    case Constant(_) =>
    case Name(_) => Rebound(st, st, Some(InvalidProgram), host, lim);
    case _ => StrictStep(e, st, host, lim);
  }

  lemma {:induction false} IfExpStep(test: Expr, body: Expr, orelse: Expr, st: State, host: Host, lim: Limits)
    ensures var r := EvalIfExp(test, body, orelse, st, host, lim); Step(st, ExitOf(r.out), r.st, host, lim)
    decreases Nodes(test) + Nodes(body) + Nodes(orelse), 3
  {
    hide Good, Step, TruthOf, EvalExpr;
    ExprStep(test, st, host, lim);
    var c := EvalExpr(test, st, host, lim);
    var r := EvalIfExp(test, body, orelse, st, host, lim);
    if c.out.Done? {
      TruthStep(c.out.value, c.st, host, lim);
      var (t, st') := TruthOf(c.out.value, c.st, host);
      StepThen(st, c.st, ExitOf(t), st', host, lim);
      if t.Done? {
        var branch := if t.value then body else orelse;
        ExprStep(branch, st', host, lim);
        assert r.out == EvalExpr(branch, st', host, lim).out && r.st == EvalExpr(branch, st', host, lim).st;
        hide EvalIfExp;
        StepThen(st, st', ExitOf(r.out), r.st, host, lim);
      }
    }
    hide Nodes;
  }

  lemma {:induction false} StrictStep(e: Expr, st: State, host: Host, lim: Limits)
    ensures var r := EvalStrict(e, st, host, lim); Step(st, ExitOf(r.out), r.st, host, lim)
    decreases Nodes(e), 0
  {
    hide Good, ApplyNode, EvalAll;
    ChildrenSmaller(e);
    AllStep(Children(e), st, host, lim);
    var r := EvalAll(Children(e), st, host, lim);
    if r.out.Done? {
      NodeStep(e, r.out.value, r.st, host, lim);
    }
  }

  lemma {:induction false} AllStep(es: seq<Expr>, st: State, host: Host, lim: Limits)
    ensures var r := EvalAll(es, st, host, lim); Step(st, ExitOf(r.out), r.st, host, lim)
    decreases NodesOf(es), 3
  {
    hide Good, EvalExpr;
    if es != [] {
      ExprStep(es[0], st, host, lim);
      var h := EvalExpr(es[0], st, host, lim);
      if h.out.Done? {
        AllStep(es[1..], h.st, host, lim);
      }
    }
  }

  lemma {:induction false} BoolStep(op: BoolOperator, es: seq<Expr>, result: Option<Value>, st: State, host: Host,
        lim: Limits)
    ensures var r := EvalBool(op, es, result, st, host, lim); Step(st, ExitOf(r.out), r.st, host, lim)
    decreases NodesOf(es), 3
  {
    hide Good, EvalExpr, TruthOf;
    if es == [] {
      Rebound(st, st, Some(RuntimeError), host, lim);
    } else {
      ExprStep(es[0], st, host, lim);
      var h := EvalExpr(es[0], st, host, lim);
      if h.out.Done? {
        TruthStep(h.out.value, h.st, host, lim);
        var (b, st') := TruthOf(h.out.value, h.st, host);
        if b.Done? && b.value != op.Or? {
          BoolStep(op, es[1..], Some(h.out.value), st', host, lim);
        }
      }
    }
  }

  lemma IterStep(v: Value, st: State, host: Host, lim: Limits)
    ensures var r := OpenIterator(v, st, host); Step(st, ExitOf(r.0), r.1, host, lim)
  {
    AskedStep(OpenIter(v), st, ExitOf(OpenIterator(v, st, host).0), host, lim);
  }

  lemma PullStep(it: Iter, st: State, host: Host, lim: Limits)
    ensures var r := Pull(it, st, host);
      Step(st, if r.0.Failed? then Some(r.0.exit) else None, r.1, host, lim)
  {
    if it.Stream? {
      var r := Pull(it, st, host);
      AskedStep(Next(it.cursor), st, if r.0.Failed? then Some(r.0.exit) else None, host, lim);
    }
  }

  /** The environment and the counter play no part in the accounting, nor does the reason to
      stop unless a tool is to blame. */
  lemma Rebound(st: State, st': State, exit: Option<Exit>, host: Host, lim: Limits)
    requires st'.history == st.history && st'.traces == st.traces
    requires exit.Some? ==> !ToolExit(exit.value)
    ensures Good(st, None, host, lim) == Good(st', exit, host, lim)
  {}

  lemma ReboundStep(st: State, st0: State, st': State, exit: Option<Exit>, host: Host, lim: Limits)
    requires Step(st, None, st0, host, lim) && st'.history == st0.history && st'.traces == st0.traces
    requires exit.Some? ==> !ToolExit(exit.value)
    ensures Step(st, exit, st', host, lim)
  {
    Rebound(st0, st', exit, host, lim);
  }

  lemma {:induction false} StmtStep(s: Stmt, st: State, host: Host, lim: Limits)
    ensures var r := ExecStmt(s, st, host, lim); Step(st, ExitOf(r.out), r.st, host, lim)
    decreases Left(st, lim), StmtNodes(s), 0
  {
    hide Good, EvalExpr, ExecAssign, ExecAug, ExecIf, ExecFor;
    Rebound(st, st, ExitOf(ExecStmt(Pass, st, host, lim).out), host, lim);
    Rebound(st, st, Some(BreakSignal), host, lim);
    Rebound(st, st, Some(ContinueSignal), host, lim);
    Rebound(st, st, Some(InvalidProgram), host, lim);
    match s
    case Assign(targets, value) => AssignStep(targets, value, st, host, lim);
    case AugAssign(target, op, value) => AugStep(target, op, value, st, host, lim);
    case ExprStmt(value) => ExprStep(value, st, host, lim);
    case If(test, body, orelse) => IfStep(test, body, orelse, st, host, lim);
    case For(target, iter, body, orelse) => ForStep(target, iter, body, orelse, st, host, lim);
    case _ =>
  }

  lemma AssignStep(targets: seq<Expr>, value: Expr, st: State, host: Host, lim: Limits)
    ensures var r := ExecAssign(targets, value, st, host, lim); Step(st, ExitOf(r.out), r.st, host, lim)
  {
    hide Good, EvalExpr, AssignEach;
    ExprStep(value, st, host, lim);
    var v := EvalExpr(value, st, host, lim);
    var r := ExecAssign(targets, value, st, host, lim);
    Rebound(v.st, r.st, None, host, lim);
    Rebound(v.st, r.st, Some(InvalidProgram), host, lim);
  }

  lemma AugStep(target: Expr, op: BinaryOp, value: Expr, st: State, host: Host, lim: Limits)
    ensures var r := ExecAug(target, op, value, st, host, lim); Step(st, ExitOf(r.out), r.st, host, lim)
  {
    hide Good, EvalExpr, ApplyBinary;
    Rebound(st, st, Some(InvalidProgram), host, lim);
    ExprStep(value, st, host, lim);
    var v := EvalExpr(value, st, host, lim);
    if target.Name? && target.id in st.env && v.out.Done? {
      BinaryStep(op, st.env[target.id], v.out.value, v.st, host, lim);
      var (updated, st') := ApplyBinary(op, st.env[target.id], v.out.value, v.st, host);
      Rebound(st', ExecAug(target, op, value, st, host, lim).st, None, host, lim);
    }
  }

  lemma {:induction false} IfStep(test: Expr, body: seq<Stmt>, orelse: seq<Stmt>, st: State, host: Host, lim: Limits)
    ensures var r := ExecIf(test, body, orelse, st, host, lim); Step(st, ExitOf(r.out), r.st, host, lim)
    decreases Left(st, lim), Nodes(test) + BlockNodes(body) + BlockNodes(orelse), 2
  {
    hide Good, EvalExpr, TruthOf, ExecBlock;
    ExprStep(test, st, host, lim);
    var c := EvalExpr(test, st, host, lim);
    if c.out.Done? {
      TruthStep(c.out.value, c.st, host, lim);
      var (t, st') := TruthOf(c.out.value, c.st, host);
      if t.Done? {
        BlockStep(if t.value then body else orelse, st', VNone, host, lim);
      }
    }
  }

  lemma {:induction false} ForStep(target: Expr, iter: Expr, body: seq<Stmt>, orelse: seq<Stmt>, st: State,
        host: Host, lim: Limits)
    ensures var r := ExecFor(target, iter, body, orelse, st, host, lim); Step(st, ExitOf(r.out), r.st, host, lim)
    decreases Left(st, lim), Nodes(target) + Nodes(iter) + BlockNodes(body) + BlockNodes(orelse), 2
  {
    hide Good, EvalExpr, OpenIterator, RunLoop;
    Rebound(st, st, Some(InvalidProgram), host, lim);
    ExprStep(iter, st, host, lim);
    var v := EvalExpr(iter, st, host, lim);
    if orelse == [] && v.out.Done? {
      IterStep(v.out.value, v.st, host, lim);
      var (it, st') := OpenIterator(v.out.value, v.st, host);
      if it.Done? {
        LoopStep(target, body, it.value, VNone, st', host, lim);
      }
    }
  }

  lemma {:induction false} BlockStep(ss: seq<Stmt>, st: State, last: Value, host: Host, lim: Limits)
    ensures var b := ExecBlock(ss, st, last, host, lim); Step(st, b.flow, b.st, host, lim)
    decreases Left(st, lim), BlockNodes(ss), 1
  {
    hide Good, ExecStmt;
    if ss != [] {
      StmtStep(ss[0], st, host, lim);
      var h := ExecStmt(ss[0], st, host, lim);
      if h.out.Done? {
        BlockStep(ss[1..], h.st, h.out.value, host, lim);
      }
    }
  }

  lemma {:induction false} LoopStep(target: Expr, body: seq<Stmt>, it: Iter, last: Value, st: State, host: Host,
        lim: Limits)
    ensures var r := RunLoop(target, body, it, last, st, host, lim); Step(st, ExitOf(r.out), r.st, host, lim)
    decreases Left(st, lim), BlockNodes(body), 2
  {
    hide Good, Step, RunPass, AssignTarget, Pull;
    PullStep(it, st, host, lim);
    var (pulled, st0) := Pull(it, st, host);
    if pulled.Got? {
      var st1 := st0.(loops := st0.loops + 1);
      ReboundStep(st, st0, st1, Some(BudgetExceeded), host, lim);
      var (ok, env) := AssignTarget(target, pulled.item, st1.env);
      var st2 := st1.(env := env);
      ReboundStep(st, st0, st2, Some(InvalidProgram), host, lim);
      ReboundStep(st, st0, st2, None, host, lim);
      if st1.loops <= lim.loops && ok {
        PassStep(target, body, pulled.rest, last, st2, host, lim);
        var r := RunPass(target, body, pulled.rest, last, st2, host, lim);
        StepThen(st, st2, ExitOf(r.out), r.st, host, lim);
      }
    }
  }

  lemma {:induction false} PassStep(target: Expr, body: seq<Stmt>, rest: Iter, last: Value, st: State, host: Host,
        lim: Limits)
    ensures var r := RunPass(target, body, rest, last, st, host, lim); Step(st, ExitOf(r.out), r.st, host, lim)
    decreases Left(st, lim), BlockNodes(body), 3
  {
    hide Good, ExecBlock, RunLoop;
    var b := ExecBlock(body, st, last, host, lim);
    BlockStep(body, st, last, host, lim);
    Rebound(b.st, b.st, Some(ContinueSignal), host, lim);
    Rebound(b.st, b.st, Some(BreakSignal), host, lim);
    if b.flow.None? || b.flow == Some(ContinueSignal) {
      LoopStep(target, body, rest, b.last, b.st, host, lim);
    }
  }

  /** Call discipline of a whole run.  The invoker is consulted at most lim.calls times; the
      traces are exactly the recorded replies, numbered from one; the run reports a tool failure
      if and only if its very last interaction is an invocation that failed, and otherwise
      every invocation succeeded and has its trace. */
  lemma CallDiscipline(p: Program, context: map<string, Value>, host: Host, lim: Limits)
    ensures var b := RunBlock(p, Fresh(context, []), host, lim);
      && Invocations(b.st.history) <= lim.calls
      && b.st.traces == Recorded(b.st.history, host)
      && Disciplined(b.st.history, b.flow, host)
      && (b.flow.None? || !ToolExit(b.flow.value) ==> |b.st.traces| == Invocations(b.st.history))
  {
    var b := RunBlock(p, Fresh(context, []), host, lim);
    if Admit(p, lim).Done? {
      BlockStep(p.parsed.value, Fresh(context, []), VNone, host, lim);
    }
    if b.flow.None? || !ToolExit(b.flow.value) {
      AllTraced(b.st.history, host);
    }
  }

  predicate Shaped(traces: seq<Trace>, failed: bool) {
    && (forall i :: 0 <= i < |traces| ==> traces[i].index == i + 1)
    && (forall i :: 0 <= i < |traces| ==> (traces[i].isError <==> failed && i == |traces| - 1))
    && (failed ==> traces != [])
  }

  /** Recorded traces are numbered 1..n, and one of them is an error exactly when the run ended
      in a failed call; it is then the last. */
  lemma {:induction false} TraceShape(history: seq<Query>, exit: Option<Exit>, host: Host)
    requires Disciplined(history, exit, host)
    ensures Shaped(Recorded(history, host), exit == Some(ToolCallFailed))
    decreases |history|
  {
    if history != [] {
      var n := |history| - 1;
      TraceShape(history[..n], None, host);
      var before := Recorded(history[..n], host);
      var a := host(history[..n], history[n]);
      if history[n].Invoke? && a.Replies? {
        var t := Trace(|before| + 1, history[n].tool, NormalizedData(a.data, a.text), a.text, a.isError);
        assert Recorded(history, host) == before + [t];
      } else {
        assert Recorded(history, host) == before;
      }
    }
  }
}
