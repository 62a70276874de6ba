/** What a program means: evaluation as a function of the state and the host. */
module ProgramSemantics {
  import opened Prelude
  import opened ProgramAst
  import opened ProgramHost

  /** An outcome, the state it leaves, and the number of statements executed and expressions
      evaluated to get there. */
  datatype R<+T> = R(out: Outcome<T>, st: State, work: nat)

  /** The result of a statement list: why it stopped early, if it did, and the value of the
      last statement that completed. */
  datatype B = B(flow: Option<Exit>, last: Value, st: State, work: nat)

  function EvalExpr(e: Expr, st: State, host: Host, lim: Limits): (r: R<Value>)
    ensures SameFrame(st, r.st) && Quiet(r.out)
    ensures 1 <= r.work <= Nodes(e)
    decreases Nodes(e), 2
  {
    match e
    case Constant(v) => R(Done(v), st, 1)
    case Name(id) => R(if id in st.env then Done(st.env[id]) else Stop(InvalidProgram), st, 1)
    case BoolOp(op, operands) =>
      var r := EvalBool(op, operands, if op.And? then Some(VBool(true)) else None, st, host, lim);
      R(r.out, r.st, 1 + r.work)
    case IfExp(test, body, orelse) => EvalIfExp(test, body, orelse, st, host, lim)
    case _ => EvalStrict(e, st, host, lim)
  }

  function EvalIfExp(test: Expr, body: Expr, orelse: Expr, st: State, host: Host, lim: Limits): (r: R<Value>)
    ensures SameFrame(st, r.st) && Quiet(r.out)
    ensures 1 <= r.work <= 1 + Nodes(test) + Nodes(body) + Nodes(orelse)
    decreases Nodes(test) + Nodes(body) + Nodes(orelse), 3
  {
    var c := EvalExpr(test, st, host, lim);
    if c.out.Stop? then R(c.out, c.st, 1 + c.work)
    else
      var (t, st') := TruthOf(c.out.value, c.st, host);
      if t.Stop? then R(Stop(t.exit), st', 1 + c.work)
      else
        var r := EvalExpr(if t.value then body else orelse, st', host, lim);
        R(r.out, r.st, 1 + c.work + r.work)
  }

  /** Any node that evaluates all its children, in order, before it computes its own value. */
  function EvalStrict(e: Expr, st: State, host: Host, lim: Limits): (r: R<Value>)
    ensures SameFrame(st, r.st) && Quiet(r.out)
    ensures 1 <= r.work <= Nodes(e)
    decreases Nodes(e), 0
  {
    ChildrenSmaller(e);
    var r := EvalAll(Children(e), st, host, lim);
    if r.out.Stop? then R(Stop(r.out.exit), r.st, 1 + r.work)
    else
      var (out, st') := ApplyNode(e, r.out.value, r.st, host, lim);
      R(out, st', 1 + r.work)
  }

  /** A list of expressions from left to right, stopping at the first failure. */
  function EvalAll(es: seq<Expr>, st: State, host: Host, lim: Limits): (r: R<seq<Value>>)
    ensures SameFrame(st, r.st) && Quiet(r.out)
    ensures r.out.Done? ==> |r.out.value| == |es|
    ensures r.work <= NodesOf(es)
    decreases NodesOf(es), 3
  {
    if es == [] then R(Done([]), st, 0)
    else
      var h := EvalExpr(es[0], st, host, lim);
      if h.out.Stop? then R(Stop(h.out.exit), h.st, h.work)
      else
        var t := EvalAll(es[1..], h.st, host, lim);
        R(if t.out.Done? then Done([h.out.value] + t.out.value) else Stop(t.out.exit), t.st, h.work + t.work)
  }

  /** Short-circuit evaluation; result is the operand evaluated last.  `or` of nothing has no
      result, which is a runtime error. */
  function EvalBool(op: BoolOperator, es: seq<Expr>, result: Option<Value>, st: State, host: Host, lim: Limits)
    : (r: R<Value>)
    ensures SameFrame(st, r.st) && Quiet(r.out)
    ensures r.work <= NodesOf(es)
    decreases NodesOf(es), 3
  {
    if es == [] then R(if result.Some? then Done(result.value) else Stop(RuntimeError), st, 0)
    else
      var h := EvalExpr(es[0], st, host, lim);
      if h.out.Stop? then h
      else
        var (b, st') := TruthOf(h.out.value, h.st, host);
        if b.Stop? then R(Stop(b.exit), st', h.work)
        else if b.value == op.Or? then R(h.out, st', h.work)
        else
          var t := EvalBool(op, es[1..], Some(h.out.value), st', host, lim);
          R(t.out, t.st, h.work + t.work)
  }

  /** What remains of the loop budget, counting the pass that exceeds it. */
  function Left(st: State, lim: Limits): nat {
    if st.loops <= lim.loops then lim.loops + 1 - st.loops else 0
  }

  function ExecStmt(s: Stmt, st: State, host: Host, lim: Limits): (r: R<Value>)
    ensures r.st.loops >= st.loops
    decreases Left(st, lim), StmtNodes(s), 0
  {
    match s
    case Assign(targets, value) => ExecAssign(targets, value, st, host, lim)
    case AugAssign(target, op, value) => ExecAug(target, op, value, st, host, lim)
    case ExprStmt(value) =>
      var v := EvalExpr(value, st, host, lim);
      R(v.out, v.st, 1 + v.work)
    case If(test, body, orelse) => ExecIf(test, body, orelse, st, host, lim)
    case For(target, iter, body, orelse) => ExecFor(target, iter, body, orelse, st, host, lim)
    case Break => R(Stop(BreakSignal), st, 1)
    case Continue => R(Stop(ContinueSignal), st, 1)
    case Pass => R(Done(VNone), st, 1)
    case OtherStmt(_) => R(Stop(InvalidProgram), st, 1)
  }

  function ExecAssign(targets: seq<Expr>, value: Expr, st: State, host: Host, lim: Limits): (r: R<Value>)
    ensures r.st.loops == st.loops && r.work <= 1 + Nodes(value)
  {
    var v := EvalExpr(value, st, host, lim);
    if v.out.Stop? then R(v.out, v.st, 1 + v.work)
    else
      var (ok, env) := AssignEach(targets, v.out.value, v.st.env);
      R(if ok then v.out else Stop(InvalidProgram), v.st.(env := env), 1 + v.work)
  }

  /** The target is read before the operand is evaluated. */
  function ExecAug(target: Expr, op: BinaryOp, value: Expr, st: State, host: Host, lim: Limits): (r: R<Value>)
    ensures r.st.loops == st.loops && r.work <= 1 + Nodes(value)
  {
    if !target.Name? || target.id !in st.env then R(Stop(InvalidProgram), st, 1)
    else
      var v := EvalExpr(value, st, host, lim);
      if v.out.Stop? then R(v.out, v.st, 1 + v.work)
      else
        var (updated, st') := ApplyBinary(op, st.env[target.id], v.out.value, v.st, host);
        if updated.Stop? then R(Stop(updated.exit), st', 1 + v.work)
        else R(updated, st'.(env := st'.env[target.id := updated.value]), 1 + v.work)
  }

  function ExecIf(test: Expr, body: seq<Stmt>, orelse: seq<Stmt>, st: State, host: Host, lim: Limits): (r: R<Value>)
    ensures r.st.loops >= st.loops
    decreases Left(st, lim), Nodes(test) + BlockNodes(body) + BlockNodes(orelse), 2
  {
    var c := EvalExpr(test, st, host, lim);
    if c.out.Stop? then R(c.out, c.st, 1 + c.work)
    else
      var (t, st') := TruthOf(c.out.value, c.st, host);
      if t.Stop? then R(Stop(t.exit), st', 1 + c.work)
      else
        var r := ExecBlock(if t.value then body else orelse, st', VNone, host, lim);
        R(if r.flow.Some? then Stop(r.flow.value) else Done(r.last), r.st, 1 + c.work + r.work)
  }

  function ExecFor(target: Expr, iter: Expr, body: seq<Stmt>, orelse: seq<Stmt>, st: State, host: Host, lim: Limits)
    : (r: R<Value>)
    ensures r.st.loops >= st.loops
    decreases Left(st, lim), Nodes(target) + Nodes(iter) + BlockNodes(body) + BlockNodes(orelse), 2
  {
    if orelse != [] then R(Stop(InvalidProgram), st, 1)
    else
      var v := EvalExpr(iter, st, host, lim);
      if v.out.Stop? then R(v.out, v.st, 1 + v.work)
      else
        var (it, st') := OpenIterator(v.out.value, v.st, host);
        if it.Stop? then R(Stop(it.exit), st', 1 + v.work)
        else
          var r := RunLoop(target, body, it.value, VNone, st', host, lim);
          R(r.out, r.st, 1 + v.work + r.work)
  }

  function ExecBlock(ss: seq<Stmt>, st: State, last: Value, host: Host, lim: Limits): (r: B)
    ensures r.st.loops >= st.loops
    decreases Left(st, lim), BlockNodes(ss), 1
  {
    if ss == [] then B(None, last, st, 0)
    else
      var h := ExecStmt(ss[0], st, host, lim);
      if h.out.Stop? then B(Some(h.out.exit), last, h.st, h.work)
      else
        var t := ExecBlock(ss[1..], h.st, h.out.value, host, lim);
        B(t.flow, t.last, t.st, h.work + t.work)
  }

  /** One more pass of a loop, if the iterator yields and the budget allows it. */
  function RunLoop(target: Expr, body: seq<Stmt>, it: Iter, last: Value, st: State, host: Host, lim: Limits)
    : (r: R<Value>)
    ensures r.st.loops >= st.loops
    decreases Left(st, lim), BlockNodes(body), 2
  {
    match Pull(it, st, host)
    case (Ended, st0) => R(Done(last), st0, 0)
    case (Failed(x), st0) => R(Stop(x), st0, 0)
    case (Got(item, rest), st0) =>
      var st1 := st0.(loops := st0.loops + 1);
      if st1.loops > lim.loops then R(Stop(BudgetExceeded), st1, 0)
      else
        var (ok, env) := AssignTarget(target, item, st1.env);
        var st2 := st1.(env := env);
        if !ok then R(Stop(InvalidProgram), st2, 0)
        else RunPass(target, body, rest, last, st2, host, lim)
  }

  /** The body of one pass, with the target bound, and then the rest of the loop.  Only here are
      the two signals caught. */
  function RunPass(target: Expr, body: seq<Stmt>, rest: Iter, last: Value, st: State, host: Host, lim: Limits)
    : (r: R<Value>)
    ensures r.st.loops >= st.loops
    decreases Left(st, lim), BlockNodes(body), 3
  {
    var b := ExecBlock(body, st, last, host, lim);
    if b.flow == Some(BreakSignal) then R(Done(b.last), b.st, b.work)
    else if b.flow.Some? && b.flow.value != ContinueSignal then R(Stop(b.flow.value), b.st, b.work)
    else
      var t := RunLoop(target, body, rest, b.last, b.st, host, lim);
      R(t.out, t.st, b.work + t.work)
  }

  /** A program text: its length, and its statements if it parses. */
  datatype Program = Program(length: nat, parsed: Option<seq<Stmt>>)

  datatype Code = CodeBudget | CodeTimeout | CodeInvocation | CodeTool | CodeInvalid | CodeRuntime

  datatype RunResult = RunResult(error: Option<Code>, finalData: Value, traces: seq<Trace>)

  function CodeOf(x: Exit): Code {
    match x
    case BudgetExceeded => CodeBudget
    case ToolTimeout => CodeTimeout
    case ToolInvocationFailed => CodeInvocation
    case ToolCallFailed => CodeTool
    case InvalidProgram => CodeInvalid
    case RuntimeError => CodeRuntime
    case BreakSignal => CodeRuntime
    case ContinueSignal => CodeRuntime
  }

  function Fresh(context: map<string, Value>, history: seq<Query>): State {
    State(context, [], 0, history)
  }

  /** The static budgets, checked before anything is evaluated; the module node itself counts. */
  function Admit(p: Program, lim: Limits): Outcome<seq<Stmt>> {
    if p.length > lim.length then Stop(BudgetExceeded)
    else if p.parsed.None? then Stop(InvalidProgram)
    else if 1 + BlockNodes(p.parsed.value) > lim.nodes then Stop(BudgetExceeded)
    else Done(p.parsed.value)
  }

  /** Everything a run does, from a fresh state. */
  function RunBlock(p: Program, st: State, host: Host, lim: Limits): B {
    match Admit(p, lim)
    case Stop(x) => B(Some(x), VNone, st, 0)
    case Done(ss) => ExecBlock(ss, st, VNone, host, lim)
  }

  function ResultOf(b: B, resultVariable: string): RunResult {
    RunResult(
      if b.flow.Some? then Some(CodeOf(b.flow.value)) else None,
      if resultVariable in b.st.env then b.st.env[resultVariable]
      else if b.flow.Some? then VNone
      else b.last,
      b.st.traces)
  }
}
