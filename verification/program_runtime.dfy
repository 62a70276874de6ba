/** The evaluator as the repository writes it: methods that update the traces, the loop counter
    and the environment in place, each proved to do what ProgramSemantics says. */
module ProgramRuntime {
  import opened Prelude
  import opened ProgramAst
  import opened ProgramHost
  import opened ProgramSemantics

  /** The mutable dictionary of program variables. */
  class Environment {
    var bindings: map<string, Value>

    constructor (context: map<string, Value>)
      ensures bindings == context
    {
      bindings := context;
    }
  }

  class ToolProgramRuntime {
    const host: Host
    const limits: Limits
    var traces: seq<Trace>
    var loopIterations: nat
    var history: seq<Query>
    ghost var work: nat

    constructor (host: Host, limits: Limits)
      ensures this.host == host && this.limits == limits && history == []
    {
      this.host, this.limits := host, limits;
      traces, loopIterations, history, work := [], 0, [], 0;
    }

    function Snap(environment: Environment): State
      reads this, environment
    {
      State(environment.bindings, traces, loopIterations, history)
    }

    /** Adopts the state a primitive left; primitives touch traces and history only. */
    method Adopt(st: State, environment: Environment)
      requires SameFrame(Snap(environment), st)
      modifies this`traces, this`history
      ensures Snap(environment) == st
    {
      traces, history := st.traces, st.history;
    }

    method Truthy(v: Value, environment: Environment) returns (out: Outcome<bool>)
      modifies this`traces, this`history
      ensures (out, Snap(environment)) == TruthOf(v, old(Snap(environment)), host)
    {
      var st := TruthOf(v, Snap(environment), host);
      out := st.0;
      Adopt(st.1, environment);
    }

    method EvalExpression(e: Expr, environment: Environment) returns (out: Outcome<Value>)
      modifies this`traces, this`history, this`work
      ensures var r := EvalExpr(e, old(Snap(environment)), host, limits);
        out == r.out && Snap(environment) == r.st && work == old(work) + r.work
      decreases Nodes(e), 2
    {
      hide EvalBool, EvalStrict, EvalIfExp;
      work := work + 1;
      match e
      case Constant(v) => out := Done(v);
      case Name(id) =>
        out := if id in environment.bindings then Done(environment.bindings[id]) else Stop(InvalidProgram);
      case BoolOp(op, operands) => out := EvalBoolop(op, operands, environment);
      case IfExp(test, body, orelse) => out := EvalConditional(test, body, orelse, environment);
      case _ =>
        out := EvalChildren(e, environment);
    }

    method EvalConditional(test: Expr, body: Expr, orelse: Expr, environment: Environment) returns (out: Outcome<Value>)
      modifies this`traces, this`history, this`work
      ensures var r := EvalIfExp(test, body, orelse, old(Snap(environment)), host, limits);
        out == r.out && Snap(environment) == r.st && 1 + work == old(work) + r.work
      decreases Nodes(test) + Nodes(body) + Nodes(orelse), 3
    {
      hide EvalExpr, TruthOf;
      out := EvalExpression(test, environment);
      if out.Stop? {
        return;
      }
      var b := Truthy(out.value, environment);
      if b.Stop? {
        return Stop(b.exit);
      }
      out := EvalExpression(if b.value then body else orelse, environment);
    }

    method EvalChildren(e: Expr, environment: Environment) returns (out: Outcome<Value>)
      modifies this`traces, this`history, this`work
      ensures var r := EvalStrict(e, old(Snap(environment)), host, limits);
        out == r.out && Snap(environment) == r.st && 1 + work == old(work) + r.work
      decreases Nodes(e), 0
    {
      hide EvalAll, ApplyNode;
      ChildrenSmaller(e);
      var vals := EvalList(Children(e), environment);
      if vals.Stop? {
        return Stop(vals.exit);
      }
      out := ApplyEvaluated(e, vals.value, environment);
    }

    method ApplyEvaluated(e: Expr, vals: seq<Value>, environment: Environment) returns (out: Outcome<Value>)
      requires |vals| == |Children(e)|
      modifies this`traces, this`history
      ensures (out, Snap(environment)) == ApplyNode(e, vals, old(Snap(environment)), host, limits)
    {
      if e.Call? && e.fn == Name("call_tool") {
        out := CallToolBuiltin(vals[..|e.args|], KeywordMap(Named(e.keywords), vals[|e.args|..]), environment);
      } else {
        var applied := ApplyNode(e, vals, Snap(environment), host, limits);
        out := applied.0;
        Adopt(applied.1, environment);
      }
    }

    /** A mounted-tool call.  A trace is appended only once the tool has answered. */
    method CallToolBuiltin(positional: seq<Value>, keywords: map<string, Value>, environment: Environment)
      returns (out: Outcome<Value>)
      modifies this`traces, this`history
      ensures (out, Snap(environment)) == CallTool(positional, keywords, old(Snap(environment)), host, limits)
    {
      if |traces| >= limits.calls {
        return Stop(BudgetExceeded);
      }
      var request := ToolRequest(positional, keywords);
      if request.None? {
        return Stop(InvalidProgram);
      }
      var (tool, arguments) := request.value;
      var answer := host(history, Invoke(tool, arguments));
      history := history + [Invoke(tool, arguments)];
      if answer.TimedOut? {
        return Stop(ToolTimeout);
      }
      if !answer.Replies? {
        return Stop(ToolInvocationFailed);
      }
      var data := NormalizedData(answer.data, answer.text);
      traces := traces + [Trace(|traces| + 1, tool, data, answer.text, answer.isError)];
      if answer.isError {
        return Stop(ToolCallFailed);
      }
      out := Done(if data.Some? then data.value else VNone);
    }

    method EvalList(es: seq<Expr>, environment: Environment) returns (out: Outcome<seq<Value>>)
      modifies this`traces, this`history, this`work
      ensures var r := EvalAll(es, old(Snap(environment)), host, limits);
        out == r.out && Snap(environment) == r.st && work == old(work) + r.work
      decreases NodesOf(es), 3
    {
      hide EvalExpr;
      ghost var whole := EvalAll(es, Snap(environment), host, limits);
      var values := [];
      var i := 0;
      assert es[0..] == es && forall vs: seq<Value> :: values + vs == vs;
      while i < |es|
        invariant 0 <= i <= |es| && NodesOf(es[i..]) <= NodesOf(es) && old(work) <= work
        invariant var rest := EvalAll(es[i..], Snap(environment), host, limits);
          && whole.st == rest.st
          && whole.work == work - old(work) + rest.work
          && whole.out == if rest.out.Done? then Done(values + rest.out.value) else Stop(rest.out.exit)
      {
        assert es[i..][1..] == es[i + 1..];
        var v := EvalExpression(es[i], environment);
        if v.Stop? {
          return Stop(v.exit);
        }
        assert forall vs: seq<Value> :: values + ([v.value] + vs) == (values + [v.value]) + vs;
        values, i := values + [v.value], i + 1;
      }
      assert values + [] == values;
      out := Done(values);
    }

    method EvalBoolop(op: BoolOperator, es: seq<Expr>, environment: Environment) returns (out: Outcome<Value>)
      modifies this`traces, this`history, this`work
      ensures var start := if op.And? then Some(VBool(true)) else None;
        var r := EvalBool(op, es, start, old(Snap(environment)), host, limits);
        out == r.out && Snap(environment) == r.st && work == old(work) + r.work
      decreases NodesOf(es), 3
    {
      hide EvalExpr, TruthOf;
      var result := if op.And? then Some(VBool(true)) else None;
      ghost var whole := EvalBool(op, es, result, Snap(environment), host, limits);
      var i := 0;
      while i < |es|
        invariant 0 <= i <= |es| && NodesOf(es[i..]) <= NodesOf(es) && old(work) <= work
        invariant var rest := EvalBool(op, es[i..], result, Snap(environment), host, limits);
          whole == R(rest.out, rest.st, work - old(work) + rest.work)
      {
        assert es[i..][1..] == es[i + 1..];
        var v := EvalExpression(es[i], environment);
        if v.Stop? {
          return v;
        }
        var b := Truthy(v.value, environment);
        if b.Stop? {
          return Stop(b.exit);
        }
        if b.value == op.Or? {
          return v;
        }
        result, i := Some(v.value), i + 1;
      }
      out := if result.Some? then Done(result.value) else Stop(RuntimeError);
    }

    method Bind(target: Expr, value: Value, environment: Environment) returns (ok: bool)
      modifies environment
      ensures (ok, environment.bindings) == AssignTarget(target, value, old(environment.bindings))
      decreases target
    {
      match target
      case Name(id) =>
        environment.bindings := environment.bindings[id := value];
        ok := true;
      case TupleExpr(elts) => ok := BindList(elts, value, environment);
      case ListExpr(elts) => ok := BindList(elts, value, environment);
      case _ => ok := false;
    }

    method BindList(targets: seq<Expr>, value: Value, environment: Environment) returns (ok: bool)
      modifies environment
      ensures (ok, environment.bindings) == Unpack(targets, value, old(environment.bindings))
      decreases targets
    {
      if !(value.VList? || value.VTuple?) || |value.items| != |targets| {
        return false;
      }
      var i := 0;
      while i < |targets|
        invariant 0 <= i <= |targets|
        invariant AssignPairs(targets[i..], value.items[i..], environment.bindings)
               == AssignPairs(targets, value.items, old(environment.bindings))
      {
        assert targets[i..][1..] == targets[i + 1..] && value.items[i..][1..] == value.items[i + 1..];
        ok := Bind(targets[i], value.items[i], environment);
        if !ok {
          return;
        }
        i := i + 1;
      }
      ok := true;
    }

    method BindEach(targets: seq<Expr>, value: Value, environment: Environment) returns (ok: bool)
      modifies environment
      ensures (ok, environment.bindings) == AssignEach(targets, value, old(environment.bindings))
    {
      var i := 0;
      while i < |targets|
        invariant 0 <= i <= |targets|
        invariant AssignEach(targets[i..], value, environment.bindings)
               == AssignEach(targets, value, old(environment.bindings))
      {
        assert targets[i..][1..] == targets[i + 1..];
        ok := Bind(targets[i], value, environment);
        if !ok {
          return;
        }
        i := i + 1;
      }
      ok := true;
    }

    method ExecStatement(s: Stmt, environment: Environment) returns (out: Outcome<Value>)
      modifies this`traces, this`history, this`work, this`loopIterations, environment
      ensures var r := ExecStmt(s, old(Snap(environment)), host, limits);
        out == r.out && Snap(environment) == r.st && work == old(work) + r.work
      decreases Left(Snap(environment), limits), StmtNodes(s), 0
    {
      hide EvalExpr, ExecAssign, ExecAug, ExecIf, ExecFor;
      work := work + 1;
      match s
      case Assign(targets, value) => out := ExecAssignment(targets, value, environment);
      case AugAssign(_, _, _) => out := ExecAugmentedAssignment(s, environment);
      case ExprStmt(value) => out := EvalExpression(value, environment);
      case If(test, body, orelse) => out := ExecConditional(test, body, orelse, environment);
      case For(_, _, _, _) => out := ExecForLoop(s, environment);
      case Break => out := Stop(BreakSignal);
      case Continue => out := Stop(ContinueSignal);
      case Pass => out := Done(VNone);
      case OtherStmt(_) => out := Stop(InvalidProgram);
    }

    method ExecAssignment(targets: seq<Expr>, value: Expr, environment: Environment) returns (out: Outcome<Value>)
      modifies this`traces, this`history, this`work, environment
      ensures var r := ExecAssign(targets, value, old(Snap(environment)), host, limits);
        out == r.out && Snap(environment) == r.st && 1 + work == old(work) + r.work
    {
      hide EvalExpr;
      out := EvalExpression(value, environment);
      if out.Stop? {
        return;
      }
      var ok := BindEach(targets, out.value, environment);
      if !ok {
        out := Stop(InvalidProgram);
      }
    }

    method ExecConditional(test: Expr, body: seq<Stmt>, orelse: seq<Stmt>, environment: Environment)
      returns (out: Outcome<Value>)
      modifies this`traces, this`history, this`work, this`loopIterations, environment
      ensures var r := ExecIf(test, body, orelse, old(Snap(environment)), host, limits);
        out == r.out && Snap(environment) == r.st && 1 + work == old(work) + r.work
      decreases Left(Snap(environment), limits), Nodes(test) + BlockNodes(body) + BlockNodes(orelse), 2
    {
      hide EvalExpr, TruthOf, ExecBlock;
      out := EvalExpression(test, environment);
      if out.Stop? {
        return;
      }
      var b := Truthy(out.value, environment);
      if b.Stop? {
        return Stop(b.exit);
      }
      var flow, last := ExecNested(if b.value then body else orelse, VNone, environment);
      out := if flow.Some? then Stop(flow.value) else Done(last);
    }

    method ExecAugmentedAssignment(s: Stmt, environment: Environment) returns (out: Outcome<Value>)
      requires s.AugAssign?
      modifies this`traces, this`history, this`work, environment
      ensures var r := ExecAug(s.target, s.op, s.value, old(Snap(environment)), host, limits);
        out == r.out && Snap(environment) == r.st && 1 + work == old(work) + r.work
    {
      hide EvalExpr, ApplyBinary;
      if !s.target.Name? || s.target.id !in environment.bindings {
        return Stop(InvalidProgram);
      }
      var current := environment.bindings[s.target.id];
      out := EvalExpression(s.value, environment);
      if out.Stop? {
        return;
      }
      var applied := ApplyBinary(s.op, current, out.value, Snap(environment), host);
      out := applied.0;
      Adopt(applied.1, environment);
      if out.Done? {
        environment.bindings := environment.bindings[s.target.id := out.value];
      }
    }

    /** A statement list; last is the value of the last statement that completed. */
    method ExecNested(ss: seq<Stmt>, initial: Value, environment: Environment)
      returns (flow: Option<Exit>, last: Value)
      modifies this`traces, this`history, this`work, this`loopIterations, environment
      ensures var b := ExecBlock(ss, old(Snap(environment)), initial, host, limits);
        flow == b.flow && last == b.last && Snap(environment) == b.st && work == old(work) + b.work
      decreases Left(Snap(environment), limits), BlockNodes(ss), 1
    {
      hide ExecStmt;
      ghost var whole := ExecBlock(ss, Snap(environment), initial, host, limits);
      last := initial;
      var i := 0;
      while i < |ss|
        invariant 0 <= i <= |ss| && BlockNodes(ss[i..]) <= BlockNodes(ss)
        invariant old(loopIterations) <= loopIterations && old(work) <= work
        invariant var rest := ExecBlock(ss[i..], Snap(environment), last, host, limits);
          whole == B(rest.flow, rest.last, rest.st, work - old(work) + rest.work)
      {
        assert ss[i..][1..] == ss[i + 1..];
        var v := ExecStatement(ss[i], environment);
        if v.Stop? {
          return Some(v.exit), last;
        }
        last, i := v.value, i + 1;
      }
      flow := None;
    }

    /** The loop owns the two control signals: whatever the body raises, neither leaves it. */
    method ExecForLoop(s: Stmt, environment: Environment) returns (out: Outcome<Value>)
      requires s.For?
      modifies this`traces, this`history, this`work, this`loopIterations, environment
      ensures var r := ExecFor(s.target, s.iter, s.body, s.orelse, old(Snap(environment)), host, limits);
        out == r.out && Snap(environment) == r.st && 1 + work == old(work) + r.work
      decreases Left(Snap(environment), limits), BlockNodes(s.body), 3
    {
      hide EvalExpr, OpenIterator, RunLoop;
      if s.orelse != [] {
        return Stop(InvalidProgram);
      }
      out := EvalExpression(s.iter, environment);
      if out.Stop? {
        return;
      }
      var iterable := OpenIterator(out.value, Snap(environment), host);
      Adopt(iterable.1, environment);
      if iterable.0.Stop? {
        return Stop(iterable.0.exit);
      }
      out := ExecPasses(s.target, s.body, iterable.0.value, environment);
    }

    /** The passes of one loop.  Every pass, of this loop or of one nested in it, draws on the
        same counter. */
    method ExecPasses(target: Expr, body: seq<Stmt>, iterable: Iter, environment: Environment)
      returns (out: Outcome<Value>)
      modifies this`traces, this`history, this`work, this`loopIterations, environment
      ensures var r := RunLoop(target, body, iterable, VNone, old(Snap(environment)), host, limits);
        out == r.out && Snap(environment) == r.st && work == old(work) + r.work
      decreases Left(Snap(environment), limits), BlockNodes(body), 2
    {
      hide ExecBlock, AssignTarget, Pull;
      var it, result := iterable, VNone;
      ghost var whole := RunLoop(target, body, it, result, Snap(environment), host, limits);
      while true
        invariant old(loopIterations) <= loopIterations && old(work) <= work
        invariant var rest := RunLoop(target, body, it, result, Snap(environment), host, limits);
          whole == R(rest.out, rest.st, work - old(work) + rest.work)
        decreases Left(Snap(environment), limits)
      {
        var pulled := Pull(it, Snap(environment), host);
        Adopt(pulled.1, environment);
        if pulled.0.Ended? {
          return Done(result);
        }
        if pulled.0.Failed? {
          return Stop(pulled.0.exit);
        }
        it := pulled.0.rest;
        loopIterations := loopIterations + 1;
        if loopIterations > limits.loops {
          return Stop(BudgetExceeded);
        }
        var ok := Bind(target, pulled.0.item, environment);
        if !ok {
          return Stop(InvalidProgram);
        }
        var flow;
        flow, result := ExecNested(body, result, environment);
        if flow == Some(BreakSignal) {
          return Done(result);
        }
        if flow.Some? && flow.value != ContinueSignal {
          return Stop(flow.value);
        }
      }
    }

    /** A run starts from a clean slate and reports the traces made so far however it ends. */
    method Run(program: Program, context: map<string, Value>, resultVariable: string) returns (result: RunResult)
      modifies this
      ensures result == ResultOf(RunBlock(program, Fresh(context, old(history)), host, limits), resultVariable)
      ensures history == RunBlock(program, Fresh(context, old(history)), host, limits).st.history
      ensures work == RunBlock(program, Fresh(context, old(history)), host, limits).work
    {
      traces, loopIterations, work := [], 0, 0;
      var environment := new Environment(context);
      var flow, last := None, VNone;
      match Admit(program, limits) {
        case Stop(x) => flow := Some(x);
        case Done(ss) => flow, last := ExecNested(ss, VNone, environment);
      }
      var finalData :=
        if resultVariable in environment.bindings then environment.bindings[resultVariable]
        else if flow.Some? then VNone
        else last;
      result := RunResult(if flow.Some? then Some(CodeOf(flow.value)) else None, finalData, traces);
    }
  }
}
