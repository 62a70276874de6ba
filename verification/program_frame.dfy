/** What a statement can and cannot change: variables, control flow, and what comes after a
    failure. */
module ProgramFrame {
  import opened Prelude
  import opened ProgramAst
  import opened ProgramHost
  import opened ProgramSemantics
  import opened ProgramLaws

  function TargetNames(e: Expr): set<string>
    decreases e
  {
    match e
    case Name(id) => {id}
    case TupleExpr(elts) => TargetNamesOf(elts)
    case ListExpr(elts) => TargetNamesOf(elts)
    case _ => {}
  }

  function TargetNamesOf(es: seq<Expr>): set<string>
    decreases es
  {
    if es == [] then {} else TargetNames(es[0]) + TargetNamesOf(es[1..])
  }

  /** Every name a statement can bind. */
  function Binds(s: Stmt): set<string>
    decreases s
  {
    match s
    case Assign(targets, _) => TargetNamesOf(targets)
    case AugAssign(target, _, _) => TargetNames(target)
    case If(_, body, orelse) => BindsOf(body) + BindsOf(orelse)
    case For(target, _, body, _) => TargetNames(target) + BindsOf(body)
    case _ => {}
  }

  function BindsOf(ss: seq<Stmt>): set<string>
    decreases ss
  {
    if ss == [] then {} else Binds(ss[0]) + BindsOf(ss[1..])
  }

  /** The signal x occurs outside every for loop of s. */
  predicate Loose(x: Exit, s: Stmt)
    decreases s
  {
    match s
    case Break => x == BreakSignal
    case Continue => x == ContinueSignal
    case If(_, body, orelse) => LooseIn(x, body) || LooseIn(x, orelse)
    case _ => false
  }

  predicate LooseIn(x: Exit, ss: seq<Stmt>)
    decreases ss
  {
    ss != [] && (Loose(x, ss[0]) || LooseIn(x, ss[1..]))
  }

  /** No name is lost, none is gained outside names, and the others keep their values. */
  predicate Framed(env: map<string, Value>, env': map<string, Value>, names: set<string>) {
    && env.Keys <= env'.Keys <= env.Keys + names
    && forall x :: x in env && x !in names ==> env'[x] == env[x]
  }

  predicate SignalFrom(x: Exit, loose: bool) {
    x == BreakSignal || x == ContinueSignal ==> loose
  }

  lemma {:induction false} AssignFrame(target: Expr, value: Value, env: map<string, Value>)
    ensures Framed(env, AssignTarget(target, value, env).1, TargetNames(target))
    decreases target, 2
  {
    match target
    case TupleExpr(elts) =>
      if (value.VList? || value.VTuple?) && |value.items| == |elts| {
        PairsFrame(elts, value.items, env);
      }
    case ListExpr(elts) =>
      if (value.VList? || value.VTuple?) && |value.items| == |elts| {
        PairsFrame(elts, value.items, env);
      }
    case _ =>
  }

  lemma {:induction false} PairsFrame(targets: seq<Expr>, values: seq<Value>, env: map<string, Value>)
    requires |targets| == |values|
    ensures Framed(env, AssignPairs(targets, values, env).1, TargetNamesOf(targets))
    decreases targets, 0
  {
    if targets != [] {
      AssignFrame(targets[0], values[0], env);
      var (ok, env') := AssignTarget(targets[0], values[0], env);
      if ok {
        PairsFrame(targets[1..], values[1..], env');
      }
    }
  }

  lemma {:induction false} EachFrame(targets: seq<Expr>, value: Value, env: map<string, Value>)
    ensures Framed(env, AssignEach(targets, value, env).1, TargetNamesOf(targets))
  {
    if targets != [] {
      AssignFrame(targets[0], value, env);
      var (ok, env') := AssignTarget(targets[0], value, env);
      if ok {
        EachFrame(targets[1..], value, env');
      }
    }
  }

  /** On every exit, success or failure, a statement leaves each variable it never targets as
      it was, unbinds none, and lets out only a signal that stands outside its loops. */
  lemma {:induction false} StmtFrame(s: Stmt, st: State, host: Host, lim: Limits)
    ensures var r := ExecStmt(s, st, host, lim);
      && Framed(st.env, r.st.env, Binds(s))
      && (r.out.Stop? ==> SignalFrom(r.out.exit, Loose(r.out.exit, s)))
    decreases Left(st, lim), StmtNodes(s), 0
  {
    match s
    case Assign(targets, value) =>
      hide EvalExpr, AssignEach;
      var v := EvalExpr(value, st, host, lim);
      if v.out.Done? {
        EachFrame(targets, v.out.value, v.st.env);
      }
    case AugAssign(_, _, _) => hide EvalExpr, ApplyBinary;
    case ExprStmt(_) => hide EvalExpr;
    case If(test, body, orelse) =>
      hide ExecIf;
      IfFrame(test, body, orelse, st, host, lim);
    case For(target, iter, body, orelse) =>
      hide ExecFor;
      ForFrame(target, iter, body, orelse, st, host, lim);
    case _ =>
  }

  lemma {:induction false} IfFrame(test: Expr, body: seq<Stmt>, orelse: seq<Stmt>, st: State, host: Host, lim: Limits)
    ensures var r := ExecIf(test, body, orelse, st, host, lim);
      && Framed(st.env, r.st.env, BindsOf(body) + BindsOf(orelse))
      && (r.out.Stop? ==> SignalFrom(r.out.exit, LooseIn(r.out.exit, body) || LooseIn(r.out.exit, orelse)))
    decreases Left(st, lim), Nodes(test) + BlockNodes(body) + BlockNodes(orelse), 2
  {
    hide EvalExpr, TruthOf, ExecBlock;
    var c := EvalExpr(test, st, host, lim);
    if c.out.Done? {
      var (t, st') := TruthOf(c.out.value, c.st, host);
      if t.Done? {
        BlockFrame(if t.value then body else orelse, st', VNone, host, lim);
      }
    }
  }

  lemma {:induction false} ForFrame(target: Expr, iter: Expr, body: seq<Stmt>, orelse: seq<Stmt>, st: State,
        host: Host, lim: Limits)
    ensures var r := ExecFor(target, iter, body, orelse, st, host, lim);
      && Framed(st.env, r.st.env, TargetNames(target) + BindsOf(body))
      && Quiet(r.out)
    decreases Left(st, lim), Nodes(target) + Nodes(iter) + BlockNodes(body) + BlockNodes(orelse), 2
  {
    hide EvalExpr, OpenIterator, RunLoop;
    var v := EvalExpr(iter, st, host, lim);
    if orelse == [] && v.out.Done? {
      var (it, st') := OpenIterator(v.out.value, v.st, host);
      if it.Done? {
        LoopFrame(target, body, it.value, VNone, st', host, lim);
      }
    }
  }

  lemma {:induction false} BlockFrame(ss: seq<Stmt>, st: State, last: Value, host: Host, lim: Limits)
    ensures var b := ExecBlock(ss, st, last, host, lim);
      && Framed(st.env, b.st.env, BindsOf(ss))
      && (b.flow.Some? ==> SignalFrom(b.flow.value, LooseIn(b.flow.value, ss)))
    decreases Left(st, lim), BlockNodes(ss), 1
  {
    hide ExecStmt;
    if ss != [] {
      var h := ExecStmt(ss[0], st, host, lim);
      StmtFrame(ss[0], st, host, lim);
      if h.out.Done? {
        BlockFrame(ss[1..], h.st, h.out.value, host, lim);
      }
    }
  }

  /** A loop lets no signal out, however deep in nested ifs its body raises one. */
  lemma {:induction false} LoopFrame(target: Expr, body: seq<Stmt>, it: Iter, last: Value, st: State, host: Host,
        lim: Limits)
    ensures var r := RunLoop(target, body, it, last, st, host, lim);
      && Framed(st.env, r.st.env, TargetNames(target) + BindsOf(body))
      && Quiet(r.out)
    decreases Left(st, lim), BlockNodes(body), 2
  {
    hide RunPass, AssignTarget, Pull;
    var (pulled, st0) := Pull(it, st, host);
    if pulled.Got? {
      var st1 := st0.(loops := st0.loops + 1);
      if st1.loops <= lim.loops {
        var (ok, env) := AssignTarget(target, pulled.item, st1.env);
        AssignFrame(target, pulled.item, st1.env);
        if ok {
          PassFrame(target, body, pulled.rest, last, st1.(env := env), host, lim);
        }
      }
    }
  }

  lemma {:induction false} PassFrame(target: Expr, body: seq<Stmt>, rest: Iter, last: Value, st: State, host: Host,
        lim: Limits)
    ensures var r := RunPass(target, body, rest, last, st, host, lim);
      && Framed(st.env, r.st.env, TargetNames(target) + BindsOf(body))
      && Quiet(r.out)
    decreases Left(st, lim), BlockNodes(body), 3
  {
    hide ExecBlock, RunLoop;
    var b := ExecBlock(body, st, last, host, lim);
    BlockFrame(body, st, last, host, lim);
    if b.flow.None? || b.flow == Some(ContinueSignal) {
      LoopFrame(target, body, rest, b.last, b.st, host, lim);
    }
  }

  /** Over an iterator that never ends, a loop whose body has no break of its own never completes:
      it always ends in an error. */
  lemma {:induction false} EndlessLoopNeverCompletes(target: Expr, body: seq<Stmt>, cursor: Value, last: Value,
        st: State, host: Host, lim: Limits)
    requires forall h: seq<Query> :: host(h, Next(cursor)).Gives?
    requires !LooseIn(BreakSignal, body)
    ensures RunLoop(target, body, Stream(cursor), last, st, host, lim).out.Stop?
    decreases Left(st, lim), 0
  {
    var (pulled, st0) := Pull(Stream(cursor), st, host);
    assert pulled.Got? && pulled.rest == Stream(cursor);
    hide Pull, AssignTarget, RunPass, LooseIn;
    var st1 := st0.(loops := st0.loops + 1);
    var (ok, env) := AssignTarget(target, pulled.item, st1.env);
    if st1.loops <= lim.loops && ok {
      EndlessPassNeverCompletes(target, body, cursor, last, st1.(env := env), host, lim);
    }
  }

  lemma {:induction false} EndlessPassNeverCompletes(target: Expr, body: seq<Stmt>, cursor: Value, last: Value,
        st: State, host: Host, lim: Limits)
    requires forall h: seq<Query> :: host(h, Next(cursor)).Gives?
    requires !LooseIn(BreakSignal, body)
    ensures RunPass(target, body, Stream(cursor), last, st, host, lim).out.Stop?
    decreases Left(st, lim), 1
  {
    BlockFrame(body, st, last, host, lim);
    hide ExecBlock, RunLoop, LooseIn, BindsOf, Framed;
    var b := ExecBlock(body, st, last, host, lim);
    if b.flow.None? || b.flow == Some(ContinueSignal) {
      EndlessLoopNeverCompletes(target, body, cursor, b.last, b.st, host, lim);
    }
  }

  /** A run never touches context variables the program does not target, and a program whose
      breaks and continues all sit inside for loops never ends by an escaped signal. */
  lemma RunFrame(p: Program, context: map<string, Value>, history: seq<Query>, host: Host, lim: Limits)
    ensures var b := RunBlock(p, Fresh(context, history), host, lim);
      var names := if p.parsed.Some? then BindsOf(p.parsed.value) else {};
      && Framed(context, b.st.env, names)
      && (b.flow == Some(BreakSignal) ==> LooseIn(BreakSignal, p.parsed.value))
      && (b.flow == Some(ContinueSignal) ==> LooseIn(ContinueSignal, p.parsed.value))
  {
    if Admit(p, lim).Done? {
      BlockFrame(p.parsed.value, Fresh(context, history), VNone, host, lim);
    }
  }

  /** `x op= e` is `x = x op e`: same outcome, same state, two evaluations fewer. */
  lemma AugmentedIsAssignment(x: string, op: BinaryOp, e: Expr, st: State, host: Host, lim: Limits)
    ensures var aug := ExecStmt(AugAssign(Name(x), op, e), st, host, lim);
      var plain := ExecStmt(Assign([Name(x)], BinOp(Name(x), op, e)), st, host, lim);
      aug.out == plain.out && aug.st == plain.st && plain.work == aug.work + 2
  {
    hide ApplyBinary;
    var sum := BinOp(Name(x), op, e);
    assert EvalExpr(sum, st, host, lim) == EvalStrict(sum, st, host, lim);
    var n := EvalExpr(Name(x), st, host, lim);
    assert Children(sum) == [Name(x), e];
    EvalTwo(Name(x), e, st, host, lim);
    if n.out.Done? {
      var v := EvalExpr(e, st, host, lim);
      if v.out.Done? {
        var (out, st') := ApplyBinary(op, n.out.value, v.out.value, v.st, host);
        if out.Done? {
          assert [Name(x)][1..] == [];
          assert AssignEach([], out.value, st'.env[x := out.value]) == (true, st'.env[x := out.value]);
        }
      }
    }
  }

  /** Nothing runs after the first failure: a failing prefix decides the whole block, and a
      prefix that completes hands its state and last value on. */
  lemma {:induction false} BlockAppend(a: seq<Stmt>, b: seq<Stmt>, st: State, last: Value, host: Host, lim: Limits)
    ensures var first := ExecBlock(a, st, last, host, lim);
      ExecBlock(a + b, st, last, host, lim) ==
        if first.flow.Some? then first
        else
          var second := ExecBlock(b, first.st, first.last, host, lim);
          B(second.flow, second.last, second.st, first.work + second.work)
    decreases |a|
  {
    hide ExecStmt;
    if a == [] {
      assert a + b == b;
    } else {
      assert (a + b)[0] == a[0] && (a + b)[1..] == a[1..] + b;
      var h := ExecStmt(a[0], st, host, lim);
      if h.out.Done? {
        BlockAppend(a[1..], b, h.st, h.out.value, host, lim);
      }
    }
  }

  /** What a break or a continue raises. */
  function SignalOf(s: Stmt): Exit
    requires s.Break? || s.Continue?
  {
    if s.Break? then BreakSignal else ContinueSignal
  }

  /** A break or continue outside every loop does escape, as soon as the statements before it
      complete, and the run then ends as a runtime error. */
  lemma TopLevelSignalEscapes(p: Program, before: seq<Stmt>, s: Stmt, after: seq<Stmt>, context: map<string, Value>,
        history: seq<Query>, host: Host, lim: Limits, resultVariable: string)
    requires s.Break? || s.Continue?
    requires Admit(p, lim) == Done(before + ([s] + after))
    requires ExecBlock(before, Fresh(context, history), VNone, host, lim).flow.None?
    ensures var b := RunBlock(p, Fresh(context, history), host, lim);
      b.flow == Some(SignalOf(s)) && ResultOf(b, resultVariable).error == Some(CodeRuntime)
  {
    var st := Fresh(context, history);
    var first := ExecBlock(before, st, VNone, host, lim);
    BlockAppend(before, [s] + after, st, VNone, host, lim);
    assert ExecStmt(s, first.st, host, lim).out == Stop(SignalOf(s));
    assert ExecBlock([s] + after, first.st, first.last, host, lim).flow == Some(SignalOf(s));
    hide ExecBlock, ExecStmt, Admit;
  }

  /** The shortest such programs: `break` and `continue` alone, with the repository's budgets. */
  lemma LoneSignalIsRuntimeError(context: map<string, Value>, history: seq<Query>, host: Host, resultVariable: string)
    ensures var b := RunBlock(Program(|"break"|, Some([Break])), Fresh(context, history), host, DEFAULT_LIMITS);
      b.flow == Some(BreakSignal) && ResultOf(b, resultVariable).error == Some(CodeRuntime)
    ensures var c := RunBlock(Program(|"continue"|, Some([Continue])), Fresh(context, history), host, DEFAULT_LIMITS);
      c.flow == Some(ContinueSignal) && ResultOf(c, resultVariable).error == Some(CodeRuntime)
  {
    var b, c := Program(|"break"|, Some([Break])), Program(|"continue"|, Some([Continue]));
    assert [] + ([Break] + []) == [Break] && [] + ([Continue] + []) == [Continue];
    assert BlockNodes([]) == 0 && [Break][1..] == [] && [Continue][1..] == [];
    assert ExecBlock([], Fresh(context, history), VNone, host, DEFAULT_LIMITS).flow.None?;
    TopLevelSignalEscapes(b, [], Break, [], context, history, host, DEFAULT_LIMITS, resultVariable);
    TopLevelSignalEscapes(c, [], Continue, [], context, history, host, DEFAULT_LIMITS, resultVariable);
  }
}
