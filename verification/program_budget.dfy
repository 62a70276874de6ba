/** Raising a budget never changes a run that did not need it. */
module ProgramBudget {
  import opened Prelude
  import opened ProgramAst
  import opened ProgramHost
  import opened ProgramSemantics
  import opened ProgramCalls

  predicate Tighter(a: Limits, b: Limits) {
    a.loops <= b.loops && a.calls <= b.calls
  }

  /** r, under the tighter budget, is s itself, or it was cut short by a budget in a state that
      s passes beyond. */
  ghost predicate Tracks<T>(r: R<T>, s: R<T>) {
    r == s || (r.out == Stop(BudgetExceeded) && Grows(r.st, s.st))
  }

  lemma GrowsOn(x: State, y: State, z: State)
    requires Grows(x, y) && Grows(y, z)
    ensures Grows(x, z)
  {}

  /** When a part was cut short, so was the whole, in the same state. */
  lemma CutShort<T, U>(c: R<T>, d: R<T>, r: R<U>, s: R<U>)
    requires Tracks(c, d) && c != d && Grows(d.st, s.st)
    requires c.out.Stop? && r.out == Stop(c.out.exit) && r.st == c.st
    ensures Tracks(r, s)
  {
    GrowsOn(c.st, d.st, s.st);
  }

  lemma CutStops<T>(c: R<T>, d: R<T>)
    requires Tracks(c, d) && c != d
    ensures c.out == Stop(BudgetExceeded)
  {}

  lemma TracksItself<T>(r: R<T>)
    ensures Tracks(r, r)
  {}

  ghost predicate TracksBlock(r: B, s: B) {
    r == s || (r.flow == Some(BudgetExceeded) && Grows(r.st, s.st))
  }

  lemma NodeBudget(e: Expr, vals: seq<Value>, st: State, host: Host, a: Limits, b: Limits)
    requires |vals| == |Children(e)| && Tighter(a, b)
    ensures var r, s := ApplyNode(e, vals, st, host, a), ApplyNode(e, vals, st, host, b);
      r == s || (r == (Stop(BudgetExceeded), st) && Grows(st, s.1))
  {
    hide BuildDict, Subscripted, CallHelper, ApplyBinary, CompareChain, ApplyUnary, ToolRequest;
  }

  lemma {:induction false} ExprBudget(e: Expr, st: State, host: Host, a: Limits, b: Limits)
    requires Tighter(a, b)
    ensures Tracks(EvalExpr(e, st, host, a), EvalExpr(e, st, host, b))
    decreases Nodes(e), 2
  {
    match e
    case Constant(_) =>
    case Name(_) =>
    case BoolOp(op, operands) =>
      hide Good, EvalBool;
      BoolBudget(op, operands, if op.And? then Some(VBool(true)) else None, st, host, a, b);
    case IfExp(test, body, orelse) =>
      IfExpBudget(test, body, orelse, st, host, a, b);
    case _ =>
      StrictBudget(e, st, host, a, b);
  }

  lemma {:induction false} StrictBudget(e: Expr, st: State, host: Host, a: Limits, b: Limits)
    requires Tighter(a, b)
    ensures Tracks(EvalStrict(e, st, host, a), EvalStrict(e, st, host, b))
    decreases Nodes(e), 0
  {
    var c, d := EvalAll(Children(e), st, host, a), EvalAll(Children(e), st, host, b);
    var r, s := EvalStrict(e, st, host, a), EvalStrict(e, st, host, b);
    hide Good, Grows, ApplyNode, EvalAll;
    ChildrenSmaller(e);
    AllBudget(Children(e), st, host, a, b);
    assert Tracks(r, s) by {
      if d.out.Done? {
        NodeStep(e, d.out.value, d.st, host, b);
        if c == d {
          NodeBudget(e, d.out.value, d.st, host, a, b);
        } else {
          GrowsOn(c.st, d.st, s.st);
        }
      }
    }
    hide *;
  }

  lemma {:induction false} IfExpBudget(test: Expr, body: Expr, orelse: Expr, st: State, host: Host, a: Limits,
        b: Limits)
    requires Tighter(a, b)
    ensures Tracks(EvalIfExp(test, body, orelse, st, host, a), EvalIfExp(test, body, orelse, st, host, b))
    decreases Nodes(test) + Nodes(body) + Nodes(orelse), 3
  {
    var c, d := EvalExpr(test, st, host, a), EvalExpr(test, st, host, b);
    var r, s := EvalIfExp(test, body, orelse, st, host, a), EvalIfExp(test, body, orelse, st, host, b);
    hide Good, Grows, EvalExpr, TruthOf;
    ExprBudget(test, st, host, a, b);
    assert Tracks(r, s) by {
      if c != d {
        IfExpGrows(test, body, orelse, st, host, b);
        GrowsOn(c.st, d.st, s.st);
      } else if c.out.Done? {
        var (t, st') := TruthOf(c.out.value, c.st, host);
        if t.Done? {
          ExprBudget(if t.value then body else orelse, st', host, a, b);
        }
      }
    }
    hide *;
  }

  lemma IfExpGrows(test: Expr, body: Expr, orelse: Expr, st: State, host: Host, lim: Limits)
    ensures Grows(EvalExpr(test, st, host, lim).st, EvalIfExp(test, body, orelse, st, host, lim).st)
  {
    hide Good, EvalExpr, TruthOf;
    var c := EvalExpr(test, st, host, lim);
    if c.out.Done? {
      var (t, st') := TruthOf(c.out.value, c.st, host);
      TruthStep(c.out.value, c.st, host, lim);
      if t.Done? {
        ExprStep(if t.value then body else orelse, st', host, lim);
      }
    }
  }

  lemma {:induction false} AllBudget(es: seq<Expr>, st: State, host: Host, a: Limits, b: Limits)
    requires Tighter(a, b)
    ensures Tracks(EvalAll(es, st, host, a), EvalAll(es, st, host, b))
    decreases NodesOf(es), 3
  {
    hide Good, EvalExpr;
    if es != [] {
      ExprBudget(es[0], st, host, a, b);
      var h := EvalExpr(es[0], st, host, b);
      if h.out.Done? {
        AllBudget(es[1..], h.st, host, a, b);
        AllStep(es[1..], h.st, host, b);
      }
    }
  }

  lemma {:induction false} BoolBudget(op: BoolOperator, es: seq<Expr>, result: Option<Value>, st: State,
        host: Host, a: Limits, b: Limits)
    requires Tighter(a, b)
    ensures Tracks(EvalBool(op, es, result, st, host, a), EvalBool(op, es, result, st, host, b))
    decreases NodesOf(es), 3
  {
    hide Good, EvalExpr, TruthOf;
    if es != [] {
      ExprBudget(es[0], st, host, a, b);
      var h := EvalExpr(es[0], st, host, b);
      if h.out.Done? {
        TruthStep(h.out.value, h.st, host, b);
        var (t, st') := TruthOf(h.out.value, h.st, host);
        if t.Done? && t.value != op.Or? {
          BoolBudget(op, es[1..], Some(h.out.value), st', host, a, b);
          BoolStep(op, es[1..], Some(h.out.value), st', host, b);
        }
      }
    }
  }

  lemma {:induction false} StmtBudget(s: Stmt, st: State, host: Host, a: Limits, b: Limits)
    requires Tighter(a, b)
    ensures Tracks(ExecStmt(s, st, host, a), ExecStmt(s, st, host, b))
    decreases Left(st, a), StmtNodes(s), 0
  {
    hide Good, EvalExpr, ExecAssign, ExecAug, ExecIf, ExecFor;
    match s
    case Assign(targets, value) => AssignBudget(targets, value, st, host, a, b);
    case AugAssign(target, op, value) => AugBudget(target, op, value, st, host, a, b);
    case ExprStmt(value) => ExprBudget(value, st, host, a, b);
    case If(test, body, orelse) => IfBudget(test, body, orelse, st, host, a, b);
    case For(target, iter, body, orelse) => ForBudget(target, iter, body, orelse, st, host, a, b);
    case _ =>
  }

  lemma AssignBudget(targets: seq<Expr>, value: Expr, st: State, host: Host, a: Limits, b: Limits)
    requires Tighter(a, b)
    ensures Tracks(ExecAssign(targets, value, st, host, a), ExecAssign(targets, value, st, host, b))
  {
    hide EvalExpr, AssignEach;
    ExprBudget(value, st, host, a, b);
  }

  lemma AugBudget(target: Expr, op: BinaryOp, value: Expr, st: State, host: Host, a: Limits, b: Limits)
    requires Tighter(a, b)
    ensures Tracks(ExecAug(target, op, value, st, host, a), ExecAug(target, op, value, st, host, b))
  {
    var c, d := EvalExpr(value, st, host, a), EvalExpr(value, st, host, b);
    var r, s := ExecAug(target, op, value, st, host, a), ExecAug(target, op, value, st, host, b);
    ExprBudget(value, st, host, a, b);
    hide Grows, Tracks, EvalExpr, ApplyBinary;
    if c == d || !target.Name? || target.id !in st.env {
      assert r == s;
      TracksItself(r);
    } else {
      CutStops(c, d);
      AugGrows(target, op, value, st, host, b);
      CutShort(c, d, r, s);
    }
  }

  lemma AugGrows(target: Expr, op: BinaryOp, value: Expr, st: State, host: Host, lim: Limits)
    requires target.Name? && target.id in st.env
    ensures Grows(EvalExpr(value, st, host, lim).st, ExecAug(target, op, value, st, host, lim).st)
  {
    hide Good, EvalExpr, ApplyBinary;
    var v := EvalExpr(value, st, host, lim);
    if v.out.Done? {
      BinaryStep(op, st.env[target.id], v.out.value, v.st, host, lim);
    }
  }

  lemma {:induction false} IfBudget(test: Expr, body: seq<Stmt>, orelse: seq<Stmt>, st: State, host: Host,
        a: Limits, b: Limits)
    requires Tighter(a, b)
    ensures Tracks(ExecIf(test, body, orelse, st, host, a), ExecIf(test, body, orelse, st, host, b))
    decreases Left(st, a), Nodes(test) + BlockNodes(body) + BlockNodes(orelse), 2
  {
    var c, d := EvalExpr(test, st, host, a), EvalExpr(test, st, host, b);
    var r, s := ExecIf(test, body, orelse, st, host, a), ExecIf(test, body, orelse, st, host, b);
    hide Good, Grows, EvalExpr, TruthOf, ExecBlock;
    ExprBudget(test, st, host, a, b);
    assert Tracks(r, s) by {
      if c != d {
        IfGrows(test, body, orelse, st, host, b);
        GrowsOn(c.st, d.st, s.st);
      } else if c.out.Done? {
        var (t, st') := TruthOf(c.out.value, c.st, host);
        if t.Done? {
          BlockBudget(if t.value then body else orelse, st', VNone, host, a, b);
        }
      }
    }
    hide *;
  }

  lemma IfGrows(test: Expr, body: seq<Stmt>, orelse: seq<Stmt>, st: State, host: Host, lim: Limits)
    ensures Grows(EvalExpr(test, st, host, lim).st, ExecIf(test, body, orelse, st, host, lim).st)
  {
    hide Good, EvalExpr, TruthOf, ExecBlock;
    var c := EvalExpr(test, st, host, lim);
    if c.out.Done? {
      var (t, st') := TruthOf(c.out.value, c.st, host);
      TruthStep(c.out.value, c.st, host, lim);
      if t.Done? {
        BlockStep(if t.value then body else orelse, st', VNone, host, lim);
      }
    }
  }

  lemma {:induction false} ForBudget(target: Expr, iter: Expr, body: seq<Stmt>, orelse: seq<Stmt>, st: State,
        host: Host, a: Limits, b: Limits)
    requires Tighter(a, b)
    ensures Tracks(ExecFor(target, iter, body, orelse, st, host, a), ExecFor(target, iter, body, orelse, st, host, b))
    decreases Left(st, a), Nodes(target) + Nodes(iter) + BlockNodes(body) + BlockNodes(orelse), 2
  {
    ExprBudget(iter, st, host, a, b);
    hide Grows, Tracks, EvalExpr, OpenIterator, RunLoop, ExecFor;
    var c := EvalExpr(iter, st, host, a);
    if orelse != [] {
      ForElse(target, iter, body, orelse, st, host, a, b);
    } else if c != EvalExpr(iter, st, host, b) {
      ForCut(target, iter, body, st, host, a, b);
    } else if c.out.Done? && OpenIterator(c.out.value, c.st, host).0.Done? {
      var (it, st') := OpenIterator(c.out.value, c.st, host);
      LoopBudget(target, body, it.value, VNone, st', host, a, b);
      ForOpened(target, iter, body, st, host, a, b);
    } else {
      ForRefused(target, iter, body, st, host, a, b);
    }
  }

  lemma ForElse(target: Expr, iter: Expr, body: seq<Stmt>, orelse: seq<Stmt>, st: State, host: Host,
        a: Limits, b: Limits)
    requires orelse != []
    ensures Tracks(ExecFor(target, iter, body, orelse, st, host, a), ExecFor(target, iter, body, orelse, st, host, b))
  {}

  lemma ForCut(target: Expr, iter: Expr, body: seq<Stmt>, st: State, host: Host, a: Limits, b: Limits)
    requires var c, d := EvalExpr(iter, st, host, a), EvalExpr(iter, st, host, b); Tracks(c, d) && c != d
    ensures Tracks(ExecFor(target, iter, body, [], st, host, a), ExecFor(target, iter, body, [], st, host, b))
  {
    var c, d := EvalExpr(iter, st, host, a), EvalExpr(iter, st, host, b);
    hide Grows, EvalExpr, OpenIterator, RunLoop;
    CutStops(c, d);
    ForGrows(target, iter, body, st, host, b);
    CutShort(c, d, ExecFor(target, iter, body, [], st, host, a), ExecFor(target, iter, body, [], st, host, b));
  }

  lemma ForRefused(target: Expr, iter: Expr, body: seq<Stmt>, st: State, host: Host, a: Limits, b: Limits)
    requires var c := EvalExpr(iter, st, host, a);
      c == EvalExpr(iter, st, host, b) && (c.out.Stop? || OpenIterator(c.out.value, c.st, host).0.Stop?)
    ensures Tracks(ExecFor(target, iter, body, [], st, host, a), ExecFor(target, iter, body, [], st, host, b))
  {
    hide EvalExpr, OpenIterator, RunLoop;
  }

  lemma ForOpened(target: Expr, iter: Expr, body: seq<Stmt>, st: State, host: Host, a: Limits, b: Limits)
    requires var c := EvalExpr(iter, st, host, a);
      && c == EvalExpr(iter, st, host, b) && c.out.Done?
      && var (it, st') := OpenIterator(c.out.value, c.st, host);
      && it.Done?
      && Tracks(RunLoop(target, body, it.value, VNone, st', host, a),
                RunLoop(target, body, it.value, VNone, st', host, b))
    ensures Tracks(ExecFor(target, iter, body, [], st, host, a), ExecFor(target, iter, body, [], st, host, b))
  {
    hide Grows, EvalExpr, OpenIterator, RunLoop;
  }

  lemma ForGrows(target: Expr, iter: Expr, body: seq<Stmt>, st: State, host: Host, lim: Limits)
    ensures Grows(EvalExpr(iter, st, host, lim).st, ExecFor(target, iter, body, [], st, host, lim).st)
  {
    hide Good, EvalExpr, OpenIterator, RunLoop;
    var v := EvalExpr(iter, st, host, lim);
    if v.out.Done? {
      IterStep(v.out.value, v.st, host, lim);
      var (it, st') := OpenIterator(v.out.value, v.st, host);
      if it.Done? {
        LoopStep(target, body, it.value, VNone, st', host, lim);
      }
    }
  }

  lemma {:induction false} BlockBudget(ss: seq<Stmt>, st: State, last: Value, host: Host, a: Limits, b: Limits)
    requires Tighter(a, b)
    ensures TracksBlock(ExecBlock(ss, st, last, host, a), ExecBlock(ss, st, last, host, b))
    decreases Left(st, a), BlockNodes(ss), 1
  {
    hide Good, ExecStmt;
    if ss != [] {
      StmtBudget(ss[0], st, host, a, b);
      var h := ExecStmt(ss[0], st, host, b);
      if h.out.Done? {
        BlockStep(ss[1..], h.st, h.out.value, host, b);
        if ExecStmt(ss[0], st, host, a) == h {
          BlockBudget(ss[1..], h.st, h.out.value, host, a, b);
        }
      }
    }
  }

  lemma {:induction false} LoopBudget(target: Expr, body: seq<Stmt>, it: Iter, last: Value, st: State, host: Host,
        a: Limits, b: Limits)
    requires Tighter(a, b)
    ensures Tracks(RunLoop(target, body, it, last, st, host, a), RunLoop(target, body, it, last, st, host, b))
    decreases Left(st, a), BlockNodes(body), 2
  {
    hide Good, RunPass, AssignTarget, Pull;
    var (pulled, st0) := Pull(it, st, host);
    if pulled.Got? {
      var st1 := st0.(loops := st0.loops + 1);
      var (ok, env) := AssignTarget(target, pulled.item, st1.env);
      var st2 := st1.(env := env);
      if st1.loops <= b.loops && ok {
        if st1.loops > a.loops {
          PassStep(target, body, pulled.rest, last, st2, host, b);
        } else {
          PassBudget(target, body, pulled.rest, last, st2, host, a, b);
        }
      }
    }
  }

  lemma {:induction false} PassBudget(target: Expr, body: seq<Stmt>, rest: Iter, last: Value, st: State,
        host: Host, a: Limits, b: Limits)
    requires Tighter(a, b)
    ensures Tracks(RunPass(target, body, rest, last, st, host, a), RunPass(target, body, rest, last, st, host, b))
    decreases Left(st, a), BlockNodes(body), 3
  {
    var c, d := ExecBlock(body, st, last, host, a), ExecBlock(body, st, last, host, b);
    var r, s := RunPass(target, body, rest, last, st, host, a), RunPass(target, body, rest, last, st, host, b);
    hide Good, Grows, ExecBlock, RunLoop;
    BlockBudget(body, st, last, host, a, b);
    assert Tracks(r, s) by {
      if c != d {
        PassGrows(target, body, rest, last, st, host, b);
        GrowsOn(c.st, d.st, s.st);
      } else if c.flow.None? || c.flow == Some(ContinueSignal) {
        LoopBudget(target, body, rest, c.last, c.st, host, a, b);
      }
    }
    hide *;
  }

  lemma PassGrows(target: Expr, body: seq<Stmt>, rest: Iter, last: Value, st: State, host: Host, lim: Limits)
    ensures Grows(ExecBlock(body, st, last, host, lim).st, RunPass(target, body, rest, last, st, host, lim).st)
  {
    hide Good, ExecBlock, RunLoop;
    var b := ExecBlock(body, st, last, host, lim);
    if b.flow.None? || b.flow == Some(ContinueSignal) {
      LoopStep(target, body, rest, b.last, b.st, host, lim);
    }
  }

  /** Raising any of the four budgets changes nothing about a run that did not end in
      `budget_exceeded`: outcome, last value, environment, traces, counters and work are the
      same.  A run that did end so made a prefix of the calls the more generous run makes. */
  lemma BudgetMonotone(p: Program, context: map<string, Value>, history: seq<Query>, host: Host, a: Limits, b: Limits)
    requires Tighter(a, b) && a.length <= b.length && a.nodes <= b.nodes
    ensures var r := RunBlock(p, Fresh(context, history), host, a);
      var s := RunBlock(p, Fresh(context, history), host, b);
      && (r.flow != Some(BudgetExceeded) ==> r == s)
      && r.st.traces <= s.st.traces
      && r.st.history <= s.st.history
  {
    if p.parsed.Some? {
      var ss, st := p.parsed.value, Fresh(context, history);
      BlockBudget(ss, st, VNone, host, a, b);
      BlockStep(ss, st, VNone, host, b);
    }
  }
}
