/** How much work an accepted program can cost. */
module ProgramWork {
  import opened Prelude
  import opened ProgramAst
  import opened ProgramHost
  import opened ProgramSemantics

  /** Loop-body passes begun so far; the increment that exceeds the budget begins none. */
  function Passes(st: State, lim: Limits): nat {
    if st.loops <= lim.loops then st.loops else lim.loops
  }

  /** The counter overshoots the budget by at most one, and then only to stop the run. */
  predicate LoopsBounded(st: State, st': State, exceeded: bool, lim: Limits) {
    st.loops <= lim.loops ==> st'.loops <= lim.loops || (st'.loops == lim.loops + 1 && exceeded)
  }

  /** n paid k times over. */
  function Times(n: nat, k: nat): nat {
    if k == 0 then 0 else n + Times(n, k - 1)
  }

  lemma {:induction false} TimesIsProduct(n: nat, k: nat)
    ensures Times(n, k) == n * k
  {
    if k > 0 {
      TimesIsProduct(n, k - 1);
    }
  }

  lemma {:induction false} TimesMono(n: nat, m: nat, k: nat)
    requires n <= m
    ensures Times(n, k) <= Times(m, k)
  {
    if k > 0 {
      TimesMono(n, m, k - 1);
    }
  }

  lemma {:induction false} TimesSplit(n: nat, i: nat, j: nat)
    ensures Times(n, i + j) == Times(n, i) + Times(n, j)
  {
    if j > 0 {
      TimesSplit(n, i, j - 1);
    }
  }

  lemma {:induction false} TimesSum(n: nat, m: nat, k: nat)
    ensures Times(n + m, k) == Times(n, k) + Times(m, k)
  {
    if k > 0 {
      TimesSum(n, m, k - 1);
    }
  }

  /** A constant part and a part paid once per pass both fit under the whole node. */
  lemma Nested(constant: nat, perPass: nat, whole: nat, passes: nat)
    requires constant + perPass <= whole
    ensures constant + Times(perPass, 1 + passes) <= Times(whole, 1 + passes)
    ensures constant + Times(perPass, passes) <= Times(whole, 1 + passes)
  {
    TimesMono(constant + perPass, whole, 1 + passes);
    TimesSum(constant, perPass, 1 + passes);
    TimesSplit(constant, 1, passes);
  }

  /** Two statements in sequence, with i and then j passes. */
  lemma Sequenced(n: nat, m: nat, i: nat, j: nat)
    ensures Times(n, 1 + i) <= Times(n + m, 1 + i)
    ensures Times(n, 1 + i) + Times(m, 1 + j) <= Times(n + m, 1 + i + j)
  {
    TimesMono(n, n + m, 1 + i);
    TimesSum(n, m, 1 + i + j);
    TimesSplit(n, 1 + i, j);
    TimesSplit(m, 1 + j, i);
  }

  lemma {:induction false} StmtWork(s: Stmt, st: State, host: Host, lim: Limits)
    ensures var r := ExecStmt(s, st, host, lim);
      && Passes(st, lim) <= Passes(r.st, lim)
      && LoopsBounded(st, r.st, r.out == Stop(BudgetExceeded), lim)
      && r.work <= Times(StmtNodes(s), 1 + Passes(r.st, lim) - Passes(st, lim))
    decreases Left(st, lim), StmtNodes(s), 0
  {
    hide EvalExpr, ExecAssign, ExecAug, ExecIf, ExecFor;
    var r := ExecStmt(s, st, host, lim);
    TimesSplit(StmtNodes(s), 1, Passes(r.st, lim) - Passes(st, lim));
    match s
    case If(test, body, orelse) => IfWork(test, body, orelse, st, host, lim);
    case For(target, iter, body, orelse) => ForWork(target, iter, body, orelse, st, host, lim);
    case _ =>
  }

  lemma {:induction false} IfWork(test: Expr, body: seq<Stmt>, orelse: seq<Stmt>, st: State, host: Host, lim: Limits)
    ensures var r := ExecIf(test, body, orelse, st, host, lim);
      && Passes(st, lim) <= Passes(r.st, lim)
      && LoopsBounded(st, r.st, r.out == Stop(BudgetExceeded), lim)
      && r.work <= Times(StmtNodes(If(test, body, orelse)), 1 + Passes(r.st, lim) - Passes(st, lim))
    decreases Left(st, lim), Nodes(test) + BlockNodes(body) + BlockNodes(orelse), 2
  {
    hide EvalExpr, TruthOf, ExecBlock;
    var r := ExecIf(test, body, orelse, st, host, lim);
    var passes := Passes(r.st, lim) - Passes(st, lim);
    TimesSplit(StmtNodes(If(test, body, orelse)), 1, passes);
    var c := EvalExpr(test, st, host, lim);
    if c.out.Done? {
      var (t, st') := TruthOf(c.out.value, c.st, host);
      if t.Done? {
        var ss := if t.value then body else orelse;
        BlockWork(ss, st', VNone, host, lim);
        Nested(1 + Nodes(test), BlockNodes(ss), StmtNodes(If(test, body, orelse)), passes);
      }
    }
  }

  lemma {:induction false} ForWork(target: Expr, iter: Expr, body: seq<Stmt>, orelse: seq<Stmt>, st: State,
        host: Host, lim: Limits)
    ensures var r := ExecFor(target, iter, body, orelse, st, host, lim);
      && Passes(st, lim) <= Passes(r.st, lim)
      && LoopsBounded(st, r.st, r.out == Stop(BudgetExceeded), lim)
      && r.work <= Times(StmtNodes(For(target, iter, body, orelse)), 1 + Passes(r.st, lim) - Passes(st, lim))
    decreases Left(st, lim), Nodes(target) + Nodes(iter) + BlockNodes(body) + BlockNodes(orelse), 2
  {
    hide EvalExpr, OpenIterator, RunLoop;
    var r := ExecFor(target, iter, body, orelse, st, host, lim);
    var passes := Passes(r.st, lim) - Passes(st, lim);
    var whole := StmtNodes(For(target, iter, body, orelse));
    TimesSplit(whole, 1, passes);
    if orelse == [] {
      var v := EvalExpr(iter, st, host, lim);
      if v.out.Done? {
        var (it, st') := OpenIterator(v.out.value, v.st, host);
        if it.Done? {
          LoopWork(target, body, it.value, VNone, st', host, lim);
          Nested(1 + Nodes(iter), BlockNodes(body), whole, passes);
        }
      }
    }
  }

  lemma {:induction false} BlockWork(ss: seq<Stmt>, st: State, last: Value, host: Host, lim: Limits)
    ensures var b := ExecBlock(ss, st, last, host, lim);
      && Passes(st, lim) <= Passes(b.st, lim)
      && LoopsBounded(st, b.st, b.flow == Some(BudgetExceeded), lim)
      && b.work <= Times(BlockNodes(ss), 1 + Passes(b.st, lim) - Passes(st, lim))
    decreases Left(st, lim), BlockNodes(ss), 1
  {
    hide Times, ExecStmt;
    if ss != [] {
      var h := ExecStmt(ss[0], st, host, lim);
      StmtWork(ss[0], st, host, lim);
      var p, q := Passes(st, lim), Passes(h.st, lim);
      Sequenced(StmtNodes(ss[0]), BlockNodes(ss[1..]), q - p, 0);
      if h.out.Done? {
        BlockWork(ss[1..], h.st, h.out.value, host, lim);
        var z := Passes(ExecBlock(ss[1..], h.st, h.out.value, host, lim).st, lim);
        Sequenced(StmtNodes(ss[0]), BlockNodes(ss[1..]), q - p, z - q);
      }
    }
  }

  lemma {:induction false} LoopWork(target: Expr, body: seq<Stmt>, it: Iter, last: Value, st: State, host: Host,
        lim: Limits)
    ensures var r := RunLoop(target, body, it, last, st, host, lim);
      && Passes(st, lim) <= Passes(r.st, lim)
      && LoopsBounded(st, r.st, r.out == Stop(BudgetExceeded), lim)
      && r.work <= Times(BlockNodes(body), Passes(r.st, lim) - Passes(st, lim))
    decreases Left(st, lim), BlockNodes(body), 2
  {
    hide Times, RunPass, AssignTarget, Pull;
    var (pulled, st0) := Pull(it, st, host);
    if pulled.Got? {
      var st1 := st0.(loops := st0.loops + 1);
      if st1.loops <= lim.loops {
        var (ok, env) := AssignTarget(target, pulled.item, st1.env);
        if ok {
          PassWork(target, body, pulled.rest, last, st1.(env := env), host, lim);
        }
      }
    }
  }

  lemma {:induction false} PassWork(target: Expr, body: seq<Stmt>, rest: Iter, last: Value, st: State, host: Host,
        lim: Limits)
    ensures var r := RunPass(target, body, rest, last, st, host, lim);
      && Passes(st, lim) <= Passes(r.st, lim)
      && LoopsBounded(st, r.st, r.out == Stop(BudgetExceeded), lim)
      && r.work <= Times(BlockNodes(body), 1 + Passes(r.st, lim) - Passes(st, lim))
    decreases Left(st, lim), BlockNodes(body), 3
  {
    hide Times, ExecBlock, RunLoop;
    var b := ExecBlock(body, st, last, host, lim);
    BlockWork(body, st, last, host, lim);
    if b.flow.None? || b.flow == Some(ContinueSignal) {
      LoopWork(target, body, rest, b.last, b.st, host, lim);
      var r := RunPass(target, body, rest, last, st, host, lim);
      TimesSplit(BlockNodes(body), 1 + Passes(b.st, lim) - Passes(st, lim), Passes(r.st, lim) - Passes(b.st, lim));
    }
  }

  /** The nodes of an accepted program's statements, or none of one that is turned away. */
  function StatementNodes(p: Program, lim: Limits): nat {
    match Admit(p, lim)
    case Stop(_) => 0
    case Done(ss) => BlockNodes(ss)
  }

  /** Whatever the tools, the iterators and the operators do, a run stops after at most
      nodes * (1 + passes) statement executions and expression evaluations, where nodes is the
      program's own count; all loops together begin at most lim.loops passes, and the counter
      passes the budget only in a run that ends with `budget_exceeded`. */
  lemma WorkBound(p: Program, context: map<string, Value>, history: seq<Query>, host: Host, lim: Limits)
    ensures var b := RunBlock(p, Fresh(context, history), host, lim);
      && b.work <= StatementNodes(p, lim) * (1 + Passes(b.st, lim))
      && StatementNodes(p, lim) <= lim.nodes && Passes(b.st, lim) <= lim.loops
      && (b.st.loops > lim.loops ==> b.st.loops == lim.loops + 1 && b.flow == Some(BudgetExceeded))
  {
    hide Times, ExecBlock, BlockNodes;
    var st := Fresh(context, history);
    var b := RunBlock(p, st, host, lim);
    if Admit(p, lim).Done? {
      BlockWork(p.parsed.value, st, VNone, host, lim);
    }
    TimesIsProduct(StatementNodes(p, lim), 1 + Passes(b.st, lim));
  }

  /** With the repository's own budgets no run takes more than 500 * 1001 steps. */
  lemma DefaultWorkBound(p: Program, context: map<string, Value>, history: seq<Query>, host: Host)
    ensures RunBlock(p, Fresh(context, history), host, DEFAULT_LIMITS).work <= 500 * 1001
  {
    var lim := DEFAULT_LIMITS;
    WorkBound(p, context, history, host, lim);
    var b := RunBlock(p, Fresh(context, history), host, lim);
    var nodes, passes := StatementNodes(p, lim), Passes(b.st, lim);
    assert nodes <= 500 && passes <= 1000;
    hide *;
    TimesSplit(500, 1 + passes, 1000 - passes);
    TimesIsProduct(nodes, 1 + passes);
    TimesMono(nodes, 500, 1 + passes);
    TimesIsProduct(500, 1001);
  }

  /** Whatever the iterator yields can be bound, and from any state within the budget a pass over
      the body falls through or continues, unless loops inside it use the budget up. */
  ghost predicate PassesComplete(target: Expr, body: seq<Stmt>, host: Host, lim: Limits) {
    && (forall item, env :: AssignTarget(target, item, env).0)
    && (forall st: State, last :: st.loops <= lim.loops ==>
          var b := ExecBlock(body, st, last, host, lim);
          b.flow.None? || b.flow == Some(ContinueSignal) || b.st.loops > lim.loops)
  }

  /** An iterator that never ends, over any body whose passes complete, is stopped by the loop budget
      and by nothing else, with exactly the budget's number of passes begun. */
  lemma {:induction false} EndlessLoopHitsBudget(target: Expr, body: seq<Stmt>, cursor: Value, last: Value, st: State,
        host: Host, lim: Limits)
    requires forall h: seq<Query> :: host(h, Next(cursor)).Gives?
    requires PassesComplete(target, body, host, lim) && st.loops <= lim.loops
    ensures var r := RunLoop(target, body, Stream(cursor), last, st, host, lim);
      r.out == Stop(BudgetExceeded) && r.st.loops == lim.loops + 1
    decreases Left(st, lim), 0
  {
    var (pulled, st0) := Pull(Stream(cursor), st, host);
    assert pulled.Got? && pulled.rest == Stream(cursor);
    hide Pull, AssignTarget, RunPass, ExecBlock;
    var st1 := st0.(loops := st0.loops + 1);
    if st1.loops <= lim.loops {
      var (ok, env) := AssignTarget(target, pulled.item, st1.env);
      assert ok;
      EndlessPassHitsBudget(target, body, cursor, last, st1.(env := env), host, lim);
    }
  }

  lemma {:induction false} EndlessPassHitsBudget(target: Expr, body: seq<Stmt>, cursor: Value, last: Value, st: State,
        host: Host, lim: Limits)
    requires forall h: seq<Query> :: host(h, Next(cursor)).Gives?
    requires PassesComplete(target, body, host, lim) && st.loops <= lim.loops
    ensures var r := RunPass(target, body, Stream(cursor), last, st, host, lim);
      r.out == Stop(BudgetExceeded) && r.st.loops == lim.loops + 1
    decreases Left(st, lim), 1
  {
    BlockWork(body, st, last, host, lim);
    var b := ExecBlock(body, st, last, host, lim);
    hide ExecBlock, RunLoop, AssignTarget, Times;
    if b.st.loops <= lim.loops {
      assert b.flow.None? || b.flow == Some(ContinueSignal);
      hide PassesComplete;
      EndlessLoopHitsBudget(target, body, cursor, b.last, b.st, host, lim);
    }
  }

  /** Such a body is `pass`; then every pass takes one step. */
  lemma {:induction false} EndlessPassLoop(target: string, cursor: Value, last: Value, st: State, host: Host,
        lim: Limits)
    requires forall h: seq<Query> :: host(h, Next(cursor)).Gives?
    requires st.loops <= lim.loops
    ensures PassesComplete(Name(target), [Pass], host, lim)
    ensures RunLoop(Name(target), [Pass], Stream(cursor), last, st, host, lim).work == lim.loops - st.loops
    decreases Left(st, lim)
  {
    assert PassesComplete(Name(target), [Pass], host, lim) by {
      forall any, before {
        PassOnce(any, before, host, lim);
      }
    }
    var (pulled, st0) := Pull(Stream(cursor), st, host);
    assert pulled.Got? && pulled.rest == Stream(cursor);
    hide Pull, ExecBlock, PassesComplete;
    var st1 := st0.(loops := st0.loops + 1);
    if st1.loops <= lim.loops {
      var st2 := st1.(env := st1.env[target := pulled.item]);
      PassOnce(st2, last, host, lim);
      EndlessPassLoop(target, cursor, VNone, st2, host, lim);
    }
  }

  lemma PassOnce(st: State, last: Value, host: Host, lim: Limits)
    ensures ExecBlock([Pass], st, last, host, lim) == B(None, VNone, st, 1)
  {
    assert [Pass][1..] == [] && ExecStmt(Pass, st, host, lim) == R(Done(VNone), st, 1);
    assert ExecBlock([], st, VNone, host, lim) == B(None, VNone, st, 0);
  }
}
