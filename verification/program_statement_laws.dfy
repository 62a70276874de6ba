/** Laws of assignments, loops and whole runs. */
module ProgramStatementLaws {
  import opened Prelude
  import opened ProgramAst
  import opened ProgramHost
  import opened ProgramSemantics
  import opened ProgramLaws
  import opened ProgramContainerLaws

  // ----- Assignments -----

  /** The names x0, x1, ... as targets. */
  function NameTargets(names: seq<string>): (r: seq<Expr>)
    ensures |r| == |names| && forall k :: 0 <= k < |r| ==> r[k] == Name(names[k])
  {
    seq(|names|, k requires 0 <= k < |names| => Name(names[k]))
  }

  predicate DistinctNames(names: seq<string>) {
    forall i, j :: 0 <= i < j < |names| ==> names[i] != names[j]
  }

  lemma {:induction false} EachBound(names: seq<string>, v: Value, env: map<string, Value>)
    ensures var (ok, env') := AssignEach(NameTargets(names), v, env);
      && ok && (forall x :: x in env' <==> x in env || x in names)
      && (forall x :: x in env' ==> env'[x] == if x in names then v else env[x])
  {
    if names != [] {
      assert NameTargets(names)[1..] == NameTargets(names[1..]);
      EachBound(names[1..], v, env[names[0] := v]);
      assert names == [names[0]] + names[1..];
    }
  }

  /** `a = b = ... = e` gives every name the value of e and no other name another one. */
  lemma AssignLaw(names: seq<string>, e: Expr, st: State, host: Host, lim: Limits)
    ensures var r := ExecStmt(Assign(NameTargets(names), e), st, host, lim);
      var v := EvalExpr(e, st, host, lim);
      if v.out.Stop? then SameAs(r, v)
      else
        && r.out == v.out && r.st == v.st.(env := r.st.env)
        && (forall x :: x in r.st.env <==> x in st.env || x in names)
        && forall x :: x in r.st.env ==> r.st.env[x] == if x in names then v.out.value else st.env[x]
  {
    hide EvalExpr, AssignEach;
    var v := EvalExpr(e, st, host, lim);
    if v.out.Done? {
      EachBound(names, v.out.value, st.env);
    }
  }

  /** What was assigned to a name is what the name then stands for. */
  lemma AssignThenRead(x: string, e: Expr, st: State, host: Host, lim: Limits)
    requires EvalExpr(e, st, host, lim).out.Done?
    ensures var r := ExecStmt(Assign([Name(x)], e), st, host, lim);
      && r.out == EvalExpr(e, st, host, lim).out
      && r.st == EvalExpr(e, st, host, lim).st.(env := st.env[x := EvalExpr(e, st, host, lim).out.value])
      && EvalExpr(Name(x), r.st, host, lim).out == EvalExpr(e, st, host, lim).out
  {
    assert [Name(x)][1..] == [];
    var v := EvalExpr(e, st, host, lim);
    assert AssignEach([], v.out.value, st.env[x := v.out.value]) == (true, st.env[x := v.out.value]);
  }

  lemma {:induction false} PairsBound(names: seq<string>, values: seq<Value>, env: map<string, Value>)
    requires |names| == |values| && DistinctNames(names)
    ensures var (ok, env') := AssignPairs(NameTargets(names), values, env);
      && ok && (forall k :: 0 <= k < |names| ==> names[k] in env' && env'[names[k]] == values[k])
      && (forall x :: x in env && x !in names ==> x in env' && env'[x] == env[x])
  {
    if names != [] {
      assert NameTargets(names)[1..] == NameTargets(names[1..]);
      PairsBound(names[1..], values[1..], env[names[0] := values[0]]);
      assert names == [names[0]] + names[1..];
      assert names[0] !in names[1..];
    }
  }

  /** Unpacking gives the k-th name the k-th item, of a list or a tuple of the right length, and is
      invalid for anything else; then no name has changed. */
  lemma UnpackLaw(names: seq<string>, e: Expr, st: State, host: Host, lim: Limits)
    requires DistinctNames(names) && EvalExpr(e, st, host, lim).out.Done?
    ensures var r := ExecStmt(Assign([TupleExpr(NameTargets(names))], e), st, host, lim);
      var v := EvalExpr(e, st, host, lim).out.value;
      if (v.VList? || v.VTuple?) && |v.items| == |names| then
        && r.out == Done(v)
        && (forall k :: 0 <= k < |names| ==> names[k] in r.st.env && r.st.env[names[k]] == v.items[k])
        && (forall x :: x in st.env && x !in names ==> x in r.st.env && r.st.env[x] == st.env[x])
      else r.out == Stop(InvalidProgram) && r.st.env == st.env
  {
    var v := EvalExpr(e, st, host, lim);
    var targets := NameTargets(names);
    OneTarget(TupleExpr(targets), v.out.value, st.env);
    hide EvalExpr, AssignEach, AssignPairs;
    if (v.out.value.VList? || v.out.value.VTuple?) && |v.out.value.items| == |names| {
      PairsBound(names, v.out.value.items, st.env);
    }
  }

  /** A list of targets unpacks as a tuple does. */
  lemma ListTargets(targets: seq<Expr>, e: Expr, st: State, host: Host, lim: Limits)
    ensures SameAs(ExecStmt(Assign([ListExpr(targets)], e), st, host, lim),
      ExecStmt(Assign([TupleExpr(targets)], e), st, host, lim))
  {
    var v := EvalExpr(e, st, host, lim);
    if v.out.Done? {
      OneTarget(ListExpr(targets), v.out.value, st.env);
      OneTarget(TupleExpr(targets), v.out.value, st.env);
    }
    hide EvalExpr, AssignEach, Unpack;
  }

  /** What the evaluator does not support makes the program invalid before anything is evaluated: other
      statements, an `else` of a for loop, and an augmented assignment to anything but a bound name.
      An assignment to anything but names and unpackings of them is refused too, and binds nothing. */
  lemma UnsupportedLaw(s: Stmt, st: State, host: Host, lim: Limits)
    ensures
      || s.OtherStmt? || (s.For? && s.orelse != [])
      || (s.AugAssign? && (!s.target.Name? || s.target.id !in st.env))
      ==> var r := ExecStmt(s, st, host, lim); r.out == Stop(InvalidProgram) && r.st == st
    ensures forall target, e ::
      s == Assign([target], e) && EvalExpr(e, st, host, lim).out.Done?
      && !target.Name? && !target.TupleExpr? && !target.ListExpr?
      ==> var r := ExecStmt(s, st, host, lim); r.out == Stop(InvalidProgram) && r.st == EvalExpr(e, st, host, lim).st
  {
    if s.Assign? && |s.targets| == 1 {
      var v := EvalExpr(s.value, st, host, lim);
      assert s.targets == [s.targets[0]];
      if v.out.Done? {
        OneTarget(s.targets[0], v.out.value, st.env);
      }
    }
    hide EvalExpr, AssignEach, Unpack, RunLoop, ExecBlock;
  }

  lemma OneTarget(target: Expr, v: Value, env: map<string, Value>)
    ensures AssignEach([target], v, env) == AssignTarget(target, v, env)
  {
    hide AssignTarget;
    assert [target][1..] == [];
    var (ok, env') := AssignTarget(target, v, env);
    assert AssignEach([], v, env') == (true, env');
  }

  /** `a, b = b, a` swaps. */
  lemma SwapLaw(a: string, b: string, st: State, host: Host, lim: Limits)
    requires a != b && a in st.env && b in st.env
    ensures var swap := Assign([TupleExpr(NameTargets([a, b]))], TupleExpr([Name(b), Name(a)]));
      var r := ExecStmt(swap, st, host, lim);
      r.out.Done? && r.st.env[a := st.env[a]][b := st.env[b]] == st.env
      && a in r.st.env && r.st.env[a] == st.env[b] && b in r.st.env && r.st.env[b] == st.env[a]
  {
    var e := TupleExpr([Name(b), Name(a)]);
    StrictLaw(e, st, host, lim);
    EvalTwo(Name(b), Name(a), st, host, lim);
    var v := EvalExpr(e, st, host, lim);
    assert v.out == Done(VList([st.env[b], st.env[a]])) && v.st == st;
    hide EvalExpr, EvalAll;
    OneTarget(TupleExpr(NameTargets([a, b])), v.out.value, st.env);
    hide AssignEach;
    TwoPairs(a, b, st.env[b], st.env[a], st.env);
  }

  lemma TwoPairs(a: string, b: string, x: Value, y: Value, env: map<string, Value>)
    ensures AssignPairs(NameTargets([a, b]), [x, y], env) == (true, env[a := x][b := y])
  {
    var targets := NameTargets([a, b]);
    assert targets[1..] == [Name(b)] && targets[1..][1..] == [];
    assert [x, y][1..] == [y] && [x, y][1..][1..] == [];
    assert AssignPairs([Name(b)], [y], env[a := x]) == (true, env[a := x][b := y]) by {
      assert [Name(b)][1..] == [] && [y][1..] == [];
    }
  }

  // ----- Loops -----

  /** A loop over a list. */
  function Each(target: Expr, items: seq<Value>, body: seq<Stmt>): Stmt {
    For(target, Constant(VList(items)), body, [])
  }

  lemma EachRuns(target: Expr, items: seq<Value>, body: seq<Stmt>, st: State, host: Host, lim: Limits)
    ensures SameAs(ExecStmt(Each(target, items, body), st, host, lim),
      RunLoop(target, body, Listed(items), VNone, st, host, lim))
  {
    hide RunLoop;
    assert EvalExpr(Constant(VList(items)), st, host, lim) == R(Done(VList(items)), st, 1);
  }

  /** Tuples, dictionaries and strings are looped over as the list of their items, keys and
      characters; other values that are not host objects cannot be looped over. */
  lemma IterableLaw(target: Expr, v: Value, body: seq<Stmt>, st: State, host: Host, lim: Limits)
    requires !v.VHost?
    ensures var r := ExecStmt(For(target, Constant(v), body, []), st, host, lim);
      && (v.VTuple? ==> SameAs(r, ExecStmt(Each(target, v.items, body), st, host, lim)))
      && (v.VStr? ==> SameAs(r, ExecStmt(Each(target, Characters(v.s), body), st, host, lim)))
      && (v.VDict? ==> SameAs(r, ExecStmt(Each(target, Keys(v.entries), body), st, host, lim)))
      && (v.VNone? || v.VBool? || v.VInt? ==> r.out == Stop(InvalidProgram) && r.st == st)
  {
    hide RunLoop;
    assert EvalExpr(Constant(v), st, host, lim) == R(Done(v), st, 1);
    if v.VTuple? {
      EachRuns(target, v.items, body, st, host, lim);
    } else if v.VStr? {
      EachRuns(target, Characters(v.s), body, st, host, lim);
    } else if v.VDict? {
      EachRuns(target, Keys(v.entries), body, st, host, lim);
    }
  }

  /** The value a block starts with matters only to a block that does not complete, and only as its
      own last value. */
  lemma BlockForgets(ss: seq<Stmt>, st: State, last: Value, last': Value, host: Host, lim: Limits)
    ensures var b, b' := ExecBlock(ss, st, last, host, lim), ExecBlock(ss, st, last', host, lim);
      && b'.st == b.st && b'.flow == b.flow
  {
    hide ExecStmt;
    if ss != [] {
      var h := ExecStmt(ss[0], st, host, lim);
    }
  }

  /** So does the value a loop starts with. */
  predicate SameRun(r: R<Value>, r': R<Value>) {
    r'.st == r.st && if r.out.Stop? then r'.out == r.out else r'.out.Done?
  }

  lemma {:induction false} LoopForgets(target: Expr, body: seq<Stmt>, it: Iter, last: Value, last': Value, st: State,
        host: Host, lim: Limits)
    ensures SameRun(RunLoop(target, body, it, last, st, host, lim), RunLoop(target, body, it, last', st, host, lim))
    decreases Left(st, lim), 0
  {
    hide RunPass, AssignTarget, Pull;
    var (pulled, st0) := Pull(it, st, host);
    if pulled.Got? {
      var st1 := st0.(loops := st0.loops + 1);
      var (ok, env) := AssignTarget(target, pulled.item, st1.env);
      if st1.loops <= lim.loops && ok {
        PassForgets(target, body, pulled.rest, last, last', st1.(env := env), host, lim);
      }
    }
  }

  lemma {:induction false} PassForgets(target: Expr, body: seq<Stmt>, rest: Iter, last: Value, last': Value, st: State,
        host: Host, lim: Limits)
    ensures SameRun(RunPass(target, body, rest, last, st, host, lim), RunPass(target, body, rest, last', st, host, lim))
    decreases Left(st, lim), 1
  {
    BlockForgets(body, st, last, last', host, lim);
    hide ExecBlock, RunLoop;
    var b, b' := ExecBlock(body, st, last, host, lim), ExecBlock(body, st, last', host, lim);
    if b.flow.None? || b.flow == Some(ContinueSignal) {
      LoopForgets(target, body, rest, b.last, b'.last, b.st, host, lim);
    }
  }

  /** A loop over nothing does nothing. */
  lemma EmptyLoop(target: Expr, body: seq<Stmt>, st: State, host: Host, lim: Limits)
    ensures var r := ExecStmt(Each(target, [], body), st, host, lim); r.out == Done(VNone) && r.st == st
  {
    EachRuns(target, [], body, st, host, lim);
    hide ExecStmt;
  }

  /** What the first pass of a loop comes to: the target is assigned the item, and then the body runs. */
  function FirstPass(target: Expr, item: Value, body: seq<Stmt>, st: State, host: Host, lim: Limits): B {
    var bound := ExecStmt(Assign([target], Constant(item)), st, host, lim);
    if bound.out.Stop? then B(Some(bound.out.exit), VNone, bound.st, 0)
    else ExecBlock(body, bound.st, VNone, host, lim)
  }

  lemma PassIsFirst(target: Expr, item: Value, body: seq<Stmt>, st: State, host: Host, lim: Limits)
    ensures var (ok, env) := AssignTarget(target, item, st.env);
      var b := FirstPass(target, item, body, st, host, lim);
      if !ok then b.flow == Some(InvalidProgram) && b.st == st.(env := env)
      else b == ExecBlock(body, st.(env := env), VNone, host, lim)
  {
    OneTarget(target, item, st.env);
    assert EvalExpr(Constant(item), st, host, lim) == R(Done(item), st, 1);
    hide ExecBlock, AssignTarget, AssignEach;
  }

  lemma Unrolled(target: Expr, item: Value, rest: seq<Value>, body: seq<Stmt>, st: State, host: Host, lim: Limits)
    ensures var r := RunLoop(target, body, Listed([item] + rest), VNone, st, host, lim);
      var st1 := st.(loops := st.loops + 1);
      var b := FirstPass(target, item, body, st1, host, lim);
      if st.loops >= lim.loops then r.out == Stop(BudgetExceeded) && r.st == st1
      else if b.flow == Some(BreakSignal) then r.out == Done(b.last) && r.st == b.st
      else if b.flow.Some? && b.flow.value != ContinueSignal then r.out == Stop(b.flow.value) && r.st == b.st
      else SameAs(r, RunLoop(target, body, Listed(rest), b.last, b.st, host, lim))
  {
    assert Pull(Listed([item] + rest), st, host) == (Got(item, Listed(rest)), st) by {
      assert ([item] + rest)[1..] == rest;
    }
    PassIsFirst(target, item, body, st.(loops := st.loops + 1), host, lim);
    hide ExecBlock, FirstPass, AssignTarget, Pull;
  }

  lemma LoopEnds(target: Expr, body: seq<Stmt>, last: Value, st: State, host: Host, lim: Limits)
    ensures RunLoop(target, body, Listed([]), last, st, host, lim) == R(Done(last), st, 0)
  {}

  /** One pass of a loop at a time.  Beyond the budget it stops before anything happens.  Otherwise a
      break ends the loop after the pass, any other failure ends it as that failure, and after a
      pass that completes or continues the loop goes on over the rest. */
  lemma LoopLaw(target: Expr, item: Value, rest: seq<Value>, body: seq<Stmt>, st: State, host: Host, lim: Limits)
    ensures var r := ExecStmt(Each(target, [item] + rest, body), st, host, lim);
      var st1 := st.(loops := st.loops + 1);
      var b := FirstPass(target, item, body, st1, host, lim);
      if st.loops >= lim.loops then r.out == Stop(BudgetExceeded) && r.st == st1
      else if b.flow == Some(BreakSignal) then r.out == Done(b.last) && r.st == b.st
      else if b.flow.Some? && b.flow.value != ContinueSignal then r.out == Stop(b.flow.value) && r.st == b.st
      else if rest == [] then r.out == Done(b.last) && r.st == b.st
      else SameRun(r, ExecStmt(Each(target, rest, body), b.st, host, lim))
  {
    hide ExecStmt, RunLoop, FirstPass;
    var b := FirstPass(target, item, body, st.(loops := st.loops + 1), host, lim);
    EachRuns(target, [item] + rest, body, st, host, lim);
    Unrolled(target, item, rest, body, st, host, lim);
    EachRuns(target, rest, body, b.st, host, lim);
    LoopForgets(target, body, Listed(rest), b.last, VNone, b.st, host, lim);
    LoopEnds(target, body, b.last, b.st, host, lim);
  }

  /** A statement that fails ends its block with the value of the statement before it; one that
      completes hands its own value on. */
  lemma BlockLaw(s: Stmt, rest: seq<Stmt>, st: State, last: Value, host: Host, lim: Limits)
    ensures var h := ExecStmt(s, st, host, lim);
      var b := ExecBlock([s] + rest, st, last, host, lim);
      && (h.out.Stop? ==> b.flow == Some(h.out.exit) && b.last == last && b.st == h.st)
      && (h.out.Done? ==>
            var t := ExecBlock(rest, h.st, h.out.value, host, lim);
            b.flow == t.flow && b.last == t.last && b.st == t.st)
  {
    assert ([s] + rest)[1..] == rest;
    hide ExecStmt;
  }

  /** One pass over a list, with its target a plain name. */
  lemma NamedPass(x: string, items: seq<Value>, body: seq<Stmt>, last: Value, st: State, host: Host, lim: Limits)
    requires items != [] && st.loops < lim.loops
    ensures var st1 := st.(loops := st.loops + 1, env := st.env[x := items[0]]);
      RunLoop(Name(x), body, Listed(items), last, st, host, lim) ==
        RunPass(Name(x), body, Listed(items[1..]), last, st1, host, lim)
  {
    hide RunPass;
  }

  /** The body `x` answers, over the items of a list, with the last of them. */
  lemma {:induction false} PassesAnswer(x: string, items: seq<Value>, last: Value, st: State, host: Host, lim: Limits)
    requires st.loops + |items| <= lim.loops
    ensures RunLoop(Name(x), [ExprStmt(Name(x))], Listed(items), last, st, host, lim).out ==
      Done(if items == [] then last else items[|items| - 1])
    decreases |items|
  {
    if items != [] {
      var item, rest, body := items[0], items[1..], [ExprStmt(Name(x))];
      var st1 := st.(loops := st.loops + 1, env := st.env[x := item]);
      NamedPass(x, items, body, last, st, host, lim);
      BlockOfOne(ExprStmt(Name(x)), st1, last, host, lim);
      AtomLaw(VNone, x, st1, host, lim);
      hide EvalExpr;
      var b := ExecBlock(body, st1, last, host, lim);
      assert b.st == st1 && b.flow == None && b.last == item;
      hide ExecStmt, ExecBlock, RunLoop;
      PassesAnswer(x, rest, item, st1, host, lim);
    } else {
      LoopEnds(Name(x), [ExprStmt(Name(x))], last, st, host, lim);
    }
  }

  /** The body `continue` answers with what the loop had before. */
  lemma {:induction false} ContinuesAnswer(x: string, items: seq<Value>, last: Value, st: State, host: Host,
        lim: Limits)
    requires st.loops + |items| <= lim.loops
    ensures RunLoop(Name(x), [Continue], Listed(items), last, st, host, lim).out == Done(last)
    decreases |items|
  {
    if items != [] {
      var st1 := st.(loops := st.loops + 1, env := st.env[x := items[0]]);
      NamedPass(x, items, [Continue], last, st, host, lim);
      BlockLaw(Continue, [], st1, last, host, lim);
      assert [Continue] + [] == [Continue];
      assert ExecStmt(Continue, st1, host, lim) == R(Stop(ContinueSignal), st1, 1);
      hide ExecStmt, ExecBlock, RunLoop;
      ContinuesAnswer(x, items[1..], last, st1, host, lim);
    } else {
      LoopEnds(Name(x), [Continue], last, st, host, lim);
    }
  }

  /** So a loop answers with its last value, or, if it breaks after it, with its first. */
  lemma LoopAnswers(x: string, items: seq<Value>, st: State, host: Host, lim: Limits)
    requires items != [] && st.loops + |items| <= lim.loops
    ensures ExecStmt(Each(Name(x), items, [ExprStmt(Name(x))]), st, host, lim).out == Done(items[|items| - 1])
    ensures ExecStmt(Each(Name(x), items, [ExprStmt(Name(x)), Break]), st, host, lim).out == Done(items[0])
  {
    EachRuns(Name(x), items, [ExprStmt(Name(x))], st, host, lim);
    PassesAnswer(x, items, VNone, st, host, lim);
    var st1 := st.(loops := st.loops + 1);
    var body := [ExprStmt(Name(x)), Break];
    assert items == [items[0]] + items[1..];
    LoopLaw(Name(x), items[0], items[1..], body, st, host, lim);
    AssignThenRead(x, Constant(items[0]), st1, host, lim);
    var bound := ExecStmt(Assign([Name(x)], Constant(items[0])), st1, host, lim).st;
    assert body == [ExprStmt(Name(x))] + [Break] && [Break] == [Break] + [];
    BlockLaw(ExprStmt(Name(x)), [Break], bound, VNone, host, lim);
    BlockLaw(Break, [], bound, items[0], host, lim);
    hide RunLoop, ExecBlock;
  }

  // ----- Loops over what the host can iterate -----

  /** Opening a host object asks it once.  What it gives is looped over; a type or value error makes
      the program invalid, and anything else is a runtime error. */
  lemma OpeningLaw(target: Expr, iter: Expr, body: seq<Stmt>, st: State, host: Host, lim: Limits)
    requires var v := EvalExpr(iter, st, host, lim); v.out.Done? && v.out.value.VHost?
    ensures var v := EvalExpr(iter, st, host, lim);
      var q := OpenIter(v.out.value);
      var answer := host(v.st.history, q);
      var st1 := v.st.(history := v.st.history + [q]);
      var r := ExecStmt(For(target, iter, body, []), st, host, lim);
      if answer.Gives? then SameAs(r, RunLoop(target, body, Stream(answer.v), VNone, st1, host, lim))
      else
        && r.st == st1
        && r.out == Stop(if answer.Raises? && !answer.e.OtherErr? then InvalidProgram else RuntimeError)
  {
    hide EvalExpr, RunLoop;
  }

  /** Each pass asks for the next item first.  At the end the loop is done; a value error makes the
      program invalid and any other failure is a runtime error; an item is a pass like any other, and
      then the loop goes on asking. */
  lemma StreamLaw(target: Expr, cursor: Value, body: seq<Stmt>, st: State, host: Host, lim: Limits)
    ensures var answer := host(st.history, Next(cursor));
      var st1 := st.(history := st.history + [Next(cursor)]);
      var r := RunLoop(target, body, Stream(cursor), VNone, st, host, lim);
      if answer == Exhausted then r.out == Done(VNone) && r.st == st1
      else if !answer.Gives? then
        r.out == Stop(if answer == Raises(ValueErr) then InvalidProgram else RuntimeError) && r.st == st1
      else
        var st2 := st1.(loops := st1.loops + 1);
        var b := FirstPass(target, answer.v, body, st2, host, lim);
        if st1.loops >= lim.loops then r.out == Stop(BudgetExceeded) && r.st == st2
        else if b.flow == Some(BreakSignal) then r.out == Done(b.last) && r.st == b.st
        else if b.flow.Some? && b.flow.value != ContinueSignal then r.out == Stop(b.flow.value) && r.st == b.st
        else SameAs(r, RunLoop(target, body, Stream(cursor), b.last, b.st, host, lim))
  {
    var answer := host(st.history, Next(cursor));
    var st1 := st.(history := st.history + [Next(cursor)]);
    hide FirstPass, ExecBlock, AssignTarget;
    if answer.Gives? {
      assert Pull(Stream(cursor), st, host) == (Got(answer.v, Stream(cursor)), st1);
      PassIsFirst(target, answer.v, body, st1.(loops := st1.loops + 1), host, lim);
      hide Pull;
    } else {
      assert Pull(Stream(cursor), st, host).1 == st1;
    }
  }

  function Sum(xs: seq<int>): int {
    if xs == [] then 0 else xs[0] + Sum(xs[1..])
  }

  function IntValues(xs: seq<int>): (r: seq<Value>)
    ensures |r| == |xs| && forall k :: 0 <= k < |r| ==> r[k] == VInt(xs[k])
  {
    seq(|xs|, k requires 0 <= k < |xs| => VInt(xs[k]))
  }

  /** `total = total + x`. */
  function AddTo(total: string, x: string): Stmt {
    Assign([Name(total)], BinOp(Name(total), Add, Name(x)))
  }

  lemma OneAddition(total: string, x: string, i: int, st: State, host: Host, lim: Limits)
    requires total != x && total in st.env && st.env[total].VInt?
    ensures var b := FirstPass(Name(x), VInt(i), [AddTo(total, x)], st, host, lim);
      b.flow.None? && b.st == st.(env := st.env[x := VInt(i)][total := VInt(st.env[total].i + i)])
  {
    AssignThenRead(x, Constant(VInt(i)), st, host, lim);
    var st1 := st.(env := st.env[x := VInt(i)]);
    assert ExecStmt(Assign([Name(x)], Constant(VInt(i))), st, host, lim).st == st1;
    var e := BinOp(Name(total), Add, Name(x));
    ArithmeticLaw(Name(total), Add, Name(x), st1, host, lim, st.env[total], VInt(i), st1);
    AssignThenRead(total, e, st1, host, lim);
    hide EvalExpr;
    BlockOfOne(AddTo(total, x), st1, VNone, host, lim);
    hide ExecStmt, ExecBlock;
  }

  /** A block of one statement does what the statement does. */
  lemma BlockOfOne(s: Stmt, st: State, last: Value, host: Host, lim: Limits)
    ensures var r := ExecStmt(s, st, host, lim);
      var b := ExecBlock([s], st, last, host, lim);
      && b.st == r.st && b.flow == (if r.out.Stop? then Some(r.out.exit) else None)
      && (r.out.Done? ==> b.last == r.out.value)
  {
    assert [s][1..] == [];
    var r := ExecStmt(s, st, host, lim);
    if r.out.Done? {
      assert ExecBlock([], r.st, r.out.value, host, lim) == B(None, r.out.value, r.st, 0);
    }
    hide ExecStmt;
  }

  /** An end-to-end instance: adding up any list of integers within the loop budget. */
  lemma {:induction false} SummingLoop(total: string, x: string, xs: seq<int>, st: State, host: Host, lim: Limits)
    requires total != x && total in st.env && st.env[total].VInt? && st.loops + |xs| <= lim.loops
    ensures var r := ExecStmt(Each(Name(x), IntValues(xs), [AddTo(total, x)]), st, host, lim);
      && r.out.Done? && r.st.loops == st.loops + |xs| && r.st.history == st.history
      && total in r.st.env && r.st.env[total] == VInt(st.env[total].i + Sum(xs))
    decreases |xs|
  {
    var body := [AddTo(total, x)];
    if xs == [] {
      EmptyLoop(Name(x), body, st, host, lim);
    } else {
      assert IntValues(xs) == [VInt(xs[0])] + IntValues(xs[1..]);
      var st1 := st.(loops := st.loops + 1);
      var b := FirstPass(Name(x), VInt(xs[0]), body, st1, host, lim);
      OneAddition(total, x, xs[0], st1, host, lim);
      LoopLaw(Name(x), VInt(xs[0]), IntValues(xs[1..]), body, st, host, lim);
      hide ExecStmt, FirstPass;
      if |xs| > 1 {
        SummingLoop(total, x, xs[1..], b.st, host, lim);
      } else {
        assert Sum(xs[1..]) == 0;
      }
    }
  }

  // ----- Whole runs -----

  /** What the static checks decide, before anything runs. */
  lemma AdmissionLaw(p: Program, context: map<string, Value>, history: seq<Query>, host: Host, lim: Limits, rv: string)
    ensures var st := Fresh(context, history);
      var b := RunBlock(p, st, host, lim);
      var accepted := p.length <= lim.length && p.parsed.Some? && 1 + BlockNodes(p.parsed.value) <= lim.nodes;
      && (accepted ==> b == ExecBlock(p.parsed.value, st, VNone, host, lim))
      && (!accepted ==>
            && b.st == st && b.work == 0
            && ResultOf(b, rv).error ==
                 Some(if p.length <= lim.length && p.parsed.None? then CodeInvalid else CodeBudget))
  {
    hide ExecBlock;
  }

  /** The run of an accepted one-statement program. */
  lemma OneStatement(p: Program, s: Stmt, context: map<string, Value>, history: seq<Query>, host: Host, lim: Limits)
    requires p.length <= lim.length && p.parsed == Some([s]) && 1 + StmtNodes(s) <= lim.nodes
    ensures var r := ExecStmt(s, Fresh(context, history), host, lim);
      var b := RunBlock(p, Fresh(context, history), host, lim);
      b.st == r.st && b.flow == (if r.out.Stop? then Some(r.out.exit) else None)
      && (r.out.Done? ==> b.last == r.out.value)
  {
    assert [s][1..] == [] && BlockNodes([]) == 0;
    BlockOfOne(s, Fresh(context, history), VNone, host, lim);
    hide ExecStmt, ExecBlock;
  }

  lemma AssignNodes(x: string, e: Expr)
    ensures StmtNodes(Assign([Name(x)], e)) == 3 + Nodes(e)
  {
    var none: seq<Expr> := [];
    assert [Name(x)][1..] == none && NodesOf(none) == 0;
    assert NodesOf([Name(x)]) == Nodes(Name(x)) + NodesOf(none);
  }

  /** How a run is reported: the code says how it ended, the traces are all there are, and the answer is
      the result variable if it is bound, also by a run that failed; otherwise the value of the last
      statement, and nothing after a failure. */
  lemma AnswerLaw(b: B, rv: string)
    ensures var r := ResultOf(b, rv);
      && r.traces == b.st.traces
      && (r.error == None <==> b.flow == None)
      && (r.error == Some(CodeInvalid) <==> b.flow == Some(InvalidProgram))
      && (r.error == Some(CodeBudget) <==> b.flow == Some(BudgetExceeded))
      && (r.error == Some(CodeTimeout) <==> b.flow == Some(ToolTimeout))
      && (r.error == Some(CodeInvocation) <==> b.flow == Some(ToolInvocationFailed))
      && (r.error == Some(CodeTool) <==> b.flow == Some(ToolCallFailed))
      && (rv in b.st.env ==> r.finalData == b.st.env[rv])
      && (rv !in b.st.env ==> r.finalData == if b.flow == None then b.last else VNone)
  {
    assert b.flow.Some? ==> CodeOf(b.flow.value) in {CodeInvalid, CodeBudget, CodeTimeout, CodeInvocation, CodeTool,
      CodeRuntime};
  }

  /** A run answers with the result variable if the program assigned it, and otherwise with the value
      of its last statement. */
  lemma ResultLaw(p: Program, x: string, e: Expr, v: Value, context: map<string, Value>, history: seq<Query>,
        host: Host, lim: Limits)
    requires e == Constant(v) && p.length <= lim.length && 4 + Nodes(e) <= lim.nodes
    ensures p.parsed == Some([Assign([Name(x)], e)]) ==>
      ResultOf(RunBlock(p, Fresh(context, history), host, lim), x) == RunResult(None, v, [])
    ensures p.parsed == Some([ExprStmt(e)]) && x !in context ==>
      ResultOf(RunBlock(p, Fresh(context, history), host, lim), x) == RunResult(None, v, [])
  {
    AssignNodes(x, e);
    if p.parsed == Some([Assign([Name(x)], e)]) {
      OneStatement(p, Assign([Name(x)], e), context, history, host, lim);
      AssignThenRead(x, e, Fresh(context, history), host, lim);
    } else if p.parsed == Some([ExprStmt(e)]) {
      OneStatement(p, ExprStmt(e), context, history, host, lim);
    }
    hide RunBlock;
  }

  /** `if True: x = 1` / `else: x = 2` answers 1, and with False it answers 2. */
  lemma BranchResult(b: bool, x: string, length: nat, context: map<string, Value>, history: seq<Query>, host: Host)
    requires length <= DEFAULT_LIMITS.length
    ensures var one, two := Assign([Name(x)], Constant(VInt(1))), Assign([Name(x)], Constant(VInt(2)));
      var p := Program(length, Some([If(Constant(VBool(b)), [one], [two])]));
      ResultOf(RunBlock(p, Fresh(context, history), host, DEFAULT_LIMITS), x) ==
        RunResult(None, VInt(if b then 1 else 2), [])
  {
    var lim := DEFAULT_LIMITS;
    var one, two := Assign([Name(x)], Constant(VInt(1))), Assign([Name(x)], Constant(VInt(2)));
    var s := If(Constant(VBool(b)), [one], [two]);
    var p := Program(length, Some([s]));
    var st := Fresh(context, history);
    AssignNodes(x, one.value);
    AssignNodes(x, two.value);
    assert [one][1..] == [] && [two][1..] == [] && BlockNodes([]) == 0;
    OneStatement(p, s, context, history, host, lim);
    IfTrueOrFalse([one], [two], st, host, lim);
    var chosen := if b then one else two;
    AssignThenRead(x, chosen.value, st, host, lim);
    BlockOfOne(chosen, st, VNone, host, lim);
    hide ExecStmt, ExecBlock, RunBlock;
  }

  /** The code a run ends with, and what it has recorded, after the program `call_tool(tool)`. */
  lemma OneCallRun(p: Program, tool: string, rv: string, context: map<string, Value>, history: seq<Query>, host: Host,
        lim: Limits)
    requires p.length <= lim.length && lim.nodes >= 6 && lim.calls > 0 && rv !in context
    requires p.parsed == Some([ExprStmt(Call(Name("call_tool"), [Constant(VStr(tool))], []))])
    ensures var r := ResultOf(RunBlock(p, Fresh(context, history), host, lim), rv);
      var answer := host(history, Invoke(tool, VDict([])));
      && (answer.TimedOut? ==> r == RunResult(Some(CodeTimeout), VNone, []))
      && (!answer.TimedOut? && !answer.Replies? ==> r == RunResult(Some(CodeInvocation), VNone, []))
      && (answer.Replies? ==>
            && |r.traces| == 1 && r.traces[0].tool == tool && r.traces[0].isError == answer.isError
            && r.error == (if answer.isError then Some(CodeTool) else None)
            && r.finalData == if answer.isError then VNone
                              else if answer.data.Some? then answer.data.value
                              else if answer.text.Some? then VStr(answer.text.value)
                              else VNone)
  {
    var st := Fresh(context, history);
    var args := [Constant(VStr(tool))];
    var call := Call(Name("call_tool"), args, []);
    EvalOne(args[0], st, host, lim);
    CallNodes(tool);
    OneStatement(p, ExprStmt(call), context, history, host, lim);
    CallToolLaw(args, st, host, lim, [VStr(tool)], st, tool, VDict([]));
    hide EvalExpr, EvalAll, RunBlock;
  }

  lemma CallNodes(tool: string)
    ensures StmtNodes(ExprStmt(Call(Name("call_tool"), [Constant(VStr(tool))], []))) == 5
  {
    var none: seq<Expr> := [];
    var args := [Constant(VStr(tool))];
    assert args[1..] == none && NodesOf(none) == 0;
    assert NodesOf(args) == Nodes(args[0]) + NodesOf(none);
    var call := Call(Name("call_tool"), args, none);
    assert Nodes(call) == 1 + Nodes(call.fn) + NodesOf(args) + NodesOf(none);
    assert StmtNodes(ExprStmt(call)) == 1 + Nodes(call);
  }
}
