/** Laws of the language: what statements and expressions come to, told without the evaluator's own
    cases. */
module ProgramLaws {
  import opened Prelude
  import opened ProgramAst
  import opened ProgramHost
  import opened ProgramSemantics

  // ----- Branches -----

  /** A statement that did what a block does. */
  predicate DoesAs(r: R<Value>, b: B) {
    r.st == b.st && r.out == if b.flow.Some? then Stop(b.flow.value) else Done(b.last)
  }

  /** Same outcome and same state. */
  predicate SameAs(r: R<Value>, r': R<Value>) {
    r.out == r'.out && r.st == r'.st
  }

  /** The truth of a test's value, or why there is none, and the state that leaves. */
  function Tested(test: Expr, st: State, host: Host, lim: Limits): (Outcome<bool>, State) {
    var c := EvalExpr(test, st, host, lim);
    if c.out.Stop? then (Stop(c.out.exit), c.st) else TruthOf(c.out.value, c.st, host)
  }

  /** A constant is its value, and a name what it is bound to; an unbound one makes the program invalid. */
  lemma AtomLaw(v: Value, x: string, st: State, host: Host, lim: Limits)
    ensures var r := EvalExpr(Constant(v), st, host, lim); r.out == Done(v) && r.st == st
    ensures var r := EvalExpr(Name(x), st, host, lim);
      && r.st == st
      && (forall w :: r.out == Done(w) <==> x in st.env && st.env[x] == w)
      && (x !in st.env ==> r.out == Stop(InvalidProgram))
  {}

  /** `if`: the body when the test is true, the other block when it is false, and neither when the
      test fails. */
  lemma IfLaw(test: Expr, body: seq<Stmt>, orelse: seq<Stmt>, st: State, host: Host, lim: Limits)
    ensures var r := ExecStmt(If(test, body, orelse), st, host, lim);
      var (t, st1) := Tested(test, st, host, lim);
      && (t.Stop? ==> r.out == Stop(t.exit) && r.st == st1)
      && (t == Done(true) ==> DoesAs(r, ExecBlock(body, st1, VNone, host, lim)))
      && (t == Done(false) ==> DoesAs(r, ExecBlock(orelse, st1, VNone, host, lim)))
  {
    hide EvalExpr, TruthOf, ExecBlock;
  }

  /** The same for a conditional expression. */
  lemma IfExpLaw(test: Expr, body: Expr, orelse: Expr, st: State, host: Host, lim: Limits)
    ensures var r := EvalExpr(IfExp(test, body, orelse), st, host, lim);
      var (t, st1) := Tested(test, st, host, lim);
      && (t.Stop? ==> r.out == Stop(t.exit) && r.st == st1)
      && (t == Done(true) ==> SameAs(r, EvalExpr(body, st1, host, lim)))
      && (t == Done(false) ==> SameAs(r, EvalExpr(orelse, st1, host, lim)))
  {
    hide TruthOf, EvalBool, EvalStrict;
  }

  /** The values Python counts as false; every other value that is not a host object is true. */
  const FALSY := {VNone, VBool(false), VInt(0), VStr(""), VList([]), VTuple([]), VDict([])}

  /** Truth is told without asking, except of a host object, whose own answer it is. */
  lemma TruthLaw(v: Value, st: State, host: Host)
    ensures !v.VHost? ==> TruthOf(v, st, host) == (Done(v !in FALSY), st)
    ensures v.VHost? ==>
      var (t, st1) := TruthOf(v, st, host);
      && st1 == st.(history := st.history + [Truth(v)])
      && (forall b :: t == Done(b) <==> host(st.history, Truth(v)) == Gives(VBool(b)))
  {}

  /** Constant tests: the true block runs exactly for the values that are not falsy. */
  lemma ConstantIf(v: Value, body: seq<Stmt>, orelse: seq<Stmt>, st: State, host: Host, lim: Limits)
    requires !v.VHost?
    ensures DoesAs(ExecStmt(If(Constant(v), body, orelse), st, host, lim),
      ExecBlock(if v in FALSY then orelse else body, st, VNone, host, lim))
  {
    IfLaw(Constant(v), body, orelse, st, host, lim);
    TruthLaw(v, st, host);
    hide ExecStmt, ExecBlock, TruthOf;
  }

  lemma IfTrueOrFalse(body: seq<Stmt>, orelse: seq<Stmt>, st: State, host: Host, lim: Limits)
    ensures DoesAs(ExecStmt(If(Constant(VBool(true)), body, orelse), st, host, lim),
      ExecBlock(body, st, VNone, host, lim))
    ensures DoesAs(ExecStmt(If(Constant(VBool(false)), body, orelse), st, host, lim),
      ExecBlock(orelse, st, VNone, host, lim))
  {
    ConstantIf(VBool(true), body, orelse, st, host, lim);
    ConstantIf(VBool(false), body, orelse, st, host, lim);
    hide ExecStmt, ExecBlock;
  }

  lemma ConstantIfExp(v: Value, body: Expr, orelse: Expr, st: State, host: Host, lim: Limits)
    requires !v.VHost?
    ensures SameAs(EvalExpr(IfExp(Constant(v), body, orelse), st, host, lim),
      EvalExpr(if v in FALSY then orelse else body, st, host, lim))
  {
    IfExpLaw(Constant(v), body, orelse, st, host, lim);
    TruthLaw(v, st, host);
    assert EvalExpr(Constant(v), st, host, lim) == R(Done(v), st, 1);
    hide EvalExpr, TruthOf;
  }

  // ----- Boolean operators -----

  /** What is done so far matters only when no operand is left. */
  lemma ResultForgotten(op: BoolOperator, es: seq<Expr>, a: Option<Value>, b: Option<Value>, st: State, host: Host,
        lim: Limits)
    requires es != []
    ensures EvalBool(op, es, a, st, host, lim) == EvalBool(op, es, b, st, host, lim)
  {}

  lemma LastOperand(op: BoolOperator, v: Value, st: State, host: Host, lim: Limits)
    ensures EvalBool(op, [], Some(v), st, host, lim) == R(Done(v), st, 0)
  {}

  /** `and` and `or`: the first operand decides if it is false, respectively true, and then nothing
      else is evaluated; otherwise the rest decides, and a last operand is the value. */
  lemma BoolLaw(op: BoolOperator, e: Expr, es: seq<Expr>, st: State, host: Host, lim: Limits)
    ensures var r := EvalExpr(BoolOp(op, [e] + es), st, host, lim);
      var h := EvalExpr(e, st, host, lim);
      var (t, st1) := Tested(e, st, host, lim);
      && (t.Stop? ==> r.out == Stop(t.exit) && r.st == st1)
      && (t == Done(op.Or?) ==> r.out == h.out && r.st == st1)
      && (t == Done(op.And?) && es == [] ==> r.out == h.out && r.st == st1)
      && (t == Done(op.And?) && es != [] ==> SameAs(r, EvalExpr(BoolOp(op, es), st1, host, lim)))
  {
    assert ([e] + es)[1..] == es;
    var h := EvalExpr(e, st, host, lim);
    if h.out.Done? {
      LastOperand(op, h.out.value, TruthOf(h.out.value, h.st, host).1, host, lim);
    }
    if h.out.Done? && es != [] {
      var st1 := TruthOf(h.out.value, h.st, host).1;
      var start := if op.And? then Some(VBool(true)) else None;
      ResultForgotten(op, es, Some(h.out.value), start, st1, host, lim);
    }
    hide TruthOf, EvalStrict, EvalIfExp;
  }

  // ----- Nodes over evaluated operands -----

  lemma EvalOne(e: Expr, st: State, host: Host, lim: Limits)
    ensures var r := EvalAll([e], st, host, lim);
      var x := EvalExpr(e, st, host, lim);
      r == if x.out.Stop? then R(Stop(x.out.exit), x.st, x.work) else R(Done([x.out.value]), x.st, x.work)
  {
    hide EvalExpr;
    var x := EvalExpr(e, st, host, lim);
    assert [e][1..] == [] && EvalAll([], x.st, host, lim) == R(Done([]), x.st, 0);
    if x.out.Done? {
      assert [x.out.value] + [] == [x.out.value];
    }
  }

  lemma EvalTwo(a: Expr, b: Expr, st: State, host: Host, lim: Limits)
    ensures var r := EvalAll([a, b], st, host, lim);
      var x := EvalExpr(a, st, host, lim);
      var y := EvalExpr(b, x.st, host, lim);
      r == if x.out.Stop? then R(Stop(x.out.exit), x.st, x.work)
           else if y.out.Stop? then R(Stop(y.out.exit), y.st, x.work + y.work)
           else R(Done([x.out.value, y.out.value]), y.st, x.work + y.work)
  {
    hide EvalExpr;
    var x := EvalExpr(a, st, host, lim);
    var y := EvalExpr(b, x.st, host, lim);
    assert [a, b][1..] == [b];
    EvalOne(b, x.st, host, lim);
    if x.out.Done? && y.out.Done? {
      assert [x.out.value] + [y.out.value] == [x.out.value, y.out.value];
    }
  }

  /** A node that evaluates all its children has the value of its operator over their values. */
  lemma StrictLaw(e: Expr, st: State, host: Host, lim: Limits)
    requires !e.Constant? && !e.Name? && !e.BoolOp? && !e.IfExp?
    ensures var r := EvalExpr(e, st, host, lim);
      var vs := EvalAll(Children(e), st, host, lim);
      if vs.out.Stop? then r.out == Stop(vs.out.exit) && r.st == vs.st
      else (r.out, r.st) == ApplyNode(e, vs.out.value, vs.st, host, lim)
  {
    hide EvalAll, ApplyNode;
  }

  /** The host is asked, and its answer is the outcome: a ValueError makes the program invalid, any
      other exception is a runtime error. */
  predicate Asks(r: R<Value>, st: State, q: Query, host: Host) {
    && r.st == st.(history := st.history + [q])
    && match host(st.history, q)
       case Gives(v) => r.out == Done(v)
       case Raises(ValueErr) => r.out == Stop(InvalidProgram)
       case _ => r.out == Stop(RuntimeError)
  }

  /** Both operands, from left to right, of a binary operator. */
  predicate Operands(a: Expr, b: Expr, st: State, host: Host, lim: Limits, x: Value, y: Value, st1: State) {
    var l := EvalExpr(a, st, host, lim);
    l.out == Done(x) && var r := EvalExpr(b, l.st, host, lim); r.out == Done(y) && r.st == st1
  }

  lemma BinaryApplied(a: Expr, op: BinaryOp, b: Expr, st: State, host: Host, lim: Limits, x: Value, y: Value,
        st1: State)
    requires Operands(a, b, st, host, lim, x, y, st1)
    ensures var r := EvalExpr(BinOp(a, op, b), st, host, lim); (r.out, r.st) == ApplyBinary(op, x, y, st1, host)
  {
    StrictLaw(BinOp(a, op, b), st, host, lim);
    EvalTwo(a, b, st, host, lim);
    hide EvalExpr, EvalAll, ApplyBinary;
  }

  /** Python's `+` on two strings or two sequences of one kind. */
  predicate Joins(op: BinaryOp, x: Value, y: Value) {
    op.Add? && ((x.VStr? && y.VStr?) || (x.VList? && y.VList?) || (x.VTuple? && y.VTuple?))
  }

  predicate Computes(op: BinaryOp, x: Value, y: Value) {
    x.VInt? && y.VInt? && (op.Add? || op.Sub? || op.Mult?)
  }

  /** Integers are added, subtracted and multiplied without bound, strings and sequences of one kind
      are joined, and any other operation that is supported is left to the host. */
  lemma ArithmeticLaw(a: Expr, op: BinaryOp, b: Expr, st: State, host: Host, lim: Limits, x: Value, y: Value,
        st1: State)
    requires Operands(a, b, st, host, lim, x, y, st1)
    ensures var r := EvalExpr(BinOp(a, op, b), st, host, lim);
      && (Computes(op, x, y) ==>
            r.st == st1 && r.out == Done(VInt(if op.Add? then x.i + y.i else if op.Sub? then x.i - y.i else x.i * y.i)))
      && (Joins(op, x, y) ==>
            r.st == st1 && r.out == Done(if x.VStr? then VStr(x.s + y.s)
                                         else if x.VList? then VList(x.items + y.items)
                                         else VTuple(x.items + y.items)))
      && (op.OtherBinary? ==> r.out == Stop(InvalidProgram) && r.st == st1)
      && (!Computes(op, x, y) && !Joins(op, x, y) && !op.OtherBinary? ==> Asks(r, st1, Binary(op, x, y), host))
  {
    BinaryApplied(a, op, b, st, host, lim, x, y, st1);
    hide EvalExpr, Operands;
  }

  /** So what is added can be taken away again. */
  lemma AddThenSubtract(a: Expr, b: Expr, st: State, host: Host, lim: Limits)
    requires b.Constant? || b.Name?
    requires EvalExpr(a, st, host, lim).out.Done? && EvalExpr(a, st, host, lim).out.value.VInt?
    requires EvalExpr(b, st, host, lim).out.Done? && EvalExpr(b, st, host, lim).out.value.VInt?
    ensures SameAs(EvalExpr(BinOp(BinOp(a, Add, b), Sub, b), st, host, lim), EvalExpr(a, st, host, lim))
  {
    var x, y := EvalExpr(a, st, host, lim), EvalExpr(b, st, host, lim).out.value;
    PureOperand(b, st, x.st, host, lim);
    ArithmeticLaw(a, Add, b, st, host, lim, x.out.value, y, x.st);
    ArithmeticLaw(BinOp(a, Add, b), Sub, b, st, host, lim, VInt(x.out.value.i + y.i), y, x.st);
    hide EvalExpr;
  }

  /** A constant or a variable has the same value wherever the variables are the same. */
  lemma PureOperand(e: Expr, st: State, st1: State, host: Host, lim: Limits)
    requires (e.Constant? || e.Name?) && st1.env == st.env
    ensures EvalExpr(e, st1, host, lim).out == EvalExpr(e, st, host, lim).out
    ensures EvalExpr(e, st1, host, lim).st == st1
  {}

  lemma UnaryApplied(op: UnaryOp, e: Expr, st: State, host: Host, lim: Limits)
    ensures var r := EvalExpr(UnaryExpr(op, e), st, host, lim);
      var x := EvalExpr(e, st, host, lim);
      if x.out.Stop? then SameAs(r, x) else (r.out, r.st) == ApplyUnary(op, x.out.value, x.st, host)
  {
    StrictLaw(UnaryExpr(op, e), st, host, lim);
    EvalOne(e, st, host, lim);
    hide EvalExpr, EvalAll, ApplyUnary;
  }

  /** `not` turns the truth of its operand round. */
  lemma NotLaw(e: Expr, st: State, host: Host, lim: Limits)
    ensures var r := EvalExpr(UnaryExpr(Not, e), st, host, lim);
      var (t, st1) := Tested(e, st, host, lim);
      r.st == st1 && r.out == if t.Stop? then Stop(t.exit) else Done(VBool(!t.value))
  {
    UnaryApplied(Not, e, st, host, lim);
    hide EvalExpr, TruthOf;
  }

  /** A minus turns an integer round, and a plus leaves it. */
  lemma SignLaw(e: Expr, st: State, host: Host, lim: Limits)
    requires EvalExpr(e, st, host, lim).out.Done? && EvalExpr(e, st, host, lim).out.value.VInt?
    ensures var x := EvalExpr(e, st, host, lim);
      && SameAs(EvalExpr(UnaryExpr(USub, e), st, host, lim), x.(out := Done(VInt(0 - x.out.value.i))))
      && SameAs(EvalExpr(UnaryExpr(UAdd, e), st, host, lim), x)
  {
    UnaryApplied(USub, e, st, host, lim);
    UnaryApplied(UAdd, e, st, host, lim);
    hide EvalExpr;
  }

  /** Inverting bits is not supported, and a sign before anything but an integer is the host's. */
  lemma OtherSign(op: UnaryOp, e: Expr, st: State, host: Host, lim: Limits)
    requires EvalExpr(e, st, host, lim).out.Done? && !op.Not?
    ensures var x := EvalExpr(e, st, host, lim);
      var r := EvalExpr(UnaryExpr(op, e), st, host, lim);
      && (op.Invert? ==> r.out == Stop(InvalidProgram) && r.st == x.st)
      && (!op.Invert? && !x.out.value.VInt? ==> Asks(r, x.st, Prefix(op, x.out.value), host))
  {
    UnaryApplied(op, e, st, host, lim);
    hide EvalExpr, TruthOf;
  }

  // ----- Comparisons -----

  /** The signs of left - right that a comparison of integers admits. */
  function Admitted(op: CompareOp): set<int> {
    match op
    case Eq => {0}
    case NotEq => {-1, 1}
    case Lt => {-1}
    case LtE => {-1, 0}
    case Gt => {1}
    case GtE => {0, 1}
    case _ => {}
  }

  function Sign(i: int): int {
    if i < 0 then -1 else if i == 0 then 0 else 1
  }

  predicate Numeric(op: CompareOp) {
    Admitted(op) != {}
  }

  predicate Ints(vs: seq<Value>) {
    forall k :: 0 <= k < |vs| ==> vs[k].VInt?
  }

  /** Link k of the chain v0 op0 v1 op1 v2 ... holds. */
  predicate Link(ops: seq<CompareOp>, vs: seq<Value>, k: nat)
    requires |vs| == |ops| + 1 && Ints(vs) && k < |ops|
  {
    Sign(vs[k].i - vs[k + 1].i) in Admitted(ops[k])
  }

  lemma {:induction false} ChainOfInts(v: Value, ops: seq<CompareOp>, rest: seq<Value>, st: State, host: Host)
    requires |rest| == |ops| && v.VInt? && Ints(rest) && forall k :: 0 <= k < |ops| ==> Numeric(ops[k])
    ensures var vs := [v] + rest;
      CompareChain(v, ops, rest, st, host) == (Done(VBool(forall k :: 0 <= k < |ops| ==> Link(ops, vs, k))), st)
    decreases |ops|
  {
    var vs := [v] + rest;
    if ops != [] {
      ChainOfInts(rest[0], ops[1..], rest[1..], st, host);
      var vs1 := [rest[0]] + rest[1..];
      assert vs1 == rest;
      assert Link(ops, vs, 0) <==> Ordered(ops[0], v.i, rest[0].i);
      assert forall k :: 0 <= k < |ops[1..]| ==> (Link(ops[1..], vs1, k) <==> Link(ops, vs, k + 1));
      if CompareChain(rest[0], ops[1..], rest[1..], st, host).0 == Done(VBool(true)) {
        forall k | 0 <= k < |ops| && Link(ops, vs, 0)
          ensures Link(ops, vs, k)
        {
          assert k > 0 ==> Link(ops[1..], vs1, k - 1);
        }
      }
    }
  }

  /** A chain of comparisons of integers, however long, holds exactly if each of its links does. */
  lemma ComparisonLaw(left: Expr, ops: seq<CompareOp>, comparators: seq<Expr>, st: State, host: Host, lim: Limits)
    requires |ops| == |comparators| && forall k :: 0 <= k < |ops| ==> Numeric(ops[k])
    requires var vs := EvalAll([left] + comparators, st, host, lim); vs.out.Done? && Ints(vs.out.value)
    ensures var vs := EvalAll([left] + comparators, st, host, lim);
      var r := EvalExpr(Compare(left, ops, comparators), st, host, lim);
      && |vs.out.value| == |ops| + 1 && r.st == vs.st
      && r.out == Done(VBool(forall k :: 0 <= k < |ops| ==> Link(ops, vs.out.value, k)))
  {
    StrictLaw(Compare(left, ops, comparators), st, host, lim);
    var vs := EvalAll([left] + comparators, st, host, lim);
    ChainOfInts(vs.out.value[0], ops, vs.out.value[1..], vs.st, host);
    assert [vs.out.value[0]] + vs.out.value[1..] == vs.out.value;
    hide EvalExpr, EvalAll, CompareChain, Link, Numeric;
  }

  /** The host compares, and the truth of what it gives is the value. */
  predicate AsksTruth(r: R<Value>, st: State, q: Query, host: Host) {
    match host(st.history, q)
    case Gives(v) =>
      var (t, st1) := TruthOf(v, Asked(q, st), host);
      r.st == st1 && r.out == if t.Stop? then Stop(t.exit) else Done(VBool(t.value))
    case _ => Asks(r, st, q, host)
  }

  lemma ComparisonApplied(a: Expr, op: CompareOp, b: Expr, st: State, host: Host, lim: Limits, x: Value, y: Value,
        st1: State)
    requires Operands(a, b, st, host, lim, x, y, st1)
    ensures var r := EvalExpr(Compare(a, [op], [b]), st, host, lim);
      var (t, st2) := CompareTwo(op, x, y, st1, host);
      r.st == st2 && r.out == if t.Stop? then Stop(t.exit) else Done(VBool(t.value))
  {
    StrictLaw(Compare(a, [op], [b]), st, host, lim);
    EvalTwo(a, b, st, host, lim);
    assert [a] + [b] == [a, b] && [x, y][1..] == [y];
    hide EvalExpr, EvalAll, CompareTwo;
    OneLink(x, op, y, st1, host);
  }

  lemma OneLink(x: Value, op: CompareOp, y: Value, st: State, host: Host)
    ensures var (t, st1) := CompareTwo(op, x, y, st, host);
      CompareChain(x, [op], [y], st, host) == (if t.Stop? then Stop(t.exit) else Done(VBool(t.value)), st1)
  {
    hide CompareTwo;
    var st1 := CompareTwo(op, x, y, st, host).1;
    assert [y][1..] == [] && [op][1..] == [];
    assert CompareChain(y, [], [], st1, host) == (Done(VBool(true)), st1);
  }

  /** One comparison of other values: equality of two strings is known, identity tests are not
      supported, and everything else is left to the host. */
  lemma OtherComparison(a: Expr, op: CompareOp, b: Expr, st: State, host: Host, lim: Limits, x: Value, y: Value,
        st1: State)
    requires Operands(a, b, st, host, lim, x, y, st1) && !(x.VInt? && y.VInt? && Numeric(op))
    ensures var r := EvalExpr(Compare(a, [op], [b]), st, host, lim);
      if op.Identity? then r.out == Stop(InvalidProgram) && r.st == st1
      else if x.VStr? && y.VStr? && (op.Eq? || op.NotEq?) then r.out == Done(VBool((x == y) == op.Eq?)) && r.st == st1
      else AsksTruth(r, st1, Comparison(op, x, y), host)
  {
    ComparisonApplied(a, op, b, st, host, lim, x, y, st1);
    hide EvalExpr, Operands, TruthOf;
  }
}
