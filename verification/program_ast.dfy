/** Values and syntax of the constrained program language. */
module ProgramAst {
  import opened Prelude

  /** A Python value.  Floats, sets, generators and every other host object are VHost. */
  datatype Value =
    | VNone
    | VBool(b: bool)
    | VInt(i: int)
    | VStr(s: string)
    | VList(items: seq<Value>)
    | VTuple(items: seq<Value>)
    | VDict(entries: seq<Entry>)
    | VHost(id: nat)

  /** One dictionary item; entries are kept in insertion order. */
  datatype Entry = Entry(key: Value, value: Value)

  datatype BinaryOp = Add | Sub | Mult | Div | OtherBinary
  datatype UnaryOp = Not | USub | UAdd | Invert
  datatype BoolOperator = And | Or
  datatype CompareOp = Eq | NotEq | Lt | LtE | Gt | GtE | In | NotIn | Identity

  /** KeywordArg stands only among the keywords of a call; its arg is None for `**mapping`.
      OtherExpr is any syntax the evaluator rejects and carries how many nodes lie below it. */
  datatype Expr =
    | Constant(literal: Value)
    | Name(id: string)
    | DictExpr(keys: seq<Expr>, values: seq<Expr>)
    | ListExpr(elts: seq<Expr>)
    | TupleExpr(elts: seq<Expr>)
    | Attribute(base: Expr, attr: string)
    | Subscript(base: Expr, index: Expr)
    | Call(fn: Expr, args: seq<Expr>, keywords: seq<Expr>)
    | KeywordArg(arg: Option<string>, bound: Expr)
    | BinOp(left: Expr, bop: BinaryOp, right: Expr)
    | BoolOp(lop: BoolOperator, operands: seq<Expr>)
    | Compare(left: Expr, ops: seq<CompareOp>, comparators: seq<Expr>)
    | UnaryExpr(uop: UnaryOp, operand: Expr)
    | IfExp(test: Expr, body: Expr, orelse: Expr)
    | OtherExpr(below: nat)

  datatype Stmt =
    | Assign(targets: seq<Expr>, value: Expr)
    | AugAssign(target: Expr, op: BinaryOp, value: Expr)
    | ExprStmt(value: Expr)
    | If(test: Expr, body: seq<Stmt>, orelse: seq<Stmt>)
    | For(target: Expr, iter: Expr, body: seq<Stmt>, orelse: seq<Stmt>)
    | Break
    | Continue
    | Pass
    | OtherStmt(below: nat)

  /** The number of nodes `ast.walk` visits below and including e: names, lists, tuples,
      attributes and subscripts carry a context node, operators are nodes of their own. */
  function Nodes(e: Expr): (n: nat)
    ensures n >= 1
  {
    match e
    case Constant(_) => 1
    case Name(_) => 2
    case DictExpr(keys, values) => 1 + NodesOf(keys) + NodesOf(values)
    case ListExpr(elts) => 2 + NodesOf(elts)
    case TupleExpr(elts) => 2 + NodesOf(elts)
    case Attribute(base, _) => 2 + Nodes(base)
    case Subscript(base, index) => 2 + Nodes(base) + Nodes(index)
    case Call(fn, args, keywords) => 1 + Nodes(fn) + NodesOf(args) + NodesOf(keywords)
    case KeywordArg(_, value) => 1 + Nodes(value)
    case BinOp(left, _, right) => 2 + Nodes(left) + Nodes(right)
    case BoolOp(_, operands) => 2 + NodesOf(operands)
    case Compare(left, ops, comparators) => 1 + |ops| + Nodes(left) + NodesOf(comparators)
    case UnaryExpr(_, operand) => 2 + Nodes(operand)
    case IfExp(test, body, orelse) => 1 + Nodes(test) + Nodes(body) + Nodes(orelse)
    case OtherExpr(below) => 1 + below
  }

  function NodesOf(es: seq<Expr>): nat {
    if es == [] then 0 else Nodes(es[0]) + NodesOf(es[1..])
  }

  function StmtNodes(s: Stmt): (n: nat)
    ensures n >= 1
  {
    match s
    case Assign(targets, value) => 1 + NodesOf(targets) + Nodes(value)
    case AugAssign(target, _, value) => 2 + Nodes(target) + Nodes(value)
    case ExprStmt(value) => 1 + Nodes(value)
    case If(test, body, orelse) => 1 + Nodes(test) + BlockNodes(body) + BlockNodes(orelse)
    case For(target, iter, body, orelse) =>
      1 + Nodes(target) + Nodes(iter) + BlockNodes(body) + BlockNodes(orelse)
    case Break => 1
    case Continue => 1
    case Pass => 1
    case OtherStmt(below) => 1 + below
  }

  function BlockNodes(ss: seq<Stmt>): nat {
    if ss == [] then 0 else StmtNodes(ss[0]) + BlockNodes(ss[1..])
  }

  /** The keyword arguments that are evaluated: `**mapping` is skipped. */
  function Named(ks: seq<Expr>): (named: seq<Expr>)
    ensures forall k :: k in named ==> k.KeywordArg? && k.arg.Some?
  {
    if ks == [] then []
    else (if ks[0].KeywordArg? && ks[0].arg.Some? then [ks[0]] else []) + Named(ks[1..])
  }

  function KeywordValues(ks: seq<Expr>): (es: seq<Expr>)
    requires forall k :: k in ks ==> k.KeywordArg?
    ensures |es| == |ks|
  {
    if ks == [] then [] else [ks[0].bound] + KeywordValues(ks[1..])
  }

  /** Every node except `and`, `or` and `x if c else y` evaluates these children from left to
      right and then computes its own value.  A call of anything but a name has none. */
  function Children(e: Expr): seq<Expr> {
    match e
    case DictExpr(keys, values) => keys + values
    case ListExpr(elts) => elts
    case TupleExpr(elts) => elts
    case Attribute(base, _) => [base]
    case Subscript(base, index) => [base, index]
    case Call(fn, args, keywords) => if fn.Name? then args + KeywordValues(Named(keywords)) else []
    case BinOp(left, _, right) => [left, right]
    case Compare(left, _, comparators) => [left] + comparators
    case UnaryExpr(_, operand) => [operand]
    case _ => []
  }

  lemma {:induction false} NodesOfAppend(a: seq<Expr>, b: seq<Expr>)
    ensures NodesOf(a + b) == NodesOf(a) + NodesOf(b)
  {
    if a == [] {
      assert a + b == b;
    } else {
      assert (a + b)[1..] == a[1..] + b;
      NodesOfAppend(a[1..], b);
    }
  }

  lemma {:induction false} KeywordNodes(ks: seq<Expr>)
    ensures NodesOf(KeywordValues(Named(ks))) <= NodesOf(ks)
  {
    if ks != [] {
      KeywordNodes(ks[1..]);
      if ks[0].KeywordArg? && ks[0].arg.Some? {
        assert Named(ks)[1..] == Named(ks[1..]);
        assert KeywordValues(Named(ks))[1..] == KeywordValues(Named(ks[1..]));
      } else {
        assert Named(ks) == Named(ks[1..]);
      }
    }
  }

  /** The evaluated children are strictly smaller than their parent. */
  lemma ChildrenSmaller(e: Expr)
    ensures NodesOf(Children(e)) < Nodes(e)
  {
    match e
    case DictExpr(keys, values) => NodesOfAppend(keys, values);
    case Call(fn, args, keywords) =>
      NodesOfAppend(args, KeywordValues(Named(keywords)));
      KeywordNodes(keywords);
    case Compare(left, _, comparators) => NodesOfAppend([left], comparators);
    case BinOp(left, _, right) => NodesOfAppend([left], [right]);
    case Subscript(base, index) => NodesOfAppend([base], [index]);
    case _ =>
  }
}
