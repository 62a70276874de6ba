/** What a program can ask of the Python world around it, and the primitive operations of the
    evaluator that do not recurse over syntax. */
module ProgramHost {
  import opened Prelude
  import opened ProgramAst

  /** One interaction with the host.  Invoke is a mounted-tool call; Next pulls from an open
      iterator and may never be Exhausted. */
  datatype Query =
    | Binary(bop: BinaryOp, left: Value, right: Value)
    | Prefix(uop: UnaryOp, v: Value)
    | Comparison(cop: CompareOp, left: Value, right: Value)
    | Truth(v: Value)
    | Item(base: Value, key: Value)
    | Text(v: Value)
    | Helper(name: string, args: seq<Value>)
    | OpenIter(v: Value)
    | Next(cursor: Value)
    | Invoke(tool: string, arguments: Value)

  datatype Exn = TypeErr | ValueErr | OtherErr

  datatype Answer =
    | Gives(v: Value)
    | Exhausted
    | Raises(e: Exn)
    | TimedOut
    | Replies(data: Option<Value>, text: Option<string>, isError: bool)

  /** The host answers from the whole interaction history, so tools, iterators and opaque
      objects may have state of their own. */
  type Host = (seq<Query>, Query) -> Answer

  /** How evaluation can end early.  The two signals are exceptions too. */
  datatype Exit =
    | BudgetExceeded
    | ToolTimeout
    | ToolInvocationFailed
    | ToolCallFailed
    | InvalidProgram
    | RuntimeError
    | BreakSignal
    | ContinueSignal

  datatype Outcome<+T> = Done(value: T) | Stop(exit: Exit)

  datatype Trace = Trace(index: nat, tool: string, data: Option<Value>, text: Option<string>, isError: bool)

  datatype State = State(env: map<string, Value>, traces: seq<Trace>, loops: nat, history: seq<Query>)

  datatype Limits = Limits(length: nat, nodes: nat, loops: nat, calls: nat)

  const DEFAULT_LIMITS := Limits(12_000, 500, 1_000, 128)

  function Asked(q: Query, st: State): State {
    st.(history := st.history + [q])
  }

  /** Neither the environment nor the loop counter differs. */
  predicate SameFrame(st: State, st': State) {
    st'.env == st.env && st'.loops == st.loops
  }

  /** Not a loop-control signal. */
  predicate Quiet<T>(out: Outcome<T>) {
    out.Stop? ==> out.exit != BreakSignal && out.exit != ContinueSignal
  }

  function Exception(e: Exn): Exit {
    if e.ValueErr? then InvalidProgram else RuntimeError
  }

  function Received(a: Answer): Outcome<Value> {
    match a
    case Gives(v) => Done(v)
    case Raises(e) => Stop(Exception(e))
    case _ => Stop(RuntimeError)
  }

  function AskValue(q: Query, st: State, host: Host): (Outcome<Value>, State) {
    (Received(host(st.history, q)), Asked(q, st))
  }

  function TruthOf(v: Value, st: State, host: Host): (r: (Outcome<bool>, State))
    ensures SameFrame(st, r.1) && Quiet(r.0)
  {
    match v
    case VNone => (Done(false), st)
    case VBool(b) => (Done(b), st)
    case VInt(i) => (Done(i != 0), st)
    case VStr(s) => (Done(s != ""), st)
    case VList(items) => (Done(items != []), st)
    case VTuple(items) => (Done(items != []), st)
    case VDict(entries) => (Done(entries != []), st)
    case VHost(_) =>
      match AskValue(Truth(v), st, host)
      case (Done(VBool(b)), st') => (Done(b), st')
      case (Stop(x), st') => (Stop(x), st')
      case (_, st') => (Stop(RuntimeError), st')
  }

  function ApplyBinary(op: BinaryOp, left: Value, right: Value, st: State, host: Host): (r: (Outcome<Value>, State))
    ensures SameFrame(st, r.1) && Quiet(r.0)
  {
    match (op, left, right)
    case (OtherBinary, _, _) => (Stop(InvalidProgram), st)
    case (Add, VInt(a), VInt(b)) => (Done(VInt(a + b)), st)
    case (Sub, VInt(a), VInt(b)) => (Done(VInt(a - b)), st)
    case (Mult, VInt(a), VInt(b)) => (Done(VInt(a * b)), st)
    case (Add, VStr(a), VStr(b)) => (Done(VStr(a + b)), st)
    case (Add, VList(a), VList(b)) => (Done(VList(a + b)), st)
    case (Add, VTuple(a), VTuple(b)) => (Done(VTuple(a + b)), st)
    case _ => AskValue(Binary(op, left, right), st, host)
  }

  function ApplyUnary(op: UnaryOp, v: Value, st: State, host: Host): (r: (Outcome<Value>, State))
    ensures SameFrame(st, r.1) && Quiet(r.0)
  {
    match (op, v)
    case (Not, _) =>
      (match TruthOf(v, st, host)
       case (Done(b), st') => (Done(VBool(!b)), st')
       case (Stop(x), st') => (Stop(x), st'))
    case (USub, VInt(i)) => (Done(VInt(-i)), st)
    case (UAdd, VInt(i)) => (Done(VInt(i)), st)
    case (Invert, _) => (Stop(InvalidProgram), st)
    case _ => AskValue(Prefix(op, v), st, host)
  }

  function CompareTwo(op: CompareOp, left: Value, right: Value, st: State, host: Host): (r: (Outcome<bool>, State))
    ensures SameFrame(st, r.1) && Quiet(r.0)
  {
    if op.Identity? then (Stop(InvalidProgram), st)
    else if left.VInt? && right.VInt? && !op.In? && !op.NotIn? then (Done(Ordered(op, left.i, right.i)), st)
    else if left.VStr? && right.VStr? && op.Eq? then (Done(left.s == right.s), st)
    else if left.VStr? && right.VStr? && op.NotEq? then (Done(left.s != right.s), st)
    else
      match AskValue(Comparison(op, left, right), st, host)
      case (Done(v), st') => TruthOf(v, st', host)
      case (Stop(x), st') => (Stop(x), st')
  }

  predicate Ordered(op: CompareOp, a: int, b: int) {
    match op
    case Eq => a == b
    case NotEq => a != b
    case Lt => a < b
    case LtE => a <= b
    case Gt => a > b
    case _ => a >= b
  }

  /** A chained comparison over operands that are all evaluated already; it stops at the first
      false link, and an operator past that point is never looked at. */
  function CompareChain(current: Value, ops: seq<CompareOp>, comparators: seq<Value>, st: State, host: Host)
    : (r: (Outcome<Value>, State))
    decreases |ops|
    ensures SameFrame(st, r.1) && Quiet(r.0)
  {
    if ops == [] && comparators == [] then (Done(VBool(true)), st)
    else if ops == [] || comparators == [] then (Stop(InvalidProgram), st)
    else
      match CompareTwo(ops[0], current, comparators[0], st, host)
      case (Stop(x), st') => (Stop(x), st')
      case (Done(false), st') => (Done(VBool(false)), st')
      case (Done(true), st') => CompareChain(comparators[0], ops[1..], comparators[1..], st', host)
  }

  function Lookup(key: Value, entries: seq<Entry>): Option<Value> {
    if entries == [] then None
    else if entries[0].key == key then Some(entries[0].value)
    else Lookup(key, entries[1..])
  }

  /** Assignment into a dictionary keeps the position of a key that is already there. */
  function Put(key: Value, value: Value, entries: seq<Entry>): seq<Entry> {
    if entries == [] then [Entry(key, value)]
    else if entries[0].key == key then [Entry(key, value)] + entries[1..]
    else [entries[0]] + Put(key, value, entries[1..])
  }

  function BuildDict(keys: seq<Value>, values: seq<Value>, built: seq<Entry>, st: State, host: Host)
    : (r: (Outcome<Value>, State))
    decreases |keys|
    ensures SameFrame(st, r.1) && Quiet(r.0)
  {
    if keys == [] && values == [] then (Done(VDict(built)), st)
    else if keys == [] || values == [] then (Stop(InvalidProgram), st)
    else if keys[0].VStr? then BuildDict(keys[1..], values[1..], Put(keys[0], values[0], built), st, host)
    else
      match AskValue(Text(keys[0]), st, host)
      case (Stop(x), st') => (Stop(x), st')
      case (Done(text), st') => BuildDict(keys[1..], values[1..], Put(text, values[0], built), st', host)
  }

  /** Any failure of `base[key]` becomes an invalid-program failure. */
  function Subscripted(base: Value, key: Value, st: State, host: Host): (r: (Outcome<Value>, State))
    ensures SameFrame(st, r.1) && Quiet(r.0)
  {
    match (base, key)
    case (VList(items), VInt(i)) =>
      if 0 <= i < |items| then (Done(items[i]), st)
      else if -|items| <= i < 0 then (Done(items[|items| + i]), st)
      else (Stop(InvalidProgram), st)
    case (VDict(entries), VStr(_)) =>
      (match Lookup(key, entries)
       case Some(v) => (Done(v), st)
       case None => (Stop(InvalidProgram), st))
    case _ =>
      match AskValue(Item(base, key), st, host)
      case (Done(v), st') => (Done(v), st')
      case (Stop(_), st') => (Stop(InvalidProgram), st')
  }

  function RangeList(start: int, stop: int, step: int): seq<Value>
    requires step != 0
    decreases if step > 0 then stop - start else start - stop
  {
    if (step > 0 && start < stop) || (step < 0 && start > stop) then
      [VInt(start)] + RangeList(start + step, stop, step)
    else []
  }

  function Range(args: seq<Value>, st: State, host: Host): (r: (Outcome<Value>, State))
    ensures SameFrame(st, r.1) && Quiet(r.0)
  {
    if |args| == 1 && args[0].VInt? then (Done(VList(RangeList(0, args[0].i, 1))), st)
    else if |args| == 2 && args[0].VInt? && args[1].VInt? then
      (Done(VList(RangeList(args[0].i, args[1].i, 1))), st)
    else if |args| == 3 && args[0].VInt? && args[1].VInt? && args[2].VInt? then
      if args[2].i == 0 then (Stop(InvalidProgram), st)
      else (Done(VList(RangeList(args[0].i, args[1].i, args[2].i))), st)
    else AskValue(Helper("range", args), st, host)
  }

  function Keys(entries: seq<Entry>): seq<Value> {
    seq(|entries|, i requires 0 <= i < |entries| => entries[i].key)
  }

  function Values(entries: seq<Entry>): seq<Value> {
    seq(|entries|, i requires 0 <= i < |entries| => entries[i].value)
  }

  function Items(entries: seq<Entry>): seq<Value> {
    seq(|entries|, i requires 0 <= i < |entries| => VTuple([entries[i].key, entries[i].value]))
  }

  function OneArgument(name: string, v: Value, st: State, host: Host): (r: (Outcome<Value>, State))
    ensures SameFrame(st, r.1) && Quiet(r.0)
  {
    match v
    case VList(items) => if name == "len" then (Done(VInt(|items|)), st) else AskValue(Helper(name, [v]), st, host)
    case VStr(s) =>
      if name == "len" then (Done(VInt(|s|)), st)
      else if name == "str" then (Done(v), st)
      else AskValue(Helper(name, [v]), st, host)
    case VInt(_) => if name == "int" then (Done(v), st) else AskValue(Helper(name, [v]), st, host)
    case VDict(entries) => if name == "len" then (Done(VInt(|entries|)), st) else AskValue(Helper(name, [v]), st, host)
    case _ => AskValue(Helper(name, [v]), st, host)
  }

  function CallHelper(name: string, args: seq<Value>, st: State, host: Host): (r: (Outcome<Value>, State))
    ensures SameFrame(st, r.1) && Quiet(r.0)
  {
    if name in ["len", "sum", "sorted", "str", "int", "float"] then
      if |args| != 1 then (Stop(InvalidProgram), st) else OneArgument(name, args[0], st, host)
    else if name == "bool" then
      if |args| != 1 then (Stop(InvalidProgram), st)
      else
        match TruthOf(args[0], st, host)
        case (Done(b), st') => (Done(VBool(b)), st')
        case (Stop(x), st') => (Stop(x), st')
    else if name == "range" then
      if 1 <= |args| <= 3 then Range(args, st, host) else (Stop(InvalidProgram), st)
    else if name in ["keys", "values", "items"] then
      if |args| != 1 || !args[0].VDict? then (Stop(InvalidProgram), st)
      else
        var entries := args[0].entries;
        (Done(VList(if name == "keys" then Keys(entries)
                    else if name == "values" then Values(entries)
                    else Items(entries))), st)
    else (Stop(InvalidProgram), st)
  }

  function NormalizedData(data: Option<Value>, text: Option<string>): Option<Value> {
    if data.None? && text.Some? then Some(VStr(text.value)) else data
  }

  /** The tool name and arguments of a `call_tool`, or None when the call is malformed. */
  function ToolRequest(args: seq<Value>, keywords: map<string, Value>): Option<(string, Value)> {
    if !(keywords.Keys <= {"tool", "arguments"}) then None
    else
      var tool := if args != [] then args[0] else if "tool" in keywords then keywords["tool"] else VNone;
      var arguments :=
        if args != [] then (if |args| > 1 then args[1] else VNone)
        else if "arguments" in keywords then keywords["arguments"] else VNone;
      if !tool.VStr? || !(arguments.VNone? || arguments.VDict?) then None
      else Some((tool.s, if arguments.VNone? then VDict([]) else arguments))
  }

  function CallTool(args: seq<Value>, keywords: map<string, Value>, st: State, host: Host, lim: Limits)
    : (r: (Outcome<Value>, State))
    ensures SameFrame(st, r.1) && Quiet(r.0)
  {
    if |st.traces| >= lim.calls then (Stop(BudgetExceeded), st)
    else
      match ToolRequest(args, keywords)
      case None => (Stop(InvalidProgram), st)
      case Some((tool, arguments)) =>
        var q := Invoke(tool, arguments);
        var st' := Asked(q, st);
        match host(st.history, q)
        case TimedOut => (Stop(ToolTimeout), st')
        case Replies(d, text, isError) =>
          var data := NormalizedData(d, text);
          var traced := st'.(traces := st.traces + [Trace(|st.traces| + 1, tool, data, text, isError)]);
          if isError then (Stop(ToolCallFailed), traced)
          else (Done(if data.Some? then data.value else VNone), traced)
        case _ => (Stop(ToolInvocationFailed), st')
  }

  function KeywordMap(named: seq<Expr>, values: seq<Value>): map<string, Value>
    requires |named| == |values|
    requires forall k :: k in named ==> k.KeywordArg? && k.arg.Some?
  {
    if named == [] then map[]
    else
      var n := |named| - 1;
      KeywordMap(named[..n], values[..n])[named[n].arg.value := values[n]]
  }

  /** The value of a node whose children have been evaluated. */
  function ApplyNode(e: Expr, vals: seq<Value>, st: State, host: Host, lim: Limits): (r: (Outcome<Value>, State))
    requires |vals| == |Children(e)|
    ensures SameFrame(st, r.1) && Quiet(r.0)
  {
    match e
    case DictExpr(keys, _) => BuildDict(vals[..|keys|], vals[|keys|..], [], st, host)
    case ListExpr(_) => (Done(VList(vals)), st)
    case TupleExpr(_) => (Done(VList(vals)), st)
    case Attribute(_, attr) =>
      if !vals[0].VDict? then (Stop(InvalidProgram), st)
      else
        (match Lookup(VStr(attr), vals[0].entries)
         case Some(v) => (Done(v), st)
         case None => (Stop(InvalidProgram), st))
    case Subscript(_, _) => Subscripted(vals[0], vals[1], st, host)
    case Call(fn, args, keywords) =>
      if !fn.Name? then (Stop(InvalidProgram), st)
      else if fn.id == "call_tool" then
        CallTool(vals[..|args|], KeywordMap(Named(keywords), vals[|args|..]), st, host, lim)
      else CallHelper(fn.id, vals[..|args|], st, host)
    case BinOp(_, op, _) => ApplyBinary(op, vals[0], vals[1], st, host)
    case Compare(_, ops, _) => CompareChain(vals[0], ops, vals[1..], st, host)
    case UnaryExpr(op, _) => ApplyUnary(op, vals[0], st, host)
    case _ => (Stop(InvalidProgram), st)
  }

  /** An open cursor: what is left of a built-in sequence, or a host stream. */
  datatype Iter = Listed(rest: seq<Value>) | Stream(cursor: Value)

  datatype Pulled = Got(item: Value, rest: Iter) | Ended | Failed(exit: Exit)

  function Characters(s: string): seq<Value> {
    seq(|s|, i requires 0 <= i < |s| => VStr([s[i]]))
  }

  function OpenIterator(v: Value, st: State, host: Host): (r: (Outcome<Iter>, State))
    ensures SameFrame(st, r.1) && Quiet(r.0)
  {
    match v
    case VList(items) => (Done(Listed(items)), st)
    case VTuple(items) => (Done(Listed(items)), st)
    case VDict(entries) => (Done(Listed(Keys(entries))), st)
    case VStr(s) => (Done(Listed(Characters(s))), st)
    case VHost(_) =>
      var st' := Asked(OpenIter(v), st);
      (match host(st.history, OpenIter(v))
       case Gives(cursor) => (Done(Stream(cursor)), st')
       case Raises(OtherErr) => (Stop(RuntimeError), st')
       case Raises(_) => (Stop(InvalidProgram), st')
       case _ => (Stop(RuntimeError), st'))
    case _ => (Stop(InvalidProgram), st)
  }

  function Pull(it: Iter, st: State, host: Host): (r: (Pulled, State))
    ensures SameFrame(st, r.1)
    ensures r.0.Failed? ==> r.0.exit == InvalidProgram || r.0.exit == RuntimeError
  {
    match it
    case Listed(rest) => if rest == [] then (Ended, st) else (Got(rest[0], Listed(rest[1..])), st)
    case Stream(cursor) =>
      var st' := Asked(Next(cursor), st);
      match host(st.history, Next(cursor))
      case Gives(v) => (Got(v, it), st')
      case Exhausted => (Ended, st')
      case Raises(e) => (Failed(Exception(e)), st')
      case _ => (Failed(RuntimeError), st')
  }

  /** Binds a target to a value in place.  When a nested target fails, the names before it keep
      their new values. */
  function AssignTarget(target: Expr, value: Value, env: map<string, Value>): (bool, map<string, Value>)
    decreases target
  {
    match target
    case Name(id) => (true, env[id := value])
    case TupleExpr(elts) => Unpack(elts, value, env)
    case ListExpr(elts) => Unpack(elts, value, env)
    case _ => (false, env)
  }

  function Unpack(targets: seq<Expr>, value: Value, env: map<string, Value>): (bool, map<string, Value>)
    decreases targets, 1
  {
    if !(value.VList? || value.VTuple?) || |value.items| != |targets| then (false, env)
    else AssignPairs(targets, value.items, env)
  }

  function AssignPairs(targets: seq<Expr>, values: seq<Value>, env: map<string, Value>): (bool, map<string, Value>)
    requires |targets| == |values|
    decreases targets, 0
  {
    if targets == [] then (true, env)
    else
      var (ok, env') := AssignTarget(targets[0], values[0], env);
      if ok then AssignPairs(targets[1..], values[1..], env') else (false, env')
  }

  /** The targets of `a = b = value`, one after the other. */
  function AssignEach(targets: seq<Expr>, value: Value, env: map<string, Value>): (bool, map<string, Value>) {
    if targets == [] then (true, env)
    else
      var (ok, env') := AssignTarget(targets[0], value, env);
      if ok then AssignEach(targets[1..], value, env') else (false, env')
  }
}
