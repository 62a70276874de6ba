/** Laws of lists, dictionaries, helpers and tool calls. */
module ProgramContainerLaws {
  import opened Prelude
  import opened ProgramAst
  import opened ProgramHost
  import opened ProgramSemantics
  import opened ProgramLaws

  // ----- Displays and subscripts -----

  /** A list display, and a tuple display, is the list of its elements' values. */
  lemma DisplayLaw(es: seq<Expr>, st: State, host: Host, lim: Limits)
    ensures var vs := EvalAll(es, st, host, lim);
      var l, t := EvalExpr(ListExpr(es), st, host, lim), EvalExpr(TupleExpr(es), st, host, lim);
      && SameAs(l, t) && l.st == vs.st
      && l.out == if vs.out.Stop? then Stop(vs.out.exit) else Done(VList(vs.out.value))
  {
    StrictLaw(ListExpr(es), st, host, lim);
    StrictLaw(TupleExpr(es), st, host, lim);
    hide EvalExpr, EvalAll;
  }

  lemma SubscriptApplied(a: Expr, b: Expr, st: State, host: Host, lim: Limits, x: Value, y: Value, st1: State)
    requires Operands(a, b, st, host, lim, x, y, st1)
    ensures var r := EvalExpr(Subscript(a, b), st, host, lim); (r.out, r.st) == Subscripted(x, y, st1, host)
  {
    StrictLaw(Subscript(a, b), st, host, lim);
    EvalTwo(a, b, st, host, lim);
    hide EvalExpr, EvalAll, Subscripted;
  }

  /** i stands for place k of n: counted from the front, or from the back when negative. */
  predicate Counts(i: int, k: int, n: nat) {
    i == k || i == k - n
  }

  /** Items count from the front, and from the back when negative; there are no others. */
  lemma IndexLaw(a: Expr, b: Expr, st: State, host: Host, lim: Limits, items: seq<Value>, i: int, st1: State)
    requires Operands(a, b, st, host, lim, VList(items), VInt(i), st1)
    ensures var r := EvalExpr(Subscript(a, b), st, host, lim);
      && r.st == st1
      && (forall k :: 0 <= k < |items| && Counts(i, k, |items|) ==> r.out == Done(items[k]))
      && (!(-|items| <= i < |items|) ==> r.out == Stop(InvalidProgram))
  {
    SubscriptApplied(a, b, st, host, lim, VList(items), VInt(i), st1);
    hide EvalExpr, Operands;
  }

  /** Every other kind of subscript is the host's, and any failure of it makes the program invalid. */
  lemma OtherSubscript(a: Expr, b: Expr, st: State, host: Host, lim: Limits, x: Value, y: Value, st1: State)
    requires Operands(a, b, st, host, lim, x, y, st1) && !(x.VList? && y.VInt?) && !(x.VDict? && y.VStr?)
    ensures var r := EvalExpr(Subscript(a, b), st, host, lim);
      var answer := host(st1.history, Item(x, y));
      && r.st == st1.(history := st1.history + [Item(x, y)])
      && r.out == if answer.Gives? then Done(answer.v) else Stop(InvalidProgram)
  {
    SubscriptApplied(a, b, st, host, lim, x, y, st1);
    hide EvalExpr;
  }

  /** `xs[-1]` is the last item. */
  lemma LastItem(xs: Expr, st: State, host: Host, lim: Limits, items: seq<Value>)
    requires EvalExpr(xs, st, host, lim).out == Done(VList(items)) && items != []
    ensures SameAs(EvalExpr(Subscript(xs, Constant(VInt(-1))), st, host, lim),
      EvalExpr(xs, st, host, lim).(out := Done(items[|items| - 1])))
  {
    var x := EvalExpr(xs, st, host, lim);
    assert EvalExpr(Constant(VInt(-1)), x.st, host, lim) == R(Done(VInt(-1)), x.st, 1);
    IndexLaw(xs, Constant(VInt(-1)), st, host, lim, items, -1, x.st);
    assert Counts(-1, |items| - 1, |items|);
    hide EvalExpr;
  }

  /** In what was joined, the items of the left operand come first. */
  lemma JoinedIndex(a: Expr, b: Expr, i: nat, st: State, host: Host, lim: Limits, xs: seq<Value>, ys: seq<Value>,
        st1: State)
    requires Operands(a, b, st, host, lim, VList(xs), VList(ys), st1) && i < |xs| + |ys|
    ensures EvalExpr(Subscript(BinOp(a, Add, b), Constant(VInt(i))), st, host, lim).out ==
      Done(if i < |xs| then xs[i] else ys[i - |xs|])
  {
    ArithmeticLaw(a, Add, b, st, host, lim, VList(xs), VList(ys), st1);
    assert EvalExpr(Constant(VInt(i)), st1, host, lim) == R(Done(VInt(i)), st1, 1);
    assert EvalExpr(BinOp(a, Add, b), st, host, lim).st == st1;
    hide EvalExpr;
    assert Operands(BinOp(a, Add, b), Constant(VInt(i)), st, host, lim, VList(xs + ys), VInt(i), st1);
    IndexLaw(BinOp(a, Add, b), Constant(VInt(i)), st, host, lim, xs + ys, i, st1);
    assert Counts(i, i, |xs + ys|);
    hide EvalExpr, Operands;
  }

  // ----- Dictionaries -----

  /** No two entries have the same key. */
  predicate DistinctEntries(entries: seq<Entry>) {
    forall i, j :: 0 <= i < j < |entries| ==> entries[i].key != entries[j].key
  }

  predicate Has(entries: seq<Entry>, key: Value) {
    exists i :: 0 <= i < |entries| && entries[i].key == key
  }

  lemma {:induction false} LookupFinds(entries: seq<Entry>, key: Value)
    ensures Lookup(key, entries).None? <==> !Has(entries, key)
    ensures Lookup(key, entries).Some? ==> Entry(key, Lookup(key, entries).value) in entries
    ensures DistinctEntries(entries) ==>
      forall e :: e in entries && e.key == key ==> Lookup(key, entries) == Some(e.value)
  {
    if entries != [] {
      LookupFinds(entries[1..], key);
      assert entries == [entries[0]] + entries[1..];
      if Has(entries[1..], key) {
        var i :| 0 <= i < |entries[1..]| && entries[1..][i].key == key;
        assert entries[i + 1].key == key;
      }
      if DistinctEntries(entries) {
        assert DistinctEntries(entries[1..]);
      }
    }
  }

  /** Subscripting a dictionary with a string gives the value of the entry with that key, and there is
      no other way to succeed. */
  lemma KeyLaw(a: Expr, b: Expr, st: State, host: Host, lim: Limits, entries: seq<Entry>, key: Value, st1: State)
    requires Operands(a, b, st, host, lim, VDict(entries), key, st1) && key.VStr? && DistinctEntries(entries)
    ensures var r := EvalExpr(Subscript(a, b), st, host, lim);
      && r.st == st1
      && (forall e :: e in entries && e.key == key ==> r.out == Done(e.value))
      && (!Has(entries, key) ==> r.out == Stop(InvalidProgram))
  {
    SubscriptApplied(a, b, st, host, lim, VDict(entries), key, st1);
    LookupFinds(entries, key);
    hide EvalExpr, Operands, Lookup;
  }

  lemma AttributeApplied(a: Expr, name: string, st: State, host: Host, lim: Limits)
    ensures var r := EvalExpr(Attribute(a, name), st, host, lim);
      var x := EvalExpr(a, st, host, lim);
      if x.out.Stop? then SameAs(r, x)
      else
        var found := if x.out.value.VDict? then Lookup(VStr(name), x.out.value.entries) else None;
        r.st == x.st && r.out == if found.None? then Stop(InvalidProgram) else Done(found.value)
  {
    StrictLaw(Attribute(a, name), st, host, lim);
    EvalOne(a, st, host, lim);
    hide EvalExpr, EvalAll, Lookup;
  }

  /** `d.name` is `d["name"]` of a dictionary, and invalid on anything else. */
  lemma AttributeLaw(a: Expr, name: string, st: State, host: Host, lim: Limits)
    ensures var r := EvalExpr(Attribute(a, name), st, host, lim);
      var x := EvalExpr(a, st, host, lim);
      if x.out.Stop? then SameAs(r, x)
      else if x.out.value.VDict? then SameAs(r, EvalExpr(Subscript(a, Constant(VStr(name))), st, host, lim))
      else r.out == Stop(InvalidProgram) && r.st == x.st
  {
    AttributeApplied(a, name, st, host, lim);
    var x := EvalExpr(a, st, host, lim);
    assert EvalExpr(Constant(VStr(name)), x.st, host, lim) == R(Done(VStr(name)), x.st, 1);
    hide EvalExpr, Lookup;
    if x.out.Done? {
      SubscriptApplied(a, Constant(VStr(name)), st, host, lim, x.out.value, VStr(name), x.st);
    }
  }

  /** Writing a key keeps the other entries where they are, and keys distinct. */
  lemma {:induction false} PutFacts(key: Value, value: Value, entries: seq<Entry>)
    ensures var r := Put(key, value, entries);
      && Entry(key, value) in r
      && (forall e :: e in entries && e.key != key ==> e in r)
      && (forall e :: e in r ==> e == Entry(key, value) || e in entries)
      && (DistinctEntries(entries) ==> DistinctEntries(r) && forall e :: e in r && e.key == key ==> e.value == value)
  {
    if entries != [] {
      assert entries == [entries[0]] + entries[1..];
      var rest := Put(key, value, entries[1..]);
      PutFacts(key, value, entries[1..]);
      if DistinctEntries(entries) {
        assert DistinctEntries(entries[1..]);
        var r := Put(key, value, entries);
        if entries[0].key != key {
          forall j | 0 <= j < |rest|
            ensures rest[j].key != entries[0].key
          {
            assert rest[j] in rest;
          }
        }
      }
    }
  }

  /** Place j is the last one of its key. */
  predicate LastAt(keys: seq<Value>, j: int) {
    0 <= j < |keys| && keys[j] !in keys[j + 1..]
  }

  lemma {:induction false} BuildFacts(keys: seq<Value>, values: seq<Value>, built: seq<Entry>, st: State, host: Host)
    requires |keys| == |values| && DistinctEntries(built) && forall k :: k in keys ==> k.VStr?
    ensures var (out, st1) := BuildDict(keys, values, built, st, host);
      && st1 == st && out.Done? && out.value.VDict? && DistinctEntries(out.value.entries)
      && (forall j :: LastAt(keys, j) ==> Entry(keys[j], values[j]) in out.value.entries)
      && (forall e :: e in built && e.key !in keys ==> e in out.value.entries)
      && (forall e :: e in out.value.entries ==> e.key in keys || e in built)
    decreases |keys|
  {
    if keys != [] {
      PutFacts(keys[0], values[0], built);
      BuildFacts(keys[1..], values[1..], Put(keys[0], values[0], built), st, host);
      assert keys == [keys[0]] + keys[1..];
      forall j | LastAt(keys, j)
        ensures Entry(keys[j], values[j]) in BuildDict(keys, values, built, st, host).0.value.entries
      {
        if j > 0 {
          assert keys[1..][j..] == keys[j + 1..];
          assert LastAt(keys[1..], j - 1);
        }
      }
    }
    hide Put, DistinctEntries;
  }

  /** A dictionary display with string keys has one entry for each key, with the last value given
      for it. */
  lemma DictLaw(keys: seq<Expr>, values: seq<Expr>, st: State, host: Host, lim: Limits, ks: seq<Value>, vs: seq<Value>,
        st1: State)
    requires |keys| == |values| == |ks| == |vs| && forall k :: k in ks ==> k.VStr?
    requires var all := EvalAll(keys + values, st, host, lim); all.out == Done(ks + vs) && all.st == st1
    ensures var r := EvalExpr(DictExpr(keys, values), st, host, lim);
      && r.st == st1 && r.out.Done? && r.out.value.VDict? && DistinctEntries(r.out.value.entries)
      && (forall j :: LastAt(ks, j) ==> Entry(ks[j], vs[j]) in r.out.value.entries)
      && (forall e :: e in r.out.value.entries ==> e.key in ks)
  {
    StrictLaw(DictExpr(keys, values), st, host, lim);
    assert (ks + vs)[..|keys|] == ks && (ks + vs)[|keys|..] == vs;
    BuildFacts(ks, vs, [], st1, host);
    hide EvalExpr, EvalAll, BuildDict, LastAt, DistinctEntries;
  }

  // ----- Helpers -----

  lemma HelperApplied(name: string, args: seq<Expr>, st: State, host: Host, lim: Limits)
    requires name != "call_tool"
    ensures var r := EvalExpr(Call(Name(name), args, []), st, host, lim);
      var vs := EvalAll(args, st, host, lim);
      if vs.out.Stop? then r.out == Stop(vs.out.exit) && r.st == vs.st
      else (r.out, r.st) == CallHelper(name, vs.out.value, vs.st, host)
  {
    assert args + KeywordValues(Named([])) == args;
    StrictLaw(Call(Name(name), args, []), st, host, lim);
    var vs := EvalAll(args, st, host, lim);
    if vs.out.Done? {
      assert vs.out.value[..|args|] == vs.out.value;
    }
    hide EvalExpr, EvalAll, CallHelper;
  }

  lemma {:induction false} RangeFacts(start: int, stop: int, step: int)
    requires step > 0
    ensures var r := RangeList(start, stop, step);
      && (forall k :: 0 <= k < |r| ==> r[k] == VInt(start + k * step))
      && start + |r| * step >= stop
      && (r != [] ==> start + (|r| - 1) * step < stop)
    decreases stop - start
  {
    if start < stop {
      RangeFacts(start + step, stop, step);
      var rest := RangeList(start + step, stop, step);
      forall k | 0 < k < |rest| + 1
        ensures RangeList(start, stop, step)[k] == VInt(start + k * step)
      {
        assert start + step + (k - 1) * step == start + k * step;
      }
      assert start + step + |rest| * step == start + (|rest| + 1) * step;
      if rest != [] {
        assert start + step + (|rest| - 1) * step == start + |rest| * step;
      }
    }
  }

  lemma {:induction false} RangeDown(start: int, stop: int, step: int)
    requires step < 0
    ensures var up, r := RangeList(-start, -stop, -step), RangeList(start, stop, step);
      |r| == |up| && forall k :: 0 <= k < |r| ==> up[k].VInt? && r[k] == VInt(-up[k].i)
    decreases start - stop
  {
    if start > stop {
      RangeDown(start + step, stop, step);
      assert -(start + step) == -start + -step;
    }
  }

  /** The items count from a in steps of s, as long as they stay before b. */
  predicate CountsOn(items: seq<Value>, a: int, b: int, s: int) {
    && (forall k :: 0 <= k < |items| ==> items[k] == VInt(a + k * s))
    && (if s > 0 then a + |items| * s >= b else a + |items| * s <= b)
    && (items != [] ==> if s > 0 then a + (|items| - 1) * s < b else a + (|items| - 1) * s > b)
  }

  lemma RangeCounts(a: int, b: int, s: int)
    requires s != 0
    ensures CountsOn(RangeList(a, b, s), a, b, s)
  {
    if s > 0 {
      RangeFacts(a, b, s);
    } else {
      RangeFacts(-a, -b, -s);
      RangeDown(a, b, s);
      var r := RangeList(a, b, s);
      hide RangeList;
      MirrorCount(a, s, |r|);
      MirrorCount(a, s, |r| - 1);
      forall k | 0 <= k < |r|
        ensures r[k] == VInt(a + k * s)
      {
        MirrorCount(a, s, k);
      }
    }
  }

  /** `range(a, b, s)` counts from a in steps of s, as long as it stays before b, downwards if s is
      negative; a step of zero is invalid. */
  lemma RangeLaw(args: seq<Expr>, st: State, host: Host, lim: Limits, a: int, b: int, s: int, st1: State)
    requires |args| == 3
    requires var vs := EvalAll(args, st, host, lim); vs.out == Done([VInt(a), VInt(b), VInt(s)]) && vs.st == st1
    ensures var r := EvalExpr(Call(Name("range"), args, []), st, host, lim);
      && r.st == st1
      && (s == 0 ==> r.out == Stop(InvalidProgram))
      && (s != 0 ==> r.out.Done? && r.out.value.VList? && CountsOn(r.out.value.items, a, b, s))
  {
    HelperApplied("range", args, st, host, lim);
    hide EvalExpr, EvalAll, CountsOn, RangeList;
    if s != 0 {
      RangeCounts(a, b, s);
    }
  }

  lemma MirrorCount(a: int, s: int, k: int)
    ensures -(-a + k * -s) == a + k * s
  {}

  lemma ShortHelperValues(a: int, b: int, st: State, host: Host)
    ensures CallHelper("range", [VInt(b)], st, host) == (Done(VList(RangeList(0, b, 1))), st)
    ensures CallHelper("range", [VInt(a), VInt(b)], st, host) == (Done(VList(RangeList(a, b, 1))), st)
  {
    hide RangeList;
  }

  /** The integers from a up to b. */
  predicate CountsUp(items: seq<Value>, a: int, b: int) {
    |items| == (if a < b then b - a else 0) && forall k :: 0 <= k < |items| ==> items[k] == VInt(a + k)
  }

  lemma UnitRange(a: int, b: int)
    ensures CountsUp(RangeList(a, b, 1), a, b)
  {
    RangeFacts(a, b, 1);
  }

  /** `range(n)` counts from zero up to n, and `range(a, b)` from a up to b. */
  lemma ShortRanges(args: seq<Expr>, st: State, host: Host, lim: Limits, a: int, b: int, st1: State)
    requires 1 <= |args| <= 2
    requires var vs := EvalAll(args, st, host, lim);
      vs.st == st1 && vs.out == Done(if |args| == 1 then [VInt(b)] else [VInt(a), VInt(b)])
    ensures var r := EvalExpr(Call(Name("range"), args, []), st, host, lim);
      && r.st == st1 && r.out.Done? && r.out.value.VList?
      && CountsUp(r.out.value.items, if |args| == 1 then 0 else a, b)
  {
    HelperApplied("range", args, st, host, lim);
    ShortHelperValues(a, b, st1, host);
    UnitRange(0, b);
    UnitRange(a, b);
    hide EvalExpr, EvalAll, RangeList, CallHelper, CountsUp;
  }

  /** The call of a helper on one argument gives a value and leaves the state its argument left. */
  predicate Yields(name: string, e: Expr, st: State, host: Host, lim: Limits, v: Value) {
    var r := EvalExpr(Call(Name(name), [e], []), st, host, lim);
    r.out == Done(v) && r.st == EvalExpr(e, st, host, lim).st
  }

  lemma OneArgumentApplied(name: string, e: Expr, st: State, host: Host, lim: Limits, v: Value, w: Value)
    requires name != "call_tool" && EvalExpr(e, st, host, lim).out == Done(v)
    requires var st1 := EvalExpr(e, st, host, lim).st; CallHelper(name, [v], st1, host) == (Done(w), st1)
    ensures Yields(name, e, st, host, lim, w)
  {
    EvalOne(e, st, host, lim);
    HelperApplied(name, [e], st, host, lim);
    hide EvalExpr, EvalAll, CallHelper;
  }

  lemma DictHelperValues(entries: seq<Entry>, st: State, host: Host)
    ensures CallHelper("len", [VDict(entries)], st, host) == (Done(VInt(|entries|)), st)
    ensures CallHelper("keys", [VDict(entries)], st, host) == (Done(VList(Keys(entries))), st)
    ensures CallHelper("values", [VDict(entries)], st, host) == (Done(VList(Values(entries))), st)
    ensures CallHelper("items", [VDict(entries)], st, host) == (Done(VList(Items(entries))), st)
  {}

  function Pairs(ks: seq<Value>, vs: seq<Value>): (r: seq<Value>)
    requires |ks| == |vs|
    ensures |r| == |ks| && forall k :: 0 <= k < |r| ==> r[k] == VTuple([ks[k], vs[k]])
  {
    seq(|ks|, k requires 0 <= k < |ks| => VTuple([ks[k], vs[k]]))
  }

  /** `len`, `keys`, `values` and `items` of a dictionary describe the same entries, in order. */
  lemma DictHelpers(d: Expr, st: State, host: Host, lim: Limits, entries: seq<Entry>, ks: seq<Value>, vs: seq<Value>)
    requires EvalExpr(d, st, host, lim).out == Done(VDict(entries))
    requires |ks| == |vs| == |entries| && forall k :: 0 <= k < |entries| ==> entries[k] == Entry(ks[k], vs[k])
    ensures Yields("len", d, st, host, lim, VInt(|entries|))
    ensures Yields("keys", d, st, host, lim, VList(ks)) && Yields("values", d, st, host, lim, VList(vs))
    ensures Yields("items", d, st, host, lim, VList(Pairs(ks, vs)))
  {
    DictHelperValues(entries, EvalExpr(d, st, host, lim).st, host);
    assert Keys(entries) == ks && Values(entries) == vs;
    var items := Pairs(ks, vs);
    assert Items(entries) == items;
    hide EvalExpr, CallHelper, Keys, Values, Items, Yields;
    OneArgumentApplied("len", d, st, host, lim, VDict(entries), VInt(|entries|));
    OneArgumentApplied("keys", d, st, host, lim, VDict(entries), VList(ks));
    OneArgumentApplied("values", d, st, host, lim, VDict(entries), VList(vs));
    OneArgumentApplied("items", d, st, host, lim, VDict(entries), VList(items));
  }

  function TruthValue(v: Value): Value {
    if v in FALSY then VBool(false) else VBool(true)
  }

  lemma SimpleHelperValues(v: Value, st: State, host: Host)
    ensures v.VList? ==> CallHelper("len", [v], st, host) == (Done(VInt(|v.items|)), st)
    ensures v.VStr? ==> CallHelper("len", [v], st, host) == (Done(VInt(|v.s|)), st)
    ensures v.VStr? ==> CallHelper("str", [v], st, host) == (Done(v), st)
    ensures v.VInt? ==> CallHelper("int", [v], st, host) == (Done(v), st)
    ensures !v.VHost? ==> CallHelper("bool", [v], st, host) == (Done(TruthValue(v)), st)
  {
    TruthLaw(v, st, host);
    hide TruthOf;
  }

  /** `len` counts the items of a list and the characters of a string; `bool` is the truth of its
      argument; what is a string or an integer already is left as it is. */
  lemma SimpleHelpers(e: Expr, st: State, host: Host, lim: Limits, v: Value)
    requires EvalExpr(e, st, host, lim).out == Done(v)
    ensures v.VList? ==> Yields("len", e, st, host, lim, VInt(|v.items|))
    ensures v.VStr? ==> Yields("len", e, st, host, lim, VInt(|v.s|)) && Yields("str", e, st, host, lim, v)
    ensures v.VInt? ==> Yields("int", e, st, host, lim, v)
    ensures !v.VHost? ==> Yields("bool", e, st, host, lim, TruthValue(v))
  {
    SimpleHelperValues(v, EvalExpr(e, st, host, lim).st, host);
    hide EvalExpr, CallHelper, Yields;
    if v.VList? {
      OneArgumentApplied("len", e, st, host, lim, v, VInt(|v.items|));
    } else if v.VStr? {
      OneArgumentApplied("len", e, st, host, lim, v, VInt(|v.s|));
      OneArgumentApplied("str", e, st, host, lim, v, v);
    } else if v.VInt? {
      OneArgumentApplied("int", e, st, host, lim, v, v);
    }
    if !v.VHost? {
      OneArgumentApplied("bool", e, st, host, lim, v, TruthValue(v));
    }
  }

  /** The builtins of one argument that the evaluator answers by itself. */
  predicate Answered(name: string, v: Value) {
    || (name == "len" && (v.VList? || v.VStr? || v.VDict?))
    || (name == "str" && v.VStr?)
    || (name == "int" && v.VInt?)
  }

  /** Every other use of a builtin of one argument is the host's, and so is a range over anything but
      integers. */
  lemma HostHelper(name: string, args: seq<Expr>, st: State, host: Host, lim: Limits, vs: seq<Value>)
    requires var all := EvalAll(args, st, host, lim); all.out == Done(vs)
    requires
      || (name in ["len", "sum", "sorted", "str", "int", "float"] && |vs| == 1 && !Answered(name, vs[0]))
      || (name == "range" && 1 <= |vs| <= 3 && exists v :: v in vs && !v.VInt?)
    ensures Asks(EvalExpr(Call(Name(name), args, []), st, host, lim), EvalAll(args, st, host, lim).st,
      Helper(name, vs), host)
  {
    HelperApplied(name, args, st, host, lim);
    HelperAsks(name, vs, EvalAll(args, st, host, lim).st, host);
    hide EvalExpr, EvalAll, CallHelper, Answered;
  }

  lemma HelperAsks(name: string, vs: seq<Value>, st: State, host: Host)
    requires
      || (name in ["len", "sum", "sorted", "str", "int", "float"] && |vs| == 1 && !Answered(name, vs[0]))
      || (name == "range" && 1 <= |vs| <= 3 && exists v :: v in vs && !v.VInt?)
    ensures CallHelper(name, vs, st, host) == AskValue(Helper(name, vs), st, host)
  {
    hide RangeList, TruthOf, AskValue;
    assert |vs| == 1 ==> vs == [vs[0]];
  }

  /** Only names can be called; nothing else is evaluated, not even its arguments. */
  lemma OnlyNamesAreCalled(fn: Expr, args: seq<Expr>, keywords: seq<Expr>, st: State, host: Host, lim: Limits)
    requires !fn.Name?
    ensures var r := EvalExpr(Call(fn, args, keywords), st, host, lim); r.out == Stop(InvalidProgram) && r.st == st
  {
    StrictLaw(Call(fn, args, keywords), st, host, lim);
    assert EvalAll([], st, host, lim) == R(Done([]), st, 0);
    hide EvalExpr;
  }

  /** A name the evaluator does not know, and a known one with the wrong number of arguments, is
      invalid. */
  lemma UnknownHelper(name: string, args: seq<Expr>, st: State, host: Host, lim: Limits)
    requires EvalAll(args, st, host, lim).out.Done?
    requires name !in ["call_tool", "len", "sum", "sorted", "range", "keys", "values", "items", "str", "int", "float",
      "bool"] || (name != "call_tool" && (|args| == 0 || |args| > if name == "range" then 3 else 1))
    ensures var r := EvalExpr(Call(Name(name), args, []), st, host, lim);
      r.out == Stop(InvalidProgram) && r.st == EvalAll(args, st, host, lim).st
  {
    HelperApplied(name, args, st, host, lim);
    hide EvalExpr, EvalAll, OneArgument, Range, TruthOf;
  }

  // ----- Tool calls -----

  /** The tool a well-formed `call_tool` names and the arguments it passes, from the values of its
      one or two positional arguments. */
  predicate Requests(vs: seq<Value>, tool: string, arguments: Value) {
    && 1 <= |vs| <= 2 && vs[0] == VStr(tool) && arguments.VDict?
    && if |vs| == 1 || vs[1].VNone? then arguments.entries == [] else vs[1] == arguments
  }

  lemma ToolNode(args: seq<Expr>, keywords: seq<Expr>, vals: seq<Value>, st: State, host: Host, lim: Limits)
    requires |vals| == |args| + |Named(keywords)|
    ensures var e := Call(Name("call_tool"), args, keywords);
      && |Children(e)| == |vals|
      && ApplyNode(e, vals, st, host, lim) ==
           CallTool(vals[..|args|], KeywordMap(Named(keywords), vals[|args|..]), st, host, lim)
  {
    hide CallTool, KeywordMap;
  }

  lemma CallToolApplied(args: seq<Expr>, keywords: seq<Expr>, st: State, host: Host, lim: Limits)
    ensures var r := EvalExpr(Call(Name("call_tool"), args, keywords), st, host, lim);
      var all := EvalAll(args + KeywordValues(Named(keywords)), st, host, lim);
      if all.out.Stop? then r.out == Stop(all.out.exit) && r.st == all.st
      else
        var positional, named := all.out.value[..|args|], all.out.value[|args|..];
        (r.out, r.st) == CallTool(positional, KeywordMap(Named(keywords), named), all.st, host, lim)
  {
    var e := Call(Name("call_tool"), args, keywords);
    assert Children(e) == args + KeywordValues(Named(keywords));
    StrictLaw(e, st, host, lim);
    var all := EvalAll(Children(e), st, host, lim);
    hide EvalExpr, EvalAll, CallTool, ApplyNode, KeywordMap, KeywordValues, Named, Children;
    if all.out.Done? {
      ToolNode(args, keywords, all.out.value, all.st, host, lim);
    }
  }

  lemma PositionalApplied(args: seq<Expr>, st: State, host: Host, lim: Limits)
    ensures var r := EvalExpr(Call(Name("call_tool"), args, []), st, host, lim);
      var all := EvalAll(args, st, host, lim);
      if all.out.Stop? then r.out == Stop(all.out.exit) && r.st == all.st
      else (r.out, r.st) == CallTool(all.out.value, map[], all.st, host, lim)
  {
    CallToolApplied(args, [], st, host, lim);
    assert args + KeywordValues(Named([])) == args && Named([]) == [] && KeywordMap([], []) == map[];
    var all := EvalAll(args, st, host, lim);
    if all.out.Done? {
      assert all.out.value[..|args|] == all.out.value && all.out.value[|args|..] == [];
    }
    hide EvalExpr, EvalAll, CallTool;
  }

  /** A call within the budget asks the host for exactly that tool and those arguments.  Only an answer
      leaves a trace, the tool's own reply under the next number; the value of the call is the data
      of that trace, and an answer that is an error, a timeout and a failed invocation end the run. */
  lemma CallToolLaw(args: seq<Expr>, st: State, host: Host, lim: Limits, vs: seq<Value>, st1: State, tool: string,
        arguments: Value)
    requires var all := EvalAll(args, st, host, lim); all.out == Done(vs) && all.st == st1
    requires Requests(vs, tool, arguments) && |st1.traces| < lim.calls
    ensures var r := EvalExpr(Call(Name("call_tool"), args, []), st, host, lim);
      var q := Invoke(tool, arguments);
      var answer := host(st1.history, q);
      && r.st.history == st1.history + [q] && SameFrame(st1, r.st)
      && (!answer.Replies? ==>
            r.st.traces == st1.traces && r.out == Stop(if answer.TimedOut? then ToolTimeout else ToolInvocationFailed))
      && (answer.Replies? ==>
            && |r.st.traces| == |st1.traces| + 1 && st1.traces <= r.st.traces
            && var t := r.st.traces[|st1.traces|];
               && t.index == |r.st.traces| && t.tool == tool && t.text == answer.text && t.isError == answer.isError
               && (answer.data.Some? ==> t.data == answer.data)
               && (answer.data.None? && answer.text.Some? ==> t.data == Some(VStr(answer.text.value)))
               && (answer.data.None? && answer.text.None? ==> t.data.None?)
               && r.out == if answer.isError then Stop(ToolCallFailed)
                           else if t.data.Some? then Done(t.data.value)
                           else Done(VNone))
  {
    PositionalApplied(args, st, host, lim);
    var none: map<string, Value> := map[];
    assert none.Keys == {} && ToolRequest(vs, none) == Some((tool, arguments));
    hide EvalExpr, EvalAll, ToolRequest;
  }

  /** Past the budget nothing is asked, and a call that names no tool or passes no object is invalid. */
  lemma RefusedCall(args: seq<Expr>, st: State, host: Host, lim: Limits, vs: seq<Value>, st1: State)
    requires var all := EvalAll(args, st, host, lim); all.out == Done(vs) && all.st == st1
    requires |st1.traces| >= lim.calls || vs == [] || !vs[0].VStr? || (|vs| > 1 && !vs[1].VNone? && !vs[1].VDict?)
    ensures var r := EvalExpr(Call(Name("call_tool"), args, []), st, host, lim);
      r.st == st1 && r.out == Stop(if |st1.traces| >= lim.calls then BudgetExceeded else InvalidProgram)
  {
    PositionalApplied(args, st, host, lim);
    hide EvalExpr, EvalAll;
  }

  /** Naming both parameters is passing them in order. */
  lemma KeywordForm(tool: Expr, arguments: Expr, st: State, host: Host, lim: Limits)
    ensures SameAs(
      EvalExpr(Call(Name("call_tool"), [], [KeywordArg(Some("tool"), tool), KeywordArg(Some("arguments"), arguments)]),
        st, host, lim),
      EvalExpr(Call(Name("call_tool"), [tool, arguments], []), st, host, lim))
  {
    var named := [KeywordArg(Some("tool"), tool), KeywordArg(Some("arguments"), arguments)];
    NamedBoth(named);
    CallToolApplied([], named, st, host, lim);
    PositionalApplied([tool, arguments], st, host, lim);
    assert [] + [tool, arguments] == [tool, arguments];
    var all := EvalAll([tool, arguments], st, host, lim);
    hide EvalExpr, EvalAll, Named, KeywordValues, KeywordMap, ToolRequest, CallTool;
    if all.out.Done? {
      assert all.out.value[..0] == [] && all.out.value[0..] == all.out.value;
      BothKeywords(named, all.out.value);
      SameRequest([], KeywordMap(named, all.out.value), all.out.value, map[], all.st, host, lim);
    }
  }

  /** `call_tool` takes no other keyword. */
  lemma OtherKeyword(name: string, e: Expr, st: State, host: Host, lim: Limits)
    requires name != "tool" && name != "arguments" && EvalExpr(e, st, host, lim).out.Done?
    ensures var r := EvalExpr(Call(Name("call_tool"), [], [KeywordArg(Some(name), e)]), st, host, lim);
      var x := EvalExpr(e, st, host, lim);
      && r.st == x.st
      && r.out == Stop(if |x.st.traces| >= lim.calls then BudgetExceeded else InvalidProgram)
  {
    var named := [KeywordArg(Some(name), e)];
    var x := EvalExpr(e, st, host, lim);
    assert named[1..] == [];
    assert Named(named) == named && KeywordValues(named) == [e];
    CallToolApplied([], named, st, host, lim);
    EvalOne(e, st, host, lim);
    assert [] + [e] == [e];
    assert [x.out.value][..0] == [] && [x.out.value][0..] == [x.out.value];
    assert KeywordMap(named[..0], [x.out.value][..0]) == map[];
    assert KeywordMap(named, [x.out.value]) == map[name := x.out.value];
    assert name in KeywordMap(named, [x.out.value]).Keys;
    hide EvalExpr, EvalAll, KeywordMap, Named, KeywordValues;
  }

  /** A call is decided by the request its arguments make. */
  lemma SameRequest(args: seq<Value>, keywords: map<string, Value>, args': seq<Value>, keywords': map<string, Value>,
        st: State, host: Host, lim: Limits)
    requires ToolRequest(args, keywords) == ToolRequest(args', keywords')
    ensures CallTool(args, keywords, st, host, lim) == CallTool(args', keywords', st, host, lim)
  {
    hide ToolRequest;
  }

  lemma NamedBoth(named: seq<Expr>)
    requires |named| == 2 && forall k :: k in named ==> k.KeywordArg? && k.arg.Some?
    ensures Named(named) == named && KeywordValues(named) == [named[0].bound, named[1].bound]
  {
    assert named[1..] == [named[1]] && [named[1]][1..] == [];
    assert Named([named[1]]) == [named[1]];
    assert KeywordValues([named[1]]) == [named[1].bound];
  }

  lemma BothKeywords(named: seq<Expr>, vs: seq<Value>)
    requires |named| == |vs| == 2 && named[0].KeywordArg? && named[1].KeywordArg?
    requires named[0].arg == Some("tool") && named[1].arg == Some("arguments")
    ensures ToolRequest([], KeywordMap(named, vs)) == ToolRequest(vs, map[])
  {
    assert named[..1] == [named[0]] && vs[..1] == [vs[0]];
    assert [named[0]][..0] == [] && [vs[0]][..0] == [];
    assert KeywordMap([], []) == map[];
    assert KeywordMap([named[0]], [vs[0]]) == map["tool" := vs[0]];
    assert KeywordMap(named, vs) == map["tool" := vs[0], "arguments" := vs[1]];
    var none: map<string, Value> := map[];
    assert none.Keys == {};
  }
}
