/** Tool inventories: validation, the inventory hash, and the contract diff. */
module Inventory {
  import opened Prelude
  import opened Sorting

  /** A tool as the downstream server lists it; schemas are canonical JSON text. */
  datatype Tool = Tool(
    name: string, title: Option<string>, description: Option<string>, input: string, output: Option<string>)

  /** A digest is the payload it digests: the abstract injective hash. */
  datatype Digest = ToolDigest(tool: Tool) | InventoryDigest(tools: seq<ToolSchema>)

  datatype ToolSchema = ToolSchema(
    name: string, title: Option<string>, description: Option<string>, input: string, output: Option<string>,
    toolHash: Digest)

  function Normalize(t: Tool): ToolSchema {
    ToolSchema(t.name, t.title, t.description, t.input, t.output, ToolDigest(t))
  }

  function NormalizeAll(ts: seq<Tool>): (r: seq<ToolSchema>)
    ensures |r| == |ts| && forall k :: 0 <= k < |ts| ==> r[k] == Normalize(ts[k])
  {
    seq(|ts|, k requires 0 <= k < |ts| => Normalize(ts[k]))
  }

  function NameOf(t: ToolSchema): string { t.name }

  ghost predicate DistinctTools(ts: seq<ToolSchema>) {
    DistinctKeys(ts, NameOf)
  }

  /** A schema whose hash is the one normalisation gives it. */
  predicate Genuine(t: ToolSchema) {
    t.toolHash == ToolDigest(Tool(t.name, t.title, t.description, t.input, t.output))
  }

  predicate HasDuplicate(ts: seq<Tool>) {
    exists i, j :: 0 <= i < j < |ts| && ts[i].name == ts[j].name
  }

  /** None is the ValueError for duplicate tool names. */
  function ValidateInventory(ts: seq<Tool>): Option<seq<ToolSchema>> {
    if HasDuplicate(ts) then None else Some(SortBy(NormalizeAll(ts), NameOf))
  }

  function InventoryHash(ts: seq<ToolSchema>): Digest {
    InventoryDigest(SortBy(ts, NameOf))
  }

  /** `{tool.name: tool for tool in tools}`: the last of two equal names wins. */
  function ByName(ts: seq<ToolSchema>): map<string, ToolSchema> {
    if ts == [] then map[]
    else
      var n := |ts| - 1;
      ByName(ts[..n])[ts[n].name := ts[n]]
  }

  /** The keys of that dictionary in insertion order. */
  function KeysOf(ts: seq<ToolSchema>): seq<string> {
    if ts == [] then []
    else
      var n := |ts| - 1;
      var before := KeysOf(ts[..n]);
      if ts[n].name in before then before else before + [ts[n].name]
  }

  function Select(names: seq<string>, keep: string -> bool): seq<string> {
    if names == [] then []
    else (if keep(names[0]) then [names[0]] else []) + Select(names[1..], keep)
  }

  datatype Diff = Diff(added: seq<string>, removed: seq<string>, changed: seq<string>, newHash: Digest)

  function DiffToolsets(previous: seq<ToolSchema>, current: seq<ToolSchema>): Diff {
    var before, after := ByName(previous), ByName(current);
    Diff(
      SortNames(Select(KeysOf(current), name => name !in before)),
      SortNames(Select(KeysOf(previous), name => name !in after)),
      SortNames(Select(KeysOf(current),
        name => name in before && name in after && after[name].toolHash != before[name].toolHash)),
      InventoryHash(current))
  }

  ghost predicate DistinctNames(names: seq<string>) {
    DistinctKeys(names, Identity)
  }

  lemma {:induction false} KeysFacts(ts: seq<ToolSchema>)
    ensures DistinctNames(KeysOf(ts))
    ensures forall x :: x in KeysOf(ts) <==> x in ByName(ts)
    ensures forall x :: x in ByName(ts) ==> ByName(ts)[x] in ts && ByName(ts)[x].name == x
    ensures forall t :: t in ts ==> t.name in ByName(ts)
  {
    if ts != [] {
      var n := |ts| - 1;
      KeysFacts(ts[..n]);
      assert ts == ts[..n] + [ts[n]];
    }
  }

  lemma LastIsNew(ts: seq<ToolSchema>)
    requires DistinctTools(ts) && ts != []
    ensures var n := |ts| - 1;
      DistinctTools(ts[..n]) && ts[n].name !in ByName(ts[..n]) && ts[n].name !in KeysOf(ts[..n])
  {
    var n := |ts| - 1;
    KeysFacts(ts[..n]);
  }

  lemma {:induction false} ByNameDistinct(ts: seq<ToolSchema>)
    requires DistinctTools(ts)
    ensures forall t :: t in ts ==> t.name in ByName(ts) && ByName(ts)[t.name] == t
    ensures |KeysOf(ts)| == |ts|
  {
    if ts != [] {
      var n := |ts| - 1;
      LastIsNew(ts);
      hide DistinctKeys;
      ByNameDistinct(ts[..n]);
      assert ts == ts[..n] + [ts[n]];
    }
  }

  lemma {:induction false} SelectFacts(names: seq<string>, keep: string -> bool)
    ensures forall x :: x in Select(names, keep) <==> x in names && keep(x)
    ensures DistinctNames(names) ==> DistinctNames(Select(names, keep))
  {
    if names != [] {
      SelectFacts(names[1..], keep);
      assert names == [names[0]] + names[1..];
      if DistinctNames(names) {
        assert DistinctNames(names[1..]);
        var rest := Select(names[1..], keep);
        forall k | 0 <= k < |rest|
          ensures rest[k] != names[0]
        {
          assert rest[k] in rest;
          var m :| 0 <= m < |names[1..]| && names[1..][m] == rest[k];
          assert Identity(names[0]) != Identity(names[m + 1]);
        }
      }
    }
  }

  /** A list of names is the sorted, duplicate-free listing of what keep holds of. */
  ghost predicate Lists(names: seq<string>, members: set<string>) {
    && Sorted(names, Identity)
    && DistinctNames(names)
    && forall x :: x in names <==> x in members
  }

  function Changed(before: map<string, ToolSchema>, after: map<string, ToolSchema>): set<string> {
    set x | x in before && x in after && after[x].toolHash != before[x].toolHash
  }

  /** The three lists of a diff are sorted and duplicate-free, and hold exactly the names only in
      the current inventory, only in the previous one, and in both with different hashes. */
  lemma DiffLists(previous: seq<ToolSchema>, current: seq<ToolSchema>)
    ensures var d := DiffToolsets(previous, current);
      var before, after := ByName(previous), ByName(current);
      && Lists(d.added, after.Keys - before.Keys)
      && Lists(d.removed, before.Keys - after.Keys)
      && Lists(d.changed, Changed(before, after))
  {
    var before, after := ByName(previous), ByName(current);
    SortedSelection(current, name => name !in before);
    SortedSelection(previous, name => name !in after);
    SortedSelection(current,
      name => name in before && name in after && after[name].toolHash != before[name].toolHash);
  }

  lemma SortedSelection(ts: seq<ToolSchema>, keep: string -> bool)
    ensures Lists(SortNames(Select(KeysOf(ts), keep)), set x | x in ByName(ts) && keep(x))
  {
    KeysFacts(ts);
    SelectFacts(KeysOf(ts), keep);
    SortFacts(Select(KeysOf(ts), keep), Identity);
  }

  /** The set of a duplicate-free list has as many members as the list. */
  lemma {:induction false} ListedCount(names: seq<string>, members: set<string>)
    requires DistinctNames(names) && forall x :: x in names <==> x in members
    ensures |members| == |names|
  {
    if names == [] {
      assert members == {};
    } else {
      assert names[0] in names;
      forall x | x in names[1..]
        ensures x in members - {names[0]}
      {
        var k :| 0 <= k < |names[1..]| && names[1..][k] == x;
        assert Identity(names[0]) != Identity(names[k + 1]) && x in names;
      }
      assert names == [names[0]] + names[1..];
      assert DistinctNames(names[1..]);
      ListedCount(names[1..], members - {names[0]});
    }
  }

  /** Conservation: what was there, less the removed, plus the added, is what is there now. */
  lemma DiffConserves(previous: seq<ToolSchema>, current: seq<ToolSchema>)
    requires DistinctTools(previous) && DistinctTools(current)
    ensures var d := DiffToolsets(previous, current);
      |previous| - |d.removed| + |d.added| == |current|
  {
    var d := DiffToolsets(previous, current);
    var before, after := ByName(previous).Keys, ByName(current).Keys;
    DiffLists(previous, current);
    ListedCount(d.added, after - before);
    ListedCount(d.removed, before - after);
    InventoryCount(previous);
    InventoryCount(current);
    SplitCount(before, after);
    SplitCount(after, before);
  }

  lemma InventoryCount(ts: seq<ToolSchema>)
    requires DistinctTools(ts)
    ensures |ByName(ts).Keys| == |ts|
  {
    KeysFacts(ts);
    ByNameDistinct(ts);
    ListedCount(KeysOf(ts), ByName(ts).Keys);
  }

  lemma SplitCount(a: set<string>, b: set<string>)
    ensures |a| == |a * b| + |a - b| && a * b == b * a
  {
    assert a == (a * b) + (a - b);
  }

  /** Applies a diff: drop the removed names, then take the added and changed ones from current. */
  function Patch(before: map<string, ToolSchema>, d: Diff, after: map<string, ToolSchema>): map<string, ToolSchema> {
    (before - (set x | x in d.removed)) +
    (map x | x in d.added + d.changed && x in after :: after[x])
  }

  /** Round trip: for genuine inventories the diff and the current entries it names rebuild the
      current inventory from the previous one. */
  lemma DiffRebuilds(previous: seq<ToolSchema>, current: seq<ToolSchema>)
    requires forall t :: t in previous ==> Genuine(t)
    requires forall t :: t in current ==> Genuine(t)
    ensures Patch(ByName(previous), DiffToolsets(previous, current), ByName(current)) == ByName(current)
  {
    var before, after, d := ByName(previous), ByName(current), DiffToolsets(previous, current);
    DiffLists(previous, current);
    KeysFacts(previous);
    KeysFacts(current);
    var patched := Patch(before, d, after);
    assert forall x :: x in patched <==> x in after;
    forall x | x in after
      ensures patched[x] == after[x]
    {
      if x !in d.added + d.changed {
        assert before[x].toolHash == after[x].toolHash;
        assert Genuine(before[x]) && Genuine(after[x]);
      }
    }
  }

  /** The inventory hash does not depend on the order the server lists its tools in. */
  lemma HashForgetsOrder(a: seq<ToolSchema>, b: seq<ToolSchema>)
    requires DistinctTools(a) && DistinctTools(b) && SameElements(a, b)
    ensures InventoryHash(a) == InventoryHash(b)
  {
    SortForgetsOrder(a, b, NameOf);
  }

  lemma EmptyListing(names: seq<string>, members: set<string>)
    requires Lists(names, members)
    ensures names == [] <==> members == {}
  {
    ListedCount(names, members);
  }

  lemma EqualHashNoDiff(previous: seq<ToolSchema>, current: seq<ToolSchema>)
    requires DistinctTools(previous) && DistinctTools(current)
    requires InventoryHash(previous) == InventoryHash(current)
    ensures ByName(previous) == ByName(current)
  {
    SortFacts(previous, NameOf);
    SortFacts(current, NameOf);
    assert SameElements(previous, current);
    SameElementsSameMap(previous, current);
  }

  lemma NoDiffSubset(previous: seq<ToolSchema>, current: seq<ToolSchema>)
    requires DistinctTools(previous) && DistinctTools(current)
    requires forall t :: t in previous ==> Genuine(t)
    requires forall t :: t in current ==> Genuine(t)
    requires ByName(previous).Keys <= ByName(current).Keys && Changed(ByName(previous), ByName(current)) == {}
    ensures forall t :: t in previous ==> t in current
  {
    KeysFacts(current);
    ByNameDistinct(previous);
    KeysFacts(previous);
    forall t | t in previous
      ensures t in current
    {
      assert t.name !in Changed(ByName(previous), ByName(current));
      assert Genuine(t) && Genuine(ByName(current)[t.name]);
    }
  }

  /** Hash and diff agree: two validated inventories have the same hash if and only if their diff
      is empty. */
  lemma HashIffNoDiff(previous: seq<ToolSchema>, current: seq<ToolSchema>)
    requires DistinctTools(previous) && DistinctTools(current)
    requires forall t :: t in previous ==> Genuine(t)
    requires forall t :: t in current ==> Genuine(t)
    ensures var d := DiffToolsets(previous, current);
      InventoryHash(previous) == InventoryHash(current) <==> d.added == d.removed == d.changed == []
  {
    hide InventoryHash, ByName, KeysOf;
    var d := DiffToolsets(previous, current);
    var before, after := ByName(previous), ByName(current);
    DiffLists(previous, current);
    EmptyListing(d.added, after.Keys - before.Keys);
    EmptyListing(d.removed, before.Keys - after.Keys);
    EmptyListing(d.changed, Changed(before, after));
    if InventoryHash(previous) == InventoryHash(current) {
      EqualHashNoDiff(previous, current);
    } else if d.added == d.removed == d.changed == [] {
      assert before.Keys == after.Keys;
      assert Changed(after, before) == Changed(before, after);
      NoDiffSubset(previous, current);
      NoDiffSubset(current, previous);
      HashForgetsOrder(previous, current);
    }
  }

  /** A validated inventory is genuine, sorted and duplicate-free, lists exactly the normalised
      tools, and hashes like any other listing of them. */
  lemma ValidatedFacts(ts: seq<Tool>)
    ensures ValidateInventory(ts).Some? ==>
      var v := ValidateInventory(ts).value;
      && |v| == |ts| && SameElements(v, NormalizeAll(ts))
      && Sorted(v, NameOf) && DistinctTools(v) && DistinctTools(NormalizeAll(ts))
      && (forall t :: t in v ==> Genuine(t))
      && InventoryHash(v) == InventoryHash(NormalizeAll(ts))
      && ByName(v) == ByName(NormalizeAll(ts))
  {
    if !HasDuplicate(ts) {
      var n := NormalizeAll(ts);
      var v := SortBy(n, NameOf);
      forall i, j | 0 <= i < j < |n|
        ensures NameOf(n[i]) != NameOf(n[j])
      {
        assert ts[i].name != ts[j].name;
      }
      SortFacts(n, NameOf);
      HashForgetsOrder(v, n);
      SameElementsSameMap(v, n);
    }
  }

  lemma SameElementsSameMap(a: seq<ToolSchema>, b: seq<ToolSchema>)
    requires DistinctTools(a) && DistinctTools(b) && SameElements(a, b)
    ensures ByName(a) == ByName(b)
  {
    KeysFacts(a);
    KeysFacts(b);
    ByNameDistinct(a);
    ByNameDistinct(b);
    assert ByName(a).Keys == ByName(b).Keys;
  }
}
