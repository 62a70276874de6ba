/** The persistent store: lists of records and snapshots keyed by namespace, and the audit log. */
module Registry {
  import opened Prelude
  import opened Inventory
  import opened Scopes

  datatype Snapshot = Snapshot(namespace: string, hash: Digest, count: nat, tools: seq<ToolSchema>)

  datatype Operation =
    | Register | Activate | Refresh | Deactivate | Unregister | Restore | ClearStale | CallTool | HealthCheck

  datatype Verdict = Success | Failure

  datatype Event = Event(
    sequence: int, operation: Operation, verdict: Verdict, namespace: Option<string>, scope: Option<Scope>)

  function RecordKey(r: Record): string { r.namespace }

  function SnapshotKey(s: Snapshot): string { s.namespace }

  // ----- Lists keyed by namespace -----

  /** The first entry for each key. */
  function AsMap<T>(xs: seq<T>, key: T -> string): map<string, T> {
    if xs == [] then map[] else AsMap(xs[1..], key)[key(xs[0]) := xs[0]]
  }

  /** Replaces the first entry with x's key, or appends x. */
  function Upsert<T>(xs: seq<T>, x: T, key: T -> string): seq<T> {
    if xs == [] then [x]
    else if key(xs[0]) == key(x) then [x] + xs[1..]
    else [xs[0]] + Upsert(xs[1..], x, key)
  }

  function Remove<T>(xs: seq<T>, k: string, key: T -> string): seq<T> {
    if xs == [] then []
    else (if key(xs[0]) == k then [] else [xs[0]]) + Remove(xs[1..], k, key)
  }

  ghost predicate Unique<T>(xs: seq<T>, key: T -> string) {
    Sorting.DistinctKeys(xs, key)
  }

  /** The list is a map: an upsert writes one key and no other. */
  lemma {:induction false} UpsertIsUpdate<T(!new)>(xs: seq<T>, x: T, key: T -> string)
    ensures AsMap(Upsert(xs, x, key), key) == AsMap(xs, key)[key(x) := x]
  {
    if xs != [] {
      if key(xs[0]) != key(x) {
        UpsertIsUpdate(xs[1..], x, key);
      }
    }
  }

  lemma {:induction false} RemoveIsMinus<T(!new)>(xs: seq<T>, k: string, key: T -> string)
    ensures AsMap(Remove(xs, k, key), key) == AsMap(xs, key) - {k}
    ensures |Remove(xs, k, key)| <= |xs|
    ensures |Remove(xs, k, key)| == |xs| <==> k !in AsMap(xs, key)
  {
    if xs != [] {
      RemoveIsMinus(xs[1..], k, key);
      var rest := Remove(xs[1..], k, key);
      if key(xs[0]) == k {
        assert Remove(xs, k, key) == rest;
      } else {
        assert Remove(xs, k, key)[1..] == rest;
      }
    }
  }

  ghost predicate HasKey<T>(xs: seq<T>, k: string, key: T -> string) {
    exists i :: 0 <= i < |xs| && key(xs[i]) == k
  }

  lemma {:induction false} KeysListed<T(!new)>(xs: seq<T>, key: T -> string)
    ensures forall k :: k in AsMap(xs, key) <==> HasKey(xs, k, key)
    ensures forall k :: k in AsMap(xs, key) ==> key(AsMap(xs, key)[k]) == k
  {
    if xs != [] {
      KeysListed(xs[1..], key);
      forall k
        ensures k in AsMap(xs, key) <==> HasKey(xs, k, key)
      {
        if k == key(xs[0]) {
          assert HasKey(xs, k, key);
        } else if HasKey(xs[1..], k, key) {
          var i :| 0 <= i < |xs[1..]| && key(xs[1..][i]) == k;
          assert key(xs[i + 1]) == k;
        }
      }
    }
  }

  /** With unique keys every entry is the one its key finds. */
  lemma {:induction false} EntriesListed<T(!new)>(xs: seq<T>, key: T -> string)
    requires Unique(xs, key)
    ensures forall i :: 0 <= i < |xs| ==> key(xs[i]) in AsMap(xs, key) && AsMap(xs, key)[key(xs[i])] == xs[i]
  {
    if xs != [] {
      EntriesListed(xs[1..], key);
      forall i | 0 <= i < |xs|
        ensures key(xs[i]) in AsMap(xs, key) && AsMap(xs, key)[key(xs[i])] == xs[i]
      {
        assert i > 0 ==> xs[i] == xs[1..][i - 1];
      }
    }
  }

  /** No operation ever stores a second entry for a key. */
  lemma {:induction false} UpsertUnique<T(!new)>(xs: seq<T>, x: T, key: T -> string)
    requires Unique(xs, key)
    ensures Unique(Upsert(xs, x, key), key)
  {
    if xs != [] && key(xs[0]) != key(x) {
      UpsertUnique(xs[1..], x, key);
      var rest := Upsert(xs[1..], x, key);
      KeysListed(rest, key);
      KeysListed(xs[1..], key);
      UpsertIsUpdate(xs[1..], x, key);
      forall j | 0 <= j < |rest|
        ensures key(rest[j]) != key(xs[0])
      {
        assert HasKey(rest, key(rest[j]), key);
      }
    }
  }

  lemma {:induction false} RemoveUnique<T(!new)>(xs: seq<T>, k: string, key: T -> string)
    requires Unique(xs, key)
    ensures Unique(Remove(xs, k, key), key)
  {
    if xs != [] {
      RemoveUnique(xs[1..], k, key);
      var rest := Remove(xs[1..], k, key);
      KeysListed(rest, key);
      KeysListed(xs[1..], key);
      RemoveIsMinus(xs[1..], k, key);
      forall j | 0 <= j < |rest|
        ensures key(rest[j]) != key(xs[0])
      {
        assert HasKey(rest, key(rest[j]), key);
      }
    }
  }

  function InOrder<T>(xs: seq<T>, key: T -> string): (names: seq<string>)
    ensures |names| == |xs| && forall i :: 0 <= i < |xs| ==> names[i] == key(xs[i])
  {
    seq(|xs|, i requires 0 <= i < |xs| => key(xs[i]))
  }

  lemma HasKeyCons<T>(xs: seq<T>, k: string, key: T -> string)
    requires xs != []
    ensures HasKey(xs, k, key) <==> key(xs[0]) == k || HasKey(xs[1..], k, key)
  {
    var rest := xs[1..];
    if i :| 0 <= i < |rest| && key(rest[i]) == k {
      assert xs[i + 1] == rest[i];
    }
    if i :| 0 <= i < |xs| && key(xs[i]) == k {
      assert i > 0 ==> rest[i - 1] == xs[i];
    }
  }

  lemma InOrderCons<T>(x: T, xs: seq<T>, key: T -> string)
    ensures InOrder([x] + xs, key) == [key(x)] + InOrder(xs, key)
  {}

  /** An upsert keeps every key in its place and puts a new one last. */
  lemma {:induction false} UpsertKeepsOrder<T>(xs: seq<T>, x: T, key: T -> string)
    ensures InOrder(Upsert(xs, x, key), key) ==
      if HasKey(xs, key(x), key) then InOrder(xs, key) else InOrder(xs, key) + [key(x)]
  {
    if xs != [] {
      var rest := xs[1..];
      UpsertKeepsOrder(rest, x, key);
      HasKeyCons(xs, key(x), key);
      InOrderCons(xs[0], rest, key);
      InOrderCons(xs[0], Upsert(rest, x, key), key);
      InOrderCons(x, rest, key);
      assert xs == [xs[0]] + rest;
      hide InOrder, HasKey;
    }
  }

  /** rest is xs without the entry at i, which has key k. */
  ghost predicate TakesOut<T>(xs: seq<T>, i: int, k: string, key: T -> string, rest: seq<T>) {
    0 <= i < |xs| && key(xs[i]) == k && rest == xs[..i] + xs[i + 1..]
  }

  /** A removal takes the one entry with its key out of the list, if there is one, and no other. */
  lemma {:induction false} RemoveTakesOne<T>(xs: seq<T>, k: string, key: T -> string)
    requires Unique(xs, key)
    ensures if HasKey(xs, k, key) then exists i :: TakesOut(xs, i, k, key, Remove(xs, k, key))
      else Remove(xs, k, key) == xs
  {
    if xs != [] {
      var rest := xs[1..];
      HeadIsOnly(xs, key);
      HasKeyCons(xs, k, key);
      hide Unique, HasKey;
      RemoveTakesOne(rest, k, key);
      assert xs == [xs[0]] + rest;
      if key(xs[0]) == k {
        assert Remove(xs, k, key) == rest;
        assert TakesOut(xs, 0, k, key, Remove(xs, k, key));
      } else if HasKey(rest, k, key) {
        var i :| TakesOut(rest, i, k, key, Remove(rest, k, key));
        TakesOutCons(xs, i, k, key, Remove(rest, k, key));
        assert TakesOut(xs, i + 1, k, key, Remove(xs, k, key));
      } else {
        assert Remove(xs, k, key) == xs;
      }
    }
  }

  lemma HeadIsOnly<T>(xs: seq<T>, key: T -> string)
    requires Unique(xs, key) && xs != []
    ensures Unique(xs[1..], key) && !HasKey(xs[1..], key(xs[0]), key)
  {
    assert forall j :: 0 <= j < |xs[1..]| ==> xs[1..][j] == xs[j + 1];
  }

  lemma TakesOutCons<T>(xs: seq<T>, i: int, k: string, key: T -> string, rest: seq<T>)
    requires xs != [] && TakesOut(xs[1..], i, k, key, rest)
    ensures TakesOut(xs, i + 1, k, key, [xs[0]] + rest)
  {
    assert xs[..i + 1] == [xs[0]] + xs[1..][..i] && xs[i + 2..] == xs[1..][i + 1..];
  }

  // ----- The audit log -----

  /** Python's `s[-limit:]`; with limit 0 that is all of s. */
  function FromEnd<T>(s: seq<T>, limit: int): seq<T> {
    if limit > 0 then (if |s| > limit then s[|s| - limit..] else s)
    else if -limit <= |s| then s[-limit..]
    else []
  }

  function Retained(log: seq<Event>, retention: int): seq<Event> {
    if |log| > retention then FromEnd(log, retention) else log
  }

  predicate Suffix<T(==)>(a: seq<T>, b: seq<T>) {
    |a| <= |b| && a == b[|b| - |a|..]
  }

  /** history is every event ever appended: the log is its most recent stretch, numbers are handed
      out consecutively from one, and the retention limit decides how long the stretch is.  A limit
      of zero keeps everything, and a negative one nothing. */
  predicate Window(log: seq<Event>, next: int, history: seq<Event>, retention: int) {
    && next == |history| + 1
    && (forall i :: 0 <= i < |history| ==> history[i].sequence == i + 1)
    && Suffix(log, history)
    && |log| == Kept(|history|, retention)
  }

  /** How many of n events are stored. */
  function Kept(n: nat, retention: int): nat {
    if retention < 0 then 0
    else if retention == 0 || n <= retention then n
    else retention
  }

  lemma AppendWindow(log: seq<Event>, next: int, history: seq<Event>, retention: int, e: Event)
    requires Window(log, next, history, retention)
    ensures var stored := e.(sequence := next);
      Window(Retained(log + [stored], retention), next + 1, history + [stored], retention)
  {
    var stored := e.(sequence := next);
    var grown, all := log + [stored], history + [stored];
    assert Suffix(grown, all);
    var kept := Retained(grown, retention);
    assert kept == grown[|grown| - |kept|..];
    assert all[|all| - |kept|..] == grown[|grown| - |kept|..];
  }

  /** A log and the next number, after events were appended one by one to an empty store. */
  function AppendAll(events: seq<Event>, retention: int): (seq<Event>, int) {
    if events == [] then ([], 1)
    else
      var n := |events| - 1;
      var (log, next) := AppendAll(events[..n], retention);
      (Retained(log + [events[n].(sequence := next)], retention), next + 1)
  }

  function Numbered(events: seq<Event>): (r: seq<Event>)
    ensures |r| == |events| && forall k :: 0 <= k < |r| ==> r[k] == events[k].(sequence := k + 1)
  {
    seq(|events|, k requires 0 <= k < |events| => events[k].(sequence := k + 1))
  }

  /** Whatever is appended, and whatever the limit, the stored log is the window of it all. */
  lemma {:induction false} LogIsWindow(events: seq<Event>, retention: int)
    ensures var (log, next) := AppendAll(events, retention); Window(log, next, Numbered(events), retention)
  {
    if events != [] {
      var n := |events| - 1;
      LogIsWindow(events[..n], retention);
      var (log, next) := AppendAll(events[..n], retention);
      AppendWindow(log, next, Numbered(events[..n]), retention, events[n]);
      assert Numbered(events) == Numbered(events[..n]) + [events[n].(sequence := next)];
    }
  }

  /** The log respects its limit exactly if the limit is at least one, or is zero and nothing was
      ever appended. */
  lemma {:induction false} LimitHeldIff(events: seq<Event>, retention: int)
    ensures |AppendAll(events, retention).0| <= retention <==> retention >= 1 || (retention == 0 && events == [])
  {
    LogIsWindow(events, retention);
  }

  /** A limit of zero keeps every event ever appended. */
  lemma {:induction false} ZeroRetentionKeepsAll(events: seq<Event>)
    ensures AppendAll(events, 0).0 == Numbered(events)
  {
    LogIsWindow(events, 0);
  }

  /** So the first event already breaks it. */
  lemma ZeroRetentionOverflows()
    ensures var e := Event(0, Register, Success, Some("a"), None);
      AppendAll([e], 0).0 == [e.(sequence := 1)] && |AppendAll([e], 0).0| > 0
  {
    ZeroRetentionKeepsAll([Event(0, Register, Success, Some("a"), None)]);
  }

  datatype Filter = Filter(
    namespace: Option<string>, operation: Option<Operation>, verdict: Option<Verdict>, present: Option<bool>)

  predicate Matches(e: Event, f: Filter, registered: set<string>) {
    && (f.namespace.Some? ==> e.namespace == f.namespace)
    && (f.operation.Some? ==> e.operation == f.operation.value)
    && (f.verdict.Some? ==> e.verdict == f.verdict.value)
    && (f.present.Some? ==> e.namespace.Some? && (e.namespace.value in registered) == f.present.value)
  }

  function Matching(log: seq<Event>, f: Filter, registered: set<string>): seq<Event> {
    if log == [] then []
    else
      var n := |log| - 1;
      Matching(log[..n], f, registered) + if Matches(log[n], f, registered) then [log[n]] else []
  }

  function Limited<T>(s: seq<T>, limit: Option<int>): seq<T> {
    if limit.None? then s
    else if limit.value <= 0 then []
    else FromEnd(s, limit.value)
  }

  /** A limit keeps the last entries, as many as it says: none for a limit that is not positive. */
  lemma LimitKeepsLast<T>(s: seq<T>, limit: Option<int>)
    ensures Suffix(Limited(s, limit), s)
    ensures limit.None? ==> Limited(s, limit) == s
    ensures limit.Some? && limit.value <= 0 ==> Limited(s, limit) == []
    ensures limit.Some? && 0 < limit.value <= |s| ==> |Limited(s, limit)| == limit.value
    ensures limit.Some? && |s| < limit.value ==> Limited(s, limit) == s
  {}

  /** A query returns the last matches of the window, in order, and as many as the limit allows. */
  lemma {:induction false} MatchingFacts(log: seq<Event>, f: Filter, registered: set<string>)
    ensures forall e :: e in Matching(log, f, registered) <==> e in log && Matches(e, f, registered)
    ensures Ascending(log) ==> Ascending(Matching(log, f, registered))
  {
    if log != [] {
      var n := |log| - 1;
      MatchingFacts(log[..n], f, registered);
      assert log == log[..n] + [log[n]];
      if Ascending(log) {
        var before := Matching(log[..n], f, registered);
        forall k | 0 <= k < |before|
          ensures before[k].sequence < log[n].sequence
        {
          assert before[k] in before && before[k] in log[..n];
        }
      }
    }
  }

  predicate Ascending(log: seq<Event>) {
    forall i, j :: 0 <= i < j < |log| ==> log[i].sequence < log[j].sequence
  }

  // ----- The store -----

  class JsonStateStore {
    const retention: int
    var toolsets: seq<Record>
    var schemaCache: seq<Snapshot>
    var previousCache: seq<Snapshot>
    var auditLog: seq<Event>
    var nextSequence: int
    ghost var history: seq<Event>

    constructor (retention: int)
      ensures Valid() && this.retention == retention
      ensures toolsets == [] && schemaCache == [] && previousCache == [] && auditLog == [] && history == []
      ensures nextSequence == 1
    {
      this.retention := retention;
      toolsets, schemaCache, previousCache, auditLog, nextSequence, history := [], [], [], [], 1, [];
    }

    ghost predicate Valid()
      reads this
    {
      && Unique(toolsets, RecordKey)
      && Unique(schemaCache, SnapshotKey)
      && Unique(previousCache, SnapshotKey)
      && Window(auditLog, nextSequence, history, retention)
    }

    /** What Valid says of the stored log alone. */
    lemma LogFollowsLimit()
      requires Valid()
      ensures |auditLog| <= retention <==> retention >= 1 || (retention == 0 && history == [])
      ensures retention == 0 ==> auditLog == history
      ensures retention < 0 ==> auditLog == []
    {
      hide Unique;
    }

    ghost function Records(): map<string, Record>
      reads this
    {
      AsMap(toolsets, RecordKey)
    }

    ghost function Current(): map<string, Snapshot>
      reads this
    {
      AsMap(schemaCache, SnapshotKey)
    }

    ghost function Previous(): map<string, Snapshot>
      reads this
    {
      AsMap(previousCache, SnapshotKey)
    }

    method GetToolset(namespace: string) returns (r: Option<Record>)
      ensures r == if namespace in Records() then Some(Records()[namespace]) else None
    {
      r := FindIn(toolsets, namespace, RecordKey);
    }

    method GetSchemaSnapshot(namespace: string) returns (s: Option<Snapshot>)
      ensures s == if namespace in Current() then Some(Current()[namespace]) else None
    {
      s := FindIn(schemaCache, namespace, SnapshotKey);
    }

    method GetPreviousSchemaSnapshot(namespace: string) returns (s: Option<Snapshot>)
      ensures s == if namespace in Previous() then Some(Previous()[namespace]) else None
    {
      s := FindIn(previousCache, namespace, SnapshotKey);
    }

    method UpsertToolset(record: Record)
      requires Valid()
      modifies this`toolsets
      ensures Valid() && Records() == old(Records())[record.namespace := record]
      ensures InOrder(toolsets, RecordKey) == old(InOrder(toolsets, RecordKey)) +
        if record.namespace in old(Records()) then [] else [record.namespace]
    {
      KeysListed(toolsets, RecordKey);
      UpsertKeepsOrder(toolsets, record, RecordKey);
      UpsertIsUpdate(toolsets, record, RecordKey);
      UpsertUnique(toolsets, record, RecordKey);
      toolsets := UpsertIn(toolsets, record, RecordKey);
    }

    method DeleteToolset(namespace: string) returns (deleted: bool)
      requires Valid()
      modifies this`toolsets
      ensures Valid() && Records() == old(Records()) - {namespace}
      ensures deleted == (namespace in old(Records()))
      ensures !deleted ==> toolsets == old(toolsets)
      ensures deleted ==>
        exists i :: TakesOut(old(toolsets), i, namespace, RecordKey, toolsets)
    {
      KeysListed(toolsets, RecordKey);
      RemoveTakesOne(toolsets, namespace, RecordKey);
      RemoveIsMinus(toolsets, namespace, RecordKey);
      RemoveUnique(toolsets, namespace, RecordKey);
      var remaining := Remove(toolsets, namespace, RecordKey);
      if |remaining| == |toolsets| {
        assert Records() - {namespace} == Records();
        return false;
      }
      toolsets := remaining;
      deleted := true;
    }

    /** What was current becomes previous; with nothing current, previous stays. */
    method ReplaceSchemaSnapshot(snapshot: Snapshot)
      requires Valid()
      modifies this`schemaCache, this`previousCache
      ensures Valid()
      ensures Current() == old(Current())[snapshot.namespace := snapshot]
      ensures Previous() ==
        if snapshot.namespace in old(Current()) then
          old(Previous())[snapshot.namespace := old(Current())[snapshot.namespace]]
        else old(Previous())
    {
      var existing := FindIn(schemaCache, snapshot.namespace, SnapshotKey);
      if existing.Some? {
        KeysListed(schemaCache, SnapshotKey);
        assert existing.value.namespace == snapshot.namespace;
        UpsertIsUpdate(previousCache, existing.value, SnapshotKey);
        UpsertUnique(previousCache, existing.value, SnapshotKey);
        previousCache := UpsertIn(previousCache, existing.value, SnapshotKey);
      }
      UpsertIsUpdate(schemaCache, snapshot, SnapshotKey);
      UpsertUnique(schemaCache, snapshot, SnapshotKey);
      schemaCache := UpsertIn(schemaCache, snapshot, SnapshotKey);
    }

    method DeleteSchemaSnapshots(namespace: string)
      requires Valid()
      modifies this`schemaCache, this`previousCache
      ensures Valid()
      ensures Current() == old(Current()) - {namespace}
      ensures Previous() == old(Previous()) - {namespace}
    {
      RemoveIsMinus(schemaCache, namespace, SnapshotKey);
      RemoveUnique(schemaCache, namespace, SnapshotKey);
      RemoveIsMinus(previousCache, namespace, SnapshotKey);
      RemoveUnique(previousCache, namespace, SnapshotKey);
      schemaCache := Remove(schemaCache, namespace, SnapshotKey);
      previousCache := Remove(previousCache, namespace, SnapshotKey);
    }

    method AppendAuditEvent(event: Event)
      requires Valid()
      modifies this`auditLog, this`nextSequence, this`history
      ensures Valid()
      ensures history == old(history) + [event.(sequence := |old(history)| + 1)]
    {
      AppendWindow(auditLog, nextSequence, history, retention, event);
      var stored := event.(sequence := nextSequence);
      nextSequence := nextSequence + 1;
      auditLog := auditLog + [stored];
      if |auditLog| > retention {
        auditLog := FromEnd(auditLog, retention);
      }
      history := history + [stored];
    }

    method ListAuditEvents(filter: Filter, limit: Option<int>) returns (selected: seq<Event>)
      ensures selected == Limited(Matching(auditLog, filter, Records().Keys), limit)
    {
      ghost var registered := Records().Keys;
      KeysListed(toolsets, RecordKey);
      selected := [];
      var i := 0;
      while i < |auditLog|
        invariant 0 <= i <= |auditLog|
        invariant selected == Matching(auditLog[..i], filter, registered)
      {
        assert auditLog[..i + 1][..i] == auditLog[..i];
        var e := auditLog[i];
        var names := set k | 0 <= k < |toolsets| :: toolsets[k].namespace;
        assert names == registered;
        if Matches(e, filter, names) {
          selected := selected + [e];
        }
        i := i + 1;
      }
      assert auditLog[..i] == auditLog;
      if limit.Some? {
        if limit.value <= 0 {
          return [];
        }
        selected := FromEnd(selected, limit.value);
      }
    }
  }

  /** The scan that every lookup makes: the first entry with the key. */
  method FindIn<T>(xs: seq<T>, k: string, key: T -> string) returns (r: Option<T>)
    ensures r == if k in AsMap(xs, key) then Some(AsMap(xs, key)[k]) else None
  {
    var i := 0;
    while i < |xs|
      invariant 0 <= i <= |xs|
      invariant k in AsMap(xs, key) <==> k in AsMap(xs[i..], key)
      invariant k in AsMap(xs, key) ==> AsMap(xs, key)[k] == AsMap(xs[i..], key)[k]
    {
      assert xs[i..][1..] == xs[i + 1..];
      if key(xs[i]) == k {
        return Some(xs[i]);
      }
      i := i + 1;
    }
    r := None;
  }

  /** The index loop of every upsert. */
  method UpsertIn<T>(xs: seq<T>, x: T, key: T -> string) returns (r: seq<T>)
    ensures r == Upsert(xs, x, key)
  {
    var i := 0;
    while i < |xs|
      invariant 0 <= i <= |xs|
      invariant Upsert(xs, x, key) == xs[..i] + Upsert(xs[i..], x, key)
    {
      assert xs[i..][1..] == xs[i + 1..];
      if key(xs[i]) == key(x) {
        return xs[i := x];
      }
      assert xs[..i] + [xs[i]] == xs[..i + 1];
      i := i + 1;
    }
    r := xs + [x];
  }
}
