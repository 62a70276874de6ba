/** Activation scopes, the scope policy of a registered toolset, and the in-place scope edits. */
module Scopes {
  import opened Prelude
  import opened Inventory

  datatype Scope = Thread | Session | Global

  datatype TransportState = Inactive | Connecting | Connected | Degraded | StaleTransport | FailedTransport

  datatype Reason =
    | RestoreFailed | RefreshFailed | CallTimeout | CallFailed
    | RuntimeMissing | ProbeTimeout | ProbeFailed | SchemaChanged | Marked(reason: string)

  datatype HealthStatus = Healthy | StaleHealth | FailedHealth

  datatype Health = Health(
    status: Option<HealthStatus>, observedHash: Option<Digest>, observedCount: Option<nat>, error: Option<Reason>)

  const NO_HEALTH := Health(None, None, None, None)

  datatype Record = Record(
    namespace: string,
    defaultScope: Scope,
    supported: seq<Scope>,
    restorable: seq<Scope>,
    recoverable: seq<Scope>,
    loaded: seq<Scope>,
    needsIdentity: bool,
    needsRequest: bool,
    transport: TransportState,
    stale: bool,
    staleReason: Option<Reason>,
    schemaHash: Option<Digest>,
    previousHash: Option<Digest>,
    toolCount: nat,
    health: Health,
    failed: bool)               // last_error is set

  function Rank(s: Scope): nat {
    match s
    case Thread => 0
    case Session => 1
    case Global => 2
  }

  predicate Ordered(scopes: seq<Scope>) {
    forall i, j :: 0 <= i < j < |scopes| ==> Rank(scopes[i]) < Rank(scopes[j])
  }

  /** Puts s in front of scopes if wanted. */
  function Prepend(s: Scope, wanted: bool, scopes: seq<Scope>): (r: seq<Scope>)
    requires Ordered(scopes) && forall x :: x in scopes ==> Rank(s) < Rank(x)
    ensures Ordered(r) && forall x :: x in r <==> (x == s && wanted) || x in scopes
  {
    if wanted then [s] + scopes else scopes
  }

  /** `sorted(set(scopes))`. */
  function OrderedUnique(scopes: seq<Scope>): (r: seq<Scope>)
    ensures Ordered(r) && forall s :: s in r <==> s in scopes
  {
    Prepend(Thread, Thread in scopes, Prepend(Session, Session in scopes, Prepend(Global, Global in scopes, [])))
  }

  function Place(s: Scope, scopes: seq<Scope>): seq<Scope> {
    if scopes == [] || Rank(s) <= Rank(scopes[0]) then [s] + scopes
    else [scopes[0]] + Place(s, scopes[1..])
  }

  /** `list.sort` by rank. */
  function SortScopes(scopes: seq<Scope>): seq<Scope> {
    if scopes == [] then [] else Place(scopes[0], SortScopes(scopes[1..]))
  }

  function Without(s: Scope, scopes: seq<Scope>): seq<Scope> {
    if scopes == [] then []
    else (if scopes[0] == s then [] else [scopes[0]]) + Without(s, scopes[1..])
  }

  predicate Within(a: seq<Scope>, b: seq<Scope>) {
    forall s :: s in a ==> s in b
  }

  /** The validator that runs whenever a record is built or loaded; None is its ValueError. */
  function ValidateScopePolicy(r: Record): Option<Record> {
    var n := r.(supported := OrderedUnique(r.supported), restorable := OrderedUnique(r.restorable),
                recoverable := OrderedUnique(r.recoverable), loaded := OrderedUnique(r.loaded));
    if n.defaultScope !in n.supported then None
    else if !Within(n.loaded, n.supported) then None
    else if !Within(n.restorable, n.supported) then None
    else if Thread in n.restorable then None
    else if !Within(n.recoverable, n.supported) then None
    else if !Within(n.recoverable, n.restorable) then None
    else Some(n)
  }

  function AddScope(r: Record, s: Scope): Record {
    if s in r.loaded then r else r.(loaded := SortScopes(r.loaded + [s]))
  }

  function RemoveScope(r: Record, s: Scope): Record {
    r.(loaded := Without(s, r.loaded))
  }

  function AddRecoverable(r: Record, s: Scope): Record {
    if s !in r.restorable || s in r.recoverable then r
    else r.(recoverable := SortScopes(r.recoverable + [s]))
  }

  function RemoveRecoverable(r: Record, s: Scope): Record {
    r.(recoverable := Without(s, r.recoverable))
  }

  function AddScopes(r: Record, scopes: seq<Scope>): Record
    decreases |scopes|
  {
    if scopes == [] then r else AddScopes(AddScope(r, scopes[0]), scopes[1..])
  }

  function Common(scopes: seq<Scope>, a: seq<Scope>, b: seq<Scope>): seq<Scope> {
    if scopes == [] then []
    else (if scopes[0] in a && scopes[0] in b then [scopes[0]] else []) + Common(scopes[1..], a, b)
  }

  /** The scopes a restore may bring back, or none when a gate is shut. */
  function RecoveryScopes(r: Record, stableIdentity: bool, explicitRequest: bool): seq<Scope> {
    if r.needsIdentity && !stableIdentity then []
    else if r.needsRequest && !explicitRequest then []
    else Common(r.recoverable, r.restorable, r.supported)
  }

  /** What every stored record satisfies: the validator accepts it unchanged, and what is loaded
      and restorable is also recoverable. */
  predicate Policy(r: Record) {
    && Ordered(r.supported) && Ordered(r.restorable) && Ordered(r.recoverable) && Ordered(r.loaded)
    && r.defaultScope in r.supported
    && Within(r.loaded, r.supported)
    && Within(r.restorable, r.supported)
    && Thread !in r.restorable
    && Within(r.recoverable, r.restorable)
    && (forall s :: s in r.loaded && s in r.restorable ==> s in r.recoverable)
  }

  lemma EmptyIffNoMembers(scopes: seq<Scope>)
    ensures scopes == [] <==> (set s | s in scopes) == {}
  {
    var members := set s | s in scopes;
    if scopes == [] {
      assert members == {};
    } else {
      assert scopes[0] in members;
    }
  }

  lemma {:induction false} OrderedDetermined(a: seq<Scope>, b: seq<Scope>)
    requires Ordered(a) && Ordered(b) && forall s :: s in a <==> s in b
    ensures a == b
    decreases |a|
  {
    assert (set s | s in a) == (set s | s in b);
    EmptyIffNoMembers(a);
    EmptyIffNoMembers(b);
    if |a| != 0 {
      assert a[0] in b && |b| > 0 && b[0] in a;
      assert a[0] == b[0];
      forall s
        ensures s in a[1..] <==> s in b[1..]
      {
        assert s in a <==> s == a[0] || s in a[1..];
        assert s in b <==> s == b[0] || s in b[1..];
        assert a[0] !in a[1..] && b[0] !in b[1..];
      }
      OrderedDetermined(a[1..], b[1..]);
    }
  }

  lemma OrderedIsNormal(scopes: seq<Scope>)
    requires Ordered(scopes)
    ensures OrderedUnique(scopes) == scopes
  {
    OrderedDetermined(OrderedUnique(scopes), scopes);
  }

  lemma {:induction false} PlaceFacts(s: Scope, scopes: seq<Scope>)
    requires Ordered(scopes) && s !in scopes
    ensures Ordered(Place(s, scopes))
    ensures forall x :: x in Place(s, scopes) <==> x == s || x in scopes
  {
    if scopes != [] && Rank(s) > Rank(scopes[0]) {
      PlaceFacts(s, scopes[1..]);
      var rest := Place(s, scopes[1..]);
      assert scopes == [scopes[0]] + scopes[1..];
      forall k | 0 <= k < |rest|
        ensures Rank(scopes[0]) < Rank(rest[k])
      {
        assert rest[k] in rest;
      }
    }
  }

  predicate NoRepeats(scopes: seq<Scope>) {
    forall i, j :: 0 <= i < j < |scopes| ==> scopes[i] != scopes[j]
  }

  lemma {:induction false} SortFacts(scopes: seq<Scope>)
    requires NoRepeats(scopes)
    ensures Ordered(SortScopes(scopes))
    ensures forall x :: x in SortScopes(scopes) <==> x in scopes
  {
    if scopes != [] {
      assert NoRepeats(scopes[1..]);
      SortFacts(scopes[1..]);
      assert scopes == [scopes[0]] + scopes[1..];
      PlaceFacts(scopes[0], SortScopes(scopes[1..]));
    }
  }

  /** Appending a new scope and sorting inserts it in its place. */
  lemma AppendSorted(scopes: seq<Scope>, s: Scope)
    requires Ordered(scopes) && s !in scopes
    ensures var r := SortScopes(scopes + [s]);
      Ordered(r) && forall x :: x in r <==> x == s || x in scopes
  {
    SortFacts(scopes + [s]);
  }

  lemma {:induction false} WithoutFacts(s: Scope, scopes: seq<Scope>)
    ensures Ordered(scopes) ==> Ordered(Without(s, scopes))
    ensures forall x :: x in Without(s, scopes) <==> x in scopes && x != s
  {
    if scopes != [] {
      WithoutFacts(s, scopes[1..]);
      assert scopes == [scopes[0]] + scopes[1..];
      if Ordered(scopes) {
        var rest := Without(s, scopes[1..]);
        forall k | 0 <= k < |rest|
          ensures Rank(scopes[0]) < Rank(rest[k])
        {
          assert rest[k] in rest && rest[k] in scopes[1..];
        }
      }
    }
  }

  lemma {:induction false} CommonFacts(scopes: seq<Scope>, a: seq<Scope>, b: seq<Scope>)
    ensures forall x :: x in Common(scopes, a, b) <==> x in scopes && x in a && x in b
    ensures Within(scopes, a) && Within(scopes, b) ==> Common(scopes, a, b) == scopes
  {
    if scopes != [] {
      CommonFacts(scopes[1..], a, b);
      assert scopes == [scopes[0]] + scopes[1..];
    }
  }

  /** The validator is the identity exactly on records in canonical form that respect the
      policy, so what satisfies Policy reloads unchanged. */
  lemma ReloadIffCanonical(r: Record)
    ensures ValidateScopePolicy(r) == Some(r) <==>
      && Ordered(r.supported) && Ordered(r.restorable) && Ordered(r.recoverable) && Ordered(r.loaded)
      && r.defaultScope in r.supported && Within(r.loaded, r.supported) && Within(r.restorable, r.supported)
      && Thread !in r.restorable && Within(r.recoverable, r.restorable)
  {
    if Ordered(r.supported) && Ordered(r.restorable) && Ordered(r.recoverable) && Ordered(r.loaded) {
      OrderedIsNormal(r.supported);
      OrderedIsNormal(r.restorable);
      OrderedIsNormal(r.recoverable);
      OrderedIsNormal(r.loaded);
    }
  }

  /** Validation is idempotent: whatever it accepts, it accepts again unchanged. */
  lemma ValidateTwice(r: Record)
    ensures ValidateScopePolicy(r).Some? ==>
      ValidateScopePolicy(ValidateScopePolicy(r).value) == ValidateScopePolicy(r)
  {
    if ValidateScopePolicy(r).Some? {
      ReloadIffCanonical(ValidateScopePolicy(r).value);
    }
  }

  lemma AddBothKeeps(r: Record, s: Scope)
    requires Policy(r) && s in r.supported
    ensures var r' := AddRecoverable(AddScope(r, s), s);
      && Policy(r')
      && (forall x :: x in r'.loaded <==> x in r.loaded || x == s)
      && (forall x :: x in r'.recoverable <==> x in r.recoverable || (x == s && s in r.restorable))
      && r' == r.(loaded := r'.loaded, recoverable := r'.recoverable)
  {
    if s !in r.loaded {
      AppendSorted(r.loaded, s);
    }
    if s in r.restorable && s !in r.recoverable {
      AppendSorted(r.recoverable, s);
    }
  }

  lemma RemoveBothKeeps(r: Record, s: Scope)
    requires Policy(r)
    ensures var r' := RemoveRecoverable(RemoveScope(r, s), s);
      && Policy(r')
      && (forall x :: x in r'.loaded <==> x in r.loaded && x != s)
      && (forall x :: x in r'.recoverable <==> x in r.recoverable && x != s)
  {
    WithoutFacts(s, r.loaded);
    WithoutFacts(s, r.recoverable);
  }

  lemma {:induction false} AddScopesKeeps(r: Record, scopes: seq<Scope>)
    requires Policy(r) && Within(scopes, r.recoverable)
    ensures var r' := AddScopes(r, scopes);
      && Policy(r')
      && (forall x :: x in r'.loaded <==> x in r.loaded || x in scopes)
      && r' == r.(loaded := r'.loaded)
    decreases |scopes|
  {
    if scopes != [] {
      var s := scopes[0];
      if s !in r.loaded {
        AppendSorted(r.loaded, s);
      }
      assert s in r.recoverable;
      AddScopesKeeps(AddScope(r, s), scopes[1..]);
      assert scopes == [s] + scopes[1..];
    }
  }

  lemma {:induction false} AddScopesOnlyLoads(r: Record, scopes: seq<Scope>)
    ensures AddScopes(r, scopes) == r.(loaded := AddScopes(r, scopes).loaded)
    decreases |scopes|
  {
    if scopes != [] {
      AddScopesOnlyLoads(AddScope(r, scopes[0]), scopes[1..]);
    }
  }

  /** A record as the service holds it: a private, mutable copy of what the store returned. */
  class ToolsetRecord {
    var data: Record

    constructor (r: Record)
      ensures data == r
    {
      data := r;
    }

    method Add(s: Scope) returns (added: bool)
      modifies this
      ensures data == AddScope(old(data), s) && added == (s !in old(data).loaded)
    {
      if s in data.loaded {
        return false;
      }
      data := data.(loaded := data.loaded + [s]);
      data := data.(loaded := SortScopes(data.loaded));
      added := true;
    }

    method Remove(s: Scope) returns (removed: bool)
      modifies this
      ensures data == RemoveScope(old(data), s) && removed == (s in old(data).loaded)
    {
      if s !in data.loaded {
        WithoutAbsent(s, data.loaded);
        return false;
      }
      data := data.(loaded := Without(s, data.loaded));
      removed := true;
    }

    method AddToRecoverable(s: Scope) returns (added: bool)
      modifies this
      ensures data == AddRecoverable(old(data), s)
      ensures added == (s in old(data).restorable && s !in old(data).recoverable)
    {
      if s !in data.restorable || s in data.recoverable {
        return false;
      }
      data := data.(recoverable := data.recoverable + [s]);
      data := data.(recoverable := SortScopes(data.recoverable));
      added := true;
    }

    method RemoveFromRecoverable(s: Scope) returns (removed: bool)
      modifies this
      ensures data == RemoveRecoverable(old(data), s) && removed == (s in old(data).recoverable)
    {
      if s !in data.recoverable {
        WithoutAbsent(s, data.recoverable);
        return false;
      }
      data := data.(recoverable := Without(s, data.recoverable));
      removed := true;
    }

    method AddAll(scopes: seq<Scope>)
      modifies this
      ensures data == AddScopes(old(data), scopes)
    {
      var i := 0;
      while i < |scopes|
        invariant 0 <= i <= |scopes|
        invariant AddScopes(data, scopes[i..]) == AddScopes(old(data), scopes)
      {
        assert scopes[i..][1..] == scopes[i + 1..];
        var _ := Add(scopes[i]);
        i := i + 1;
      }
    }
  }

  lemma {:induction false} WithoutAbsent(s: Scope, scopes: seq<Scope>)
    requires s !in scopes
    ensures Without(s, scopes) == scopes
  {
    if scopes != [] {
      WithoutAbsent(s, scopes[1..]);
    }
  }
}
