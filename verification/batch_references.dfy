/** Batch arguments and the `$from` references inside them. */
module BatchReferences {
  import opened Prelude

  /** A JSON value; an object keeps its fields in order, and a number its literal. */
  datatype Json =
    | Null | Bool(b: bool) | Number(literal: string) | Str(s: string) | Arr(items: seq<Json>) | Obj(fields: seq<Field>)

  datatype Field = Field(key: string, value: Json)

  datatype Fault =
    | NotAString | EmptyReference | UnknownStep(id: string) | FailedStep(id: string)
    | MissingKey(token: string) | NotAnIndex(token: string) | OutOfRange(token: string) | CannotDescend(token: string)
    | NotAnObject | UnknownTool | CallRaised

  datatype Resolved<+T> = Ok(value: T) | Err(fault: Fault)

  datatype StepResult = StepResult(
    id: string, tool: string, data: Json, text: Option<string>, isError: bool, fault: Option<Fault>)

  type Results = map<string, StepResult>

  // ----- The path a reference spells -----

  /** `s.split(".")` */
  function Split(s: string): (r: seq<string>)
    ensures |r| > 0
  {
    if s == "" then [""]
    else
      var rest := Split(s[1..]);
      if s[0] == '.' then [""] + rest else [[s[0]] + rest[0]] + rest[1..]
  }

  function NonEmpty(tokens: seq<string>): seq<string> {
    if tokens == [] then []
    else (if tokens[0] == "" then [] else [tokens[0]]) + NonEmpty(tokens[1..])
  }

  function Tokens(reference: string): seq<string> {
    NonEmpty(Split(reference))
  }

  function Join(tokens: seq<string>): string {
    if tokens == [] then ""
    else if |tokens| == 1 then tokens[0]
    else tokens[0] + "." + Join(tokens[1..])
  }

  predicate Token(t: string) {
    t != "" && '.' !in t
  }

  lemma {:induction false} SplitAtDot(t: string, rest: string)
    requires '.' !in t
    ensures Split(t) == [t] && Split(t + "." + rest) == [t] + Split(rest)
  {
    if t == "" {
      assert t + "." + rest == "." + rest;
      assert ("." + rest)[1..] == rest;
    } else {
      SplitAtDot(t[1..], rest);
      assert (t + "." + rest)[1..] == t[1..] + "." + rest;
      assert [t[0]] + t[1..] == t;
      var tail := Split(t[1..] + "." + rest);
      assert tail[0] == t[1..] && tail[1..] == Split(rest);
    }
  }

  /** A reference spells exactly the path of its tokens: whatever is joined from non-empty,
      dot-free tokens is read back as those tokens. */
  lemma {:induction false} JoinedTokensReadBack(tokens: seq<string>)
    requires forall t :: t in tokens ==> Token(t)
    ensures Tokens(Join(tokens)) == tokens
  {
    if tokens != [] {
      var t, rest := tokens[0], tokens[1..];
      assert Token(t);
      JoinedTokensReadBack(rest);
      SplitAtDot(t, Join(rest));
      assert ([t] + Split(Join(rest)))[1..] == Split(Join(rest));
    }
  }

  /** Every token of a reference is non-empty and dot-free, so no reference reaches a key that is
      empty or contains a dot. */
  lemma TokensAreTokens(reference: string)
    ensures forall t :: t in Tokens(reference) ==> Token(t)
  {
    SplitIsDotFree(reference);
    NonEmptyFacts(Split(reference));
  }

  lemma {:induction false} SplitIsDotFree(s: string)
    ensures forall t :: t in Split(s) ==> '.' !in t
  {
    if s != "" {
      SplitIsDotFree(s[1..]);
      assert Split(s[1..])[0] in Split(s[1..]);
    }
  }

  lemma {:induction false} NonEmptyFacts(tokens: seq<string>)
    ensures forall t :: t in NonEmpty(tokens) <==> t in tokens && t != ""
  {
    if tokens != [] {
      NonEmptyFacts(tokens[1..]);
      assert tokens == [tokens[0]] + tokens[1..];
    }
  }

  // ----- Following a path -----

  /** `token.isdigit()` over the ASCII digits. */
  predicate IsDigits(token: string) {
    token != "" && AllDigits(token)
  }

  predicate AllDigits(token: string) {
    forall i :: 0 <= i < |token| ==> '0' <= token[i] <= '9'
  }

  function ToNat(token: string): nat
    requires AllDigits(token)
  {
    if token == "" then 0
    else ToNat(token[..|token| - 1]) * 10 + (token[|token| - 1] - '0') as nat
  }

  function Lookup(fields: seq<Field>, key: string): Option<Json> {
    if fields == [] then None
    else if fields[0].key == key then Some(fields[0].value)
    else Lookup(fields[1..], key)
  }

  function Descend(v: Json, token: string): Resolved<Json> {
    if v.Obj? then
      var found := Lookup(v.fields, token);
      if found.Some? then Ok(found.value) else Err(MissingKey(token))
    else if v.Arr? then
      if !IsDigits(token) then Err(NotAnIndex(token))
      else if ToNat(token) >= |v.items| then Err(OutOfRange(token))
      else Ok(v.items[ToNat(token)])
    else Err(CannotDescend(token))
  }

  function Walk(v: Json, path: seq<string>): Resolved<Json>
    decreases |path|
  {
    if path == [] then Ok(v)
    else
      var next := Descend(v, path[0]);
      if next.Err? then next else Walk(next.value, path[1..])
  }

  /** What a successful step offers to later ones. */
  function Payload(r: StepResult): Json {
    if r.data != Null then r.data
    else if r.text.Some? then Str(r.text.value)
    else Null
  }

  function Extract(reference: string, results: Results): Resolved<Json> {
    var tokens := Tokens(reference);
    if tokens == [] then Err(EmptyReference)
    else if tokens[0] !in results then Err(UnknownStep(tokens[0]))
    else if results[tokens[0]].isError then Err(FailedStep(tokens[0]))
    else Walk(Payload(results[tokens[0]]), tokens[1..])
  }

  /** A reference spelled from a step and a path of keys and indices follows exactly that path. */
  lemma SpelledPathIsFollowed(id: string, path: seq<string>, results: Results)
    requires forall t :: t in [id] + path ==> Token(t)
    requires id in results && !results[id].isError
    ensures Extract(Join([id] + path), results) == Walk(Payload(results[id]), path)
  {
    JoinedTokensReadBack([id] + path);
    assert ([id] + path)[1..] == path;
  }

  function Decimal(n: nat): (r: string)
    ensures r != "" && AllDigits(r)
  {
    var digit := ['0' + (n % 10) as char];
    if n < 10 then digit else Decimal(n / 10) + digit
  }

  /** Every index can be spelled: the decimal numeral of k, a token, leads to item k. */
  lemma {:induction false} NumeralReadBack(k: nat)
    ensures Token(Decimal(k)) && IsDigits(Decimal(k)) && ToNat(Decimal(k)) == k
  {
    assert forall i :: 0 <= i < |Decimal(k)| ==> Decimal(k)[i] != '.';
    if k >= 10 {
      NumeralReadBack(k / 10);
      var upto := Decimal(k / 10);
      assert Decimal(k)[..|Decimal(k)| - 1] == upto;
    }
  }

  /** A reference without tokens, and one to a step that has no result or failed, fails as just that. */
  lemma ReferenceErrors(id: string, path: seq<string>, results: Results)
    requires forall t :: t in [id] + path ==> Token(t)
    ensures Extract("", results) == Err(EmptyReference)
    ensures id !in results ==> Extract(Join([id] + path), results) == Err(UnknownStep(id))
    ensures id in results && results[id].isError ==> Extract(Join([id] + path), results) == Err(FailedStep(id))
  {
    JoinedTokensReadBack([id] + path);
  }

  /** What a spelled reference reads: the recorded data of the step, or its text when there is no data. */
  lemma SpelledPathReadsData(id: string, path: seq<string>, results: Results)
    requires forall t :: t in [id] + path ==> Token(t)
    requires id in results && !results[id].isError
    ensures var r := results[id];
      && (r.data != Null ==> Extract(Join([id] + path), results) == Walk(r.data, path))
      && (r.data == Null && r.text.Some? ==> Extract(Join([id] + path), results) == Walk(Str(r.text.value), path))
      && (r.data == Null && r.text.None? ==> Extract(Join([id] + path), results) == Walk(Null, path))
  {
    SpelledPathIsFollowed(id, path, results);
    hide Extract, Walk, Join;
  }

  predicate DistinctKeys(fields: seq<Field>) {
    forall i, j :: 0 <= i < j < |fields| ==> fields[i].key != fields[j].key
  }

  lemma {:induction false} LookupFinds(fields: seq<Field>, key: string)
    ensures DistinctKeys(fields) ==> forall f :: f in fields && f.key == key ==> Lookup(fields, key) == Some(f.value)
    ensures (forall f :: f in fields ==> f.key != key) ==> Lookup(fields, key).None?
  {
    if fields != [] {
      LookupFinds(fields[1..], key);
      assert fields == [fields[0]] + fields[1..];
      if DistinctKeys(fields) {
        assert DistinctKeys(fields[1..]);
      }
    }
  }

  /** A key leads to the field with that key, and a missing one nowhere. */
  lemma FieldLaw(fields: seq<Field>, key: string, path: seq<string>)
    requires DistinctKeys(fields)
    ensures forall f :: f in fields && f.key == key ==> Walk(Obj(fields), [key] + path) == Walk(f.value, path)
    ensures (forall f :: f in fields ==> f.key != key) ==> Walk(Obj(fields), [key] + path) == Err(MissingKey(key))
  {
    LookupFinds(fields, key);
    assert ([key] + path)[1..] == path;
    hide Lookup;
  }

  /** The numeral of k leads to item k; past the end, and with a token that is no numeral, it leads
      nowhere. */
  lemma ItemLaw(items: seq<Json>, k: nat, token: string, path: seq<string>)
    ensures Walk(Arr(items), [Decimal(k)] + path) ==
      if k < |items| then Walk(items[k], path) else Err(OutOfRange(Decimal(k)))
    ensures !IsDigits(token) ==> Walk(Arr(items), [token] + path) == Err(NotAnIndex(token))
  {
    NumeralReadBack(k);
    assert ([Decimal(k)] + path)[1..] == path && ([token] + path)[1..] == path;
    hide Decimal, ToNat, AllDigits;
  }

  /** A path of no tokens stays, and nothing leads below a value that is neither object nor list. */
  lemma LeafLaw(v: Json, token: string, path: seq<string>)
    ensures Walk(v, []) == Ok(v)
    ensures !v.Obj? && !v.Arr? ==> Walk(v, [token] + path) == Err(CannotDescend(token))
  {}

  /** The loop over the tokens, with its local cursor. */
  method ExtractBatchReference(reference: string, results: Results) returns (r: Resolved<Json>)
    ensures r == Extract(reference, results)
  {
    var tokens := Tokens(reference);
    if tokens == [] {
      return Err(EmptyReference);
    }
    var id := tokens[0];
    if id !in results {
      return Err(UnknownStep(id));
    }
    if results[id].isError {
      return Err(FailedStep(id));
    }
    var current := Payload(results[id]);
    var i := 1;
    while i < |tokens|
      invariant 1 <= i <= |tokens|
      invariant Walk(current, tokens[i..]) == Extract(reference, results)
    {
      assert tokens[i..][1..] == tokens[i + 1..];
      var token := tokens[i];
      if current.Obj? {
        var found := Lookup(current.fields, token);
        if found.None? {
          return Err(MissingKey(token));
        }
        current := found.value;
      } else if current.Arr? {
        if !IsDigits(token) {
          return Err(NotAnIndex(token));
        }
        var index := ToNat(token);
        if index >= |current.items| {
          return Err(OutOfRange(token));
        }
        current := current.items[index];
      } else {
        return Err(CannotDescend(token));
      }
      i := i + 1;
    }
    r := Ok(current);
  }

  // ----- Resolving arguments -----

  /** An object whose only key is `$from`. */
  predicate IsReference(v: Json) {
    v.Obj? && |v.fields| == 1 && v.fields[0].key == "$from"
  }

  function ResolveValue(v: Json, results: Results): Resolved<Json>
    decreases v
  {
    if IsReference(v) then
      if v.fields[0].value.Str? then Extract(v.fields[0].value.s, results) else Err(NotAString)
    else if v.Obj? then
      var fields := ResolveFields(v.fields, results);
      if fields.Err? then Err(fields.fault) else Ok(Obj(fields.value))
    else if v.Arr? then
      var items := ResolveItems(v.items, results);
      if items.Err? then Err(items.fault) else Ok(Arr(items.value))
    else Ok(v)
  }

  function ResolveFields(fields: seq<Field>, results: Results): Resolved<seq<Field>>
    decreases fields
  {
    if fields == [] then Ok([])
    else
      var first := ResolveValue(fields[0].value, results);
      if first.Err? then Err(first.fault)
      else
        var rest := ResolveFields(fields[1..], results);
        if rest.Err? then rest else Ok([Field(fields[0].key, first.value)] + rest.value)
  }

  function ResolveItems(items: seq<Json>, results: Results): Resolved<seq<Json>>
    decreases items
  {
    if items == [] then Ok([])
    else
      var first := ResolveValue(items[0], results);
      if first.Err? then Err(first.fault)
      else
        var rest := ResolveItems(items[1..], results);
        if rest.Err? then rest else Ok([first.value] + rest.value)
  }

  /** Where a path leads in a value: to one of its own nodes, past one of its references, or
      nowhere. */
  datatype Place = Here(node: Json) | Beyond(reference: Json, rest: seq<string>) | Nowhere(fault: Fault)

  function Reach(v: Json, path: seq<string>): Place
    decreases |path|
  {
    if path == [] then Here(v)
    else if IsReference(v) then Beyond(v, path)
    else
      var next := Descend(v, path[0]);
      if next.Err? then Nowhere(next.fault) else Reach(next.value, path[1..])
  }

  lemma {:induction false} FieldsPointwise(fields: seq<Field>, results: Results, key: string)
    requires ResolveFields(fields, results).Ok?
    ensures var out := ResolveFields(fields, results).value;
      && |out| == |fields|
      && (forall k :: 0 <= k < |fields| ==> out[k].key == fields[k].key)
      && match Lookup(fields, key)
         case None => Lookup(out, key).None?
         case Some(w) => ResolveValue(w, results).Ok? && Lookup(out, key) == Some(ResolveValue(w, results).value)
  {
    if fields != [] {
      FieldsPointwise(fields[1..], results, key);
    }
  }

  lemma {:induction false} ItemsPointwise(items: seq<Json>, results: Results)
    requires ResolveItems(items, results).Ok?
    ensures var out := ResolveItems(items, results).value;
      && |out| == |items|
      && forall k :: 0 <= k < |items| ==> ResolveValue(items[k], results) == Ok(out[k])
  {
    if items != [] {
      ItemsPointwise(items[1..], results);
    }
  }

  lemma DescendResolved(v: Json, results: Results, token: string)
    requires !IsReference(v) && ResolveValue(v, results).Ok?
    ensures var before, after := Descend(v, token), Descend(ResolveValue(v, results).value, token);
      if before.Err? then after == before else after.Ok? && after == ResolveValue(before.value, results)
  {
    if v.Obj? {
      FieldsPointwise(v.fields, results, token);
    } else if v.Arr? {
      ItemsPointwise(v.items, results);
    }
  }

  /** What resolution does, path by path: a node of the template that is not a reference stays
      where it is, a reference is replaced by exactly the data it names, and below a reference the
      data is as recorded, whatever it contains: nothing inserted is scanned again. */
  lemma {:induction false} ResolvedAt(v: Json, results: Results, path: seq<string>)
    requires ResolveValue(v, results).Ok?
    ensures var u := ResolveValue(v, results).value;
      match Reach(v, path)
      case Here(w) => ResolveValue(w, results).Ok? && Walk(u, path) == ResolveValue(w, results)
      case Beyond(ref, rest) =>
        && IsReference(ref) && ref.fields[0].value.Str?
        && Extract(ref.fields[0].value.s, results).Ok?
        && Walk(u, path) == Walk(Extract(ref.fields[0].value.s, results).value, rest)
      case Nowhere(fault) => Walk(u, path) == Err(fault)
    decreases |path|
  {
    if path != [] && !IsReference(v) {
      DescendResolved(v, results, path[0]);
      var next := Descend(v, path[0]);
      hide ResolveValue, Descend;
      if next.Ok? {
        ResolvedAt(next.value, results, path[1..]);
      }
    }
  }

  /** What the references inside a value say, in the order they are met. */
  function References(v: Json): seq<Json>
    decreases v
  {
    if IsReference(v) then [v.fields[0].value]
    else if v.Obj? then FieldReferences(v.fields)
    else if v.Arr? then ItemReferences(v.items)
    else []
  }

  function FieldReferences(fields: seq<Field>): seq<Json>
    decreases fields
  {
    if fields == [] then [] else References(fields[0].value) + FieldReferences(fields[1..])
  }

  function ItemReferences(items: seq<Json>): seq<Json>
    decreases items
  {
    if items == [] then [] else References(items[0]) + ItemReferences(items[1..])
  }

  predicate Sound(reference: Json, results: Results) {
    reference.Str? && Extract(reference.s, results).Ok?
  }

  /** Arguments resolve exactly when each of their references can be followed. */
  lemma {:induction false} ResolvesIff(v: Json, results: Results)
    ensures ResolveValue(v, results).Ok? <==> forall r :: r in References(v) ==> Sound(r, results)
    decreases v
  {
    if IsReference(v) {
      assert v.fields[0].value in References(v);
    } else if v.Obj? {
      FieldsResolveIff(v.fields, results);
    } else if v.Arr? {
      ItemsResolveIff(v.items, results);
    }
  }

  lemma {:induction false} FieldsResolveIff(fields: seq<Field>, results: Results)
    ensures ResolveFields(fields, results).Ok? <==> forall r :: r in FieldReferences(fields) ==> Sound(r, results)
    decreases fields
  {
    if fields != [] {
      ResolvesIff(fields[0].value, results);
      FieldsResolveIff(fields[1..], results);
      hide Sound, References, ResolveValue;
    }
  }

  lemma {:induction false} ItemsResolveIff(items: seq<Json>, results: Results)
    ensures ResolveItems(items, results).Ok? <==> forall r :: r in ItemReferences(items) ==> Sound(r, results)
    decreases items
  {
    if items != [] {
      ResolvesIff(items[0], results);
      ItemsResolveIff(items[1..], results);
      hide Sound, References, ResolveValue;
    }
  }

  /** Without references, resolution is the identity. */
  lemma {:induction false} IdentityWithoutReferences(v: Json, results: Results)
    requires References(v) == []
    ensures ResolveValue(v, results) == Ok(v)
    decreases v
  {
    if v.Obj? {
      FieldsIdentity(v.fields, results);
    } else if v.Arr? {
      ItemsIdentity(v.items, results);
    }
  }

  lemma {:induction false} FieldsIdentity(fields: seq<Field>, results: Results)
    requires FieldReferences(fields) == []
    ensures ResolveFields(fields, results) == Ok(fields)
    decreases fields
  {
    if fields != [] {
      assert References(fields[0].value) == [] && FieldReferences(fields[1..]) == [];
      IdentityWithoutReferences(fields[0].value, results);
      FieldsIdentity(fields[1..], results);
      assert [fields[0]] + fields[1..] == fields;
    }
  }

  lemma {:induction false} ItemsIdentity(items: seq<Json>, results: Results)
    requires ItemReferences(items) == []
    ensures ResolveItems(items, results) == Ok(items)
    decreases items
  {
    if items != [] {
      assert References(items[0]) == [] && ItemReferences(items[1..]) == [];
      IdentityWithoutReferences(items[0], results);
      ItemsIdentity(items[1..], results);
      assert [items[0]] + items[1..] == items;
    }
  }

  /** All that a reference can see of a step. */
  datatype View = Absent | Failed | Data(payload: Json)

  function ViewOf(results: Results, id: string): View {
    if id !in results then Absent
    else if results[id].isError then Failed
    else Data(Payload(results[id]))
  }

  /** The steps cited by a list of references. */
  predicate Cites(references: seq<Json>, id: string) {
    exists k :: 0 <= k < |references| && CitesOne(references[k], id)
  }

  predicate CitesOne(reference: Json, id: string) {
    reference.Str? && var tokens := Tokens(reference.s); tokens != [] && tokens[0] == id
  }

  ghost predicate AgreeOn(references: seq<Json>, a: Results, b: Results) {
    forall k :: 0 <= k < |references| ==> SameExtract(references[k], a, b)
  }

  predicate SameExtract(reference: Json, a: Results, b: Results) {
    reference.Str? ==> Extract(reference.s, a) == Extract(reference.s, b)
  }

  lemma AgreeOnCited(references: seq<Json>, a: Results, b: Results)
    requires forall id :: Cites(references, id) ==> ViewOf(a, id) == ViewOf(b, id)
    ensures AgreeOn(references, a, b)
  {
    forall k | 0 <= k < |references|
      ensures SameExtract(references[k], a, b)
    {
      if references[k].Str? && Tokens(references[k].s) != [] {
        var id := Tokens(references[k].s)[0];
        assert CitesOne(references[k], id) && Cites(references, id);
      }
    }
  }

  lemma {:induction false} SameReferencesSameValue(v: Json, a: Results, b: Results)
    requires AgreeOn(References(v), a, b)
    ensures ResolveValue(v, a) == ResolveValue(v, b)
    decreases v
  {
    if IsReference(v) {
      assert SameExtract(References(v)[0], a, b);
    } else if v.Obj? {
      SameFields(v.fields, a, b);
    } else if v.Arr? {
      SameItems(v.items, a, b);
    }
  }

  lemma AgreeOnParts(first: seq<Json>, rest: seq<Json>, a: Results, b: Results)
    requires AgreeOn(first + rest, a, b)
    ensures AgreeOn(first, a, b) && AgreeOn(rest, a, b)
  {
    hide SameExtract;
    forall k | 0 <= k < |first|
      ensures SameExtract(first[k], a, b)
    {
      assert (first + rest)[k] == first[k];
    }
    forall k | 0 <= k < |rest|
      ensures SameExtract(rest[k], a, b)
    {
      assert (first + rest)[|first| + k] == rest[k];
    }
  }

  lemma {:induction false} SameFields(fields: seq<Field>, a: Results, b: Results)
    requires AgreeOn(FieldReferences(fields), a, b)
    ensures ResolveFields(fields, a) == ResolveFields(fields, b)
    decreases fields
  {
    if fields != [] {
      AgreeOnParts(References(fields[0].value), FieldReferences(fields[1..]), a, b);
      SameReferencesSameValue(fields[0].value, a, b);
      SameFields(fields[1..], a, b);
    }
  }

  lemma {:induction false} SameItems(items: seq<Json>, a: Results, b: Results)
    requires AgreeOn(ItemReferences(items), a, b)
    ensures ResolveItems(items, a) == ResolveItems(items, b)
    decreases items
  {
    if items != [] {
      AgreeOnParts(References(items[0]), ItemReferences(items[1..]), a, b);
      SameReferencesSameValue(items[0], a, b);
      SameItems(items[1..], a, b);
    }
  }

  /** Resolution, error or not, depends only on what the cited steps offer: of a failed step only
      that it failed, and of an uncited one nothing. */
  lemma OnlyCitedStepsMatter(v: Json, a: Results, b: Results)
    requires forall id :: Cites(References(v), id) ==> ViewOf(a, id) == ViewOf(b, id)
    ensures ResolveValue(v, a) == ResolveValue(v, b)
  {
    AgreeOnCited(References(v), a, b);
    SameReferencesSameValue(v, a, b);
  }

  /** Arguments that resolve keep their value as later results come in. */
  lemma LaterResultsChangeNothing(v: Json, results: Results, later: StepResult)
    requires ResolveValue(v, results).Ok? && later.id !in results
    ensures ResolveValue(v, results[later.id := later]) == ResolveValue(v, results)
  {
    ResolvesIff(v, results);
    var grown := results[later.id := later];
    forall id | Cites(References(v), id)
      ensures ViewOf(results, id) == ViewOf(grown, id)
    {
      var k :| 0 <= k < |References(v)| && CitesOne(References(v)[k], id);
      assert Sound(References(v)[k], results);
    }
    OnlyCitedStepsMatter(v, results, grown);
  }

  /** A citation of a step that has not succeeded yet cannot be resolved. */
  lemma CitingUnfinishedFails(v: Json, results: Results, id: string)
    requires Cites(References(v), id) && !ViewOf(results, id).Data?
    ensures ResolveValue(v, results).Err?
  {
    ResolvesIff(v, results);
    var k :| 0 <= k < |References(v)| && CitesOne(References(v)[k], id);
    assert References(v)[k] in References(v) && !Sound(References(v)[k], results);
  }
}
