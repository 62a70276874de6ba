/** Mounted names `namespace.tool` and how a call resolves one. */
module MountedNames {
  import opened Prelude
  import opened Inventory

  /** `str.isalnum` on one character; beyond ASCII every character passes. */
  predicate IsAlnum(c: char) {
    '0' <= c <= '9' || 'A' <= c <= 'Z' || 'a' <= c <= 'z' || c > '\U{7f}'
  }

  predicate ValidNamespace(namespace: string) {
    namespace != "" && forall c :: c in namespace ==> IsAlnum(c) || c == '_' || c == '-'
  }

  function MountedName(namespace: string, tool: string): string {
    namespace + "." + tool
  }

  predicate HasTool(tools: seq<Tool>, name: string) {
    exists k :: 0 <= k < |tools| && tools[k].name == name
  }

  function FirstTool(tools: seq<Tool>, name: string): Option<Tool> {
    if tools == [] then None
    else if tools[0].name == name then Some(tools[0])
    else FirstTool(tools[1..], name)
  }

  /** The scan over the mounted namespaces, in the order given: the first whose prefix fits and
      whose inventory has the rest of the name. */
  function Resolve(name: string, namespaces: seq<string>, live: map<string, seq<Tool>>): Option<(string, Tool)> {
    if namespaces == [] then None
    else
      var ns := namespaces[0];
      var prefix := ns + ".";
      if prefix <= name && ns in live && FirstTool(live[ns], name[|prefix|..]).Some? then
        Some((ns, FirstTool(live[ns], name[|prefix|..]).value))
      else Resolve(name, namespaces[1..], live)
  }

  lemma NoDot(namespace: string)
    requires ValidNamespace(namespace)
    ensures '.' !in namespace
  {}

  /** The text before the first dot. */
  function BeforeDot(s: string): string {
    if s == "" || s[0] == '.' then "" else [s[0]] + BeforeDot(s[1..])
  }

  lemma {:induction false} BeforeDotOfMounted(n: string, t: string)
    requires '.' !in n
    ensures BeforeDot(MountedName(n, t)) == n
  {
    if n != "" {
      assert MountedName(n, t)[1..] == MountedName(n[1..], t);
      BeforeDotOfMounted(n[1..], t);
    }
  }

  /** A mounted name determines both its parts, dots in the tool name or not. */
  lemma MountedNameInjective(n1: string, t1: string, n2: string, t2: string)
    requires '.' !in n1 && '.' !in n2
    requires MountedName(n1, t1) == MountedName(n2, t2)
    ensures n1 == n2 && t1 == t2
  {
    BeforeDotOfMounted(n1, t1);
    BeforeDotOfMounted(n2, t2);
    assert MountedName(n1, t1)[|n1| + 1..] == t1 && MountedName(n2, t2)[|n2| + 1..] == t2;
  }

  lemma {:induction false} FirstToolFacts(tools: seq<Tool>, name: string)
    ensures FirstTool(tools, name).Some? ==>
      FirstTool(tools, name).value in tools && FirstTool(tools, name).value.name == name
    ensures FirstTool(tools, name).Some? <==> HasTool(tools, name)
  {
    if tools != [] {
      FirstToolFacts(tools[1..], name);
      if HasTool(tools[1..], name) {
        var k :| 0 <= k < |tools[1..]| && tools[1..][k].name == name;
        assert tools[k + 1].name == name;
      }
    }
  }

  /** With dot-free namespaces the order of the scan does not matter: a name resolves to a tool
      of ns exactly when it is that tool's mounted name, whatever else is mounted. */
  lemma {:induction false} ResolveIff(name: string, namespaces: seq<string>, live: map<string, seq<Tool>>,
        ns: string, tool: Tool)
    requires forall n :: n in namespaces ==> '.' !in n && n in live
    requires ns in namespaces && !HasDuplicate(live[ns])
    ensures Resolve(name, namespaces, live) == Some((ns, tool)) <==>
      tool in live[ns] && name == MountedName(ns, tool.name)
    decreases |namespaces|
  {
    var head := namespaces[0];
    var prefix := head + ".";
    if prefix <= name {
      var rest := name[|prefix|..];
      assert name == MountedName(head, rest);
      FirstToolFacts(live[head], rest);
      if tool in live[ns] && name == MountedName(ns, tool.name) {
        MountedNameInjective(head, rest, ns, tool.name);
        UniqueTool(live[ns], tool);
      } else if FirstTool(live[head], rest).None? && ns in namespaces[1..] {
        ResolveIff(name, namespaces[1..], live, ns, tool);
      } else if FirstTool(live[head], rest).None? {
        OnlyMounted(name, namespaces[1..], live);
      }
    } else {
      if name == MountedName(ns, tool.name) {
        assert ns + "." <= name;
        assert ns != head;
      }
      if ns in namespaces[1..] {
        ResolveIff(name, namespaces[1..], live, ns, tool);
      } else {
        OnlyMounted(name, namespaces[1..], live);
      }
    }
  }

  /** Nothing but a listed namespace is ever returned. */
  lemma {:induction false} OnlyMounted(name: string, namespaces: seq<string>, live: map<string, seq<Tool>>)
    ensures Resolve(name, namespaces, live).Some? ==>
      var (ns, tool) := Resolve(name, namespaces, live).value;
      ns in namespaces && ns in live && tool in live[ns] && name == MountedName(ns, tool.name)
  {
    if namespaces != [] {
      OnlyMounted(name, namespaces[1..], live);
      var prefix := namespaces[0] + ".";
      if prefix <= name && namespaces[0] in live {
        FirstToolFacts(live[namespaces[0]], name[|prefix|..]);
        assert name == MountedName(namespaces[0], name[|prefix|..]);
      }
    }
  }

  lemma {:induction false} UniqueTool(tools: seq<Tool>, tool: Tool)
    requires tool in tools && !HasDuplicate(tools)
    ensures FirstTool(tools, tool.name) == Some(tool)
  {
    if tools[0] != tool {
      var k :| 0 <= k < |tools| && tools[k] == tool;
      assert tools[1..][k - 1] == tool;
      assert tools[0].name != tools[k].name;
      forall i, j | 0 <= i < j < |tools[1..]|
        ensures tools[1..][i].name != tools[1..][j].name
      {
        assert tools[i + 1].name != tools[j + 1].name;
      }
      UniqueTool(tools[1..], tool);
    }
  }

  /** The scan as the service makes it, over a list sorted longest first. */
  method ResolveMountedTool(name: string, namespaces: seq<string>, live: map<string, seq<Tool>>)
    returns (r: Option<(string, Tool)>)
    ensures r == Resolve(name, namespaces, live)
  {
    var i := 0;
    while i < |namespaces|
      invariant 0 <= i <= |namespaces|
      invariant Resolve(name, namespaces[i..], live) == Resolve(name, namespaces, live)
    {
      assert namespaces[i..][1..] == namespaces[i + 1..];
      var prefix := namespaces[i] + ".";
      if prefix <= name && namespaces[i] in live {
        var source := name[|prefix|..];
        var tools := live[namespaces[i]];
        var k := 0;
        while k < |tools|
          invariant 0 <= k <= |tools|
          invariant FirstTool(tools[k..], source) == FirstTool(tools, source)
        {
          assert tools[k..][1..] == tools[k + 1..];
          if tools[k].name == source {
            return Some((namespaces[i], tools[k]));
          }
          k := k + 1;
        }
      }
      i := i + 1;
    }
    r := None;
  }
}
