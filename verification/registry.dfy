/**
 * The agent's tool registry: a dictionary from tool name to tool, kept in the order in which
 * names were first registered (Python dictionaries iterate in insertion order).
 */
module Registry {
  import opened Wrappers
  import opened Seqs

  /** A tool, seen from the registry: its name and the OpenAI-format definition it renders. */
  datatype Tool = Tool(name: string, schema: string)

  /** No name occurs twice. */
  ghost predicate Distinct(s: seq<string>)
  {
    forall i, j :: 0 <= i < j < |s| ==> s[i] != s[j]
  }

  /** Every name but `name`. */
  function Other(name: string): string -> bool
  {
    (n: string) => n != name
  }

  /** A list without repeats has as many elements as its set of elements. */
  lemma {:induction false} DistinctCount(s: seq<string>)
    requires Distinct(s)
    ensures |set n | n in s| == |s|
  {
    if s != [] {
      var rest := s[1..];
      assert Distinct(rest) by {
        forall i, j | 0 <= i < j < |rest|
          ensures rest[i] != rest[j]
        {
          assert rest[i] == s[i + 1] && rest[j] == s[j + 1];
        }
      }
      DistinctCount(rest);
      assert s[0] !in rest by {
        forall k | 0 <= k < |rest|
          ensures rest[k] != s[0]
        {
          assert rest[k] == s[k + 1];
        }
      }
      assert (set n | n in s) == (set n | n in rest) + {s[0]} by {
        assert s == [s[0]] + rest;
      }
    }
  }

  /** Filtering a list without repeats leaves a list without repeats. */
  lemma {:induction false} FilterDistinct(s: seq<string>, p: string -> bool)
    requires Distinct(s)
    ensures Distinct(Filter(s, p))
  {
    if s != [] {
      var rest := s[1..];
      assert Distinct(rest) by {
        forall i, j | 0 <= i < j < |rest|
          ensures rest[i] != rest[j]
        {
          assert rest[i] == s[i + 1] && rest[j] == s[j + 1];
        }
      }
      FilterDistinct(rest, p);
      var tail := Filter(rest, p);
      if p(s[0]) {
        assert s[0] !in tail by {
          FilterMembers(rest, p, s[0]);
          forall k | 0 <= k < |rest|
            ensures rest[k] != s[0]
          {
            assert rest[k] == s[k + 1];
          }
        }
        var r := [s[0]] + tail;
        forall i, j | 0 <= i < j < |r|
          ensures r[i] != r[j]
        {
          if i == 0 {
            assert r[j] == tail[j - 1] && tail[j - 1] in tail;
          } else {
            assert r[i] == tail[i - 1] && r[j] == tail[j - 1];
          }
        }
      }
    }
  }

  /** Appending a name the list lacks keeps it free of repeats. */
  lemma SnocDistinct(s: seq<string>, x: string)
    requires Distinct(s) && x !in s
    ensures Distinct(s + [x])
  {
    var r := s + [x];
    forall i, j | 0 <= i < j < |r|
      ensures r[i] != r[j]
    {
      if j == |s| {
        assert r[i] == s[i] && s[i] in s;
      } else {
        assert r[i] == s[i] && r[j] == s[j];
      }
    }
  }

  /** The schemas of the tools filed under `names`, in that order. */
  function Schemas(names: seq<string>, tools: map<string, Tool>): (defs: seq<string>)
    requires forall n | n in names :: n in tools
    ensures |defs| == |names|
    ensures forall i :: 0 <= i < |defs| ==> defs[i] == tools[names[i]].schema
  {
    if names == [] then [] else [tools[names[0]].schema] + Schemas(names[1..], tools)
  }

  /** `ToolRegistry`: `tools` is the dictionary, `order` its key order. */
  class ToolRegistry {
    var tools: map<string, Tool>
    var order: seq<string>

    /** The keys are listed once each, and every tool is filed under its own name. */
    ghost predicate Valid()
      reads this
    {
      Distinct(order)
      && (forall n | n in order :: n in tools)
      && (forall n | n in tools :: n in order)
      && (forall n | n in tools :: tools[n].name == n)
    }

    /** `__init__`: an empty registry. */
    constructor ()
      ensures Valid()
      ensures tools == map[] && order == []
    {
      tools := map[];
      order := [];
    }

    /**
     * `register`: file the tool under its name. A name already present keeps its place in
     * the order and its entry is replaced; a new name goes last.
     */
    method Register(tool: Tool)
      requires Valid()
      modifies this
      ensures Valid()
      ensures tools == old(tools)[tool.name := tool]
      ensures order == if tool.name in old(tools) then old(order) else old(order) + [tool.name]
    {
      if tool.name !in tools {
        SnocDistinct(order, tool.name);
        order := order + [tool.name];
      }
      tools := tools[tool.name := tool];
    }

    /** `unregister`: drop the name, if present; an absent name changes nothing. */
    method Unregister(name: string)
      requires Valid()
      modifies this
      ensures Valid()
      ensures tools == old(tools) - {name}
      ensures order == Filter(old(order), Other(name))
      ensures name !in old(tools) ==> tools == old(tools) && order == old(order)
    {
      FilterDistinct(order, Other(name));
      forall n
        ensures n in Filter(order, Other(name)) <==> n in order && n != name
      {
        FilterMembers(order, Other(name), n);
      }
      if name !in tools {
        FilterKeepsAll(order, name);
      }
      tools := tools - {name};
      order := Filter(order, Other(name));
    }

    /** `get`: the tool filed under `name`, if any. */
    function Get(name: string): (t: Option<Tool>)
      reads this
      requires Valid()
      ensures t.Some? <==> name in order
      ensures t.Some? ==> t.value.name == name && name in tools && t.value == tools[name]
    {
      if name in tools then Some(tools[name]) else None
    }

    /** `has`: whether a tool is filed under `name`. */
    predicate Has(name: string)
      reads this
      requires Valid()
      ensures Has(name) <==> Get(name).Some?
      ensures Has(name) <==> name in ToolNames()
    {
      name in tools
    }

    /** `__contains__`: the same test as `has`. */
    predicate Contains(name: string)
      reads this
      requires Valid()
      ensures Contains(name) <==> Has(name)
    {
      name in order
    }

    /** `tool_names`: the registered names, each once, in registration order. */
    function ToolNames(): (names: seq<string>)
      reads this
      requires Valid()
      ensures Distinct(names)
      ensures forall n :: n in names <==> n in tools
    {
      order
    }

    /** `__len__`: the number of distinct registered names. */
    function Len(): (n: nat)
      reads this
      requires Valid()
      ensures n == |tools.Keys|
    {
      DistinctCount(order);
      assert (set m | m in order) == tools.Keys;
      |order|
    }

    /** `get_definitions`: one schema per registered tool, in key order. */
    function GetDefinitions(): (defs: seq<string>)
      reads this
      requires Valid()
      ensures |defs| == |order| == |tools.Keys|
      ensures forall i :: 0 <= i < |defs| ==> order[i] in tools && defs[i] == tools[order[i]].schema
    {
      DistinctCount(order);
      assert (set m | m in order) == tools.Keys;
      Schemas(order, tools)
    }

    /**
     * `execute`: an unknown name answers with an error message and runs nothing; a known
     * one answers with what validating and running that tool gives, an outcome supplied
     * from outside.
     */
    method Execute(name: string, outcome: Tool -> string) returns (result: string)
      requires Valid()
      ensures name !in tools ==> result == "Error: Tool '" + name + "' not found"
      ensures name in tools ==> result == outcome(tools[name])
    {
      var tool := Get(name);
      if tool.None? {
        return "Error: Tool '" + name + "' not found";
      }
      result := outcome(tool.value);
    }
  }

  /** Filtering out a name the list lacks leaves the list as it was. */
  lemma {:induction false} FilterKeepsAll(s: seq<string>, name: string)
    requires name !in s
    ensures Filter(s, Other(name)) == s
  {
    if s != [] {
      FilterKeepsAll(s[1..], name);
      assert s == [s[0]] + s[1..];
    }
  }
}

/** What a sequence of registry operations does, stated over the registry's own state. */
module RegistryLaws {
  import opened Wrappers
  import opened Registry

  /** Registering a tool makes it retrievable under its name, and leaves every other name's entry alone. */
  method RegisterThenGet(r: ToolRegistry, t: Tool, other: string)
    requires r.Valid() && other != t.name
    modifies r
    ensures r.Valid() && r.Has(t.name) && r.Get(t.name) == Some(t)
    ensures r.Get(other) == old(r.Get(other))
  {
    r.Register(t);
  }

  /** After `unregister(n)` the name is gone, and every other name's entry is untouched. */
  method UnregisterThenGet(r: ToolRegistry, name: string, other: string)
    requires r.Valid() && other != name
    modifies r
    ensures r.Valid() && !r.Has(name) && r.Get(name) == None
    ensures r.Get(other) == old(r.Get(other))
  {
    r.Unregister(name);
  }

  /** Registering a second tool under a taken name replaces the first and does not grow the registry. */
  method ReRegisterReplaces(r: ToolRegistry, t: Tool, u: Tool)
    requires r.Valid() && t.name == u.name
    modifies r
    ensures r.Valid() && r.Get(t.name) == Some(u)
    ensures r.Len() == old(r.Len()) + (if old(r.Has(t.name)) then 0 else 1)
  {
    r.Register(t);
    r.Register(u);
  }
}
