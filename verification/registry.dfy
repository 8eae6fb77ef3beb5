/** The process-wide tool registry: a name-to-tool dictionary filled by
    registration, where registering a name again replaces the earlier
    tool, and the derivation of the module names discovery imports. */
module ToolRegistry {

  /** A tool function as the registration sees it: its name and its
      doc comment. */
  datatype ToolFunction = ToolFunction(name: string, doc: string)

  /** The tool object registration creates from a function. */
  datatype RegisteredTool = RegisteredTool(name: string, description: string, func: ToolFunction)

  /** The tool object made from `func`: named after the function, described
      by its doc comment (the behaviour of the tool-object factory, which is
      not part of this model, taken as given). */
  function MakeTool(func: ToolFunction): (t: RegisteredTool)
    ensures t.name == func.name && t.func == func
  {
    RegisteredTool(func.name, func.doc, func)
  }

  /** The registry. A dictionary keeps its keys in first-insertion order;
      `order` records that order next to the name-to-tool map. */
  class Registry {
    var tools: map<string, RegisteredTool>
    var order: seq<string>

    ghost predicate Valid()
      reads this
    {
      && (forall i, j :: 0 <= i < j < |order| ==> order[i] != order[j])
      && (forall name :: name in tools <==> name in order)
    }

    /** The registry starts empty. */
    constructor ()
      ensures Valid() && tools == map[] && order == []
    {
      tools := map[];
      order := [];
    }

    /** Stores the new tool under its name, replacing any earlier tool of
        that name in place; no other entry changes. Returns the tool. */
    method RegisterTool(func: ToolFunction) returns (t: RegisteredTool)
      requires Valid()
      modifies this
      ensures Valid()
      ensures t == MakeTool(func)
      ensures tools == old(tools)[func.name := t]
      ensures order == if func.name in old(tools) then old(order) else old(order) + [func.name]
    {
      t := MakeTool(func);
      if t.name !in tools {
        order := order + [t.name];
      }
      tools := tools[t.name := t];
    }

    /** A new list of the registered tools, one per name, in the order the
        names were first registered. */
    function GetAllTools(): (r: seq<RegisteredTool>)
      reads this
      requires Valid()
      ensures |r| == |order| == |tools|
      ensures forall i :: 0 <= i < |r| ==> order[i] in tools && r[i] == tools[order[i]]
      ensures forall name :: name in tools ==> tools[name] in r
    {
      DistinctLength(order, tools);
      Values(order, tools)
    }
  }

  /** The tools of the listed names, in list order. */
  function Values(order: seq<string>, tools: map<string, RegisteredTool>): (r: seq<RegisteredTool>)
    requires forall i :: 0 <= i < |order| ==> order[i] in tools
    ensures |r| == |order|
    ensures forall i :: 0 <= i < |r| ==> r[i] == tools[order[i]]
  {
    seq(|order|, i requires 0 <= i < |order| => tools[order[i]])
  }

  /** Registering a new name adds its tool at the end of the value list. */
  lemma ValuesSnoc(order: seq<string>, tools: map<string, RegisteredTool>, t: RegisteredTool)
    requires forall i :: 0 <= i < |order| ==> order[i] in tools
    requires t.name !in tools
    ensures Values(order + [t.name], tools[t.name := t]) == Values(order, tools) + [t]
  {
    var after := Values(order + [t.name], tools[t.name := t]);
    forall i | 0 <= i < |order| ensures after[i] == Values(order, tools)[i] {
      assert order[i] != t.name;
    }
  }

  /** A duplicate-free list of exactly the map's keys is as long as the map. */
  lemma {:induction false} DistinctLength(order: seq<string>, tools: map<string, RegisteredTool>)
    requires forall i, j :: 0 <= i < j < |order| ==> order[i] != order[j]
    requires forall name :: name in tools <==> name in order
    ensures |order| == |tools|
  {
    if order != [] {
      var last := order[|order| - 1];
      var rest := tools - {last};
      forall name ensures name in rest <==> name in order[..|order| - 1] {
        if name in order[..|order| - 1] {
          var k :| 0 <= k < |order| - 1 && order[k] == name;
          assert order[k] != last;
        }
        if name in order && name != last {
          var k :| 0 <= k < |order| && order[k] == name;
          assert k < |order| - 1;
        }
      }
      DistinctLength(order[..|order| - 1], rest);
      assert tools.Keys == rest.Keys + {last};
    } else {
      assert tools.Keys == {};
    }
  }

  /** The module name discovery imports for a tool file stem. */
  const PackagePrefix := "tools."
  const InitStem := "__init__"

  /** The modules imported for the given `.py` file stems: one per stem
      other than `__init__`, in listing order. */
  function ModuleNames(stems: seq<string>): (ms: seq<string>)
    ensures |ms| <= |stems|
    ensures forall m :: m in ms ==> PackagePrefix <= m
  {
    if stems == [] then []
    else (if stems[0] != InitStem then [PackagePrefix + stems[0]] else []) + ModuleNames(stems[1..])
  }

  /** A module is imported exactly when it is `tools.` followed by a
      listed stem other than `__init__`. */
  lemma {:induction false} ModuleNamesExact(stems: seq<string>, stem: string)
    ensures PackagePrefix + stem in ModuleNames(stems) <==> stem in stems && stem != InitStem
  {
    if stems != [] {
      ModuleNamesExact(stems[1..], stem);
      var head := PackagePrefix + stems[0];
      if head == PackagePrefix + stem {
        assert head[|PackagePrefix|..] == stems[0];
        assert (PackagePrefix + stem)[|PackagePrefix|..] == stem;
      }
      assert stems == [stems[0]] + stems[1..];
    }
  }

  /** The discovery loop over the listed file stems, collecting the name of
      each module it imports. */
  method DiscoverModules(stems: seq<string>) returns (modules: seq<string>)
    ensures modules == ModuleNames(stems)
  {
    modules := [];
    var i := 0;
    while i < |stems|
      invariant 0 <= i <= |stems|
      invariant modules + ModuleNames(stems[i..]) == ModuleNames(stems)
    {
      assert stems[i..][1..] == stems[i + 1..];
      if stems[i] != InitStem {
        modules := modules + [PackagePrefix + stems[i]];
      }
      i := i + 1;
    }
  }
}
