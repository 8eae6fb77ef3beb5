/** A callable wrapped with a name, a description and the facts about
    its declared parameters, which it renders as `name: type[ = default]`
    entries joined by ", ". The parameter list and the type hints, which
    the source reads by reflection on the callable, are given explicitly. */
module ToolMeta {
  import opened Types
  import Text

  /** One declared parameter: its name and, if it has a default value,
      that value's text. */
  datatype Param = Param(name: string, default: Option<string>)

  /** A wrapped callable taking arguments of type `A`. `typeHints` maps a
      parameter name to the text of its annotated type. */
  datatype Tool<!A> = Tool(func: A -> string, name: string, description: string,
                           signature: seq<Param>, typeHints: map<string, string>)

  /** Wraps `func`, keeping name and description exactly as given. */
  function NewTool<A>(func: A -> string, name: string, description: string,
                      signature: seq<Param>, typeHints: map<string, string>): (t: Tool<A>)
    ensures t.name == name && t.description == description
    ensures t.signature == signature && t.typeHints == typeHints
    ensures t.func == func
  {
    Tool(func, name, description, signature, typeHints)
  }

  /** Calling the tool forwards to the wrapped function. */
  function Call<A>(t: Tool<A>, args: A): (r: string)
    ensures r == t.func(args)
  {
    t.func(args)
  }

  /** The type text of a parameter: its hint, or "Any" without one. */
  function TypeText(p: Param, typeHints: map<string, string>): (r: string)
    ensures p.name in typeHints ==> r == typeHints[p.name]
    ensures p.name !in typeHints ==> r == "Any"
  {
    if p.name in typeHints then typeHints[p.name] else "Any"
  }

  /** One rendered entry: `name: type`, with ` = default` only when the
      parameter has a default. */
  function RenderParam(p: Param, typeHints: map<string, string>): (r: string)
    ensures p.name + ": " + TypeText(p, typeHints) <= r
    ensures p.default.None? ==> r == p.name + ": " + TypeText(p, typeHints)
    ensures p.default.Some? ==> r[|p.name + ": " + TypeText(p, typeHints)|..] == " = " + p.default.value
  {
    var suffix := if p.default.None? then "" else " = " + p.default.value;
    p.name + ": " + TypeText(p, typeHints) + suffix
  }

  /** The entries, one per declared parameter, in declaration order. */
  function RenderedParams(signature: seq<Param>, typeHints: map<string, string>): (rs: seq<string>)
    ensures |rs| == |signature|
    ensures forall i :: 0 <= i < |signature| ==> rs[i] == RenderParam(signature[i], typeHints)
  {
    seq(|signature|, i requires 0 <= i < |signature| => RenderParam(signature[i], typeHints))
  }

  /** The `parameters` property: builds the entry list one parameter at a
      time and joins it with ", ". */
  method Parameters<A>(t: Tool<A>) returns (s: string)
    ensures s == Text.Join(RenderedParams(t.signature, t.typeHints), ", ")
    ensures t.signature == [] ==> s == ""
    ensures |t.signature| == 1 ==> s == RenderParam(t.signature[0], t.typeHints)
  {
    var params: seq<string> := [];
    var i := 0;
    while i < |t.signature|
      invariant 0 <= i <= |t.signature|
      invariant params == RenderedParams(t.signature[..i], t.typeHints)
    {
      params := params + [RenderParam(t.signature[i], t.typeHints)];
      i := i + 1;
    }
    assert t.signature[..i] == t.signature;
    s := Text.Join(params, ", ");
  }

  /** Declaring one more parameter appends ", " and its entry to the
      rendered text, so earlier entries are never disturbed. */
  lemma ParametersSnoc(signature: seq<Param>, p: Param, typeHints: map<string, string>)
    requires signature != []
    ensures Text.Join(RenderedParams(signature + [p], typeHints), ", ")
         == Text.Join(RenderedParams(signature, typeHints), ", ") + ", " + RenderParam(p, typeHints)
  {
    assert RenderedParams(signature + [p], typeHints) == RenderedParams(signature, typeHints) + [RenderParam(p, typeHints)];
    Text.JoinSnoc(RenderedParams(signature, typeHints), RenderParam(p, typeHints), ", ");
  }

  /** The rendered text is the entries plus two characters per gap. */
  lemma ParametersLength(signature: seq<Param>, typeHints: map<string, string>)
    requires signature != []
    ensures |Text.Join(RenderedParams(signature, typeHints), ", ")|
         == Text.TotalLength(RenderedParams(signature, typeHints)) + 2 * (|signature| - 1)
  {
    Text.JoinLength(RenderedParams(signature, typeHints), ", ");
  }
}
