/** The tool registry: step implementations stored and looked up by name. */
module Registry {
  import opened Wrappers

  class ToolRegistry<!A, R> {
    var tools: map<string, A -> R>
    var descriptions: map<string, string>

    /** Every registered tool has a description and nothing else does. */
    ghost predicate Valid()
      reads this
    {
      tools.Keys == descriptions.Keys
    }

    constructor ()
      ensures Valid() && tools == map[] && descriptions == map[]
    {
      tools := map[];
      descriptions := map[];
    }

    /**
     * Registers (or replaces) the tool `name`. Its description is `description`
     * when non-empty, else the function's docstring when it has a non-empty one, else "".
     */
    method Register(name: string, func: A -> R, description: string, docstring: Option<string>)
      requires Valid()
      modifies this
      ensures Valid()
      ensures tools == old(tools)[name := func]
      ensures descriptions == old(descriptions)[name := DescriptionFor(description, docstring)]
      ensures Get(name) == Success(func) && Has(name)
      ensures ListTools() == old(ListTools())[name := DescriptionFor(description, docstring)]
    {
      tools := tools[name := func];
      descriptions := descriptions[name := DescriptionFor(description, docstring)];
    }

    function Get(name: string): (r: Result<A -> R, string>)
      reads this
      ensures r.Success? <==> name in tools
      ensures r.Success? ==> r.value == tools[name]
      ensures r.Failure? ==> r.error == "Tool '" + name + "' not found in registry"
    {
      if name !in tools then Failure("Tool '" + name + "' not found in registry") else Success(tools[name])
    }

    function Has(name: string): (b: bool)
      reads this
      ensures b <==> Get(name).Success?
    {
      name in tools
    }

    /** Every registered name with its description. */
    function ListTools(): (listing: map<string, string>)
      reads this
      requires Valid()
      ensures listing.Keys == tools.Keys
      ensures forall name :: name in listing ==> listing[name] == descriptions[name]
    {
      map name | name in tools :: descriptions[name]
    }

    /** Calls the tool `name` on `args`, failing as `Get` does when it is absent. */
    function Call(name: string, args: A): (r: Result<R, string>)
      reads this
      ensures Get(name).Success? ==> r == Success(Get(name).value(args))
      ensures Get(name).Failure? ==> r == Failure(Get(name).error)
    {
      var tool := Get(name);
      if tool.Failure? then Failure(tool.error) else Success(tool.value(args))
    }
  }

  /** `description or docstring or ""`. */
  function DescriptionFor(description: string, docstring: Option<string>): (d: string)
    ensures description != "" ==> d == description
    ensures description == "" && docstring.Some? ==> d == docstring.value
    ensures description == "" && docstring.None? ==> d == ""
  {
    if description != "" then description
    else if docstring.Some? && docstring.value != "" then docstring.value
    else ""
  }

  /** The name a tool is registered under: the one given, or else the function's own name. */
  function ToolName(name: Option<string>, functionName: string): (n: string)
    ensures name.Some? && name.value != "" ==> n == name.value
    ensures name.None? || name.value == "" ==> n == functionName
  {
    if name.Some? && name.value != "" then name.value else functionName
  }

  /** The decorator: registers `func` in `registry` and hands it back unchanged. */
  method Tool<A, R>(registry: ToolRegistry<A, R>, name: Option<string>, description: string,
                    func: A -> R, functionName: string, docstring: Option<string>) returns (g: A -> R)
    requires registry.Valid()
    modifies registry
    ensures registry.Valid()
    ensures g == func
    ensures registry.tools == old(registry.tools)[ToolName(name, functionName) := func]
    ensures registry.descriptions == old(registry.descriptions)[ToolName(name, functionName) := DescriptionFor(description, docstring)]
  {
    registry.Register(ToolName(name, functionName), func, description, docstring);
    return func;
  }
}
