/** The tool registry: tools by name, in registration order, with lookup,
    dispatch through the cache-and-retry path, and shutdown of every tool. */
module Registry {
  import opened Values
  import opened Backoff
  import opened CacheKeys
  import opened Tools

  /** `ToolRegistry.tools`: `order` is the dict's insertion order. */
  datatype ToolRegistry = ToolRegistry(order: seq<string>, tools: map<string, Tool>)

  predicate Valid(reg: ToolRegistry) {
    && Distinct(reg.order)
    && (forall n :: n in reg.order ==> n in reg.tools)
    && (forall n :: n in reg.tools ==> n in reg.order && reg.tools[n].name == n)
  }

  function EmptyRegistry(): (reg: ToolRegistry)
    ensures Valid(reg) && reg.tools == map[]
  {
    ToolRegistry([], map[])
  }

  /** `register`: store the tool under its own name, replacing any tool of that name;
      a replaced tool keeps its place in the order. */
  function Register(reg: ToolRegistry, tool: Tool): (r: ToolRegistry)
    ensures r.tools == reg.tools[tool.name := tool]
    ensures tool.name in reg.tools ==> r.order == reg.order
    ensures tool.name !in reg.tools ==> r.order == reg.order + [tool.name]
  {
    if tool.name in reg.tools then reg.(tools := reg.tools[tool.name := tool])
    else ToolRegistry(reg.order + [tool.name], reg.tools[tool.name := tool])
  }

  /** `get`: `None` for a name nobody registered. */
  function Lookup(reg: ToolRegistry, name: string): (r: Option<Tool>)
    ensures r.Some? <==> name in reg.tools
    ensures r.Some? ==> r.value == reg.tools[name]
  {
    if name in reg.tools then Some(reg.tools[name]) else None
  }

  /** `list_tools`: the registered names in registration order. */
  function ListTools(reg: ToolRegistry): (names: seq<string>)
    requires Valid(reg)
    ensures Distinct(names)
    ensures forall n :: n in names <==> n in reg.tools
  {
    reg.order
  }

  /** Registration keeps the registry well formed; the new tool is found under its
      name and every other name finds what it found before. */
  lemma {:induction false} RegisterThenLookup(reg: ToolRegistry, tool: Tool, other: string)
    requires Valid(reg)
    ensures Valid(Register(reg, tool))
    ensures Lookup(Register(reg, tool), tool.name) == Some(tool)
    ensures other != tool.name ==> Lookup(Register(reg, tool), other) == Lookup(reg, other)
  {
    var r := Register(reg, tool);
    if tool.name !in reg.tools {
      forall i, j | 0 <= i < j < |r.order| ensures r.order[i] != r.order[j] {
        if j == |reg.order| {
          assert r.order[i] == reg.order[i];
          assert reg.order[i] in reg.order;
        }
      }
    }
  }

  /** Message of the synthetic result for an unknown tool name. */
  function NotFoundMessage(name: string): string {
    "Tool " + name + " not found"
  }

  /** Outcome of `execute_tool`: the result, the registry afterwards, and how many
      times a tool's `execute` ran. */
  datatype Dispatch = Dispatch(result: ToolResult, registry: ToolRegistry, attempts: nat)

  /** `execute_tool`: an unknown name gives a FAILED result and runs nothing; a known
      name goes through that tool's call, whose updated cache is kept. */
  function ExecuteTool(reg: ToolRegistry, name: string, kw: KwArgs, now: real, script: seq<ToolAttempt>): (r: Dispatch)
    requires WellFormed(kw)
    requires name in reg.tools ==> AttemptBudget(reg.tools[name].config.max_retries) <= |script|
    ensures name !in reg.tools ==>
              r.result == FailedResult(name, NotFoundMessage(name)) && r.attempts == 0 && r.registry == reg
    ensures name in reg.tools ==>
              var inv := Invoke(reg.tools[name], kw, now, script);
              && r.result == inv.result && r.attempts == inv.attempts
              && r.registry.order == reg.order
              && r.registry.tools == reg.tools[name := inv.tool]
  {
    match Lookup(reg, name)
    case None => Dispatch(FailedResult(name, NotFoundMessage(name)), reg, 0)
    case Some(tool) =>
      var inv := Invoke(tool, kw, now, script);
      Dispatch(inv.result, reg.(tools := reg.tools[name := inv.tool]), inv.attempts)
  }

  /** Dispatching through the registry keeps it well formed and leaves every other tool as it was. */
  lemma ExecuteToolKeepsOthers(reg: ToolRegistry, name: string, other: string, kw: KwArgs, now: real, script: seq<ToolAttempt>)
    requires Valid(reg) && WellFormed(kw)
    requires name in reg.tools ==> AttemptBudget(reg.tools[name].config.max_retries) <= |script|
    ensures Valid(ExecuteTool(reg, name, kw, now, script).registry)
    ensures other != name ==> Lookup(ExecuteTool(reg, name, kw, now, script).registry, other) == Lookup(reg, other)
  {
  }

  /** Outcome of `cleanup_all`: the tools whose hook ran, and the exception that escaped, if any. */
  datatype CleanupRun = CleanupRun(cleaned: seq<string>, raised: Option<string>)

  /** Run the hooks of `names` in order; `failing` maps a tool to the text its hook raises.
      The first hook that raises ends the loop. */
  function CleanupFrom(names: seq<string>, failing: map<string, string>): (r: CleanupRun)
    ensures |r.cleaned| <= |names| && r.cleaned == names[..|r.cleaned|]
  {
    if |names| == 0 then CleanupRun([], None)
    else if names[0] in failing then CleanupRun([names[0]], Some(failing[names[0]]))
    else
      var rest := CleanupFrom(names[1..], failing);
      assert names == [names[0]] + names[1..];
      CleanupRun([names[0]] + rest.cleaned, rest.raised)
  }

  /** A shutdown with no exception cleaned every tool, and none of their hooks raises; one
      that raises stopped at the first tool whose hook raises, with that hook's exception. */
  lemma {:induction false} CleanupOutcome(names: seq<string>, failing: map<string, string>)
    ensures var r := CleanupFrom(names, failing);
            && (r.raised.None? <==> forall n :: n in names ==> n !in failing)
            && (r.raised.None? ==> r.cleaned == names)
            && (r.raised.Some? ==>
                  && |r.cleaned| >= 1
                  && r.cleaned[|r.cleaned| - 1] in failing
                  && r.raised.value == failing[r.cleaned[|r.cleaned| - 1]]
                  && forall i :: 0 <= i < |r.cleaned| - 1 ==> r.cleaned[i] !in failing)
  {
    if |names| > 0 && names[0] !in failing {
      CleanupOutcome(names[1..], failing);
      var rest := CleanupFrom(names[1..], failing);
      assert names == [names[0]] + names[1..];
      if rest.raised.Some? {
        var c := [names[0]] + rest.cleaned;
        forall i | 0 <= i < |c| - 1
          ensures c[i] !in failing
        {
          if i > 0 {
            assert c[i] == rest.cleaned[i - 1];
          }
        }
      }
    }
  }

  /** `cleanup_all`: the hooks run in registration order; with no isolation between
      tools, the first hook that raises ends the shutdown. */
  function CleanupAll(reg: ToolRegistry, failing: map<string, string>): (r: CleanupRun)
    ensures |r.cleaned| <= |reg.order| && r.cleaned == reg.order[..|r.cleaned|]
  {
    CleanupFrom(reg.order, failing)
  }

  /** When the hook of the tool at position f is the first to raise, exactly the tools
      up to and including f are cleaned and its exception escapes; every later tool is skipped. */
  lemma {:induction false} CleanupStopsAtFirstFailure(names: seq<string>, failing: map<string, string>, f: nat)
    requires f < |names| && names[f] in failing
    requires forall i :: 0 <= i < f ==> names[i] !in failing
    ensures CleanupFrom(names, failing) == CleanupRun(names[..f + 1], Some(failing[names[f]]))
  {
    if f > 0 {
      CleanupStopsAtFirstFailure(names[1..], failing, f - 1);
      assert names[..f + 1] == [names[0]] + names[1..][..f];
    }
  }
}
