/** The module-level state of the server (`terminal_toolkit` and
    `toolkit_kwargs`) and the two request handlers that read it. */
module Registry {
  import opened Wrappers
  import opened Values
  import opened Schema
  import opened Dispatch

  /** `toolkit_kwargs`: keyword arguments for the toolkit constructor. */
  type Config = map<string, Value>

  /** A constructed toolkit; `get_tools()` on it always gives `tools`. */
  datatype Toolkit = Toolkit(tools: seq<Tool>)

  /** One invocation of a toolkit function by `call_tool`. */
  datatype Invocation = Invocation(tool: string, args: map<string, Value>)

  /** The descriptors `list_tools` returns: one per function, in order. */
  function DescribeAll(tools: seq<Tool>): seq<ToolDescriptor> {
    if tools == [] then []
    else DescribeAll(tools[..|tools| - 1]) + [Describe(tools[|tools| - 1])]
  }

  /** The i-th descriptor of a listing is the one inferred for the i-th
      function, so everything proved about `Describe` holds of it. */
  lemma {:induction false} DescribeAllAt(tools: seq<Tool>, i: nat)
    requires i < |tools|
    ensures |DescribeAll(tools)| == |tools|
    ensures DescribeAll(tools)[i] == Describe(tools[i])
  {
    var init := tools[..|tools| - 1];
    DescribeAllLength(init);
    if i < |init| {
      DescribeAllAt(init, i);
      assert init[i] == tools[i];
    }
  }

  lemma {:induction false} DescribeAllLength(tools: seq<Tool>)
    ensures |DescribeAll(tools)| == |tools|
  {
    if tools != [] {
      DescribeAllLength(tools[..|tools| - 1]);
    }
  }

  /** The outer loop of `list_tools`: append one descriptor per function. */
  method DescribeTools(functionTools: seq<Tool>) returns (tools: seq<ToolDescriptor>)
    ensures tools == DescribeAll(functionTools)
  {
    tools := [];
    for i := 0 to |functionTools|
      invariant tools == DescribeAll(functionTools[..i])
    {
      var tool := InferDescriptor(functionTools[i]);
      assert functionTools[..i + 1][..i] == functionTools[..i];
      tools := tools + [tool];
    }
    assert functionTools[..|functionTools|] == functionTools;
  }

  class Server {
    /** `TerminalToolkit(**kwargs)`: a toolkit, or the exception it raises. */
    const build: Config -> Result<Toolkit, string>
    /** `terminal_toolkit` */
    var toolkit: Option<Toolkit>
    /** `toolkit_kwargs` */
    var kwargs: Config
    /** How many toolkits have been constructed. */
    ghost var builds: nat
    /** The configuration the current toolkit was constructed from. */
    ghost var builtFrom: Config
    /** Every toolkit function invoked so far, in order. */
    ghost var calls: seq<Invocation>

    /** At most one toolkit is ever built, and the one held is what the
        factory gives for the configuration it was built from. */
    ghost predicate Valid()
      reads this
    {
      && builds <= 1
      && (toolkit.Some? <==> builds == 1)
      && (toolkit.Some? ==> build(builtFrom) == Success(toolkit.value))
    }

    /** The effect of the lazy-initialisation guard, from the state
        (`t0`, `b0`, `f0`) before it; `err` is the construction failure it
        let through, if any. */
    ghost predicate Initialised(t0: Option<Toolkit>, b0: nat, f0: Config, err: Option<string>)
      reads this
    {
      if t0.Some? then
        toolkit == t0 && builds == b0 && builtFrom == f0 && err.None?
      else
        match build(kwargs)
        case Success(tk) => toolkit == Some(tk) && builds == b0 + 1 && builtFrom == kwargs && err.None?
        case Failure(e) => toolkit == None && builds == b0 && builtFrom == f0 && err == Some(e)
    }

    /** Process start: no toolkit yet. */
    constructor (build: Config -> Result<Toolkit, string>, kwargs: Config)
      ensures Valid()
      ensures this.build == build && this.kwargs == kwargs
      ensures toolkit == None && builds == 0 && calls == []
    {
      this.build := build;
      this.kwargs := kwargs;
      toolkit := None;
      builds := 0;
      builtFrom := map[];
      calls := [];
    }

    /** `main` storing the parsed options in `toolkit_kwargs`. Once a
        toolkit exists this has no effect on it. */
    method SetKwargs(k: Config)
      requires Valid()
      modifies this
      ensures Valid()
      ensures kwargs == k
      ensures toolkit == old(toolkit) && builds == old(builds) && builtFrom == old(builtFrom)
      ensures calls == old(calls)
    {
      kwargs := k;
    }

    /** `initialize_toolkit`: construct the toolkit from the current kwargs
        if there is none yet. A construction failure is returned as `Fail`. */
    method InitializeToolkit() returns (r: Outcome<string>)
      requires Valid()
      modifies this
      ensures Valid()
      ensures kwargs == old(kwargs) && calls == old(calls)
      ensures Initialised(old(toolkit), old(builds), old(builtFrom), if r.Fail? then Some(r.error) else None)
    {
      r := Pass;
      if toolkit.None? {
        var made := build(kwargs);
        match made {
          case Success(tk) =>
            toolkit := Some(tk);
            builds := builds + 1;
            builtFrom := kwargs;
          case Failure(e) =>
            r := Fail(e);
        }
      }
    }

    /** `list_tools`: one descriptor per toolkit function, in order. A
        construction failure propagates as `Failure`. */
    method ListTools() returns (r: Result<seq<ToolDescriptor>, string>)
      requires Valid()
      modifies this
      ensures Valid()
      ensures kwargs == old(kwargs) && calls == old(calls)
      ensures Initialised(old(toolkit), old(builds), old(builtFrom), if r.Failure? then Some(r.error) else None)
      ensures r.Success? <==> toolkit.Some?
      ensures r.Success? ==> r.value == DescribeAll(toolkit.value.tools)
      ensures r.Success? ==> |r.value| == |toolkit.value.tools|
      ensures r.Success? ==>
        forall i | 0 <= i < |r.value| :: r.value[i] == Describe(toolkit.value.tools[i])
    {
      if toolkit.None? {
        var init := InitializeToolkit();
        if init.Fail? {
          return Failure(init.error);
        }
      }
      var tools := DescribeTools(toolkit.value.tools);
      DescribeAllLength(toolkit.value.tools);
      forall i | 0 <= i < |tools| ensures tools[i] == Describe(toolkit.value.tools[i]) {
        DescribeAllAt(toolkit.value.tools, i);
      }
      r := Success(tools);
    }

    /** `call_tool`: find the first function with the name and call it. An
        unknown name or a failing call is reported in the one text block;
        only a construction failure (raised before the `try`) propagates. */
    method CallTool(name: string, args: map<string, Value>) returns (r: Result<seq<TextBlock>, string>)
      requires Valid()
      modifies this
      ensures Valid()
      ensures kwargs == old(kwargs)
      ensures Initialised(old(toolkit), old(builds), old(builtFrom), if r.Failure? then Some(r.error) else None)
      ensures r.Success? <==> toolkit.Some?
      ensures r.Success? ==> r.value == Response(toolkit.value.tools, name, args)
      ensures calls == old(calls) +
        if r.Success? && Lookup(toolkit.value.tools, name).Some? then [Invocation(name, args)] else []
    {
      if toolkit.None? {
        var init := InitializeToolkit();
        if init.Fail? {
          return Failure(init.error);
        }
      }
      var functionTools := toolkit.value.tools;
      var target := FindTool(functionTools, name);
      if target.None? {
        return Success([TextBlock(NotFoundText(name))]);
      }
      var outcome := target.value.run(args);
      calls := calls + [Invocation(name, args)];
      match outcome {
        case Failure(message) =>
          r := Success([TextBlock(ErrorText(name, message))]);
        case Success(result) =>
          if result.Str? {
            r := Success([TextBlock(result.s)]);
          } else {
            r := Success([TextBlock(ToText(result))]);
          }
      }
    }
  }

  /** A listing, a late change of configuration and a call: the toolkit is
      built at most once, and when the listing built it, it was built from
      the configuration in force at that first request. */
  method ListThenCall(s: Server, late: Config, name: string, args: map<string, Value>)
    requires s.Valid() && s.toolkit == None && s.builds == 0
    modifies s
    ensures s.Valid() && s.builds <= 1
    ensures s.build(old(s.kwargs)).Success? ==> s.toolkit == Some(s.build(old(s.kwargs)).value)
  {
    var listing := s.ListTools();
    s.SetKwargs(late);
    var response := s.CallTool(name, args);
  }
}
