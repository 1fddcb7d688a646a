/** Dispatch: how `call_tool` finds the function named in a request, calls
    it, and wraps the outcome in one text block. */
module Dispatch {
  import opened Wrappers
  import opened Values
  import opened Schema

  /** A `TextContent` block; its `type` is always "text". */
  datatype TextBlock = TextBlock(text: string)

  /** The first function in `get_tools()` order whose `__name__` is `name`. */
  function Lookup(tools: seq<Tool>, name: string): (r: Option<Tool>)
    ensures r.Some? ==> r.value.name == name
  {
    if tools == [] then None
    else if tools[0].name == name then Some(tools[0])
    else Lookup(tools[1..], name)
  }

  function NotFoundText(name: string): string {
    "Tool '" + name + "' not found"
  }

  function ErrorText(name: string, message: string): string {
    "Error calling tool " + name + ": " + message
  }

  /** A `str` result is returned as it is and anything else through `str()`;
      both branches give the result's `str()`. */
  function ResultText(v: Value): (r: string)
    ensures r == ToText(v)
  {
    if v.Str? then v.s else ToText(v)
  }

  /** The response `call_tool` returns once the toolkit exists. */
  function Response(tools: seq<Tool>, name: string, args: map<string, Value>): (r: seq<TextBlock>)
    ensures |r| == 1
  {
    match Lookup(tools, name)
    case None => [TextBlock(NotFoundText(name))]
    case Some(t) =>
      match t.run(args)
      case Failure(message) => [TextBlock(ErrorText(name, message))]
      case Success(v) => [TextBlock(ResultText(v))]
  }

  /** Lookup finds a function exactly when one has the name. */
  lemma {:induction false} LookupNone(tools: seq<Tool>, name: string)
    ensures Lookup(tools, name).None? <==> forall j | 0 <= j < |tools| :: tools[j].name != name
  {
    if tools != [] {
      LookupNone(tools[1..], name);
      assert forall j | 1 <= j < |tools| :: tools[j] == tools[1..][j - 1];
    }
  }

  /** When several functions share the name, Lookup picks the first. */
  lemma {:induction false} LookupFirst(tools: seq<Tool>, name: string, i: nat)
    requires i < |tools| && tools[i].name == name
    requires forall j | 0 <= j < i :: tools[j].name != name
    ensures Lookup(tools, name) == Some(tools[i])
  {
    if i > 0 {
      LookupFirst(tools[1..], name, i - 1);
    }
  }

  /** An unknown name gives exactly the "not found" block. */
  lemma ResponseNotFound(tools: seq<Tool>, name: string, args: map<string, Value>)
    requires forall j | 0 <= j < |tools| :: tools[j].name != name
    ensures Response(tools, name, args) == [TextBlock("Tool '" + name + "' not found")]
  {
    LookupNone(tools, name);
  }

  /** A failing call (an `Exception` with message m) gives exactly the
      "Error calling tool" block; the failure is not passed on. */
  lemma ResponseToolFailed(tools: seq<Tool>, name: string, args: map<string, Value>, i: nat, m: string)
    requires i < |tools| && tools[i].name == name
    requires forall j | 0 <= j < i :: tools[j].name != name
    requires tools[i].run(args) == Failure(m)
    ensures Response(tools, name, args) == [TextBlock("Error calling tool " + name + ": " + m)]
  {
    LookupFirst(tools, name, i);
  }

  /** A successful call gives one block with the result's text: a string
      result verbatim, anything else through `str()`. */
  lemma ResponseToolSucceeded(tools: seq<Tool>, name: string, args: map<string, Value>, i: nat, v: Value)
    requires i < |tools| && tools[i].name == name
    requires forall j | 0 <= j < i :: tools[j].name != name
    requires tools[i].run(args) == Success(v)
    ensures Response(tools, name, args) == [TextBlock(ToText(v))]
    ensures v.Str? ==> Response(tools, name, args) == [TextBlock(v.s)]
  {
    LookupFirst(tools, name, i);
  }

  /** The search loop of `call_tool`: scan `get_tools()` and stop at the
      first function with the requested name. */
  method FindTool(tools: seq<Tool>, name: string) returns (target: Option<Tool>)
    ensures target == Lookup(tools, name)
  {
    target := None;
    var i := 0;
    while i < |tools|
      invariant 0 <= i <= |tools|
      invariant forall j | 0 <= j < i :: tools[j].name != name
    {
      if tools[i].name == name {
        target := Some(tools[i]);
        LookupFirst(tools, name, i);
        break;
      }
      i := i + 1;
    }
    if target.None? {
      LookupNone(tools, name);
    }
  }
}
