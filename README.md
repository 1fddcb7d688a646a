# CAMEL terminal toolkit MCP adapter, modelled in Dafny

This project models the adapter in `src/camel_terminal_toolkit/server.py`.
The adapter exposes the functions of a `TerminalToolkit` as an MCP (Model
Context Protocol) server with two handlers:

- `list_tools` infers a tool descriptor for each toolkit function from its
  signature and docstring. A descriptor has a name, a one-line description,
  a JSON-Schema `properties` object and a `required` list.
- `call_tool` finds the function named in a request, calls it with the
  request's arguments, and wraps the outcome in one text block.

Both handlers first build the toolkit lazily from the module-level
`toolkit_kwargs`. They do this the first time either is needed, and never again.

Modules, one per part of the adapter:

- `wrappers.dfy` (`Wrappers`): Option, Result and Outcome datatypes.
- `values.dfy` (`Values`): the Python values that pass through the adapter, and `str()` on them.
- `text.dfy` (`Text`): `split('\n')[0]` and an argument-less `str.strip()`.
- `schema.dfy` (`Schema`): descriptor inference.
- `dispatch.dfy` (`Dispatch`): lookup and the response of `call_tool`.
- `registry.dfy` (`Registry`): the module-level state as a class `Server`, with the two handlers as its methods.

Replacements made by the model:

- A function is an explicit `Tool` record. It holds a name, an optional
  docstring, an ordered list of parameters, and what a call does: a total
  function from the argument map to a value or an exception message.
  Each parameter has a name, an annotation and an optional default.
  This replaces `inspect.signature` and `__doc__`.
- The toolkit constructor `TerminalToolkit(**kwargs)` is the `build`
  function given to the `Server`.
- `Server` has two ghost fields. `builds` counts constructions. `calls`
  records every tool invocation.

Behaviour kept exactly as the code has it:

- Only `int` maps to "number" and only `bool` to "boolean". `float`, no
  annotation, or any other annotation falls back to "string".
- The fallback text `"Execute <name>"` also goes through
  `split('\n')[0].strip()`. It comes out as exactly `"Execute " + name`
  when the name is non-empty, has no line feed and does not end in
  whitespace, which covers every Python identifier.
- An empty docstring is falsy, so it also takes the fallback.
- `split` happens before `strip`. A docstring that opens with a line feed,
  as many triple-quoted docstrings do, gives an empty description.
- `strip()` removes the characters that Python's `str.isspace()` accepts,
  Unicode spaces included. `split('\n')` splits only on the line feed.
- A construction failure of the toolkit is not caught. The guard sits
  before the `try`, so the failure propagates out of both handlers. The
  toolkit then stays unset, and the next request tries again.

Further facts about the code:

- Descriptor names are not checked for uniqueness. `DescribeAll` keeps one
  descriptor per function, in order, duplicates included.
- `required` is a list in declaration order.
- `properties` is a Python dict, which keeps its keys in insertion order.
  A descriptor carries that order as `propertyOrder`.

## Model

| member | source | states |
|---|---|---|
| `Text.FirstLineShape` | src/camel_terminal_toolkit/server.py:83 | `split('\n')[0]` gives a prefix of the text with no line feed, followed by a line feed or by the end of the text |
| `Text.TrimLeftShape` | src/camel_terminal_toolkit/server.py:83 | the left half of `strip()` removes exactly the leading whitespace and leaves a suffix of its input |
| `Text.TrimRightShape` | src/camel_terminal_toolkit/server.py:83 | the right half of `strip()` removes exactly the trailing whitespace and leaves a prefix of its input |
| `Text.StripSlice` | src/camel_terminal_toolkit/server.py:83 | `strip()` returns one contiguous slice of its input with no whitespace at either end, and only whitespace lies outside that slice |
| `Text.StripUnique` | src/camel_terminal_toolkit/server.py:83 | for whitespace `a` and `b` and a trimmed `m`, `strip(a + m + b)` is `m`; this pins `strip()` down completely |
| `Text.FirstLineUpTo` | src/camel_terminal_toolkit/server.py:83 | a text without a line feed, followed by a line feed or by nothing, is its own first line |
| `Schema.SchemaType` | src/camel_terminal_toolkit/server.py:61-71 | the emitted type name is "number" exactly for `int`, "boolean" exactly for `bool`, and "string" for everything else, including `float` and no annotation |
| `Schema.PropertiesOf` | src/camel_terminal_toolkit/server.py:58-79 | the keys of `properties` are exactly the parameter names, and each entry's description is "Parameter <name>" |
| `Schema.PropertyOfParam` | src/camel_terminal_toolkit/server.py:60-79 | each parameter's entry has the type of its annotation and the description "Parameter <name>"; it has a `default` exactly when the parameter has one, holding that value |
| `Schema.KeyOrderKeys` | src/camel_terminal_toolkit/server.py:58-79 | the key order of the `properties` dict lists every key once and nothing else |
| `Schema.KeyOrderIsDeclarationOrder` | src/camel_terminal_toolkit/server.py:60-79 | with distinct parameter names, the keys of `properties` come in declaration order |
| `Schema.RequiredMembership` | src/camel_terminal_toolkit/server.py:87-90 | a name is in `required` exactly when a parameter of that name has no default |
| `Schema.RequiredInDeclarationOrder` | src/camel_terminal_toolkit/server.py:87-90 | `required` is a subsequence of the parameter names, so it keeps declaration order |
| `Schema.RequiredAreProperties` | src/camel_terminal_toolkit/server.py:79-90 | every required name is a key of `properties` |
| `Schema.DefaultsNotRequired` | src/camel_terminal_toolkit/server.py:76-90 | when parameter names are distinct, a parameter with a default is never required |
| `Schema.DescriptionSingleLine` | src/camel_terminal_toolkit/server.py:83 | a description never contains a line feed |
| `Schema.DescriptionFallback` | src/camel_terminal_toolkit/server.py:54 | with no docstring or an empty one, a function whose name is non-empty, has no line feed and does not end in whitespace is described as exactly "Execute <name>" |
| `Schema.DescriptionFromDocstring` | src/camel_terminal_toolkit/server.py:83 | for a non-empty docstring, the description is the first line with its surrounding whitespace removed |
| `Schema.DescriptionEmptyAfterLeadingNewline` | src/camel_terminal_toolkit/server.py:83 | a docstring that begins with a line feed gives the empty description |
| `Schema.InferDescriptor` | src/camel_terminal_toolkit/server.py:50-93 | the loop that fills the `parameters` dict one parameter at a time, keeping its key order, builds the descriptor `Describe` specifies |
| `Dispatch.Lookup` | src/camel_terminal_toolkit/server.py:109-112 | a function found for a name has that name |
| `Dispatch.LookupNone` | src/camel_terminal_toolkit/server.py:106-114 | nothing is found exactly when no toolkit function has the requested name |
| `Dispatch.LookupFirst` | src/camel_terminal_toolkit/server.py:109-112 | when several functions share the name, the first one in `get_tools()` order is chosen |
| `Dispatch.FindTool` | src/camel_terminal_toolkit/server.py:106-112 | the search loop with `break` finds the same function as `Lookup` |
| `Dispatch.ResultText` | src/camel_terminal_toolkit/server.py:124-127 | both branches of the `isinstance(result, str)` test give `str(result)` |
| `Dispatch.Response` | src/camel_terminal_toolkit/server.py:114-134 | every response is exactly one text block |
| `Dispatch.ResponseNotFound` | src/camel_terminal_toolkit/server.py:114-118 | an unknown name gives exactly the block "Tool '<name>' not found" |
| `Dispatch.ResponseToolFailed` | src/camel_terminal_toolkit/server.py:129-134 | when the chosen function raises with message m, the response is exactly the block "Error calling tool <name>: " + m |
| `Dispatch.ResponseToolSucceeded` | src/camel_terminal_toolkit/server.py:120-127 | when the chosen function returns v, the response is one block holding `str(v)`, which is v itself when v is a string |
| `Values.IntTextRoundTrip` | src/camel_terminal_toolkit/server.py:127 | `str()` on an `int` result is a decimal numeral that reads back as the same number |
| `Registry.DescribeAllAt` | src/camel_terminal_toolkit/server.py:47-95 | `list_tools` gives one descriptor per toolkit function, in `get_tools()` order, and the i-th is the descriptor `Describe` infers for the i-th function |
| `Registry.DescribeTools` | src/camel_terminal_toolkit/server.py:47-95 | the outer loop, which appends one inferred descriptor per function, yields `DescribeAll` of the functions |
| `Registry.Server.constructor` | src/camel_terminal_toolkit/server.py:28-30 | at process start there is no toolkit, nothing has been built and no tool has been invoked |
| `Registry.Server.SetKwargs` | src/camel_terminal_toolkit/server.py:203-204 | setting `toolkit_kwargs` changes only the kwargs; an existing toolkit and the kwargs it was built from stay as they are |
| `Registry.Server.InitializeToolkit` | src/camel_terminal_toolkit/server.py:33-38 | with no toolkit, builds one from the current kwargs (counted once), or reports the construction failure and leaves the toolkit unset; with a toolkit, changes nothing |
| `Registry.Server.ListTools` | src/camel_terminal_toolkit/server.py:41-95 | initialises lazily, then returns one descriptor per toolkit function, the i-th being `Describe` of the i-th function; a construction failure propagates, and no tool is invoked |
| `Registry.Server.CallTool` | src/camel_terminal_toolkit/server.py:98-134 | initialises lazily, then returns `Response` for the request; a construction failure propagates; exactly one invocation is recorded when the name is found, none otherwise |
| `Registry.ListThenCall` | src/camel_terminal_toolkit/server.py:101-104 | a listing, then new kwargs, then a call: at most one toolkit is built, and if the first listing could build one, it is built from the kwargs in force at that first request |

## Left out

- The MCP transport: the `Server` decorators, `stdio_server`, `asyncio`, and the `Tool` and `TextContent` types. Responses are plain datatypes, and the constant `"type": "object"` of every input schema is not represented.
- Logging calls: they only have side effects.
- `parse_args` and `main`: argument parsing, `sys.exit`, and the forwarded timeout, safe-mode and interactive options. The one effect of `main` on the adapter, storing the parsed options in `toolkit_kwargs`, is `SetKwargs`.
- `TerminalToolkit` internals: shell execution and process control are not visible. The constructor is the `build` function, and each tool is its `run` function. A `TypeError` from arguments that do not fit the signature is one of the failures `run` can return.
- `inspect.signature` and `__doc__`: replaced by the explicit `Tool` and `Param` records. The implicit receiver of a bound method is not in the list.
- Python's `str()` on floats, lists and other objects: such values are `Value.Other`, which carries its text. `str()` is spelled out for strings, ints, bools and `None`.
- Exceptions inside the `try` that do not come from the tool itself: from `get_tools()`, from a name comparison, or from `str(result)`. Here these operations are total, so such exceptions cannot occur.
- A default whose `__eq__` misbehaves when compared with `inspect.Parameter.empty`, and a toolkit object that is falsy: neither is modelled. A default is present or absent, and a built toolkit counts as present.
- The race when two requests initialise the toolkit at once: the model handles one request at a time, to completion.
- Schema.PropertyOfParam: assumes parameter names are distinct, as Python's own signatures guarantee. With repeated names, `PropertiesOf` keeps the last entry, as a dict assignment does.
- Schema.DefaultsNotRequired: assumes parameter names are distinct, for the same reason.
- Schema.DescriptionFallback: covers names that are non-empty, have no line feed and do not end in whitespace. For other names the code strips or cuts the fallback text too, and the model follows it without a lemma.
- Exceptions that are not `Exception`s: `KeyboardInterrupt`, `SystemExit` and other `BaseException`s raised inside a tool escape the `except Exception` of `call_tool` and propagate. The model's tools fail only with ordinary exceptions, which `call_tool` always turns into a text block.
