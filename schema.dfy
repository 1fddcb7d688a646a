/** Schema inference: how `list_tools` turns one toolkit function into a
    tool descriptor (its name, a one-line description, a JSON-Schema
    `properties` object and a `required` list). */
module Schema {
  import opened Wrappers
  import opened Values
  import opened Text

  /** A parameter's annotation, as `inspect.signature` reports it. */
  datatype Annotation =
    | Unannotated           // inspect.Parameter.empty
    | StrType               // str
    | IntType               // int
    | BoolType              // bool
    | FloatType             // float
    | OtherType(name: string)  // any other annotation: Optional[int], a class, a string, ...

  /** One declared parameter. The implicit receiver of a bound method is not
      part of the signature and so never appears here. */
  datatype Param = Param(name: string, ann: Annotation, default: Option<Value>)

  /** A toolkit function: its `__name__`, its `__doc__`, its signature, and
      what calling it with keyword arguments does (a value, or an exception
      carrying a message). */
  datatype Tool = Tool(
    name: string,
    doc: Option<string>,
    params: seq<Param>,
    run: map<string, Value> -> Result<Value, string>)

  /** The JSON-Schema type names the adapter emits. */
  datatype JsonType = JString | JNumber | JBoolean {
    function Name(): string {
      match this
      case JString => "string"
      case JNumber => "number"
      case JBoolean => "boolean"
    }
  }

  /** One entry of `properties`: its `type`, its `description`, and its
      `default` key, present exactly when the value is `Some`. */
  datatype PropSchema = PropSchema(kind: JsonType, description: string, default: Option<Value>)

  /** The descriptor handed to the protocol. Its `inputSchema` always has
      `"type": "object"`, so only `properties` and `required` vary.
      `properties` is a Python dict, which keeps its keys in insertion
      order; `propertyOrder` is that order. */
  datatype ToolDescriptor = ToolDescriptor(
    name: string,
    description: string,
    properties: map<string, PropSchema>,
    propertyOrder: seq<string>,
    required: seq<string>)

  /** Annotation to schema type: only `int` becomes "number" and only `bool`
      "boolean"; `str`, no annotation, `float` and everything else stay at
      the default "string". */
  function SchemaType(ann: Annotation): (r: JsonType)
    ensures r.Name() == "number" <==> ann == IntType
    ensures r.Name() == "boolean" <==> ann == BoolType
    ensures r.Name() == "string" <==> ann != IntType && ann != BoolType
  {
    if ann == Unannotated then JString
    else if ann == StrType then JString
    else if ann == IntType then JNumber
    else if ann == BoolType then JBoolean
    else JString
  }

  function ParamSchema(p: Param): PropSchema {
    PropSchema(SchemaType(p.ann), "Parameter " + p.name, p.default)
  }

  /** The `properties` dict after `parameters[param_name] = param_info` has
      run for every parameter in declaration order. */
  function PropertiesOf(ps: seq<Param>): (r: map<string, PropSchema>)
    ensures r.Keys == set k | 0 <= k < |ps| :: ps[k].name
    ensures forall n | n in r :: r[n].description == "Parameter " + n
  {
    if ps == [] then map[]
    else
      var init, last := ps[..|ps| - 1], ps[|ps| - 1];
      assert forall k | 0 <= k < |init| :: init[k] == ps[k];
      PropertiesOf(init)[last.name := ParamSchema(last)]
  }

  /** The order of the keys of the `properties` dict: a key takes its place
      when it is first assigned, and assigning it again keeps that place. */
  function KeyOrder(ps: seq<Param>): seq<string> {
    if ps == [] then []
    else
      var init, last := ps[..|ps| - 1], ps[|ps| - 1];
      var order := KeyOrder(init);
      if last.name in order then order else order + [last.name]
  }

  /** The `required` comprehension: the names of the parameters without a
      default, in declaration order. */
  function RequiredOf(ps: seq<Param>): seq<string> {
    if ps == [] then []
    else (if ps[0].default.None? then [ps[0].name] else []) + RequiredOf(ps[1..])
  }

  function Names(ps: seq<Param>): seq<string> {
    if ps == [] then [] else [ps[0].name] + Names(ps[1..])
  }

  /** Python forbids two parameters with one name. */
  predicate DistinctNames(ps: seq<Param>) {
    forall i, j | 0 <= i < j < |ps| :: ps[i].name != ps[j].name
  }

  /** `a` is `b` with some elements left out, the rest kept in order. */
  predicate IsSubsequence(a: seq<string>, b: seq<string>) {
    if a == [] then true
    else if b == [] then false
    else (a[0] == b[0] && IsSubsequence(a[1..], b[1..])) || IsSubsequence(a, b[1..])
  }

  /** `func.__doc__ or f"Execute {func_name}"`: an empty docstring is
      falsy, so it takes the fallback as well. */
  function DocText(name: string, doc: Option<string>): string {
    if doc.Some? && doc.value != "" then doc.value else "Execute " + name
  }

  /** `func_doc.split('\n')[0].strip()` */
  function Description(name: string, doc: Option<string>): string {
    Strip(FirstLine(DocText(name, doc)))
  }

  /** The descriptor `list_tools` builds for one function. */
  function Describe(t: Tool): ToolDescriptor {
    ToolDescriptor(t.name, Description(t.name, t.doc), PropertiesOf(t.params), KeyOrder(t.params), RequiredOf(t.params))
  }

  // ----- description -----

  /** A description is always a single line. */
  lemma DescriptionSingleLine(name: string, doc: Option<string>)
    ensures '\n' !in Description(name, doc)
  {
    var line := FirstLine(DocText(name, doc));
    FirstLineShape(DocText(name, doc));
    StripSlice(line);
    assert forall c | c in Strip(line) :: c in line;
  }

  /** Without a docstring (or with an empty one) the description is exactly
      "Execute <name>" whenever the fallback text survives the split and the
      strip: the name is non-empty, has no line feed and does not end in
      whitespace. Every Python identifier qualifies. */
  lemma DescriptionFallback(name: string, doc: Option<string>)
    requires doc == None || doc == Some("")
    requires name != [] && '\n' !in name && !IsSpace(name[|name| - 1])
    ensures Description(name, doc) == "Execute " + name
  {
    var text := "Execute " + name;
    assert '\n' !in text by {
      assert forall k | 8 <= k < |text| :: text[k] == name[k - 8];
    }
    assert Trimmed(text) by {
      assert text[|text| - 1] == name[|name| - 1];
    }
    FirstLineUpTo(text, []);
    assert text + [] == text;
    StripUnique([], text, []);
    assert [] + text + [] == text;
  }

  /** With a non-empty docstring the description is its first line with the
      surrounding whitespace removed: whatever trimmed text `m` the docstring
      opens with, after whitespace `a` and before whitespace `b` and the
      first line feed (or the end), the description is `m`. */
  lemma DescriptionFromDocstring(name: string, a: string, m: string, b: string, rest: string)
    requires a + m + b + rest != []
    requires AllSpace(a) && '\n' !in a
    requires AllSpace(b) && '\n' !in b
    requires Trimmed(m) && '\n' !in m
    requires rest == [] || rest[0] == '\n'
    ensures Description(name, Some(a + m + b + rest)) == m
  {
    var line := a + m + b;
    assert '\n' !in line by {
      forall k | 0 <= k < |line| ensures line[k] != '\n' {
        if k < |a| { assert line[k] == a[k]; }
        else if k < |a| + |m| { assert line[k] == m[k - |a|]; }
        else { assert line[k] == b[k - |a| - |m|]; }
      }
    }
    FirstLineUpTo(line, rest);
    StripUnique(a, m, b);
  }

  /** `split` runs before `strip`, so a docstring that opens with a line
      feed yields an empty description. */
  lemma DescriptionEmptyAfterLeadingNewline(name: string, d: string)
    requires d != [] && d[0] == '\n'
    ensures Description(name, Some(d)) == ""
  {
  }

  // ----- properties -----

  /** With distinct parameter names, each parameter's entry in `properties`
      has its schema type, the description "Parameter <name>", and a
      `default` exactly when the parameter has one, holding that default. */
  lemma {:induction false} PropertyOfParam(ps: seq<Param>, i: nat)
    requires DistinctNames(ps) && i < |ps|
    ensures ps[i].name in PropertiesOf(ps)
    ensures PropertiesOf(ps)[ps[i].name].kind == SchemaType(ps[i].ann)
    ensures PropertiesOf(ps)[ps[i].name].description == "Parameter " + ps[i].name
    ensures PropertiesOf(ps)[ps[i].name].default == ps[i].default
  {
    var init := ps[..|ps| - 1];
    if i < |ps| - 1 {
      assert init[i] == ps[i];
      assert DistinctNames(init) by {
        forall a, b | 0 <= a < b < |init| ensures init[a].name != init[b].name {
          assert init[a] == ps[a] && init[b] == ps[b];
        }
      }
      PropertyOfParam(init, i);
      assert ps[i].name != ps[|ps| - 1].name;
    }
  }

  /** The key order lists every key of `properties` once, and nothing else. */
  lemma {:induction false} KeyOrderKeys(ps: seq<Param>)
    ensures forall n :: n in KeyOrder(ps) <==> n in PropertiesOf(ps)
    ensures forall i, j | 0 <= i < j < |KeyOrder(ps)| :: KeyOrder(ps)[i] != KeyOrder(ps)[j]
  {
    if ps != [] {
      var init := ps[..|ps| - 1];
      KeyOrderKeys(init);
      assert forall k | 0 <= k < |init| :: init[k] == ps[k];
    }
  }

  /** With distinct names, which Python guarantees, the keys of
      `properties` come in declaration order. */
  lemma {:induction false} KeyOrderIsDeclarationOrder(ps: seq<Param>)
    requires DistinctNames(ps)
    ensures |KeyOrder(ps)| == |ps|
    ensures forall k | 0 <= k < |ps| :: KeyOrder(ps)[k] == ps[k].name
  {
    if ps != [] {
      var init, last := ps[..|ps| - 1], ps[|ps| - 1];
      assert DistinctNames(init) by {
        forall a, b | 0 <= a < b < |init| ensures init[a].name != init[b].name {
          assert init[a] == ps[a] && init[b] == ps[b];
        }
      }
      KeyOrderIsDeclarationOrder(init);
      assert last.name !in PropertiesOf(init) by {
        assert forall k | 0 <= k < |init| :: init[k] == ps[k];
      }
    }
  }

  // ----- required -----

  /** A name is required exactly when some parameter of that name has no default. */
  lemma {:induction false} RequiredMembership(ps: seq<Param>, n: string)
    ensures n in RequiredOf(ps) <==> exists k | 0 <= k < |ps| :: ps[k].name == n && ps[k].default.None?
  {
    if ps != [] {
      RequiredMembership(ps[1..], n);
      if exists k | 0 <= k < |ps| :: ps[k].name == n && ps[k].default.None? {
        var k :| 0 <= k < |ps| && ps[k].name == n && ps[k].default.None?;
        if k > 0 { assert ps[1..][k - 1] == ps[k]; }
      }
      if exists k | 0 <= k < |ps[1..]| :: ps[1..][k].name == n && ps[1..][k].default.None? {
        var k :| 0 <= k < |ps[1..]| && ps[1..][k].name == n && ps[1..][k].default.None?;
        assert ps[k + 1] == ps[1..][k];
      }
    }
  }

  /** `required` keeps declaration order: it is a subsequence of the parameter names. */
  lemma {:induction false} RequiredInDeclarationOrder(ps: seq<Param>)
    ensures IsSubsequence(RequiredOf(ps), Names(ps))
  {
    if ps != [] {
      RequiredInDeclarationOrder(ps[1..]);
      if ps[0].default.None? {
        assert RequiredOf(ps) == [ps[0].name] + RequiredOf(ps[1..]);
      } else {
        assert RequiredOf(ps) == RequiredOf(ps[1..]);
        if RequiredOf(ps) != [] {
          assert Names(ps)[1..] == Names(ps[1..]);
        }
      }
    }
  }

  /** Every required name is a key of `properties`. */
  lemma RequiredAreProperties(ps: seq<Param>)
    ensures forall n | n in RequiredOf(ps) :: n in PropertiesOf(ps)
  {
    forall n | n in RequiredOf(ps) ensures n in PropertiesOf(ps) {
      RequiredMembership(ps, n);
    }
  }

  /** With distinct names, a parameter that has a default is never required. */
  lemma DefaultsNotRequired(ps: seq<Param>, i: nat)
    requires DistinctNames(ps) && i < |ps| && ps[i].default.Some?
    ensures ps[i].name !in RequiredOf(ps)
  {
    RequiredMembership(ps, ps[i].name);
  }

  // ----- the imperative builder -----

  /** The body of `list_tools`' outer loop for one function: fill the
      `parameters` dict one parameter at a time, then build the descriptor. */
  method InferDescriptor(t: Tool) returns (d: ToolDescriptor)
    ensures d == Describe(t)
  {
    var parameters: map<string, PropSchema> := map[];
    var order: seq<string> := [];
    for i := 0 to |t.params|
      invariant parameters == PropertiesOf(t.params[..i])
      invariant order == KeyOrder(t.params[..i])
    {
      KeyOrderKeys(t.params[..i]);
      var p := t.params[i];
      var info := PropSchema(SchemaType(p.ann), "Parameter " + p.name, p.default);
      if p.name !in parameters {
        order := order + [p.name];
      }
      parameters := parameters[p.name := info];
      assert t.params[..i + 1][..i] == t.params[..i];
    }
    assert t.params[..|t.params|] == t.params;
    d := ToolDescriptor(t.name, Description(t.name, t.doc), parameters, order, RequiredOf(t.params));
  }
}
