/**
 * Tools: named operations a client can call, and the registry that holds
 * them by name.
 */
module Tools {
  import opened Wrappers
  import opened Values
  import opened Errors
  import Dict

  /**
   * A tool: the example `say-hello` tool, or any other tool given by its
   * name, description, input schema and what executing it yields.
   */
  datatype Tool =
    | HelloTool
    | CustomTool(name: string, description: string, inputSchema: PhpArray, run: PhpArray -> Outcome<Value>)
  {
    /** `getName()`. */
    function Name(): (r: string)
      ensures this.HelloTool? ==> r == "say-hello"
      ensures this.CustomTool? ==> r == name
    {
      match this
      case HelloTool => "say-hello"
      case CustomTool(n, _, _, _) => n
    }

    /** `getDescription()`. */
    function Description(): (r: string)
      ensures this.HelloTool? ==> r == "Say hello to someone"
      ensures this.CustomTool? ==> r == description
    {
      match this
      case HelloTool => "Say hello to someone"
      case CustomTool(_, d, _, _) => d
    }

    /** `getInputSchema()`: the say-hello tool takes one required string, `name`. */
    function InputSchema(): (r: PhpArray)
      ensures this.HelloTool? ==>
                Dict.Keys(r) == [StrKey("type"), StrKey("properties"), StrKey("required")]
                && Lookup(r, "type") == Str("object")
                && Lookup(r, "required") == Arr(ListOf([Str("name")]))
      ensures this.CustomTool? ==> r == inputSchema
    {
      match this
      case HelloTool =>
        var nameProperty := [(StrKey("type"), Str("string")), (StrKey("description"), Str("Name to greet"))];
        var properties := [(StrKey("name"), Arr(nameProperty))];
        var required := ListOf([Str("name")]);
        Dict.Literal3((StrKey("type"), Str("object")), (StrKey("properties"), Arr(properties)),
                      (StrKey("required"), Arr(required)));
        [(StrKey("type"), Str("object")), (StrKey("properties"), Arr(properties)), (StrKey("required"), Arr(required))]
      case CustomTool(_, _, s, _) => s
    }

    /**
     * `execute($arguments)`. The say-hello tool greets `arguments['name']`,
     * or "world" when no name is set; the name is interpolated as PHP does.
     */
    function Execute(arguments: PhpArray): (r: Outcome<Value>)
      ensures this.HelloTool? ==> (r.Ok? || r.Fatal?) && (r.Ok? ==> r.value.Str?)
      ensures this.CustomTool? ==> r == run(arguments)
    {
      match this
      case HelloTool =>
        (match AsString(Coalesce(Lookup(arguments, "name"), Str("world")))
         case Some(name) => Ok(Str("Hello, " + name + "!"))
         case None => Fatal("Error: an object cannot be converted to string"))
      case CustomTool(_, _, _, run) => run(arguments)
    }
  }

  /** The say-hello tool greets the name it is given. */
  lemma HelloGreetsName(arguments: PhpArray, name: string)
    requires Lookup(arguments, "name") == Str(name)
    ensures HelloTool.Execute(arguments) == Ok(Str("Hello, " + name + "!"))
  {
  }

  /** Without a name the say-hello tool greets the world. */
  lemma HelloDefaultsToWorld(arguments: PhpArray)
    requires !IsSet(arguments, "name")
    ensures HelloTool.Execute(arguments) == Ok(Str("Hello, world!"))
  {
    assert "Hello, " + "world" + "!" == "Hello, world!";
  }

  /** A list as a name is greeted as "Array", PHP's conversion of an array to a string. */
  lemma HelloGreetsArrayAsArray(arguments: PhpArray, list: PhpArray)
    requires Lookup(arguments, "name") == Arr(list)
    ensures HelloTool.Execute(arguments) == Ok(Str("Hello, Array!"))
  {
    assert "Hello, " + "Array" + "!" == "Hello, Array!";
  }

  /** One entry of `getToolSchemas()`: the tool's name, description and input schema. */
  function Schema(t: Tool): (r: Value)
    ensures r.Arr? && Dict.Keys(r.entries) == [StrKey("name"), StrKey("description"), StrKey("inputSchema")]
    ensures Lookup(r.entries, "name") == Str(t.Name())
    ensures Lookup(r.entries, "description") == Str(t.Description())
    ensures Lookup(r.entries, "inputSchema") == Arr(t.InputSchema())
  {
    Dict.Literal3((StrKey("name"), Str(t.Name())), (StrKey("description"), Str(t.Description())),
                  (StrKey("inputSchema"), Arr(t.InputSchema())));
    Arr([(StrKey("name"), Str(t.Name())), (StrKey("description"), Str(t.Description())),
         (StrKey("inputSchema"), Arr(t.InputSchema()))])
  }

  /** The schema list for tools in registration order. */
  function Schemas(tools: seq<Tool>): (r: seq<Value>)
    ensures |r| == |tools|
    ensures forall i :: 0 <= i < |tools| ==> r[i] == Schema(tools[i])
  {
    seq(|tools|, i requires 0 <= i < |tools| => Schema(tools[i]))
  }

  /** What `register($tool)` accepts: a tool instance, or a class name for the container to build. */
  datatype ToolRef = Instance(tool: Tool) | ClassName(className: string)

  /** Every tool is stored under its own name. */
  ghost predicate KeyedByName(d: seq<(string, Tool)>) {
    Dict.UniqueKeys(d) && forall n :: Dict.Get(d, n).Some? ==> Dict.Get(d, n).value.Name() == n
  }

  /**
   * The effect of `register($tool)` on the stored tools: a class name is
   * built by the container, a result that is not a tool is rejected, and a
   * tool replaces any tool of the same name.
   */
  function Registered(tools: seq<(string, Tool)>, ref: ToolRef, make: string -> Outcome<Option<Tool>>): (r: Outcome<seq<(string, Tool)>>)
    ensures ref.Instance? ==> r == Ok(Dict.Put(tools, ref.tool.Name(), ref.tool))
    ensures ref.ClassName? && make(ref.className) == Ok(None) ==>
              r == Throw(Exception(InvalidArgumentException, "Tool must implement Tool interface"))
  {
    var tool :- match ref
                case Instance(t) => Ok(Some(t))
                case ClassName(c) => make(c);
    match tool
    case Some(t) => Ok(Dict.Put(tools, t.Name(), t))
    case None => Throw(Exception(InvalidArgumentException, "Tool must implement Tool interface"))
  }

  /** `registerMany($tools)`: registers in order and stops at the first failure, keeping what was registered. */
  function RegisteredAll(tools: seq<(string, Tool)>, refs: seq<ToolRef>, make: string -> Outcome<Option<Tool>>)
    : (r: (Outcome<()>, seq<(string, Tool)>))
    ensures Dict.UniqueKeys(tools) ==> Dict.UniqueKeys(r.1)
    decreases |refs|
  {
    if refs == [] then (Ok(()), tools)
    else match Registered(tools, refs[0], make)
      case Ok(next) => RegisteredAll(next, refs[1..], make)
      case Throw(e) => (Throw(e), tools)
      case Fatal(m) => (Fatal(m), tools)
  }

  lemma PutKeyedByName(d: seq<(string, Tool)>, t: Tool)
    requires KeyedByName(d)
    ensures KeyedByName(Dict.Put(d, t.Name(), t))
  {
    var r := Dict.Put(d, t.Name(), t);
    forall n | Dict.Get(r, n).Some?
      ensures Dict.Get(r, n).value.Name() == n
    {
      if n != t.Name() {
        assert Dict.Get(r, n) == Dict.Get(d, n);
      }
    }
  }

  /** Registering keeps every tool under its own name. */
  lemma {:induction false} RegisteredAllKeyedByName(tools: seq<(string, Tool)>, refs: seq<ToolRef>, make: string -> Outcome<Option<Tool>>)
    requires KeyedByName(tools)
    ensures KeyedByName(RegisteredAll(tools, refs, make).1)
    decreases |refs|
  {
    if refs != [] {
      match Registered(tools, refs[0], make)
      case Ok(next) =>
        var t := if refs[0].Instance? then refs[0].tool else make(refs[0].className).value.value;
        assert next == Dict.Put(tools, t.Name(), t);
        PutKeyedByName(tools, t);
        RegisteredAllKeyedByName(next, refs[1..], make);
      case Throw(_) =>
      case Fatal(_) =>
    }
  }

  /** The tools as registry entries given as instances. */
  function Instances(ts: seq<Tool>): (refs: seq<ToolRef>)
    ensures |refs| == |ts| && forall i :: 0 <= i < |ts| ==> refs[i] == Instance(ts[i])
  {
    seq(|ts|, i requires 0 <= i < |ts| => Instance(ts[i]))
  }

  /** No tool after the i-th one has its name. */
  ghost predicate LastOfItsName(ts: seq<Tool>, i: nat)
    requires i < |ts|
  {
    forall j :: i < j < |ts| ==> ts[j].Name() != ts[i].Name()
  }

  /** A name no tool after the first has is a name no tool of the tail has. */
  lemma AbsentFromTail(ts: seq<Tool>, n: string)
    requires |ts| > 0 && forall j :: 1 <= j < |ts| ==> ts[j].Name() != n
    ensures forall j :: 0 <= j < |ts[1..]| ==> ts[1..][j].Name() != n
  {
    forall j | 0 <= j < |ts[1..]| ensures ts[1..][j].Name() != n {
      assert ts[1..][j] == ts[j + 1];
    }
  }

  /** The last tool of its name stays the last of its name in the tail. */
  lemma LastOfItsNameInTail(ts: seq<Tool>, i: nat)
    requires 0 < i < |ts| && LastOfItsName(ts, i)
    ensures ts[1..][i - 1] == ts[i] && LastOfItsName(ts[1..], i - 1)
  {
    forall j | i - 1 < j < |ts[1..]| ensures ts[1..][j].Name() != ts[1..][i - 1].Name() {
      assert ts[1..][j] == ts[j + 1];
    }
  }

  /**
   * Registering instances only never fails; every name then maps to the last
   * tool registered with it, and names none of them has keep their entry.
   */
  lemma {:induction false} RegisteredInstancesAreFound(tools: seq<(string, Tool)>, ts: seq<Tool>, make: string -> Outcome<Option<Tool>>)
    ensures var r := RegisteredAll(tools, Instances(ts), make);
            r.0 == Ok(())
            && (forall i :: 0 <= i < |ts| && LastOfItsName(ts, i) ==> Dict.Get(r.1, ts[i].Name()) == Some(ts[i]))
            && (forall n :: (forall j :: 0 <= j < |ts| ==> ts[j].Name() != n) ==> Dict.Get(r.1, n) == Dict.Get(tools, n))
    decreases |ts|
  {
    if ts == [] {
      return;
    }
    var next := Dict.Put(tools, ts[0].Name(), ts[0]);
    assert Registered(tools, Instance(ts[0]), make) == Ok(next);
    assert Instances(ts)[1..] == Instances(ts[1..]);
    var r := RegisteredAll(next, Instances(ts[1..]), make);
    assert RegisteredAll(tools, Instances(ts), make) == r;
    RegisteredInstancesAreFound(next, ts[1..], make);
    forall i | 0 <= i < |ts| && LastOfItsName(ts, i)
      ensures Dict.Get(r.1, ts[i].Name()) == Some(ts[i])
    {
      if i == 0 {
        AbsentFromTail(ts, ts[0].Name());
      } else {
        LastOfItsNameInTail(ts, i);
      }
    }
    forall n | forall j :: 0 <= j < |ts| ==> ts[j].Name() != n
      ensures Dict.Get(r.1, n) == Dict.Get(tools, n)
    {
      assert ts[0].Name() != n;
      AbsentFromTail(ts, n);
    }
  }

  class ToolRegistry {
    var tools: seq<(string, Tool)>
    /** The container that builds a tool from a class name; it may throw or build something else. */
    const make: string -> Outcome<Option<Tool>>

    ghost predicate Valid()
      reads this
    {
      KeyedByName(tools)
    }

    constructor (make: string -> Outcome<Option<Tool>>)
      ensures Valid() && tools == [] && this.make == make
    {
      tools := [];
      this.make := make;
    }

    /** `register($tool)`: on failure nothing is stored. */
    method Register(ref: ToolRef) returns (r: Outcome<ToolRegistry>)
      requires Valid()
      modifies this
      ensures Valid()
      ensures match old(Registered(tools, ref, make))
              case Ok(next) => r == Ok(this) && tools == next
              case Throw(e) => r == Throw(e) && tools == old(tools)
              case Fatal(m) => r == Fatal(m) && tools == old(tools)
    {
      var tool: Tool;
      match ref {
        case ClassName(c) =>
          match make(c) {
            case Ok(Some(t)) => tool := t;
            case Ok(None) =>
              return Throw(Exception(InvalidArgumentException, "Tool must implement Tool interface"));
            case Throw(e) => return Throw(e);
            case Fatal(m) => return Fatal(m);
          }
        case Instance(t) => tool := t;
      }
      PutKeyedByName(tools, tool);
      tools := Dict.Put(tools, tool.Name(), tool);
      return Ok(this);
    }

    /** `registerMany($tools)`: tools registered before a failure stay registered. */
    method RegisterMany(refs: seq<ToolRef>) returns (r: Outcome<ToolRegistry>)
      requires Valid()
      modifies this
      ensures Valid()
      ensures tools == old(RegisteredAll(tools, refs, make)).1
      ensures match old(RegisteredAll(tools, refs, make)).0
              case Ok(_) => r == Ok(this)
              case Throw(e) => r == Throw(e)
              case Fatal(m) => r == Fatal(m)
    {
      var i := 0;
      while i < |refs|
        invariant 0 <= i <= |refs| && Valid()
        invariant old(RegisteredAll(tools, refs, make)) == RegisteredAll(tools, refs[i..], make)
        decreases |refs| - i
      {
        assert refs[i..][1..] == refs[i + 1..];
        ghost var before := tools;
        var step := Register(refs[i]);
        match step {
          case Ok(_) =>
            assert RegisteredAll(before, refs[i..], make) == RegisteredAll(tools, refs[i + 1..], make);
          case Throw(e) => return Throw(e);
          case Fatal(m) => return Fatal(m);
        }
        i := i + 1;
      }
      return Ok(this);
    }

    /** `getTools()`: the tools by name, in registration order. */
    function GetTools(): (r: seq<(string, Tool)>)
      reads this
      ensures r == tools
    {
      tools
    }

    /** `getTool($name)`: the tool registered under the name, or null. */
    function GetTool(name: string): (r: Option<Tool>)
      reads this
      ensures r.Some? <==> Dict.HasKey(tools, name)
      ensures Valid() && r.Some? ==> r.value.Name() == name
    {
      Dict.Get(tools, name)
    }

    /** `getToolSchemas()`: one schema per registered tool, built in a loop. */
    method GetToolSchemas() returns (schemas: PhpArray)
      ensures schemas == ListOf(Schemas(Dict.Values(tools)))
    {
      var ts := Dict.Values(tools);
      schemas := [];
      var i := 0;
      while i < |ts|
        invariant 0 <= i <= |ts|
        invariant schemas == ListOf(Schemas(ts[..i]))
      {
        SchemaListGrows(ts, i);
        schemas := schemas + [(IntKey(|schemas|), Schema(ts[i]))];
        i := i + 1;
      }
      assert ts[..i] == ts;
    }
  }

  /** One more tool adds its schema at the next list index. */
  lemma SchemaListGrows(ts: seq<Tool>, i: nat)
    requires i < |ts|
    ensures ListOf(Schemas(ts[..i + 1])) == ListOf(Schemas(ts[..i])) + [(IntKey(i), Schema(ts[i]))]
  {
    var a, b := ListOf(Schemas(ts[..i + 1])), ListOf(Schemas(ts[..i])) + [(IntKey(i), Schema(ts[i]))];
    assert |a| == |b|;
    forall k | 0 <= k < |a|
      ensures a[k] == b[k]
    {
      assert ts[..i + 1][k] == ts[k];
    }
  }

  /** The schema list names every registered tool once, in registration order. */
  lemma SchemaNamesAreKeys(tools: seq<(string, Tool)>, i: nat)
    requires KeyedByName(tools) && i < |tools|
    ensures |Schemas(Dict.Values(tools))| == |tools|
    ensures Lookup(Schemas(Dict.Values(tools))[i].entries, "name") == Str(tools[i].0)
  {
    Dict.ValuesLength(tools);
    Dict.GetAt(tools, i);
  }
}
