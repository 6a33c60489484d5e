/**
 * The three command classes the server executes: `Create`, `Call` and `Get`.
 * A command instance is its class plus its instance dictionary; attributes
 * not set on the instance fall back to the class defaults. Importing modules,
 * `getattr` and calling a callable go through an abstract environment.
 */
module Commands {
  import opened Wrappers
  import opened Text
  import opened Values

  function ClassName(kind: Kind): string {
    match kind
    case CreateKind => "Create"
    case CallKind => "Call"
    case GetKind => "Get"
  }

  /** The data attributes each class declares, with their class-level defaults. */
  function Defaults(kind: Kind): (d: map<string, Value>)
    ensures "result" in d && d["result"] == Nil
    ensures "return_result" in d && d["return_result"] == Bool(false)
  {
    var base := map["result" := Nil, "return_result" := Bool(false)];
    match kind
    case CreateKind =>
      base["module" := Str("")]["class_" := Str("")]["args" := Tuple([])]["kwargs" := Dict([])]
    case CallKind =>
      base["object" := Str("")]["method" := Str("")]["args" := Tuple([])]["kwargs" := Dict([])]
    case GetKind =>
      base["object" := Str("")]["member" := Str("")]
  }

  /**
   * Attributes that `hasattr` also finds on every command instance: the
   * `execute` method and what every Python object inherits from `object`.
   */
  const InheritedAttributes: set<string> :=
    {"execute", "__class__", "__delattr__", "__dict__", "__dir__", "__doc__", "__eq__",
     "__format__", "__ge__", "__getattribute__", "__gt__", "__hash__", "__init__",
     "__init_subclass__", "__le__", "__lt__", "__module__", "__ne__", "__new__",
     "__reduce__", "__reduce_ex__", "__repr__", "__setattr__", "__sizeof__", "__str__",
     "__subclasshook__", "__weakref__"}

  /**
   * The attributes `object` and the command classes define as data
   * descriptors: `setattr` on them does not store into the instance dictionary.
   */
  const DataDescriptors: set<string> := {"__class__", "__dict__", "__weakref__"}

  /** `hasattr(instance, name)` on a freshly allocated instance of the class. */
  predicate HasAttr(kind: Kind, name: string) {
    name in Defaults(kind) || name in InheritedAttributes
  }

  /** `hasattr(instance, name)`: the instance dictionary, then the class. */
  predicate HasAttrOn(c: Command, name: string) {
    name in c.fields || HasAttr(c.kind, name)
  }

  /** On a fresh instance, `setattr` stores the keyword in the instance dictionary. */
  predicate Stores(kind: Kind, name: string) {
    HasAttr(kind, name) && name !in DataDescriptors
  }

  function ParamNames(params: seq<(string, Value)>): set<string> {
    set j | 0 <= j < |params| :: params[j].0
  }

  /** The keyword is a `__dict__` whose dict holds `name`. */
  predicate DictSupplies(param: (string, Value), name: string) {
    param.0 == "__dict__" && param.1.Dict? && name in Keys(param.1.entries)
  }

  /** The instance dictionary that `instance.__dict__ = d` installs: the dict itself. */
  function InstanceDict(entries: seq<(string, Value)>): map<string, Value> {
    map k | k in Keys(entries) :: Lookup(entries, k).value
  }

  function NotAClass(value: Value): Error {
    TypeError("__class__ must be set to a class, not '" + TypeName(value) + "' object")
  }

  function NotADict(value: Value): Error {
    TypeError("__dict__ must be set to a dictionary, not a '" + TypeName(value) + "'")
  }

  /**
   * One pass of the keyword loop of `Command.__init__`: the `hasattr` test,
   * then `setattr`. `__class__` takes only a class, `__weakref__` is
   * read-only, and `__dict__` takes only a dict, which becomes the instance
   * dictionary; any other name is stored in the instance dictionary.
   */
  function SetAttr(c: Command, name: string, value: Value): (r: Result<Command, Error>)
    ensures r.Ok? <==> HasAttrOn(c, name) && name != "__class__" && name != "__weakref__"
                       && (name == "__dict__" ==> value.Dict?)
    ensures r.Ok? ==> r.value.kind == c.kind
  {
    if !HasAttrOn(c, name) then Err(AttributeError(ClassName(c.kind), name))
    else if name == "__class__" then Err(NotAClass(value))
    else if name == "__weakref__" then Err(AttributeNotWritable(ClassName(c.kind), name))
    else if name == "__dict__" then
      if value.Dict? then Ok(Command(c.kind, InstanceDict(value.entries))) else Err(NotADict(value))
    else Ok(Command(c.kind, c.fields[name := value]))
  }

  /**
   * What `setattr` raises for a keyword on an instance whose dictionary holds
   * only declared attributes, or `None` when it accepts the keyword.
   */
  function Refusal(kind: Kind, name: string, value: Value): (e: Option<Error>)
    ensures e.None? <==> Stores(kind, name) || (name == "__dict__" && value.Dict?)
  {
    match SetAttr(Command(kind, map[]), name, value)
    case Ok(_) => None
    case Err(e) => Some(e)
  }

  /**
   * `Kind(**params)`: the keywords are set in order and the first one that
   * `SetAttr` refuses raises. Without a `__dict__` keyword, construction
   * succeeds exactly when every keyword is stored, and the instance
   * dictionary then holds exactly the keywords given.
   */
  function Constructed(kind: Kind, params: seq<(string, Value)>): (r: Result<Command, Error>)
    ensures r.Ok? ==> r.value.kind == kind
    ensures "__dict__" !in ParamNames(params) ==>
      (r.Ok? <==> forall j | 0 <= j < |params| :: Stores(kind, params[j].0))
    ensures "__dict__" !in ParamNames(params) && r.Ok? ==> r.value.fields.Keys == ParamNames(params)
  {
    if params == [] then Ok(Command(kind, map[]))
    else
      var init := params[..|params| - 1];
      var last := params[|params| - 1];
      assert ParamNames(params) == ParamNames(init) + {last.0} by {
        assert forall j | 0 <= j < |init| :: init[j] == params[j];
      }
      assert forall j | 0 <= j < |init| :: init[j] == params[j];
      var prev :- Constructed(kind, init);
      SetAttr(prev, last.0, last.1)
  }

  /**
   * Before any `__dict__` keyword, the first keyword that `setattr` refuses
   * decides the error.
   */
  lemma {:induction false} ConstructedFirstRefused(kind: Kind, params: seq<(string, Value)>, j: nat)
    requires j < |params| && Refusal(kind, params[j].0, params[j].1).Some?
    requires forall i | 0 <= i < j :: Stores(kind, params[i].0)
    ensures Constructed(kind, params) == Err(Refusal(kind, params[j].0, params[j].1).value)
  {
    var pre := params[..j];
    assert forall i | 0 <= i < |pre| :: pre[i] == params[i];
    assert "__dict__" !in ParamNames(pre);
    var prev := Constructed(kind, pre).value;
    assert forall n | n in prev.fields :: HasAttr(kind, n);
    assert params[..j + 1][..j] == pre && params[..j + 1][j] == params[j];
    assert Constructed(kind, params[..j + 1]) == SetAttr(prev, params[j].0, params[j].1);
    ConstructedPrefixErr(kind, params, j + 1);
  }

  /** The error names the first keyword that is not an attribute of the class. */
  lemma ConstructedFirstUnknown(kind: Kind, params: seq<(string, Value)>, j: nat)
    requires j < |params| && !HasAttr(kind, params[j].0)
    requires forall i | 0 <= i < j :: Stores(kind, params[i].0)
    ensures Constructed(kind, params) == Err(AttributeError(ClassName(kind), params[j].0))
  {
    ConstructedFirstRefused(kind, params, j);
  }

  /** `__class__` and `__weakref__` are never accepted as keywords. */
  lemma ConstructedRejectsDescriptor(kind: Kind, params: seq<(string, Value)>, j: nat)
    requires j < |params| && params[j].0 in {"__class__", "__weakref__"}
    ensures Constructed(kind, params).Err?
  {
    var upto := params[..j + 1];
    assert upto[..j] == params[..j] && upto[j] == params[j];
    assert Constructed(kind, upto).Err?;
    ConstructedPrefixErr(kind, params, j + 1);
  }

  /**
   * A keyword is set on the instance and, when no later keyword has its name
   * and no `__dict__` comes after it, keeps its value.
   */
  lemma {:induction false} ConstructedField(kind: Kind, params: seq<(string, Value)>, j: nat)
    requires Constructed(kind, params).Ok?
    requires j < |params|
    requires forall i | j <= i < |params| :: params[i].0 != "__dict__"
    requires forall i | j < i < |params| :: params[i].0 != params[j].0
    ensures params[j].0 in Constructed(kind, params).value.fields
      && Constructed(kind, params).value.fields[params[j].0] == params[j].1
  {
    var init := params[..|params| - 1];
    if j < |params| - 1 {
      ConstructedField(kind, init, j);
    }
  }

  /**
   * A `__dict__` keyword installs its dict as the instance dictionary: the
   * keywords before it are discarded, and a name that no later keyword sets
   * reads from that dict.
   */
  lemma {:induction false} ConstructedDictField(kind: Kind, params: seq<(string, Value)>, d: nat, name: string)
    requires Constructed(kind, params).Ok?
    requires d < |params| && params[d].0 == "__dict__"
    requires forall i | d < i < |params| :: params[i].0 != name && params[i].0 != "__dict__"
    ensures params[d].1.Dict?
    ensures var fields := Constructed(kind, params).value.fields;
      && (name in fields <==> name in Keys(params[d].1.entries))
      && (name in fields ==> fields[name] == Lookup(params[d].1.entries, name).value)
  {
    var init := params[..|params| - 1];
    if d < |params| - 1 {
      ConstructedDictField(kind, init, d, name);
    }
  }

  /** `Command.__init__` as written: a loop over the keywords that sets each one on the instance. */
  method Construct(kind: Kind, params: seq<(string, Value)>) returns (r: Result<Command, Error>)
    ensures r == Constructed(kind, params)
  {
    var fields: map<string, Value> := map[];
    var i := 0;
    while i < |params|
      invariant 0 <= i <= |params|
      invariant Constructed(kind, params[..i]) == Ok(Command(kind, fields))
    {
      var (name, value) := params[i];
      assert params[..i + 1][..i] == params[..i];
      if name !in fields && !HasAttr(kind, name) {
        ConstructedPrefixErr(kind, params, i + 1);
        return Err(AttributeError(ClassName(kind), name));
      }
      if name == "__class__" {
        ConstructedPrefixErr(kind, params, i + 1);
        return Err(NotAClass(value));
      } else if name == "__weakref__" {
        ConstructedPrefixErr(kind, params, i + 1);
        return Err(AttributeNotWritable(ClassName(kind), name));
      } else if name == "__dict__" {
        if !value.Dict? {
          ConstructedPrefixErr(kind, params, i + 1);
          return Err(NotADict(value));
        }
        fields := InstanceDict(value.entries);
      } else {
        fields := fields[name := value];
      }
      i := i + 1;
    }
    assert params[..i] == params;
    return Ok(Command(kind, fields));
  }

  /** Once a prefix of the keywords fails, the whole construction fails the same way. */
  lemma {:induction false} ConstructedPrefixErr(kind: Kind, params: seq<(string, Value)>, n: nat)
    requires n <= |params| && Constructed(kind, params[..n]).Err?
    ensures Constructed(kind, params) == Constructed(kind, params[..n])
    decreases |params| - n
  {
    if n < |params| {
      assert params[..n + 1][..n] == params[..n];
      ConstructedPrefixErr(kind, params, n + 1);
    } else {
      assert params[..n] == params;
    }
  }

  /** `instance.name`: the instance attribute if set, else the class default. */
  function Field(c: Command, name: string): Value
    requires name in Defaults(c.kind)
  {
    if name in c.fields then c.fields[name] else Defaults(c.kind)[name]
  }

  /** A declared attribute that neither a keyword nor a `__dict__` dict supplies reads as its class default. */
  lemma {:induction false} DefaultsKept(kind: Kind, params: seq<(string, Value)>, name: string)
    requires Constructed(kind, params).Ok?
    requires name in Defaults(kind)
    requires forall j | 0 <= j < |params| :: params[j].0 != name && !DictSupplies(params[j], name)
    ensures name !in Constructed(kind, params).value.fields
    ensures Field(Constructed(kind, params).value, name) == Defaults(kind)[name]
  {
    if params != [] {
      var init := params[..|params| - 1];
      DefaultsKept(kind, init, name);
    }
  }

  /** An undeclared name enters the instance dictionary only through a `__dict__` dict that holds it. */
  lemma {:induction false} UndeclaredAbsent(kind: Kind, params: seq<(string, Value)>, name: string)
    requires Constructed(kind, params).Ok? && !HasAttr(kind, name)
    requires forall j | 0 <= j < |params| :: !DictSupplies(params[j], name)
    ensures name !in Constructed(kind, params).value.fields
  {
    if params != [] {
      var init := params[..|params| - 1];
      UndeclaredAbsent(kind, init, name);
    }
  }

  /**
   * A keyword that is not an attribute of the class, and that no earlier
   * `__dict__` dict supplies, makes construction fail.
   */
  lemma RejectsUnknown(kind: Kind, params: seq<(string, Value)>, j: nat)
    requires j < |params| && !HasAttr(kind, params[j].0)
    requires forall i | 0 <= i < j :: !DictSupplies(params[i], params[j].0)
    ensures Constructed(kind, params).Err?
  {
    var pre := params[..j];
    var upto := params[..j + 1];
    assert upto[..j] == pre && upto[j] == params[j];
    if Constructed(kind, pre).Ok? {
      assert forall i | 0 <= i < |pre| :: pre[i] == params[i];
      UndeclaredAbsent(kind, pre, params[j].0);
    }
    assert Constructed(kind, upto).Err?;
    ConstructedPrefixErr(kind, params, j + 1);
  }

  /** A `__dict__` dict that holds an undeclared name lets a later keyword of that name through. */
  lemma DictAdmitsUndeclared(kind: Kind, name: string, v: Value, w: Value)
    requires !HasAttr(kind, name)
    ensures var r := Constructed(kind, [("__dict__", Dict([(name, v)])), (name, w)]);
      r.Ok? && r.value.fields == map[name := w]
  {
    var params := [("__dict__", Dict([(name, v)])), (name, w)];
    assert params[..1][..0] == [];
    assert Keys([(name, v)]) == [name];
    assert InstanceDict([(name, v)]) == map[name := v];
  }

  lemma UndeclaredNames()
    ensures !HasAttr(GetKind, "args") && !HasAttr(GetKind, "kwargs") && !HasAttr(CallKind, "member")
  {
  }

  /** `Get` declares no `args` or `kwargs`, so passing either raises unless a `__dict__` supplied it. */
  lemma GetRejectsArguments(params: seq<(string, Value)>, j: nat)
    requires j < |params| && (params[j].0 == "args" || params[j].0 == "kwargs")
    requires forall i | 0 <= i < j :: !DictSupplies(params[i], params[j].0)
    ensures Constructed(GetKind, params).Err?
  {
    UndeclaredNames();
    RejectsUnknown(GetKind, params, j);
  }

  /** `Call` declares no `member`, so passing it raises unless a `__dict__` supplied it. */
  lemma CallRejectsMember(params: seq<(string, Value)>, j: nat)
    requires j < |params| && params[j].0 == "member"
    requires forall i | 0 <= i < j :: !DictSupplies(params[i], "member")
    ensures Constructed(CallKind, params).Err?
  {
    UndeclaredNames();
    RejectsUnknown(CallKind, params, j);
  }

  /**
   * What `import_module`, `getattr` and calling a callable do: `modules`
   * maps importable module names to module objects, `members` lists the
   * attributes of a value, and `apply` runs a callable on positional and
   * keyword arguments, returning its result or what it raised.
   */
  datatype Env = Env(
    modules: map<string, Value>,
    members: Value -> map<string, Value>,
    apply: (Value, seq<Value>, seq<(string, Value)>) -> Result<Value, Error>)

  /** `getattr(obj, name)`. */
  function GetAttr(env: Env, obj: Value, name: Value): (r: Result<Value, Error>)
    ensures r.Ok? <==> name.Str? && name.s in env.members(obj)
    ensures r.Ok? ==> r.value == env.members(obj)[name.s]
  {
    if !name.Str? then Err(TypeError("attribute name must be string"))
    else if name.s in env.members(obj) then Ok(env.members(obj)[name.s])
    else Err(AttributeError(TypeName(obj), name.s))
  }

  /** `importlib.import_module(name)`. */
  function ImportModule(env: Env, name: Value): (r: Result<Value, Error>)
    ensures r.Ok? <==> name.Str? && name.s in env.modules
  {
    if !name.Str? then Err(TypeError("module name must be a string"))
    else if name.s in env.modules then Ok(env.modules[name.s])
    else Err(ModuleNotFoundError(name.s))
  }

  /** `callee(*args, **kwargs)`. */
  function Invoke(env: Env, callee: Value, args: Value, kwargs: Value): (r: Result<Value, Error>)
    ensures (args.List? || args.Tuple?) && kwargs.Dict? ==> r == env.apply(callee, args.items, kwargs.entries)
    ensures !kwargs.Dict? ==> r.Err?
  {
    match Iterate(args)
    case Err(_) => Err(TypeError("argument after * must be an iterable"))
    case Ok(items) =>
      if kwargs.Dict? then env.apply(callee, items, kwargs.entries)
      else Err(TypeError("argument after ** must be a mapping"))
  }

  /**
   * `callee()` on a value: `None`, booleans, numbers, strings, containers and
   * command instances are not callable; a live object or an unpickled blob
   * is called through the environment.
   */
  function CallBare(env: Env, callee: Value): (r: Result<Value, Error>)
    ensures !(callee.Obj? || callee.Blob?) ==> r.Err?
    ensures callee.Obj? || callee.Blob? ==> r == env.apply(callee, [], [])
  {
    if callee.Obj? || callee.Blob? then env.apply(callee, [], [])
    else Err(TypeError("'" + TypeName(callee) + "' object is not callable"))
  }

  /** `command.execute()`: an `execute` in the instance dictionary hides the method. */
  function Execute(env: Env, c: Command): Result<Value, Error> {
    if "execute" in c.fields then CallBare(env, c.fields["execute"])
    else match c.kind
    case CreateKind =>
      var mod :- ImportModule(env, Field(c, "module"));
      var cls :- GetAttr(env, mod, Field(c, "class_"));
      Invoke(env, cls, Field(c, "args"), Field(c, "kwargs"))
    case CallKind =>
      var bound :- GetAttr(env, Field(c, "object"), Field(c, "method"));
      Invoke(env, bound, Field(c, "args"), Field(c, "kwargs"))
    case GetKind =>
      if Field(c, "member") == Str("") then Ok(Field(c, "object"))
      else GetAttr(env, Field(c, "object"), Field(c, "member"))
  }

  /**
   * An `execute` keyword is stored on the instance and hides the method:
   * `command.execute()` calls the stored value without arguments.
   */
  lemma ExecuteKeyword(env: Env, kind: Kind, params: seq<(string, Value)>, j: nat)
    requires Constructed(kind, params).Ok?
    requires j < |params| && params[j].0 == "execute"
    requires forall i | j <= i < |params| :: params[i].0 != "__dict__"
    requires forall i | j < i < |params| :: params[i].0 != "execute"
    ensures Execute(env, Constructed(kind, params).value) == CallBare(env, params[j].1)
  {
    ConstructedField(kind, params, j);
  }

  /** `Get` with an empty member returns the target object itself, whatever the environment. */
  lemma GetEmptyMemberIsIdentity(env: Env, target: Value)
    ensures Execute(env, Constructed(GetKind, [("object", target)]).value) == Ok(target)
    ensures Execute(env, Constructed(GetKind, [("object", target), ("member", Str(""))]).value) == Ok(target)
  {
    GetDeclares();
    ConstructedStored(GetKind, [], "object", target);
    assert [] + [("object", target)] == [("object", target)];
    GetFields(target, "");
  }

  /** `Get` with a non-empty member reads that attribute; a missing attribute is an error. */
  lemma GetMemberReadsAttribute(env: Env, target: Value, member: string)
    requires member != ""
    ensures var r := Execute(env, Constructed(GetKind, [("object", target), ("member", Str(member))]).value);
      && (member in env.members(target) ==> r == Ok(env.members(target)[member]))
      && (member !in env.members(target) ==> r.Err?)
  {
    GetFields(target, member);
  }

  lemma CreateDeclares()
    ensures Stores(CreateKind, "module") && Stores(CreateKind, "class_")
    ensures Stores(CreateKind, "args") && Stores(CreateKind, "kwargs")
  {
  }

  lemma CallDeclares()
    ensures Stores(CallKind, "object") && Stores(CallKind, "method")
    ensures Stores(CallKind, "args") && Stores(CallKind, "kwargs")
  {
  }

  lemma GetDeclares()
    ensures Stores(GetKind, "object") && Stores(GetKind, "member")
  {
  }

  /** With distinct keywords that are all stored, construction succeeds and records every keyword. */
  lemma ConstructedAll(kind: Kind, params: seq<(string, Value)>)
    requires forall j | 0 <= j < |params| :: Stores(kind, params[j].0)
    requires forall a, b | 0 <= a < b < |params| :: params[a].0 != params[b].0
    ensures Constructed(kind, params).Ok?
    ensures forall j | 0 <= j < |params| ::
      params[j].0 in Constructed(kind, params).value.fields
      && Constructed(kind, params).value.fields[params[j].0] == params[j].1
  {
    assert "__dict__" !in ParamNames(params);
    forall j | 0 <= j < |params|
      ensures params[j].0 in Constructed(kind, params).value.fields
        && Constructed(kind, params).value.fields[params[j].0] == params[j].1
    {
      ConstructedField(kind, params, j);
    }
  }

  /** A keyword that is stored extends the instance dictionary of a successful construction. */
  lemma ConstructedStored(kind: Kind, params: seq<(string, Value)>, name: string, value: Value)
    requires Constructed(kind, params).Ok? && Stores(kind, name)
    ensures Constructed(kind, params + [(name, value)])
      == Ok(Command(kind, Constructed(kind, params).value.fields[name := value]))
  {
    assert (params + [(name, value)])[..|params|] == params;
  }

  /** Two stored keywords give an instance dictionary holding exactly those two. */
  lemma ConstructedTwo(kind: Kind, a: string, va: Value, b: string, vb: Value)
    requires Stores(kind, a) && Stores(kind, b)
    ensures Constructed(kind, [(a, va), (b, vb)]) == Ok(Command(kind, map[a := va, b := vb]))
  {
    ConstructedStored(kind, [], a, va);
    assert [] + [(a, va)] == [(a, va)];
    ConstructedStored(kind, [(a, va)], b, vb);
  }

  /** Four stored keywords give an instance dictionary holding exactly those four. */
  lemma ConstructedFour(kind: Kind, a: string, va: Value, b: string, vb: Value, c: string, vc: Value, d: string, vd: Value)
    requires Stores(kind, a) && Stores(kind, b) && Stores(kind, c) && Stores(kind, d)
    ensures Constructed(kind, [(a, va), (b, vb), (c, vc), (d, vd)])
      == Ok(Command(kind, map[a := va, b := vb, c := vc, d := vd]))
  {
    ConstructedTwo(kind, a, va, b, vb);
    var p2 := [(a, va), (b, vb)];
    ConstructedStored(kind, p2, c, vc);
    ConstructedStored(kind, p2 + [(c, vc)], d, vd);
    assert p2 + [(c, vc)] + [(d, vd)] == [(a, va), (b, vb), (c, vc), (d, vd)];
  }

  /** The `Create` built from the four keywords the client sends holds exactly those values. */
  lemma CreateFields(moduleName: string, cls: string, args: seq<Value>, kwargs: seq<(string, Value)>)
    ensures var r := Constructed(CreateKind, [("module", Str(moduleName)), ("class_", Str(cls)), ("args", List(args)), ("kwargs", Dict(kwargs))]);
      && r.Ok? && r.value.fields == map["module" := Str(moduleName), "class_" := Str(cls), "args" := List(args), "kwargs" := Dict(kwargs)]
      && "execute" !in r.value.fields
      && Field(r.value, "module") == Str(moduleName) && Field(r.value, "class_") == Str(cls)
      && Field(r.value, "args") == List(args) && Field(r.value, "kwargs") == Dict(kwargs)
  {
    CreateDeclares();
    ConstructedFour(CreateKind, "module", Str(moduleName), "class_", Str(cls), "args", List(args), "kwargs", Dict(kwargs));
    var c := Command(CreateKind, map["module" := Str(moduleName), "class_" := Str(cls), "args" := List(args), "kwargs" := Dict(kwargs)]);
    assert "execute" !in c.fields;
    assert Field(c, "module") == Str(moduleName) && Field(c, "class_") == Str(cls);
  }

  /** The `Call` built from the four keywords the client sends holds exactly those values. */
  lemma CallFields(target: Value, methodName: string, args: seq<Value>, kwargs: seq<(string, Value)>)
    ensures var r := Constructed(CallKind, [("object", target), ("method", Str(methodName)), ("args", List(args)), ("kwargs", Dict(kwargs))]);
      && r.Ok? && r.value.fields == map["object" := target, "method" := Str(methodName), "args" := List(args), "kwargs" := Dict(kwargs)]
      && "execute" !in r.value.fields
      && Field(r.value, "object") == target && Field(r.value, "method") == Str(methodName)
      && Field(r.value, "args") == List(args) && Field(r.value, "kwargs") == Dict(kwargs)
  {
    CallDeclares();
    ConstructedFour(CallKind, "object", target, "method", Str(methodName), "args", List(args), "kwargs", Dict(kwargs));
    var c := Command(CallKind, map["object" := target, "method" := Str(methodName), "args" := List(args), "kwargs" := Dict(kwargs)]);
    assert "execute" !in c.fields;
    assert Field(c, "object") == target && Field(c, "method") == Str(methodName);
  }

  /** A `Call` given only an object and a method name calls it with the default, empty arguments. */
  lemma CallDefaultArguments(target: Value, methodName: string)
    ensures var r := Constructed(CallKind, [("object", target), ("method", Str(methodName))]);
      && r.Ok? && r.value.fields == map["object" := target, "method" := Str(methodName)]
      && "execute" !in r.value.fields
      && Field(r.value, "object") == target && Field(r.value, "method") == Str(methodName)
      && Field(r.value, "args") == Tuple([]) && Field(r.value, "kwargs") == Dict([])
  {
    CallDeclares();
    ConstructedTwo(CallKind, "object", target, "method", Str(methodName));
  }

  /** The `Get` built from an object and a member name holds exactly those values. */
  lemma GetFields(target: Value, member: string)
    ensures var r := Constructed(GetKind, [("object", target), ("member", Str(member))]);
      && r.Ok? && r.value.fields == map["object" := target, "member" := Str(member)]
      && "execute" !in r.value.fields
      && Field(r.value, "object") == target && Field(r.value, "member") == Str(member)
  {
    GetDeclares();
    ConstructedTwo(GetKind, "object", target, "member", Str(member));
  }

  /** `Create` imports the module, reads the class from it and calls it on the arguments. */
  lemma CreateInstantiates(env: Env, c: Command, moduleName: string, cls: string, args: seq<Value>, kwargs: seq<(string, Value)>)
    requires c.kind == CreateKind && "execute" !in c.fields
    requires Field(c, "module") == Str(moduleName) && Field(c, "class_") == Str(cls)
    requires Field(c, "args") == List(args) && Field(c, "kwargs") == Dict(kwargs)
    requires moduleName in env.modules && cls in env.members(env.modules[moduleName])
    ensures Execute(env, c) == env.apply(env.members(env.modules[moduleName])[cls], args, kwargs)
  {
  }

  /** `Call` reads the method from the target object and calls it on the arguments. */
  lemma CallInvokes(env: Env, c: Command, target: Value, methodName: string, args: seq<Value>, kwargs: seq<(string, Value)>)
    requires c.kind == CallKind && "execute" !in c.fields
    requires Field(c, "object") == target && Field(c, "method") == Str(methodName)
    requires Field(c, "args") == List(args) && Field(c, "kwargs") == Dict(kwargs)
    requires methodName in env.members(target)
    ensures Execute(env, c) == env.apply(env.members(target)[methodName], args, kwargs)
  {
  }

  /**
   * `str(command)`: `Create` and `Call` print as `target.name(*args, **kwargs)`;
   * `Get` has no `__str__` and prints as the default object text.
   */
  function Describe(c: Command, addressText: Value -> string): string {
    match c.kind
    case CreateKind =>
      Show(Field(c, "module"), addressText) + "." + Show(Field(c, "class_"), addressText)
      + "(*" + Show(Field(c, "args"), addressText) + ", **" + Show(Field(c, "kwargs"), addressText) + ")"
    case CallKind =>
      Show(Field(c, "object"), addressText) + "." + Show(Field(c, "method"), addressText)
      + "(*" + Show(Field(c, "args"), addressText) + ", **" + Show(Field(c, "kwargs"), addressText) + ")"
    case GetKind => addressText(Cmd(c))
  }

  /**
   * The log line of a `Create` names its class unambiguously: the text before
   * the first `(` splits at its last `.` into the module and the class name,
   * provided neither contains `(` and the class name has no `.`.
   */
  lemma DescribeNamesCreate(c: Command, addressText: Value -> string, moduleName: string, cls: string)
    requires c.kind == CreateKind && "execute" !in c.fields
    requires Field(c, "module") == Str(moduleName) && Field(c, "class_") == Str(cls)
    requires '(' !in moduleName && '(' !in cls && '.' !in cls
    ensures var d := Describe(c, addressText);
      '(' in d && RSplitOnce(d[..IndexOf(d, '(')], '.') == [moduleName, cls]
  {
    var d := Describe(c, addressText);
    var head := moduleName + "." + cls;
    var tail := "(*" + Show(Field(c, "args"), addressText) + ", **" + Show(Field(c, "kwargs"), addressText) + ")";
    assert d == head + tail;
    assert tail[0] == '(';
    PrefixBeforeFirst(head, tail, '(');
    RSplitJoined(moduleName, cls, '.');
  }

  /**
   * The log line of a `Call` names the method it calls: the text before the
   * first `(` splits at its last `.` into the object's text and the method
   * name, provided neither contains `(` and the method name has no `.`.
   */
  lemma DescribeNamesCall(c: Command, addressText: Value -> string, methodName: string)
    requires c.kind == CallKind && Field(c, "method") == Str(methodName)
    requires '(' !in Show(Field(c, "object"), addressText) && '(' !in methodName && '.' !in methodName
    ensures var d := Describe(c, addressText);
      '(' in d && RSplitOnce(d[..IndexOf(d, '(')], '.') == [Show(Field(c, "object"), addressText), methodName]
  {
    var d := Describe(c, addressText);
    var objectText := Show(Field(c, "object"), addressText);
    var head := objectText + "." + methodName;
    var tail := "(*" + Show(Field(c, "args"), addressText) + ", **" + Show(Field(c, "kwargs"), addressText) + ")";
    assert d == head + tail;
    assert tail[0] == '(';
    PrefixBeforeFirst(head, tail, '(');
    RSplitJoined(objectText, methodName, '.');
  }
}
