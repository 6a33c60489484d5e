/**
 * The client side of the protocol: the requests `execute_on_server` and
 * `fetch_from_server` send, and the proxy operations built on them —
 * instantiating a proxied class, reading a member, calling a wrapped
 * function, fetching a result and the anonymous proxies that stand for
 * results still on the server. The HTTP exchange itself is an oracle.
 */
module Client {
  import opened Wrappers
  import opened Values
  import opened Commands
  import opened Server
  import opened Remote

  /** What the client sends: a POST of an encoded command, or a GET of a result by its id. */
  datatype Request =
    | Post(address: (string, Port), path: string, body: Json)
    | Fetch(address: (string, Port), id: PyValue)

  /**
   * The request `execute_on_server(server_method, **params)` sends to
   * `address`, what `get_server_address()` gave: the envelope is encoded
   * first, so an unencodable argument fails even when the address is bad;
   * the path is the server method.
   */
  function PostRequest(address: Result<(string, Port), Error>, serverMethod: string, params: seq<(string, PyValue)>): (r: Result<Request, Error>)
    ensures Encode(Envelope(serverMethod, params)).Err? ==> r == Err(Encode(Envelope(serverMethod, params)).error)
    ensures r.Ok? <==> Encode(Envelope(serverMethod, params)).Ok? && address.Ok?
    ensures r.Ok? ==> r.value == Post(address.value, serverMethod, Encode(Envelope(serverMethod, params)).value)
  {
    var body :- Encode(Envelope(serverMethod, params));
    var to :- address;
    Ok(Post(to, serverMethod, body))
  }

  /** The request `fetch_from_server(object_id)` sends: a GET of the id at `address`. */
  function FetchRequest(address: Result<(string, Port), Error>, id: PyValue): (r: Result<Request, Error>)
    ensures r.Ok? <==> address.Ok?
    ensures r.Ok? ==> r.value == Fetch(address.value, id)
  {
    var to :- address;
    Ok(Fetch(to, id))
  }

  /** The attributes `Proxy.__getattr__` refuses locally, so that pickling does not reach the server. */
  const PicklingNames: set<string> := {"__getnewargs__", "__getstate__", "__setstate__"}

  /** The attributes an `AnonymousProxy` answers itself. */
  const AnonymousOwnNames: set<string> := {"__id__", "get"}

  /** `kwargs[key]` for the keyword arguments of a call. */
  function KeywordLookup(kwargs: seq<(string, PyValue)>, key: string): (r: Option<PyValue>)
    ensures r.Some? <==> exists k | 0 <= k < |kwargs| :: kwargs[k].0 == key
    ensures r.Some? ==> (key, r.value) in kwargs
  {
    if kwargs == [] then None
    else if kwargs[0].0 == key then Some(kwargs[0].1)
    else KeywordLookup(kwargs[1..], key)
  }

  /** The keyword arguments without `key`, the others in their order. */
  function WithoutKeyword(kwargs: seq<(string, PyValue)>, key: string): (r: seq<(string, PyValue)>)
    ensures forall p :: p in r <==> p in kwargs && p.0 != key
  {
    if kwargs == [] then []
    else if kwargs[0].0 == key then WithoutKeyword(kwargs[1..], key)
    else [kwargs[0]] + WithoutKeyword(kwargs[1..], key)
  }

  /** What the `AnonymousProxy.__getattribute__` of the package yields for an attribute name. */
  datatype Attribute =
    | OwnAttribute(name: string)       // the proxy's own `__id__` or `get`
    | RemoteFunction(name: string)     // `wrapped_function(name, ...)`, not bound to the proxy

  function AnonymousAttribute(item: string): (r: Attribute)
    ensures r.name == item
    ensures r.OwnAttribute? <==> item in AnonymousOwnNames
  {
    if item in AnonymousOwnNames then OwnAttribute(item) else RemoteFunction(item)
  }

  /** The arguments of a call of `function(self, *args, **kwargs)` once Python has bound them. */
  datatype Bound = Bound(self: PyValue, args: seq<PyValue>, kwargs: seq<(string, PyValue)>)

  /**
   * How Python binds a call of the unbound `function(self, *args, **kwargs)`:
   * `self` is the first positional argument, or else the `self` keyword;
   * with neither, or with both, the call raises `TypeError`.
   */
  function BindSelf(args: seq<PyValue>, kwargs: seq<(string, PyValue)>): (r: Result<Bound, Error>)
    ensures r.Ok? <==> (|args| > 0) != KeywordLookup(kwargs, "self").Some?
    ensures r.Ok? && |args| > 0 ==> args == [r.value.self] + r.value.args && r.value.kwargs == kwargs
    ensures r.Ok? && |args| == 0 ==>
      && ("self", r.value.self) in kwargs && r.value.args == []
      && forall p :: p in r.value.kwargs <==> p in kwargs && p.0 != "self"
  {
    if |args| > 0 then
      if KeywordLookup(kwargs, "self").Some? then Err(TypeError("got multiple values for argument 'self'"))
      else Ok(Bound(args[0], args[1..], kwargs))
    else
      match KeywordLookup(kwargs, "self")
      case Some(s) => Ok(Bound(s, [], WithoutKeyword(kwargs, "self")))
      case None => Err(TypeError("missing 1 required positional argument: 'self'"))
  }

  /**
   * As written, `anon.name(*args)` calls the unbound remote function: the
   * anonymous proxy is never the target. Without arguments the call raises
   * before anything is sent, and `anon.name(x)` asks the server to call
   * `name` on `x`, with no arguments.
   */
  lemma AnonymousCallDropsProxy(anonId: PyValue, name: string, x: PyValue)
    ensures AnonymousAttribute(name).RemoteFunction? <==> name !in AnonymousOwnNames
    ensures BindSelf([], []).Err?
    ensures BindSelf([x], []) == Ok(Bound(x, [], []))
    ensures CallParams(x, name, [], []) != CallParams(PProxy(anonId), name, [x], [])
  {
    assert CallParams(x, name, [], [])[2] != CallParams(PProxy(anonId), name, [x], [])[2];
  }

  /**
   * A client process: the server address its `ORANGE_SERVER` setting
   * names, the server's answers, and the requests sent so far.
   * `respond(n, req)` is what the server answers to the `n`-th request,
   * already decoded from its body.
   */
  class Session {
    const address: Result<(string, Port), Error>
    const respond: (nat, Request) -> PyValue
    var sent: seq<Request>

    /** Every request went to the configured server. */
    ghost predicate Valid()
      reads this
    {
      forall k | 0 <= k < |sent| :: address == Ok(sent[k].address)
    }

    constructor (setting: Option<string>, respond: (nat, Request) -> PyValue)
      ensures address == ServerAddress(setting) && this.respond == respond
      ensures sent == [] && Valid()
    {
      address := ServerAddress(setting);
      this.respond := respond;
      sent := [];
    }

    /** `execute_on_server`: post the command and return the server's answer, the new object's id. */
    method ExecuteOnServer(serverMethod: string, params: seq<(string, PyValue)>) returns (r: Result<PyValue, Error>)
      requires Valid()
      modifies this
      ensures Valid()
      ensures match PostRequest(address, serverMethod, params)
        case Ok(req) => sent == old(sent) + [req] && r == Ok(respond(|old(sent)|, req))
        case Err(e) => sent == old(sent) && r == Err(e)
    {
      match PostRequest(address, serverMethod, params)
      case Err(e) =>
        r := Err(e);
      case Ok(req) =>
        r := Ok(respond(|sent|, req));
        sent := sent + [req];
    }

    /** `fetch_from_server`: get the value stored under an id. */
    method FetchFromServer(id: PyValue) returns (r: Result<PyValue, Error>)
      requires Valid()
      modifies this
      ensures Valid()
      ensures match FetchRequest(address, id)
        case Ok(req) => sent == old(sent) + [req] && r == Ok(respond(|old(sent)|, req))
        case Err(e) => sent == old(sent) && r == Err(e)
    {
      match FetchRequest(address, id)
      case Err(e) =>
        r := Err(e);
      case Ok(req) =>
        r := Ok(respond(|sent|, req));
        sent := sent + [req];
    }

    /**
     * `Proxy.__new__`: an `__id__` keyword wraps an existing server object
     * without contacting the server; otherwise the class is instantiated
     * remotely and the proxy holds the id the server answers.
     */
    method Instantiate(moduleName: string, cls: string, args: seq<PyValue>, kwargs: seq<(string, PyValue)>)
      returns (r: Result<PyValue, Error>)
      requires Valid()
      modifies this
      ensures Valid()
      ensures KeywordLookup(kwargs, "__id__").Some? ==>
        sent == old(sent) && r == Ok(PProxy(KeywordLookup(kwargs, "__id__").value))
      ensures KeywordLookup(kwargs, "__id__").None? ==>
        match PostRequest(address, "create", CreateParams(moduleName, cls, args, kwargs))
        case Ok(req) => sent == old(sent) + [req] && r == Ok(PProxy(respond(|old(sent)|, req)))
        case Err(e) => sent == old(sent) && r == Err(e)
    {
      match KeywordLookup(kwargs, "__id__")
      case Some(id) =>
        r := Ok(PProxy(id));
      case None =>
        var id :- ExecuteOnServer("create", CreateParams(moduleName, cls, args, kwargs));
        r := Ok(PProxy(id));
    }

    /** `wrapped_member(name, ...).fget(self)`: the member is read remotely and stands as an anonymous proxy. */
    method ReadMember(self: PyValue, name: string) returns (r: Result<PyValue, Error>)
      requires Valid()
      modifies this
      ensures Valid()
      ensures match PostRequest(address, "call", MemberParams(self, name))
        case Ok(req) => sent == old(sent) + [req] && r == Ok(PProxy(respond(|old(sent)|, req)))
        case Err(e) => sent == old(sent) && r == Err(e)
    {
      var id :- ExecuteOnServer("call", MemberParams(self, name));
      r := Ok(PProxy(id));
    }

    /** `Proxy.__getattr__`: the pickling hooks raise a bare `AttributeError` locally; any other name is read remotely. */
    method GetAttribute(self: PyValue, name: string) returns (r: Result<PyValue, Error>)
      requires Valid()
      modifies this
      ensures Valid()
      ensures name in PicklingNames ==> sent == old(sent) && r == Err(AttributeError("", ""))
      ensures name !in PicklingNames ==>
        match PostRequest(address, "call", MemberParams(self, name))
        case Ok(req) => sent == old(sent) + [req] && r == Ok(PProxy(respond(|old(sent)|, req)))
        case Err(e) => sent == old(sent) && r == Err(e)
    {
      if name in PicklingNames {
        r := Err(AttributeError("", ""));
      } else {
        r := ReadMember(self, name);
      }
    }

    /**
     * The member read as the server can decode it: a `get` command. See
     * `Remote.MemberReadArrives` for what the server then does.
     */
    method ReadMemberAsGet(self: PyValue, name: string) returns (r: Result<PyValue, Error>)
      requires Valid()
      modifies this
      ensures Valid()
      ensures match PostRequest(address, "get", MemberParams(self, name))
        case Ok(req) => sent == old(sent) + [req] && r == Ok(PProxy(respond(|old(sent)|, req)))
        case Err(e) => sent == old(sent) && r == Err(e)
    {
      var id :- ExecuteOnServer("get", MemberParams(self, name));
      r := Ok(PProxy(id));
    }

    /**
     * A wrapped function called as `self.name(*args, **kwargs)`: `__init__`
     * returns `None` without contacting the server; any other name posts a
     * `call`, and a synchronous function then fetches the result while an
     * asynchronous one returns an anonymous proxy for it.
     */
    method CallFunction(self: PyValue, name: string, args: seq<PyValue>, kwargs: seq<(string, PyValue)>, synchronous: bool)
      returns (r: Result<PyValue, Error>)
      requires Valid()
      modifies this
      ensures Valid()
      ensures name == "__init__" ==> sent == old(sent) && r == Ok(PNone)
      ensures name != "__init__" ==>
        match PostRequest(address, "call", CallParams(self, name, args, kwargs))
        case Err(e) => sent == old(sent) && r == Err(e)
        case Ok(req) =>
          var id := respond(|old(sent)|, req);
          if !synchronous then sent == old(sent) + [req] && r == Ok(PProxy(id))
          else
            var get := FetchRequest(address, id).value;
            sent == old(sent) + [req, get] && r == Ok(respond(|old(sent)| + 1, get))
    {
      if name == "__init__" {
        return Ok(PNone);
      }
      if synchronous {
        r := PostThenFetch("call", CallParams(self, name, args, kwargs));
      } else {
        var id :- ExecuteOnServer("call", CallParams(self, name, args, kwargs));
        r := Ok(PProxy(id));
      }
    }

    /** `Proxy.get`: fetch the value behind a proxy. */
    method Get(self: PyValue) returns (r: Result<PyValue, Error>)
      requires self.PProxy? && Valid()
      modifies this
      ensures Valid()
      ensures match FetchRequest(address, self.id)
        case Ok(req) => sent == old(sent) + [req] && r == Ok(respond(|old(sent)|, req))
        case Err(e) => sent == old(sent) && r == Err(e)
    {
      r := FetchFromServer(self.id);
    }

    /** `str(proxy)` in the older module: a `call` of `__str__` without arguments, then a fetch of its result. */
    method LegacyStr(self: PyValue) returns (r: Result<PyValue, Error>)
      requires Valid()
      modifies this
      ensures Valid()
      ensures match PostRequest(address, "call", StrParams(self))
        case Err(e) => sent == old(sent) && r == Err(e)
        case Ok(req) =>
          var get := FetchRequest(address, respond(|old(sent)|, req)).value;
          sent == old(sent) + [req, get] && r == Ok(respond(|old(sent)| + 1, get))
    {
      r := PostThenFetch("call", StrParams(self));
    }

    /** A synchronous call: post the command, then fetch the result stored under the id the server answers. */
    method PostThenFetch(serverMethod: string, params: seq<(string, PyValue)>) returns (r: Result<PyValue, Error>)
      requires Valid()
      modifies this
      ensures Valid()
      ensures match PostRequest(address, serverMethod, params)
        case Err(e) => sent == old(sent) && r == Err(e)
        case Ok(req) =>
          var get := FetchRequest(address, respond(|old(sent)|, req)).value;
          sent == old(sent) + [req, get] && r == Ok(respond(|old(sent)| + 1, get))
    {
      var id :- ExecuteOnServer(serverMethod, params);
      r := FetchFromServer(id);
    }

    /**
     * `anon.name(*args, **kwargs)` as written: the attribute is the unbound
     * remote function, so Python binds its `self` from the arguments.
     */
    method CallAnonymousAttribute(name: string, args: seq<PyValue>, kwargs: seq<(string, PyValue)>)
      returns (r: Result<PyValue, Error>)
      requires name !in AnonymousOwnNames && Valid()
      modifies this
      ensures Valid()
      ensures BindSelf(args, kwargs).Err? ==> sent == old(sent) && r == Err(BindSelf(args, kwargs).error)
      ensures BindSelf(args, kwargs).Ok? && name != "__init__" ==>
        var b := BindSelf(args, kwargs).value;
        match PostRequest(address, "call", CallParams(b.self, name, b.args, b.kwargs))
        case Ok(req) => sent == old(sent) + [req] && r == Ok(PProxy(respond(|old(sent)|, req)))
        case Err(e) => sent == old(sent) && r == Err(e)
    {
      var b :- BindSelf(args, kwargs);
      r := CallFunction(b.self, name, b.args, b.kwargs, false);
    }

    /** `anon.name(*args, **kwargs)` with the remote function bound to the anonymous proxy. */
    method CallAnonymousMethod(anonId: PyValue, name: string, args: seq<PyValue>, kwargs: seq<(string, PyValue)>)
      returns (r: Result<PyValue, Error>)
      requires name !in AnonymousOwnNames && Valid()
      modifies this
      ensures Valid()
      ensures name != "__init__" ==>
        match PostRequest(address, "call", CallParams(PProxy(anonId), name, args, kwargs))
        case Ok(req) => sent == old(sent) + [req] && r == Ok(PProxy(respond(|old(sent)|, req)))
        case Err(e) => sent == old(sent) && r == Err(e)
    {
      r := CallFunction(PProxy(anonId), name, args, kwargs, false);
    }
  }

  /**
   * Bound to the anonymous proxy, a method call reaches the server as a
   * `Call` on the object cached under the proxy's id.
   */
  lemma AnonymousMethodArrives(env: Env, cache: map<Value, Value>, anonId: PyValue, name: string,
                               args: seq<PyValue>, kwargs: seq<(string, PyValue)>)
    requires Received(cache, PProxy(anonId)).Some?
    requires Received(cache, PTuple(args)).Some? && Received(cache, PDict(kwargs)).Some?
    ensures Received(cache, PProxy(anonId)).value == cache[Received(cache, anonId).value]
    ensures Encode(Envelope("call", CallParams(PProxy(anonId), name, args, kwargs))).Ok?
    ensures var d := DecodeJson(cache, Encode(Envelope("call", CallParams(PProxy(anonId), name, args, kwargs))).value);
      var target := cache[Received(cache, anonId).value];
      var ra := Received(cache, PTuple(args)).value;
      var rk := Received(cache, PDict(kwargs)).value;
      && d.Ok? && d.value.Cmd? && d.value.cmd.kind == CallKind && ra.List? && rk.Dict?
      && (name in env.members(target) ==>
            Execute(env, d.value.cmd) == env.apply(env.members(target)[name], ra.items, rk.entries))
  {
    CallArrives(env, cache, PProxy(anonId), name, args, kwargs);
  }

  /**
   * The two renderings of a proxy agree on the server: the older
   * `Proxy.__str__` sends no `args` or `kwargs` and the `Call` defaults
   * fill them in, while the package's `AnonymousProxy.__str__` sends
   * empty ones; both run `__str__` of the same object on no arguments.
   */
  lemma StrVariantsAgree(env: Env, cache: map<Value, Value>, self: PyValue)
    requires Received(cache, self).Some?
    ensures Encode(Envelope("call", StrParams(self))).Ok?
    ensures Encode(Envelope("call", CallParams(self, "__str__", [], []))).Ok?
    ensures var legacy := DecodeJson(cache, Encode(Envelope("call", StrParams(self))).value);
      var package := DecodeJson(cache, Encode(Envelope("call", CallParams(self, "__str__", [], []))).value);
      && legacy.Ok? && legacy.value.Cmd? && package.Ok? && package.value.Cmd?
      && Execute(env, legacy.value.cmd) == Execute(env, package.value.cmd)
  {
    var target := Received(cache, self).value;
    LegacyStrCommand(cache, self);
    PackageStrCommand(cache, self);
    assert "execute" !in DecodeJson(cache, Encode(Envelope("call", StrParams(self))).value).value.cmd.fields;
    assert "execute" !in DecodeJson(cache, Encode(Envelope("call", CallParams(self, "__str__", [], []))).value).value.cmd.fields;
  }

  /** The older `__str__` message decodes to a `Call` whose arguments are the class defaults. */
  lemma LegacyStrCommand(cache: map<Value, Value>, self: PyValue)
    requires Received(cache, self).Some?
    ensures Encode(Envelope("call", StrParams(self))).Ok?
    ensures var d := DecodeJson(cache, Encode(Envelope("call", StrParams(self))).value);
      && d.Ok? && d.value.Cmd? && d.value.cmd.kind == CallKind
      && "execute" !in d.value.cmd.fields
      && Field(d.value.cmd, "object") == Received(cache, self).value && Field(d.value.cmd, "method") == Str("__str__")
      && Field(d.value.cmd, "args") == Tuple([]) && Field(d.value.cmd, "kwargs") == Dict([])
  {
    var entries := StrParams(self);
    var vs := [Received(cache, self).value, Str("__str__")];
    ReceivedEntries(cache, entries, vs);
    assert seq(2, k requires 0 <= k < 2 => (entries[k].0, vs[k])) == [("object", vs[0]), ("method", vs[1])];
    EnvelopeArrives(cache, CallKind, entries);
    CallDefaultArguments(vs[0], "__str__");
  }

  /** The package's `__str__` message decodes to a `Call` with empty arguments. */
  lemma PackageStrCommand(cache: map<Value, Value>, self: PyValue)
    requires Received(cache, self).Some?
    ensures Encode(Envelope("call", CallParams(self, "__str__", [], []))).Ok?
    ensures var d := DecodeJson(cache, Encode(Envelope("call", CallParams(self, "__str__", [], []))).value);
      && d.Ok? && d.value.Cmd? && d.value.cmd.kind == CallKind
      && "execute" !in d.value.cmd.fields
      && Field(d.value.cmd, "object") == Received(cache, self).value && Field(d.value.cmd, "method") == Str("__str__")
      && Field(d.value.cmd, "args") == List([]) && Field(d.value.cmd, "kwargs") == Dict([])
  {
    ReceivedEmpty(cache);
    CallDecodes(cache, self, "__str__", [], []);
  }
}
