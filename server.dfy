/**
 * The queue-consuming command server: the JSON object hook that turns
 * discriminator mappings into commands and markers into cached objects or
 * unpickled blobs, the per-message transition on the result cache, and the
 * consume loop.
 */
module Server {
  import opened Wrappers
  import opened Values
  import opened Commands

  /** `Kind(**value)` for the value found under a discriminator key. */
  function ConstructFrom(kind: Kind, v: Value): (r: Result<Value, Error>)
    ensures v.Dict? && Constructed(kind, v.entries).Ok? ==> r == Ok(Cmd(Constructed(kind, v.entries).value))
    ensures !v.Dict? || Constructed(kind, v.entries).Err? ==> r.Err?
  {
    if !v.Dict? then Err(TypeError("argument after ** must be a mapping"))
    else
      match Constructed(kind, v.entries)
      case Ok(c) => Ok(Cmd(c))
      case Err(e) => Err(e)
  }

  /** `self.cache[param]` for a `Promise` marker. */
  function ResolvePromise(cache: map<Value, Value>, id: Value): (r: Result<Value, Error>)
    ensures r.Ok? <==> Hashable(id) && id in cache
    ensures r.Ok? ==> r.value == cache[id]
    ensures Hashable(id) && id !in cache ==> r == Err(KeyError(id))
  {
    if !Hashable(id) then Err(TypeError("unhashable type: '" + TypeName(id) + "'"))
    else if id in cache then Ok(cache[id])
    else Err(KeyError(id))
  }

  /** `pickle.loads(base64.b64decode(param.encode("ascii")))`, the unpickled object kept opaque. */
  function DecodeBlob(param: Value): (r: Result<Value, Error>)
    ensures r.Ok? <==> param.Str?
    ensures r.Ok? ==> r.value == Blob(param.s)
  {
    if param.Str? then Ok(Blob(param.s)) else Err(AttributeError(TypeName(param), "encode"))
  }

  /** `Server.object_hook`: applied to every decoded JSON object, innermost first. */
  function ObjectHook(cache: map<Value, Value>, pairs: seq<(string, Value)>): Result<Value, Error> {
    if Lookup(pairs, "create").Some? then ConstructFrom(CreateKind, Lookup(pairs, "create").value)
    else if Lookup(pairs, "call").Some? then ConstructFrom(CallKind, Lookup(pairs, "call").value)
    else if Lookup(pairs, "get").Some? then ConstructFrom(GetKind, Lookup(pairs, "get").value)
    else if Lookup(pairs, "__jsonclass__").Some? then
      match Unpack2(Lookup(pairs, "__jsonclass__").value)
      case Err(e) => Err(e)
      case Ok((tag, param)) =>
        if tag == Str("Promise") then ResolvePromise(cache, param)
        else if tag == Str("PyObject") then DecodeBlob(param)
        else Ok(Dict(pairs))
    else Ok(Dict(pairs))
  }

  /** The discriminators in order of precedence: `create`, then `call`, then `get`, then `__jsonclass__`. */
  lemma HookPrecedence(cache: map<Value, Value>, pairs: seq<(string, Value)>)
    ensures "create" in Keys(pairs) ==> ObjectHook(cache, pairs) == ConstructFrom(CreateKind, Lookup(pairs, "create").value)
    ensures "create" !in Keys(pairs) && "call" in Keys(pairs) ==>
      ObjectHook(cache, pairs) == ConstructFrom(CallKind, Lookup(pairs, "call").value)
    ensures "create" !in Keys(pairs) && "call" !in Keys(pairs) && "get" in Keys(pairs) ==>
      ObjectHook(cache, pairs) == ConstructFrom(GetKind, Lookup(pairs, "get").value)
  {
  }

  /** A mapping with no discriminator, or a marker naming another constructor, comes back unchanged. */
  lemma HookPassesThrough(cache: map<Value, Value>, pairs: seq<(string, Value)>)
    requires forall key | key in ["create", "call", "get"] :: key !in Keys(pairs)
    requires "__jsonclass__" in Keys(pairs) ==>
      exists name, param :: Lookup(pairs, "__jsonclass__").value == List([Str(name), param])
        && name != "Promise" && name != "PyObject"
    ensures ObjectHook(cache, pairs) == Ok(Dict(pairs))
  {
    if "__jsonclass__" in Keys(pairs) {
      var name, param :| Lookup(pairs, "__jsonclass__").value == List([Str(name), param])
        && name != "Promise" && name != "PyObject";
      assert Unpack2(List([Str(name), param])) == Ok((Str(name), param));
    }
  }

  /** A mapping with none of the four discriminator keys comes back unchanged. */
  lemma HookPlain(cache: map<Value, Value>, pairs: seq<(string, Value)>)
    requires "create" !in Keys(pairs) && "call" !in Keys(pairs) && "get" !in Keys(pairs)
    requires "__jsonclass__" !in Keys(pairs)
    ensures ObjectHook(cache, pairs) == Ok(Dict(pairs))
  {
  }

  /** A `Promise` marker resolves to the cache entry for its id; an absent id raises `KeyError`. */
  lemma HookPromise(cache: map<Value, Value>, id: Value)
    requires Hashable(id)
    ensures id in cache ==> ObjectHook(cache, [("__jsonclass__", List([Str("Promise"), id]))]) == Ok(cache[id])
    ensures id !in cache ==> ObjectHook(cache, [("__jsonclass__", List([Str("Promise"), id]))]) == Err(KeyError(id))
  {
    var pairs := [("__jsonclass__", List([Str("Promise"), id]))];
    assert Lookup(pairs, "create").None? && Lookup(pairs, "call").None? && Lookup(pairs, "get").None?;
  }

  /** A `PyObject` marker unpickles its text parameter; any other parameter raises. */
  lemma HookBlob(cache: map<Value, Value>, param: Value)
    ensures param.Str? ==> ObjectHook(cache, [("__jsonclass__", List([Str("PyObject"), param]))]) == Ok(Blob(param.s))
    ensures !param.Str? ==> ObjectHook(cache, [("__jsonclass__", List([Str("PyObject"), param]))]).Err?
  {
    var pairs := [("__jsonclass__", List([Str("PyObject"), param]))];
    assert Lookup(pairs, "create").None? && Lookup(pairs, "call").None? && Lookup(pairs, "get").None?;
    assert Unpack2(List([Str("PyObject"), param])) == Ok((Str("PyObject"), param));
  }

  function Zip(keys: seq<string>, values: seq<Value>): (r: seq<(string, Value)>)
    requires |keys| == |values|
    ensures |r| == |keys| && forall k | 0 <= k < |keys| :: r[k] == (keys[k], values[k])
  {
    seq(|keys|, k requires 0 <= k < |keys| => (keys[k], values[k]))
  }

  function JsonKeys(members: seq<(string, Json)>): (r: seq<string>)
    ensures |r| == |members| && forall k | 0 <= k < |members| :: r[k] == members[k].0
  {
    seq(|members|, k requires 0 <= k < |members| => members[k].0)
  }

  /**
   * `json.JSONDecoder(object_hook=self.object_hook).decode(body)` on an
   * already parsed document: members are decoded in order, then the object's
   * dict is handed to the hook; the first exception aborts the decoding.
   */
  function DecodeJson(cache: map<Value, Value>, j: Json): Result<Value, Error> {
    match j
    case JNull => Ok(Nil)
    case JBool(b) => Ok(Bool(b))
    case JInt(i) => Ok(Int(i))
    case JStr(s) => Ok(Str(s))
    case JArray(items) =>
      var vs :- Collect(seq(|items|, k requires 0 <= k < |items| => DecodeJson(cache, items[k])));
      Ok(List(vs))
    case JObject(members) =>
      var vs :- Collect(seq(|members|, k requires 0 <= k < |members| => DecodeJson(cache, members[k].1)));
      ObjectHook(cache, DictFromPairs(Zip(JsonKeys(members), vs)))
  }

  /** An array whose items decode one by one decodes to the list of their values. */
  lemma DecodeArray(cache: map<Value, Value>, items: seq<Json>, vs: seq<Value>)
    requires |vs| == |items|
    requires forall k | 0 <= k < |items| :: DecodeJson(cache, items[k]) == Ok(vs[k])
    ensures DecodeJson(cache, JArray(items)) == Ok(List(vs))
  {
    var ds := Collect(seq(|items|, k requires 0 <= k < |items| => DecodeJson(cache, items[k])));
    assert ds.Ok? && ds.value == vs;
  }

  /** An object whose members decode one by one is handed to the hook as the dict of their values. */
  lemma DecodeObject(cache: map<Value, Value>, members: seq<(string, Json)>, vs: seq<Value>)
    requires |vs| == |members|
    requires forall k | 0 <= k < |members| :: DecodeJson(cache, members[k].1) == Ok(vs[k])
    ensures DecodeJson(cache, JObject(members)) == ObjectHook(cache, DictFromPairs(Zip(JsonKeys(members), vs)))
  {
    var ds := Collect(seq(|members|, k requires 0 <= k < |members| => DecodeJson(cache, members[k].1)));
    assert ds.Ok? && ds.value == vs;
  }

  /** A reply published to the queue named `routingKey`; `body` stands for `pickle.dumps(body)`. */
  datatype Reply = Reply(body: Value, correlationId: string, routingKey: string)

  /** A queue message: its JSON body and its `properties`. */
  datatype Delivery = Delivery(body: Json, properties: map<string, string>)

  /**
   * How handling one message ended: `Raised` escapes `data_received` (and so
   * stops the consume loop), `Failed` was caught and logged, `Done` finished.
   */
  datatype Outcome = Done | Failed(error: Error) | Raised(error: Error)

  datatype StepResult = StepResult(cache: map<Value, Value>, reply: Option<Reply>, outcome: Outcome)

  /** `Server.data_received` as a transition on the cache, with the reply it publishes. */
  function Step(env: Env, picklable: Value -> bool, cache: map<Value, Value>, d: Delivery): StepResult {
    match DecodeJson(cache, d.body)
    case Err(e) => StepResult(cache, None, Raised(e))
    case Ok(command) =>
      if !command.Cmd? then StepResult(cache, None, Failed(AttributeError(TypeName(command), "execute")))
      else
        var c := command.cmd;
        match Execute(env, c)
        case Err(e) => StepResult(cache, None, Failed(e))
        case Ok(result) =>
          var key := Field(c, "result");
          if !Hashable(key) then StepResult(cache, None, Failed(TypeError("unhashable type: '" + TypeName(key) + "'")))
          else
            var stored := cache[key := result];
            if !Truthy(Field(c, "return_result")) then StepResult(stored, None, Done)
            else if !picklable(result) then StepResult(stored, None, Raised(PicklingError("cannot pickle the result")))
            else if "correlation_id" !in d.properties then StepResult(stored, None, Raised(KeyError(Str("correlation_id"))))
            else if "reply_to" !in d.properties then StepResult(stored, None, Raised(KeyError(Str("reply_to"))))
            else StepResult(stored, Some(Reply(result, d.properties["correlation_id"], d.properties["reply_to"])), Done)
  }

  /** When the command runs and its result is stored, exactly that one cache entry changes. */
  lemma StepStoresResult(env: Env, picklable: Value -> bool, cache: map<Value, Value>, d: Delivery, c: Command, result: Value)
    requires DecodeJson(cache, d.body) == Ok(Cmd(c)) && Execute(env, c) == Ok(result)
    requires Hashable(Field(c, "result"))
    ensures var s := Step(env, picklable, cache, d);
      && s.cache.Keys == cache.Keys + {Field(c, "result")}
      && s.cache[Field(c, "result")] == result
      && forall k | k in cache && k != Field(c, "result") :: s.cache[k] == cache[k]
  {
  }

  /** When decoding or execution fails, the cache is unchanged and nothing is published. */
  lemma StepFailureKeepsCache(env: Env, picklable: Value -> bool, cache: map<Value, Value>, d: Delivery)
    requires DecodeJson(cache, d.body).Err?
      || (DecodeJson(cache, d.body).Ok? && DecodeJson(cache, d.body).value.Cmd?
          && Execute(env, DecodeJson(cache, d.body).value.cmd).Err?)
    ensures Step(env, picklable, cache, d).cache == cache
    ensures Step(env, picklable, cache, d).reply == None
    ensures Step(env, picklable, cache, d).outcome != Done
  {
  }

  /**
   * A reply is published exactly when the command ran, its result was stored
   * and `return_result` is true; it echoes the request's correlation id and
   * goes to its `reply_to` queue.
   */
  lemma StepReplyIff(env: Env, picklable: Value -> bool, cache: map<Value, Value>, d: Delivery)
    ensures var s := Step(env, picklable, cache, d);
      s.reply.Some? <==>
        (&& DecodeJson(cache, d.body).Ok? && DecodeJson(cache, d.body).value.Cmd?
         && var c := DecodeJson(cache, d.body).value.cmd;
         && Execute(env, c).Ok? && Hashable(Field(c, "result"))
         && Truthy(Field(c, "return_result")) && picklable(Execute(env, c).value)
         && "correlation_id" in d.properties && "reply_to" in d.properties)
    ensures var s := Step(env, picklable, cache, d);
      s.reply.Some? ==>
        && s.reply.value.correlationId == d.properties["correlation_id"]
        && s.reply.value.routingKey == d.properties["reply_to"]
        && s.reply.value.body == s.cache[Field(DecodeJson(cache, d.body).value.cmd, "result")]
  {
  }

  /** Handling a message never removes a cache entry. */
  lemma StepKeepsKeys(env: Env, picklable: Value -> bool, cache: map<Value, Value>, d: Delivery)
    ensures cache.Keys <= Step(env, picklable, cache, d).cache.Keys
  {
    match DecodeJson(cache, d.body)
    case Err(_) =>
    case Ok(command) =>
      if command.Cmd? {
        match Execute(env, command.cmd)
        case Err(_) =>
        case Ok(result) =>
          var key := Field(command.cmd, "result");
          assert cache.Keys <= cache[key := result].Keys;
      }
  }

  function ReplySeq(reply: Option<Reply>): seq<Reply> {
    if reply.Some? then [reply.value] else []
  }

  datatype ServeResult = ServeResult(cache: map<Value, Value>, replies: seq<Reply>, consumed: nat, stoppedBy: Option<Error>)

  /**
   * `Server.start`: messages are handled one at a time in arrival order; an
   * exception escaping `data_received` ends the loop.
   */
  function Serve(env: Env, picklable: Value -> bool, cache: map<Value, Value>, ds: seq<Delivery>): (r: ServeResult)
    ensures r.consumed <= |ds|
    ensures r.stoppedBy.None? ==> r.consumed == |ds|
    ensures cache.Keys <= r.cache.Keys
    decreases |ds|
  {
    if ds == [] then ServeResult(cache, [], 0, None)
    else
      var s := Step(env, picklable, cache, ds[0]);
      StepKeepsKeys(env, picklable, cache, ds[0]);
      if s.outcome.Raised? then ServeResult(s.cache, ReplySeq(s.reply), 1, Some(s.outcome.error))
      else
        var rest := Serve(env, picklable, s.cache, ds[1..]);
        ServeResult(rest.cache, ReplySeq(s.reply) + rest.replies, 1 + rest.consumed, rest.stoppedBy)
  }

  /** A run that has already consumed `consumed` messages and published `sent`, continued by `tail`. */
  function Resume(sent: seq<Reply>, consumed: nat, tail: ServeResult): ServeResult {
    ServeResult(tail.cache, sent + tail.replies, consumed + tail.consumed, tail.stoppedBy)
  }

  lemma ResumeTwice(sent: seq<Reply>, consumed: nat, more: seq<Reply>, n: nat, tail: ServeResult)
    ensures Resume(sent, consumed, Resume(more, n, tail)) == Resume(sent + more, consumed + n, tail)
  {
    assert sent + (more + tail.replies) == (sent + more) + tail.replies;
  }

  /** One step of `Serve`: the first message is handled, then the rest unless it raised. */
  lemma ServeUnfold(env: Env, picklable: Value -> bool, cache: map<Value, Value>, ds: seq<Delivery>)
    requires ds != []
    ensures var s := Step(env, picklable, cache, ds[0]);
      Serve(env, picklable, cache, ds) ==
        if s.outcome.Raised? then ServeResult(s.cache, ReplySeq(s.reply), 1, Some(s.outcome.error))
        else Resume(ReplySeq(s.reply), 1, Serve(env, picklable, s.cache, ds[1..]))
  {
  }

  /** Every reply of a run answers a message that was consumed: there are never more replies than messages. */
  lemma {:induction false} ServeRepliesBounded(env: Env, picklable: Value -> bool, cache: map<Value, Value>, ds: seq<Delivery>)
    ensures |Serve(env, picklable, cache, ds).replies| <= Serve(env, picklable, cache, ds).consumed
    decreases |ds|
  {
    if ds != [] {
      var s := Step(env, picklable, cache, ds[0]);
      if !s.outcome.Raised? {
        ServeRepliesBounded(env, picklable, s.cache, ds[1..]);
      }
    }
  }

  /** The server: its result cache and the replies it has published. */
  class QueueServer {
    const env: Env
    const picklable: Value -> bool
    /** The module-level `cache` of the server's module, shared with every `Promise`. */
    const promises: PromiseModule
    var cache: map<Value, Value>
    var published: seq<Reply>

    constructor (env: Env, picklable: Value -> bool, promises: PromiseModule)
      ensures this.env == env && this.picklable == picklable && this.promises == promises
      ensures cache == map[] && published == []
    {
      this.env := env;
      this.picklable := picklable;
      this.promises := promises;
      cache := map[];
      published := [];
    }

    /** `data_received`: decode, execute, store the result, reply if asked to. */
    method DataReceived(d: Delivery) returns (outcome: Outcome)
      modifies this
      ensures var s := Step(env, picklable, old(cache), d);
        cache == s.cache && published == old(published) + ReplySeq(s.reply) && outcome == s.outcome
      ensures unchanged(promises)
    {
      var decoded := DecodeJson(cache, d.body);
      if decoded.Err? {
        return Raised(decoded.error);
      }
      var command := decoded.value;
      if !command.Cmd? {
        return Failed(AttributeError(TypeName(command), "execute"));
      }
      var executed := Execute(env, command.cmd);
      if executed.Err? {
        return Failed(executed.error);
      }
      var result := executed.value;
      var key := Field(command.cmd, "result");
      if !Hashable(key) {
        return Failed(TypeError("unhashable type: '" + TypeName(key) + "'"));
      }
      cache := cache[key := result];

      if Truthy(Field(command.cmd, "return_result")) {
        if !picklable(result) {
          return Raised(PicklingError("cannot pickle the result"));
        }
        if "correlation_id" !in d.properties {
          return Raised(KeyError(Str("correlation_id")));
        }
        if "reply_to" !in d.properties {
          return Raised(KeyError(Str("reply_to")));
        }
        published := published + [Reply(result, d.properties["correlation_id"], d.properties["reply_to"])];
      }
      return Done;
    }

    /** `start`: consume messages until one raises or none are left. */
    method Start(ds: seq<Delivery>) returns (consumed: nat, stoppedBy: Option<Error>)
      modifies this
      ensures var r := Serve(env, picklable, old(cache), ds);
        && cache == r.cache && published == old(published) + r.replies
        && consumed == r.consumed && stoppedBy == r.stoppedBy
      ensures unchanged(promises)
    {
      consumed, stoppedBy := 0, None;
      ghost var sent: seq<Reply> := [];
      while consumed < |ds|
        invariant consumed <= |ds|
        invariant published == old(published) + sent
        invariant Serve(env, picklable, old(cache), ds) == Resume(sent, consumed, Serve(env, picklable, cache, ds[consumed..]))
        decreases |ds| - consumed
      {
        ghost var step := Step(env, picklable, cache, ds[consumed]);
        ServeUnfold(env, picklable, cache, ds[consumed..]);
        assert ds[consumed..][1..] == ds[consumed + 1..];
        var outcome := DataReceived(ds[consumed]);
        if !outcome.Raised? {
          ResumeTwice(sent, consumed, ReplySeq(step.reply), 1, Serve(env, picklable, cache, ds[consumed + 1..]));
        }
        sent := sent + ReplySeq(step.reply);
        consumed := consumed + 1;
        if outcome.Raised? {
          return consumed, Some(outcome.error);
        }
      }
    }
  }

  /** The module-level `cache` that `Promise` reads: created empty when the module is imported. */
  class PromiseModule {
    var cache: map<Value, Value>

    constructor ()
      ensures cache == map[]
    {
      cache := map[];
    }
  }

  /** `Promise.ready(id)`: `id in cache` on the module-level `cache`, which raises `TypeError` for an unhashable id. */
  function PromiseReady(moduleCache: map<Value, Value>, id: Value): (r: Result<bool, Error>)
    ensures r.Ok? <==> Hashable(id)
    ensures r.Ok? ==> (r.value <==> id in moduleCache)
  {
    if !Hashable(id) then Err(TypeError("unhashable type: '" + TypeName(id) + "'"))
    else Ok(id in moduleCache)
  }

  /** `Promise.get(id)`: `cache[id]` on the module-level `cache`. */
  function PromiseGet(moduleCache: map<Value, Value>, id: Value): (r: Result<Value, Error>)
    ensures r.Ok? <==> PromiseReady(moduleCache, id) == Ok(true)
    ensures r.Ok? ==> r.value == moduleCache[id]
    ensures PromiseReady(moduleCache, id) == Ok(false) ==> r == Err(KeyError(id))
    ensures PromiseReady(moduleCache, id).Err? ==> r == Err(PromiseReady(moduleCache, id).error)
  {
    if !Hashable(id) then Err(TypeError("unhashable type: '" + TypeName(id) + "'"))
    else if id in moduleCache then Ok(moduleCache[id])
    else Err(KeyError(id))
  }

  /**
   * However many messages a freshly imported server consumes, no `Promise`
   * becomes ready, not even for a result id the server has stored: the
   * server writes its own `self.cache`, never the module-level `cache`.
   */
  method ServeThenAskPromise(server: QueueServer, ds: seq<Delivery>, id: Value) returns (ready: Result<bool, Error>)
    requires server.promises.cache == map[]
    modifies server
    ensures ready.Ok? <==> Hashable(id)
    ensures ready != Ok(true)
    ensures Hashable(id) && id in server.cache ==> ready == Ok(false)
  {
    var consumed, stoppedBy := server.Start(ds);
    ready := PromiseReady(server.promises.cache, id);
  }
}
