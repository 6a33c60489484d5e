/**
 * The client side of the remote protocol: where the server is, how
 * arguments are encoded into JSON with reference and blob markers, and what
 * proxy objects send when they are created, called or asked for a member.
 * The package `Orange/remote/proxy.py` and the older `Orange/remote.py`
 * share these rules; where they differ, both variants are modelled.
 */
module Remote {
  import opened Wrappers
  import opened Text
  import opened Values
  import opened Commands
  import opened Server

  const DefaultHost: string := "127.0.0.1"
  const DefaultPort: int := 9465

  /** The port is the text after the colon when one is given, else the number 9465. */
  datatype Port = PortText(text: string) | PortNumber(number: int)

  /** `get_server_address()`, with `setting` the value of `ORANGE_SERVER` if it is set. */
  function ServerAddress(setting: Option<string>): (r: Result<(string, Port), Error>)
    ensures setting.Some? && ':' !in setting.value ==> r == Ok((setting.value, PortNumber(DefaultPort)))
  {
    HostAddress(if setting.Some? then setting.value else DefaultHost)
  }

  /** The address named by `hostname`: split at its colon, or on the default port without one. */
  function HostAddress(hostname: string): (r: Result<(string, Port), Error>)
    ensures ':' !in hostname ==> r == Ok((hostname, PortNumber(DefaultPort)))
  {
    if ':' in hostname then
      var parts := Split(hostname, ':');
      if |parts| == 2 then Ok((parts[0], PortText(parts[1])))
      else Err(ValueError("too many values to unpack (expected 2)"))
    else Ok((hostname, PortNumber(DefaultPort)))
  }

  /** Without `ORANGE_SERVER` the server is the local one on port 9465. */
  lemma DefaultAddress()
    ensures ServerAddress(None) == Ok((DefaultHost, PortNumber(DefaultPort)))
  {
    assert forall k | 0 <= k < |DefaultHost| :: DefaultHost[k] != ':';
  }

  /** With one colon the host is the text before it and the port the text after it. */
  lemma AddressSplitsAtColon(text: string)
    requires ':' in text && ':' !in text[IndexOf(text, ':') + 1..]
    ensures var i := IndexOf(text, ':');
      ServerAddress(Some(text)) == Ok((text[..i], PortText(text[i + 1..])))
      && text[..i] + [':'] + text[i + 1..] == text
  {
    assert ServerAddress(Some(text)) == HostAddress(text);
    SplitPair(text, ':');
  }

  /** The address is an error exactly when the setting holds two or more colons. */
  lemma AddressFailsOnTwoColons(text: string)
    ensures ServerAddress(Some(text)).Err? <==>
      exists i, j | 0 <= i < j < |text| :: text[i] == ':' && text[j] == ':'
  {
    assert ServerAddress(Some(text)) == HostAddress(text);
    if ':' in text {
      var i := IndexOf(text, ':');
      SplitPair(text, ':');
      if ':' in text[i + 1..] {
        var j := IndexOf(text[i + 1..], ':');
        assert text[i] == ':' && text[i + 1 + j] == ':';
      } else {
        forall a, b | 0 <= a < b < |text| && text[a] == ':'
          ensures text[b] != ':'
        {
          assert a >= i;
          assert text[b] == text[i + 1..][b - i - 1];
        }
      }
    }
  }

  /** A value on the client. */
  datatype PyValue =
    | PNone
    | PBool(b: bool)
    | PInt(i: int)
    | PStr(s: string)
    | PList(items: seq<PyValue>)
    | PTuple(items: seq<PyValue>)
    | PDict(entries: seq<(string, PyValue)>)   // a dict with string keys, in insertion order
    | PProxy(id: PyValue)                      // a `Proxy` or `AnonymousProxy` and its `__id__`
    | PArray(encoded: string)                  // an ndarray, by the base64 text of its pickle
    | POther(typeName: string)                 // anything else JSON cannot represent

  /** `{"__jsonclass__": (tag, param)}`, the marker `ProxyEncoder.default` emits. */
  function Marker(tag: string, param: Json): Json {
    JObject([("__jsonclass__", JArray([JStr(tag), param]))])
  }

  /**
   * `ProxyEncoder().encode(v)`: JSON values map to themselves (tuples become
   * arrays), a proxy to a `Promise` marker around its id, an ndarray to a
   * `PyObject` marker around its pickle, and anything else raises.
   */
  function Encode(v: PyValue): Result<Json, Error> {
    match v
    case PNone => Ok(JNull)
    case PBool(b) => Ok(JBool(b))
    case PInt(i) => Ok(JInt(i))
    case PStr(s) => Ok(JStr(s))
    case PList(items) =>
      var js :- Collect(seq(|items|, k requires 0 <= k < |items| => Encode(items[k])));
      Ok(JArray(js))
    case PTuple(items) =>
      var js :- Collect(seq(|items|, k requires 0 <= k < |items| => Encode(items[k])));
      Ok(JArray(js))
    case PDict(entries) =>
      var js :- Collect(seq(|entries|, k requires 0 <= k < |entries| => Encode(entries[k].1)));
      Ok(JObject(seq(|entries|, k requires 0 <= k < |entries| => (entries[k].0, js[k]))))
    case PProxy(id) =>
      var j :- Encode(id);
      Ok(Marker("Promise", j))
    case PArray(encoded) => Ok(Marker("PyObject", JStr(encoded)))
    case POther(typeName) => Err(TypeError("Object of type " + typeName + " is not JSON serializable"))
  }

  /** The keys the server's object hook treats as markers rather than data. */
  const Discriminators: set<string> := {"create", "call", "get", "__jsonclass__"}

  /**
   * The value the server is meant to see for a client value: tuples arrive
   * as lists, a proxy as the server's cached object for its id, an ndarray
   * as its unpickled blob. `None` when the value cannot make the trip
   * intact: it is not encodable, a dict uses a marker key, or a proxy's id is
   * not a key of the server's cache.
   */
  function Received(cache: map<Value, Value>, v: PyValue): Option<Value> {
    match v
    case PNone => Some(Nil)
    case PBool(b) => Some(Bool(b))
    case PInt(i) => Some(Int(i))
    case PStr(s) => Some(Str(s))
    case PList(items) =>
      var vs :- AllSome(seq(|items|, k requires 0 <= k < |items| => Received(cache, items[k])));
      Some(List(vs))
    case PTuple(items) =>
      var vs :- AllSome(seq(|items|, k requires 0 <= k < |items| => Received(cache, items[k])));
      Some(List(vs))
    case PDict(entries) =>
      if !DistinctKeys(entries) || exists k | 0 <= k < |entries| :: entries[k].0 in Discriminators then None
      else
        var vs :- AllSome(seq(|entries|, k requires 0 <= k < |entries| => Received(cache, entries[k].1)));
        Some(Dict(seq(|entries|, k requires 0 <= k < |entries| => (entries[k].0, vs[k]))))
    case PProxy(id) =>
      var key :- Received(cache, id);
      if Hashable(key) && key in cache then Some(cache[key]) else None
    case PArray(encoded) => Some(Blob(encoded))
    case POther(_) => None
  }

  /** The elements of a list or tuple make the trip one by one. */
  lemma RoundTripItems(cache: map<Value, Value>, items: seq<PyValue>, vs: seq<Value>)
    requires |vs| == |items|
    requires forall k | 0 <= k < |items| ::
      Encode(items[k]).Ok? && DecodeJson(cache, Encode(items[k]).value) == Ok(vs[k])
    ensures Collect(seq(|items|, k requires 0 <= k < |items| => Encode(items[k]))).Ok?
    ensures var js := Collect(seq(|items|, k requires 0 <= k < |items| => Encode(items[k]))).value;
      DecodeJson(cache, JArray(js)) == Ok(List(vs))
  {
    var js := Collect(seq(|items|, k requires 0 <= k < |items| => Encode(items[k]))).value;
    DecodeArray(cache, js, vs);
  }

  /** A dict whose values encode one by one encodes to the object of their encodings. */
  lemma EncodeEntries(entries: seq<(string, PyValue)>, js: seq<Json>)
    requires |js| == |entries|
    requires forall k | 0 <= k < |entries| :: Encode(entries[k].1) == Ok(js[k])
    ensures Encode(PDict(entries)) == Ok(JObject(seq(|entries|, k requires 0 <= k < |entries| => (entries[k].0, js[k]))))
  {
    var es := Collect(seq(|entries|, k requires 0 <= k < |entries| => Encode(entries[k].1)));
    assert es.Ok? && es.value == js;
  }

  /** A dict with distinct, unreserved keys whose values arrive one by one arrives as the dict of them. */
  lemma ReceivedEntries(cache: map<Value, Value>, entries: seq<(string, PyValue)>, vs: seq<Value>)
    requires |vs| == |entries| && DistinctKeys(entries)
    requires forall k | 0 <= k < |entries| :: entries[k].0 !in Discriminators
    requires forall k | 0 <= k < |entries| :: Received(cache, entries[k].1) == Some(vs[k])
    ensures Received(cache, PDict(entries)) == Some(Dict(seq(|entries|, k requires 0 <= k < |entries| => (entries[k].0, vs[k]))))
  {
    var os := AllSome(seq(|entries|, k requires 0 <= k < |entries| => Received(cache, entries[k].1)));
    assert os.Some? && os.value == vs;
  }

  /** An object with distinct, unreserved keys whose members decode one by one decodes to the dict of their values. */
  lemma DecodePlainObject(cache: map<Value, Value>, members: seq<(string, Json)>, vs: seq<Value>)
    requires |vs| == |members| && DistinctKeys(members)
    requires forall k | 0 <= k < |members| :: members[k].0 !in Discriminators
    requires forall k | 0 <= k < |members| :: DecodeJson(cache, members[k].1) == Ok(vs[k])
    ensures DecodeJson(cache, JObject(members)) == Ok(Dict(Zip(JsonKeys(members), vs)))
  {
    DecodeObject(cache, members, vs);
    PlainDictPasses(cache, Zip(JsonKeys(members), vs));
  }

  /** The values of a dict make the trip one by one; without marker keys the hook leaves it a dict. */
  lemma RoundTripEntries(cache: map<Value, Value>, entries: seq<(string, PyValue)>, vs: seq<Value>)
    requires |vs| == |entries| && DistinctKeys(entries)
    requires forall k | 0 <= k < |entries| :: entries[k].0 !in Discriminators
    requires forall k | 0 <= k < |entries| ::
      Encode(entries[k].1).Ok? && DecodeJson(cache, Encode(entries[k].1).value) == Ok(vs[k])
    ensures Encode(PDict(entries)).Ok?
    ensures DecodeJson(cache, Encode(PDict(entries)).value)
      == Ok(Dict(seq(|entries|, k requires 0 <= k < |entries| => (entries[k].0, vs[k]))))
  {
    var js := seq(|entries|, k requires 0 <= k < |entries| => Encode(entries[k].1).value);
    EncodeEntries(entries, js);
    var members := seq(|entries|, k requires 0 <= k < |entries| => (entries[k].0, js[k]));
    DecodePlainObject(cache, members, vs);
    assert Zip(JsonKeys(members), vs) == seq(|entries|, k requires 0 <= k < |entries| => (entries[k].0, vs[k]));
  }

  /** A dict without marker keys and with distinct keys passes the hook unchanged. */
  lemma PlainDictPasses(cache: map<Value, Value>, pairs: seq<(string, Value)>)
    requires DistinctKeys(pairs)
    requires forall k | 0 <= k < |pairs| :: pairs[k].0 !in Discriminators
    ensures ObjectHook(cache, DictFromPairs(pairs)) == Ok(Dict(pairs))
  {
    DictFromDistinctPairs(pairs);
    NoMarkerKeys(pairs);
    HookPlain(cache, pairs);
  }

  lemma NoMarkerKeys(pairs: seq<(string, Value)>)
    requires forall k | 0 <= k < |pairs| :: pairs[k].0 !in Discriminators
    ensures "create" !in Keys(pairs) && "call" !in Keys(pairs) && "get" !in Keys(pairs)
    ensures "__jsonclass__" !in Keys(pairs)
  {
    assert forall k | 0 <= k < |pairs| :: Keys(pairs)[k] !in Discriminators;
  }

  /** A marker decodes to what the hook makes of the pair `(tag, param)` under `__jsonclass__`. */
  lemma DecodeMarker(cache: map<Value, Value>, tag: string, j: Json, x: Value)
    requires DecodeJson(cache, j) == Ok(x)
    ensures DecodeJson(cache, Marker(tag, j)) == ObjectHook(cache, [("__jsonclass__", List([Str(tag), x]))])
  {
    var items := [JStr(tag), j];
    DecodeArray(cache, items, [Str(tag), x]);
    var members := [("__jsonclass__", JArray(items))];
    DecodeObject(cache, members, [List([Str(tag), x])]);
    var pairs := [("__jsonclass__", List([Str(tag), x]))];
    assert Zip(JsonKeys(members), [List([Str(tag), x])]) == pairs;
    DictFromDistinctPairs(pairs);
  }

  /**
   * Round trip: a value the client can send intact is encoded by
   * `ProxyEncoder` and decoded by the server's hook into exactly the value
   * it is meant to see; a proxy comes back as the cached object for its id.
   */
  lemma {:induction false} RoundTrip(cache: map<Value, Value>, v: PyValue)
    requires Received(cache, v).Some?
    ensures Encode(v).Ok? && DecodeJson(cache, Encode(v).value) == Ok(Received(cache, v).value)
    decreases v, 1
  {
    match v
    case PNone =>
    case PBool(_) =>
    case PInt(_) =>
    case PStr(_) =>
    case PList(_) => RoundTripSequence(cache, v);
    case PTuple(_) => RoundTripSequence(cache, v);
    case PDict(entries) =>
      var rs := seq(|entries|, k requires 0 <= k < |entries| => Received(cache, entries[k].1));
      var vs := AllSome(rs).value;
      forall k | 0 <= k < |entries|
        ensures Encode(entries[k].1).Ok? && DecodeJson(cache, Encode(entries[k].1).value) == Ok(vs[k])
      {
        assert rs[k] == Received(cache, entries[k].1);
        RoundTrip(cache, entries[k].1);
      }
      RoundTripEntries(cache, entries, vs);
    case PProxy(id) =>
      RoundTrip(cache, id);
      RoundTripProxy(cache, id);
    case PArray(encoded) =>
      RoundTripArray(cache, encoded);
  }

  /** The proxy case of the round trip, given the trip of its id. */
  lemma RoundTripProxy(cache: map<Value, Value>, id: PyValue)
    requires Received(cache, PProxy(id)).Some?
    requires Encode(id).Ok? && DecodeJson(cache, Encode(id).value) == Ok(Received(cache, id).value)
    ensures Encode(PProxy(id)) == Ok(Marker("Promise", Encode(id).value))
    ensures DecodeJson(cache, Encode(PProxy(id)).value) == Ok(Received(cache, PProxy(id)).value)
  {
    var key := Received(cache, id).value;
    DecodeMarker(cache, "Promise", Encode(id).value, key);
    HookPromise(cache, key);
  }

  /** The ndarray case of the round trip: the pickle text arrives as a blob. */
  lemma RoundTripArray(cache: map<Value, Value>, encoded: string)
    ensures Encode(PArray(encoded)) == Ok(Marker("PyObject", JStr(encoded)))
    ensures DecodeJson(cache, Encode(PArray(encoded)).value) == Ok(Blob(encoded))
  {
    var m := Marker("PyObject", JStr(encoded));
    assert Encode(PArray(encoded)) == Ok(m);
    assert DecodeJson(cache, JStr(encoded)) == Ok(Str(encoded));
    MarkerBlob(cache, JStr(encoded), encoded);
  }

  /** A `PyObject` marker whose parameter decodes to a string unpickles that string. */
  lemma MarkerBlob(cache: map<Value, Value>, j: Json, text: string)
    requires DecodeJson(cache, j) == Ok(Str(text))
    ensures DecodeJson(cache, Marker("PyObject", j)) == Ok(Blob(text))
  {
    DecodeMarker(cache, "PyObject", j, Str(text));
    HookBlob(cache, Str(text));
  }

  /** The list and tuple cases of the round trip: both arrive as lists. */
  lemma {:induction false} RoundTripSequence(cache: map<Value, Value>, v: PyValue)
    requires v.PList? || v.PTuple?
    requires Received(cache, v).Some?
    ensures Encode(v).Ok? && DecodeJson(cache, Encode(v).value) == Ok(Received(cache, v).value)
    decreases v, 0
  {
    var rs := seq(|v.items|, k requires 0 <= k < |v.items| => Received(cache, v.items[k]));
    var vs := AllSome(rs).value;
    forall k | 0 <= k < |v.items|
      ensures Encode(v.items[k]).Ok? && DecodeJson(cache, Encode(v.items[k]).value) == Ok(vs[k])
    {
      assert rs[k] == Received(cache, v.items[k]);
      RoundTrip(cache, v.items[k]);
    }
    RoundTripItems(cache, v.items, vs);
  }

  /** `{server_method: params}`, the message `execute_on_server` posts. */
  function Envelope(serverMethod: string, params: seq<(string, PyValue)>): PyValue {
    PDict([(serverMethod, PDict(params))])
  }

  /** The discriminator key under which the server's hook recognises each command class. */
  function KindKey(kind: Kind): string {
    match kind
    case CreateKind => "create"
    case CallKind => "call"
    case GetKind => "get"
  }

  /** The keywords of `Proxy.__new__`'s create command. */
  function CreateParams(moduleName: string, cls: string, args: seq<PyValue>, kwargs: seq<(string, PyValue)>): seq<(string, PyValue)> {
    [("module", PStr(moduleName)), ("class_", PStr(cls)), ("args", PTuple(args)), ("kwargs", PDict(kwargs))]
  }

  /** The keywords a wrapped function sends. */
  function CallParams(self: PyValue, methodName: string, args: seq<PyValue>, kwargs: seq<(string, PyValue)>): seq<(string, PyValue)> {
    [("object", self), ("method", PStr(methodName)), ("args", PTuple(args)), ("kwargs", PDict(kwargs))]
  }

  /** The keywords a wrapped member (and `__getattr__`) sends. */
  function MemberParams(self: PyValue, name: string): seq<(string, PyValue)> {
    [("object", self), ("member", PStr(name))]
  }

  /** The keywords the older `Proxy.__str__` sends: no `args` or `kwargs`. */
  function StrParams(self: PyValue): seq<(string, PyValue)> {
    [("object", self), ("method", PStr("__str__"))]
  }

  lemma EncodeSingle(key: string, v: PyValue)
    requires Encode(v).Ok?
    ensures Encode(PDict([(key, v)])) == Ok(JObject([(key, Encode(v).value)]))
  {
    var js := [Encode(v).value];
    EncodeEntries([(key, v)], js);
    assert seq(1, k requires 0 <= k < 1 => ([(key, v)][k].0, js[k])) == [(key, js[0])];
  }

  /** A command envelope reaches the server as the command built from the keywords as received. */
  lemma EnvelopeArrives(cache: map<Value, Value>, kind: Kind, params: seq<(string, PyValue)>)
    requires Received(cache, PDict(params)).Some?
    ensures Encode(Envelope(KindKey(kind), params)).Ok?
    ensures DecodeJson(cache, Encode(Envelope(KindKey(kind), params)).value)
      == ConstructFrom(kind, Received(cache, PDict(params)).value)
  {
    RoundTrip(cache, PDict(params));
    var j := Encode(PDict(params)).value;
    var inner := Received(cache, PDict(params)).value;
    EncodeSingle(KindKey(kind), PDict(params));
    var members := [(KindKey(kind), j)];
    DecodeObject(cache, members, [inner]);
    var pairs := [(KindKey(kind), inner)];
    assert Zip(JsonKeys(members), [inner]) == pairs;
    DictFromDistinctPairs(pairs);
    assert Lookup(pairs, KindKey(kind)) == Some(inner);
  }

  /** What the server receives for the keywords of a create command. */
  lemma ReceivedCreateParams(cache: map<Value, Value>, moduleName: string, cls: string, args: seq<PyValue>, kwargs: seq<(string, PyValue)>)
    requires Received(cache, PTuple(args)).Some? && Received(cache, PDict(kwargs)).Some?
    ensures Received(cache, PDict(CreateParams(moduleName, cls, args, kwargs)))
      == Some(Dict([("module", Str(moduleName)), ("class_", Str(cls)),
                    ("args", Received(cache, PTuple(args)).value), ("kwargs", Received(cache, PDict(kwargs)).value)]))
  {
    var entries := CreateParams(moduleName, cls, args, kwargs);
    var vs := [Str(moduleName), Str(cls), Received(cache, PTuple(args)).value, Received(cache, PDict(kwargs)).value];
    ReceivedEntries(cache, entries, vs);
    assert seq(4, k requires 0 <= k < 4 => (entries[k].0, vs[k]))
      == [("module", vs[0]), ("class_", vs[1]), ("args", vs[2]), ("kwargs", vs[3])];
  }

  /** What the server receives for the keywords of a call command. */
  lemma ReceivedCallParams(cache: map<Value, Value>, self: PyValue, methodName: string, args: seq<PyValue>, kwargs: seq<(string, PyValue)>)
    requires Received(cache, self).Some?
    requires Received(cache, PTuple(args)).Some? && Received(cache, PDict(kwargs)).Some?
    ensures Received(cache, PDict(CallParams(self, methodName, args, kwargs)))
      == Some(Dict([("object", Received(cache, self).value), ("method", Str(methodName)),
                    ("args", Received(cache, PTuple(args)).value), ("kwargs", Received(cache, PDict(kwargs)).value)]))
  {
    var entries := CallParams(self, methodName, args, kwargs);
    var vs := [Received(cache, self).value, Str(methodName), Received(cache, PTuple(args)).value, Received(cache, PDict(kwargs)).value];
    ReceivedEntries(cache, entries, vs);
    assert seq(4, k requires 0 <= k < 4 => (entries[k].0, vs[k]))
      == [("object", vs[0]), ("method", vs[1]), ("args", vs[2]), ("kwargs", vs[3])];
  }

  /** What the server receives for the keywords of a member request. */
  lemma ReceivedMemberParams(cache: map<Value, Value>, self: PyValue, name: string)
    requires Received(cache, self).Some?
    ensures Received(cache, PDict(MemberParams(self, name)))
      == Some(Dict([("object", Received(cache, self).value), ("member", Str(name))]))
  {
    var entries := MemberParams(self, name);
    var vs := [Received(cache, self).value, Str(name)];
    ReceivedEntries(cache, entries, vs);
    assert seq(2, k requires 0 <= k < 2 => (entries[k].0, vs[k])) == [("object", vs[0]), ("member", vs[1])];
  }

  /** A create envelope reaches the server as a `Create` that instantiates the named class on the arguments as received. */
  lemma CreateArrives(env: Env, cache: map<Value, Value>, moduleName: string, cls: string, args: seq<PyValue>, kwargs: seq<(string, PyValue)>)
    requires Received(cache, PTuple(args)).Some? && Received(cache, PDict(kwargs)).Some?
    ensures Encode(Envelope("create", CreateParams(moduleName, cls, args, kwargs))).Ok?
    ensures var d := DecodeJson(cache, Encode(Envelope("create", CreateParams(moduleName, cls, args, kwargs))).value);
      var ra := Received(cache, PTuple(args)).value;
      var rk := Received(cache, PDict(kwargs)).value;
      && d.Ok? && d.value.Cmd? && d.value.cmd.kind == CreateKind && ra.List? && rk.Dict?
      && (moduleName in env.modules && cls in env.members(env.modules[moduleName]) ==>
            Execute(env, d.value.cmd) == env.apply(env.members(env.modules[moduleName])[cls], ra.items, rk.entries))
  {
    var ra := Received(cache, PTuple(args)).value;
    var rk := Received(cache, PDict(kwargs)).value;
    assert ra.List? && rk.Dict?;
    ReceivedCreateParams(cache, moduleName, cls, args, kwargs);
    EnvelopeArrives(cache, CreateKind, CreateParams(moduleName, cls, args, kwargs));
    CreateFields(moduleName, cls, ra.items, rk.entries);
    var c := Constructed(CreateKind, [("module", Str(moduleName)), ("class_", Str(cls)), ("args", List(ra.items)), ("kwargs", Dict(rk.entries))]).value;
    assert "execute" !in c.fields;
    if moduleName in env.modules && cls in env.members(env.modules[moduleName]) {
      CreateInstantiates(env, c, moduleName, cls, ra.items, rk.entries);
    }
  }

  /** A call envelope decodes to the `Call` holding the received object, the method name and the received arguments. */
  lemma CallDecodes(cache: map<Value, Value>, self: PyValue, methodName: string, args: seq<PyValue>, kwargs: seq<(string, PyValue)>)
    requires Received(cache, self).Some?
    requires Received(cache, PTuple(args)).Some? && Received(cache, PDict(kwargs)).Some?
    ensures Encode(Envelope("call", CallParams(self, methodName, args, kwargs))).Ok?
    ensures var d := DecodeJson(cache, Encode(Envelope("call", CallParams(self, methodName, args, kwargs))).value);
      && d.Ok? && d.value.Cmd? && d.value.cmd.kind == CallKind
      && "execute" !in d.value.cmd.fields
      && Field(d.value.cmd, "object") == Received(cache, self).value && Field(d.value.cmd, "method") == Str(methodName)
      && Field(d.value.cmd, "args") == Received(cache, PTuple(args)).value
      && Field(d.value.cmd, "kwargs") == Received(cache, PDict(kwargs)).value
  {
    var target := Received(cache, self).value;
    var ra := Received(cache, PTuple(args)).value;
    var rk := Received(cache, PDict(kwargs)).value;
    assert ra.List? && rk.Dict?;
    ReceivedCallParams(cache, self, methodName, args, kwargs);
    EnvelopeArrives(cache, CallKind, CallParams(self, methodName, args, kwargs));
    CallFields(target, methodName, ra.items, rk.entries);
  }

  /** A call envelope reaches the server as a `Call` of the named method of the received object. */
  lemma CallArrives(env: Env, cache: map<Value, Value>, self: PyValue, methodName: string, args: seq<PyValue>, kwargs: seq<(string, PyValue)>)
    requires Received(cache, self).Some?
    requires Received(cache, PTuple(args)).Some? && Received(cache, PDict(kwargs)).Some?
    ensures Encode(Envelope("call", CallParams(self, methodName, args, kwargs))).Ok?
    ensures var d := DecodeJson(cache, Encode(Envelope("call", CallParams(self, methodName, args, kwargs))).value);
      var target := Received(cache, self).value;
      var ra := Received(cache, PTuple(args)).value;
      var rk := Received(cache, PDict(kwargs)).value;
      && d.Ok? && d.value.Cmd? && d.value.cmd.kind == CallKind && ra.List? && rk.Dict?
      && (methodName in env.members(target) ==>
            Execute(env, d.value.cmd) == env.apply(env.members(target)[methodName], ra.items, rk.entries))
  {
    var target := Received(cache, self).value;
    var ra := Received(cache, PTuple(args)).value;
    var rk := Received(cache, PDict(kwargs)).value;
    assert ra.List? && rk.Dict?;
    CallDecodes(cache, self, methodName, args, kwargs);
    var c := DecodeJson(cache, Encode(Envelope("call", CallParams(self, methodName, args, kwargs))).value).value.cmd;
    assert "execute" !in c.fields;
    if methodName in env.members(target) {
      CallInvokes(env, c, target, methodName, ra.items, rk.entries);
    }
  }

  /** No arguments arrive as no arguments. */
  lemma ReceivedEmpty(cache: map<Value, Value>)
    ensures Received(cache, PTuple([])) == Some(List([]))
    ensures Received(cache, PDict([])) == Some(Dict([]))
  {
    var noEntries: seq<(string, PyValue)> := [];
    var vs: seq<Value> := [];
    ReceivedEntries(cache, noEntries, vs);
    assert |Received(cache, PDict(noEntries)).value.entries| == 0;
  }

  /**
   * As written, a member read posts `call` with a `member` keyword, which
   * `Call` does not declare: decoding the message raises `AttributeError`.
   */
  lemma MemberRejected(cache: map<Value, Value>, self: PyValue, name: string)
    requires Received(cache, self).Some?
    ensures Encode(Envelope("call", MemberParams(self, name))).Ok?
    ensures DecodeJson(cache, Encode(Envelope("call", MemberParams(self, name))).value) == Err(AttributeError("Call", "member"))
  {
    var params := [("object", Received(cache, self).value), ("member", Str(name))];
    ReceivedMemberParams(cache, self, name);
    EnvelopeArrives(cache, CallKind, MemberParams(self, name));
    CallDeclares();
    UndeclaredNames();
    ConstructedFirstUnknown(CallKind, params, 1);
  }

  /**
   * The decoding error escapes `data_received`: the server stores nothing,
   * replies nothing and its consume loop stops at that message.
   */
  lemma MemberReadStopsServer(env: Env, picklable: Value -> bool, cache: map<Value, Value>, self: PyValue, name: string,
                              properties: map<string, string>, rest: seq<Delivery>)
    requires Received(cache, self).Some?
    ensures Encode(Envelope("call", MemberParams(self, name))).Ok?
    ensures var d := Delivery(Encode(Envelope("call", MemberParams(self, name))).value, properties);
      && Step(env, picklable, cache, d) == StepResult(cache, None, Raised(AttributeError("Call", "member")))
      && Serve(env, picklable, cache, [d] + rest) == ServeResult(cache, [], 1, Some(AttributeError("Call", "member")))
  {
    MemberRejected(cache, self, name);
    var d := Delivery(Encode(Envelope("call", MemberParams(self, name))).value, properties);
    ServeUnfold(env, picklable, cache, [d] + rest);
    assert ([d] + rest)[0] == d;
  }

  /** A member read sent as a `get` envelope: the server reads the attribute of the received object. */
  lemma MemberReadArrives(env: Env, cache: map<Value, Value>, self: PyValue, name: string)
    requires Received(cache, self).Some? && name != ""
    ensures Encode(Envelope("get", MemberParams(self, name))).Ok?
    ensures var d := DecodeJson(cache, Encode(Envelope("get", MemberParams(self, name))).value);
      var target := Received(cache, self).value;
      && d.Ok? && d.value.Cmd? && d.value.cmd.kind == GetKind
      && (name in env.members(target) ==> Execute(env, d.value.cmd) == Ok(env.members(target)[name]))
      && (name !in env.members(target) ==> Execute(env, d.value.cmd).Err?)
  {
    var target := Received(cache, self).value;
    ReceivedMemberParams(cache, self, name);
    EnvelopeArrives(cache, GetKind, MemberParams(self, name));
    GetFields(target, name);
    GetMemberReadsAttribute(env, target, name);
  }
}
