# Orange remote proxies, in Dafny

This project models the remote-object layer of this Orange3 fork and a few
small parsers next to it, and proves properties of the model.

The remote layer lets client code use Orange classes whose instances live in
a server process. Two pieces of the client build proxy classes and walk
every Orange module to swap each class for its proxy:
`Orange/remote/__init__.py` with `Orange/remote/proxy.py`, and the older
single module `Orange/remote.py`. Instantiating, calling or reading a member
of a proxy sends a JSON command (`create`, `call` or `get`) in which proxies
travel as `Promise` markers and numpy arrays as `PyObject` markers. The
server (`Orange/server/__main__.py`, `Orange/server/commands.py`) decodes
each message with an object hook that builds `Create`/`Call`/`Get` commands
and resolves markers against its result cache. It runs the command, stores
the result under the command's `result` id and, when asked to, publishes the
result as a reply.

The model's modules:

- `Wrappers`: `Option` and `Result`.
- `Text`: the Python string operations the code uses, which are `split`,
  `split(c, 1)`, `rsplit(c, 1)`, `strip(chars)`, `replace` and `startswith`.
- `Values`: server-side values, the JSON tree, dict semantics with
  insertion order and last-wins keys, iteration and unpacking.
- `Commands`: the command classes, keyword construction, `execute` and
  `__str__`. Construction follows Python's `setattr` on a plain instance:
  `__class__` and `__weakref__` keywords raise, a `__dict__` keyword
  replaces the instance dictionary, and an `execute` keyword hides the
  method.
- `Server`: the object hook, the JSON decoding, the per-message transition
  on the cache, the consume loop and the `QueueServer` class.
- `Remote`: the server address, `ProxyEncoder`, what the server receives
  for each client value, and the round trip between the two.
- `Client`: the requests the client sends and the `Session` class, which
  carries the proxy operations over an answering oracle.
- `Walker`: the proxy-class synthesis and the module walk, as the `Walk`
  class, plus `create_proxy` as the `Factory` class.
- `SqlReader`: the header parser of `Orange/data/sql/reader.py`.
- `DocImage`: the documentation build's image-fragment hook in
  `doc/orange_extras.py`.
- `Kernels`: the names, dimensions and combination of the kernels in
  `Orange/kernel/kernel.py`.

The repository's own test expects a command whose execution fails to reach
the client as an error: `Orange/remote/tests/test_proxy.py:73-78` expects
`ExecutionFailedError` from `get()`. The server as written
(`Orange/server/__main__.py:56-59`) only logs the failure and stores nothing
under the result id. The model follows the server's code
(`Server.StepFailureKeepsCache`).

Several results are proved:
- Every value the client can send intact is decoded by the server into
  exactly the value it is meant to see (`Remote.RoundTrip`).
- The walk keeps its memo tables consistent and replaces every Orange class
  it finds (`Walker.WalkedConsistent`, `Walker.WalkedReplacesAll`).
- The SQL header parser returns exactly the names supplied in the
  connection section, each with its last value (`SqlReader.ParamsNames`,
  `SqlReader.ParamsLastWins`).
- A rendered image fragment parses back to its pairs
  (`DocImage.RenderedFragmentParses`).
- `gpkernel_sum`/`gpkernel_mul` name their result by joining the names
  from the left (`Kernels.Reduce`, `Kernels.FoldedNameIsJoin`).

Two generated names can also collide. The walk names a proxy class
`module.replace(".", "_") + "_" + name`, so classes of the same name in
modules `a.b` and `a_b` get the same name on the `proxies` module
(`Walker.ProxyNamesCanCollide`).

## Model

| member | source | states |
|---|---|---|
| Text.Split | Orange/data/sql/reader.py:10 | `s.split(c)` always yields at least one piece; the pieces joined by `c` give `s` back (`Text.JoinSplit`) |
| Text.SplitOnce | Orange/data/sql/reader.py:22 | `s.split(c, 1)`: without `c` the single piece `s`; with it two pieces, the first without `c`, that rejoin to `s` |
| Text.RSplitOnce | doc/orange_extras.py:12 | `s.rsplit(c, 1)`: without `c` the single piece `s`; with it two pieces, the second without `c`, that rejoin to `s` |
| Text.SplitJoin | doc/orange_extras.py:13 | splitting the `c`-join of pieces that hold no `c` gives the pieces back |
| Text.StripLeftRemovesPrefix | Orange/data/sql/reader.py:10 | `lstrip(chars)` removes a prefix made only of `chars` and stops at a character outside `chars` |
| Text.StripRightRemovesSuffix | Orange/data/sql/reader.py:10 | `rstrip(chars)` removes a suffix made only of `chars` and stops at a character outside `chars` |
| Text.ReplaceChar | Orange/remote/proxy.py:134 | `replace(a, b)` keeps the length and changes exactly the positions holding `a` |
| Values.Lookup | Orange/server/__main__.py:70-87 | a key is found in a decoded dict exactly when it is one of its keys |
| Values.LookupFirstBinding | Orange/server/__main__.py:70-87 | the value found is the one bound at the key's first occurrence |
| Values.Assoc | Orange/server/__main__.py:50 | storing under an existing key keeps the key order; a new key goes last |
| Values.AssocLookup | Orange/server/__main__.py:50 | after `d[key] = v`, `d[key]` is `v` and every other key reads as before |
| Values.AssocDistinct | Orange/server/__main__.py:50 | storing under a key keeps the keys of a dict distinct |
| Values.AssocFresh | Orange/server/__main__.py:50 | storing under a new key appends the pair |
| Values.DictFromPairs | Orange/server/__main__.py:50 | the dict built from a JSON object's members has distinct keys |
| Values.DictFromDistinctPairs | Orange/server/__main__.py:50 | with distinct member names the dict holds the members exactly, in order |
| Values.Iterate | Orange/server/__main__.py:81 | iteration yields the items of a list or tuple, and fails exactly for values that are not iterable |
| Values.Unpack2 | Orange/server/__main__.py:81 | `a, b = v` yields the two items of a two-item list or tuple; a success means iteration gave exactly those two items |
| Commands.Defaults | Orange/server/commands.py:6-7 | every command class defaults `result` to `None` and `return_result` to `False` |
| Commands.SetAttr | Orange/server/commands.py:11-14 | one keyword: `hasattr` looks in the instance dictionary, then the class; `setattr` succeeds exactly when the name is found, is neither `__class__` nor `__weakref__`, and is not a `__dict__` given a non-dict |
| Commands.Refusal | Orange/server/commands.py:11-14 | on an instance holding only declared attributes, `setattr` accepts a keyword exactly when it is a declared name other than the three data descriptors, or a `__dict__` given a dict |
| Commands.Constructed | Orange/server/commands.py:9-14 | without a `__dict__` keyword, construction succeeds exactly when every keyword is a declared name other than `__class__` and `__weakref__`, and the instance then holds exactly the keywords given |
| Commands.ConstructedFirstRefused | Orange/server/commands.py:10-14 | before any `__dict__` keyword, the first keyword `setattr` refuses decides the error: `AttributeError` for an unknown name, `TypeError` for `__class__`, the read-only `AttributeError` for `__weakref__`, `TypeError` for a non-dict `__dict__` |
| Commands.ConstructedFirstUnknown | Orange/server/commands.py:10-13 | when every earlier keyword is stored, the `AttributeError` names the class and the first keyword that is not an attribute |
| Commands.ConstructedRejectsDescriptor | Orange/server/commands.py:14 | a `__class__` or `__weakref__` keyword anywhere makes construction raise |
| Commands.ConstructedField | Orange/server/commands.py:14 | a keyword is set on the instance and keeps its value unless a later keyword of the same name, or a later `__dict__`, overrides it |
| Commands.ConstructedDictField | Orange/server/commands.py:14 | a `__dict__` keyword installs its dict as the instance dictionary: earlier keywords are discarded, and a name no later keyword sets reads from that dict |
| Commands.Construct | Orange/server/commands.py:9-14 | the keyword loop, with `setattr`'s three data-descriptor cases, returning what `Constructed` specifies |
| Commands.ConstructedPrefixErr | Orange/server/commands.py:10-14 | once a prefix of the keywords raises, the whole construction raises the same error |
| Commands.ConstructedStored | Orange/server/commands.py:14 | one more stored keyword extends the instance dictionary by that keyword |
| Commands.ConstructedTwo | Orange/server/commands.py:9-14 | two stored keywords give an instance dictionary holding exactly those two |
| Commands.ConstructedFour | Orange/server/commands.py:9-14 | four stored keywords give an instance dictionary holding exactly those four |
| Commands.ConstructedAll | Orange/server/commands.py:9-14 | with distinct keywords that are declared names other than the data descriptors, construction succeeds and records each keyword's value |
| Commands.DefaultsKept | Orange/server/commands.py:18-21 | a declared attribute that neither a keyword nor a `__dict__` dict supplies is absent from the instance and reads as its class default |
| Commands.UndeclaredAbsent | Orange/server/commands.py:11-14 | an undeclared name enters the instance dictionary only through a `__dict__` dict that holds it |
| Commands.RejectsUnknown | Orange/server/commands.py:11-13 | a keyword that is not an attribute of the class, and that no earlier `__dict__` dict supplies, makes construction fail |
| Commands.DictAdmitsUndeclared | Orange/server/commands.py:11-14 | after a `__dict__` dict that holds an undeclared name, a keyword of that name passes `hasattr` and is stored |
| Commands.UndeclaredNames | Orange/server/commands.py:49-51 | `Get` has no `args` or `kwargs` attribute, and `Call` has no `member` |
| Commands.GetRejectsArguments | Orange/server/commands.py:49-51 | a `Get` given `args` or `kwargs` cannot be constructed, unless an earlier `__dict__` dict supplied that name |
| Commands.CallRejectsMember | Orange/server/commands.py:34-38 | a `Call` given `member` cannot be constructed, unless an earlier `__dict__` dict supplied it |
| Commands.CreateDeclares | Orange/server/commands.py:18-21 | `Create` stores `module`, `class_`, `args`, `kwargs` |
| Commands.CallDeclares | Orange/server/commands.py:35-38 | `Call` stores `object`, `method`, `args`, `kwargs` |
| Commands.GetDeclares | Orange/server/commands.py:50-51 | `Get` stores `object`, `member` |
| Commands.CreateFields | Orange/server/commands.py:17-21 | the `Create` built from the client's four keywords has exactly those four in its instance dictionary, so no `execute` hides the method |
| Commands.CallFields | Orange/server/commands.py:34-38 | the `Call` built from the client's four keywords has exactly those four in its instance dictionary |
| Commands.CallDefaultArguments | Orange/server/commands.py:37-38 | a `Call` given only an object and a method holds just those two and reads the empty default `args` and `kwargs` |
| Commands.GetFields | Orange/server/commands.py:49-51 | the `Get` built from an object and a member name holds exactly those two values |
| Commands.GetAttr | Orange/server/commands.py:25 | `getattr` succeeds exactly for a string naming an attribute of the object, and gives that attribute |
| Commands.ImportModule | Orange/server/commands.py:24 | `import_module` succeeds exactly for a string naming an importable module |
| Commands.Invoke | Orange/server/commands.py:26 | `callee(*args, **kwargs)` with a sequence and a dict calls the callee on their contents; a `kwargs` that is not a dict raises |
| Commands.CallBare | Orange/server/__main__.py:54 | `callee()` raises `TypeError` for `None`, numbers, strings, containers and command instances, and calls a live object or blob through the environment |
| Commands.ExecuteKeyword | Orange/server/__main__.py:54 | an `execute` keyword, not overridden later, hides the method: `command.execute()` calls the stored value with no arguments |
| Commands.CreateInstantiates | Orange/server/commands.py:23-26 | with no `execute` on the instance, `Create.execute` imports the module, reads the class and calls it on the arguments |
| Commands.CallInvokes | Orange/server/commands.py:40-41 | with no `execute` on the instance, `Call.execute` reads the method from the object and calls it on the arguments |
| Commands.GetEmptyMemberIsIdentity | Orange/server/commands.py:54-55 | `Get` with an empty or absent member returns the object itself, whatever the environment |
| Commands.GetMemberReadsAttribute | Orange/server/commands.py:56-57 | `Get` with a member returns that attribute, and raises when the object lacks it |
| Commands.DescribeNamesCreate | Orange/server/commands.py:28-31 | the log text of a `Create` splits back into its module and class name |
| Commands.DescribeNamesCall | Orange/server/commands.py:43-46 | the log text of a `Call` splits back into its object's text and its method name |
| Server.ConstructFrom | Orange/server/__main__.py:71-78 | `Kind(**value)` gives the constructed command when the value is a dict that constructs, an error otherwise |
| Server.ResolvePromise | Orange/server/__main__.py:82-83 | a `Promise` id resolves to its cache entry exactly when it is hashable and cached; a missing id raises `KeyError` |
| Server.DecodeBlob | Orange/server/__main__.py:84-85 | a `PyObject` parameter is unpickled exactly when it is text |
| Server.HookPrecedence | Orange/server/__main__.py:70-78 | the hook tries `create`, then `call`, then `get` |
| Server.HookPassesThrough | Orange/server/__main__.py:80-87 | a dict without command keys, whose marker (if any) names another constructor, comes back unchanged |
| Server.HookPlain | Orange/server/__main__.py:87 | a dict with none of the four marker keys comes back unchanged |
| Server.HookPromise | Orange/server/__main__.py:80-83 | a `Promise` marker becomes the cached object for its id, or raises `KeyError` |
| Server.HookBlob | Orange/server/__main__.py:80-85 | a `PyObject` marker with text becomes the unpickled blob; any other parameter raises |
| Server.DecodeArray | Orange/server/__main__.py:50 | an array decodes to the list of its decoded items |
| Server.DecodeObject | Orange/server/__main__.py:50 | an object's decoded members are handed to the hook as a dict |
| Server.StepStoresResult | Orange/server/__main__.py:53-55 | a command that runs stores its result under its `result` id and changes no other entry |
| Server.StepFailureKeepsCache | Orange/server/__main__.py:50-59 | when decoding or execution fails, the cache is unchanged and nothing is published |
| Server.StepReplyIff | Orange/server/__main__.py:61-67 | a reply is published exactly when the command ran and `return_result` is true; it carries the stored result, the correlation id and the `reply_to` queue |
| Server.StepKeepsKeys | Orange/server/__main__.py:49-67 | handling a message never removes a cache entry |
| Server.Serve | Orange/server/__main__.py:38-46 | the loop consumes the messages in order, all of them unless one raises, and never shrinks the cache |
| Server.ServeUnfold | Orange/server/__main__.py:40-42 | one message is handled, then the rest, unless handling it raised |
| Server.ServeRepliesBounded | Orange/server/__main__.py:61-67 | there are never more replies than consumed messages |
| Server.QueueServer.constructor | Orange/server/__main__.py:28-36 | the server starts with an empty cache and has published nothing |
| Server.QueueServer.DataReceived | Orange/server/__main__.py:49-67 | `data_received` changes the cache and the published replies as one `Step` specifies, and leaves the module-level `cache` alone |
| Server.QueueServer.Start | Orange/server/__main__.py:38-46 | `start` ends in the cache, replies, message count and stopping error that `Serve` specifies, and leaves the module-level `cache` alone |
| Server.PromiseModule.constructor | Orange/server/__main__.py:8 | the module-level `cache` starts empty |
| Server.PromiseReady | Orange/server/__main__.py:17-18 | `Promise.ready` raises `TypeError` exactly for an unhashable id, and otherwise says whether the module-level `cache` holds it |
| Server.PromiseGet | Orange/server/__main__.py:14-15 | `Promise.get` succeeds exactly when `ready` is true, with the module cache's entry; it raises `KeyError` when `ready` is false and `ready`'s `TypeError` for an unhashable id |
| Server.ServeThenAskPromise | Orange/server/__main__.py:8-18 | after a fresh server consumes any messages, no `Promise` is ready, not even for a result id the server stored, because the server writes only its own cache |
| Remote.ServerAddress | Orange/remote/proxy.py:104-110 | a setting without a colon is the host on port 9465; the default setting is `127.0.0.1` |
| Remote.HostAddress | Orange/remote.py:16-22 | the older module's address: a host without a colon is on port 9465 |
| Remote.DefaultAddress | Orange/remote/proxy.py:105 | without `ORANGE_SERVER` the address is `127.0.0.1` on port 9465 |
| Remote.AddressSplitsAtColon | Orange/remote/proxy.py:106-107 | with one colon the host is the text before it and the port the text after it |
| Remote.AddressFailsOnTwoColons | Orange/remote/proxy.py:107 | the address raises exactly when the setting holds two or more colons |
| Remote.EncodeEntries | Orange/remote/proxy.py:35-41 | a dict whose values encode one by one encodes to the object of their encodings |
| Remote.RoundTripItems | Orange/remote/proxy.py:35-41 | list and tuple items that make the trip one by one arrive as the list of them |
| Remote.ReceivedEntries | Orange/remote/proxy.py:91 | a dict with distinct, unreserved keys whose values arrive arrives as the dict of them |
| Remote.DecodePlainObject | Orange/server/__main__.py:87 | an object with distinct, unreserved keys decodes to the dict of its decoded members |
| Remote.RoundTripEntries | Orange/remote/proxy.py:35-41 | the dict case of the round trip |
| Remote.PlainDictPasses | Orange/server/__main__.py:70-87 | a dict without marker keys passes the hook unchanged |
| Remote.DecodeMarker | Orange/server/__main__.py:80-81 | a marker decodes to what the hook makes of its `(tag, param)` pair |
| Remote.RoundTrip | Orange/remote/proxy.py:35-41 | every value that can make the trip is encoded, and the server decodes it to exactly the value it is meant to see: tuples as lists, proxies as cached objects, arrays as blobs |
| Remote.RoundTripProxy | Orange/remote/proxy.py:37-38 | a proxy is sent as a `Promise` marker around its id and arrives as the cached object |
| Remote.RoundTripArray | Orange/remote/proxy.py:39-40 | an array is sent as a `PyObject` marker and arrives as its blob |
| Remote.MarkerBlob | Orange/server/__main__.py:84-85 | a `PyObject` marker around text decodes to the blob of that text |
| Remote.RoundTripSequence | Orange/remote/proxy.py:35-41 | the list and tuple cases of the round trip |
| Remote.EnvelopeArrives | Orange/remote/proxy.py:90-91 | `{server_method: params}` decodes to the command built from the keywords as received |
| Remote.ReceivedCreateParams | Orange/remote/proxy.py:54-57 | what the server receives for the keywords of a create |
| Remote.ReceivedCallParams | Orange/remote/proxy.py:26 | what the server receives for the keywords of a call |
| Remote.ReceivedMemberParams | Orange/remote/proxy.py:15 | what the server receives for the keywords of a member read |
| Remote.CreateArrives | Orange/remote/proxy.py:49-58 | a create message makes the server instantiate the named class on the arguments as received |
| Remote.CallDecodes | Orange/remote/proxy.py:26 | a call message decodes to the `Call` of the received object, method name and arguments |
| Remote.CallArrives | Orange/remote/proxy.py:21-32 | a call message makes the server call the named method of the received object |
| Remote.ReceivedEmpty | Orange/remote/proxy.py:75 | empty `args` and `kwargs` arrive as an empty list and dict |
| Remote.MemberRejected | Orange/remote/proxy.py:15 | as written, a member read posts `call` with `member`, and decoding it raises `AttributeError` |
| Remote.MemberReadStopsServer | Orange/server/__main__.py:49-59 | that error escapes `data_received`: nothing is stored or published, and the consume loop stops |
| Remote.MemberReadArrives | Orange/server/commands.py:49-57 | a member read posted as `get` makes the server return the attribute, or fail when it is absent |
| Client.PostRequest | Orange/remote/proxy.py:90-94 | the POST carries the encoded envelope to the server address with the server method as path; an unencodable argument or a bad address fails it |
| Client.FetchRequest | Orange/remote/proxy.py:78-80 | the GET asks for the id at the server address, and fails with the address |
| Client.KeywordLookup | Orange/remote/proxy.py:51-52 | a keyword is found exactly when one of the keyword arguments has that name |
| Client.AnonymousAttribute | Orange/remote/proxy.py:70-73 | an anonymous proxy answers `__id__` and `get` itself and turns every other name into a remote function |
| Client.BindSelf | Orange/remote/proxy.py:23 | binding `function(self, *args, **kwargs)` takes `self` from the first positional argument or from the keywords, and raises with neither or both |
| Client.AnonymousCallDropsProxy | Orange/remote/proxy.py:69-73 | as written, `anon.name()` raises, and `anon.name(x)` targets `x` with no arguments, never the anonymous proxy |
| Client.Session.constructor | Orange/remote/proxy.py:104-110 | a session talks to the address `ORANGE_SERVER` names and has sent nothing |
| Client.Session.ExecuteOnServer | Orange/remote/proxy.py:90-101 | `execute_on_server` sends one POST and returns the server's answer, or fails without sending |
| Client.Session.FetchFromServer | Orange/remote/proxy.py:78-87 | `fetch_from_server` sends one GET and returns the server's answer |
| Client.Session.Instantiate | Orange/remote/proxy.py:49-58 | `__new__` wraps a given `__id__` without contacting the server; otherwise it posts a create and holds the returned id |
| Client.Session.ReadMember | Orange/remote/proxy.py:12-18 | a member read posts `call` with `member` and returns an anonymous proxy for the answer |
| Client.Session.GetAttribute | Orange/remote/proxy.py:63-66 | `__getattr__` refuses the three pickling hooks locally and reads any other name remotely |
| Client.Session.ReadMemberAsGet | Orange/remote/proxy.py:14-16 | the member read as the server decodes it: posted as `get` |
| Client.Session.CallFunction | Orange/remote/proxy.py:21-32 | `__init__` returns `None` without a request; otherwise a `call` is posted, then fetched at once when synchronous, else returned as an anonymous proxy |
| Client.Session.Get | Orange/remote/proxy.py:60-61 | `get` fetches the value behind the proxy's id |
| Client.Session.LegacyStr | Orange/remote.py:69-71 | the older `__str__` posts `call` of `__str__` without arguments, then fetches the answer |
| Client.Session.PostThenFetch | Orange/remote/proxy.py:27-28 | a synchronous call is one POST followed by one GET of the id it returned |
| Client.Session.CallAnonymousAttribute | Orange/remote/proxy.py:69-73 | as written, a call on an anonymous proxy binds `self` from the call's own arguments |
| Client.Session.CallAnonymousMethod | Orange/remote/proxy.py:69-73 | a call on an anonymous proxy with the proxy as target posts `call` on the proxy |
| Client.AnonymousMethodArrives | Orange/remote/proxy.py:69-73 | with the proxy as target, the server calls the method of the object cached under the proxy's id |
| Client.StrVariantsAgree | Orange/remote.py:69-71 | the older and the package `__str__` messages make the server run the same `__str__` call |
| Client.LegacyStrCommand | Orange/remote.py:70 | the older `__str__` message decodes to a `Call` with the default empty arguments |
| Client.PackageStrCommand | Orange/remote/proxy.py:75 | the package's `__str__` message decodes to a `Call` with empty arguments |
| Walker.PackageSelection | Orange/remote/__init__.py:34-40 | the package wraps `__len__` and `__str__` synchronously and skips exactly the other dunder names except `__getitem__` |
| Walker.LegacySelection | Orange/remote.py:139-142 | the older module wraps nothing synchronously and skips exactly the dunder names |
| Walker.FiltersDiffer | Orange/remote/__init__.py:34-40 | the two function filters differ on `__len__`, `__str__` and `__getitem__` only |
| Walker.AddFunctionsContents | Orange/remote/__init__.py:34-40 | the function loop adds exactly the selected names, wrapped as selected, and keeps the other entries |
| Walker.AddDescriptorsContents | Orange/remote/__init__.py:42-45 | the descriptor loop adds exactly the names without a leading `__`, as member reads, and keeps the other entries |
| Walker.MembersContents | Orange/remote/__init__.py:31-45 | the proxy namespace is the three meta entries, the selected functions and the selected descriptors, a descriptor replacing a function of the same name |
| Walker.MetaKeysAreSkipped | Orange/remote/__init__.py:31-33 | no filter selects a meta entry's name, so the loops never overwrite them |
| Walker.LegacyMembers | Orange/remote.py:136-147 | in the older module every proxied name except the meta entries is free of a leading `__`, and nothing is synchronous |
| Walker.PackageDunderMembers | Orange/remote/__init__.py:31-45 | in the package the only proxied dunder names are the meta entries, `__len__`, `__str__` and `__getitem__` |
| Walker.BuildMembers | Orange/remote/__init__.py:31-45 | the two member loops build the namespace `Members` specifies |
| Walker.ProxyNameHasNoDot | Orange/remote/__init__.py:47 | a generated name has no dot when the class name has none, and its length is the module's, plus one, plus the name's |
| Walker.ProxyNamesCanCollide | Orange/remote/__init__.py:47-50 | modules `p_s` and `p.s` give a class of the same name the same proxy name |
| Walker.MapBases | Orange/remote/__init__.py:30 | each base that is a known proxy class becomes its original; the others stay |
| Walker.MapBasesIdempotent | Orange/remote/__init__.py:30 | mapping the bases twice is mapping them once |
| Walker.Synthesize | Orange/remote/__init__.py:30-48 | a class gets its bases mapped back and a proxy class named and filled as specified |
| Walker.ExclusionIsByPrefix | Orange/remote/__init__.py:17-20 | exclusion is by prefix: `Orange.testing` and `Orange.widgets.data` are skipped, `Orange.data` is walked |
| Walker.FirstCrash | Orange/remote/__init__.py:18-55 | the walk reaches the first non-excluded module whose import raises something other than `ImportError`, and no module before it raises so |
| Walker.FailedImports | Orange/remote/__init__.py:54-55 | a warning is issued for exactly the walked, non-excluded modules whose import raises `ImportError` |
| Walker.VisitKeepsConsistent | Orange/remote/__init__.py:23-53 | visiting a class keeps the memo tables consistent and the classes the same, and forgets no replacement |
| Walker.ReuseKeepsConsistent | Orange/remote/__init__.py:27-28 | reusing a memoised proxy keeps the tables consistent |
| Walker.ReplaceKeepsConsistent | Orange/remote/__init__.py:29-53 | synthesising a new proxy keeps the tables consistent |
| Walker.ReplaceKeepsMemo | Orange/remote/__init__.py:49 | the new `old_to_new` and `new_to_old` entries map the class and its proxy to each other |
| Walker.ReplaceKeepsAttributes | Orange/remote/__init__.py:50-53 | the `proxies` attribute and the module attribute both name the new proxy |
| Walker.VisitReplaces | Orange/remote/__init__.py:24-53 | a non-Orange class is left alone; an Orange class ends with a proxy that its module attribute names and `new_to_old` maps back; a memoised class makes no second proxy; a new class makes exactly one proxy with its bases mapped |
| Walker.VisitedClassesConsistent | Orange/remote/__init__.py:23-53 | visiting a module's classes keeps the tables consistent |
| Walker.VisitedClassesReplaceAll | Orange/remote/__init__.py:23-53 | every Orange class listed in a module has a proxy after the module is visited |
| Walker.WalkedConsistent | Orange/remote/__init__.py:18-55 | the whole walk keeps the tables consistent and the classes the same |
| Walker.WalkedReplacesAll | Orange/remote/__init__.py:18-55 | after the walk, every Orange class of every walked, importable module has been replaced by a proxy |
| Walker.Walk.constructor | Orange/remote/__init__.py:12-15 | the walk starts with empty tables and no warnings |
| Walker.Walk.VisitClass | Orange/remote/__init__.py:24-53 | the inner loop body leaves the tables as `VisitedClass` specifies |
| Walker.Walk.VisitModule | Orange/remote/__init__.py:23-53 | the inner loop leaves the tables as `VisitedClasses` specifies |
| Walker.Walk.Run | Orange/remote/__init__.py:18-55 | the walk stops at the first module whose import raises an exception other than `ImportError`, and names it; the modules before it leave the tables as `Walked` specifies, consistent, with one warning per `ImportError` |
| Walker.Factory.constructor | Orange/remote/proxy.py:113 | `create_proxy`'s `new_to_old` starts empty |
| Walker.Factory.CreateProxy | Orange/remote/proxy.py:116-137 | `create_proxy` maps the class's bases back, makes a new proxy class with the package filter, names it and records it in `new_to_old` |
| SqlReader.HeaderLines | Orange/data/sql/reader.py:10 | the header's lines, each stripped of `%` and spaces at both ends |
| SqlReader.Entry | Orange/data/sql/reader.py:22-25 | a line is an entry exactly when it holds a colon; name and value are the stripped texts around the first colon |
| SqlReader.AfterOneMore | Orange/data/sql/reader.py:15-26 | one more line first moves the section on, then stores the line's entry if the section is the connection section |
| SqlReader.ParseHeader | Orange/data/sql/reader.py:9-28 | the loop returns the parameters `ParamsAfter` specifies and empty type hints |
| SqlReader.ScanSection | Orange/data/sql/reader.py:13-19 | after the loop the section is that of the last marker line |
| SqlReader.SuppliesLast | Orange/data/sql/reader.py:21-26 | the last line supplies a name exactly when the loop stores its entry |
| SqlReader.ParamsNames | Orange/data/sql/reader.py:21-26 | the parameter names are exactly the names some connection-section line with a colon supplies |
| SqlReader.ParamsLastWins | Orange/data/sql/reader.py:26 | each parameter holds the value of the last line that supplies its name |
| SqlReader.ParamsUnfold | Orange/data/sql/reader.py:21-26 | the parameters after one more line |
| SqlReader.ValueKeepsColons | Orange/data/sql/reader.py:22 | the value keeps every colon after the first |
| SqlReader.HeaderLinesCons | Orange/data/sql/reader.py:10 | the first stripped line followed by the lines of the rest |
| SqlReader.HeaderLinesSingle | Orange/data/sql/reader.py:10 | a header without a line break is one stripped line |
| SqlReader.MarkerLines | Orange/data/sql/reader.py:16-19 | `CONNECTION` and `DOMAIN` open their sections; a line with a colon opens none |
| SqlReader.MarkerPrefixes | Orange/data/sql/reader.py:10 | `% CONNECTION` and `% DOMAIN` strip to the markers |
| SqlReader.ConnectionThenEntry | Orange/data/sql/reader.py:16-26 | a `CONNECTION` line followed by an entry stores that one entry |
| SqlReader.DomainAddsNothing | Orange/data/sql/reader.py:18-21 | a `DOMAIN` line and the line after it add no parameter |
| SqlReader.OneParameter | Orange/data/sql/reader.py:15-26 | connection marker, entry, domain marker, any line: exactly the one entry |
| SqlReader.PaddedEntry | Orange/data/sql/reader.py:25 | whitespace after the colon is not part of the value |
| SqlReader.MarkedLines | Orange/data/sql/reader.py:10 | the four-line header splits into the two markers, the entry and the last line |
| SqlReader.OneConnectionHeader | Orange/tests/sql/test_reader.py:11-19 | a header of that shape yields exactly one parameter, with its value |
| SqlReader.UriHeader | Orange/tests/sql/test_reader.py:11-19 | the unit test's header yields exactly `uri` = `sql://localhost/test/iris` |
| DocImage.ImageNode.constructor | doc/orange_extras.py:10 | the node holds the attributes the wrapped parser produced |
| DocImage.Pair | doc/orange_extras.py:14 | `param.split('=', 1)` unpacks exactly when the piece holds `=`; the key has no `=` and rejoins with the value to the piece |
| DocImage.Image | doc/orange_extras.py:9-17 | the hook leaves the node's attributes, and whether it returned, as `Rewritten` specifies |
| DocImage.AssignedFailed | doc/orange_extras.py:13-15 | at the first piece without `=` the hook raises, keeping the assignments made before it |
| DocImage.PairOfJoined | doc/orange_extras.py:14 | `key=value` unpacks to `(key, value)` when the key has no `=` |
| DocImage.AssignedSucceeds | doc/orange_extras.py:13-15 | the hook returns exactly when every piece holds `=` |
| DocImage.LastWins | doc/orange_extras.py:15 | after a full assignment each key holds the value of its last piece, or its old value when no piece names it |
| DocImage.NoFragmentUnchanged | doc/orange_extras.py:11 | a `uri` without `#` leaves the node unchanged |
| DocImage.CutAtLastHash | doc/orange_extras.py:12 | the `uri` is cut at its last `#`, earlier ones kept, and only the text after it is read |
| DocImage.EmptyFragmentRaises | doc/orange_extras.py:12-14 | a `uri` ending in `#` is cut and then raises |
| DocImage.AssignedRendered | doc/orange_extras.py:13-15 | assigning rendered `key=value` pieces sets exactly those pairs, in order |
| DocImage.RenderedFragmentParses | doc/orange_extras.py:11-17 | `base#k1=v1,...` comes back as `base` with each pair set in order, a later pair (including `uri`) winning |
| Kernels.AbstractMessage | Orange/kernel/kernel.py:18-20 | the `TypeError` text names the class's kernel name |
| Kernels.Instantiate | Orange/kernel/kernel.py:14-80 | calling `Kernel`, `GPKernel` or `GPStationaryKernel` bare raises the abstract-class `TypeError`, and with dimensions the argument-count `TypeError`; a concrete class called bare raises the missing-argument `TypeError`, and with dimensions gives a new kernel with its class kernel name as name, the dimensions given and their count as input dimension |
| Kernels.Instance.Leaf | Orange/kernel/kernel.py:77-80 | a concrete kernel is named after its class, and its input dimension is the number of active dimensions |
| Kernels.Instance.Combination | Orange/kernel/kernel.py:183-196 | `Add`/`Prod` of two kernels is named `a_sum_b`/`a_prod_b` from their kernel names |
| Kernels.Instance.Copy | Orange/kernel/kernel.py:208 | a copy has the same names, dimensions and shape |
| Kernels.Instance.SetKernelName | Orange/kernel/kernel.py:42-45 | the `kernel_name` setter sets both `_kernel_name` and `name`, leaving the dimensions |
| Kernels.Instance.SetActiveDimensions | Orange/kernel/kernel.py:51-55 | the `active_dimensions` setter sets the dimensions and the input dimension to their count, leaving the names |
| Kernels.Instance.Apply | Orange/kernel/kernel.py:57-67 | `+`, `+=`, `*`, `*=` build a new combined kernel |
| Kernels.Reduce | Orange/kernel/kernel.py:199-220 | `gpkernel_sum`/`gpkernel_mul` give `None` exactly for no kernels, the kernel itself for one, and otherwise a new kernel whose name and shape combine the kernels from the left |
| Kernels.Fold | Orange/kernel/kernel.py:208 | the `reduce` over copies combines from the left |
| Kernels.CombineCopies | Orange/kernel/kernel.py:208 | one step: the combination of two copies |
| Kernels.FoldedNameIsJoin | Orange/kernel/kernel.py:199-220 | the name of the left fold is the kernel names joined by `_sum_` or `_prod_` |
| Kernels.ThreeOfAKind | Orange/tests/test_kernel.py:84-91 | three kernels named `n` combine to `n_sum_n_sum_n` / `n_prod_n_prod_n`, grouped from the left |
| Kernels.AllKernelsOf | Orange/kernel/kernel.py:223-226 | a class is listed exactly when it is in the module and its name is not excluded |
| Kernels.ExcludedByName | Orange/kernel/kernel.py:226 | the excluded names are exactly the abstract classes and the combinations |
| Kernels.AllKernelsInstantiable | Orange/kernel/kernel.py:223-229 | `all_kernels` lists exactly the concrete leaf classes, each of which instantiates from active dimensions |

## Left out

- The transports are not modelled. The client posts over HTTP while the server consumes an AMQP queue, so the two do not talk to each other as written. `Client.Session` takes the server's answers as an oracle `respond`, and the server takes deliveries as data.
- Pickle and base64 are opaque. An array travels as the text of its pickle, and the server's `Blob` holds that text. Response bodies are taken already decoded, so the `Content-Type` branch of `fetch_from_server`/`execute_on_server` is not modelled.
- `Client.Session.constructor`: the address is read from `ORANGE_SERVER` once per session. The source reads the environment on every request.
- Python reflection is data. `type()`, `__bases__`, `inspect.getmembers`, `walk_packages` and `import_module` become `ClassInfo` records, the `Env` record, and the module list with its `importable` map. `setattr` on modules becomes the `bindings` table.
- `Remote.Received`: a dict with a repeated key or a marker key is treated as not making the trip, since it would decode to something else. No claim is made about such values.
- The logging, the `print` of the server address at import time, `KeyboardInterrupt` and the closing of the connection are not modelled.
- `Values.Repr`: the default `repr` of live objects shows a memory address, which is a parameter.
- `SqlReader.ParseHeader`: `read_file` (file I/O) is not modelled.
- `DocImage.Image`: the wrapped `old_image` parser is not modelled; the node it returns is the method's input.
- `Kernels.Instance.Combination`: the active dimensions of a sum or product are computed by GPy and are `None` in the model.
- `Kernels.Instance.SetActiveDimensions`: `_all_dims_active` (the integer array of the dimensions) is not kept.
- `Kernels.Instance.Copy`: GPy's deep copy of the parameters is not modelled.
- `Kernels.Instantiate`: calling `Add`/`Prod` with active dimensions instead of sub-kernels is not modelled, so the method requires a leaf class.
- The GPy covariance computations (`__call__`, `cov`, `K`) and the constructor parameters other than the active dimensions are not modelled, because they are floating-point numerics in another library.
- `Remote.RoundTrip`: the value model has no floating-point numbers, so no float argument is covered. JSON numbers are integers throughout.
- `Values.Repr`: a string is rendered between single quotes as it stands. Python's choice of double quotes, and its escaping of quotes, backslashes and non-printable characters, are not modelled, so the text of `Commands.Describe` can differ for such strings.
- `Values.Iterate`: a live object (`Obj`) or an unpickled blob (`Blob`) is never iterable here. In Python an unpickled ndarray, or an object that defines `__iter__`, can be iterated.
- `Values.Truthy`: a live object or blob is always true here. In Python `bool()` of an ndarray with more than one element raises, and an object may define `__bool__` or `__len__`.
- `Commands.Invoke`: a live object or blob passed as `*args` or `**kwargs` is refused. Python accepts any iterable, and any mapping.
- `Server.DecodeBlob`: any text decodes to the blob of that text. In Python `param.encode("ascii")`, `b64decode` and `pickle.loads` raise on non-ASCII text, bad base64 or a bad pickle, and that raise is outside the `try`, so it would stop the server.
- `Server.HookBlob`: inherits the `DecodeBlob` gap, so a `PyObject` marker around any text succeeds.
- `Remote.MarkerBlob`: inherits the `DecodeBlob` gap; the client always sends base64 of a pickle, so the round trip is unaffected.
- `Server.ResolvePromise`: cache keys use structural equality on the value model. In Python `1 == True`, so `cache[True]` finds an entry stored under `1`, which the model does not. Command instances are also compared structurally, while Python hashes them by identity: in Python a `Promise` whose id is a freshly decoded command always raises `KeyError`, whereas the model can find an entry stored under an equal command.
- `Walker.Walk.Run`: a `TypeError` from the `__bases__` assignment (`Orange/remote/__init__.py:30`) would also escape the walk part-way through a module. The model treats every assignment as succeeding, and only an import that raises stops the walk.
- `Commands.SetAttr`: a `__class__` keyword always raises `TypeError` here. In Python a live class taken from the cache with a compatible layout would be accepted and would change the instance's class. Likewise a live `dict` subclass instance given as `__dict__` is refused here.
- `Server.Step`: a message body is an already parsed JSON document. A malformed body, on which `decode` raises `JSONDecodeError` outside the `try` and stops the consume loop, cannot be expressed.
- `Server.Step`: a decoded document that is not a command instance fails with `AttributeError` on `execute`. In Python a `Promise` marker at the top level can resolve to a live object that has an `execute` method (and `result`, `return_result`), which would then run.
- `Orange/server.py` is not part of this model.

## Findings

| source | as written | input that shows it | evidently intended | confidence | as-written member | corrected member |
|---|---|---|---|---|---|---|
| Orange/remote/proxy.py:15 | A member read posts a `call` command with a `member` keyword. `Call` declares no `member`, so the server's object hook raises `AttributeError` while decoding. That is outside the `try` in `data_received`, so the consume loop stops. | any `proxy.attr` for an attribute not defined on the proxy class, e.g. a data descriptor | post a `get` command, which declares `object` and `member` and returns the attribute | high (not executed) | Remote.MemberRejected, Remote.MemberReadStopsServer | Client.Session.ReadMemberAsGet, Remote.MemberReadArrives |
| Orange/remote/proxy.py:73 | `AnonymousProxy.__getattribute__` returns the unbound `wrapped_function`. A call on an anonymous proxy therefore binds `self` from the call's own arguments. | `anon.method()` raises `TypeError`, and `anon.method(x)` asks the server to call `method` on `x` with no arguments | the function bound to the anonymous proxy, so the call targets the object behind it | high (not executed) | Client.AnonymousCallDropsProxy, Client.Session.CallAnonymousAttribute | Client.Session.CallAnonymousMethod, Client.AnonymousMethodArrives |
