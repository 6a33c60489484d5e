/**
 * How the client turns Orange's classes into proxy classes: which functions
 * and data descriptors of a class become remote calls (and which of those
 * are synchronous), the name of the generated class, the mapping of bases
 * back to original classes, and the walk over Orange's modules that
 * replaces every Orange class by its proxy, once per class. The package
 * `Orange.remote` and the older module `Orange/remote.py` differ only in
 * the function filter; both are modelled, as two variants.
 */
module Walker {
  import opened Wrappers
  import opened Text

  /** The package (`Orange/remote/`) or the older single module (`Orange/remote.py`). */
  datatype Variant = Package | Legacy

  /** What the filter decides for one function of a class. */
  datatype Selection = Skip | Wrap(synchronous: bool)

  /** The functions the package wraps synchronously: their result is fetched at once. */
  const SynchronousNames: set<string> := {"__len__", "__str__"}

  predicate Dunder(name: string) {
    StartsWith(name, "__")
  }

  /**
   * The function filter. The package wraps `__len__` and `__str__`
   * synchronously and `__getitem__` and every name without a leading `__`
   * asynchronously; the older module wraps exactly the names without a
   * leading `__`, all asynchronously.
   */
  function SelectFunction(variant: Variant, name: string): Selection {
    match variant
    case Package =>
      if name in SynchronousNames then Wrap(true)
      else if Dunder(name) && name != "__getitem__" then Skip
      else Wrap(false)
    case Legacy =>
      if Dunder(name) then Skip else Wrap(false)
  }

  /** The package filter: synchronous exactly for `__len__` and `__str__`, skipping the other dunder names but `__getitem__`. */
  lemma PackageSelection(name: string)
    ensures SelectFunction(Package, name) == Wrap(true) <==> name == "__len__" || name == "__str__"
    ensures SelectFunction(Package, name) == Skip <==>
      Dunder(name) && name != "__len__" && name != "__str__" && name != "__getitem__"
  {
  }

  /** The older filter never wraps synchronously and skips every dunder name. */
  lemma LegacySelection(name: string)
    ensures SelectFunction(Legacy, name) != Wrap(true)
    ensures SelectFunction(Legacy, name) == Skip <==> Dunder(name)
  {
  }

  /** The two filters disagree on three names only. */
  lemma FiltersDiffer(name: string)
    ensures SelectFunction(Package, name) != SelectFunction(Legacy, name) <==>
      name == "__len__" || name == "__str__" || name == "__getitem__"
  {
    assert Dunder("__len__") && Dunder("__str__") && Dunder("__getitem__") by {
      assert "__len__"[..2] == "__" && "__str__"[..2] == "__" && "__getitem__"[..2] == "__";
    }
  }

  /** Data descriptors become remote member reads unless their name starts with `__`, in both variants. */
  predicate SelectDescriptor(name: string) {
    !Dunder(name)
  }

  /** A reference to a class: an original Orange class, or a proxy class synthesised by the walk. */
  datatype ClassRef = Original(id: nat) | Synthesized(serial: nat)

  /**
   * An original class: its `__name__`, its `__module__`, its bases, and the
   * names `inspect.getmembers` lists as its functions and as its data
   * descriptors.
   */
  datatype ClassInfo = ClassInfo(name: string, moduleName: string, bases: seq<ClassRef>,
                                 functions: seq<string>, descriptors: seq<string>)

  /** A value in the namespace of a proxy class. */
  datatype Member =
    | Meta(text: string)                        // `__module__`, `__originalclass__`, `__originalmodule__`
    | Function(name: string, synchronous: bool) // `wrapped_function(name, f, synchronous)`
    | Property(name: string)                    // `wrapped_member(name, p)`

  /** A synthesised proxy class: `type(name, (Proxy,), members)`. */
  datatype ProxyClass = ProxyClass(name: string, members: map<string, Member>)

  const MetaKeys: set<string> := {"__module__", "__originalclass__", "__originalmodule__"}

  function MetaMembers(className: string, moduleName: string): map<string, Member> {
    map["__module__" := Meta("proxies"), "__originalclass__" := Meta(className), "__originalmodule__" := Meta(moduleName)]
  }

  /** The namespace after the function loop has seen `names`. */
  function AddFunctions(variant: Variant, m: map<string, Member>, names: seq<string>): map<string, Member>
    decreases |names|
  {
    if names == [] then m
    else
      var prev := AddFunctions(variant, m, names[..|names| - 1]);
      var n := names[|names| - 1];
      match SelectFunction(variant, n)
      case Skip => prev
      case Wrap(s) => prev[n := Function(n, s)]
  }

  /** The namespace after the descriptor loop has seen `names`. */
  function AddDescriptors(m: map<string, Member>, names: seq<string>): map<string, Member>
    decreases |names|
  {
    if names == [] then m
    else
      var prev := AddDescriptors(m, names[..|names| - 1]);
      var n := names[|names| - 1];
      if SelectDescriptor(n) then prev[n := Property(n)] else prev
  }

  /** The namespace of the proxy class for `cls`. */
  function Members(variant: Variant, cls: ClassInfo): map<string, Member> {
    AddDescriptors(AddFunctions(variant, MetaMembers(cls.name, cls.moduleName), cls.functions), cls.descriptors)
  }

  /** The function loop adds exactly the selected names, each wrapped as selected, and keeps everything else. */
  lemma {:induction false} AddFunctionsContents(variant: Variant, m: map<string, Member>, names: seq<string>)
    ensures var r := AddFunctions(variant, m, names);
      && (forall k :: k in r <==> k in m || (k in names && SelectFunction(variant, k).Wrap?))
      && (forall k | k in names && SelectFunction(variant, k).Wrap? ::
            r[k] == Function(k, SelectFunction(variant, k).synchronous))
      && (forall k | k in m && !(k in names && SelectFunction(variant, k).Wrap?) :: r[k] == m[k])
    decreases |names|
  {
    if names != [] {
      var init := names[..|names| - 1];
      AddFunctionsContents(variant, m, init);
      assert names == init + [names[|names| - 1]];
    }
  }

  /** The descriptor loop adds exactly the names without a leading `__`, as member reads, and keeps everything else. */
  lemma {:induction false} AddDescriptorsContents(m: map<string, Member>, names: seq<string>)
    ensures var r := AddDescriptors(m, names);
      && (forall k :: k in r <==> k in m || (k in names && SelectDescriptor(k)))
      && (forall k | k in names && SelectDescriptor(k) :: r[k] == Property(k))
      && (forall k | k in m && !(k in names && SelectDescriptor(k)) :: r[k] == m[k])
    decreases |names|
  {
    if names != [] {
      var init := names[..|names| - 1];
      AddDescriptorsContents(m, init);
      assert names == init + [names[|names| - 1]];
    }
  }

  /**
   * The proxy namespace: the three meta entries, every selected function
   * and every descriptor without a leading `__`; a descriptor wins over a
   * function of the same name.
   */
  lemma MembersContents(variant: Variant, cls: ClassInfo)
    ensures var r := Members(variant, cls);
      && (forall k :: k in r <==>
            k in MetaKeys || (k in cls.functions && SelectFunction(variant, k).Wrap?)
            || (k in cls.descriptors && SelectDescriptor(k)))
      && (forall k | k in cls.descriptors && SelectDescriptor(k) :: r[k] == Property(k))
      && (forall k | k in cls.functions && SelectFunction(variant, k).Wrap? && !(k in cls.descriptors && SelectDescriptor(k)) ::
            r[k] == Function(k, SelectFunction(variant, k).synchronous))
      && r["__module__"] == Meta("proxies") && r["__originalclass__"] == Meta(cls.name)
      && r["__originalmodule__"] == Meta(cls.moduleName)
  {
    var meta := MetaMembers(cls.name, cls.moduleName);
    AddFunctionsContents(variant, meta, cls.functions);
    var withFunctions := AddFunctions(variant, meta, cls.functions);
    AddDescriptorsContents(withFunctions, cls.descriptors);
    MetaKeysAreSkipped(variant);
  }

  /** Neither loop touches the meta entries: their names are dunder names no filter selects. */
  lemma MetaKeysAreSkipped(variant: Variant)
    ensures forall k | k in MetaKeys :: SelectFunction(variant, k) == Skip && !SelectDescriptor(k)
  {
    assert "__module__"[..2] == "__" && "__originalclass__"[..2] == "__" && "__originalmodule__"[..2] == "__";
  }

  /** In the older module, every proxied name is free of a leading `__` and no function is synchronous. */
  lemma LegacyMembers(cls: ClassInfo)
    ensures var r := Members(Legacy, cls);
      && (forall k | k in r && Dunder(k) :: k in MetaKeys)
      && (forall k | k in r && r[k].Function? :: !r[k].synchronous)
  {
    MembersContents(Legacy, cls);
  }

  /** In the package, the only proxied dunder names are the meta entries, `__len__`, `__str__` and `__getitem__`. */
  lemma PackageDunderMembers(cls: ClassInfo)
    ensures var r := Members(Package, cls);
      forall k | k in r && Dunder(k) :: k in MetaKeys || k == "__len__" || k == "__str__" || k == "__getitem__"
  {
    MembersContents(Package, cls);
  }

  /** The member loops of `create_proxy` and of the walk, as written. */
  method BuildMembers(variant: Variant, cls: ClassInfo) returns (members: map<string, Member>)
    ensures members == Members(variant, cls)
  {
    var meta := MetaMembers(cls.name, cls.moduleName);
    members := meta;
    var i := 0;
    while i < |cls.functions|
      invariant 0 <= i <= |cls.functions|
      invariant members == AddFunctions(variant, meta, cls.functions[..i])
    {
      var n := cls.functions[i];
      assert cls.functions[..i + 1][..i] == cls.functions[..i];
      var synchronous := false;
      if variant == Package && n in SynchronousNames {
        synchronous := true;
      } else if StartsWith(n, "__") && (variant == Legacy || n != "__getitem__") {
        i := i + 1;
        continue;
      }
      members := members[n := Function(n, synchronous)];
      i := i + 1;
    }
    assert cls.functions[..i] == cls.functions;
    var withFunctions := members;
    var j := 0;
    while j < |cls.descriptors|
      invariant 0 <= j <= |cls.descriptors|
      invariant members == AddDescriptors(withFunctions, cls.descriptors[..j])
    {
      var n := cls.descriptors[j];
      assert cls.descriptors[..j + 1][..j] == cls.descriptors[..j];
      if !StartsWith(n, "__") {
        members := members[n := Property(n)];
      }
      j := j + 1;
    }
    assert cls.descriptors[..j] == cls.descriptors;
  }

  /** `'%s_%s' % (module.replace(".", "_"), name)`. */
  function ProxyName(moduleName: string, name: string): string {
    ReplaceChar(moduleName, '.', '_') + "_" + name
  }

  /** A generated name has no dot when the class name has none: it is a plain attribute of `proxies`. */
  lemma ProxyNameHasNoDot(moduleName: string, name: string)
    requires '.' !in name
    ensures '.' !in ProxyName(moduleName, name)
    ensures |ProxyName(moduleName, name)| == |moduleName| + 1 + |name|
  {
    var r := ProxyName(moduleName, name);
    forall k | 0 <= k < |r|
      ensures r[k] != '.'
    {
      if k < |moduleName| {
        assert r[k] == ReplaceChar(moduleName, '.', '_')[k];
      } else if k > |moduleName| {
        assert r[k] == name[k - |moduleName| - 1];
      }
    }
  }

  /**
   * Dots and underscores are indistinguishable in generated names: classes
   * of the same name in `Orange.a_b` and `Orange.a.b` get the same proxy name.
   */
  lemma ProxyNamesCanCollide(prefix: string, suffix: string, name: string)
    ensures ProxyName(prefix + "_" + suffix, name) == ProxyName(prefix + "." + suffix, name)
  {
    var underscored := ReplaceChar(prefix + "_" + suffix, '.', '_');
    var dotted := ReplaceChar(prefix + "." + suffix, '.', '_');
    assert |underscored| == |dotted|;
    forall k | 0 <= k < |dotted|
      ensures underscored[k] == dotted[k]
    {
      if k < |prefix| {
        assert (prefix + "_" + suffix)[k] == (prefix + "." + suffix)[k];
      } else if k > |prefix| {
        assert (prefix + "_" + suffix)[k] == (prefix + "." + suffix)[k];
      }
    }
  }

  /** `tuple(new_to_old.get(b, b) for b in bases)`: a base that is a known proxy class becomes its original. */
  function MapBases(newToOld: map<nat, nat>, bases: seq<ClassRef>): (r: seq<ClassRef>)
    ensures |r| == |bases|
    ensures forall k | 0 <= k < |bases| ::
      r[k] == if bases[k].Synthesized? && bases[k].serial in newToOld then Original(newToOld[bases[k].serial]) else bases[k]
  {
    seq(|bases|, k requires 0 <= k < |bases| =>
      if bases[k].Synthesized? && bases[k].serial in newToOld then Original(newToOld[bases[k].serial]) else bases[k])
  }

  /** After the mapping no base is a known proxy class, so mapping again changes nothing. */
  lemma MapBasesIdempotent(newToOld: map<nat, nat>, bases: seq<ClassRef>)
    ensures forall k | 0 <= k < |bases| ::
      !(MapBases(newToOld, bases)[k].Synthesized? && MapBases(newToOld, bases)[k].serial in newToOld)
    ensures MapBases(newToOld, MapBases(newToOld, bases)) == MapBases(newToOld, bases)
  {
  }

  /**
   * What synthesising the proxy for `cls`, found under `name`, produces:
   * the class with its bases mapped back to originals, and the proxy class.
   */
  method Synthesize(variant: Variant, newToOld: map<nat, nat>, name: string, cls: ClassInfo)
    returns (rebased: ClassInfo, proxy: ProxyClass)
    ensures rebased == cls.(bases := MapBases(newToOld, cls.bases))
    ensures proxy == ProxyClass(ProxyName(cls.moduleName, name), Members(variant, cls))
  {
    rebased := cls.(bases := MapBases(newToOld, cls.bases));
    var members := BuildMembers(variant, cls);
    proxy := ProxyClass(ProxyName(cls.moduleName, name), members);
  }

  /** The module prefixes the walk skips. */
  const ExcludedPrefixes: seq<string> := ["Orange.test", "Orange.remote", "Orange.server", "Orange.canvas", "Orange.widgets"]

  predicate Excluded(moduleName: string) {
    exists k | 0 <= k < |ExcludedPrefixes| :: StartsWith(moduleName, ExcludedPrefixes[k])
  }

  /** Exclusion is by prefix, so `Orange.testing` is skipped along with `Orange.test`; `Orange.data` is walked. */
  lemma ExclusionIsByPrefix()
    ensures Excluded("Orange.testing") && Excluded("Orange.widgets.data")
    ensures !Excluded("Orange.data")
  {
    assert StartsWith("Orange.testing", ExcludedPrefixes[0]);
    assert StartsWith("Orange.widgets.data", ExcludedPrefixes[4]);
    forall k | 0 <= k < |ExcludedPrefixes|
      ensures !StartsWith("Orange.data", ExcludedPrefixes[k])
    {
      assert "Orange.data"[7] != ExcludedPrefixes[k][7];
    }
  }

  /**
   * The position of the first walked module whose import raises an exception
   * other than `ImportError`, which nothing catches, or `|modules|` when there
   * is none.
   */
  function FirstCrash(modules: seq<string>, crashing: set<string>): (n: nat)
    ensures n <= |modules|
    ensures forall j | 0 <= j < n :: Excluded(modules[j]) || modules[j] !in crashing
    ensures n < |modules| ==> !Excluded(modules[n]) && modules[n] in crashing
  {
    if modules == [] then 0
    else if !Excluded(modules[0]) && modules[0] in crashing then 0
    else 1 + FirstCrash(modules[1..], crashing)
  }

  /** The walk stops at `i` when no module before it crashes and the one at `i` does, or none is left. */
  lemma FirstCrashAt(modules: seq<string>, crashing: set<string>, i: nat)
    requires i <= |modules|
    requires forall j | 0 <= j < i :: Excluded(modules[j]) || modules[j] !in crashing
    requires i == |modules| || (!Excluded(modules[i]) && modules[i] in crashing)
    ensures FirstCrash(modules, crashing) == i
  {
  }

  /** The modules whose import raises `ImportError`, in walk order: one warning each. */
  function FailedImports(modules: seq<string>, importable: map<string, seq<(string, ClassRef)>>): (r: seq<string>)
    ensures forall m | m in r :: m in modules && !Excluded(m) && m !in importable
    ensures forall m | m in modules && !Excluded(m) && m !in importable :: m in r
    decreases |modules|
  {
    if modules == [] then []
    else
      var m := modules[|modules| - 1];
      var init := modules[..|modules| - 1];
      assert forall x | x in init :: x in modules;
      FailedImports(init, importable) + (if !Excluded(m) && m !in importable then [m] else [])
  }

  /** A class the walk replaces: an original class defined in an `Orange` module. Proxy classes live in `proxies`. */
  predicate Qualifies(classes: map<nat, ClassInfo>, ref: ClassRef) {
    ref.Original? && ref.id in classes && StartsWith(classes[ref.id].moduleName, "Orange")
  }

  /** `classes` after the walk has rewritten some bases: the same classes, with the same names and members. */
  predicate SameClasses(before: map<nat, ClassInfo>, after: map<nat, ClassInfo>) {
    && before.Keys == after.Keys
    && forall id | id in before :: after[id] == before[id].(bases := after[id].bases)
  }

  /**
   * What a walk has built so far: the original classes, the synthesised
   * proxy classes by serial number, the memo tables `old_to_new` and
   * `new_to_old`, the attributes set on the `proxies` module and on the
   * walked modules, and the next free serial number.
   */
  datatype Tables = Tables(
    classes: map<nat, ClassInfo>,
    proxies: map<nat, ProxyClass>,
    oldToNew: map<nat, nat>,
    newToOld: map<nat, nat>,
    proxiesModule: map<string, nat>,
    bindings: map<(string, string), ClassRef>,
    nextSerial: nat)

  /**
   * The memo tables are inverse to each other and hold only replaced
   * Orange classes and their proxies; serial numbers below `nextSerial` are
   * the only ones in use; the `proxies` module and every rebound module
   * attribute hold proxy classes.
   */
  predicate Consistent(t: Tables) {
    MemoConsistent(t) && AttributesConsistent(t)
  }

  predicate MemoConsistent(t: Tables) {
    && (forall s | s in t.proxies :: s < t.nextSerial)
    && (forall id | id in t.oldToNew ::
          && Qualifies(t.classes, Original(id)) && t.oldToNew[id] in t.proxies
          && t.oldToNew[id] in t.newToOld && t.newToOld[t.oldToNew[id]] == id)
    && (forall s | s in t.newToOld :: t.newToOld[s] in t.oldToNew && t.oldToNew[t.newToOld[s]] == s)
  }

  predicate AttributesConsistent(t: Tables) {
    && (forall s | s in t.proxiesModule.Values :: s in t.proxies)
    && (forall key | key in t.bindings :: t.bindings[key].Synthesized? && t.bindings[key].serial in t.newToOld)
  }

  /** A class replaced before: its module attribute is rebound to the proxy it already has. */
  function Reused(t: Tables, moduleName: string, name: string, id: nat): Tables
    requires id in t.oldToNew
  {
    var serial := t.oldToNew[id];
    t.(bindings := t.bindings[(moduleName, name) := Synthesized(serial)], newToOld := t.newToOld[serial := id])
  }

  /**
   * A new class: `rebased` (its bases mapped back) takes its place, `proxy`
   * gets the next serial number and the memo entries, and is set on the
   * `proxies` module and as the module attribute.
   */
  function Replaced(t: Tables, moduleName: string, name: string, id: nat, rebased: ClassInfo, proxy: ProxyClass): Tables {
    var serial := t.nextSerial;
    Tables(t.classes[id := rebased],
           t.proxies[serial := proxy],
           t.oldToNew[id := serial], t.newToOld[serial := id],
           t.proxiesModule[proxy.name := serial],
           t.bindings[(moduleName, name) := Synthesized(serial)],
           serial + 1)
  }

  /**
   * One class found as `name` in module `moduleName`: a replaced class
   * reuses its proxy; a new one gets its bases mapped back, a proxy class
   * and memo entries; either way the module attribute is rebound to the
   * proxy and `new_to_old` records it. Classes from outside `Orange` are
   * left alone.
   */
  function VisitedClass(variant: Variant, t: Tables, moduleName: string, name: string, ref: ClassRef): Tables {
    if !Qualifies(t.classes, ref) then t
    else if ref.id in t.oldToNew then Reused(t, moduleName, name, ref.id)
    else
      var cls := t.classes[ref.id];
      Replaced(t, moduleName, name, ref.id, cls.(bases := MapBases(t.newToOld, cls.bases)),
               ProxyClass(ProxyName(cls.moduleName, name), Members(variant, cls)))
  }

  /** Visiting a class keeps the tables consistent and the classes the same up to their bases. */
  lemma VisitKeepsConsistent(variant: Variant, t: Tables, moduleName: string, name: string, ref: ClassRef)
    requires Consistent(t)
    ensures var t' := VisitedClass(variant, t, moduleName, name, ref);
      Consistent(t') && SameClasses(t.classes, t'.classes) && t.oldToNew.Keys <= t'.oldToNew.Keys
  {
    if Qualifies(t.classes, ref) {
      if ref.id in t.oldToNew {
        ReuseKeepsConsistent(t, moduleName, name, ref.id);
      } else {
        var cls := t.classes[ref.id];
        ReplaceKeepsConsistent(t, moduleName, name, ref.id, cls.(bases := MapBases(t.newToOld, cls.bases)),
                               ProxyClass(ProxyName(cls.moduleName, name), Members(variant, cls)));
      }
    }
  }

  lemma ReuseKeepsConsistent(t: Tables, moduleName: string, name: string, id: nat)
    requires Consistent(t) && id in t.oldToNew
    ensures Consistent(Reused(t, moduleName, name, id))
  {
    assert t.newToOld[t.oldToNew[id] := id] == t.newToOld;
  }

  lemma ReplaceKeepsConsistent(t: Tables, moduleName: string, name: string, id: nat, rebased: ClassInfo, proxy: ProxyClass)
    requires Consistent(t) && Qualifies(t.classes, Original(id)) && id !in t.oldToNew
    requires rebased == t.classes[id].(bases := rebased.bases)
    ensures var t' := Replaced(t, moduleName, name, id, rebased, proxy);
      Consistent(t') && SameClasses(t.classes, t'.classes)
  {
    ReplaceKeepsMemo(t, moduleName, name, id, rebased, proxy);
    ReplaceKeepsAttributes(t, moduleName, name, id, rebased, proxy);
  }

  lemma ReplaceKeepsMemo(t: Tables, moduleName: string, name: string, id: nat, rebased: ClassInfo, proxy: ProxyClass)
    requires MemoConsistent(t) && Qualifies(t.classes, Original(id)) && id !in t.oldToNew
    requires rebased == t.classes[id].(bases := rebased.bases)
    ensures MemoConsistent(Replaced(t, moduleName, name, id, rebased, proxy))
  {
    var t' := Replaced(t, moduleName, name, id, rebased, proxy);
    assert t.nextSerial !in t.newToOld && t.nextSerial !in t.proxies;
    forall c | c in t'.oldToNew
      ensures Qualifies(t'.classes, Original(c))
    {
      assert Qualifies(t.classes, Original(c));
    }
  }

  lemma ReplaceKeepsAttributes(t: Tables, moduleName: string, name: string, id: nat, rebased: ClassInfo, proxy: ProxyClass)
    requires AttributesConsistent(t) && id in t.classes
    requires rebased == t.classes[id].(bases := rebased.bases)
    ensures var t' := Replaced(t, moduleName, name, id, rebased, proxy);
      AttributesConsistent(t') && SameClasses(t.classes, t'.classes)
  {
  }

  /**
   * After a visit an Orange class is replaced: it has a proxy, the module
   * attribute is that proxy, and `new_to_old` maps the proxy back. A class
   * replaced before keeps its proxy: no second proxy class is made.
   * Anything else leaves the tables unchanged.
   */
  lemma VisitReplaces(variant: Variant, t: Tables, moduleName: string, name: string, ref: ClassRef)
    requires Consistent(t)
    ensures var t' := VisitedClass(variant, t, moduleName, name, ref);
      && (!Qualifies(t.classes, ref) ==> t' == t)
      && (Qualifies(t.classes, ref) ==>
            && ref.id in t'.oldToNew && (moduleName, name) in t'.bindings
            && t'.bindings[(moduleName, name)] == Synthesized(t'.oldToNew[ref.id])
            && t'.newToOld[t'.oldToNew[ref.id]] == ref.id)
      && (Qualifies(t.classes, ref) && ref.id in t.oldToNew ==>
            t'.proxies == t.proxies && t'.oldToNew == t.oldToNew && t'.classes == t.classes)
      && (Qualifies(t.classes, ref) && ref.id !in t.oldToNew ==>
            && t'.proxies.Keys == t.proxies.Keys + {t.nextSerial} && t.nextSerial !in t.proxies
            && t'.proxies[t.nextSerial] == ProxyClass(ProxyName(t.classes[ref.id].moduleName, name), Members(variant, t.classes[ref.id]))
            && t'.classes[ref.id].bases == MapBases(t.newToOld, t.classes[ref.id].bases))
  {
  }

  /** The classes of one module, visited in order. */
  function VisitedClasses(variant: Variant, t: Tables, moduleName: string, found: seq<(string, ClassRef)>): Tables
    decreases |found|
  {
    if found == [] then t
    else
      var last := found[|found| - 1];
      VisitedClass(variant, VisitedClasses(variant, t, moduleName, found[..|found| - 1]), moduleName, last.0, last.1)
  }

  /** The walk over `modules`: excluded modules are skipped, and so (with a warning) are those whose import raises `ImportError`. */
  function Walked(variant: Variant, t: Tables, modules: seq<string>, importable: map<string, seq<(string, ClassRef)>>): Tables
    decreases |modules|
  {
    if modules == [] then t
    else
      var prev := Walked(variant, t, modules[..|modules| - 1], importable);
      var m := modules[|modules| - 1];
      if Excluded(m) || m !in importable then prev else VisitedClasses(variant, prev, m, importable[m])
  }

  /** One more module of the walk: skipped, warned about, or visited. */
  lemma WalkedStep(variant: Variant, t: Tables, modules: seq<string>, importable: map<string, seq<(string, ClassRef)>>, i: nat)
    requires i < |modules|
    ensures var m := modules[i];
      && Walked(variant, t, modules[..i + 1], importable)
         == (if Excluded(m) || m !in importable then Walked(variant, t, modules[..i], importable)
             else VisitedClasses(variant, Walked(variant, t, modules[..i], importable), m, importable[m]))
      && FailedImports(modules[..i + 1], importable)
         == FailedImports(modules[..i], importable) + (if !Excluded(m) && m !in importable then [m] else [])
  {
    assert modules[..i + 1][..i] == modules[..i];
  }

  /** Visiting a module's classes keeps the tables consistent, the classes the same, and every replacement made. */
  lemma {:induction false} VisitedClassesConsistent(variant: Variant, t: Tables, moduleName: string, found: seq<(string, ClassRef)>)
    requires Consistent(t)
    ensures var t' := VisitedClasses(variant, t, moduleName, found);
      Consistent(t') && SameClasses(t.classes, t'.classes) && t.oldToNew.Keys <= t'.oldToNew.Keys
    decreases |found|
  {
    if found != [] {
      var init := found[..|found| - 1];
      var last := found[|found| - 1];
      VisitedClassesConsistent(variant, t, moduleName, init);
      VisitKeepsConsistent(variant, VisitedClasses(variant, t, moduleName, init), moduleName, last.0, last.1);
    }
  }

  /** Every Orange class found in a module has a proxy once the module is visited. */
  lemma {:induction false} VisitedClassesReplaceAll(variant: Variant, t: Tables, moduleName: string, found: seq<(string, ClassRef)>)
    requires Consistent(t)
    ensures var t' := VisitedClasses(variant, t, moduleName, found);
      forall k | 0 <= k < |found| && Qualifies(t.classes, found[k].1) :: found[k].1.id in t'.oldToNew
    decreases |found|
  {
    if found != [] {
      var init := found[..|found| - 1];
      var last := found[|found| - 1];
      var mid := VisitedClasses(variant, t, moduleName, init);
      VisitedClassesReplaceAll(variant, t, moduleName, init);
      VisitedClassesConsistent(variant, t, moduleName, init);
      VisitKeepsConsistent(variant, mid, moduleName, last.0, last.1);
      VisitReplaces(variant, mid, moduleName, last.0, last.1);
      forall k | 0 <= k < |found| && Qualifies(t.classes, found[k].1)
        ensures found[k].1.id in VisitedClasses(variant, t, moduleName, found).oldToNew
      {
        if k < |init| {
          assert found[k] == init[k];
        } else {
          assert Qualifies(mid.classes, last.1);
        }
      }
    }
  }

  /** The walk keeps the tables consistent, the classes the same, and never forgets a replacement. */
  lemma {:induction false} WalkedConsistent(variant: Variant, t: Tables, modules: seq<string>, importable: map<string, seq<(string, ClassRef)>>)
    requires Consistent(t)
    ensures var t' := Walked(variant, t, modules, importable);
      Consistent(t') && SameClasses(t.classes, t'.classes) && t.oldToNew.Keys <= t'.oldToNew.Keys
    decreases |modules|
  {
    if modules != [] {
      var init := modules[..|modules| - 1];
      var m := modules[|modules| - 1];
      WalkedConsistent(variant, t, init, importable);
      if !Excluded(m) && m in importable {
        VisitedClassesConsistent(variant, Walked(variant, t, init, importable), m, importable[m]);
      }
    }
  }

  /** After the walk, every Orange class found in a walked module has been replaced by a proxy. */
  lemma {:induction false} WalkedReplacesAll(variant: Variant, t: Tables, modules: seq<string>, importable: map<string, seq<(string, ClassRef)>>)
    requires Consistent(t)
    ensures var t' := Walked(variant, t, modules, importable);
      forall m, k | m in modules && !Excluded(m) && m in importable && 0 <= k < |importable[m]| && Qualifies(t.classes, importable[m][k].1) ::
        importable[m][k].1.id in t'.oldToNew
    decreases |modules|
  {
    if modules != [] {
      var init := modules[..|modules| - 1];
      var last := modules[|modules| - 1];
      var mid := Walked(variant, t, init, importable);
      WalkedReplacesAll(variant, t, init, importable);
      WalkedConsistent(variant, t, init, importable);
      if !Excluded(last) && last in importable {
        VisitedClassesReplaceAll(variant, mid, last, importable[last]);
        VisitedClassesConsistent(variant, mid, last, importable[last]);
      }
      forall m, k | m in modules && !Excluded(m) && m in importable && 0 <= k < |importable[m]| && Qualifies(t.classes, importable[m][k].1)
        ensures importable[m][k].1.id in Walked(variant, t, modules, importable).oldToNew
      {
        var ref := importable[m][k].1;
        if m in init {
          assert ref.id in mid.oldToNew;
        } else {
          assert m == last;
          assert Qualifies(mid.classes, ref);
        }
      }
    }
  }

  /**
   * The state of one walk (the package's or the older module's): the
   * tables it builds and the import warnings it emits.
   */
  class Walk {
    const variant: Variant
    var tables: Tables
    var warnings: seq<string>

    ghost predicate Valid()
      reads this
    {
      Consistent(tables)
    }

    constructor (variant: Variant, classes: map<nat, ClassInfo>)
      ensures this.variant == variant
      ensures tables == Tables(classes, map[], map[], map[], map[], map[], 0) && warnings == []
      ensures Valid()
    {
      this.variant := variant;
      tables := Tables(classes, map[], map[], map[], map[], map[], 0);
      warnings := [];
    }

    /** The body of the walk's inner loop, for one class. */
    method VisitClass(moduleName: string, name: string, ref: ClassRef)
      modifies this
      ensures warnings == old(warnings)
      ensures tables == VisitedClass(variant, old(tables), moduleName, name, ref)
    {
      if !Qualifies(tables.classes, ref) {
        return;
      }
      var id := ref.id;
      var newClass: nat;
      if id in tables.oldToNew {
        newClass := tables.oldToNew[id];
      } else {
        var rebased, proxy := Synthesize(variant, tables.newToOld, name, tables.classes[id]);
        newClass := tables.nextSerial;
        tables := tables.(classes := tables.classes[id := rebased], nextSerial := newClass + 1);
        tables := tables.(proxies := tables.proxies[newClass := proxy], oldToNew := tables.oldToNew[id := newClass]);
        tables := tables.(proxiesModule := tables.proxiesModule[proxy.name := newClass]);
      }
      tables := tables.(bindings := tables.bindings[(moduleName, name) := Synthesized(newClass)]);
      tables := tables.(newToOld := tables.newToOld[newClass := id]);
    }

    /** The inner loop: every class `inspect.getmembers(module, inspect.isclass)` lists, in order. */
    method VisitModule(moduleName: string, found: seq<(string, ClassRef)>)
      modifies this
      ensures warnings == old(warnings)
      ensures tables == VisitedClasses(variant, old(tables), moduleName, found)
    {
      var i := 0;
      while i < |found|
        invariant 0 <= i <= |found|
        invariant warnings == old(warnings)
        invariant tables == VisitedClasses(variant, old(tables), moduleName, found[..i])
      {
        assert found[..i + 1][..i] == found[..i];
        var (name, ref) := found[i];
        VisitClass(moduleName, name, ref);
        i := i + 1;
      }
      assert found[..i] == found;
    }

    /**
     * The walk over the modules `walk_packages` lists: excluded modules are
     * skipped; a module whose import raises `ImportError` is skipped with a
     * warning; the classes of the others are visited. `importable` maps each
     * module that imports to the classes found in it; a module outside it
     * raises `ImportError`, unless it is in `crashing`, whose import raises
     * another exception. That exception escapes the loop: the walk stops at
     * the first such module and `raised` names it.
     */
    method Run(modules: seq<string>, importable: map<string, seq<(string, ClassRef)>>, crashing: set<string>)
      returns (raised: Option<string>)
      requires Valid()
      modifies this
      ensures Valid()
      ensures var n := FirstCrash(modules, crashing);
        && tables == Walked(variant, old(tables), modules[..n], importable)
        && warnings == old(warnings) + FailedImports(modules[..n], importable)
        && raised == (if n < |modules| then Some(modules[n]) else None)
    {
      var i := 0;
      while i < |modules|
        invariant 0 <= i <= |modules|
        invariant forall j | 0 <= j < i :: Excluded(modules[j]) || modules[j] !in crashing
        invariant tables == Walked(variant, old(tables), modules[..i], importable)
        invariant warnings == old(warnings) + FailedImports(modules[..i], importable)
      {
        var m := modules[i];
        if !Excluded(m) && m in crashing {
          break;
        }
        WalkedStep(variant, old(tables), modules, importable, i);
        if !Excluded(m) {
          if m !in importable {
            warnings := warnings + [m];
          } else {
            VisitModule(m, importable[m]);
          }
        }
        i := i + 1;
      }
      FirstCrashAt(modules, crashing, i);
      WalkedConsistent(variant, old(tables), modules[..i], importable);
      raised := if i < |modules| then Some(modules[i]) else None;
    }
  }

  /**
   * The proxy module's own `create_proxy` and its `new_to_old` table: it
   * synthesises the proxy for one class on request, with the package's
   * member filter and without the walk's `old_to_new` memo.
   */
  class Factory {
    var classes: map<nat, ClassInfo>
    var proxies: map<nat, ProxyClass>
    var newToOld: map<nat, nat>
    var nextSerial: nat

    /** Every proxy made so far maps back to a class, and serial numbers below `nextSerial` are the only ones in use. */
    ghost predicate Valid()
      reads this
    {
      && (forall s | s in proxies :: s < nextSerial)
      && (forall s | s in newToOld :: s in proxies && newToOld[s] in classes)
    }

    constructor (classes: map<nat, ClassInfo>)
      ensures this.classes == classes && proxies == map[] && newToOld == map[] && nextSerial == 0
      ensures Valid()
    {
      this.classes := classes;
      proxies := map[];
      newToOld := map[];
      nextSerial := 0;
    }

    /**
     * A new proxy class for class `id`, found under `name`: the class's
     * bases are mapped back first; the proxy gets a fresh serial number
     * and a `new_to_old` entry. Asking twice makes two proxies.
     */
    method CreateProxy(name: string, id: nat) returns (newName: string, serial: nat)
      requires Valid() && id in classes
      modifies this
      ensures Valid()
      ensures serial == old(nextSerial) && serial !in old(proxies) && nextSerial == serial + 1
      ensures newName == ProxyName(old(classes)[id].moduleName, name)
      ensures classes == old(classes)[id := old(classes)[id].(bases := MapBases(old(newToOld), old(classes)[id].bases))]
      ensures proxies == old(proxies)[serial := ProxyClass(newName, Members(Package, old(classes)[id]))]
      ensures newToOld == old(newToOld)[serial := id]
    {
      var rebased, proxy := Synthesize(Package, newToOld, name, classes[id]);
      classes := classes[id := rebased];
      serial := nextSerial;
      newName := proxy.name;
      proxies := proxies[serial := proxy];
      newToOld := newToOld[serial := id];
      nextSerial := serial + 1;
    }
  }
}
