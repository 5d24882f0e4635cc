/**
 * Plugin registration at start-up (apps/open-press-backend/src/bootstrap.ts).
 *
 * `makeRootModule` builds an `imports` array holding the application's root
 * module, lets `registerPlugins` append the default exports of the configured
 * plugins to it in place, and hands the array to the plugin loader module.
 * Module resolution (`require.resolve`) and dynamic `import` are foreign
 * runtime facilities: they are given as a `Runtime` of two oracles.
 */
module Bootstrap {
  import opened Wrappers

  /** A Nest module class: the root module or a plugin's default export. */
  datatype ModuleType = ModuleType(name: string)

  /** What `require.resolve(name, { paths: [cwd] })` does: return a path or throw. */
  datatype Resolution = Resolved(path: string) | ResolveThrows(message: string)

  /** How the promise of `import(path)` settles; a falsy `default` export is `None`. */
  datatype Load = Loaded(defaultExport: Option<ModuleType>) | LoadRejects(reason: string)

  datatype Runtime = Runtime(resolve: string -> Resolution, load: string -> Load)

  /** A value in the array that `Promise.all` fulfils with: the `null` put in for a
      name that failed to resolve, or a loaded module namespace (always truthy). */
  datatype Entry = NullEntry | Namespace(defaultExport: Option<ModuleType>)

  /** The argument of `PluginLoaderModule.forModule`, which consumes the final `imports` list. */
  datatype DynamicModule = PluginLoaderModule(imports: seq<ModuleType>)

  /** The text of the warning logged for a plugin whose name does not resolve. */
  function WarningText(pluginName: string, message: string): string
  {
    "Failed to load plugin " + pluginName + ": " + message
  }

  // ---------------------------------------------------------------------------
  // The callback given to `config.plugins.map`, and the pure `filter`/`map`/`filter` chain.
  // ---------------------------------------------------------------------------

  /** How the promise returned by the `map` callback for one name settles. */
  function Attempt(rt: Runtime, pluginName: string): (r: Outcome<Entry, string>)
    ensures r == Fulfilled(NullEntry) <==> rt.resolve(pluginName).ResolveThrows?
    ensures r.Rejected? <==> rt.resolve(pluginName).Resolved? && rt.load(rt.resolve(pluginName).path).LoadRejects?
    ensures r.Rejected? ==> r.reason == rt.load(rt.resolve(pluginName).path).reason
    ensures r.Fulfilled? && r.value.Namespace?
            ==> rt.resolve(pluginName).Resolved? && rt.load(rt.resolve(pluginName).path) == Loaded(r.value.defaultExport)
  {
    match rt.resolve(pluginName)
    case ResolveThrows(_) => Fulfilled(NullEntry)
    case Resolved(path) =>
      match rt.load(path)
      case LoadRejects(reason) => Rejected(reason)
      case Loaded(d) => Fulfilled(Namespace(d))
  }

  /** The warnings the `map` callback logs for one name: one when resolution throws, none otherwise. */
  function WarningFor(rt: Runtime, pluginName: string): (w: seq<string>)
    ensures |w| <= 1
    ensures w != [] <==> rt.resolve(pluginName).ResolveThrows?
    ensures w != [] ==> w[0] == WarningText(pluginName, rt.resolve(pluginName).message)
  {
    match rt.resolve(pluginName)
    case ResolveThrows(message) => [WarningText(pluginName, message)]
    case Resolved(_) => []
  }

  /** The warnings logged while mapping over all names, in name order. */
  function Warnings(rt: Runtime, pluginNames: seq<string>): (w: seq<string>)
    ensures |w| <= |pluginNames|
  {
    if pluginNames == [] then [] else WarningFor(rt, pluginNames[0]) + Warnings(rt, pluginNames[1..])
  }

  /** `config.plugins.map(callback)`: one promise per name, in name order. */
  function SettleAll(rt: Runtime, pluginNames: seq<string>): (s: seq<Outcome<Entry, string>>)
    ensures |s| == |pluginNames|
  {
    seq(|pluginNames|, k requires 0 <= k < |pluginNames| => Attempt(rt, pluginNames[k]))
  }

  /** `Promise.all`: fulfils with every value, in order, unless some promise rejects. */
  function AwaitAll(settled: seq<Outcome<Entry, string>>): (r: Outcome<seq<Entry>, string>)
    ensures r.Fulfilled? <==> forall k :: 0 <= k < |settled| ==> settled[k].Fulfilled?
    ensures r.Fulfilled? ==> |r.value| == |settled|
    ensures r.Fulfilled? ==> forall k :: 0 <= k < |settled| ==> settled[k] == Fulfilled(r.value[k])
    ensures r.Rejected? ==> exists k :: 0 <= k < |settled| && settled[k] == Rejected(r.reason)
  {
    if settled == [] then Fulfilled([])
    else match settled[0]
      case Rejected(reason) => Rejected(reason)
      case Fulfilled(e) =>
        match AwaitAll(settled[1..])
        case Rejected(reason) => Rejected(reason)
        case Fulfilled(rest) => Fulfilled([e] + rest)
  }

  /** `.filter(Boolean)` on the settled values: drops the `null` entries. */
  function DropNull(entries: seq<Entry>): (r: seq<Entry>)
    ensures |r| <= |entries|
    ensures forall k :: 0 <= k < |r| ==> r[k].Namespace? && r[k] in entries
    ensures forall e :: e in entries && e.Namespace? ==> e in r
  {
    if entries == [] then []
    else (if entries[0].NullEntry? then [] else [entries[0]]) + DropNull(entries[1..])
  }

  /** `.map((plugin) => plugin.default)`. */
  function Defaults(namespaces: seq<Entry>): (r: seq<Option<ModuleType>>)
    requires forall k :: 0 <= k < |namespaces| ==> namespaces[k].Namespace?
    ensures |r| == |namespaces|
    ensures forall k :: 0 <= k < |r| ==> r[k] == namespaces[k].defaultExport
  {
    seq(|namespaces|, k requires 0 <= k < |namespaces| => namespaces[k].defaultExport)
  }

  /** `.filter(Boolean)` on the default exports: drops the falsy ones. */
  function DropFalsy(defaults: seq<Option<ModuleType>>): (r: seq<ModuleType>)
    ensures |r| <= |defaults|
    ensures forall k :: 0 <= k < |r| ==> Some(r[k]) in defaults
    ensures forall m :: Some(m) in defaults ==> m in r
  {
    if defaults == [] then []
    else (if defaults[0].None? then [] else [defaults[0].value]) + DropFalsy(defaults[1..])
  }

  /** The whole `plugins.filter(Boolean).map(...).filter(Boolean)` chain. */
  function PluginModules(plugins: seq<Entry>): (r: seq<ModuleType>)
    ensures |r| <= |plugins|
  {
    var namespaces := DropNull(plugins);
    DropFalsy(Defaults(namespaces))
  }

  // ---------------------------------------------------------------------------
  // A reference definition, name by name, and its properties.
  // ---------------------------------------------------------------------------

  /** A name survives when it resolves and loads, and its module has a truthy default export. */
  predicate Survives(rt: Runtime, pluginName: string)
  {
    rt.resolve(pluginName).Resolved?
    && rt.load(rt.resolve(pluginName).path).Loaded?
    && rt.load(rt.resolve(pluginName).path).defaultExport.Some?
  }

  function DefaultOf(rt: Runtime, pluginName: string): ModuleType
    requires Survives(rt, pluginName)
  {
    rt.load(rt.resolve(pluginName).path).defaultExport.value
  }

  /** No name's `import` rejects, so `Promise.all` fulfils. */
  predicate AllLoad(rt: Runtime, pluginNames: seq<string>)
  {
    forall k :: 0 <= k < |pluginNames| ==> Attempt(rt, pluginNames[k]).Fulfilled?
  }

  /** The modules contributed by the names, taken one name at a time. */
  function Survivors(rt: Runtime, pluginNames: seq<string>): seq<ModuleType>
  {
    if pluginNames == [] then []
    else (if Survives(rt, pluginNames[0]) then [DefaultOf(rt, pluginNames[0])] else [])
         + Survivors(rt, pluginNames[1..])
  }

  /** The positions of the surviving names, collected from the last name backwards. */
  ghost function SurvivorIndices(rt: Runtime, pluginNames: seq<string>): seq<nat>
    decreases |pluginNames|
  {
    if pluginNames == [] then []
    else
      var n := |pluginNames| - 1;
      SurvivorIndices(rt, pluginNames[..n]) + (if Survives(rt, pluginNames[n]) then [n] else [])
  }

  /** Each name is handled on its own: the result for a concatenation is the concatenation of the results. */
  lemma {:induction false} SurvivorsAppend(rt: Runtime, xs: seq<string>, ys: seq<string>)
    ensures Survivors(rt, xs + ys) == Survivors(rt, xs) + Survivors(rt, ys)
  {
    if xs == [] {
      assert xs + ys == ys;
    } else {
      assert (xs + ys)[1..] == xs[1..] + ys;
      SurvivorsAppend(rt, xs[1..], ys);
    }
  }

  /** No warning at all is logged exactly when every configured name resolves. */
  lemma {:induction false} NoWarningsIffAllResolve(rt: Runtime, pluginNames: seq<string>)
    ensures Warnings(rt, pluginNames) == []
            <==> forall k :: 0 <= k < |pluginNames| ==> rt.resolve(pluginNames[k]).Resolved?
  {
    if pluginNames != [] {
      var tail := pluginNames[1..];
      NoWarningsIffAllResolve(rt, tail);
      if forall k :: 0 <= k < |tail| ==> rt.resolve(tail[k]).Resolved? {
        if rt.resolve(pluginNames[0]).Resolved? {
          forall k | 0 <= k < |pluginNames| ensures rt.resolve(pluginNames[k]).Resolved? {
            if k > 0 { assert pluginNames[k] == tail[k - 1]; }
          }
        }
      } else {
        var k :| 0 <= k < |tail| && !rt.resolve(tail[k]).Resolved?;
        assert pluginNames[k + 1] == tail[k];
      }
    }
  }

  /** Warnings are logged name by name, so they too distribute over concatenation. */
  lemma {:induction false} WarningsAppend(rt: Runtime, xs: seq<string>, ys: seq<string>)
    ensures Warnings(rt, xs + ys) == Warnings(rt, xs) + Warnings(rt, ys)
  {
    if xs == [] {
      assert xs + ys == ys;
    } else {
      assert (xs + ys)[1..] == xs[1..] + ys;
      WarningsAppend(rt, xs[1..], ys);
    }
  }

  /** When every `import` fulfils, the `filter`/`map`/`filter` chain over the values
      `Promise.all` fulfils with yields exactly the reference list of surviving default
      exports. */
  lemma {:induction false} PipelineMatchesSurvivors(rt: Runtime, pluginNames: seq<string>, plugins: seq<Entry>)
    requires |plugins| == |pluginNames|
    requires forall k :: 0 <= k < |plugins| ==> Attempt(rt, pluginNames[k]) == Fulfilled(plugins[k])
    ensures PluginModules(plugins) == Survivors(rt, pluginNames)
  {
    if pluginNames != [] {
      var tail, rest := pluginNames[1..], plugins[1..];
      forall k | 0 <= k < |rest| ensures Attempt(rt, tail[k]) == Fulfilled(rest[k]) {
        assert tail[k] == pluginNames[k + 1] && rest[k] == plugins[k + 1];
      }
      PipelineMatchesSurvivors(rt, tail, rest);
      assert plugins == [plugins[0]] + rest;
      PluginModulesAppend([plugins[0]], rest);
      PluginModulesOfOne(rt, pluginNames[0], plugins[0]);
    }
  }

  /** The chain applied to the settled value of a single name. */
  lemma PluginModulesOfOne(rt: Runtime, pluginName: string, plugin: Entry)
    requires Attempt(rt, pluginName) == Fulfilled(plugin)
    ensures PluginModules([plugin]) == if Survives(rt, pluginName) then [DefaultOf(rt, pluginName)] else []
  {
    if plugin.Namespace? {
      assert DropNull([plugin]) == [plugin];
      assert Defaults([plugin]) == [plugin.defaultExport];
    } else {
      assert DropNull([plugin]) == [];
    }
  }

  lemma PluginModulesAppend(xs: seq<Entry>, ys: seq<Entry>)
    ensures PluginModules(xs + ys) == PluginModules(xs) + PluginModules(ys)
  {
    DropNullAppend(xs, ys);
    var nx, ny := DropNull(xs), DropNull(ys);
    assert Defaults(nx + ny) == Defaults(nx) + Defaults(ny);
    DropFalsyAppend(Defaults(nx), Defaults(ny));
  }

  lemma {:induction false} DropNullAppend(xs: seq<Entry>, ys: seq<Entry>)
    ensures DropNull(xs + ys) == DropNull(xs) + DropNull(ys)
  {
    if xs == [] {
      assert xs + ys == ys;
    } else {
      assert (xs + ys)[1..] == xs[1..] + ys;
      DropNullAppend(xs[1..], ys);
    }
  }

  lemma {:induction false} DropFalsyAppend(xs: seq<Option<ModuleType>>, ys: seq<Option<ModuleType>>)
    ensures DropFalsy(xs + ys) == DropFalsy(xs) + DropFalsy(ys)
  {
    if xs == [] {
      assert xs + ys == ys;
    } else {
      assert (xs + ys)[1..] == xs[1..] + ys;
      DropFalsyAppend(xs[1..], ys);
    }
  }

  /** Order and count: the appended modules are the default exports of exactly the
      surviving names, in the relative order of those names, so there are at most as
      many of them as there are names. */
  lemma {:induction false} SurvivorsInOrder(rt: Runtime, pluginNames: seq<string>)
    ensures var idx := SurvivorIndices(rt, pluginNames);
      && |Survivors(rt, pluginNames)| == |idx| <= |pluginNames|
      && (forall k :: 0 <= k < |idx| ==>
            idx[k] < |pluginNames| && Survives(rt, pluginNames[idx[k]])
            && Survivors(rt, pluginNames)[k] == DefaultOf(rt, pluginNames[idx[k]]))
      && (forall k, l :: 0 <= k < l < |idx| ==> idx[k] < idx[l])
      && (forall i :: 0 <= i < |pluginNames| && Survives(rt, pluginNames[i]) ==> i in idx)
    decreases |pluginNames|
  {
    if pluginNames != [] {
      var n := |pluginNames| - 1;
      var init := pluginNames[..n];
      var last := pluginNames[n];
      SurvivorsInOrder(rt, init);
      assert pluginNames == init + [last];
      SurvivorsAppend(rt, init, [last]);
      assert Survivors(rt, [last]) == (if Survives(rt, last) then [DefaultOf(rt, last)] else []);
      var idx0 := SurvivorIndices(rt, init);
      var idx := SurvivorIndices(rt, pluginNames);
      assert idx == idx0 + (if Survives(rt, last) then [n] else []);
      forall k | 0 <= k < |idx0|
        ensures pluginNames[idx0[k]] == init[idx0[k]]
      {
      }
      forall i | 0 <= i < |pluginNames| && Survives(rt, pluginNames[i])
        ensures i in idx
      {
        if i < n {
          assert init[i] == pluginNames[i];
          assert i in idx0;
        }
      }
    }
  }

  /** Failure isolation: a name whose resolution throws contributes no module and exactly
      one warning; the other names are processed exactly as if it were not listed. */
  lemma FailedResolutionContributesNothing(rt: Runtime, pluginNames: seq<string>, i: nat)
    requires i < |pluginNames| && rt.resolve(pluginNames[i]).ResolveThrows?
    ensures var others := pluginNames[..i] + pluginNames[i + 1..];
      && Survivors(rt, pluginNames) == Survivors(rt, others)
      && Warnings(rt, pluginNames)
         == Warnings(rt, pluginNames[..i])
            + [WarningText(pluginNames[i], rt.resolve(pluginNames[i]).message)]
            + Warnings(rt, pluginNames[i + 1..])
      && (AllLoad(rt, pluginNames) <==> AllLoad(rt, others))
  {
    SurvivorsSplit(rt, pluginNames, i);
    WarningsSplit(rt, pluginNames, i);
    AllLoadSplit(rt, pluginNames, i);
  }

  /** A name that loads but whose `default` export is falsy is dropped without any warning. */
  lemma FalsyDefaultDroppedSilently(rt: Runtime, pluginNames: seq<string>, i: nat)
    requires i < |pluginNames| && rt.resolve(pluginNames[i]).Resolved?
    requires rt.load(rt.resolve(pluginNames[i]).path) == Loaded(None)
    ensures var others := pluginNames[..i] + pluginNames[i + 1..];
      && Survivors(rt, pluginNames) == Survivors(rt, others)
      && Warnings(rt, pluginNames) == Warnings(rt, others)
      && (AllLoad(rt, pluginNames) <==> AllLoad(rt, others))
  {
    SurvivorsSplit(rt, pluginNames, i);
    WarningsSplit(rt, pluginNames, i);
    AllLoadSplit(rt, pluginNames, i);
  }

  lemma SurvivorsSplit(rt: Runtime, pluginNames: seq<string>, i: nat)
    requires i < |pluginNames|
    ensures var before, here, after := pluginNames[..i], pluginNames[i], pluginNames[i + 1..];
      && Survivors(rt, pluginNames)
         == Survivors(rt, before) + (if Survives(rt, here) then [DefaultOf(rt, here)] else []) + Survivors(rt, after)
      && Survivors(rt, before + after) == Survivors(rt, before) + Survivors(rt, after)
  {
    var before, here, after := pluginNames[..i], pluginNames[i], pluginNames[i + 1..];
    assert pluginNames == before + ([here] + after);
    assert ([here] + after)[1..] == after;
    SurvivorsAppend(rt, before, [here] + after);
    SurvivorsAppend(rt, before, after);
  }

  lemma WarningsSplit(rt: Runtime, pluginNames: seq<string>, i: nat)
    requires i < |pluginNames|
    ensures var before, here, after := pluginNames[..i], pluginNames[i], pluginNames[i + 1..];
      && Warnings(rt, pluginNames) == Warnings(rt, before) + WarningFor(rt, here) + Warnings(rt, after)
      && Warnings(rt, before + after) == Warnings(rt, before) + Warnings(rt, after)
  {
    var before, here, after := pluginNames[..i], pluginNames[i], pluginNames[i + 1..];
    assert pluginNames == before + ([here] + after);
    assert ([here] + after)[1..] == after;
    WarningsAppend(rt, before, [here] + after);
    WarningsAppend(rt, before, after);
  }

  lemma AllLoadSplit(rt: Runtime, pluginNames: seq<string>, i: nat)
    requires i < |pluginNames|
    ensures AllLoad(rt, pluginNames)
            <==> AllLoad(rt, pluginNames[..i] + pluginNames[i + 1..]) && Attempt(rt, pluginNames[i]).Fulfilled?
  {
    var others := pluginNames[..i] + pluginNames[i + 1..];
    if AllLoad(rt, others) && Attempt(rt, pluginNames[i]).Fulfilled? {
      forall k | 0 <= k < |pluginNames| ensures Attempt(rt, pluginNames[k]).Fulfilled? {
        if k < i {
          assert pluginNames[k] == others[k];
        } else if k > i {
          assert pluginNames[k] == others[k - 1];
        }
      }
    }
    if AllLoad(rt, pluginNames) {
      forall k | 0 <= k < |others| ensures Attempt(rt, others[k]).Fulfilled? {
        if k < i {
          assert others[k] == pluginNames[k];
        } else {
          assert others[k] == pluginNames[k + 1];
        }
      }
    }
  }

  // ---------------------------------------------------------------------------
  // The state that registration changes: the `imports` array and the console.
  // ---------------------------------------------------------------------------

  /** The `imports` array of the root module, appended to in place. */
  class ImportList {
    var entries: seq<ModuleType>

    /** `const imports = [root_module]`. */
    constructor (rootModule: ModuleType)
      ensures entries == [rootModule]
    {
      entries := [rootModule];
    }

    /** `imports.push(...items)`. */
    method Push(items: seq<ModuleType>)
      modifies this
      ensures entries == old(entries) + items
    {
      entries := entries + items;
    }
  }

  /** The console, seen only through the warnings written to it. */
  class Console {
    var warnings: seq<string>

    constructor ()
      ensures warnings == []
    {
      warnings := [];
    }

    /** `console.warn(message)`. */
    method Warn(message: string)
      modifies this
      ensures warnings == old(warnings) + [message]
    {
      warnings := warnings + [message];
    }
  }

  /** `registerPlugins(imports)` with the configured names given as `pluginNames`.
      Every name is tried and every resolution failure is logged; the `imports` array
      only grows, by the surviving default exports in name order, and only when no
      `import` rejects. */
  method RegisterPlugins(imports: ImportList, console: Console, rt: Runtime, pluginNames: seq<string>)
    returns (r: Outcome<(), string>)
    modifies imports, console
    ensures console.warnings == old(console.warnings) + Warnings(rt, pluginNames)
    ensures r.Fulfilled? <==> AllLoad(rt, pluginNames)
    ensures r.Rejected? ==> exists k :: 0 <= k < |pluginNames| && Attempt(rt, pluginNames[k]) == Rejected(r.reason)
    ensures imports.entries == if r.Fulfilled? then old(imports.entries) + Survivors(rt, pluginNames)
                               else old(imports.entries)
  {
    var promises: seq<Outcome<Entry, string>> := [];
    var i := 0;
    while i < |pluginNames|
      invariant 0 <= i <= |pluginNames|
      invariant promises == SettleAll(rt, pluginNames[..i])
      invariant console.warnings == old(console.warnings) + Warnings(rt, pluginNames[..i])
      invariant imports.entries == old(imports.entries)
    {
      var pluginName := pluginNames[i];
      var promise: Outcome<Entry, string>;
      match rt.resolve(pluginName) {
        case ResolveThrows(message) =>
          console.Warn(WarningText(pluginName, message));
          promise := Fulfilled(NullEntry);
        case Resolved(path) =>
          promise := match rt.load(path)
            case LoadRejects(reason) => Rejected(reason)
            case Loaded(d) => Fulfilled(Namespace(d));
      }
      promises := promises + [promise];
      assert pluginNames[..i + 1] == pluginNames[..i] + [pluginName];
      WarningsAppend(rt, pluginNames[..i], [pluginName]);
      i := i + 1;
    }
    assert pluginNames[..i] == pluginNames;
    assert forall k :: 0 <= k < |promises| ==> promises[k] == Attempt(rt, pluginNames[k]);
    var plugins := AwaitAll(promises);
    if plugins.Rejected? {
      r := Rejected(plugins.reason);
      return;
    }
    var pluginModules := PluginModules(plugins.value);
    PipelineMatchesSurvivors(rt, pluginNames, plugins.value);
    imports.Push(pluginModules);
    r := Fulfilled(());
  }

  /** `makeRootModule(root_module)`: the root module comes first and the surviving
      plugin modules follow it in name order; a rejected `import` rejects the whole call. */
  method MakeRootModule(rootModule: ModuleType, console: Console, rt: Runtime, pluginNames: seq<string>)
    returns (r: Outcome<DynamicModule, string>)
    modifies console
    ensures console.warnings == old(console.warnings) + Warnings(rt, pluginNames)
    ensures r.Fulfilled? <==> AllLoad(rt, pluginNames)
    ensures r.Rejected? ==> exists k :: 0 <= k < |pluginNames| && Attempt(rt, pluginNames[k]) == Rejected(r.reason)
    ensures r.Fulfilled? ==> r.value.imports == [rootModule] + Survivors(rt, pluginNames)
    ensures r.Fulfilled? ==> r.value.imports[0] == rootModule && |r.value.imports| <= 1 + |pluginNames|
  {
    var imports := new ImportList(rootModule);
    var registered := RegisterPlugins(imports, console, rt, pluginNames);
    if registered.Rejected? {
      r := Rejected(registered.reason);
      return;
    }
    SurvivorsInOrder(rt, pluginNames);
    r := Fulfilled(PluginLoaderModule(imports.entries));
  }
}
