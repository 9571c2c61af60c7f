/**
  Import resolution during linking, and its agreement with the planner: instantiating plugins in
  the planned order never meets a provider that "exists but is not instantiated yet", except for
  an import from the plugin's own package that the plugin does not export.
 */
module Linker {
  import opened Wrappers
  import opened Names
  import opened Planner

  datatype Provider = SelfComponent | FromDependency(name: string)

  datatype ResolveError = NotInstantiated(caller: string, provider: string) | NotFound(caller: string)

  function ResolveImportProvider(caller: string, imp: string, selfExports: set<string>, declared: set<string>,
                                 available: set<string>, allowSelf: bool): Result<Provider, ResolveError>
  {
    if allowSelf && imp in selfExports then Ok(SelfComponent)
    else match ParsePackage(imp)
      case Some(package) =>
        if package !in declared then Err(NotFound(caller))
        else if package in available then Ok(FromDependency(package))
        else Err(NotInstantiated(caller, package))
      case None => Err(NotFound(caller))
  }

  predicate IsWasi(imp: string) {
    "wasi:" <= imp
  }

  /** The interfaces the planner was given are those of the components that get linked. */
  ghost predicate Recorded(deps: seq<Dependency>, ifs: map<string, Interfaces>, linked: map<string, Interfaces>) {
    forall d | d in deps && d.kind.Wasm? ::
      && d.name in ifs && d.name in linked
      && ifs[d.name].exports == linked[d.name].exports
      && forall imp :: imp in ifs[d.name].imports <==> imp in linked[d.name].imports && !IsWasi(imp)
  }

  /** What an import resolves to in the planned order, without mentioning the order. */
  function Resolution(declared: set<string>, name: string, exports: set<string>,
                      imp: string): Result<Provider, ResolveError> {
    if imp in exports then Ok(SelfComponent)
    else match ParsePackage(imp)
      case Some(package) =>
        if package !in declared then Err(NotFound(name))
        else if package == name then Err(NotInstantiated(name, name))
        else Ok(FromDependency(package))
      case None => Err(NotFound(name))
  }

  /**
    Planner and linker agree: at every position of a plan, every import of that plugin resolves
    as if all other plugins were already available.
   */
  lemma PlannedOrderResolves(deps: seq<Dependency>, ifs: map<string, Interfaces>, order: seq<nat>, k: nat, imp: string)
    requires IsPlan(deps, ifs, Ok(order)) && k < |order|
    requires deps[order[k]].name in ifs && imp in ifs[deps[order[k]].name].imports
    ensures var d := deps[order[k]];
            var available := Elements(NamesOf(deps, order)[..k]);
            ResolveImportProvider(d.name, imp, ifs[d.name].exports, NameSet(deps), available, true)
            == Resolution(NameSet(deps), d.name, ifs[d.name].exports, imp)
  {
    var d := deps[order[k]];
    var ns := NamesOf(deps, order);
    assert Next(deps, ifs, Elements(ns[..k]), ns[k]);
    var package := ParsePackage(imp);
    if imp !in ifs[d.name].exports && package.Some? && package.value in NameSet(deps) && package.value != d.name {
      var i :| 0 <= i < |ifs[d.name].imports| && ifs[d.name].imports[i] == imp;
      assert ImportsFrom(d, ifs, package.value);
      assert d in deps;
      assert Edge(deps, ifs, package.value, d.name);
    }
  }

  /** Every non-wasi import of `d` resolves to itself or to another declared plugin. */
  predicate Resolves(declared: set<string>, d: Dependency, exports: set<string>, imports: seq<string>) {
    forall i | 0 <= i < |imports| && !("wasi:" <= imports[i]) :: Resolution(declared, d.name, exports, imports[i]).Ok?
  }

  /** The one way a plan can meet an uninstantiated provider: the plugin's own package. */
  predicate OwnPackageOnly(d: Dependency, exports: set<string>, imports: seq<string>, e: ResolveError) {
    e.NotInstantiated? ==>
      && e == NotInstantiated(d.name, d.name)
      && exists i | 0 <= i < |imports| :: imports[i] !in exports && ParsePackage(imports[i]) == Some(d.name)
  }

  method ResolveImports(deps: seq<Dependency>, ifs: map<string, Interfaces>, linked: map<string, Interfaces>,
                        ghost order: seq<nat>, ghost k: nat, d: Dependency, available: set<string>)
    returns (failure: Option<ResolveError>)
    requires IsPlan(deps, ifs, Ok(order)) && Recorded(deps, ifs, linked)
    requires k < |order| && d == deps[order[k]] && d.kind.Wasm? && d in deps
    requires available == Elements(NamesOf(deps, order)[..k])
    ensures failure.None? <==> Resolves(NameSet(deps), d, linked[d.name].exports, linked[d.name].imports)
    ensures failure.Some? ==> OwnPackageOnly(d, linked[d.name].exports, linked[d.name].imports, failure.value)
  {
    var exports, imports := linked[d.name].exports, linked[d.name].imports;
    for i := 0 to |imports|
      invariant forall m | 0 <= m < i && !IsWasi(imports[m]) ::
                  Resolution(NameSet(deps), d.name, exports, imports[m]).Ok?
    {
      if !IsWasi(imports[i]) {
        assert imports[i] in ifs[d.name].imports;
        PlannedOrderResolves(deps, ifs, order, k, imports[i]);
        var provider := ResolveImportProvider(d.name, imports[i], exports, NameSet(deps), available, true);
        if provider.Err? {
          return Some(provider.error);
        }
      }
    }
    failure := None;
  }

  lemma PlanCovers(deps: seq<Dependency>, ifs: map<string, Interfaces>, order: seq<nat>, d: Dependency) returns (k: nat)
    requires IsPlan(deps, ifs, Ok(order)) && d in deps
    ensures k < |order| && deps[order[k]] == d
  {
    var i :| 0 <= i < |deps| && deps[i] == d;
    assert i in Elements(order);
    k :| 0 <= k < |order| && order[k] == i;
  }

  lemma NamesUpto(deps: seq<Dependency>, order: seq<nat>, k: nat)
    requires InRange(order, |deps|) && k < |order|
    ensures Elements(NamesOf(deps, order)[..k + 1]) == Elements(NamesOf(deps, order)[..k]) + {deps[order[k]].name}
  {
    var ns := NamesOf(deps, order);
    assert ns[..k + 1] == ns[..k] + [deps[order[k]].name];
  }

  lemma PlanNames(deps: seq<Dependency>, ifs: map<string, Interfaces>, order: seq<nat>)
    requires IsPlan(deps, ifs, Ok(order))
    ensures Elements(NamesOf(deps, order)) == NameSet(deps)
  {
    var ns := NamesOf(deps, order);
    forall x | x in NameSet(deps) ensures x in ns {
      var d :| d in deps && d.name == x;
      var k := PlanCovers(deps, ifs, order, d);
      assert ns[k] == x;
    }
    forall x | x in ns ensures x in NameSet(deps) {
      var k :| 0 <= k < |ns| && ns[k] == x;
      assert deps[order[k]] in deps;
    }
  }

  /** The imports of plugin `d`, if it is a wasm one, all resolve. */
  predicate Linkable(deps: seq<Dependency>, linked: map<string, Interfaces>, d: Dependency) {
    d.kind.Wasm? && d.name in linked ==>
      Resolves(NameSet(deps), d, linked[d.name].exports, linked[d.name].imports)
  }

  lemma AllLinkable(deps: seq<Dependency>, ifs: map<string, Interfaces>, linked: map<string, Interfaces>,
                    order: seq<nat>)
    requires IsPlan(deps, ifs, Ok(order))
    requires forall k | 0 <= k < |order| :: Linkable(deps, linked, deps[order[k]])
    ensures forall d | d in deps :: Linkable(deps, linked, d)
  {
    forall d | d in deps ensures Linkable(deps, linked, d) {
      var k := PlanCovers(deps, ifs, order, d);
    }
  }

  /**
    The loop over the planned order.  It succeeds exactly when every import names the plugin's own
    export or another declared plugin, and never fails for want of an earlier plugin.
   */
  method InstantiatePlugins(deps: seq<Dependency>, ifs: map<string, Interfaces>, linked: map<string, Interfaces>,
                            order: seq<nat>)
    returns (r: Result<set<string>, ResolveError>)
    requires IsPlan(deps, ifs, Ok(order)) && Recorded(deps, ifs, linked)
    ensures r.Ok? <==> forall d | d in deps :: Linkable(deps, linked, d)
    ensures r.Ok? ==> r.value == NameSet(deps)
    ensures r.Err? ==>
              exists d | d in deps && d.kind.Wasm? ::
                OwnPackageOnly(d, linked[d.name].exports, linked[d.name].imports, r.error)
  {
    var available: set<string> := {};
    ghost var ns := NamesOf(deps, order);
    for k := 0 to |order|
      invariant available == Elements(ns[..k])
      invariant forall m | 0 <= m < k :: Linkable(deps, linked, deps[order[m]])
    {
      var d := deps[order[k]];
      assert d in deps;
      if d.kind.Wasm? {
        var failure := ResolveImports(deps, ifs, linked, order, k, d, available);
        if failure.Some? {
          return Err(failure.value);
        }
      }
      available := available + {d.name};
      NamesUpto(deps, order, k);
    }
    AllLinkable(deps, ifs, linked, order);
    PlanNames(deps, ifs, order);
    assert ns[..|order|] == ns;
    r := Ok(available);
  }

  /**
    The imports of the application itself, after all plugins: it is never its own provider.  They
    resolve exactly when each names a declared plugin, whatever the application exports, and a
    failure is never for want of an instantiated plugin.
   */
  method ResolveAppImports(imports: seq<string>, exports: set<string>, declared: set<string>, available: set<string>)
    returns (r: Result<seq<string>, ResolveError>)
    requires available == declared
    ensures r.Ok? <==> forall i | 0 <= i < |imports| && !("wasi:" <= imports[i]) ::
      ParsePackage(imports[i]).Some? && ParsePackage(imports[i]).value in declared
    ensures r.Ok? ==> |r.value| == |imports| && forall i | 0 <= i < |imports| && !("wasi:" <= imports[i]) ::
      ParsePackage(imports[i]) == Some(r.value[i])
    ensures r.Err? ==> r.error == NotFound("app")
  {
    var providers := [];
    for i := 0 to |imports|
      invariant |providers| == i
      invariant forall m | 0 <= m < i && !("wasi:" <= imports[m]) ::
        ParsePackage(imports[m]) == Some(providers[m]) && providers[m] in declared
    {
      if IsWasi(imports[i]) {
        providers := providers + [""];
      } else {
        var provider := ResolveImportProvider("app", imports[i], exports, declared, available, false);
        if provider.Err? {
          return Err(provider.error);
        }
        providers := providers + [provider.value.name];
      }
    }
    r := Ok(providers);
  }

  /**
    Linking an application: its plugins in the planned order, then its own imports.  It succeeds
    exactly when every plugin import names the plugin's own export or another declared plugin and every
    application import names a declared plugin; only a plugin can meet an uninstantiated provider.
   */
  method LinkApplication(deps: seq<Dependency>, ifs: map<string, Interfaces>, linked: map<string, Interfaces>,
                         order: seq<nat>, imports: seq<string>, exports: set<string>)
    returns (r: Result<seq<string>, ResolveError>)
    requires IsPlan(deps, ifs, Ok(order)) && Recorded(deps, ifs, linked)
    ensures r.Ok? <==>
      && (forall d | d in deps :: Linkable(deps, linked, d))
      && forall i | 0 <= i < |imports| && !("wasi:" <= imports[i]) ::
           ParsePackage(imports[i]).Some? && ParsePackage(imports[i]).value in NameSet(deps)
    ensures r.Ok? ==> |r.value| == |imports| && forall i | 0 <= i < |imports| && !("wasi:" <= imports[i]) ::
      ParsePackage(imports[i]) == Some(r.value[i])
    ensures r.Err? && r.error.NotInstantiated? ==> r.error.caller in NameSet(deps)
  {
    var plugins := InstantiatePlugins(deps, ifs, linked, order);
    if plugins.Err? {
      return Err(plugins.error);
    }
    r := ResolveAppImports(imports, exports, NameSet(deps), plugins.value);
  }
}
