/**
  The plugin dependency planner: Kahn's algorithm over the explicit `requires` edges plus the
  edges inferred from component imports, always placing the greatest ready name next.
 */
module Planner {
  import opened Wrappers
  import opened Names

  datatype Kind = Native | Wasm

  datatype Dependency = Dependency(name: string, kind: Kind, needs: seq<string>)

  datatype Interfaces = Interfaces(imports: seq<string>, exports: set<string>)

  datatype PlanError = DuplicateName(name: string) | UnknownRequirement(dependency: string, requirement: string) | Cycle

  /** The package part of `package/interface`, split at the last slash. */
  function ParsePackage(name: string): (r: Option<string>)
    ensures r == None <==> '/' !in name
    ensures r.Some? ==>
              && |r.value| < |name| && r.value == name[..|r.value|] && name[|r.value|] == '/'
              && '/' !in name[|r.value| + 1..]
  {
    if name == [] then None
    else if name[|name| - 1] == '/' then Some(name[..|name| - 1])
    else
      assert name == name[..|name| - 1] + [name[|name| - 1]];
      ParsePackage(name[..|name| - 1])
  }

  // ---- The dependency graph, by name ----

  function NameSet(deps: seq<Dependency>): set<string> {
    set d | d in deps :: d.name
  }

  predicate UniqueNames(deps: seq<Dependency>) {
    forall i, j | 0 <= i < j < |deps| :: deps[i].name != deps[j].name
  }

  predicate RequirementsKnown(deps: seq<Dependency>) {
    forall d, q | d in deps && q in d.needs :: q in NameSet(deps)
  }

  /** An import makes its package a provider unless the importer exports it or owns the package. */
  predicate ImportsFrom(d: Dependency, ifs: map<string, Interfaces>, provider: string) {
    && d.name in ifs && provider != d.name
    && exists i | 0 <= i < |ifs[d.name].imports| ::
         ifs[d.name].imports[i] !in ifs[d.name].exports && ParsePackage(ifs[d.name].imports[i]) == Some(provider)
  }

  predicate Wants(d: Dependency, ifs: map<string, Interfaces>, provider: string) {
    provider in d.needs || ImportsFrom(d, ifs, provider)
  }

  /** `a` must be instantiated before `b`. */
  predicate Edge(deps: seq<Dependency>, ifs: map<string, Interfaces>, a: string, b: string) {
    a in NameSet(deps) && exists d | d in deps :: d.name == b && Wants(d, ifs, a)
  }

  ghost predicate IsCycle(deps: seq<Dependency>, ifs: map<string, Interfaces>, p: seq<string>) {
    |p| >= 2 && p[0] == p[|p| - 1] && forall i | 0 <= i < |p| - 1 :: Edge(deps, ifs, p[i], p[i + 1])
  }

  ghost predicate Cyclic(deps: seq<Dependency>, ifs: map<string, Interfaces>) {
    exists p :: IsCycle(deps, ifs, p)
  }

  /** `x` is not placed yet and everything it depends on is. */
  predicate Ready(deps: seq<Dependency>, ifs: map<string, Interfaces>, done: set<string>, x: string) {
    && x in NameSet(deps) && x !in done
    && forall a | a in NameSet(deps) && Edge(deps, ifs, a, x) :: a in done
  }

  /** `x` is the greatest name that is ready. */
  predicate Next(deps: seq<Dependency>, ifs: map<string, Interfaces>, done: set<string>, x: string) {
    && Ready(deps, ifs, done, x)
    && forall y | y in NameSet(deps) && Ready(deps, ifs, done, y) :: !Below(x, y)
  }

  /** Every position holds the greatest name that is ready once the earlier positions are placed. */
  predicate Greedy(deps: seq<Dependency>, ifs: map<string, Interfaces>, ns: seq<string>) {
    forall k | 0 <= k < |ns| :: Next(deps, ifs, Elements(ns[..k]), ns[k])
  }

  predicate InRange(s: seq<nat>, n: nat) {
    forall k | 0 <= k < |s| :: s[k] < n
  }

  function NamesOf(deps: seq<Dependency>, order: seq<nat>): seq<string>
    requires InRange(order, |deps|)
  {
    seq(|order|, k requires 0 <= k < |order| => deps[order[k]].name)
  }

  /** What the planner promises: when it succeeds, when each error is given, and which order it gives. */
  ghost predicate IsPlan(deps: seq<Dependency>, ifs: map<string, Interfaces>, r: Result<seq<nat>, PlanError>) {
    match r
    case Ok(order) =>
      && UniqueNames(deps) && RequirementsKnown(deps) && !Cyclic(deps, ifs)
      && |order| == |deps| && InRange(order, |deps|) && Distinct(order) && Elements(order) == Upto(|deps|)
      && Greedy(deps, ifs, NamesOf(deps, order))
    case Err(DuplicateName(n)) =>
      exists i, j | 0 <= i < j < |deps| :: deps[i].name == n == deps[j].name
    case Err(UnknownRequirement(d, q)) =>
      && UniqueNames(deps) && q !in NameSet(deps)
      && exists dep | dep in deps :: dep.name == d && q in dep.needs
    case Err(Cycle) =>
      UniqueNames(deps) && RequirementsKnown(deps) && Cyclic(deps, ifs)
  }

  // ---- Consequences of the specification ----

  /** In a plan every edge points forward. */
  lemma EdgesPointForward(deps: seq<Dependency>, ifs: map<string, Interfaces>, order: seq<nat>, i: nat, j: nat)
    requires IsPlan(deps, ifs, Ok(order)) && i < |order| && j < |order|
    requires Edge(deps, ifs, NamesOf(deps, order)[i], NamesOf(deps, order)[j])
    ensures i < j
  {
    var ns := NamesOf(deps, order);
    assert Next(deps, ifs, Elements(ns[..j]), ns[j]);
    assert ns[i] in ns[..j];
    var k :| 0 <= k < j && ns[..j][k] == ns[i];
    PlanNamesDistinct(deps, order, k, i);
  }

  lemma PlanNamesDistinct(deps: seq<Dependency>, order: seq<nat>, i: nat, j: nat)
    requires UniqueNames(deps) && Distinct(order) && InRange(order, |deps|)
    requires i < |order| && j < |order| && NamesOf(deps, order)[i] == NamesOf(deps, order)[j]
    ensures i == j
  {
    assert deps[order[i]].name == deps[order[j]].name;
  }

  lemma NextUnique(deps: seq<Dependency>, ifs: map<string, Interfaces>, done: set<string>, x: string, y: string)
    requires Next(deps, ifs, done, x) && Next(deps, ifs, done, y)
    ensures x == y
  {
    BelowTotal(x, y);
  }

  lemma GreedyAt(deps: seq<Dependency>, ifs: map<string, Interfaces>, ns: seq<string>, k: nat)
    requires Greedy(deps, ifs, ns) && k < |ns|
    ensures Next(deps, ifs, Elements(ns[..k]), ns[k])
  {}

  /** Two greedy sequences over the same graph are the same sequence. */
  lemma {:induction false} GreedyUnique(deps: seq<Dependency>, ifs: map<string, Interfaces>, ns: seq<string>,
                                        ms: seq<string>, k: nat)
    requires Greedy(deps, ifs, ns) && Greedy(deps, ifs, ms) && k <= |ns| && k <= |ms|
    ensures ns[..k] == ms[..k]
  {
    if k > 0 {
      GreedyUnique(deps, ifs, ns, ms, k - 1);
      GreedyAt(deps, ifs, ns, k - 1);
      GreedyAt(deps, ifs, ms, k - 1);
      NextUnique(deps, ifs, Elements(ns[..k - 1]), ns[k - 1], ms[k - 1]);
      PrefixExtends(ns, ms, k);
    }
  }

  lemma PrefixExtends(ns: seq<string>, ms: seq<string>, k: nat)
    requires 0 < k <= |ns| && k <= |ms| && ns[..k - 1] == ms[..k - 1] && ns[k - 1] == ms[k - 1]
    ensures ns[..k] == ms[..k]
  {
    assert ns[..k] == ns[..k - 1] + [ns[k - 1]] && ms[..k] == ms[..k - 1] + [ms[k - 1]];
  }

  lemma {:induction false} RepeatsCount<T>(s: seq<T>, x: T)
    ensures multiset(s)[x] >= 2 <==> exists i, j | 0 <= i < j < |s| :: s[i] == x == s[j]
  {
    if s != [] {
      var rest := s[1..];
      RepeatsCount(rest, x);
      assert s == [s[0]] + rest;
      assert multiset(s) == multiset{s[0]} + multiset(rest);
      if multiset(s)[x] >= 2 {
        if s[0] == x {
          assert x in rest;
          var j :| 0 <= j < |rest| && rest[j] == x;
          assert s[0] == x == s[j + 1];
        } else {
          var i, j :| 0 <= i < j < |rest| && rest[i] == x == rest[j];
          assert s[i + 1] == x == s[j + 1];
        }
      }
      if i, j :| 0 <= i < j < |s| && s[i] == x == s[j] {
        assert s[j] == rest[j - 1];
        assert x in rest;
        if i > 0 {
          assert rest[i - 1] == x == rest[j - 1];
        }
      }
    }
  }

  lemma UniqueNamesPermute(deps: seq<Dependency>, deps': seq<Dependency>)
    requires multiset(deps) == multiset(deps') && UniqueNames(deps)
    ensures UniqueNames(deps')
  {
    forall i, j | 0 <= i < j < |deps'| ensures deps'[i].name != deps'[j].name {
      if deps'[i].name == deps'[j].name {
        SameElements(deps, deps');
        assert deps'[i] in deps && deps'[j] in deps;
        var a :| 0 <= a < |deps| && deps[a] == deps'[i];
        var b :| 0 <= b < |deps| && deps[b] == deps'[j];
        assert a == b;
        RepeatsCount(deps', deps'[i]);
        RepeatsCount(deps, deps'[i]);
        assert false;
      }
    }
  }

  lemma SameElements<T>(s: seq<T>, s': seq<T>)
    requires multiset(s) == multiset(s')
    ensures forall x :: x in s <==> x in s'
    ensures |s| == |s'|
  {
    forall x ensures x in s <==> x in s' {
      assert x in s <==> x in multiset(s);
      assert x in s' <==> x in multiset(s');
    }
    assert |multiset(s)| == |s| && |multiset(s')| == |s'|;
  }

  lemma EdgePermutes(deps: seq<Dependency>, deps': seq<Dependency>, ifs: map<string, Interfaces>)
    requires multiset(deps) == multiset(deps')
    ensures NameSet(deps) == NameSet(deps')
    ensures forall a, b :: Edge(deps, ifs, a, b) <==> Edge(deps', ifs, a, b)
    ensures RequirementsKnown(deps) <==> RequirementsKnown(deps')
  {
    SameElements(deps, deps');
    assert NameSet(deps) == NameSet(deps');
  }

  lemma CyclicPermutes(deps: seq<Dependency>, deps': seq<Dependency>, ifs: map<string, Interfaces>)
    requires multiset(deps) == multiset(deps') && Cyclic(deps, ifs)
    ensures Cyclic(deps', ifs)
  {
    var p :| IsCycle(deps, ifs, p);
    EdgePermutes(deps, deps', ifs);
    assert IsCycle(deps', ifs, p);
  }

  lemma NextPermutes(deps: seq<Dependency>, deps': seq<Dependency>, ifs: map<string, Interfaces>, done: set<string>,
                     x: string)
    requires multiset(deps) == multiset(deps') && Next(deps, ifs, done, x)
    ensures Next(deps', ifs, done, x)
  {
    EdgePermutes(deps, deps', ifs);
    assert forall y :: Ready(deps, ifs, done, y) <==> Ready(deps', ifs, done, y);
  }

  datatype Verdict = Planned | Duplicated | Unknown | HasCycle

  ghost function Expected(deps: seq<Dependency>, ifs: map<string, Interfaces>): Verdict {
    if !UniqueNames(deps) then Duplicated
    else if !RequirementsKnown(deps) then Unknown
    else if Cyclic(deps, ifs) then HasCycle
    else Planned
  }

  function Given(r: Result<seq<nat>, PlanError>): Verdict {
    match r
    case Ok(_) => Planned
    case Err(DuplicateName(_)) => Duplicated
    case Err(UnknownRequirement(_, _)) => Unknown
    case Err(Cycle) => HasCycle
  }

  /** The verdict is decided by the graph alone. */
  lemma PlanDecides(deps: seq<Dependency>, ifs: map<string, Interfaces>, r: Result<seq<nat>, PlanError>)
    requires IsPlan(deps, ifs, r)
    ensures Given(r) == Expected(deps, ifs)
  {}

  lemma ExpectedPermutes(deps: seq<Dependency>, deps': seq<Dependency>, ifs: map<string, Interfaces>)
    requires multiset(deps) == multiset(deps')
    ensures Expected(deps, ifs) == Expected(deps', ifs)
  {
    if UniqueNames(deps) { UniqueNamesPermute(deps, deps'); }
    if UniqueNames(deps') { UniqueNamesPermute(deps', deps); }
    if Cyclic(deps, ifs) { CyclicPermutes(deps, deps', ifs); }
    if Cyclic(deps', ifs) { CyclicPermutes(deps', deps, ifs); }
    EdgePermutes(deps, deps', ifs);
  }

  /**
    The listing order of the dependencies does not matter: a permuted list gives the same verdict
    and, when planning succeeds, the same sequence of names.
   */
  lemma PlanIgnoresListingOrder(deps: seq<Dependency>, deps': seq<Dependency>, ifs: map<string, Interfaces>,
                                r: Result<seq<nat>, PlanError>, r': Result<seq<nat>, PlanError>)
    requires multiset(deps) == multiset(deps')
    requires IsPlan(deps, ifs, r) && IsPlan(deps', ifs, r')
    ensures Given(r) == Given(r') == Expected(deps, ifs)
    ensures r.Ok? ==> NamesOf(deps, r.value) == NamesOf(deps', r'.value)
  {
    PlanDecides(deps, ifs, r);
    PlanDecides(deps', ifs, r');
    ExpectedPermutes(deps, deps', ifs);
    SameElements(deps, deps');
    if r.Ok? {
      var ns, ms := NamesOf(deps, r.value), NamesOf(deps', r'.value);
      forall k | 0 <= k < |ms| ensures Next(deps, ifs, Elements(ms[..k]), ms[k]) {
        NextPermutes(deps', deps, ifs, Elements(ms[..k]), ms[k]);
      }
      GreedyUnique(deps, ifs, ns, ms, |deps|);
      assert ns[..|deps|] == ns && ms[..|deps|] == ms;
    }
  }

  // ---- The algorithm ----

  /** Indices with an edge to `j`. */
  function Preds(edges: seq<set<nat>>, j: nat): set<nat> {
    set i | 0 <= i < |edges| && j in edges[i]
  }

  /** The number of predecessors of `j` outside `placed`. */
  function Remaining(edges: seq<set<nat>>, placed: set<nat>, j: nat): nat {
    |Preds(edges, j) - placed|
  }

  predicate Counts(edges: seq<set<nat>>, placed: set<nat>, indegree: seq<nat>) {
    |indegree| == |edges| && forall j | 0 <= j < |edges| :: indegree[j] == Remaining(edges, placed, j)
  }

  method AddDependencyEdge(edges: seq<set<nat>>, indegree: seq<nat>, from: nat, to: nat)
    returns (edges': seq<set<nat>>, indegree': seq<nat>)
    requires Counts(edges, {}, indegree) && from < |edges| && to < |edges|
    ensures |edges'| == |edges| && Counts(edges', {}, indegree')
    ensures forall i, j | 0 <= i < |edges| :: j in edges'[i] <==> j in edges[i] || (i == from && j == to)
  {
    edges' := edges[from := edges[from] + {to}];
    indegree' := indegree;
    if to !in edges[from] {
      indegree' := indegree[to := indegree[to] + 1];
    }
    forall j | 0 <= j < |edges| ensures indegree'[j] == Remaining(edges', {}, j) {
      RemainingAfterEdge(edges, from, to, j);
    }
  }

  lemma RemainingAfterEdge(edges: seq<set<nat>>, from: nat, to: nat, j: nat)
    requires from < |edges|
    ensures Remaining(edges[from := edges[from] + {to}], {}, j)
         == Remaining(edges, {}, j) + if j == to && to !in edges[from] then 1 else 0
  {
    var edges' := edges[from := edges[from] + {to}];
    if j == to {
      assert Preds(edges', j) - {} == (Preds(edges, j) - {}) + {from};
    } else {
      assert Preds(edges', j) - {} == Preds(edges, j) - {};
    }
  }

  method IndexByName(deps: seq<Dependency>) returns (r: Result<map<string, nat>, PlanError>)
    ensures r.Ok? ==> UniqueNames(deps) && r.value.Keys == NameSet(deps)
                      && forall i | 0 <= i < |deps| :: deps[i].name in r.value && r.value[deps[i].name] == i
    ensures r.Err? ==> r.error.DuplicateName? && IsPlan(deps, map[], Err(r.error))
  {
    var byName: map<string, nat> := map[];
    for i := 0 to |deps|
      invariant byName.Keys == NameSet(deps[..i])
      invariant forall k | 0 <= k < i :: deps[k].name in byName && byName[deps[k].name] == k
    {
      assert deps[..i + 1] == deps[..i] + [deps[i]];
      if deps[i].name in byName {
        var d :| d in deps[..i] && d.name == deps[i].name;
        return Err(DuplicateName(deps[i].name));
      }
      byName := byName[deps[i].name := i];
    }
    assert deps[..|deps|] == deps;
    r := Ok(byName);
  }

  method CollectImplicitProviders(d: Dependency, ifs: map<string, Interfaces>, byName: map<string, nat>)
    returns (providers: set<nat>)
    requires d.name in ifs
    ensures forall i :: i in providers <==>
              exists p | p in byName :: byName[p] == i && ImportsFrom(d, ifs, p)
  {
    providers := {};
    var imports, exports := ifs[d.name].imports, ifs[d.name].exports;
    for k := 0 to |imports|
      invariant forall i :: i in providers <==>
                  exists p | p in byName :: byName[p] == i && p != d.name
                    && exists m | 0 <= m < k :: imports[m] !in exports && ParsePackage(imports[m]) == Some(p)
    {
      var package := ParsePackage(imports[k]);
      if imports[k] !in exports && package.Some? && package.value != d.name && package.value in byName {
        providers := providers + {byName[package.value]};
      }
    }
  }

  /** Edges into nodes below `index` agree with the graph on names, and no other edges exist. */
  ghost predicate Faithful(deps: seq<Dependency>, ifs: map<string, Interfaces>, edges: seq<set<nat>>, index: nat) {
    && |edges| == |deps|
    && (forall i, j | 0 <= i < |edges| && j in edges[i] :: j < index <= |deps|)
    && forall i, j | 0 <= i < |edges| && 0 <= j < index <= |deps| ::
         j in edges[i] <==> Wants(deps[j], ifs, deps[i].name)
  }

  /** `edges` extends `base` by edges into `index` from exactly the indices in `from`. */
  ghost predicate Extends(base: seq<set<nat>>, edges: seq<set<nat>>, index: nat, from: iset<nat>) {
    && |edges| == |base|
    && forall i, j | 0 <= i < |edges| :: j in edges[i] <==> j in base[i] || (j == index && i in from)
  }

  predicate Indexes(deps: seq<Dependency>, byName: map<string, nat>) {
    && byName.Keys == NameSet(deps)
    && forall i | 0 <= i < |deps| :: deps[i].name in byName && byName[deps[i].name] == i
  }

  method AddExplicit(deps: seq<Dependency>, byName: map<string, nat>, index: nat, base: seq<set<nat>>,
                     indegree0: seq<nat>)
    returns (edges: seq<set<nat>>, indegree: seq<nat>, unknown: Option<string>)
    requires Indexes(deps, byName) && index < |deps| == |base| && Counts(base, {}, indegree0)
    ensures unknown.Some? ==> unknown.value in deps[index].needs && unknown.value !in byName
    ensures unknown.None? ==>
              && (forall q | q in deps[index].needs :: q in byName)
              && |edges| == |deps| && Counts(edges, {}, indegree)
              && Extends(base, edges, index, iset i | 0 <= i < |deps| && deps[i].name in deps[index].needs)
  {
    edges, indegree, unknown := base, indegree0, None;
    var needs := deps[index].needs;
    for k := 0 to |needs|
      invariant |edges| == |deps| && Counts(edges, {}, indegree)
      invariant forall m | 0 <= m < k :: needs[m] in byName
      invariant Extends(base, edges, index, iset i | 0 <= i < |deps| && deps[i].name in needs[..k])
    {
      assert needs[..k + 1] == needs[..k] + [needs[k]];
      if needs[k] !in byName {
        return edges, indegree, Some(needs[k]);
      }
      var provider := ProviderIndex(deps, byName, needs[k]);
      edges, indegree := AddDependencyEdge(edges, indegree, provider, index);
    }
    assert needs[..|needs|] == needs;
  }

  method AddImplicit(deps: seq<Dependency>, ifs: map<string, Interfaces>, byName: map<string, nat>, index: nat,
                     base: seq<set<nat>>, indegree0: seq<nat>)
    returns (edges: seq<set<nat>>, indegree: seq<nat>)
    requires Indexes(deps, byName) && index < |deps| == |base| && Counts(base, {}, indegree0)
    ensures |edges| == |deps| && Counts(edges, {}, indegree)
    ensures Extends(base, edges, index, iset i | 0 <= i < |deps| && ImportsFrom(deps[index], ifs, deps[i].name))
  {
    edges, indegree := base, indegree0;
    if deps[index].name !in ifs {
      return;
    }
    var providers := CollectImplicitProviders(deps[index], ifs, byName);
    for p := 0 to |deps|
      invariant |edges| == |deps| && Counts(edges, {}, indegree)
      invariant Extends(base, edges, index, iset i | 0 <= i < p && i in providers)
    {
      if p in providers {
        edges, indegree := AddDependencyEdge(edges, indegree, p, index);
      }
    }
    forall i | 0 <= i < |deps| ensures i in providers <==> ImportsFrom(deps[index], ifs, deps[i].name) {
      if i in providers {
        var n :| n in byName && byName[n] == i && ImportsFrom(deps[index], ifs, n);
        assert ProviderIndex(deps, byName, n) == i;
      }
    }
  }

  lemma FaithfulStep(deps: seq<Dependency>, ifs: map<string, Interfaces>, index: nat,
                     base: seq<set<nat>>, mid: seq<set<nat>>, edges: seq<set<nat>>)
    requires index < |deps| && Faithful(deps, ifs, base, index)
    requires Extends(base, mid, index, iset i | 0 <= i < |deps| && deps[i].name in deps[index].needs)
    requires Extends(mid, edges, index, iset i | 0 <= i < |deps| && ImportsFrom(deps[index], ifs, deps[i].name))
    ensures Faithful(deps, ifs, edges, index + 1)
  {
    forall i, j | 0 <= i < |edges| && 0 <= j < index + 1
      ensures j in edges[i] <==> Wants(deps[j], ifs, deps[i].name)
    {
      if j == index {
        assert j !in base[i];
      }
    }
  }

  method BuildEdges(deps: seq<Dependency>, ifs: map<string, Interfaces>, byName: map<string, nat>)
    returns (edges: seq<set<nat>>, indegree: seq<nat>, unknown: Option<PlanError>)
    requires UniqueNames(deps) && Indexes(deps, byName)
    ensures unknown.Some? ==> unknown.value.UnknownRequirement? && IsPlan(deps, ifs, Err(unknown.value))
    ensures unknown.None? ==>
        RequirementsKnown(deps) && Faithful(deps, ifs, edges, |deps|) && Counts(edges, {}, indegree)
  {
    unknown := None;
    edges := seq(|deps|, _ => {});
    indegree := seq(|deps|, _ => 0);
    assert forall j | 0 <= j < |deps| :: Preds(edges, j) - {} == {};
    for index := 0 to |deps|
      invariant |edges| == |deps| && Counts(edges, {}, indegree)
      invariant forall j, q | 0 <= j < index && q in deps[j].needs :: q in byName
      invariant Faithful(deps, ifs, edges, index)
    {
      var base := edges;
      var missing;
      edges, indegree, missing := AddExplicit(deps, byName, index, edges, indegree);
      if missing.Some? {
        assert deps[index] in deps;
        return edges, indegree, Some(UnknownRequirement(deps[index].name, missing.value));
      }
      var mid := edges;
      edges, indegree := AddImplicit(deps, ifs, byName, index, edges, indegree);
      FaithfulStep(deps, ifs, index, base, mid, edges);
    }
    assert forall d, q | d in deps && q in d.needs :: q in NameSet(deps);
  }

  function ProviderIndex(deps: seq<Dependency>, byName: map<string, nat>, name: string): (i: nat)
    requires byName.Keys == NameSet(deps) && name in byName
    requires forall i | 0 <= i < |deps| :: deps[i].name in byName && byName[deps[i].name] == i
    ensures i < |deps| && deps[i].name == name
  {
    assert exists d | d in deps :: d.name == name;
    byName[name]
  }

  // ---- Sorting the ready list ----

  predicate SortedByName(deps: seq<Dependency>, s: seq<nat>) {
    InRange(s, |deps|) && forall i, j | 0 <= i < j < |s| :: Below(deps[s[i]].name, deps[s[j]].name)
  }

  method InsertByName(deps: seq<Dependency>, s: seq<nat>, x: nat) returns (r: seq<nat>)
    requires UniqueNames(deps) && SortedByName(deps, s) && x < |deps| && x !in s
    ensures SortedByName(deps, r) && Elements(r) == Elements(s) + {x}
  {
    var k := 0;
    while k < |s| && Below(deps[s[k]].name, deps[x].name)
      invariant 0 <= k <= |s|
      invariant forall i | 0 <= i < k :: Below(deps[s[i]].name, deps[x].name)
    {
      k := k + 1;
    }
    forall j | k <= j < |s| ensures Below(deps[x].name, deps[s[j]].name) {
      assert s[k] in s && s[j] in s;
      BelowTotal(deps[s[k]].name, deps[x].name);
      if j > k {
        BelowTransitive(deps[x].name, deps[s[k]].name, deps[s[j]].name);
      }
    }
    r := s[..k] + [x] + s[k..];
  }

  method SortByName(deps: seq<Dependency>, s: seq<nat>) returns (r: seq<nat>)
    requires UniqueNames(deps) && InRange(s, |deps|) && Distinct(s)
    ensures SortedByName(deps, r) && Elements(r) == Elements(s)
  {
    r := [];
    for i := 0 to |s|
      invariant SortedByName(deps, r) && Elements(r) == Elements(s[..i])
    {
      assert s[i] !in Elements(s[..i]);
      assert s[..i + 1] == s[..i] + [s[i]];
      r := InsertByName(deps, r, s[i]);
    }
    assert s[..|s|] == s;
  }

  lemma SortedDistinct(deps: seq<Dependency>, s: seq<nat>)
    requires SortedByName(deps, s)
    ensures Distinct(s)
  {
    forall i, j | 0 <= i < j < |s| ensures s[i] != s[j] {
      BelowAsymmetric(deps[s[i]].name, deps[s[j]].name);
    }
  }

  // ---- Main loop ----

  /** Index `j` is not placed and all its predecessors are. */
  predicate ReadyIndex(edges: seq<set<nat>>, placed: set<nat>, j: nat) {
    j < |edges| && j !in placed && Preds(edges, j) <= placed
  }

  predicate NextIndex(deps: seq<Dependency>, edges: seq<set<nat>>, placed: set<nat>, j: nat)
    requires |deps| == |edges|
  {
    && ReadyIndex(edges, placed, j)
    && forall i | 0 <= i < |edges| && ReadyIndex(edges, placed, i) :: !Below(deps[j].name, deps[i].name)
  }

  predicate GreedyIndices(deps: seq<Dependency>, edges: seq<set<nat>>, order: seq<nat>)
    requires |deps| == |edges|
  {
    forall k | 0 <= k < |order| :: NextIndex(deps, edges, Elements(order[..k]), order[k])
  }

  predicate IsReadyList(edges: seq<set<nat>>, placed: set<nat>, ready: seq<nat>) {
    && Distinct(ready)
    && (forall k | 0 <= k < |ready| :: ReadyIndex(edges, placed, ready[k]))
    && forall j | 0 <= j < |edges| && ReadyIndex(edges, placed, j) :: j in ready
  }

  function SaturatingSub(a: nat, b: nat): nat {
    if a < b then 0 else a - b
  }

  /** How placing `next` changes the count and the readiness of one node. */
  lemma ReleaseStep(edges: seq<set<nat>>, placed: set<nat>, next: nat, e: nat)
    requires ReadyIndex(edges, placed, next) && e < |edges|
    requires forall j | j in placed :: Preds(edges, j) <= placed
    ensures var placed' := placed + {next};
            if e in edges[next] then
              && Remaining(edges, placed', e) == Remaining(edges, placed, e) - 1
              && e != next && !ReadyIndex(edges, placed, e)
              && (ReadyIndex(edges, placed', e) <==> Remaining(edges, placed', e) == 0)
            else
              && Remaining(edges, placed', e) == Remaining(edges, placed, e)
              && (ReadyIndex(edges, placed', e) <==> e != next && ReadyIndex(edges, placed, e))
  {
    var before, after := Preds(edges, e) - placed, Preds(edges, e) - (placed + {next});
    if e in edges[next] {
      assert next in Preds(edges, e);
      assert next in before && after == before - {next};
      assert after == {} <==> Preds(edges, e) <= placed + {next};
    } else {
      assert next !in Preds(edges, e);
      assert after == before;
    }
  }

  /** Drops `next` from its successors' indegrees; the saturating subtraction is always exact. */
  method ReleaseSuccessors(edges: seq<set<nat>>, indegree0: seq<nat>, ready0: seq<nat>, next: nat,
                           ghost placed: set<nat>)
    returns (indegree: seq<nat>, ready: seq<nat>)
    requires Counts(edges, placed, indegree0) && ReadyIndex(edges, placed, next)
    requires Distinct(ready0) && forall j: nat :: j in ready0 <==> j != next && ReadyIndex(edges, placed, j)
    requires forall j | j in placed :: Preds(edges, j) <= placed
    ensures Counts(edges, placed + {next}, indegree)
    ensures IsReadyList(edges, placed + {next}, ready)
  {
    indegree, ready := indegree0, ready0;
    for e := 0 to |edges|
      invariant Progress(edges, placed, next, e, indegree, ready)
    {
      ghost var indegree1, ready1 := indegree, ready;
      ReleaseStep(edges, placed, next, e);
      if e in edges[next] {
        assert indegree[e] >= 1;
        indegree := indegree[e := SaturatingSub(indegree[e], 1)];
        if indegree[e] == 0 {
          DistinctAppend(ready, e);
          ready := ready + [e];
        }
      }
      ProgressStep(edges, placed, next, e, indegree1, ready1, indegree, ready);
    }
    ProgressEnd(edges, placed, next, indegree, ready);
  }

  /** The state of the release loop after successors below `e` were visited. */
  ghost predicate Progress(edges: seq<set<nat>>, placed: set<nat>, next: nat, e: nat, indegree: seq<nat>,
                           ready: seq<nat>) {
    && |indegree| == |edges| && Distinct(ready)
    && (forall j | 0 <= j < |edges| :: indegree[j] == Remaining(edges, if j < e then placed + {next} else placed, j))
    && forall j: nat :: j in ready <==> ReadyAt(edges, placed, next, e, j)
  }

  ghost predicate ReadyAt(edges: seq<set<nat>>, placed: set<nat>, next: nat, e: nat, j: nat) {
    if j < e then ReadyIndex(edges, placed + {next}, j) else j != next && ReadyIndex(edges, placed, j)
  }

  lemma ProgressStep(edges: seq<set<nat>>, placed: set<nat>, next: nat, e: nat,
                     indegree: seq<nat>, ready: seq<nat>, indegree': seq<nat>, ready': seq<nat>)
    requires e < |edges| && Progress(edges, placed, next, e, indegree, ready)
    requires |indegree'| == |indegree| && Distinct(ready')
    requires forall j | 0 <= j < |edges| && j != e :: indegree'[j] == indegree[j]
    requires indegree'[e] == Remaining(edges, placed + {next}, e)
    requires forall j: nat | j != e :: j in ready' <==> j in ready
    requires e in ready' <==> ReadyIndex(edges, placed + {next}, e)
    ensures Progress(edges, placed, next, e + 1, indegree', ready')
  {
    forall j: nat ensures j in ready' <==> ReadyAt(edges, placed, next, e + 1, j) {
      if j != e {
        assert ReadyAt(edges, placed, next, e + 1, j) <==> ReadyAt(edges, placed, next, e, j);
      }
    }
  }

  lemma ProgressEnd(edges: seq<set<nat>>, placed: set<nat>, next: nat, indegree: seq<nat>, ready: seq<nat>)
    requires Progress(edges, placed, next, |edges|, indegree, ready)
    ensures Counts(edges, placed + {next}, indegree) && IsReadyList(edges, placed + {next}, ready)
  {
    assert forall k | 0 <= k < |ready| :: ready[k] in ready && ReadyAt(edges, placed, next, |edges|, ready[k]);
    assert forall j: nat :: ReadyIndex(edges, placed + {next}, j) ==> ReadyAt(edges, placed, next, |edges|, j);
  }

  method InitialReady(edges: seq<set<nat>>, indegree: seq<nat>) returns (ready: seq<nat>)
    requires Counts(edges, {}, indegree)
    ensures IsReadyList(edges, {}, ready)
  {
    ready := [];
    for j := 0 to |edges|
      invariant Distinct(ready) && forall i: nat :: i in ready <==> i < j && ReadyIndex(edges, {}, i)
    {
      assert Preds(edges, j) - {} == Preds(edges, j);
      assert indegree[j] == 0 <==> Preds(edges, j) == {};
      if indegree[j] == 0 {
        DistinctAppend(ready, j);
        ready := ready + [j];
      }
    }
  }

  lemma ReadyListSorted(deps: seq<Dependency>, edges: seq<set<nat>>, placed: set<nat>, unsorted: seq<nat>,
                        ready: seq<nat>)
    requires IsReadyList(edges, placed, unsorted) && SortedByName(deps, ready) && Elements(ready) == Elements(unsorted)
    ensures IsReadyList(edges, placed, ready)
  {
    SortedDistinct(deps, ready);
    forall k | 0 <= k < |ready| ensures ReadyIndex(edges, placed, ready[k]) {
      assert ready[k] in Elements(unsorted);
    }
    forall j | 0 <= j < |edges| && ReadyIndex(edges, placed, j) ensures j in ready {
      assert j in Elements(ready);
    }
  }

  lemma PlacedClosed(deps: seq<Dependency>, edges: seq<set<nat>>, order: seq<nat>, j: nat)
    requires |deps| == |edges| && GreedyIndices(deps, edges, order) && j in order
    ensures Preds(edges, j) <= Elements(order)
  {
    var k :| 0 <= k < |order| && order[k] == j;
    assert NextIndex(deps, edges, Elements(order[..k]), order[k]);
  }

  lemma GreedyExtend(deps: seq<Dependency>, edges: seq<set<nat>>, order: seq<nat>, next: nat)
    requires |deps| == |edges| && GreedyIndices(deps, edges, order) && NextIndex(deps, edges, Elements(order), next)
    ensures GreedyIndices(deps, edges, order + [next])
    ensures Elements(order + [next]) == Elements(order) + {next}
  {
    forall k | 0 <= k < |order + [next]|
      ensures NextIndex(deps, edges, Elements((order + [next])[..k]), (order + [next])[k])
    {
      if k < |order| {
        assert (order + [next])[..k] == order[..k];
      } else {
        assert (order + [next])[..k] == order;
      }
    }
  }

  /** The last entry of the sorted ready list is the greatest ready name. */
  lemma LastIsNext(deps: seq<Dependency>, edges: seq<set<nat>>, placed: set<nat>, ready: seq<nat>)
    requires |deps| == |edges| && SortedByName(deps, ready) && IsReadyList(edges, placed, ready) && ready != []
    ensures NextIndex(deps, edges, placed, ready[|ready| - 1])
  {
    var next := ready[|ready| - 1];
    assert next in ready;
    forall i | 0 <= i < |edges| && ReadyIndex(edges, placed, i) ensures !Below(deps[next].name, deps[i].name) {
      assert i in ready;
      var k :| 0 <= k < |ready| && ready[k] == i;
      if k < |ready| - 1 {
        BelowAsymmetric(deps[i].name, deps[next].name);
      } else if Below(deps[next].name, deps[next].name) {
        BelowAsymmetric(deps[next].name, deps[next].name);
      }
    }
  }

  method DependencyTopologicalOrder(deps: seq<Dependency>, ifs: map<string, Interfaces>)
    returns (r: Result<seq<nat>, PlanError>)
    ensures IsPlan(deps, ifs, r)
  {
    var indexed := IndexByName(deps);
    if indexed.Err? {
      return Err(indexed.error);
    }
    var edges, indegree, unknown := BuildEdges(deps, ifs, indexed.value);
    if unknown.Some? {
      return Err(unknown.value);
    }
    var initial := InitialReady(edges, indegree);
    var ready := SortByName(deps, initial);
    ReadyListSorted(deps, edges, {}, initial, ready);
    var order: seq<nat> := [];
    assert Elements(order) == {};
    while ready != []
      invariant Counts(edges, Elements(order), indegree)
      invariant SortedByName(deps, ready) && IsReadyList(edges, Elements(order), ready)
      invariant GreedyIndices(deps, edges, order)
      decreases Upto(|deps|) - Elements(order)
    {
      LastIsNext(deps, edges, Elements(order), ready);
      var next := ready[|ready| - 1];
      forall j | j in Elements(order) ensures Preds(edges, j) <= Elements(order) {
        PlacedClosed(deps, edges, order, j);
      }
      PopLast(ready);
      indegree, ready := ReleaseSuccessors(edges, indegree, ready[..|ready| - 1], next, Elements(order));
      GreedyExtend(deps, edges, order, next);
      order := order + [next];
      ghost var unsorted := ready;
      ready := SortByName(deps, ready);
      ReadyListSorted(deps, edges, Elements(order), unsorted, ready);
    }
    if |order| != |deps| {
      IncompleteMeansCyclic(deps, ifs, edges, order);
      return Err(Cycle);
    }
    CompleteIsPlan(deps, ifs, edges, order);
    r := Ok(order);
  }

  lemma PopLast(s: seq<nat>)
    requires s != [] && Distinct(s)
    ensures Distinct(s[..|s| - 1]) && forall j :: j in s[..|s| - 1] <==> j in s && j != s[|s| - 1]
  {
    assert s == s[..|s| - 1] + [s[|s| - 1]];
  }

  // ---- Why the loop's outcome is the specified one ----

  lemma EdgeIffIndex(deps: seq<Dependency>, ifs: map<string, Interfaces>, edges: seq<set<nat>>, i: nat, j: nat)
    requires UniqueNames(deps) && Faithful(deps, ifs, edges, |deps|) && i < |deps| && j < |deps|
    ensures Edge(deps, ifs, deps[i].name, deps[j].name) <==> j in edges[i]
  {
    assert deps[i] in deps && deps[j] in deps;
  }

  function NamesIn(deps: seq<Dependency>, s: set<nat>): set<string> {
    set i | i in s && i < |deps| :: deps[i].name
  }

  lemma NamesInMember(deps: seq<Dependency>, placed: set<nat>, j: nat)
    requires UniqueNames(deps) && j < |deps|
    ensures deps[j].name in NamesIn(deps, placed) <==> j in placed
    ensures deps[j].name in NameSet(deps)
  {
    assert deps[j] in deps;
  }

  lemma IndexOf(deps: seq<Dependency>, name: string) returns (i: nat)
    requires name in NameSet(deps)
    ensures i < |deps| && deps[i].name == name
  {
    var d :| d in deps && d.name == name;
    i :| 0 <= i < |deps| && deps[i] == d;
  }

  lemma ReadyFromIndex(deps: seq<Dependency>, ifs: map<string, Interfaces>, edges: seq<set<nat>>, placed: set<nat>,
                       j: nat)
    requires UniqueNames(deps) && Faithful(deps, ifs, edges, |deps|)
    requires ReadyIndex(edges, placed, j)
    ensures Ready(deps, ifs, NamesIn(deps, placed), deps[j].name)
  {
    NamesInMember(deps, placed, j);
    forall a | a in NameSet(deps) && Edge(deps, ifs, a, deps[j].name) ensures a in NamesIn(deps, placed) {
      var i := IndexOf(deps, a);
      EdgeIffIndex(deps, ifs, edges, i, j);
      assert i in Preds(edges, j);
      NamesInMember(deps, placed, i);
    }
  }

  lemma IndexFromReady(deps: seq<Dependency>, ifs: map<string, Interfaces>, edges: seq<set<nat>>, placed: set<nat>,
                       j: nat)
    requires UniqueNames(deps) && Faithful(deps, ifs, edges, |deps|) && j < |deps|
    requires Ready(deps, ifs, NamesIn(deps, placed), deps[j].name)
    ensures ReadyIndex(edges, placed, j)
  {
    NamesInMember(deps, placed, j);
    forall i | i in Preds(edges, j) ensures i in placed {
      EdgeIffIndex(deps, ifs, edges, i, j);
      NamesInMember(deps, placed, i);
    }
  }

  lemma NextByName(deps: seq<Dependency>, ifs: map<string, Interfaces>, edges: seq<set<nat>>, placed: set<nat>, j: nat)
    requires UniqueNames(deps) && Faithful(deps, ifs, edges, |deps|)
    requires NextIndex(deps, edges, placed, j)
    ensures Next(deps, ifs, NamesIn(deps, placed), deps[j].name)
  {
    ReadyFromIndex(deps, ifs, edges, placed, j);
    forall y | y in NameSet(deps) && Ready(deps, ifs, NamesIn(deps, placed), y) ensures !Below(deps[j].name, y) {
      var i := IndexOf(deps, y);
      IndexFromReady(deps, ifs, edges, placed, i);
    }
  }

  lemma OrderFacts(deps: seq<Dependency>, edges: seq<set<nat>>, order: seq<nat>)
    requires |deps| == |edges| && GreedyIndices(deps, edges, order)
    ensures Distinct(order) && InRange(order, |deps|) && Elements(order) <= Upto(|deps|)
  {
    forall k | 0 <= k < |order| ensures order[k] < |deps| && order[k] !in order[..k] {
      assert NextIndex(deps, edges, Elements(order[..k]), order[k]);
    }
    forall i, j | 0 <= i < j < |order| ensures order[i] != order[j] {
      assert order[..j][i] == order[i];
    }
  }

  lemma PrefixNames(deps: seq<Dependency>, order: seq<nat>, k: nat)
    requires InRange(order, |deps|) && k <= |order|
    ensures Elements(NamesOf(deps, order)[..k]) == NamesIn(deps, Elements(order[..k]))
  {
    var ns := NamesOf(deps, order);
    forall x | x in Elements(ns[..k]) ensures x in NamesIn(deps, Elements(order[..k])) {
      var m :| 0 <= m < k && ns[m] == x;
      assert order[..k][m] == order[m];
    }
    forall x | x in NamesIn(deps, Elements(order[..k])) ensures x in Elements(ns[..k]) {
      var i :| i in order[..k] && i < |deps| && deps[i].name == x;
      var m :| 0 <= m < k && order[m] == i;
      assert ns[..k][m] == x;
    }
  }

  lemma GreedyByName(deps: seq<Dependency>, ifs: map<string, Interfaces>, edges: seq<set<nat>>, order: seq<nat>)
    requires UniqueNames(deps) && Faithful(deps, ifs, edges, |deps|)
    requires GreedyIndices(deps, edges, order) && InRange(order, |deps|)
    ensures Greedy(deps, ifs, NamesOf(deps, order))
  {
    var ns := NamesOf(deps, order);
    forall k | 0 <= k < |ns| ensures Next(deps, ifs, Elements(ns[..k]), ns[k]) {
      NextByName(deps, ifs, edges, Elements(order[..k]), order[k]);
      PrefixNames(deps, order, k);
    }
  }

  lemma CompleteIsPlan(deps: seq<Dependency>, ifs: map<string, Interfaces>, edges: seq<set<nat>>, order: seq<nat>)
    requires UniqueNames(deps) && RequirementsKnown(deps) && Faithful(deps, ifs, edges, |deps|)
    requires GreedyIndices(deps, edges, order) && |order| == |deps|
    ensures IsPlan(deps, ifs, Ok(order))
  {
    OrderFacts(deps, edges, order);
    DistinctCardinality(order);
    UptoCardinality(|deps|);
    SubsetCardinality(Elements(order), Upto(|deps|));
    GreedyByName(deps, ifs, edges, order);
    if Cyclic(deps, ifs) {
      var p :| IsCycle(deps, ifs, p);
      var ns := NamesOf(deps, order);
      forall n | n in NameSet(deps) ensures n in ns {
        var i := IndexOf(deps, n);
        assert i in Elements(order);
        var k :| 0 <= k < |order| && order[k] == i;
        assert ns[k] == n;
      }
      CyclePositions(deps, ifs, ns, p, |p| - 1);
      assert false;
    }
  }

  /** Along a path the positions in a greedy sequence strictly increase. */
  lemma {:induction false} CyclePositions(deps: seq<Dependency>, ifs: map<string, Interfaces>, ns: seq<string>,
                                          p: seq<string>, k: nat)
    requires Greedy(deps, ifs, ns) && |ns| == |deps| && k < |p| && 0 < k
    requires forall i | 0 <= i < |p| - 1 :: Edge(deps, ifs, p[i], p[i + 1])
    requires UniqueNames(deps) && forall n | n in NameSet(deps) :: n in ns
    ensures exists i, j | 0 <= i < j < |ns| :: ns[i] == p[0] && ns[j] == p[k] && p[0] != p[k]
  {
    assert Edge(deps, ifs, p[k - 1], p[k]);
    assert p[k] in NameSet(deps);
    var j :| 0 <= j < |ns| && ns[j] == p[k];
    assert Next(deps, ifs, Elements(ns[..j]), ns[j]);
    assert p[k - 1] in ns[..j];
    var m :| 0 <= m < j && ns[m] == p[k - 1];
    var i := m;
    if k > 1 {
      CyclePositions(deps, ifs, ns, p, k - 1);
      var a, b :| 0 <= a < b < |ns| && ns[a] == p[0] && ns[b] == p[k - 1] && p[0] != p[k - 1];
      GreedyDistinct(deps, ifs, ns, m, b);
      i := a;
    }
    GreedyDistinct(deps, ifs, ns, i, j);
  }

  lemma GreedyDistinct(deps: seq<Dependency>, ifs: map<string, Interfaces>, ns: seq<string>, i: nat, j: nat)
    requires Greedy(deps, ifs, ns) && i < |ns| && j < |ns|
    ensures ns[i] == ns[j] ==> i == j
  {
    assert Next(deps, ifs, Elements(ns[..i]), ns[i]) && Next(deps, ifs, Elements(ns[..j]), ns[j]);
    if i < j {
      assert ns[..j][i] == ns[i];
    } else if j < i {
      assert ns[..i][j] == ns[j];
    }
  }

  /** Walking backwards among unplaced nodes for `n` steps. */
  lemma {:induction false} BackwardWalk(edges: seq<set<nat>>, left: set<nat>, start: nat, n: nat) returns (w: seq<nat>)
    requires start in left
    requires forall j | j in left :: Preds(edges, j) * left != {}
    ensures |w| == n + 1 && w[n] == start && forall x | x in w :: x in left
    ensures forall k | 0 <= k < n :: w[k] in Preds(edges, w[k + 1])
    decreases n
  {
    if n == 0 {
      w := [start];
    } else {
      var i :| i in Preds(edges, start) * left;
      var rest := BackwardWalk(edges, left, i, n - 1);
      w := rest + [start];
    }
  }

  lemma IncompleteMeansCyclic(deps: seq<Dependency>, ifs: map<string, Interfaces>, edges: seq<set<nat>>,
                              order: seq<nat>)
    requires UniqueNames(deps) && Faithful(deps, ifs, edges, |deps|)
    requires GreedyIndices(deps, edges, order) && |order| != |deps|
    requires forall j | 0 <= j < |edges| :: !ReadyIndex(edges, Elements(order), j)
    ensures Cyclic(deps, ifs)
  {
    OrderFacts(deps, edges, order);
    DistinctCardinality(order);
    UptoCardinality(|deps|);
    var placed := Elements(order);
    var left := Upto(|deps|) - placed;
    SubsetCardinality(placed, Upto(|deps|));
    assert left != {};
    forall j | j in left ensures Preds(edges, j) * left != {} {
      assert !ReadyIndex(edges, placed, j);
      var i :| i in Preds(edges, j) && i !in placed;
      assert i in Preds(edges, j) * left;
    }
    StuckMeansCyclic(deps, ifs, edges, left);
  }

  lemma StuckMeansCyclic(deps: seq<Dependency>, ifs: map<string, Interfaces>, edges: seq<set<nat>>, left: set<nat>)
    requires UniqueNames(deps) && Faithful(deps, ifs, edges, |deps|)
    requires left != {} && left <= Upto(|deps|)
    requires forall j | j in left :: Preds(edges, j) * left != {}
    ensures Cyclic(deps, ifs)
  {
    var w := FindLoop(edges, left);
    LoopIsCycle(deps, ifs, edges, w);
  }

  lemma LoopIsCycle(deps: seq<Dependency>, ifs: map<string, Interfaces>, edges: seq<set<nat>>, w: seq<nat>)
    requires UniqueNames(deps) && Faithful(deps, ifs, edges, |deps|)
    requires InRange(w, |deps|) && |w| >= 2 && w[0] == w[|w| - 1]
    requires forall k | 0 <= k < |w| - 1 :: w[k] in Preds(edges, w[k + 1])
    ensures IsCycle(deps, ifs, NamesOf(deps, w))
  {
    var p := NamesOf(deps, w);
    forall k | 0 <= k < |p| - 1 ensures Edge(deps, ifs, p[k], p[k + 1]) {
      assert w[k] in Preds(edges, w[k + 1]);
      EdgeIffIndex(deps, ifs, edges, w[k], w[k + 1]);
    }
  }

  lemma FindLoop(edges: seq<set<nat>>, left: set<nat>) returns (loop: seq<nat>)
    requires left != {}
    requires forall j | j in left :: Preds(edges, j) * left != {}
    ensures |loop| >= 2 && loop[0] == loop[|loop| - 1]
    ensures forall k | 0 <= k < |loop| :: loop[k] in left
    ensures forall k | 0 <= k < |loop| - 1 :: loop[k] in Preds(edges, loop[k + 1])
  {
    var start :| start in left;
    var w := BackwardWalk(edges, left, start, |left|);
    var i, j := Pigeonhole(w, left);
    loop := w[i..j + 1];
  }
}
