/**
  Listing services: the releases recorded on disk merged with what the supervisor runs, optionally
  restricted to given names.
 */
module Listing {
  import opened Wrappers
  import opened Names

  /** A service's active release file, trimmed. */
  datatype ActiveFile = Missing | Unreadable | Text(content: string)

  datatype ServiceState = Running | Stopping | Stopped

  datatype Runtime = Runtime(name: string, release: string, startedAt: string, stopping: bool)

  datatype Status = Status(name: string, release: string, startedAt: string, state: ServiceState)

  // ---- What a listing shows ----

  predicate IsDeployed(f: ActiveFile) {
    f.Text? && f.content != ""
  }

  function Deployed(services: map<string, ActiveFile>): map<string, string> {
    map n | n in services && IsDeployed(services[n]) :: services[n].content
  }

  function Live(x: Runtime): Status {
    Status(x.name, x.release, x.startedAt, if x.stopping then Stopping else Running)
  }

  function Idle(name: string, release: string): Status {
    Status(name, release, "", Stopped)
  }

  /** The last snapshot of a service, as the merge overwrites earlier ones. */
  function Latest(runtime: seq<Runtime>, name: string): Option<Runtime> {
    if runtime == [] then None
    else if runtime[|runtime| - 1].name == name then Some(runtime[|runtime| - 1])
    else Latest(runtime[..|runtime| - 1], name)
  }

  function NamesOf(runtime: seq<Runtime>): set<string> {
    set x | x in runtime :: x.name
  }

  /** One status per deployed or running service; what runs overrides what is on disk. */
  function View(deployed: map<string, string>, runtime: seq<Runtime>): map<string, Status> {
    map n | n in deployed.Keys + NamesOf(runtime) ::
      match Latest(runtime, n)
      case Some(x) => Live(x)
      case None => Idle(n, if n in deployed then deployed[n] else "")
  }

  function Restrict<T>(m: map<string, T>, names: Option<set<string>>): map<string, T> {
    if names.Some? then map n | n in m && n in names.value :: m[n] else m
  }

  function Select(runtime: seq<Runtime>, names: Option<set<string>>): seq<Runtime> {
    if names.None? then runtime
    else if runtime == [] then []
    else
      var last := runtime[|runtime| - 1];
      Select(runtime[..|runtime| - 1], names) + if last.name in names.value then [last] else []
  }

  lemma {:induction false} SelectLatest(runtime: seq<Runtime>, names: set<string>, n: string)
    ensures Latest(Select(runtime, Some(names)), n) == if n in names then Latest(runtime, n) else None
  {
    if runtime != [] {
      var front, last := runtime[..|runtime| - 1], runtime[|runtime| - 1];
      var chosen := Select(front, Some(names));
      SelectLatest(front, names, n);
      assert (chosen + [last])[..|chosen|] == chosen;
      assert chosen + [] == chosen;
    }
  }

  lemma {:induction false} SelectNames(runtime: seq<Runtime>, names: set<string>)
    ensures NamesOf(Select(runtime, Some(names))) == NamesOf(runtime) * names
  {
    if runtime != [] {
      var front, last := runtime[..|runtime| - 1], runtime[|runtime| - 1];
      var chosen := Select(front, Some(names));
      SelectNames(front, names);
      assert runtime == front + [last];
      NamesOfAppend(front, last);
      NamesOfAppend(chosen, last);
      assert chosen + [] == chosen;
    }
  }

  lemma NamesOfAppend(runtime: seq<Runtime>, x: Runtime)
    ensures NamesOf(runtime + [x]) == NamesOf(runtime) + {x.name}
  {
    assert forall y | y in runtime :: y in runtime + [x];
    assert x in runtime + [x];
  }

  lemma RestrictedAt(deployed: map<string, string>, runtime: seq<Runtime>, names: set<string>, n: string)
    ensures var shown := View(Restrict(deployed, Some(names)), Select(runtime, Some(names)));
      && (n in shown <==> n in View(deployed, runtime) && n in names)
      && (n in shown ==> shown[n] == View(deployed, runtime)[n])
  {
    SelectLatest(runtime, names, n);
    SelectNames(runtime, names);
  }

  /** Restricting what is read is the same as restricting what is shown. */
  lemma RestrictedView(deployed: map<string, string>, runtime: seq<Runtime>, names: Option<set<string>>)
    ensures View(Restrict(deployed, names), Select(runtime, names)) == Restrict(View(deployed, runtime), names)
  {
    if names.Some? {
      forall n
        ensures n in View(Restrict(deployed, names), Select(runtime, names)) <==>
                n in Restrict(View(deployed, runtime), names)
        ensures n in Restrict(View(deployed, runtime), names) ==>
          View(Restrict(deployed, names), Select(runtime, names))[n] == Restrict(View(deployed, runtime), names)[n]
      {
        RestrictedAt(deployed, runtime, names.value, n);
      }
    }
  }

  function RowNames(rows: seq<Status>): set<string> {
    set x | x in rows :: x.name
  }

  /** `rows` lists the statuses of `view` in name order. */
  predicate Lists(rows: seq<Status>, view: map<string, Status>) {
    && (forall i, j | 0 <= i < j < |rows| :: Below(rows[i].name, rows[j].name))
    && RowNames(rows) == view.Keys
    && (forall x | x in rows :: x.name in view && view[x.name] == x)
  }

  /** Rows kept by a name filter. */
  function Chosen(rows: seq<Status>, names: set<string>): seq<Status> {
    if rows == [] then []
    else (if rows[0].name in names then [rows[0]] else []) + Chosen(rows[1..], names)
  }

  // ---- A listing is determined by what it shows ----

  lemma RowNamesConcat(a: seq<Status>, b: seq<Status>)
    ensures RowNames(a + b) == RowNames(a) + RowNames(b)
  {
    assert forall x :: x in a + b <==> x in a || x in b;
  }

  lemma RowNamesOne(x: Status)
    ensures RowNames([x]) == {x.name}
  {
    assert x in [x];
  }

  lemma ListsAppend(rows: seq<Status>, view: map<string, Status>, last: Status)
    requires Lists(rows, view) && last.name !in view && forall x | x in rows :: Below(x.name, last.name)
    ensures Lists(rows + [last], view[last.name := last])
  {
    RowNamesConcat(rows, [last]);
    RowNamesOne(last);
  }

  lemma {:induction false} ListsUnique(a: seq<Status>, b: seq<Status>, view: map<string, Status>)
    requires Lists(a, view) && Lists(b, view)
    ensures a == b
    decreases |a|
  {
    assert a != [] ==> a[0].name in RowNames(a);
    assert b != [] ==> b[0].name in RowNames(b);
    if a != [] && b != [] {
      FirstRow(a, b, view);
      DropFirst(a, view);
      DropFirst(b, view);
      ListsUnique(a[1..], b[1..], view - {a[0].name});
      assert a == [a[0]] + a[1..] && b == [b[0]] + b[1..];
    }
  }

  lemma FirstRow(a: seq<Status>, b: seq<Status>, view: map<string, Status>)
    requires a != [] && b != [] && Lists(a, view) && Lists(b, view)
    ensures a[0] == b[0]
  {
    assert a[0].name in RowNames(b) && b[0].name in RowNames(a);
    var x :| x in b && x.name == a[0].name;
    var y :| y in a && y.name == b[0].name;
    if a[0].name != b[0].name {
      BelowAsymmetric(a[0].name, b[0].name);
    }
  }

  lemma DropFirst(rows: seq<Status>, view: map<string, Status>)
    requires rows != [] && Lists(rows, view)
    ensures Lists(rows[1..], view - {rows[0].name})
  {
    assert rows == [rows[0]] + rows[1..];
    RowNamesConcat([rows[0]], rows[1..]);
    RowNamesOne(rows[0]);
    forall x | x in rows[1..] ensures x.name != rows[0].name {
      var i :| 0 <= i < |rows[1..]| && rows[1..][i] == x;
      assert rows[i + 1] == x;
      BelowAsymmetric(rows[0].name, x.name);
    }
  }

  lemma {:induction false} ChosenLists(rows: seq<Status>, view: map<string, Status>, names: set<string>)
    requires Lists(rows, view)
    ensures Lists(Chosen(rows, names), Restrict(view, Some(names)))
    ensures forall x | x in Chosen(rows, names) :: x in rows
    decreases |rows|
  {
    if rows != [] {
      DropFirst(rows, view);
      ChosenLists(rows[1..], view - {rows[0].name}, names);
      if rows[0].name in names {
        Prepend(rows, view, Chosen(rows[1..], names), names);
      } else {
        assert Restrict(view, Some(names)) == Restrict(view - {rows[0].name}, Some(names));
        assert Chosen(rows, names) == Chosen(rows[1..], names);
      }
    }
  }

  lemma Prepend(rows: seq<Status>, view: map<string, Status>, tail: seq<Status>, names: set<string>)
    requires rows != [] && Lists(rows, view) && rows[0].name in names
    requires Lists(tail, Restrict(view - {rows[0].name}, Some(names))) && forall x | x in tail :: x in rows[1..]
    ensures Lists([rows[0]] + tail, Restrict(view, Some(names)))
  {
    RowNamesConcat([rows[0]], tail);
    RowNamesOne(rows[0]);
    assert rows[0] in rows;
    forall i | 0 <= i < |tail| ensures Below(rows[0].name, tail[i].name) {
      assert tail[i] in rows[1..];
      var k :| 0 <= k < |rows[1..]| && rows[1..][k] == tail[i];
      assert rows[k + 1] == tail[i];
    }
  }

  /** A filtered listing is the filtered full listing, row by row. */
  lemma FilteredListing(full: seq<Status>, part: seq<Status>, deployed: map<string, string>, runtime: seq<Runtime>,
                        names: set<string>)
    requires Lists(full, View(deployed, runtime))
    requires Lists(part, View(Restrict(deployed, Some(names)), Select(runtime, Some(names))))
    ensures part == Chosen(full, names)
  {
    RestrictedView(deployed, runtime, Some(names));
    ChosenLists(full, View(deployed, runtime), names);
    ListsUnique(part, Chosen(full, names), Restrict(View(deployed, runtime), Some(names)));
  }

  /** What a listing shows of a service: its last snapshot, or else the release on disk as stopped. */
  lemma ViewShows(deployed: map<string, string>, runtime: seq<Runtime>, n: string)
    ensures n in View(deployed, runtime) <==> n in deployed || exists i | 0 <= i < |runtime| :: runtime[i].name == n
    ensures forall i | 0 <= i < |runtime| && IsLast(runtime, i, n) ::
      n in View(deployed, runtime) && View(deployed, runtime)[n] ==
        Status(n, runtime[i].release, runtime[i].startedAt, if runtime[i].stopping then Stopping else Running)
    ensures n in deployed && (forall i | 0 <= i < |runtime| :: runtime[i].name != n) ==>
      View(deployed, runtime)[n] == Status(n, deployed[n], "", Stopped)
  {
    if i :| 0 <= i < |runtime| && runtime[i].name == n {
      assert runtime[i] in runtime;
    }
    LatestIsLast(runtime, n);
  }

  /** Snapshot `i` is the last one of service `n`. */
  predicate IsLast(runtime: seq<Runtime>, i: nat, n: string)
    requires i < |runtime|
  {
    runtime[i].name == n && forall j | i < j < |runtime| :: runtime[j].name != n
  }

  lemma {:induction false} LatestIsLast(runtime: seq<Runtime>, n: string)
    ensures forall i | 0 <= i < |runtime| && IsLast(runtime, i, n) :: Latest(runtime, n) == Some(runtime[i])
    ensures (forall i | 0 <= i < |runtime| :: runtime[i].name != n) ==> Latest(runtime, n) == None
  {
    if runtime != [] {
      var front := runtime[..|runtime| - 1];
      LatestIsLast(front, n);
      forall i | 0 <= i < |runtime| && IsLast(runtime, i, n) ensures Latest(runtime, n) == Some(runtime[i]) {
        if i < |front| {
          assert IsLast(front, i, n);
        }
      }
    }
  }

  // ---- As it runs ----

  /** Reads the active releases of the wanted services, or of all service directories. */
  method CollectDeployed(services: map<string, ActiveFile>, names: Option<set<string>>)
    returns (r: Option<map<string, string>>)
    ensures r.None? <==> exists n :: n in services && services[n].Unreadable? && (names.Some? ==> n in names.value)
    ensures r.Some? ==> r.value == Restrict(Deployed(services), names)
  {
    var todo := if names.Some? then names.value else services.Keys;
    var deployed: map<string, string> := map[];
    while todo != {}
      invariant todo <= if names.Some? then names.value else services.Keys
      invariant deployed == map n | n in Restrict(Deployed(services), names) && n !in todo :: Deployed(services)[n]
      invariant forall n | n in services && services[n].Unreadable? && (names.Some? ==> n in names.value) :: n in todo
      decreases todo
    {
      var name :| name in todo;
      var file := if name in services then services[name] else Missing;
      if file.Unreadable? {
        return None;
      }
      todo := todo - {name};
      if file.Text? && file.content != "" {
        deployed := deployed[name := file.content];
      }
    }
    r := Some(deployed);
  }

  lemma ViewAppend(deployed: map<string, string>, runtime: seq<Runtime>, x: Runtime)
    ensures View(deployed, runtime + [x]) == View(deployed, runtime)[x.name := Live(x)]
  {
    NamesOfAppend(runtime, x);
    assert (runtime + [x])[..|runtime|] == runtime;
  }

  method MergeStates(deployed: map<string, string>, runtime: seq<Runtime>) returns (merged: map<string, Status>)
    ensures merged == View(deployed, runtime)
  {
    merged := map n | n in deployed :: Idle(n, deployed[n]);
    for i := 0 to |runtime|
      invariant merged == View(deployed, runtime[..i])
    {
      assert runtime[..i + 1] == runtime[..i] + [runtime[i]];
      ViewAppend(deployed, runtime[..i], runtime[i]);
      merged := merged[runtime[i].name := Live(runtime[i])];
    }
    assert runtime[..|runtime|] == runtime;
  }

  /** The rows of a map in key order. */
  method InNameOrder(view: map<string, Status>) returns (rows: seq<Status>)
    requires forall n | n in view :: view[n].name == n
    ensures Lists(rows, view)
  {
    rows := [];
    var todo := view.Keys;
    while todo != {}
      invariant todo <= view.Keys
      invariant Lists(rows, view - todo)
      invariant forall x, n | x in rows && n in todo :: Below(x.name, n)
      decreases todo
    {
      var name := Smallest(todo);
      ListsAppend(rows, view - todo, view[name]);
      assert (view - todo)[name := view[name]] == view - (todo - {name});
      rows := rows + [view[name]];
      todo := todo - {name};
    }
    assert view - todo == view;
  }

  method Smallest(names: set<string>) returns (least: string)
    requires names != {}
    ensures least in names && forall n | n in names && n != least :: Below(least, n)
  {
    least :| least in names;
    var todo := names - {least};
    while todo != {}
      invariant todo <= names && least in names && least !in todo
      invariant forall n | n in names - todo && n != least :: Below(least, n)
      decreases todo
    {
      var name :| name in todo;
      todo := todo - {name};
      BelowTotal(name, least);
      if Below(name, least) {
        forall n | n in names - todo && n != name ensures Below(name, n) {
          if n != least {
            BelowTransitive(name, least, n);
          }
        }
        least := name;
      }
    }
  }

  /**
    The whole request: fails if a wanted file cannot be read, and otherwise lists the restricted view
    in name order.
   */
  method ListServiceStates(services: map<string, ActiveFile>, runtime: seq<Runtime>, names: Option<set<string>>)
    returns (r: Option<seq<Status>>)
    ensures r.None? <==> exists n :: n in services && services[n].Unreadable? && (names.Some? ==> n in names.value)
    ensures r.Some? ==> Lists(r.value, Restrict(View(Deployed(services), runtime), names))
  {
    var deployed := CollectDeployed(services, names);
    if deployed.None? {
      return None;
    }
    var merged := MergeStates(deployed.value, Select(runtime, names));
    RestrictedView(Deployed(services), runtime, names);
    ViewNames(Deployed(services), runtime);
    var rows := InNameOrder(merged);
    r := Some(rows);
  }

  lemma ViewNames(deployed: map<string, string>, runtime: seq<Runtime>)
    ensures forall n | n in View(deployed, runtime) :: View(deployed, runtime)[n].name == n
  {
    forall n | n in View(deployed, runtime) ensures View(deployed, runtime)[n].name == n {
      LatestName(runtime, n);
    }
  }

  lemma {:induction false} LatestName(runtime: seq<Runtime>, n: string)
    ensures Latest(runtime, n).Some? ==> Latest(runtime, n).value.name == n
  {
    if runtime != [] {
      LatestName(runtime[..|runtime| - 1], n);
    }
  }
}
