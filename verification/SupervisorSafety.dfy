/**
  Who owns a runner.  The proof follows every runner from place to place: under its service in the
  table, in the hands of one task, or gone.  The theorems speak about the supervisor's own state.
 */
module SupervisorSafety {
  import opened Supervisor

  /** Where a runner is: in the table under its service, carried by a task, or out of sight. */
  datatype Place = InTable | With(t: nat) | Gone

  /** A runner's service and place. */
  datatype Spot = Spot(home: string, place: Place)

  type Places = map<Runner, Spot>

  ghost predicate TablePlaced(inner: map<string, Runner>, p: Places) {
    && (forall n | n in inner :: inner[n] in p && p[inner[n]] == Spot(n, InTable))
    && (forall r | r in p && p[r].place.InTable? :: p[r].home in inner && inner[p[r].home] == r)
  }

  ghost predicate TaskPlaced(t: nat, task: Task, p: Places) {
    forall r | r in Held(task.pc) :: r in p && p[r].place == With(t) && (task.pc.Sweep? || p[r].home == task.name)
  }

  ghost predicate TasksPlaced(tasks: map<nat, Task>, p: Places) {
    && (forall t {:trigger TaskPlaced(t, tasks[t], p)} | t in tasks :: TaskPlaced(t, tasks[t], p))
    && (forall r | r in p && p[r].place.With? :: p[r].place.t in tasks && r in Held(tasks[p[r].place.t].pc))
  }

  ghost predicate Accounted(s: State, p: Places) {
    && p.Keys == s.used && s.alive <= s.used
    && forall r | r in s.alive && p[r].place.Gone? :: r in s.lost || r in s.gaveUp
  }

  ghost predicate Placed(s: State, p: Places) {
    TablePlaced(s.inner, p) && TasksPlaced(s.tasks, p) && Accounted(s, p)
  }

  function Moved(p: Places, r: Runner, place: Place): Places
    requires r in p
  {
    p[r := p[r].(place := place)]
  }

  /** Other tasks keep what they carry when one runner, theirs or nobody's, is moved by task `t`. */
  lemma OthersPlaced(tasks: map<nat, Task>, p: Places, t: nat, task: Task, r: Runner, spot: Spot)
    requires TasksPlaced(tasks, p) && (t in tasks ==> forall x | x in Held(tasks[t].pc) :: x in Held(task.pc) || x == r)
    requires r in p ==> (p[r].place.With? ==> p[r].place.t == t)
    requires spot.place.With? ==> spot.place.t == t && r in Held(task.pc)
    requires TaskPlaced(t, task, p[r := spot])
    ensures TasksPlaced(tasks[t := task], p[r := spot])
  {
    var p', tasks' := p[r := spot], tasks[t := task];
    forall u | u in tasks' && u != t ensures TaskPlaced(u, tasks'[u], p') {
      assert TaskPlaced(u, tasks[u], p);
    }
  }

  // ---- The five ways a runner moves ----

  /** A task moves on with what it carries. */
  lemma CarryOn(s: State, s': State, p: Places, t: nat, task: Task)
    requires Placed(s, p) && s'.tasks == s.tasks[t := task]
    requires s'.inner == s.inner && s'.used == s.used && s'.alive <= s.alive && s'.lost == s.lost &&
             s'.gaveUp == s.gaveUp
    requires t in s.tasks ==>
        && Held(task.pc) == Held(s.tasks[t].pc)
        && (Held(task.pc) != {} ==> task.name == s.tasks[t].name && task.pc.Sweep? == s.tasks[t].pc.Sweep?)
    requires t !in s.tasks ==> Held(task.pc) == {}
    ensures Placed(s', p)
  {
    forall u | u in s'.tasks ensures TaskPlaced(u, s'.tasks[u], p) {
      assert u in s.tasks ==> TaskPlaced(u, s.tasks[u], p);
    }
  }

  /** A task takes its service's runner out of the table. */
  lemma Take(s: State, s': State, p: Places, t: nat, task: Task) returns (p': Places)
    requires Placed(s, p) && t in s.tasks && task.name == s.tasks[t].name && task.name in s.inner && !task.pc.Sweep?
    requires Held(s.tasks[t].pc) == {} && Held(task.pc) == {s.inner[task.name]}
    requires s' == s.(inner := s.inner - {task.name}, tasks := s.tasks[t := task])
    ensures Placed(s', p') && HomesKept(p, p')
  {
    var r := s.inner[task.name];
    p' := Moved(p, r, With(t));
    OthersPlaced(s.tasks, p, t, task, r, p'[r]);
  }

  /** A task puts the runner it carries into the table; an entry already there is overwritten. */
  lemma Put(s: State, s': State, p: Places, t: nat, task: Task, r: Runner) returns (p': Places)
    requires Placed(s, p) && t in s.tasks && task.name == s.tasks[t].name && !s.tasks[t].pc.Sweep?
    requires Held(s.tasks[t].pc) == {r} && Held(task.pc) == {}
    requires s' == s.(inner := s.inner[task.name := r], tasks := s.tasks[t := task],
                      lost := if task.name in s.inner then s.lost + {s.inner[task.name]} else s.lost)
    ensures Placed(s', p') && HomesKept(p, p')
  {
    var n := task.name;
    var mid, p1 := s, p;
    if n in s.inner {
      mid := s.(inner := s.inner - {n}, lost := s.lost + {s.inner[n]});
      p1 := Overwritten(s, mid, p, n);
    }
    p' := PutFree(mid, s', p1, t, task, r);
  }

  /** An entry goes out of sight. */
  lemma Overwritten(s: State, s': State, p: Places, n: string) returns (p': Places)
    requires Placed(s, p) && n in s.inner
    requires s' == s.(inner := s.inner - {n}, lost := s.lost + {s.inner[n]})
    ensures Placed(s', p') && HomesKept(p, p')
  {
    p' := Moved(p, s.inner[n], Gone);
    forall u | u in s.tasks ensures TaskPlaced(u, s.tasks[u], p') {
      assert TaskPlaced(u, s.tasks[u], p);
    }
  }

  lemma PutFree(s: State, s': State, p: Places, t: nat, task: Task, r: Runner) returns (p': Places)
    requires Placed(s, p) && t in s.tasks && task.name == s.tasks[t].name && !s.tasks[t].pc.Sweep? &&
             task.name !in s.inner
    requires Held(s.tasks[t].pc) == {r} && Held(task.pc) == {}
    requires s'.inner == s.inner[task.name := r] && s'.tasks == s.tasks[t := task]
    requires s'.used == s.used && s'.alive == s.alive && s'.lost == s.lost && s'.gaveUp == s.gaveUp
    ensures Placed(s', p') && HomesKept(p, p')
  {
    assert TaskPlaced(t, s.tasks[t], p);
    p' := Moved(p, r, InTable);
    OthersPlaced(s.tasks, p, t, task, r, p'[r]);
  }

  /** A task lets go of a runner that is dead, or that it could not kill. */
  lemma Drop(s: State, s': State, p: Places, t: nat, task: Task, r: Runner) returns (p': Places)
    requires Placed(s, p) && t in s.tasks && r in Held(s.tasks[t].pc) && Held(task.pc) == Held(s.tasks[t].pc) - {r}
    requires task.name == s.tasks[t].name && (Held(task.pc) != {} ==> task.pc.Sweep? == s.tasks[t].pc.Sweep?)
    requires s'.tasks == s.tasks[t := task] && s'.inner == s.inner && s'.used == s.used && s'.lost == s.lost
    requires s'.alive <= s.alive && s.gaveUp <= s'.gaveUp && (r !in s'.alive || r in s'.gaveUp)
    ensures Placed(s', p') && HomesKept(p, p')
  {
    assert TaskPlaced(t, s.tasks[t], p);
    p' := Moved(p, r, Gone);
    OthersPlaced(s.tasks, p, t, task, r, p'[r]);
  }

  lemma Spawned(s: State, s': State, p: Places, t: nat, task: Task, r: Runner) returns (p': Places)
    requires Placed(s, p) && t in s.tasks && Held(s.tasks[t].pc) == {} && Held(task.pc) == {r} && r !in s.used
    requires task.name == s.tasks[t].name && !task.pc.Sweep?
    requires s' == s.(alive := s.alive + {r}, used := s.used + {r}, tasks := s.tasks[t := task])
    ensures Placed(s', p') && HomesKept(p, p')
  {
    p' := p[r := Spot(task.name, With(t))];
    OthersPlaced(s.tasks, p, t, task, r, p'[r]);
  }

  /** Runners keep the service they were spawned for. */
  ghost predicate HomesKept(p: Places, p': Places) {
    forall r | r in p :: r in p' && p'[r].home == p[r].home
  }

  // ---- Sections of a start and of a stop ----

  /** Runners that a reap has taken out are known to have exited. */
  predicate ReapedDead(pc: Pc, alive: set<Runner>) {
    pc.DropBefore? || pc.DropAfter? || pc.Sweep? ==> Held(pc) !! alive
  }

  lemma AdmissionPlaced(s: State, s': State, p: Places, t: nat, ok: bool) returns (p': Places)
    requires Placed(s, p) && t in s.tasks && InAdmission(s.tasks[t].pc) && s' == AdmissionNext(s, t, ok)
    requires ReapedDead(s.tasks[t].pc, s.alive)
    ensures Placed(s', p') && HomesKept(p, p')
  {
    var pc := s.tasks[t].pc;
    if pc.DropBefore? || pc.DropAfter? {
      p' := Drop(s, s', p, t, s'.tasks[t], pc.r);
    } else {
      p' := AdmissionLooks(s, s', p, t, ok);
    }
  }

  /** The sections of an admission that reap, reserve and check. */
  lemma AdmissionLooks(s: State, s': State, p: Places, t: nat, ok: bool) returns (p': Places)
    requires Placed(s, p) && t in s.tasks && InAdmission(s.tasks[t].pc) && s' == AdmissionNext(s, t, ok)
    requires !s.tasks[t].pc.DropBefore? && !s.tasks[t].pc.DropAfter?
    ensures Placed(s', p') && HomesKept(p, p')
  {
    var task' := s'.tasks[t];
    if task'.pc.DropBefore? || task'.pc.DropAfter? {
      p' := Take(s, s', p, t, task');
    } else {
      p' := p;
      CarryOn(s, s', p, t, task');
    }
  }

  lemma LaunchPlaced(s: State, s': State, p: Places, t: nat, c: Choice) returns (p': Places)
    requires Placed(s, p) && LaunchEnabled(s, t, c) && s' == LaunchNext(s, t, c)
    ensures Placed(s', p') && HomesKept(p, p')
  {
    var pc := s.tasks[t].pc;
    if pc.Spawn? {
      p' := SpawnPlaced(s, s', p, t, c);
    } else if pc.Insert? {
      p' := Put(s, s', p, t, s'.tasks[t], pc.r);
    } else if pc.Kill? {
      p' := Drop(s, s', p, t, s'.tasks[t], pc.r);
    } else if pc.Fail? {
      p' := FailPlaced(s, s', p, t, c);
    } else {
      p' := p;
      LaunchMovesOn(s, s', p, t, c);
    }
  }

  lemma SpawnPlaced(s: State, s': State, p: Places, t: nat, c: Choice) returns (p': Places)
    requires Placed(s, p) && LaunchEnabled(s, t, c) && s.tasks[t].pc.Spawn? && s' == LaunchNext(s, t, c)
    ensures Placed(s', p') && HomesKept(p, p')
  {
    if c.ok {
      p' := Spawned(s, s', p, t, s'.tasks[t], c.id);
    } else {
      p' := p;
      CarryOn(s, s', p, t, s'.tasks[t]);
    }
  }

  lemma FailPlaced(s: State, s': State, p: Places, t: nat, c: Choice) returns (p': Places)
    requires Placed(s, p) && LaunchEnabled(s, t, c) && s.tasks[t].pc.Fail? && s' == LaunchNext(s, t, c)
    ensures Placed(s', p') && HomesKept(p, p')
  {
    if s.tasks[t].name in s.inner {
      p' := Take(s, s', p, t, s'.tasks[t]);
    } else {
      p' := p;
      CarryOn(s, s', p, t, s'.tasks[t]);
    }
  }

  /** The sections of a launch that publish, wait and release. */
  lemma LaunchMovesOn(s: State, s': State, p: Places, t: nat, c: Choice)
    requires Placed(s, p) && LaunchEnabled(s, t, c) && s' == LaunchNext(s, t, c)
    requires var pc := s.tasks[t].pc; pc.Publish? || pc.Boot? || pc.Unpublish? || pc.Release?
    ensures Placed(s', p)
  {
    CarryOn(s, s', p, t, s'.tasks[t]);
  }

  lemma StopPlaced(s: State, s': State, p: Places, t: nat, ok: bool) returns (p': Places)
    requires Placed(s, p) && StopEnabled(s, t) && s' == StopNext(s, t, ok)
    ensures Placed(s', p') && HomesKept(p, p')
  {
    var pc, task' := s.tasks[t].pc, s'.tasks[t];
    p' := p;
    if pc.Restore? && s.tasks[t].name !in s.inner {
      p' := Put(s, s', p, t, task', pc.r);
    } else if Held(task'.pc) == Held(pc) {
      CarryOn(s, s', p, t, task');
    } else {
      p' := Drop(s, s', p, t, task', pc.r);
    }
  }

  lemma StopTakenPlaced(s: State, s': State, p: Places, t: nat) returns (p': Places)
    requires Placed(s, p) && t in s.tasks && s.tasks[t].pc.Ready? && s' == StopTaken(s, t)
    ensures Placed(s', p') && HomesKept(p, p')
  {
    p' := p;
    if s.tasks[t].name in s.inner {
      p' := Take(s, s', p, t, s'.tasks[t]);
    }
  }

  /** A reap takes every listed entry at once. */
  lemma CollectPlaced(s: State, s': State, p: Places, t: nat, names: set<string>) returns (p': Places)
    requires Placed(s, p) && Step(s, Collect(t, names), s')
    ensures Placed(s', p') && HomesKept(p, p')
  {
    var rs := set n | n in names :: s.inner[n];
    p' := map r | r in p :: if r in rs then p[r].(place := With(t)) else p[r];
    forall u | u in s'.tasks ensures TaskPlaced(u, s'.tasks[u], p') {
      assert u in s.tasks ==> TaskPlaced(u, s.tasks[u], p);
    }
    forall n | n in s'.inner ensures s'.inner[n] !in rs {
      assert forall m | m in names :: p[s.inner[m]].home == m;
    }
    assert TablePlaced(s'.inner, p');
  }

  // ---- The runner index ----

  /** The table entry of `n` is in the index, or whoever put it there is about to enter it. */
  ghost predicate Listed(s: State, n: string)
    requires n in s.inner
  {
    || (s.inner[n] in s.index && s.index[s.inner[n]] == n)
    || exists t :: t in s.tasks && Publishing(s.tasks[t], s.inner[n], n)
  }

  ghost predicate PublishesHome(task: Task, p: Places) {
    task.pc.Publish? || task.pc.Republish? ==> task.pc.r in p && p[task.pc.r].home == task.name
  }

  ghost predicate Indexed(s: State, p: Places) {
    && (forall n {:trigger Listed(s, n)} | n in s.inner :: Listed(s, n))
    && (forall r | r in s.index :: r in p && s.index[r] == p[r].home)
    && (forall t {:trigger PublishesHome(s.tasks[t], p)} | t in s.tasks :: PublishesHome(s.tasks[t], p))
  }

  /** How one section changes table and index: it enters what it has put there and clears only what it holds. */
  ghost predicate IndexSection(s: State, s': State, t: nat) {
    && t in s.tasks && t in s'.tasks && s'.tasks == s.tasks[t := s.tasks[t].(pc := s'.tasks[t].pc)] && s'.gate == s.gate
    && (if s.tasks[t].pc.Publish? || s.tasks[t].pc.Republish?
        then s'.index == s.index[s.tasks[t].pc.r := s.tasks[t].name]
        else s'.index.Keys <= s.index.Keys && (forall r | r in s'.index :: s'.index[r] == s.index[r])
             && s.index.Keys - s'.index.Keys <= Held(s.tasks[t].pc))
    && (s'.tasks[t].pc.Publish? || s'.tasks[t].pc.Republish? ==>
          s'.tasks[t].pc.r in Held(s.tasks[t].pc) && !s.tasks[t].pc.Sweep?)
    && forall n | n in s'.inner ::
        (n in s.inner && s'.inner[n] == s.inner[n]) || Publishing(s'.tasks[t], s'.inner[n], n)
  }

  lemma ListedKept(s: State, s': State, p: Places, t: nat, n: string)
    requires Placed(s, p) && IndexSection(s, s', t)
    requires n in s.inner && n in s'.inner && s'.inner[n] == s.inner[n] && Listed(s, n)
    requires PublishesHome(s.tasks[t], p)
    ensures Listed(s', n)
  {
    assert TaskPlaced(t, s.tasks[t], p);
    assert s.inner[n] !in Held(s.tasks[t].pc);
    if !(s.inner[n] in s.index && s.index[s.inner[n]] == n) {
      var u :| u in s.tasks && Publishing(s.tasks[u], s.inner[n], n);
      if u != t {
        assert Publishing(s'.tasks[u], s'.inner[n], n);
      }
    }
  }

  lemma IndexKept(s: State, s': State, p: Places, p': Places, t: nat)
    requires Placed(s, p) && Indexed(s, p) && HomesKept(p, p') && IndexSection(s, s', t)
    ensures Indexed(s', p')
  {
    assert PublishesHome(s.tasks[t], p);
    assert TaskPlaced(t, s.tasks[t], p);
    forall n | n in s'.inner ensures Listed(s', n) {
      if n in s.inner && s'.inner[n] == s.inner[n] {
        assert Listed(s, n);
        ListedKept(s, s', p, t, n);
      }
    }
    forall u | u in s'.tasks ensures PublishesHome(s'.tasks[u], p') {
      assert u != t ==> PublishesHome(s.tasks[u], p);
    }
  }

  lemma AdmissionIndexes(s: State, t: nat, ok: bool)
    requires t in s.tasks && InAdmission(s.tasks[t].pc)
    ensures IndexSection(s, AdmissionNext(s, t, ok), t)
  {}

  lemma LaunchIndexes(s: State, t: nat, c: Choice)
    requires LaunchEnabled(s, t, c)
    ensures IndexSection(s, LaunchNext(s, t, c), t)
  {}

  lemma StopIndexes(s: State, t: nat, ok: bool)
    requires StopEnabled(s, t)
    ensures IndexSection(s, StopNext(s, t, ok), t)
  {}

  // ---- The starting set ----

  ghost predicate Starters(starting: set<string>, tasks: map<nat, Task>) {
    && (forall t | t in tasks && Reserved(tasks[t].pc) :: tasks[t].name in starting)
    && (forall t, u | t in tasks && u in tasks && Reserved(tasks[t].pc) && Reserved(tasks[u].pc) && t != u ::
          tasks[t].name != tasks[u].name)
    && (forall n | n in starting :: exists t :: t in tasks && Reserved(tasks[t].pc) && tasks[t].name == n)
  }

  /** How one section changes the starting set: by its own service, as it enters or leaves the reserved part. */
  ghost predicate StartingSection(s: State, s': State, t: nat) {
    && t in s.tasks && t in s'.tasks && s'.tasks == s.tasks[t := s.tasks[t].(pc := s'.tasks[t].pc)]
    && if Reserved(s'.tasks[t].pc)
       then s'.starting == s.starting + {s.tasks[t].name} && (Reserved(s.tasks[t].pc) || s.tasks[t].name !in s.starting)
       else s'.starting == if Reserved(s.tasks[t].pc) then s.starting - {s.tasks[t].name} else s.starting
  }

  lemma StartersKept(s: State, s': State, t: nat)
    requires Starters(s.starting, s.tasks) && StartingSection(s, s', t)
    ensures Starters(s'.starting, s'.tasks)
  {
    forall n | n in s'.starting ensures exists u :: u in s'.tasks && Reserved(s'.tasks[u].pc) && s'.tasks[u].name == n {
      if n in s.starting {
        var u :| u in s.tasks && Reserved(s.tasks[u].pc) && s.tasks[u].name == n;
        assert u in s'.tasks && (u != t ==> s'.tasks[u] == s.tasks[u]);
      } else {
        assert Reserved(s'.tasks[t].pc);
      }
    }
  }

  // ---- The command gate ----

  ghost predicate Guards(gate: set<string>, tasks: map<nat, Task>) {
    && (forall t | t in tasks ::
        tasks[t].guards <= gate && (tasks[t].guards != {} ==> tasks[t].name in tasks[t].guards))
    && (forall t, u | t in tasks && u in tasks && t != u :: tasks[t].guards !! tasks[u].guards)
    && (forall n | n in gate :: exists t :: t in tasks && n in tasks[t].guards)
  }

  lemma GuardsKept(gate: set<string>, tasks: map<nat, Task>, gate': set<string>, tasks': map<nat, Task>, t: nat)
    requires Guards(gate, tasks)
    requires forall u | u != t ::
        && (u in tasks' <==> u in tasks)
        && (u in tasks ==> tasks'[u].guards == tasks[u].guards && tasks'[u].name == tasks[u].name)
    requires var before := if t in tasks then tasks[t].guards else {};
             var after := if t in tasks' then tasks'[t].guards else {};
             gate' == gate - before + after && (after - before) !! gate
    requires t in tasks' && tasks'[t].guards != {} ==> tasks'[t].name in tasks'[t].guards
    ensures Guards(gate', tasks')
  {
    forall n | n in gate' ensures exists u :: u in tasks' && n in tasks'[u].guards {
      if !(t in tasks' && n in tasks'[t].guards) {
        var u :| u in tasks && n in tasks[u].guards;
        assert u in tasks' && n in tasks'[u].guards;
      }
    }
  }

  // ---- Every step ----

  ghost predicate Inv(s: State, p: Places) {
    && Placed(s, p) && Indexed(s, p) && Starters(s.starting, s.tasks) && Guards(s.gate, s.tasks)
    && forall t | t in s.tasks :: ReapedDead(s.tasks[t].pc, s.alive)
  }

  lemma LeavePlaced(s: State, s': State, p: Places, t: nat)
    requires Placed(s, p) && Step(s, Leave(t), s')
    ensures Placed(s', p)
  {
    forall u | u in s'.tasks ensures TaskPlaced(u, s'.tasks[u], p) {
      assert TaskPlaced(u, s.tasks[u], p);
    }
  }

  lemma StepPlaced(s: State, e: Event, s': State, p: Places) returns (p': Places)
    requires Placed(s, p) && Step(s, e, s') && forall t | t in s.tasks :: ReapedDead(s.tasks[t].pc, s.alive)
    ensures Placed(s', p') && HomesKept(p, p')
  {
    p' := p;
    match e
    case BeginStop(t) => p' := StopTakenPlaced(s, s', p, t);
    case AdmissionSection(t, ok) => p' := AdmissionPlaced(s, s', p, t, ok);
    case LaunchSection(t, c) => p' := LaunchPlaced(s, s', p, t, c);
    case StopSection(t, ok) => p' := StopPlaced(s, s', p, t, ok);
    case Collect(t, names) => p' := CollectPlaced(s, s', p, t, names);
    case CollectNext(t, r) => p' := Drop(s, s', p, t, s'.tasks[t], r);
    case Leave(t) => LeavePlaced(s, s', p, t);
    case Exit(r) =>
    case _ => CarryOn(s, s', p, e.t, s'.tasks[e.t]);
  }

  /** Entries may leave the table, and a task may come, change or go, while the index stays. */
  lemma IndexFrame(s: State, s': State, p: Places, p': Places, t: nat)
    requires Indexed(s, p) && HomesKept(p, p') && s'.index == s.index
    requires forall n | n in s'.inner :: n in s.inner && s'.inner[n] == s.inner[n]
    requires forall u | u != t :: (u in s'.tasks <==> u in s.tasks) && (u in s.tasks ==> s'.tasks[u] == s.tasks[u])
    requires t in s.tasks ==> !s.tasks[t].pc.Publish? && !s.tasks[t].pc.Republish?
    requires t in s'.tasks ==> !s'.tasks[t].pc.Publish? && !s'.tasks[t].pc.Republish?
    ensures Indexed(s', p')
  {
    forall n | n in s'.inner ensures Listed(s', n) {
      assert Listed(s, n);
      if !(s.inner[n] in s.index && s.index[s.inner[n]] == n) {
        var u :| u in s.tasks && Publishing(s.tasks[u], s.inner[n], n);
        assert u in s'.tasks && Publishing(s'.tasks[u], s'.inner[n], n);
      }
    }
    forall u | u in s'.tasks ensures PublishesHome(s'.tasks[u], p') {
      assert u != t ==> PublishesHome(s.tasks[u], p);
    }
  }

  lemma StepIndexed(s: State, e: Event, s': State, p: Places, p': Places)
    requires Placed(s, p) && Indexed(s, p) && Step(s, e, s') && HomesKept(p, p')
    ensures Indexed(s', p')
  {
    match e
    case AdmissionSection(t, ok) => AdmissionIndexes(s, t, ok); IndexKept(s, s', p, p', t);
    case LaunchSection(t, c) => LaunchIndexes(s, t, c); IndexKept(s, s', p, p', t);
    case StopSection(t, ok) => StopIndexes(s, t, ok); IndexKept(s, s', p, p', t);
    case CollectNext(t, r) => IndexKept(s, s', p, p', t);
    case Exit(r) => IndexExit(s, s', p, p');
    case _ => IndexFrame(s, s', p, p', e.t);
  }

  lemma IndexExit(s: State, s': State, p: Places, p': Places)
    requires Indexed(s, p) && HomesKept(p, p') && s'.index == s.index && s'.inner == s.inner && s'.tasks == s.tasks
    ensures Indexed(s', p')
  {
    forall n | n in s'.inner ensures Listed(s', n) {
      assert Listed(s, n);
    }
    forall u | u in s'.tasks ensures PublishesHome(s'.tasks[u], p') {
      assert PublishesHome(s.tasks[u], p);
    }
  }

  lemma StartersSame(starting: set<string>, tasks: map<nat, Task>, tasks': map<nat, Task>, t: nat)
    requires Starters(starting, tasks)
    requires forall u | u != t :: (u in tasks' <==> u in tasks) && (u in tasks ==> tasks'[u] == tasks[u])
    requires (t in tasks ==> !Reserved(tasks[t].pc)) && (t in tasks' ==> !Reserved(tasks'[t].pc))
    ensures Starters(starting, tasks')
  {
    forall n | n in starting ensures exists u :: u in tasks' && Reserved(tasks'[u].pc) && tasks'[u].name == n {
      var u :| u in tasks && Reserved(tasks[u].pc) && tasks[u].name == n;
      assert u in tasks' && tasks'[u] == tasks[u];
    }
  }

  lemma AdmissionStarters(s: State, t: nat, ok: bool)
    requires t in s.tasks && InAdmission(s.tasks[t].pc) && (Reserved(s.tasks[t].pc) ==> s.tasks[t].name in s.starting)
    ensures StartingSection(s, AdmissionNext(s, t, ok), t)
  {}

  lemma LaunchStarters(s: State, t: nat, c: Choice)
    requires LaunchEnabled(s, t, c) && (Reserved(s.tasks[t].pc) ==> s.tasks[t].name in s.starting)
    ensures StartingSection(s, LaunchNext(s, t, c), t)
  {}

  lemma StopStarters(s: State, t: nat, ok: bool)
    requires StopEnabled(s, t)
    ensures StartingSection(s, StopNext(s, t, ok), t)
  {}

  /** Events of tasks outside the reserved part of a start. */
  lemma StartersElsewhere(s: State, e: Event, s': State)
    requires Starters(s.starting, s.tasks) && Step(s, e, s') && !e.Exit? && !e.AdmissionSection? &&
             !e.LaunchSection? && !e.StopSection?
    ensures Starters(s'.starting, s'.tasks)
  {
    assert s'.starting == s.starting;
    StartersSame(s.starting, s.tasks, s'.tasks, e.t);
  }

  lemma StepStarters(s: State, e: Event, s': State)
    requires Starters(s.starting, s.tasks) && Step(s, e, s')
    ensures Starters(s'.starting, s'.tasks)
  {
    match e
    case AdmissionSection(t, ok) => AdmissionStarters(s, t, ok); StartersKept(s, s', t);
    case LaunchSection(t, c) => LaunchStarters(s, t, c); StartersKept(s, s', t);
    case StopSection(t, ok) => StopStarters(s, t, ok); StartersKept(s, s', t);
    case Exit(r) =>
    case _ => StartersElsewhere(s, e, s');
  }

  lemma SectionGuards(s: State, s': State, t: nat)
    requires Guards(s.gate, s.tasks) && t in s.tasks && s'.gate == s.gate
    requires t in s'.tasks && s'.tasks == s.tasks[t := s.tasks[t].(pc := s'.tasks[t].pc)]
    ensures Guards(s'.gate, s'.tasks)
  {
    GuardsKept(s.gate, s.tasks, s'.gate, s'.tasks, t);
  }

  /** Commands come and go, and a deploy may move its guard to another service. */
  lemma GateStep(s: State, e: Event, s': State)
    requires Guards(s.gate, s.tasks) && Step(s, e, s')
    requires e.Command? || e.RebindAcquire? || e.RebindDrop? || e.Unguarded? || e.Collect? || e.Leave?
    ensures Guards(s'.gate, s'.tasks)
  {
    GuardsKept(s.gate, s.tasks, s'.gate, s'.tasks, e.t);
  }

  lemma StepGuards(s: State, e: Event, s': State)
    requires Guards(s.gate, s.tasks) && Step(s, e, s')
    ensures Guards(s'.gate, s'.tasks)
  {
    match e
    case AdmissionSection(t, ok) => AdmissionIndexes(s, t, ok); SectionGuards(s, s', t);
    case LaunchSection(t, c) => LaunchIndexes(s, t, c); SectionGuards(s, s', t);
    case StopSection(t, ok) => StopIndexes(s, t, ok); SectionGuards(s, s', t);
    case BeginStart(t) => SectionGuards(s, s', t);
    case BeginStop(t) => if t in s.tasks && s.tasks[t].name in s.inner { SectionGuards(s, s', t); }
    case CollectNext(t, r) => SectionGuards(s, s', t);
    case Exit(r) =>
    case _ => GateStep(s, e, s');
  }

  /** Only new runners come alive. */
  lemma AliveStep(s: State, e: Event, s': State)
    requires Step(s, e, s')
    ensures s'.alive <= s.alive + (s'.used - s.used) && s.used <= s'.used
  {}

  /** Only a reap and the first sections of a start set exited runners aside. */
  lemma AdmissionReaped(s: State, t: nat, ok: bool)
    requires t in s.tasks && InAdmission(s.tasks[t].pc)
    ensures var s' := AdmissionNext(s, t, ok); s'.alive == s.alive && ReapedDead(s'.tasks[t].pc, s'.alive)
  {}

  lemma ReapedStep(s: State, e: Event, s': State, t: nat)
    requires Step(s, e, s') && t in s'.tasks && !e.LaunchSection? && !e.StopSection?
    requires t in s.tasks ==> ReapedDead(s.tasks[t].pc, s.alive)
    ensures ReapedDead(s'.tasks[t].pc, s'.alive)
  {
    if e.AdmissionSection? {
      AdmissionReaped(s, e.t, e.ok);
      AdmissionIndexes(s, e.t, e.ok);
    }
  }

  /** A launch or a stop sets nothing aside, and only a launch brings a process to life, under a new id. */
  lemma ReapedElsewhere(s: State, s': State, t: nat, u: nat)
    requires IndexSection(s, s', t) && !InAdmission(s'.tasks[t].pc) && !s'.tasks[t].pc.Sweep?
    requires u in s.tasks && ReapedDead(s.tasks[u].pc, s.alive) && Held(s.tasks[u].pc) <= s.used
    requires s'.alive <= s.alive + (s'.used - s.used)
    ensures ReapedDead(s'.tasks[u].pc, s'.alive)
  {}

  lemma LaunchStaysOn(s: State, t: nat, c: Choice)
    requires LaunchEnabled(s, t, c)
    ensures var pc' := LaunchNext(s, t, c).tasks[t].pc; !InAdmission(pc') && !pc'.Sweep?
  {}

  lemma StopStaysOn(s: State, t: nat, ok: bool)
    requires StopEnabled(s, t)
    ensures var pc' := StopNext(s, t, ok).tasks[t].pc; !InAdmission(pc') && !pc'.Sweep?
  {}

  lemma StepReaped(s: State, e: Event, s': State, t: nat)
    requires Step(s, e, s') && t in s'.tasks
    requires t in s.tasks ==> ReapedDead(s.tasks[t].pc, s.alive) && Held(s.tasks[t].pc) <= s.used
    ensures ReapedDead(s'.tasks[t].pc, s'.alive)
  {
    AliveStep(s, e, s');
    match e
    case LaunchSection(u, c) => LaunchIndexes(s, u, c); LaunchStaysOn(s, u, c); ReapedElsewhere(s, s', u, t);
    case StopSection(u, ok) => StopIndexes(s, u, ok); StopStaysOn(s, u, ok); ReapedElsewhere(s, s', u, t);
    case _ => ReapedStep(s, e, s', t);
  }

  lemma StepKeeps(s: State, e: Event, s': State, p: Places) returns (p': Places)
    requires Inv(s, p) && Step(s, e, s')
    ensures Inv(s', p')
  {
    p' := StepPlaced(s, e, s', p);
    StepIndexed(s, e, s', p, p');
    StepStarters(s, e, s');
    StepGuards(s, e, s');
    forall t | t in s'.tasks ensures ReapedDead(s'.tasks[t].pc, s'.alive) {
      assert t in s.tasks ==> TaskPlaced(t, s.tasks[t], p);
      StepReaped(s, e, s', t);
    }
  }

  // ---- One start or stop of a service at a time ----

  /** It has seen its service missing from the table, or has taken it out itself. */
  predicate Vacated(pc: Pc) {
    pc.Spawn? || pc.Insert? || pc.StopUnpublish? || pc.StopWait? || pc.Stopping? || pc.StopFailed? || pc.Restore?
  }

  /** A task finds the table as it left it. */
  ghost predicate SettledTask(s: State, t: nat)
    requires t in s.tasks
  {
    !s.tasks[t].pc.Displaced? && (Vacated(s.tasks[t].pc) ==> s.tasks[t].name !in s.inner)
  }

  ghost predicate Settled(s: State) {
    s.lost == {} && forall t {:trigger SettledTask(s, t)} | t in s.tasks :: SettledTask(s, t)
  }

  /** No two starts or stops of the same service are under way. */
  ghost predicate OneAtATime(s: State) {
    forall t, u | t in s.tasks && u in s.tasks && t != u && Working(s.tasks[t].pc) && Working(s.tasks[u].pc) ::
      s.tasks[t].name != s.tasks[u].name
  }

  predicate Working(pc: Pc) {
    InStart(pc) || InStop(pc)
  }

  /** How one section of task `t` treats the table: it adds at most its own service, and only when vacant. */
  ghost predicate TableSection(s: State, s': State, t: nat) {
    && t in s.tasks && t in s'.tasks && s'.tasks == s.tasks[t := s.tasks[t].(pc := s'.tasks[t].pc)]
    && s'.inner.Keys <= s.inner.Keys + {s.tasks[t].name} && Working(s.tasks[t].pc)
    && s'.lost == s.lost && !s'.tasks[t].pc.Displaced?
    && (Vacated(s'.tasks[t].pc) ==> s.tasks[t].name !in s'.inner)
  }

  lemma AdmissionTable(s: State, t: nat, ok: bool)
    requires t in s.tasks && InAdmission(s.tasks[t].pc)
    ensures TableSection(s, AdmissionNext(s, t, ok), t)
  {}

  lemma LaunchTable(s: State, t: nat, c: Choice)
    requires LaunchEnabled(s, t, c) && (Vacated(s.tasks[t].pc) ==> s.tasks[t].name !in s.inner)
    ensures TableSection(s, LaunchNext(s, t, c), t)
  {}

  lemma StopTable(s: State, t: nat, ok: bool)
    requires StopEnabled(s, t) && (Vacated(s.tasks[t].pc) ==> s.tasks[t].name !in s.inner) && !s.tasks[t].pc.Displaced?
    ensures TableSection(s, StopNext(s, t, ok), t)
  {}

  lemma TableKept(s: State, s': State, t: nat)
    requires Settled(s) && OneAtATime(s) && TableSection(s, s', t)
    ensures Settled(s')
  {
    assert SettledTask(s, t);
    forall u | u in s'.tasks ensures SettledTask(s', u) {
      assert SettledTask(s, u);
      assert u != t && Vacated(s.tasks[u].pc) ==> Working(s.tasks[u].pc) && s.tasks[u].name != s.tasks[t].name;
    }
  }

  lemma SettledElsewhere(s: State, e: Event, s': State, u: nat)
    requires Step(s, e, s') && !e.AdmissionSection? && !e.LaunchSection? && !e.StopSection?
    requires u in s'.tasks && (u in s.tasks ==> SettledTask(s, u))
    ensures s'.lost == s.lost && SettledTask(s', u)
  {}

  lemma StepSettled(s: State, e: Event, s': State)
    requires Settled(s) && OneAtATime(s) && Step(s, e, s')
    ensures Settled(s')
  {
    if e.AdmissionSection? {
      AdmissionTable(s, e.t, e.ok);
      TableKept(s, s', e.t);
    } else if e.LaunchSection? {
      assert SettledTask(s, e.t);
      LaunchTable(s, e.t, e.c);
      TableKept(s, s', e.t);
    } else if e.StopSection? {
      assert SettledTask(s, e.t);
      StopTable(s, e.t, e.ok);
      TableKept(s, s', e.t);
    } else {
      forall u | u in s'.tasks ensures s'.lost == s.lost && SettledTask(s', u) {
        assert u in s.tasks ==> SettledTask(s, u);
        SettledElsewhere(s, e, s', u);
      }
      assert s'.lost == s.lost;
    }
  }

  // ---- What holds of every run ----

  lemma {:induction false} RunInv(states: seq<State>, events: seq<Event>, k: nat) returns (p: Places)
    requires Run(states, events) && k < |states|
    ensures Inv(states[k], p)
  {
    if k == 0 {
      p := map[];
    } else {
      var p0 := RunInv(states, events, k - 1);
      assert StepAt(states, events, k - 1);
      p := StepKeeps(states[k - 1], events[k - 1], states[k], p0);
    }
  }

  /** No runner has two owners: two services, two tasks, or a service and a task. */
  lemma OneOwner(states: seq<State>, events: seq<Event>, k: nat, r: Runner)
    requires Run(states, events) && k < |states|
    ensures var s := states[k];
      && (forall m, n | m in s.inner && n in s.inner && s.inner[m] == r && s.inner[n] == r :: m == n)
      && (forall t, u | t in s.tasks && u in s.tasks && r in Held(s.tasks[t].pc) && r in Held(s.tasks[u].pc) :: t == u)
      && (forall n, t | n in s.inner && t in s.tasks && r in Held(s.tasks[t].pc) :: s.inner[n] != r)
  {
    var p := RunInv(states, events, k);
    forall t | t in states[k].tasks && r in Held(states[k].tasks[t].pc) ensures r in p && p[r].place == With(t) {
      assert TaskPlaced(t, states[k].tasks[t], p);
    }
  }

  /** Every entry of the running table can be found through the runner index, or is about to be. */
  lemma IndexComplete(states: seq<State>, events: seq<Event>, k: nat, n: string)
    requires Run(states, events) && k < |states| && n in states[k].inner
    ensures var s, r := states[k], states[k].inner[n];
      || (r in s.index && s.index[r] == n)
      || (exists t :: t in s.tasks && Publishing(s.tasks[t], r, n))
    ensures states[k].inner[n] in states[k].index ==> states[k].index[states[k].inner[n]] == n
  {
    var p := RunInv(states, events, k);
    assert Listed(states[k], n);
  }

  /**
    A step takes out of the index only runners that are in its task's hands, and enters only runners
    under their service.
   */
  lemma IndexStep(s: State, e: Event, s': State, p: Places, r: Runner)
    requires Placed(s, p) && Step(s, e, s') && r in s.index
    requires forall t | t in s.tasks :: PublishesHome(s.tasks[t], p)
    requires r in p && p[r].place.InTable? && s.index[r] == p[r].home
    ensures r in s'.index && s'.index[r] == s.index[r]
  {
    if e.AdmissionSection? || e.LaunchSection? || e.StopSection? || e.CollectNext? {
      match e {
        case AdmissionSection(t, ok) => AdmissionIndexes(s, t, ok);
        case LaunchSection(t, c) => LaunchIndexes(s, t, c);
        case StopSection(t, ok) => StopIndexes(s, t, ok);
        case _ =>
      }
      assert TaskPlaced(e.t, s.tasks[e.t], p);
      assert PublishesHome(s.tasks[e.t], p);
    }
  }

  /** Once entered in the index, a runner stays there for as long as it stays in the table. */
  lemma {:induction false} IndexedWhileInTable(states: seq<State>, events: seq<Event>, k: nat, j: nat, n: string,
                                               r: Runner)
    requires Run(states, events) && k <= j < |states| && r in states[k].index
    requires forall i | k <= i <= j :: n in states[i].inner && states[i].inner[n] == r
    ensures r in states[j].index && states[j].index[r] == n
    decreases j - k
  {
    if k == j {
      IndexComplete(states, events, k, n);
    } else {
      IndexedWhileInTable(states, events, k, j - 1, n, r);
      var p := RunInv(states, events, j - 1);
      assert StepAt(states, events, j - 1);
      IndexStep(states[j - 1], events[j - 1], states[j], p, r);
    }
  }

  /** At most one start per service is between reserving and releasing it, and no reservation leaks. */
  lemma StartsExclusive(states: seq<State>, events: seq<Event>, k: nat, n: string)
    requires Run(states, events) && k < |states|
    ensures var s := states[k];
      && (n in s.starting <==> exists t :: t in s.tasks && Reserved(s.tasks[t].pc) && s.tasks[t].name == n)
      && (forall t, u | t in s.tasks && u in s.tasks && Reserved(s.tasks[t].pc) && Reserved(s.tasks[u].pc)
            && s.tasks[t].name == n && s.tasks[u].name == n :: t == u)
  {
    var p := RunInv(states, events, k);
  }

  /** A service's command gate is closed exactly while one task holds its guard. */
  lemma GateExclusive(states: seq<State>, events: seq<Event>, k: nat, n: string)
    requires Run(states, events) && k < |states|
    ensures var s := states[k];
      && (n in s.gate <==> exists t :: t in s.tasks && n in s.tasks[t].guards)
      && (forall t, u | t in s.tasks && u in s.tasks && n in s.tasks[t].guards && n in s.tasks[u].guards :: t == u)
  {
    var p := RunInv(states, events, k);
  }

  /** From its command on, until it leaves, a task holds the guard of the service it works on, also across a rebind. */
  lemma {:induction false} GuardHeldThroughout(states: seq<State>, events: seq<Event>, i: nat, j: nat, t: nat)
    requires Run(states, events) && i < j < |states| && events[i].Command? && events[i].t == t
    requires forall k | i < k < j :: !(events[k].Leave? && events[k].t == t)
    ensures t in states[j].tasks && states[j].tasks[t].name in states[j].tasks[t].guards
    decreases j - i
  {
    assert StepAt(states, events, j - 1);
    if j > i + 1 {
      GuardHeldThroughout(states, events, i, j - 1, t);
      GuardStep(states[j - 1], events[j - 1], states[j], t);
    }
  }

  lemma GuardStep(s: State, e: Event, s': State, t: nat)
    requires Step(s, e, s') && t in s.tasks && s.tasks[t].name in s.tasks[t].guards && !(e.Leave? && e.t == t)
    ensures t in s'.tasks && s'.tasks[t].name in s'.tasks[t].guards
  {
    match e
    case AdmissionSection(u, ok) => AdmissionIndexes(s, u, ok);
    case LaunchSection(u, c) => LaunchIndexes(s, u, c);
    case StopSection(u, ok) => StopIndexes(s, u, ok);
    case _ =>
  }

  /** A live process is in the table, in a task's hands, overwritten, or given up after a failed kill. */
  lemma LiveAccounted(states: seq<State>, events: seq<Event>, k: nat, r: Runner)
    requires Run(states, events) && k < |states| && r in states[k].alive
    ensures var s := states[k];
      || (exists n :: n in s.inner && s.inner[n] == r)
      || (exists t :: t in s.tasks && r in Held(s.tasks[t].pc))
      || r in s.lost || r in s.gaveUp
  {
    var p := RunInv(states, events, k);
  }

  lemma {:induction false} RunSettled(states: seq<State>, events: seq<Event>, k: nat)
    requires Run(states, events) && k < |states| && forall i | 0 <= i < k :: OneAtATime(states[i])
    ensures Settled(states[k])
  {
    if k > 0 {
      RunSettled(states, events, k - 1);
      assert StepAt(states, events, k - 1);
      StepSettled(states[k - 1], events[k - 1], states[k]);
    }
  }

  /**
    While no two starts or stops of one service overlap, guarded or not, no table entry is ever
    overwritten, no failed stop finds its name taken, and no task finds its service in the table after
    it saw it missing or took it out; so every live process stays owned unless its kill failed.
   */
  lemma OneAtATimeLosesNothing(states: seq<State>, events: seq<Event>, k: nat)
    requires Run(states, events) && k < |states| && forall i | 0 <= i < k :: OneAtATime(states[i])
    ensures states[k].lost == {}
    ensures forall t | t in states[k].tasks ::
      && !states[k].tasks[t].pc.Displaced?
      && (Vacated(states[k].tasks[t].pc) ==> states[k].tasks[t].name !in states[k].inner)
    ensures forall r | r in states[k].alive && r !in states[k].gaveUp ::
      || (exists n :: n in states[k].inner && states[k].inner[n] == r)
      || (exists t :: t in states[k].tasks && r in Held(states[k].tasks[t].pc))
  {
    RunSettled(states, events, k);
    forall t | t in states[k].tasks ensures SettledTask(states[k], t) {}
    forall r | r in states[k].alive && r !in states[k].gaveUp
      ensures (exists n :: n in states[k].inner && states[k].inner[n] == r) ||
              (exists t :: t in states[k].tasks && r in Held(states[k].tasks[t].pc))
    {
      LiveAccounted(states, events, k, r);
    }
  }

  predicate GuardedTask(task: Task) {
    task.pc.Sweep? || task.name in task.guards
  }

  lemma StepGuarded(s: State, e: Event, s': State, t: nat)
    requires Step(s, e, s') && !e.Unguarded? && t in s'.tasks && (t in s.tasks ==> GuardedTask(s.tasks[t]))
    ensures GuardedTask(s'.tasks[t])
  {
    if e.AdmissionSection? {
      AdmissionIndexes(s, e.t, e.ok);
    } else if e.LaunchSection? {
      LaunchIndexes(s, e.t, e.c);
    } else if e.StopSection? {
      StopIndexes(s, e.t, e.ok);
    }
  }

  lemma {:induction false} RunGuarded(states: seq<State>, events: seq<Event>, k: nat, t: nat)
    requires Run(states, events) && k < |states| && t in states[k].tasks
    requires forall i | 0 <= i < k :: !events[i].Unguarded?
    ensures GuardedTask(states[k].tasks[t])
  {
    if k > 0 {
      assert StepAt(states, events, k - 1);
      if t in states[k - 1].tasks {
        RunGuarded(states, events, k - 1, t);
      }
      StepGuarded(states[k - 1], events[k - 1], states[k], t);
    }
  }

  /** Guards let no two starts or stops of one service overlap, so with guards everywhere nothing is lost. */
  lemma GuardedLosesNothing(states: seq<State>, events: seq<Event>, k: nat)
    requires Run(states, events) && k < |states| && forall i | 0 <= i < k :: !events[i].Unguarded?
    ensures OneAtATime(states[k])
    ensures states[k].lost == {} && forall t | t in states[k].tasks :: !states[k].tasks[t].pc.Displaced?
    ensures forall r | r in states[k].alive && r !in states[k].gaveUp ::
      || (exists n :: n in states[k].inner && states[k].inner[n] == r)
      || (exists t :: t in states[k].tasks && r in Held(states[k].tasks[t].pc))
  {
    forall i | 0 <= i <= k ensures OneAtATime(states[i]) {
      GuardsSeparate(states, events, i);
    }
    OneAtATimeLosesNothing(states, events, k);
  }

  lemma GuardsSeparate(states: seq<State>, events: seq<Event>, k: nat)
    requires Run(states, events) && k < |states| && forall i | 0 <= i < k :: !events[i].Unguarded?
    ensures OneAtATime(states[k])
  {
    var p := RunInv(states, events, k);
    var tasks := states[k].tasks;
    forall t, u | t in tasks && u in tasks && t != u && Working(tasks[t].pc) && Working(tasks[u].pc)
      ensures tasks[t].name != tasks[u].name
    {
      RunGuarded(states, events, k, t);
      RunGuarded(states, events, k, u);
      assert tasks[t].guards !! tasks[u].guards;
    }
  }

  // ---- Unguarded runs ----

  /** A service's entry appears or is replaced by the insert of a start, or appears when a failed stop puts it back. */
  lemma EntryStep(s: State, e: Event, s': State, n: string)
    requires Step(s, e, s') && n in s'.inner && !(n in s.inner && s'.inner[n] == s.inner[n])
    ensures (e.LaunchSection? && s.tasks[e.t].pc.Insert?) ||
            (e.StopSection? && s.tasks[e.t].pc.Restore? && n !in s.inner)
    ensures s.tasks[e.t].name == n && s'.inner[n] == s.tasks[e.t].pc.r
    ensures e.LaunchSection? ==> s'.tasks[e.t].pc.Publish?
  {}

  /** Task `t` is a start of `n` that has passed its check and not yet inserted its runner. */
  predicate PastCheck(s: State, t: nat, n: string) {
    t in s.tasks && s.tasks[t].name == n && (s.tasks[t].pc.Spawn? || s.tasks[t].pc.Insert?)
  }

  /** At event `m` a failed stop of `n` put its runner back, and up to state `j` it is still there. */
  ghost predicate RestoredSince(states: seq<State>, events: seq<Event>, m: nat, j: nat, n: string)
    requires m < j < |states| && |states| == |events| + 1
  {
    && events[m].StopSection? && events[m].t in states[m].tasks && n !in states[m].inner
    && var u := states[m].tasks[events[m].t];
       && u.pc.Restore? && u.name == n
       && forall x | m < x <= j :: n in states[x].inner && states[x].inner[n] == u.pc.r
  }

  /** Only starts change an entry in place, and only one start per service is past its check. */
  lemma EntryWhilePastCheck(states: seq<State>, events: seq<Event>, k: nat, t: nat, n: string)
    requires Run(states, events) && k < |events| && PastCheck(states[k], t, n) && PastCheck(states[k + 1], t, n)
    requires n in states[k + 1].inner && !(n in states[k].inner && states[k + 1].inner[n] == states[k].inner[n])
    ensures RestoredSince(states, events, k, k + 1, n)
  {
    var p := RunInv(states, events, k);
    assert StepAt(states, events, k);
    EntryStep(states[k], events[k], states[k + 1], n);
  }

  lemma {:induction false} RestoredInWindow(states: seq<State>, events: seq<Event>, i: nat, j: nat, t: nat, n: string)
    requires Run(states, events) && i <= j < |states| && n !in states[i].inner && n in states[j].inner
    requires forall k | i <= k <= j :: PastCheck(states[k], t, n)
    ensures exists m :: i <= m < j && RestoredSince(states, events, m, j, n)
    decreases j
  {
    if n in states[j - 1].inner && states[j].inner[n] == states[j - 1].inner[n] {
      RestoredInWindow(states, events, i, j - 1, t, n);
      var m :| i <= m < j - 1 && RestoredSince(states, events, m, j - 1, n);
      assert RestoredSince(states, events, m, j, n);
    } else {
      EntryWhilePastCheck(states, events, j - 1, t, n);
    }
  }

  /**
    Exactly when a start overwrites an entry.  A start found its service missing at state `i` and
    inserts at event `j`: the insert replaces a runner exactly when, since the check, a failed stop of
    that service put its runner back and it is still there.
   */
  lemma OverwriteIffRestored(states: seq<State>, events: seq<Event>, i: nat, j: nat, t: nat, n: string)
    requires Run(states, events) && i <= j < |events| && n !in states[i].inner
    requires forall k | i <= k <= j :: PastCheck(states[k], t, n)
    requires t in states[j].tasks && states[j].tasks[t].pc.Insert? && events[j].LaunchSection? && events[j].t == t
    ensures n in states[j + 1].inner && states[j + 1].inner[n] == states[j].tasks[t].pc.r
    ensures (n in states[j].inner && states[j + 1].inner[n] != states[j].inner[n])
       <==> exists m :: i <= m < j && RestoredSince(states, events, m, j, n)
  {
    assert StepAt(states, events, j);
    assert states[j + 1] == LaunchNext(states[j], t, events[j].c);
    if n in states[j].inner {
      OneOwner(states, events, j, states[j].inner[n]);
      RestoredInWindow(states, events, i, j, t, n);
    }
  }

  /**
    What a shutdown may do: only the tasks in `stops` work without a guard, and no command comes after
    the first of them.  While `open` there was none of them yet.
   */
  ghost predicate ShutdownEvents(events: seq<Event>, stops: set<nat>, open: bool) {
    && (forall k | 0 <= k < |events| && events[k].Unguarded? :: !open && events[k].t in stops)
    && (forall i, k | 0 <= i < k < |events| && events[i].Unguarded? :: !events[k].Command?)
  }

  /** Some run with such events leads to `s`. */
  ghost predicate Reachable(s: State, stops: set<nat>, open: bool) {
    exists states, events :: Run(states, events) && states[|events|] == s && ShutdownEvents(events, stops, open)
  }

  lemma Reach(s: State, e: Event, s': State, stops: set<nat>, open: bool)
    requires Reachable(s, stops, open) && Step(s, e, s') && !e.Unguarded? && (e.Command? ==> open)
    ensures Reachable(s', stops, open)
  {
    var states, events :| Run(states, events) && states[|events|] == s && ShutdownEvents(events, stops, open);
    Extend(states, events, e, s');
    assert ShutdownEvents(events + [e], stops, open);
  }

  lemma Extend(states: seq<State>, events: seq<Event>, e: Event, s': State)
    requires Run(states, events) && Step(states[|events|], e, s')
    ensures Run(states + [s'], events + [e]) && (states + [s'])[|events + [e]|] == s'
  {
    var states', events' := states + [s'], events + [e];
    forall k | 0 <= k < |events'| ensures StepAt(states', events', k) {
      if k < |events| {
        assert StepAt(states, events, k);
      }
    }
  }

  /** The first unguarded stop closes the gate to commands. */
  lemma ReachShutdown(s: State, t: nat, n: string, s': State)
    requires Reachable(s, {}, true) && Step(s, Unguarded(t, n), s')
    ensures Reachable(s', {t}, false)
  {
    var states, events :| Run(states, events) && states[|events|] == s && ShutdownEvents(events, {}, true);
    Extend(states, events, Unguarded(t, n), s');
    assert ShutdownEvents(events + [Unguarded(t, n)], {t}, false);
  }

  function Admitted(s: State, t: nat): State
    requires t in s.tasks
  {
    Move(s.(starting := s.starting + {s.tasks[t].name}), t, Spawn)
  }

  /** A start of a service that is neither running nor being started gets to its spawn. */
  lemma AdmitReach(s: State, t: nat, stops: set<nat>, open: bool)
    requires Reachable(s, stops, open) && t in s.tasks && s.tasks[t].pc.Ready?
    requires s.tasks[t].name !in s.inner && s.tasks[t].name !in s.starting
    ensures Reachable(Admitted(s, t), stops, open)
  {
    var s1 := Move(s, t, ReapBefore);
    Reach(s, BeginStart(t), s1, stops, open);
    var s2 := AdmissionNext(s1, t, true);
    Reach(s1, AdmissionSection(t, true), s2, stops, open);
    var s3 := AdmissionNext(s2, t, true);
    Reach(s2, AdmissionSection(t, true), s3, stops, open);
    var s4 := AdmissionNext(s3, t, true);
    Reach(s3, AdmissionSection(t, true), s4, stops, open);
    var s5 := AdmissionNext(s4, t, true);
    Reach(s4, AdmissionSection(t, true), s5, stops, open);
    assert s5 == Admitted(s, t);
  }

  const SERVICE := "svc"

  function Guarding(pc: Pc): Task {
    Task(SERVICE, {SERVICE}, pc)
  }

  function Unguarding(pc: Pc): Task {
    Task(SERVICE, {}, pc)
  }

  /** A command has started the service as runner 1 and is gone. */
  const STARTED := State({}, map[SERVICE := 1], map[1 := SERVICE], {}, {1}, {1}, map[], {}, {})

  lemma StartedReach()
    ensures Reachable(STARTED, {}, true)
  {
    var s0 := State({}, map[], map[], {}, {}, {}, map[], {}, {});
    assert Run([s0], []) && [s0][0] == s0 && ShutdownEvents([], {}, true);
    var s1 := s0.(gate := {SERVICE}, tasks := map[0 := Guarding(Ready)]);
    Reach(s0, Command(0, SERVICE), s1, {}, true);
    AdmitReach(s1, 0, {}, true);
    var s2, go := Admitted(s1, 0), Choice(true, 1);
    var s3 := LaunchNext(s2, 0, go);
    Reach(s2, LaunchSection(0, go), s3, {}, true);
    var s4 := LaunchNext(s3, 0, go);
    Reach(s3, LaunchSection(0, go), s4, {}, true);
    var s5 := LaunchNext(s4, 0, go);
    Reach(s4, LaunchSection(0, go), s5, {}, true);
    var s6 := LaunchNext(s5, 0, go);
    Reach(s5, LaunchSection(0, go), s6, {}, true);
    var s7 := LaunchNext(s6, 0, go);
    Reach(s6, LaunchSection(0, go), s7, {}, true);
    Reach(s7, Leave(0), STARTED, {}, true);
  }

  /** A command holds the guard, and the shutdown's stop has taken runner 1 out of the table. */
  const TAKEN := State({SERVICE}, map[], map[1 := SERVICE], {}, {1}, {1},
                       map[1 := Unguarding(StopUnpublish(1)), 2 := Guarding(Ready)], {}, {})

  lemma TakenReach()
    ensures Reachable(TAKEN, {1}, false)
  {
    StartedReach();
    var s0 := STARTED.(gate := {SERVICE}, tasks := map[2 := Guarding(Ready)]);
    Reach(STARTED, Command(2, SERVICE), s0, {}, true);
    var s1 := s0.(tasks := s0.tasks[1 := Unguarding(Ready)]);
    ReachShutdown(s0, 1, SERVICE, s1);
    Reach(s1, BeginStop(1), StopTaken(s1, 1), {1}, false);
    assert StopTaken(s1, 1) == TAKEN;
  }

  /** The stop has failed and is about to put runner 1 back. */
  const STUCK := State({SERVICE}, map[], map[], {}, {1}, {1},
                       map[1 := Unguarding(Restore(1)), 2 := Guarding(Ready)], {}, {})

  lemma StuckReach()
    ensures Reachable(STUCK, {1}, false)
  {
    TakenReach();
    var s1 := StopNext(TAKEN, 1, false);
    Reach(TAKEN, StopSection(1, false), s1, {1}, false);
    var s2 := StopNext(s1, 1, false);
    Reach(s1, StopSection(1, false), s2, {1}, false);
    var s3 := StopNext(s2, 1, false);
    Reach(s2, StopSection(1, false), s3, {1}, false);
    var s4 := StopNext(s3, 1, false);
    Reach(s3, StopSection(1, false), s4, {1}, false);
    assert s4 == STUCK;
  }

  /** The command's start has passed its check and holds runner 2 while the stop still holds runner 1. */
  const RACING := State({SERVICE}, map[], map[], {SERVICE}, {1, 2}, {1, 2},
                        map[1 := Unguarding(Restore(1)), 2 := Guarding(Insert(2))], {}, {})

  lemma RacingReach()
    ensures Reachable(RACING, {1}, false)
  {
    StuckReach();
    AdmitReach(STUCK, 2, {1}, false);
    var s1, go := Admitted(STUCK, 2), Choice(true, 2);
    Reach(s1, LaunchSection(2, go), LaunchNext(s1, 2, go), {1}, false);
    assert LaunchNext(s1, 2, go) == RACING;
  }

  /** The stop has put runner 1 back and the start has put runner 2 in its place. */
  const OVERWRITTEN := State({SERVICE}, map[SERVICE := 2], map[], {SERVICE}, {1, 2}, {1, 2},
                             map[1 := Unguarding(Republish(1)), 2 := Guarding(Publish(2))], {1}, {})

  lemma OverwrittenReach()
    ensures Reachable(OVERWRITTEN, {1}, false)
  {
    RacingReach();
    var s1 := StopNext(RACING, 1, false);
    Reach(RACING, StopSection(1, false), s1, {1}, false);
    var s2 := LaunchNext(s1, 2, Choice(true, 0));
    Reach(s1, LaunchSection(2, Choice(true, 0)), s2, {1}, false);
    assert s2 == OVERWRITTEN;
  }

  /**
    A command that got its guard before a shutdown began to stop services can lose a live runner: its
    start overwrites the runner that the shutdown's failed stop put back, and neither table nor task nor
    give-up accounts for it any more.  That stop is the only task of the run without a guard.
   */
  lemma UnguardedCanLose() returns (s: State, r: Runner, starter: nat, stopper: nat)
    ensures Reachable(s, {stopper}, false) && r in s.lost && r in s.alive && r !in s.gaveUp
    ensures (forall n | n in s.inner :: s.inner[n] != r) && (forall t | t in s.tasks :: r !in Held(s.tasks[t].pc))
    ensures s.tasks.Keys == {starter, stopper} && s.tasks[starter].name == s.tasks[stopper].name
    ensures var start, stop := s.tasks[starter], s.tasks[stopper];
      && stop.pc == Republish(r) && stop.guards == {}
      && start.name in start.guards && start.pc.Publish?
      && start.name in s.inner && s.inner[start.name] == start.pc.r && start.pc.r in s.alive
  {
    OverwrittenReach();
    s, r, starter, stopper := OVERWRITTEN, 1, 2, 1;
  }
}
