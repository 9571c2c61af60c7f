/**
  The service supervisor as a transition system.  Starting, stopping and reaping a service each
  take the locks of the running table, the runner index and the starting set one after another,
  so each is a task that advances one lock section at a time; processes may exit at any moment.
  Deploy, run and stop commands hold a per-service guard while they do this; shutdown, boot
  restore and the reaper do not.
 */
module Supervisor {
  type Runner = nat

  /** Where a task stands; the runner it carries has been taken out of (or not yet put into) the table. */
  datatype Pc =
    | Ready
    // start
    | ReapBefore | DropBefore(r: Runner) | Reserve | ReapAfter | DropAfter(r: Runner) | Check | Spawn
    | Insert(r: Runner) | Publish(r: Runner) | Boot | Fail | Unpublish(r: Runner) | Kill(r: Runner) | Release
    // stop
    | StopUnpublish(r: Runner) | StopWait(r: Runner) | Stopping(r: Runner) | StopFailed(r: Runner)
    | Restore(r: Runner) | Displaced(r: Runner) | Republish(r: Runner)
    // reap of everything that has exited
    | Sweep(rs: set<Runner>)

  /** A task, the service it works on, and the command guards it holds. */
  datatype Task = Task(name: string, guards: set<string>, pc: Pc)

  /**
    The command gate, the running table by service, the runner index, the services being started,
    the live processes, every runner id handed out, the tasks, the runners whose table entry was
    overwritten, and the runners given up after a failed kill.
   */
  datatype State = State(
    gate: set<string>,
    inner: map<string, Runner>,
    index: map<Runner, string>,
    starting: set<string>,
    alive: set<Runner>,
    used: set<Runner>,
    tasks: map<nat, Task>,
    lost: set<Runner>,
    gaveUp: set<Runner>)

  predicate Init(s: State) {
    s == State({}, map[], map[], {}, {}, {}, map[], {}, {})
  }

  /** Outcome of the operating system call in a section, and the id of a new runner. */
  datatype Choice = Choice(ok: bool, id: Runner)

  datatype Event =
    | Command(t: nat, name: string)
    | RebindAcquire(t: nat, name: string)
    | RebindDrop(t: nat)
    | Unguarded(t: nat, name: string)
    | BeginStart(t: nat)
    | BeginStop(t: nat)
    | AdmissionSection(t: nat, ok: bool)
    | LaunchSection(t: nat, c: Choice)
    | StopSection(t: nat, ok: bool)
    | Collect(t: nat, names: set<string>)
    | CollectNext(t: nat, r: Runner)
    | Leave(t: nat)
    | Exit(r: Runner)

  /** A start up to the check that its service is not running. */
  predicate InAdmission(pc: Pc) {
    pc.ReapBefore? || pc.DropBefore? || pc.Reserve? || pc.ReapAfter? || pc.DropAfter? || pc.Check?
  }

  /** A start from the spawn of its runner on. */
  predicate InLaunch(pc: Pc) {
    pc.Spawn? || pc.Insert? || pc.Publish? || pc.Boot? || pc.Fail? || pc.Unpublish? || pc.Kill? || pc.Release?
  }

  predicate InStart(pc: Pc) {
    InAdmission(pc) || InLaunch(pc)
  }

  predicate InStop(pc: Pc) {
    || pc.StopUnpublish? || pc.StopWait? || pc.Stopping? || pc.StopFailed?
    || pc.Restore? || pc.Displaced? || pc.Republish?
  }

  function Move(s: State, t: nat, pc: Pc): State
    requires t in s.tasks
  {
    s.(tasks := s.tasks[t := s.tasks[t].(pc := pc)])
  }

  /** A service's entry whose process the non-blocking wait reports as exited. */
  predicate Collectable(s: State, name: string, ok: bool) {
    ok && name in s.inner && s.inner[name] !in s.alive
  }

  /** The next lock section of a start that is not yet admitted. */
  function AdmissionNext(s: State, t: nat, ok: bool): State
    requires t in s.tasks && InAdmission(s.tasks[t].pc)
  {
    var n := s.tasks[t].name;
    match s.tasks[t].pc
    case ReapBefore =>
      if Collectable(s, n, ok) then Move(s.(inner := s.inner - {n}), t, DropBefore(s.inner[n])) else Move(s, t, Reserve)
    case DropBefore(r) => Move(s.(index := s.index - {r}), t, Reserve)
    case Reserve =>
      if n in s.starting then Move(s, t, Ready) else Move(s.(starting := s.starting + {n}), t, ReapAfter)
    case ReapAfter =>
      if Collectable(s, n, ok) then Move(s.(inner := s.inner - {n}), t, DropAfter(s.inner[n])) else Move(s, t, Check)
    case DropAfter(r) => Move(s.(index := s.index - {r}), t, Check)
    case Check => Move(s, t, if n in s.inner then Release else Spawn)
  }

  predicate LaunchEnabled(s: State, t: nat, c: Choice) {
    t in s.tasks && InLaunch(s.tasks[t].pc) && (s.tasks[t].pc.Spawn? && c.ok ==> c.id !in s.used)
  }

  /** The next lock section of an admitted start. */
  function LaunchNext(s: State, t: nat, c: Choice): State
    requires LaunchEnabled(s, t, c)
  {
    var n := s.tasks[t].name;
    match s.tasks[t].pc
    case Spawn =>
      if c.ok then Move(s.(alive := s.alive + {c.id}, used := s.used + {c.id}), t, Insert(c.id))
      else Move(s, t, Release)
    case Insert(r) =>
      Move(s.(inner := s.inner[n := r], lost := if n in s.inner then s.lost + {s.inner[n]} else s.lost), t, Publish(r))
    case Publish(r) => Move(s.(index := s.index[r := n]), t, Boot)
    case Boot => Move(s, t, if c.ok then Release else Fail)
    case Fail =>
      if n in s.inner then Move(s.(inner := s.inner - {n}), t, Unpublish(s.inner[n])) else Move(s, t, Release)
    case Unpublish(r) => Move(s.(index := s.index - {r}), t, Kill(r))
    case Kill(r) => Move(Killed(s, r, c.ok), t, Release)
    case Release => Move(s.(starting := s.starting - {n}), t, Ready)
  }

  /** The process is killed and waited for, or the record is dropped although that failed. */
  function Killed(s: State, r: Runner, ok: bool): State {
    if ok then s.(alive := s.alive - {r}) else s.(gaveUp := s.gaveUp + {r})
  }

  predicate StopEnabled(s: State, t: nat) {
    t in s.tasks && InStop(s.tasks[t].pc)
  }

  /** The next lock section of a stop; a stop that fails puts the runner back unless the name is taken. */
  function StopNext(s: State, t: nat, ok: bool): State
    requires StopEnabled(s, t)
  {
    var n := s.tasks[t].name;
    match s.tasks[t].pc
    case StopUnpublish(r) => Move(s.(index := s.index - {r}), t, StopWait(r))
    case StopWait(r) =>
      if ok && r !in s.alive then Move(s.(index := s.index - {r}), t, Ready) else Move(s, t, Stopping(r))
    case Stopping(r) => if ok then Move(s.(alive := s.alive - {r}), t, Ready) else Move(s, t, StopFailed(r))
    case StopFailed(r) => Move(s, t, if ok && r !in s.alive then Ready else Restore(r))
    case Restore(r) =>
      if n in s.inner then Move(s, t, Displaced(r)) else Move(s.(inner := s.inner[n := r]), t, Republish(r))
    case Displaced(r) => Move(Killed(s, r, ok), t, Ready)
    case Republish(r) => Move(s.(index := s.index[r := n]), t, Ready)
  }

  /** The first section of a stop: takes the runner out of the table, or reports that there is none. */
  function StopTaken(s: State, t: nat): State
    requires t in s.tasks
  {
    var n := s.tasks[t].name;
    if n in s.inner then Move(s.(inner := s.inner - {n}), t, StopUnpublish(s.inner[n])) else s
  }

  ghost predicate Step(s: State, e: Event, s': State) {
    match e
    case Command(t, n) =>
      t !in s.tasks && n !in s.gate && s' == s.(gate := s.gate + {n}, tasks := s.tasks[t := Task(n, {n}, Ready)])
    case RebindAcquire(t, n) =>
      && t in s.tasks && s.tasks[t].pc.Ready? && s.tasks[t].guards == {s.tasks[t].name} && n !in s.gate
      && s' == s.(gate := s.gate + {n}, tasks := s.tasks[t := Task(n, s.tasks[t].guards + {n}, Ready)])
    case RebindDrop(t) =>
      && t in s.tasks && s.tasks[t].pc.Ready? && s.tasks[t].name in s.tasks[t].guards
      && s' == s.(gate := s.gate - (s.tasks[t].guards - {s.tasks[t].name}),
                  tasks := s.tasks[t := s.tasks[t].(guards := {s.tasks[t].name})])
    case Unguarded(t, n) => t !in s.tasks && s' == s.(tasks := s.tasks[t := Task(n, {}, Ready)])
    case BeginStart(t) => t in s.tasks && s.tasks[t].pc.Ready? && s' == Move(s, t, ReapBefore)
    case BeginStop(t) => t in s.tasks && s.tasks[t].pc.Ready? && s' == StopTaken(s, t)
    case AdmissionSection(t, ok) => t in s.tasks && InAdmission(s.tasks[t].pc) && s' == AdmissionNext(s, t, ok)
    case LaunchSection(t, c) => LaunchEnabled(s, t, c) && s' == LaunchNext(s, t, c)
    case StopSection(t, ok) => StopEnabled(s, t) && s' == StopNext(s, t, ok)
    case Collect(t, names) =>
      && t !in s.tasks && names <= s.inner.Keys && (forall n | n in names :: s.inner[n] !in s.alive)
      && s' == s.(inner := s.inner - names,
         tasks := s.tasks[t := Task("", {}, Sweep(set n | n in names :: s.inner[n]))])
    case CollectNext(t, r) =>
      && t in s.tasks && s.tasks[t].pc.Sweep? && r in s.tasks[t].pc.rs
      && s' == Move(s.(index := s.index - {r}), t, Sweep(s.tasks[t].pc.rs - {r}))
    case Leave(t) =>
      && t in s.tasks && (s.tasks[t].pc.Ready? || s.tasks[t].pc == Sweep({}))
      && s' == s.(gate := s.gate - s.tasks[t].guards, tasks := s.tasks - {t})
    case Exit(r) => s' == s.(alive := s.alive - {r})
  }

  /** Runners a task carries: their record is in its hands alone. */
  function Held(pc: Pc): set<Runner> {
    if pc.Sweep? then pc.rs
    else if pc.DropBefore? || pc.DropAfter? || pc.Insert? || pc.Unpublish? || pc.Kill? ||
      (InStop(pc) && !pc.Republish?) then {pc.r}
    else {}
  }

  /** Between `reserve_start` and `release_start`. */
  predicate Reserved(pc: Pc) {
    InStart(pc) && !pc.ReapBefore? && !pc.DropBefore? && !pc.Reserve?
  }

  /** It has put runner `r` under `n` in the table and has yet to enter it in the index. */
  predicate Publishing(task: Task, r: Runner, n: string) {
    (task.pc.Publish? || task.pc.Republish?) && task.pc.r == r && task.name == n
  }

  /** `states` is a run of `events` from the empty supervisor. */
  ghost predicate Run(states: seq<State>, events: seq<Event>) {
    && |states| == |events| + 1 && Init(states[0])
    && forall k {:trigger StepAt(states, events, k)} | 0 <= k < |events| :: StepAt(states, events, k)
  }

  ghost predicate StepAt(states: seq<State>, events: seq<Event>, k: nat)
    requires k < |events| && |states| == |events| + 1
  {
    Step(states[k], events[k], states[k + 1])
  }

  /** Some sequence of steps leads from `s` to `s'`. */
  ghost predicate Path(s: State, s': State) {
    exists states, events :: Trail(states, events, s, s')
  }

  ghost predicate Trail(states: seq<State>, events: seq<Event>, s: State, s': State) {
    && |states| == |events| + 1 && states[0] == s && states[|events|] == s'
    && forall k {:trigger StepAt(states, events, k)} | 0 <= k < |events| :: StepAt(states, events, k)
  }

  lemma PathStart(s: State)
    ensures Path(s, s)
  {
    assert Trail([s], [], s, s);
  }

  lemma PathStep(s: State, mid: State, e: Event, s': State)
    requires Path(s, mid) && Step(mid, e, s')
    ensures Path(s, s')
  {
    var states, events :| Trail(states, events, s, mid);
    var states', events' := states + [s'], events + [e];
    forall k | 0 <= k < |events'| ensures StepAt(states', events', k) {
      if k < |events| {
        assert StepAt(states, events, k);
      }
    }
    assert Trail(states', events', s, s');
  }

  lemma PathTwice(s: State, mid: State, s': State)
    requires Path(s, mid) && Path(mid, s')
    ensures Path(s, s')
  {
    var states, events :| Trail(states, events, s, mid);
    var states2, events2 :| Trail(states2, events2, mid, s');
    var all, done := states + states2[1..], events + events2;
    forall k | 0 <= k < |done| ensures StepAt(all, done, k) {
      if k < |events| {
        assert StepAt(states, events, k);
      } else {
        assert StepAt(states2, events2, k - |events|);
        assert all[k] == states2[k - |events|] && all[k + 1] == states2[k - |events| + 1];
      }
    }
    assert Trail(all, done, s, s');
  }
}
