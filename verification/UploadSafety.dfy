/**
  Safety of the upload protocol: the invariant of UploadProtocol is kept by every step of every
  interleaving, and what it means for uploads, commits, retries and pins.
 */
module UploadSafety {
  import opened Wrappers
  import opened Ranges
  import opened UploadSessions
  import opened UploadProtocol

  // ---- Framing: what a step leaves alone ----

  /** Nothing the invariant says about session `id` changed. */
  ghost predicate SameSession(s: State, s': State, id: string) {
    && id in s.store.sessions && id in s'.store.sessions
    && Core(s'.store.sessions[id]) == Core(s.store.sessions[id])
    && Writers(s'.tasks, id) == Writers(s.tasks, id)
    && Committers(s'.tasks, id) == Committers(s.tasks, id)
    && Bytes(s'.acked, id) == Bytes(s.acked, id)
    && FileOf(s'.files, id) == FileOf(s.files, id)
  }

  lemma SessionFrame(c: Config, s: State, s': State, id: string)
    requires SameSession(s, s', id) && SessionOk(c, s, id)
    ensures SessionOk(c, s', id)
  {}

  lemma SessionsFrame(c: Config, s: State, s': State, touched: set<string>)
    requires SessionsOk(c, s)
    requires forall id | id in s'.store.sessions && id !in touched :: SameSession(s, s', id)
    requires forall id | id in s'.store.sessions && id in touched :: SessionOk(c, s', id)
    ensures SessionsOk(c, s')
  {
    forall id | id in s'.store.sessions ensures SessionOk(c, s', id) {
      if id !in touched {
        assert SessionOk(c, s, id);
        SessionFrame(c, s, s', id);
      }
    }
  }

  /** Task `t` is at the same point, and its session and file are the same or its session is gone. */
  ghost predicate SameTask(s: State, s': State, t: nat) {
    && t in s.tasks && t in s'.tasks && s'.tasks[t].phase == s.tasks[t].phase
    && (s.tasks[t].phase.Cleaning? ||
        var id := s.tasks[t].phase.id;
        || (Announced(s'.store, id) == Announced(s.store, id) && FileOf(s'.files, id) == FileOf(s.files, id))
        || (Announced(s'.store, id).None? && Working(s.tasks[t].phase)))
  }

  lemma TasksFrame(c: Config, s: State, s': State, touched: set<nat>)
    requires TasksOk(c, s)
    requires forall t | t in s'.tasks && t !in touched :: SameTask(s, s', t)
    requires forall t | t in s'.tasks && t in touched :: TaskOk(c, s', t)
    ensures TasksOk(c, s')
  {
    forall t | t in s'.tasks ensures TaskOk(c, s', t) {
      if t !in touched {
        assert TaskOk(c, s, t);
      }
    }
  }

  /** Task `t` becomes `task` while live and used ids change to `live'` and `used'`. */
  lemma IdsUpdate(live: set<string>, used: set<string>, tasks: map<nat, Task>, live': set<string>, used': set<string>,
                  t: nat, task: Task)
    requires IdsApart(live, used, tasks)
    requires used <= used' && live' <= used' && task.plan <= used' && task.plan !! live'
    requires !task.phase.Cleaning? ==> task.phase.id in used'
    requires Candidate(task.phase) ==> task.phase.id !in live' && task.phase.id !in task.plan
    requires forall u | u in tasks && u != t ::
               && tasks[u].plan !! live'
               && (Candidate(tasks[u].phase) ==>
                     && tasks[u].phase.id !in live' && tasks[u].phase.id !in task.plan
                     && (!task.phase.Cleaning? ==> tasks[u].phase.id != task.phase.id))
               && (Candidate(task.phase) ==>
                     && task.phase.id !in tasks[u].plan
                     && (!tasks[u].phase.Cleaning? ==> tasks[u].phase.id != task.phase.id))
    ensures IdsApart(live', used', tasks[t := task])
  {}

  lemma IdsDrop(live: set<string>, used: set<string>, tasks: map<nat, Task>, live': set<string>, t: nat)
    requires IdsApart(live, used, tasks) && live' <= live
    ensures IdsApart(live', used, Without(tasks, t))
    ensures IdsApart(live', used, tasks)
  {}

  // ---- The sweep keeps the invariant ----

  lemma SweepTakesIdle(c: Config, s: State, now: nat, keep: set<string>, removed: set<string>)
    requires Sweeps(c, s, now, keep, removed)
    ensures removed <= s.store.sessions.Keys
    ensures forall id | id in removed :: Idle(s.store.sessions[id])
    ensures forall id | id in removed && s.store.sessions[id].committed :: id !in s.pins && id !in keep
  {
    forall id | id in removed
      ensures id in s.store.sessions && Idle(s.store.sessions[id])
      ensures s.store.sessions[id].committed ==> id !in s.pins && id !in keep
    {
      if id !in Expired(c, s.store, now) {
        assert id in Orphans(s.store, s.pins.Keys + keep);
      }
    }
  }

  /** Ids that can go into a cleanup plan: once used, not live, and not about to become live. */
  ghost predicate Doomed(s: State, ids: set<string>) {
    && ids <= s.used && ids !! s.store.sessions.Keys
    && forall t | t in s.tasks && Candidate(s.tasks[t].phase) :: s.tasks[t].phase.id !in ids
  }

  lemma SweepDooms(s: State, removed: set<string>)
    requires IdsApart(s.store.sessions.Keys, s.used, s.tasks) && removed <= s.store.sessions.Keys
    ensures Doomed(AfterSweep(s, removed), removed)
  {}

  lemma SweptKeys(st: Store, removed: set<string>)
    requires KeysMirror(st)
    ensures KeysMirror(Swept(st, removed))
  {}

  /** Removing sessions disturbs no task: candidates were not live, the others allow for it. */
  lemma RemovalTasks(c: Config, s: State, s': State)
    requires TasksOk(c, s) && s'.tasks == s.tasks && s'.files == s.files
    requires forall t | t in s.tasks && Candidate(s.tasks[t].phase) :: s.tasks[t].phase.id !in s.store.sessions
    requires forall id | id in s'.store.sessions ::
        id in s.store.sessions && s'.store.sessions[id] == s.store.sessions[id]
    ensures TasksOk(c, s')
  {
    forall t | t in s'.tasks ensures SameTask(s, s', t) {
      var p := s.tasks[t].phase;
      if !p.Cleaning? && p.id in s'.store.sessions {
        assert Announced(s'.store, p.id) == Announced(s.store, p.id);
      }
    }
    TasksFrame(c, s, s', {});
  }

  lemma SweepKeeps(c: Config, s: State, removed: set<string>)
    requires Inv(c, s)
    ensures Inv(c, AfterSweep(s, removed))
  {
    var s' := AfterSweep(s, removed);
    SweptKeys(s.store, removed);
    SessionsFrame(c, s, s', {});
    RemovalTasks(c, s, s');
    IdsDrop(s.store.sessions.Keys, s.used, s.tasks, s'.store.sessions.Keys, 0);
  }

  // ---- Prepare ----

  /** Only time stamps differ. */
  ghost predicate OnlyTouched(st: Store, st': Store) {
    && st'.idem == st.idem && st'.sessions.Keys == st.sessions.Keys
    && forall id | id in st.sessions :: Core(st'.sessions[id]) == Core(st.sessions[id])
  }

  lemma TouchedKeys(st: Store, st': Store)
    requires KeysMirror(st) && OnlyTouched(st, st')
    ensures KeysMirror(st')
  {
    assert forall id | id in st'.sessions :: st'.sessions[id].key == Core(st'.sessions[id]).key == st.sessions[id].key;
  }

  lemma BystanderSession(s: State, s': State, t: nat, task: Task, id: string)
    requires s'.tasks == s.tasks[t := task] || s'.tasks == Without(s.tasks, t)
    requires id in s.store.sessions && id in s'.store.sessions &&
             Core(s'.store.sessions[id]) == Core(s.store.sessions[id])
    requires s'.acked == s.acked && FileOf(s'.files, id) == FileOf(s.files, id)
    requires (t in s.tasks ==> !Working(s.tasks[t].phase)) && !Working(task.phase)
    ensures SameSession(s, s', id)
  {
    TaskSet(s.tasks, t, task, id);
    assert t !in Writers(s.tasks, id) && t !in Committers(s.tasks, id);
    assert Writers(s.tasks, id) - {t} == Writers(s.tasks, id) &&
           Committers(s.tasks, id) - {t} == Committers(s.tasks, id);
  }

  /** Task `t` changes without working on a session before or after; stores differ in time stamps. */
  lemma BystanderSessions(c: Config, s: State, s': State, t: nat, task: Task)
    requires SessionsOk(c, s)
    requires s'.tasks == s.tasks[t := task] || s'.tasks == Without(s.tasks, t)
    requires OnlyTouched(s.store, s'.store) && s'.acked == s.acked
    requires forall id | id in s.store.sessions :: FileOf(s'.files, id) == FileOf(s.files, id)
    requires (t in s.tasks ==> !Working(s.tasks[t].phase)) && !Working(task.phase)
    ensures SessionsOk(c, s')
  {
    forall id | id in s'.store.sessions ensures SameSession(s, s', id) {
      BystanderSession(s, s', t, task, id);
    }
    SessionsFrame(c, s, s', {});
  }

  /** All tasks but `t` stay where they are while announced data and their files stay the same. */
  lemma BystanderTasks(c: Config, s: State, s': State, t: nat)
    requires TasksOk(c, s)
    requires forall u | u in s'.tasks && u != t :: u in s.tasks && s'.tasks[u].phase == s.tasks[u].phase
    requires forall id :: Announced(s'.store, id) == Announced(s.store, id)
    requires forall u | u in s.tasks && u != t && !s.tasks[u].phase.Cleaning? ::
               FileOf(s'.files, s.tasks[u].phase.id) == FileOf(s.files, s.tasks[u].phase.id)
    requires t in s'.tasks ==> TaskOk(c, s', t)
    ensures TasksOk(c, s')
  {
    TasksFrame(c, s, s', {t});
  }

  lemma TouchedAnnounced(st: Store, st': Store)
    requires OnlyTouched(st, st')
    ensures forall id :: Announced(st', id) == Announced(st, id)
  {
    forall id ensures Announced(st', id) == Announced(st, id) {
      if id in st.sessions {
        assert Core(st'.sessions[id]) == Core(st.sessions[id]);
        assert Core(st'.sessions[id]).size == st'.sessions[id].size &&
               Core(st'.sessions[id]).artifactDigest == st'.sessions[id].artifactDigest;
      }
    }
  }

  /** A task that only holds a cleanup plan, or a session not yet registered, comes or changes. */
  lemma BystanderKeeps(c: Config, s: State, s': State, t: nat, task: Task)
    requires Inv(c, s)
    requires s'.tasks == s.tasks[t := task] && OnlyTouched(s.store, s'.store)
    requires s'.acked == s.acked && s'.files == s.files
    requires (t in s.tasks ==> !Working(s.tasks[t].phase)) && !Working(task.phase)
    requires TaskOk(c, s', t)
    requires IdsApart(s.store.sessions.Keys, s'.used, s'.tasks)
    ensures Inv(c, s')
  {
    TouchedKeys(s.store, s'.store);
    TouchedAnnounced(s.store, s'.store);
    BystanderSessions(c, s, s', t, task);
    BystanderTasks(c, s, s', t);
  }

  lemma TouchOnlyTouches(st: Store, id: string, now: nat)
    requires id in st.sessions
    ensures OnlyTouched(st, Touched(st, id, now))
  {}

  lemma PrepareStartIds(s: State, s': State, t: nat, session: Session, id: string, now: nat, removed: set<string>)
    requires IdsApart(s.store.sessions.Keys, s.used, s.tasks) && Doomed(s, removed)
    requires t !in s.tasks && id !in s.used
    requires PrepareStartSection(s, s', t, session, id, now, removed)
    ensures IdsApart(s.store.sessions.Keys, s'.used, s'.tasks)
  {
    IdsUpdate(s.store.sessions.Keys, s.used, s.tasks, s.store.sessions.Keys, s'.used, t, s'.tasks[t]);
  }

  lemma PrepareStartSectionKeeps(c: Config, s: State, s': State, t: nat, session: Session, id: string, now: nat,
                                 removed: set<string>)
    requires Inv(c, s) && Doomed(s, removed) && t !in s.tasks && id !in s.used && FreshSession(session)
    requires PrepareStartSection(s, s', t, session, id, now, removed)
    ensures Inv(c, s')
  {
    PrepareStartIds(s, s', t, session, id, now, removed);
    var r := LookupKey(s.store, session.key, session.fingerprint);
    if r.Existing? {
      TouchOnlyTouches(s.store, r.id, now);
    }
    BystanderKeeps(c, s, s', t, s'.tasks[t]);
  }

  lemma PrepareStartKeeps(c: Config, s: State, s': State, t: nat, session: Session, id: string, now: nat,
                          removed: set<string>)
    requires Inv(c, s) && PrepareStartStep(c, s, s', t, session, id, now, removed)
    ensures Inv(c, s')
  {
    SweepTakesIdle(c, s, now, {}, removed);
    SweepDooms(s, removed);
    SweepKeeps(c, s, removed);
    PrepareStartSectionKeeps(c, AfterSweep(s, removed), s', t, session, id, now, removed);
  }

  lemma PrepareFileKeeps(c: Config, s: State, s': State, t: nat, ok: bool, leftover: Option<seq<Byte>>)
    requires Inv(c, s) && PrepareFileStep(c, s, s', t, ok, leftover)
    ensures Inv(c, s')
  {
    assert TaskOk(c, s, t);
    IdsUpdate(s.store.sessions.Keys, s.used, s.tasks, s.store.sessions.Keys, s.used, t, s'.tasks[t]);
    BystanderSessions(c, s, s', t, s'.tasks[t]);
    BystanderTasks(c, s, s', t);
  }

  lemma RegisteredKeys(st: Store, id: string, x: Session, now: nat)
    requires KeysMirror(st) && id !in st.sessions && LookupKey(st, x.key, x.fingerprint).Absent?
    ensures KeysMirror(Registered(st, id, x, now))
  {}

  /** A new session enters clean: nobody works on it, it has no bytes, and its file is in place. */
  lemma RegisteredSession(c: Config, s: State, s': State, t: nat, now: nat)
    requires IdsApart(s.store.sessions.Keys, s.used, s.tasks)
    requires t in s.tasks && s.tasks[t].phase.Created? && TaskOk(c, s, t)
    requires t in s'.tasks && s'.tasks == s.tasks[t := s'.tasks[t]] && s'.tasks[t].phase.Cleaning?
    requires s'.store == Registered(s.store, s.tasks[t].phase.id, s.tasks[t].phase.session, now)
    requires s'.acked == s.acked[s.tasks[t].phase.id := iset{}] && s'.files == s.files
    ensures SessionOk(c, s', s.tasks[t].phase.id)
  {
    var id := s.tasks[t].phase.id;
    assert Writers(s'.tasks, id) == {} && Committers(s'.tasks, id) == {};
  }

  lemma PrepareWinnerKeeps(c: Config, s: State, s': State, t: nat, now: nat, removed: set<string>)
    requires Inv(c, s) && Doomed(s, removed) && t in s.tasks && s.tasks[t].phase.Created?
    requires PrepareFinishSection(s, s', t, now, removed)
    requires LookupKey(s.store, s.tasks[t].phase.session.key, s.tasks[t].phase.session.fingerprint).Absent?
    ensures Inv(c, s')
  {
    var id, x := s.tasks[t].phase.id, s.tasks[t].phase.session;
    assert TaskOk(c, s, t);
    RegisteredKeys(s.store, id, x, now);
    PrepareWinnerIds(s, s', t, now, removed);
    forall k | k in s'.store.sessions && k != id ensures SameSession(s, s', k) {
      BystanderSession(s.(acked := s'.acked), s', t, s'.tasks[t], k);
    }
    RegisteredSession(c, s, s', t, now);
    SessionsFrame(c, s, s', {id});
    forall u | u in s'.tasks && u != t ensures SameTask(s, s', u) {
      if !s.tasks[u].phase.Cleaning? {
        assert s.tasks[u].phase.id != id;
      }
    }
    TasksFrame(c, s, s', {t});
  }

  lemma PrepareWinnerIds(s: State, s': State, t: nat, now: nat, removed: set<string>)
    requires IdsApart(s.store.sessions.Keys, s.used, s.tasks) && Doomed(s, removed)
    requires t in s.tasks && s.tasks[t].phase.Created? && PrepareFinishSection(s, s', t, now, removed)
    requires LookupKey(s.store, s.tasks[t].phase.session.key, s.tasks[t].phase.session.fingerprint).Absent?
    ensures IdsApart(s'.store.sessions.Keys, s'.used, s'.tasks)
  {
    var id := s.tasks[t].phase.id;
    assert s'.store.sessions.Keys == s.store.sessions.Keys + {id};
    IdsUpdate(s.store.sessions.Keys, s.used, s.tasks, s'.store.sessions.Keys, s.used, t, s'.tasks[t]);
  }

  lemma PrepareLoserKeeps(c: Config, s: State, s': State, t: nat, now: nat, removed: set<string>)
    requires Inv(c, s) && Doomed(s, removed) && t in s.tasks && s.tasks[t].phase.Created?
    requires PrepareFinishSection(s, s', t, now, removed)
    requires !LookupKey(s.store, s.tasks[t].phase.session.key, s.tasks[t].phase.session.fingerprint).Absent?
    ensures Inv(c, s')
  {
    var r := LookupKey(s.store, s.tasks[t].phase.session.key, s.tasks[t].phase.session.fingerprint);
    if r.Existing? {
      TouchOnlyTouches(s.store, r.id, now);
    }
    PrepareLoserIds(s, s'.tasks[t], t, removed);
    BystanderKeeps(c, s, s', t, s'.tasks[t]);
  }

  lemma PrepareLoserIds(s: State, task: Task, t: nat, removed: set<string>)
    requires IdsApart(s.store.sessions.Keys, s.used, s.tasks) && Doomed(s, removed)
    requires t in s.tasks && s.tasks[t].phase.Created?
    requires task == Task(Cleaning, s.tasks[t].plan + removed + {s.tasks[t].phase.id})
    ensures IdsApart(s.store.sessions.Keys, s.used, s.tasks[t := task])
  {
    IdsUpdate(s.store.sessions.Keys, s.used, s.tasks, s.store.sessions.Keys, s.used, t, task);
  }

  lemma PrepareFinishKeeps(c: Config, s: State, s': State, t: nat, now: nat, removed: set<string>)
    requires Inv(c, s) && PrepareFinishStep(c, s, s', t, now, removed)
    ensures Inv(c, s')
  {
    SweepTakesIdle(c, s, now, {}, removed);
    SweepDooms(s, removed);
    SweepKeeps(c, s, removed);
    var s1 := AfterSweep(s, removed);
    if LookupKey(s1.store, s.tasks[t].phase.session.key, s.tasks[t].phase.session.fingerprint).Absent? {
      PrepareWinnerKeeps(c, s1, s', t, now, removed);
    } else {
      PrepareLoserKeeps(c, s1, s', t, now, removed);
    }
  }

  // ---- Work on one session ----

  /** Session `id` changes, but not its key, size or digest; the other sessions stay as they are. */
  ghost predicate WorksOn(st: Store, st': Store, id: string) {
    && st'.idem == st.idem && st'.sessions.Keys == st.sessions.Keys
    && (forall x | x in st.sessions && x != id :: st'.sessions[x] == st.sessions[x])
    && (id in st.sessions ==>
          && st'.sessions[id].key == st.sessions[id].key
          && st'.sessions[id].size == st.sessions[id].size
          && st'.sessions[id].artifactDigest == st.sessions[id].artifactDigest)
  }

  lemma WorkedStore(st: Store, st': Store, id: string)
    requires WorksOn(st, st', id)
    ensures KeysMirror(st) ==> KeysMirror(st')
    ensures forall x :: Announced(st', x) == Announced(st, x)
  {}

  /** A session other than `id` is untouched by a task that works only on `id`. */
  lemma OtherSession(s: State, s': State, t: nat, task: Task, id: string, other: string)
    requires s'.tasks == s.tasks[t := task] || s'.tasks == Without(s.tasks, t)
    requires other != id && other in s.store.sessions && other in s'.store.sessions
    requires s'.store.sessions[other] == s.store.sessions[other]
    requires Bytes(s'.acked, other) == Bytes(s.acked, other) && FileOf(s'.files, other) == FileOf(s.files, other)
    requires t in s.tasks && Working(s.tasks[t].phase) ==> s.tasks[t].phase.id == id
    requires Working(task.phase) ==> task.phase.id == id
    ensures SameSession(s, s', other)
  {
    TaskSet(s.tasks, t, task, other);
    assert t !in Writers(s.tasks, other) && t !in Committers(s.tasks, other);
    assert Writers(s.tasks, other) - {t} == Writers(s.tasks, other) &&
           Committers(s.tasks, other) - {t} == Committers(s.tasks, other);
  }

  /** Task `t` begins, goes on with or ends its work on session `id`; what remains to show is about `t` and `id`. */
  lemma WorkKeeps(c: Config, s: State, s': State, t: nat, task: Task, id: string)
    requires Inv(c, s)
    requires s'.tasks == s.tasks[t := task] || s'.tasks == Without(s.tasks, t)
    requires WorksOn(s.store, s'.store, id) && s'.files == s.files
    requires forall other | other != id :: Bytes(s'.acked, other) == Bytes(s.acked, other)
    requires t in s.tasks && Working(s.tasks[t].phase) ==> s.tasks[t].phase.id == id
    requires Working(task.phase) ==> task.phase.id == id
    requires IdsApart(s'.store.sessions.Keys, s'.used, s'.tasks)
    requires id in s'.store.sessions ==> SessionOk(c, s', id)
    requires t in s'.tasks ==> TaskOk(c, s', t)
    ensures Inv(c, s')
  {
    WorkedStore(s.store, s'.store, id);
    WorkSessions(c, s, s', t, task, id);
    BystanderTasks(c, s, s', t);
  }

  lemma WorkSessions(c: Config, s: State, s': State, t: nat, task: Task, id: string)
    requires SessionsOk(c, s) && (s'.tasks == s.tasks[t := task] || s'.tasks == Without(s.tasks, t))
    requires WorksOn(s.store, s'.store, id) && s'.files == s.files
    requires forall other | other != id :: Bytes(s'.acked, other) == Bytes(s.acked, other)
    requires t in s.tasks && Working(s.tasks[t].phase) ==> s.tasks[t].phase.id == id
    requires Working(task.phase) ==> task.phase.id == id
    requires id in s'.store.sessions ==> SessionOk(c, s', id)
    ensures SessionsOk(c, s')
  {
    forall other | other in s'.store.sessions && other != id ensures SameSession(s, s', other) {
      OtherSession(s, s', t, task, id, other);
    }
    SessionsFrame(c, s, s', {id});
  }

  /** A task starts or goes on working on a live session. */
  lemma WorkerIds(s: State, t: nat, task: Task)
    requires IdsApart(s.store.sessions.Keys, s.used, s.tasks) && Doomed(s, task.plan)
    requires Working(task.phase) && task.phase.id in s.store.sessions
    ensures IdsApart(s.store.sessions.Keys, s.used, s.tasks[t := task])
  {
    IdsUpdate(s.store.sessions.Keys, s.used, s.tasks, s.store.sessions.Keys, s.used, t, task);
  }

  /** A task goes on working on its session, live or gone. */
  lemma WorkerMoves(live: set<string>, used: set<string>, tasks: map<nat, Task>, t: nat, task: Task)
    requires IdsApart(live, used, tasks) && t in tasks && Working(tasks[t].phase)
    requires Working(task.phase) && task.phase.id == tasks[t].phase.id && task.plan == tasks[t].plan
    ensures IdsApart(live, used, tasks[t := task])
  {
    IdsUpdate(live, used, tasks, live, used, t, task);
  }

  lemma WorkerEnds(live: set<string>, used: set<string>, tasks: map<nat, Task>, tasks': map<nat, Task>, t: nat)
    requires IdsApart(live, used, tasks) && t in tasks && Working(tasks[t].phase)
    requires tasks' == Without(tasks, t) || tasks' == tasks[t := Task(Cleaning, tasks[t].plan)]
    ensures IdsApart(live, used, tasks')
  {}

  // ---- Push ----

  lemma PushStartKeeps(c: Config, s: State, s': State, t: nat, id: string, token: string, offset: nat,
                       chunk: seq<Byte>, now: nat, removed: set<string>)
    requires Inv(c, s) && PushStartStep(c, s, s', t, id, token, offset, chunk, now, removed)
    ensures Inv(c, s')
  {
    SweepTakesIdle(c, s, now, {}, removed);
    SweepDooms(s, removed);
    SweepKeeps(c, s, removed);
    var s1 := AfterSweep(s, removed);
    if PushAdmission(c, s1.store, id, token, offset + |chunk|).None? {
      PushAdmittedKeeps(c, s1, s', t, id, token, offset, chunk, now, removed);
    }
  }

  lemma PushAdmittedSession(c: Config, s: State, s': State, t: nat, id: string, token: string, end: nat, now: nat,
                            task: Task)
    requires id in s.store.sessions && SessionOk(c, s, id) && t !in s.tasks
    requires PushAdmission(c, s.store, id, token, end).None?
    requires s' == s.(store := PushAdmitted(s.store, id, now), tasks := s.tasks[t := task])
    requires WritesTo(task.phase, id)
    ensures SessionOk(c, s', id)
  {
    TaskSet(s.tasks, t, task, id);
    assert Committers(s.tasks, id) - {t} == Committers(s.tasks, id);
  }

  lemma PushAdmittedKeeps(c: Config, s: State, s': State, t: nat, id: string, token: string, offset: nat,
                          chunk: seq<Byte>, now: nat, removed: set<string>)
    requires Inv(c, s) && Doomed(s, removed) && t !in s.tasks
    requires PushStartSection(c, s, s', t, id, token, offset, chunk, now, removed)
    requires PushAdmission(c, s.store, id, token, offset + |chunk|).None?
    ensures Inv(c, s')
  {
    var task := Task(Writing(id, offset, chunk, 0), removed);
    WorkerIds(s, t, task);
    assert SessionOk(c, s, id);
    PushAdmittedSession(c, s, s', t, id, token, offset + |chunk|, now, task);
    WorkKeeps(c, s, s', t, task, id);
  }

  /** A partial write by task `t` cannot hit a committed file or one being digested. */
  lemma PushWriteKeeps(c: Config, s: State, s': State, t: nat, n: nat)
    requires Inv(c, s) && PushWriteStep(c, s, s', t, n)
    ensures Inv(c, s')
  {
    var p := s.tasks[t].phase;
    var s1 := PatchedFile(s, p.id, p.offset + p.written, p.chunk[p.written..p.written + n]);
    assert TaskOk(c, s, t);
    PatchKeeps(c, s, t, p.offset + p.written, p.chunk[p.written..p.written + n]);
    assert TaskOk(c, s1, t);
    SameWorkKeeps(c, s1, s', t, s'.tasks[t]);
  }

  lemma PatchKeeps(c: Config, s: State, t: nat, at: nat, bytes: seq<Byte>)
    requires Inv(c, s) && t in s.tasks && s.tasks[t].phase.Writing?
    ensures Inv(c, PatchedFile(s, s.tasks[t].phase.id, at, bytes))
  {
    var id := s.tasks[t].phase.id;
    if id in s.store.sessions {
      assert SessionOk(c, s, id);
      PatchSession(c, s, t, at, bytes);
    }
    PatchSessions(c, s, t, at, bytes);
    PatchTasks(c, s, t, at, bytes);
  }

  lemma PatchSessions(c: Config, s: State, t: nat, at: nat, bytes: seq<Byte>)
    requires SessionsOk(c, s) && t in s.tasks && s.tasks[t].phase.Writing?
    requires s.tasks[t].phase.id in s.store.sessions ==>
               SessionOk(c, PatchedFile(s, s.tasks[t].phase.id, at, bytes), s.tasks[t].phase.id)
    ensures SessionsOk(c, PatchedFile(s, s.tasks[t].phase.id, at, bytes))
  {
    var id := s.tasks[t].phase.id;
    SessionsFrame(c, s, PatchedFile(s, id, at, bytes), {id});
  }

  lemma PatchTasks(c: Config, s: State, t: nat, at: nat, bytes: seq<Byte>)
    requires IdsApart(s.store.sessions.Keys, s.used, s.tasks) && TasksOk(c, s)
    requires t in s.tasks && s.tasks[t].phase.Writing?
    requires s.tasks[t].phase.id in s.store.sessions ==> Committers(s.tasks, s.tasks[t].phase.id) == {}
    ensures TasksOk(c, PatchedFile(s, s.tasks[t].phase.id, at, bytes))
  {
    var id := s.tasks[t].phase.id;
    var onFile := set u | u in s.tasks && !s.tasks[u].phase.Cleaning? && s.tasks[u].phase.id == id;
    forall u | u in onFile ensures TaskOk(c, PatchedFile(s, id, at, bytes), u) {
      assert TaskOk(c, s, u);
      PatchTask(c, s, t, at, bytes, u);
    }
    TasksFrame(c, s, PatchedFile(s, id, at, bytes), onFile);
  }

  lemma PatchSession(c: Config, s: State, t: nat, at: nat, bytes: seq<Byte>)
    requires t in s.tasks && s.tasks[t].phase.Writing?
    requires s.tasks[t].phase.id in s.store.sessions && SessionOk(c, s, s.tasks[t].phase.id)
    ensures SessionOk(c, PatchedFile(s, s.tasks[t].phase.id, at, bytes), s.tasks[t].phase.id)
    ensures Committers(s.tasks, s.tasks[t].phase.id) == {}
  {
    assert t in Writers(s.tasks, s.tasks[t].phase.id);
  }

  lemma PatchTask(c: Config, s: State, t: nat, at: nat, bytes: seq<Byte>, u: nat)
    requires IdsApart(s.store.sessions.Keys, s.used, s.tasks)
    requires t in s.tasks && s.tasks[t].phase.Writing? && u in s.tasks && TaskOk(c, s, u)
    requires !s.tasks[u].phase.Cleaning? && s.tasks[u].phase.id == s.tasks[t].phase.id
    requires s.tasks[t].phase.id in s.store.sessions ==> Committers(s.tasks, s.tasks[t].phase.id) == {}
    ensures TaskOk(c, PatchedFile(s, s.tasks[t].phase.id, at, bytes), u)
  {
    assert CommitsTo(s.tasks[u].phase, s.tasks[t].phase.id) ==> u in Committers(s.tasks, s.tasks[t].phase.id);
  }

  /** A task that goes on with the same kind of work leaves the counts of its session alone. */
  lemma SameWork(s: State, s': State, t: nat, task: Task, id: string)
    requires t in s.tasks && s'.tasks == s.tasks[t := task] && s'.store == s.store && s'.acked == s.acked &&
             s'.files == s.files
    requires forall x :: WritesTo(task.phase, x) == WritesTo(s.tasks[t].phase, x)
    requires forall x :: CommitsTo(task.phase, x) == CommitsTo(s.tasks[t].phase, x)
    requires id in s.store.sessions
    ensures SameSession(s, s', id)
  {
    assert Writers(s'.tasks, id) == Writers(s.tasks, id);
    assert Committers(s'.tasks, id) == Committers(s.tasks, id);
  }

  /** A task moves on within its unlocked part. */
  lemma SameWorkKeeps(c: Config, s: State, s': State, t: nat, task: Task)
    requires Inv(c, s) && t in s.tasks && Working(s.tasks[t].phase)
    requires Working(task.phase) && task.phase.id == s.tasks[t].phase.id && task.plan == s.tasks[t].plan
    requires forall x :: WritesTo(task.phase, x) == WritesTo(s.tasks[t].phase, x)
    requires forall x :: CommitsTo(task.phase, x) == CommitsTo(s.tasks[t].phase, x)
    requires s' == s.(tasks := s.tasks[t := task]) && TaskOk(c, s', t)
    ensures Inv(c, s')
  {
    WorkerMoves(s.store.sessions.Keys, s.used, s.tasks, t, task);
    forall other | other in s'.store.sessions ensures SameSession(s, s', other) {
      SameWork(s, s', t, task, other);
    }
    SessionsFrame(c, s, s', {});
    BystanderTasks(c, s, s', t);
  }

  lemma PushWrittenKeeps(c: Config, s: State, s': State, t: nat, ok: bool)
    requires Inv(c, s) && PushWrittenStep(c, s, s', t, ok)
    ensures Inv(c, s')
  {
    assert TaskOk(c, s, t);
    SameWorkKeeps(c, s, s', t, s'.tasks[t]);
  }

  lemma PushFinishSettles(c: Config, s: State, s': State, t: nat, now: nat)
    requires PushFinishStep(c, s, s', t, now)
    ensures WorksOn(s.store, s'.store, s.tasks[t].phase.id) && s'.files == s.files && s'.used == s.used
    ensures s'.tasks == Without(s.tasks, t) || s'.tasks == s.tasks[t := Task(Cleaning, s.tasks[t].plan)]
    ensures forall other | other != s.tasks[t].phase.id :: Bytes(s'.acked, other) == Bytes(s.acked, other)
  {}

  lemma PushFinishKeeps(c: Config, s: State, s': State, t: nat, now: nat)
    requires Inv(c, s) && PushFinishStep(c, s, s', t, now)
    ensures Inv(c, s')
  {
    var id := s.tasks[t].phase.id;
    assert TaskOk(c, s, t);
    if id in s.store.sessions {
      assert SessionOk(c, s, id);
      PushFinishSession(c, s, s', t, now);
    }
    PushFinishSettles(c, s, s', t, now);
    WorkerEnds(s.store.sessions.Keys, s.used, s.tasks, s'.tasks, t);
    WorkKeeps(c, s, s', t, Task(Cleaning, s.tasks[t].plan), id);
  }

  lemma PushFinishSession(c: Config, s: State, s': State, t: nat, now: nat)
    requires PushFinishStep(c, s, s', t, now) && TaskOk(c, s, t)
    requires s.tasks[t].phase.id in s.store.sessions && SessionOk(c, s, s.tasks[t].phase.id)
    ensures SessionOk(c, s', s.tasks[t].phase.id)
  {
    var p := s.tasks[t].phase;
    TaskSet(s.tasks, t, Task(Cleaning, s.tasks[t].plan), p.id);
    assert t in Writers(s.tasks, p.id);
    assert Committers(s.tasks, p.id) - {t} == Committers(s.tasks, p.id);
    SettledHolds(c, Core(s.store.sessions[p.id]), Writers(s.tasks, p.id), Committers(s.tasks, p.id),
                 Bytes(s.acked, p.id), FileOf(s.files, p.id), t, p.offset, |p.chunk|, p.ok);
  }

  /** A push counted out, with its bytes if it was written, keeps what holds of its session. */
  lemma SettledHolds(c: Config, x: Session, writers: set<nat>, committers: set<nat>, bytes: iset<nat>,
                     file: Option<seq<Byte>>, t: nat, offset: nat, length: nat, ok: bool)
    requires SessionHolds(c, x, writers, committers, bytes, file) && t in writers && offset + length <= x.size
    ensures var ranges := if ok then Merge(x.ranges, RangeFromStartEnd(offset, offset + length)) else x.ranges;
      x.inflight > 0 &&
      SessionHolds(c, x.(inflight := x.inflight - 1, ranges := ranges), writers - {t}, committers,
                   if ok then bytes + Span(offset, length) else bytes, file)
  {
    if ok {
      SpanMerges(x.ranges, bytes, offset, length, x.size);
    }
  }

  /** Merging a chunk's range keeps the ranges in step with the acknowledged bytes. */
  lemma SpanMerges(rs: seq<ByteRange>, bytes: iset<nat>, offset: nat, length: nat, total: nat)
    requires Canonical(rs) && Within(rs, total) && offset + length <= total
    requires forall b: nat :: b in bytes <==> Covers(rs, b)
    ensures var merged := Merge(rs, RangeFromStartEnd(offset, offset + length));
      && Canonical(merged) && Within(merged, total)
      && forall b: nat :: b in bytes + Span(offset, length) <==> Covers(merged, b)
  {
    var range := RangeFromStartEnd(offset, offset + length);
    assert [range][0] == range;
    MergeAddsRange(rs, range, total);
  }

  // ---- Commit ----

  lemma CommitStartKeeps(c: Config, s: State, s': State, t: nat, id: string, artifactDigest: string, size: nat,
                         manifestDigest: string, now: nat, removed: set<string>)
    requires Inv(c, s) && CommitStartStep(c, s, s', t, id, artifactDigest, size, manifestDigest, now, removed)
    ensures Inv(c, s')
  {
    SweepTakesIdle(c, s, now, {}, removed);
    SweepDooms(s, removed);
    SweepKeeps(c, s, removed);
    var s1 := AfterSweep(s, removed);
    if CommitAdmission(s1.store, id, artifactDigest, size, manifestDigest).None? {
      CommitAdmittedKeeps(c, s1, s', t, id, artifactDigest, size, manifestDigest, now, removed);
    }
  }

  lemma CommitAdmittedSession(c: Config, s: State, s': State, t: nat, id: string, artifactDigest: string, size: nat,
                              manifestDigest: string, now: nat, task: Task)
    requires id in s.store.sessions && SessionOk(c, s, id) && t !in s.tasks
    requires CommitAdmission(s.store, id, artifactDigest, size, manifestDigest).None?
    requires s' == s.(store := CommitAdmitted(s.store, id, now), tasks := s.tasks[t := task])
    requires CommitsTo(task.phase, id)
    ensures SessionOk(c, s', id)
  {
    TaskSet(s.tasks, t, task, id);
    assert Writers(s.tasks, id) - {t} == Writers(s.tasks, id);
    assert Committers(s'.tasks, id) == {t};
  }

  lemma CommitAdmittedKeeps(c: Config, s: State, s': State, t: nat, id: string, artifactDigest: string, size: nat,
                            manifestDigest: string, now: nat, removed: set<string>)
    requires Inv(c, s) && Doomed(s, removed) && t !in s.tasks
    requires CommitStartSection(s, s', t, id, artifactDigest, size, manifestDigest, now, removed)
    requires CommitAdmission(s.store, id, artifactDigest, size, manifestDigest).None?
    ensures Inv(c, s')
  {
    var task := Task(Reading(id, s.store.sessions[id].artifactDigest, []), removed);
    WorkerIds(s, t, task);
    assert SessionOk(c, s, id);
    CommitAdmittedSession(c, s, s', t, id, artifactDigest, size, manifestDigest, now, task);
    WorkKeeps(c, s, s', t, task, id);
  }

  lemma CommitReadKeeps(c: Config, s: State, s': State, t: nat, n: nat)
    requires Inv(c, s) && CommitReadStep(c, s, s', t, n)
    ensures Inv(c, s')
  {
    assert TaskOk(c, s, t);
    var p := s.tasks[t].phase;
    if p.acc <= s.files[p.id] {
      assert s'.tasks[t].phase.acc == s.files[p.id][..|p.acc| + n];
    }
    SameWorkKeeps(c, s, s', t, s'.tasks[t]);
  }

  lemma CommitDigestKeeps(c: Config, s: State, s': State, t: nat, ok: bool)
    requires Inv(c, s) && CommitDigestStep(c, s, s', t, ok)
    ensures Inv(c, s')
  {
    assert TaskOk(c, s, t);
    var p := s.tasks[t].phase;
    assert ok && p.acc <= s.files[p.id] ==> p.acc == s.files[p.id];
    SameWorkKeeps(c, s, s', t, s'.tasks[t]);
  }

  lemma CommitSettledSession(c: Config, s: State, s': State, t: nat, now: nat)
    requires t in s.tasks && s.tasks[t].phase.ReadDone? && TaskOk(c, s, t)
    requires s.tasks[t].phase.id in s.store.sessions && SessionOk(c, s, s.tasks[t].phase.id)
    requires var p := s.tasks[t].phase; s'.store == CommitSettled(s.store, p.id, p.expected, p.digest, now)
    requires s'.files == s.files && s'.acked == s.acked
    requires s'.tasks == Without(s.tasks, t) || s'.tasks == s.tasks[t := Task(Cleaning, s.tasks[t].plan)]
    ensures SessionOk(c, s', s.tasks[t].phase.id)
  {
    var id := s.tasks[t].phase.id;
    TaskSet(s.tasks, t, Task(Cleaning, s.tasks[t].plan), id);
    assert t in Committers(s.tasks, id);
    assert Committers(s.tasks, id) - {t} == {} by {
      assert |Committers(s.tasks, id) - {t}| == |Committers(s.tasks, id)| - 1;
    }
    assert Writers(s.tasks, id) - {t} == Writers(s.tasks, id);
  }

  /** The second section of commit up to its sweep. */
  lemma CommitSettledKeeps(c: Config, s: State, s': State, t: nat, now: nat)
    requires Inv(c, s) && t in s.tasks && s.tasks[t].phase.ReadDone?
    requires var p := s.tasks[t].phase; s'.store == CommitSettled(s.store, p.id, p.expected, p.digest, now)
    requires s'.files == s.files && s'.acked == s.acked && s'.used == s.used
    requires s'.tasks == Without(s.tasks, t) || s'.tasks == s.tasks[t := Task(Cleaning, s.tasks[t].plan)]
    ensures Inv(c, s')
  {
    var id := s.tasks[t].phase.id;
    assert TaskOk(c, s, t);
    if id in s.store.sessions {
      assert SessionOk(c, s, id);
      CommitSettledSession(c, s, s', t, now);
    }
    assert WorksOn(s.store, s'.store, id);
    WorkerEnds(s.store.sessions.Keys, s.used, s.tasks, s'.tasks, t);
    WorkKeeps(c, s, s', t, Task(Cleaning, s.tasks[t].plan), id);
  }

  /** The state inside a successful commit's second section, before it sweeps. */
  function CommitMarked(s: State, t: nat, now: nat): State
    requires t in s.tasks && s.tasks[t].phase.ReadDone?
  {
    var p := s.tasks[t].phase;
    s.(store := CommitSettled(s.store, p.id, p.expected, p.digest, now),
      tasks := s.tasks[t := Task(Cleaning, s.tasks[t].plan)])
  }

  lemma CommitFinishSweeps(c: Config, s: State, s': State, t: nat, now: nat, removed: set<string>)
    requires CommitFinishStep(c, s, s', t, now, removed)
    requires s.tasks[t].phase.id in s.store.sessions && s.tasks[t].phase.digest == Some(s.tasks[t].phase.expected)
    ensures removed <= CommitMarked(s, t, now).store.sessions.Keys
    ensures var s1 := CommitMarked(s, t, now);
      s' == AfterSweep(s1, removed).(tasks := s1.tasks[t := Task(Cleaning, s1.tasks[t].plan + removed)])
  {
    var p := s.tasks[t].phase;
    SweepTakesIdle(c, s.(store := CommitSettled(s.store, p.id, p.expected, p.digest, now)), now, {p.id}, removed);
    TaskTwice(s.tasks, t, Task(Cleaning, s.tasks[t].plan), Task(Cleaning, s.tasks[t].plan + removed));
  }

  lemma TaskTwice(tasks: map<nat, Task>, t: nat, a: Task, b: Task)
    ensures tasks[t := a][t := b] == tasks[t := b]
  {}

  lemma CommitFinishKeeps(c: Config, s: State, s': State, t: nat, now: nat, removed: set<string>)
    requires Inv(c, s) && CommitFinishStep(c, s, s', t, now, removed)
    ensures Inv(c, s')
  {
    var p := s.tasks[t].phase;
    if p.id in s.store.sessions && p.digest == Some(p.expected) {
      CommitFinishSweeps(c, s, s', t, now, removed);
      CommitSettledKeeps(c, s, CommitMarked(s, t, now), t, now);
      CleanerSweeps(c, CommitMarked(s, t, now), s', t, removed);
    } else {
      CommitSettledKeeps(c, s, s', t, now);
    }
  }

  /** A cleaning task sweeps and takes on the files of the removed sessions. */
  lemma CleanerSweeps(c: Config, s: State, s': State, t: nat, removed: set<string>)
    requires Inv(c, s) && removed <= s.store.sessions.Keys && t in s.tasks && s.tasks[t].phase.Cleaning?
    requires s' == AfterSweep(s, removed).(tasks := s.tasks[t := Task(Cleaning, s.tasks[t].plan + removed)])
    ensures Inv(c, s')
  {
    SweepDooms(s, removed);
    SweepKeeps(c, s, removed);
    PlanGrows(c, AfterSweep(s, removed), s', t, removed);
  }

  // ---- The remaining steps ----

  /** A cleaning task takes on more doomed files. */
  lemma PlanGrows(c: Config, s: State, s': State, t: nat, more: set<string>)
    requires Inv(c, s) && Doomed(s, more) && t in s.tasks && s.tasks[t].phase.Cleaning?
    requires s' == s.(tasks := s.tasks[t := Task(Cleaning, s.tasks[t].plan + more)])
    ensures Inv(c, s')
  {
    IdsUpdate(s.store.sessions.Keys, s.used, s.tasks, s.store.sessions.Keys, s.used, t, s'.tasks[t]);
    BystanderKeeps(c, s, s', t, s'.tasks[t]);
  }

  /** A new task arrives that only has files to delete. */
  lemma CleanerArrives(c: Config, s: State, s': State, t: nat, plan: set<string>)
    requires Inv(c, s) && Doomed(s, plan) && t !in s.tasks
    requires s'.tasks == s.tasks[t := Task(Cleaning, plan)] && OnlyTouched(s.store, s'.store)
    requires s'.acked == s.acked && s'.files == s.files && s'.used == s.used
    ensures Inv(c, s')
  {
    IdsUpdate(s.store.sessions.Keys, s.used, s.tasks, s.store.sessions.Keys, s.used, t, Task(Cleaning, plan));
    BystanderKeeps(c, s, s', t, Task(Cleaning, plan));
  }

  lemma LookupKeeps(c: Config, s: State, s': State, t: nat, id: string, now: nat, removed: set<string>)
    requires Inv(c, s) && LookupStep(c, s, s', t, id, now, removed)
    ensures Inv(c, s')
  {
    SweepTakesIdle(c, s, now, {id}, removed);
    SweepDooms(s, removed);
    SweepKeeps(c, s, removed);
    var s1 := AfterSweep(s, removed);
    if id in s1.store.sessions && s1.store.sessions[id].committed {
      TouchOnlyTouches(s1.store, id, now);
      CleanerArrives(c, s1, s', t, removed);
    }
  }

  /** Purging a session is sweeping it away, by the way keys mirror sessions. */
  lemma PurgeIsSweep(st: Store, id: string)
    requires KeysMirror(st)
    ensures Purged(st, id) == Swept(st, {id})
  {}

  lemma PurgeKeeps(c: Config, s: State, s': State, t: nat, id: string, now: nat, removed: set<string>)
    requires Inv(c, s) && PurgeStep(c, s, s', t, id, now, removed)
    ensures Inv(c, s')
  {
    SweepTakesIdle(c, s, now, {id}, removed);
    SweepDooms(s, removed);
    SweepKeeps(c, s, removed);
    PurgeSweptKeeps(c, AfterSweep(s, removed), s', t, id, removed);
  }

  lemma PurgeSweptKeeps(c: Config, s: State, s': State, t: nat, id: string, removed: set<string>)
    requires Inv(c, s) && Doomed(s, removed) && t !in s.tasks
    requires s' == s.(store := Purged(s.store, id),
                      tasks := s.tasks[t := Task(Cleaning, removed + if id in s.store.sessions then {id} else {})])
    ensures Inv(c, s')
  {
    var gone := if id in s.store.sessions then {id} else {};
    PurgeIsSweep(s.store, id);
    SweepDooms(s, gone);
    SweepKeeps(c, s, {id});
    CleanerArrives(c, AfterSweep(s, {id}), s', t, removed + gone);
  }

  lemma CleanFileIds(s: State, s': State, t: nat, id: string)
    requires IdsApart(s.store.sessions.Keys, s.used, s.tasks) && t in s.tasks && s.tasks[t].phase.Cleaning?
    requires s'.tasks == Without(s.tasks, t) || s'.tasks == s.tasks[t := s.tasks[t].(plan := s.tasks[t].plan - {id})]
    ensures IdsApart(s.store.sessions.Keys, s.used, s'.tasks)
  {}

  /** Deleting a planned file never hits a live session or one being created. */
  lemma CleanFileKeeps(c: Config, s: State, s': State, t: nat, id: string, ok: bool)
    requires Inv(c, s) && CleanFileStep(c, s, s', t, id, ok)
    ensures Inv(c, s')
  {
    CleanFileIds(s, s', t, id);
    BystanderSessions(c, s, s', t, s.tasks[t].(plan := s.tasks[t].plan - {id}));
    CleanFileTasks(c, s, s', t, id, ok);
  }

  lemma CleanFileTasks(c: Config, s: State, s': State, t: nat, id: string, ok: bool)
    requires IdsApart(s.store.sessions.Keys, s.used, s.tasks) && TasksOk(c, s) && CleanFileStep(c, s, s', t, id, ok)
    ensures TasksOk(c, s')
  {
    forall u | u in s'.tasks && u != t ensures SameTask(s, s', u) {
      CleanFileTask(s, s', t, id, ok, c, u);
    }
    TasksFrame(c, s, s', {t});
  }

  lemma CleanFileTask(s: State, s': State, t: nat, id: string, ok: bool, c: Config, u: nat)
    requires IdsApart(s.store.sessions.Keys, s.used, s.tasks) && CleanFileStep(c, s, s', t, id, ok)
    requires u in s'.tasks
    ensures u == t || SameTask(s, s', u)
  {}

  lemma PinKeeps(c: Config, s: State, pins: map<string, nat>)
    requires Inv(c, s)
    ensures Inv(c, s.(pins := pins))
  {
    SessionsFrame(c, s, s.(pins := pins), {});
    TasksFrame(c, s, s.(pins := pins), {});
  }

  // ---- Every reachable state ----

  lemma StepKeeps(c: Config, s: State, e: Event, s': State)
    requires Inv(c, s) && Step(c, s, e, s')
    ensures Inv(c, s')
  {
    match e
    case PrepareStart(t, session, id, now, removed) => PrepareStartKeeps(c, s, s', t, session, id, now, removed);
    case PrepareFile(t, ok, leftover) => PrepareFileKeeps(c, s, s', t, ok, leftover);
    case PrepareFinish(t, now, removed) => PrepareFinishKeeps(c, s, s', t, now, removed);
    case PushStart(t, id, token, offset, chunk, now, removed) =>
      PushStartKeeps(c, s, s', t, id, token, offset, chunk, now, removed);
    case PushWrite(t, n) => PushWriteKeeps(c, s, s', t, n);
    case PushWritten(t, ok) => PushWrittenKeeps(c, s, s', t, ok);
    case PushFinish(t, now) => PushFinishKeeps(c, s, s', t, now);
    case CommitStart(t, id, digest, size, manifest, now, removed) =>
      CommitStartKeeps(c, s, s', t, id, digest, size, manifest, now, removed);
    case CommitRead(t, n) => CommitReadKeeps(c, s, s', t, n);
    case CommitDigest(t, ok) => CommitDigestKeeps(c, s, s', t, ok);
    case CommitFinish(t, now, removed) => CommitFinishKeeps(c, s, s', t, now, removed);
    case Lookup(t, id, now, removed) => LookupKeeps(c, s, s', t, id, now, removed);
    case Purge(t, id, now, removed) => PurgeKeeps(c, s, s', t, id, now, removed);
    case CleanFile(t, id, ok) => CleanFileKeeps(c, s, s', t, id, ok);
    case Pin(id) => PinKeeps(c, s, s'.pins);
    case Unpin(id) => PinKeeps(c, s, s'.pins);
  }
}
